/** What the evidence codec reads and writes, told without its steps. */
module EvidenceMeaning {
  import opened StateMachine
  import opened EvidenceCodec

  // Reading

  /** An envelope of two fields, in either order: its tag, and its content. */
  predicate Envelope(j: Json, tag: string, key: string, content: Json) {
    && j.JObject? && |j.fields| == 2
    && (|| (j.fields[0] == Field("$evidence", JString(tag)) && j.fields[1] == Field(key, content))
        || (j.fields[1] == Field("$evidence", JString(tag)) && j.fields[0] == Field(key, content)))
  }

  ghost predicate HoldsText(j: Json, tag: string, text: string) {
    Envelope(j, tag, "value", JString(text))
  }

  ghost predicate HoldsItems(j: Json, tag: string, key: string, items: seq<Json>) {
    Envelope(j, tag, key, JArray(items))
  }

  /** The stored value stands for the evidence value: a plain value for itself, a leaf by a text that reads
      as it, a mapping by its pairs in order, a list or a tuple by its items in order. */
  ghost predicate Reads(f: Format, j: Json, v: Value)
    decreases v
  {
    match v
    case Absent => j == JNull
    case Flag(b) => j == JBool(b)
    case Whole(n) => j == JInt(n)
    case Text(s) => j == JString(s)
    case Exact(d) => f.supported(d) && exists text :: HoldsText(j, "decimal", text) && f.decimalOf(text) == Some(d)
    case Unique(u) => exists text :: HoldsText(j, "uuid", text) && f.uuidOf(text) == Some(u)
    case At(t) => exists text :: HoldsText(j, "datetime", text) && f.momentOf(text) == Some(t)
    case Mapping(entries) =>
      DistinctKeys(entries)
      && exists items :: HoldsItems(j, "map", "entries", items) && ReadsPairs(f, items, entries)
    case List(values) =>
      exists items :: HoldsItems(j, "list", "items", items) && ReadsAll(f, items, values)
    case Tuple(values) =>
      exists items :: HoldsItems(j, "tuple", "items", items) && ReadsAll(f, items, values)
  }

  ghost predicate ReadsAll(f: Format, items: seq<Json>, values: seq<Value>)
    decreases values
  {
    |items| == |values| && forall i :: 0 <= i < |items| ==> Reads(f, items[i], values[i])
  }

  ghost predicate ReadsPairs(f: Format, items: seq<Json>, entries: seq<Entry>)
    decreases entries
  {
    |items| == |entries| && forall i :: 0 <= i < |items| ==> ReadsPair(f, items[i], entries[i])
  }

  ghost predicate ReadsPair(f: Format, j: Json, e: Entry)
    decreases e
  {
    j.JArray? && |j.items| == 2 && j.items[0] == JString(e.key) && Reads(f, j.items[1], e.value)
  }

  lemma EnvelopeIs(j: Json, tag: string, key: string, content: Json)
    requires key != "$evidence"
    ensures Envelope(j, tag, key, content) <==>
              && j.JObject? && TagIn(j.fields) == Some(tag) && ContentAt(j.fields, key).Some?
              && j.fields[ContentAt(j.fields, key).value].content == content
  {
    if j.JObject? && |j.fields| == 2 {
      assert j.fields[1..][0] == j.fields[1] && j.fields[1..][1..] == [];
      assert TagIn(j.fields[1..]) == if j.fields[1].key == TAG && j.fields[1].content.JString? then
                                       Some(j.fields[1].content.text) else None;
    }
  }

  /** A stored value is decoded exactly if it stands for some value, and then to that value. */
  lemma {:induction false} DecodeReads(f: Format, j: Json, v: Value)
    ensures Decode(f, j) == Some(v) <==> Reads(f, j, v)
    decreases j
  {
    hide TagIn, ContentAt, DecodeItems, DecodeEntries, DistinctKeys, Envelope, ReadsAll, ReadsPairs;
    if Decode(f, j) == Some(v) { DecodedReads(f, j, v); }
    if Reads(f, j, v) { ReadDecodes(f, j, v); }
  }

  lemma {:induction false} DecodedReads(f: Format, j: Json, v: Value)
    requires Decode(f, j) == Some(v)
    ensures Reads(f, j, v)
    decreases j
  {
    hide TagIn, ContentAt, DecodeItems, DecodeEntries, DistinctKeys, Envelope, ReadsAll, ReadsPairs;
    if j.JObject? {
      var tag := TagIn(j.fields).value;
      var key := ContentKey(tag).value;
      var content := j.fields[ContentAt(j.fields, key).value].content;
      EnvelopeIs(j, tag, key, content);
      if key == "value" {
        assert HoldsText(j, tag, content.text);
      } else {
        assert HoldsItems(j, tag, key, content.items);
        if key == "entries" {
          EntriesRead(f, content.items, []);
          var entries := DecodeEntries(f, content.items, []).value;
          assert entries[0..] == entries;
        } else {
          ItemsRead(f, content.items);
        }
      }
    }
  }

  lemma {:induction false} ItemsRead(f: Format, items: seq<Json>)
    requires DecodeItems(f, items).Some?
    ensures ReadsAll(f, items, DecodeItems(f, items).value)
    decreases items
  {
    if items != [] {
      var values := DecodeItems(f, items).value;
      DecodedReads(f, items[0], values[0]);
      ItemsRead(f, items[1..]);
      assert values[1..] == DecodeItems(f, items[1..]).value;
      forall i | 0 <= i < |items| ensures Reads(f, items[i], values[i]) {
        if i > 0 { assert items[i] == items[1..][i - 1] && values[i] == values[1..][i - 1]; }
      }
    }
  }

  /** The pairs after those that are done. */
  lemma {:induction false} EntriesRead(f: Format, items: seq<Json>, done: seq<Entry>)
    requires DecodeEntries(f, items, done).Some? && DistinctKeys(done)
    ensures var entries := DecodeEntries(f, items, done).value;
            && |entries| == |done| + |items| && entries[..|done|] == done && DistinctKeys(entries)
            && ReadsPairs(f, items, entries[|done|..])
    decreases items
  {
    if items != [] {
      var pair := items[0];
      var e := Entry(pair.items[0].text, Decode(f, pair.items[1]).value);
      DecodedReads(f, pair.items[1], e.value);
      EntriesRead(f, items[1..], done + [e]);
      var entries := DecodeEntries(f, items, done).value;
      assert entries[|done|] == (done + [e])[|done|];
      var rest := entries[|done + [e]|..];
      forall i | 0 <= i < |items| ensures ReadsPair(f, items[i], entries[|done|..][i]) {
        if i > 0 { assert items[i] == items[1..][i - 1] && entries[|done|..][i] == rest[i - 1]; }
      }
    }
  }

  lemma {:induction false} ReadDecodes(f: Format, j: Json, v: Value)
    requires Reads(f, j, v)
    ensures Decode(f, j) == Some(v)
    decreases v
  {
    hide TagIn, ContentAt, DecodeItems, DecodeEntries, DistinctKeys, Envelope, ReadsAll, ReadsPairs;
    match v
    case Mapping(entries) =>
      var items :| HoldsItems(j, "map", "entries", items) && ReadsPairs(f, items, entries);
      EnvelopeIs(j, "map", "entries", JArray(items));
      assert [] + entries == entries;
      ReadEntriesDecode(f, items, entries, []);
    case List(values) =>
      var items :| HoldsItems(j, "list", "items", items) && ReadsAll(f, items, values);
      EnvelopeIs(j, "list", "items", JArray(items));
      ReadItemsDecode(f, items, values);
    case Tuple(values) =>
      var items :| HoldsItems(j, "tuple", "items", items) && ReadsAll(f, items, values);
      EnvelopeIs(j, "tuple", "items", JArray(items));
      ReadItemsDecode(f, items, values);
    case _ => ReadLeafDecodes(f, j, v);
  }

  lemma {:induction false} ReadLeafDecodes(f: Format, j: Json, v: Value)
    requires Reads(f, j, v) && !v.Mapping? && !v.List? && !v.Tuple?
    ensures Decode(f, j) == Some(v)
  {
    hide TagIn, ContentAt, DecodeItems, DecodeEntries, Envelope;
    match v
    case Exact(d) =>
      var text :| HoldsText(j, "decimal", text) && f.decimalOf(text) == Some(d);
      EnvelopeIs(j, "decimal", "value", JString(text));
    case Unique(u) =>
      var text :| HoldsText(j, "uuid", text) && f.uuidOf(text) == Some(u);
      EnvelopeIs(j, "uuid", "value", JString(text));
    case At(t) =>
      var text :| HoldsText(j, "datetime", text) && f.momentOf(text) == Some(t);
      EnvelopeIs(j, "datetime", "value", JString(text));
    case _ =>
  }

  lemma {:induction false} ReadItemsDecode(f: Format, items: seq<Json>, values: seq<Value>)
    requires ReadsAll(f, items, values)
    ensures DecodeItems(f, items) == Some(values)
    decreases values
  {
    if items != [] {
      ReadDecodes(f, items[0], values[0]);
      ReadItemsDecode(f, items[1..], values[1..]);
      assert values == [values[0]] + values[1..];
    }
  }

  lemma {:induction false} ReadEntriesDecode(f: Format, items: seq<Json>, entries: seq<Entry>, done: seq<Entry>)
    requires ReadsPairs(f, items, entries)
    requires DistinctKeys(done + entries)
    ensures DecodeEntries(f, items, done) == Some(done + entries)
    decreases entries
  {
    if items == [] {
      assert done + entries == done;
    } else {
      var e, rest := entries[0], entries[1..];
      assert ReadsPair(f, items[0], e);
      ReadDecodes(f, items[0].items[1], e.value);
      assert done + [e] + rest == done + entries;
      assert !HasKey(done, e.key) by {
        forall i | 0 <= i < |done| ensures done[i].key != e.key {
          assert (done + entries)[i] == done[i] && (done + entries)[|done|] == e;
        }
      }
      ReadEntriesDecode(f, items[1..], rest, done + [e]);
    }
  }

  // Writing

  predicate Ascending(ps: seq<Printed>) {
    forall i, j :: 0 <= i < j < |ps| ==> !Before(ps[j].key, ps[i].key)
  }

  lemma {:induction false} BeforeIsAnOrder(a: string, b: string, c: string)
    ensures !Before(a, a)
    ensures !(Before(a, b) && Before(b, a))
    ensures !Before(b, a) && !Before(c, b) ==> !Before(c, a)
    ensures !Before(a, b) && !Before(b, a) ==> a == b
    decreases |a| + |b| + |c|
  {
    if a != [] && b != [] && c != [] { BeforeIsAnOrder(a[1..], b[1..], c[1..]); }
    if a != [] && b != [] {
      BeforeIsAnOrder(a[1..], b[1..], []);
      assert a == [a[0]] + a[1..] && b == [b[0]] + b[1..];
    }
    if a != [] { BeforeIsAnOrder(a[1..], [], []); }
  }

  lemma {:induction false} InsertAscends(p: Printed, ps: seq<Printed>)
    requires Ascending(ps)
    ensures Ascending(Insert(p, ps)) && multiset(Insert(p, ps)) == multiset(ps) + multiset{p}
    decreases |ps|
  {
    hide Before;
    if ps == [] {
    } else if Before(p.key, ps[0].key) {
      forall j | 0 <= j < |ps| ensures !Before(ps[j].key, p.key) {
        BeforeIsAnOrder(p.key, ps[0].key, ps[j].key);
        BeforeIsAnOrder(ps[0].key, p.key, ps[j].key);
      }
    } else {
      var rest := Insert(p, ps[1..]);
      InsertAscends(p, ps[1..]);
      assert ps == [ps[0]] + ps[1..];
      forall j | 0 <= j < |rest| ensures !Before(rest[j].key, ps[0].key) {
        assert rest[j] in multiset(rest);
        if rest[j] != p {
          var i :| 0 <= i < |ps[1..]| && ps[1..][i] == rest[j];
          assert ps[i + 1] == rest[j];
        }
      }
    }
  }

  /** An object is printed with its fields in ascending order of their keys, each of them once. */
  lemma {:induction false} FieldsAreSorted(ps: seq<Printed>)
    ensures Ascending(Sorted(ps)) && multiset(Sorted(ps)) == multiset(ps)
    decreases |ps|
  {
    if ps != [] {
      FieldsAreSorted(ps[1..]);
      InsertAscends(ps[0], Sorted(ps[1..]));
      assert ps == [ps[0]] + ps[1..];
    }
  }
}
