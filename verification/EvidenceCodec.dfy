/** The reversible evidence envelope: encoder, decoder, streaming printer and size measure. */
module EvidenceCodec {
  import opened StateMachine
  import opened Decimals

  /** An instant with its offset from universal time. */
  datatype Moment = Moment(instant: int, offset: int)

  datatype Value =
    | Absent | Flag(flag: bool) | Whole(number: int) | Text(text: string)
    | Exact(decimal: Decimal) | Unique(uuid: int) | At(moment: Moment)
    | Mapping(entries: seq<Entry>) | List(items: seq<Value>) | Tuple(items: seq<Value>)

  datatype Entry = Entry(key: string, value: Value)

  datatype Json =
    | JNull | JBool(flag: bool) | JInt(number: int) | JString(text: string)
    | JArray(items: seq<Json>) | JObject(fields: seq<Field>)

  datatype Field = Field(key: string, content: Json)

  const TAG := "$evidence"

  /** How leaves are written and read, and how a JSON string or integer is printed. */
  datatype Format = Format(
    decimalText: Decimal -> string,
    decimalOf: string -> Option<Decimal>,
    uuidText: int -> string,
    uuidOf: string -> Option<int>,
    momentText: Moment -> string,
    momentOf: string -> Option<Moment>,
    supported: Decimal -> bool,
    quote: string -> string,
    digits: int -> string)

  /** Reading a leaf back gives the leaf. */
  ghost predicate Faithful(f: Format) {
    && (forall d :: f.decimalOf(f.decimalText(d)) == Some(d))
    && (forall u :: f.uuidOf(f.uuidText(u)) == Some(u))
    && (forall t :: f.momentOf(f.momentText(t)) == Some(t))
  }

  /** What the preflight lets through, as far as the codec depends on it: decimals within the
      limits, and mappings whose keys differ, as a mapping's do. */
  predicate Checked(f: Format, v: Value)
    decreases v
  {
    match v
    case Exact(d) => f.supported(d)
    case Mapping(entries) => DistinctKeys(entries) && CheckedEntries(f, entries)
    case List(items) => CheckedItems(f, items)
    case Tuple(items) => CheckedItems(f, items)
    case _ => true
  }

  predicate CheckedItems(f: Format, items: seq<Value>)
    decreases items
  {
    items == [] || (Checked(f, items[0]) && CheckedItems(f, items[1..]))
  }

  predicate CheckedEntries(f: Format, entries: seq<Entry>)
    decreases entries
  {
    entries == [] || (Checked(f, entries[0].value) && CheckedEntries(f, entries[1..]))
  }

  predicate DistinctKeys(entries: seq<Entry>) {
    forall i, j :: 0 <= i < j < |entries| ==> entries[i].key != entries[j].key
  }

  // Encoding

  function Tagged(tag: string, key: string, content: Json): Json {
    JObject([Field(TAG, JString(tag)), Field(key, content)])
  }

  function Encode(f: Format, v: Value): Json
    decreases v
  {
    match v
    case Absent => JNull
    case Flag(b) => JBool(b)
    case Whole(n) => JInt(n)
    case Text(s) => JString(s)
    case Exact(d) => Tagged("decimal", "value", JString(f.decimalText(d)))
    case Unique(u) => Tagged("uuid", "value", JString(f.uuidText(u)))
    case At(t) => Tagged("datetime", "value", JString(f.momentText(t)))
    case Mapping(entries) => Tagged("map", "entries", JArray(EncodeEntries(f, entries)))
    case List(items) => Tagged("list", "items", JArray(EncodeItems(f, items)))
    case Tuple(items) => Tagged("tuple", "items", JArray(EncodeItems(f, items)))
  }

  function EncodeItems(f: Format, items: seq<Value>): (r: seq<Json>)
    ensures |r| == |items|
    decreases items
  {
    if items == [] then [] else [Encode(f, items[0])] + EncodeItems(f, items[1..])
  }

  function EncodeEntries(f: Format, entries: seq<Entry>): (r: seq<Json>)
    ensures |r| == |entries|
    decreases entries
  {
    if entries == [] then []
    else [JArray([JString(entries[0].key), Encode(f, entries[0].value)])] + EncodeEntries(f, entries[1..])
  }

  // Decoding

  /** Where the content of a two-field envelope with the given content key stands. */
  function ContentAt(fields: seq<Field>, key: string): (r: Option<nat>)
    ensures r.Some? ==> r.value < |fields| == 2 && fields[r.value].key == key && fields[1 - r.value].key == TAG
  {
    if |fields| != 2 then None
    else if fields[0].key == TAG && fields[1].key == key then Some(1)
    else if fields[1].key == TAG && fields[0].key == key then Some(0)
    else None
  }

  function TagIn(fields: seq<Field>): Option<string> {
    if fields == [] then None
    else if fields[0].key == TAG then (if fields[0].content.JString? then Some(fields[0].content.text) else None)
    else TagIn(fields[1..])
  }

  function ContentKey(tag: string): Option<string> {
    if tag in {"decimal", "uuid", "datetime"} then Some("value")
    else if tag == "map" then Some("entries")
    else if tag in {"list", "tuple"} then Some("items")
    else None
  }

  function DecodeLeaf(f: Format, tag: string, text: string): Option<Value> {
    if tag == "decimal" then
      match f.decimalOf(text)
      case None => None
      case Some(d) => if f.supported(d) then Some(Exact(d)) else None
    else if tag == "uuid" then
      match f.uuidOf(text)
      case None => None
      case Some(u) => Some(Unique(u))
    else
      match f.momentOf(text)
      case None => None
      case Some(t) => Some(At(t))
  }

  function Decode(f: Format, j: Json): Option<Value>
    decreases j
  {
    match j
    case JNull => Some(Absent)
    case JBool(b) => Some(Flag(b))
    case JInt(n) => Some(Whole(n))
    case JString(s) => Some(Text(s))
    case JArray(_) => None
    case JObject(fields) =>
      var tag := TagIn(fields);
      var key := if tag.None? then None else ContentKey(tag.value);
      var at := if key.None? then None else ContentAt(fields, key.value);
      if at.None? then None
      else
        var content := fields[at.value].content;
        if key.value == "value" then
          if content.JString? then DecodeLeaf(f, tag.value, content.text) else None
        else if !content.JArray? then None
        else if key.value == "entries" then
          var entries := DecodeEntries(f, content.items, []);
          if entries.None? then None else Some(Mapping(entries.value))
        else
          var items := DecodeItems(f, content.items);
          if items.None? then None
          else if tag.value == "list" then Some(List(items.value)) else Some(Tuple(items.value))
  }

  function DecodeItems(f: Format, items: seq<Json>): Option<seq<Value>>
    decreases items
  {
    if items == [] then Some([])
    else
      var first, rest := Decode(f, items[0]), DecodeItems(f, items[1..]);
      if first.None? || rest.None? then None else Some([first.value] + rest.value)
  }

  predicate HasKey(entries: seq<Entry>, key: string) {
    exists i :: 0 <= i < |entries| && entries[i].key == key
  }

  /** The entries decoded so far, extended by the remaining ones; a repeated key is rejected. */
  function DecodeEntries(f: Format, items: seq<Json>, done: seq<Entry>): Option<seq<Entry>>
    decreases items
  {
    if items == [] then Some(done)
    else
      var pair := items[0];
      if !pair.JArray? || |pair.items| != 2 || !pair.items[0].JString? || HasKey(done, pair.items[0].text) then None
      else
        var nested := Decode(f, pair.items[1]);
        if nested.None? then None
        else DecodeEntries(f, items[1..], done + [Entry(pair.items[0].text, nested.value)])
  }

  // Round trip

  /** Decoding what was encoded gives the value back, also for mappings that hold the key
      "$evidence" and for nested envelopes that look like others. */
  lemma {:induction false} RoundTrip(f: Format, v: Value)
    requires Faithful(f) && Checked(f, v)
    ensures Decode(f, Encode(f, v)) == Some(v)
    decreases v
  {
    hide TagIn, ContentAt, DistinctKeys, DecodeItems, DecodeEntries, EncodeItems, EncodeEntries;
    match v
    case Mapping(entries) =>
      assert [] + entries == entries;
      EntriesRoundTrip(f, entries, []);
      Recognised("map", "entries", JArray(EncodeEntries(f, entries)));
    case List(items) =>
      ItemsRoundTrip(f, items);
      Recognised("list", "items", JArray(EncodeItems(f, items)));
    case Tuple(items) =>
      ItemsRoundTrip(f, items);
      Recognised("tuple", "items", JArray(EncodeItems(f, items)));
    case Exact(d) => Recognised("decimal", "value", JString(f.decimalText(d)));
    case Unique(u) => Recognised("uuid", "value", JString(f.uuidText(u)));
    case At(t) => Recognised("datetime", "value", JString(f.momentText(t)));
    case _ =>
  }

  lemma Recognised(tag: string, key: string, content: Json)
    requires ContentKey(tag) == Some(key)
    ensures ContentKey(tag) == Some(key)
    ensures var fields := Tagged(tag, key, content).fields;
            TagIn(fields) == Some(tag) && ContentAt(fields, key) == Some(1) && fields[1].content == content
  {
  }

  lemma {:induction false} ItemsRoundTrip(f: Format, items: seq<Value>)
    requires Faithful(f) && CheckedItems(f, items)
    ensures DecodeItems(f, EncodeItems(f, items)) == Some(items)
    decreases items
  {
    if items != [] {
      RoundTrip(f, items[0]);
      ItemsRoundTrip(f, items[1..]);
      assert EncodeItems(f, items)[1..] == EncodeItems(f, items[1..]);
      assert [items[0]] + items[1..] == items;
    }
  }

  lemma {:induction false} EntriesRoundTrip(f: Format, entries: seq<Entry>, done: seq<Entry>)
    requires Faithful(f) && CheckedEntries(f, entries) && DistinctKeys(done + entries)
    ensures DecodeEntries(f, EncodeEntries(f, entries), done) == Some(done + entries)
    decreases entries
  {
    if entries == [] {
      assert done + entries == done;
    } else {
      var first, rest := entries[0], entries[1..];
      RoundTrip(f, first.value);
      assert EncodeEntries(f, entries)[1..] == EncodeEntries(f, rest);
      assert (done + [first]) + rest == done + entries;
      assert !HasKey(done, first.key) by {
        forall i | 0 <= i < |done| ensures done[i].key != first.key {
          assert (done + entries)[i] == done[i] && (done + entries)[|done|] == first;
        }
      }
      EntriesRoundTrip(f, rest, done + [first]);
    }
  }

  /** A stored container without an envelope, or an envelope with anything but its two keys, is
      rejected; and whatever is decoded has supported decimals and distinct keys throughout. Its depth
      and the length of its texts are not limited; EvidenceLimits says what follows from that. */
  lemma {:induction false} DecodedIsChecked(f: Format, j: Json)
    requires Decode(f, j).Some?
    ensures Checked(f, Decode(f, j).value)
    ensures !j.JArray? && (j.JObject? ==> |j.fields| == 2)
    decreases j
  {
    if j.JObject? {
      var key := ContentKey(TagIn(j.fields).value).value;
      var content := j.fields[ContentAt(j.fields, key).value].content;
      if key == "entries" {
        EntriesAreChecked(f, content.items, []);
      } else if key == "items" {
        ItemsAreChecked(f, content.items);
      }
    }
  }

  lemma {:induction false} ItemsAreChecked(f: Format, items: seq<Json>)
    requires DecodeItems(f, items).Some?
    ensures CheckedItems(f, DecodeItems(f, items).value)
    decreases items
  {
    if items != [] {
      DecodedIsChecked(f, items[0]);
      ItemsAreChecked(f, items[1..]);
      assert DecodeItems(f, items).value[1..] == DecodeItems(f, items[1..]).value;
    }
  }

  lemma {:induction false} CheckedAppend(f: Format, entries: seq<Entry>, e: Entry)
    requires CheckedEntries(f, entries) && Checked(f, e.value)
    ensures CheckedEntries(f, entries + [e])
  {
    if entries != [] {
      CheckedAppend(f, entries[1..], e);
      assert (entries + [e])[1..] == entries[1..] + [e];
    }
  }

  lemma {:induction false} EntriesAreChecked(f: Format, items: seq<Json>, done: seq<Entry>)
    requires DecodeEntries(f, items, done).Some? && CheckedEntries(f, done) && DistinctKeys(done)
    ensures CheckedEntries(f, DecodeEntries(f, items, done).value) && DistinctKeys(DecodeEntries(f, items, done).value)
    decreases items
  {
    if items != [] {
      var pair := items[0];
      DecodedIsChecked(f, pair.items[1]);
      var e := Entry(pair.items[0].text, Decode(f, pair.items[1]).value);
      CheckedAppend(f, done, e);
      EntriesAreChecked(f, items[1..], done + [e]);
    }
  }

  // Printing

  /** Canonical JSON: keys in order, no spaces. */
  function Print(f: Format, j: Json): string
    decreases j
  {
    match j
    case JNull => "null"
    case JBool(b) => if b then "true" else "false"
    case JInt(n) => f.digits(n)
    case JString(s) => f.quote(s)
    case JArray(items) => "[" + Joined(PrintItems(f, items)) + "]"
    case JObject(fields) => "{" + Joined(Texts(f, Sorted(PrintFields(f, fields)))) + "}"
  }

  function PrintItems(f: Format, items: seq<Json>): (r: seq<string>)
    ensures |r| == |items|
    decreases items
  {
    if items == [] then [] else [Print(f, items[0])] + PrintItems(f, items[1..])
  }

  datatype Printed = Printed(key: string, text: string)

  function PrintFields(f: Format, fields: seq<Field>): seq<Printed>
    decreases fields
  {
    if fields == [] then []
    else [Printed(fields[0].key, Print(f, fields[0].content))] + PrintFields(f, fields[1..])
  }

  predicate Before(a: string, b: string) {
    if a == [] then b != []
    else b != [] && (a[0] < b[0] || (a[0] == b[0] && Before(a[1..], b[1..])))
  }

  function Insert(p: Printed, sorted: seq<Printed>): seq<Printed> {
    if sorted == [] || Before(p.key, sorted[0].key) then [p] + sorted
    else [sorted[0]] + Insert(p, sorted[1..])
  }

  function Sorted(ps: seq<Printed>): seq<Printed> {
    if ps == [] then [] else Insert(ps[0], Sorted(ps[1..]))
  }

  function Texts(f: Format, ps: seq<Printed>): seq<string> {
    if ps == [] then [] else [f.quote(ps[0].key) + ":" + ps[0].text] + Texts(f, ps[1..])
  }

  /** The parts with commas between them. */
  function Joined(parts: seq<string>): string {
    if parts == [] then ""
    else if |parts| == 1 then parts[0]
    else parts[0] + "," + Joined(parts[1..])
  }

  // Streaming

  /** The chunks of the envelope of a value, without building its tree. */
  function Stream(f: Format, v: Value): seq<string>
    decreases v
  {
    match v
    case Absent => ["null"]
    case Flag(b) => [if b then "true" else "false"]
    case Whole(n) => [f.digits(n)]
    case Text(s) => [f.quote(s)]
    case Exact(d) => StreamLeaf(f, "decimal", f.decimalText(d))
    case Unique(u) => StreamLeaf(f, "uuid", f.uuidText(u))
    case At(t) => StreamLeaf(f, "datetime", f.momentText(t))
    case Mapping(entries) => Opening(f, "map", "entries") + StreamEntries(f, entries, true) + ["]}"]
    case List(items) => Opening(f, "list", "items") + StreamItems(f, items, true) + ["]}"]
    case Tuple(items) => Opening(f, "tuple", "items") + StreamItems(f, items, true) + ["]}"]
  }

  function StreamLeaf(f: Format, tag: string, text: string): seq<string> {
    ["{", f.quote(TAG), ":", f.quote(tag), ",", f.quote("value"), ":", f.quote(text), "}"]
  }

  function Opening(f: Format, tag: string, key: string): seq<string> {
    ["{", f.quote(TAG), ":", f.quote(tag), ",", f.quote(key), ":["]
  }

  function StreamItems(f: Format, items: seq<Value>, first: bool): seq<string>
    decreases items
  {
    if items == [] then []
    else (if first then [] else [","]) + Stream(f, items[0]) + StreamItems(f, items[1..], false)
  }

  function StreamEntries(f: Format, entries: seq<Entry>, first: bool): seq<string>
    decreases entries
  {
    if entries == [] then []
    else
      (if first then [] else [","]) + ["[", f.quote(entries[0].key), ","] + Stream(f, entries[0].value) + ["]"]
      + StreamEntries(f, entries[1..], false)
  }

  function Concat(chunks: seq<string>): string {
    if chunks == [] then "" else chunks[0] + Concat(chunks[1..])
  }

  lemma {:induction false} ConcatAdds(a: seq<string>, b: seq<string>)
    ensures Concat(a + b) == Concat(a) + Concat(b)
  {
    if a == [] {
      assert a + b == b;
    } else {
      ConcatAdds(a[1..], b);
      assert (a + b)[1..] == a[1..] + b && (a + b)[0] == a[0];
      assert a[0] + (Concat(a[1..]) + Concat(b)) == (a[0] + Concat(a[1..])) + Concat(b);
    }
  }

  /** An envelope prints its tag first: the tag's key sorts before every content key. */
  lemma {:induction false} TaggedPrints(f: Format, tag: string, key: string, content: Json)
    requires key in {"value", "entries", "items"}
    ensures Print(f, Tagged(tag, key, content))
            == "{" + f.quote(TAG) + ":" + f.quote(tag) + "," + f.quote(key) + ":" + Print(f, content) + "}"
  {
    var a, b := Printed(TAG, f.quote(tag)), Printed(key, Print(f, content));
    TaggedFields(f, tag, key, content);
    TaggedSorts(a, b);
    var x, y := f.quote(a.key) + ":" + a.text, f.quote(b.key) + ":" + b.text;
    assert [a, b][1..] == [b] && [b][1..] == [];
    assert Texts(f, [b]) == [y];
    assert Texts(f, [a, b]) == [x, y];
    assert [x, y][1..] == [y];
    assert Joined([x, y]) == x + "," + y;
    RegroupEnvelope(f.quote(TAG), f.quote(tag), f.quote(key), b.text);
  }

  lemma {:induction false} TaggedFields(f: Format, tag: string, key: string, content: Json)
    ensures PrintFields(f, Tagged(tag, key, content).fields)
            == [Printed(TAG, f.quote(tag)), Printed(key, Print(f, content))]
  {
    var fields := Tagged(tag, key, content).fields;
    assert fields[1..] == [Field(key, content)] && fields[1..][1..] == [];
    assert PrintFields(f, fields[1..]) == [Printed(key, Print(f, content))];
    assert Print(f, JString(tag)) == f.quote(tag);
  }

  lemma TaggedSorts(a: Printed, b: Printed)
    requires a.key == TAG && b.key in {"value", "entries", "items"}
    ensures Sorted([a, b]) == [a, b]
  {
    assert TAG[0] == '$' && b.key[0] in {'v', 'e', 'i'} && Before(TAG, b.key);
    assert [a, b][1..] == [b] && [b][1..] == [];
    assert Sorted([b]) == [b];
  }

  lemma RegroupEnvelope(a: string, b: string, c: string, d: string)
    ensures "{" + ((a + ":" + b) + "," + (c + ":" + d)) + "}" == "{" + a + ":" + b + "," + c + ":" + d + "}"
  {
    var x, y := a + ":" + b, c + ":" + d;
    assert "{" + (x + "," + y) + "}" == "{" + x + "," + y + "}";
    assert "{" + x == "{" + a + ":" + b;
    assert "{" + x + "," + y == "{" + x + "," + c + ":" + d;
  }

  lemma Regroup(a: string, b: string, c: string, open: string, close: string)
    ensures open + (a + b + c) + close == open + a + b + c + close
  {
  }

  /** The streamed chunks, put together, are the canonical JSON of the encoded tree. */
  lemma {:induction false} StreamPrints(f: Format, v: Value)
    ensures Concat(Stream(f, v)) == Print(f, Encode(f, v))
    decreases v
  {
    hide Sorted, Texts, PrintFields;
    match v
    case Mapping(entries) =>
      EntriesPrint(f, entries, true);
      EnvelopePrints(f, "map", "entries", EncodeEntries(f, entries), StreamEntries(f, entries, true));
    case List(items) =>
      ItemsPrint(f, items, true);
      EnvelopePrints(f, "list", "items", EncodeItems(f, items), StreamItems(f, items, true));
    case Tuple(items) =>
      ItemsPrint(f, items, true);
      EnvelopePrints(f, "tuple", "items", EncodeItems(f, items), StreamItems(f, items, true));
    case Exact(d) => LeafPrints(f, "decimal", f.decimalText(d));
    case Unique(u) => LeafPrints(f, "uuid", f.uuidText(u));
    case At(t) => LeafPrints(f, "datetime", f.momentText(t));
    case _ => OneChunk(Stream(f, v)[0]);
  }

  lemma OneChunk(s: string)
    ensures Concat([s]) == s
  {
    assert [s][1..] == [] && s + "" == s;
  }

  lemma {:induction false} LeafPrints(f: Format, tag: string, text: string)
    ensures Concat(StreamLeaf(f, tag, text)) == Print(f, Tagged(tag, "value", JString(text)))
  {
    TaggedPrints(f, tag, "value", JString(text));
    Spelled(["{", f.quote(TAG), ":", f.quote(tag), ",", f.quote("value"), ":", f.quote(text), "}"]);
  }

  lemma {:induction false} Spelled(c: seq<string>)
    requires |c| == 9
    ensures Concat(c) == c[0] + c[1] + c[2] + c[3] + c[4] + c[5] + c[6] + c[7] + c[8]
  {
    hide Concat;
    var a, b, d := c[..3], c[3..6], c[6..];
    assert c == (a + b) + d;
    ConcatAdds(a + b, d);
    ConcatAdds(a, b);
    Three(a);
    Three(b);
    Three(d);
    RegroupThree(c[0] + c[1] + c[2], c[3], c[4], c[5]);
    RegroupThree(c[0] + c[1] + c[2] + c[3] + c[4] + c[5], c[6], c[7], c[8]);
  }

  lemma RegroupThree(s: string, a: string, b: string, c: string)
    ensures s + (a + b + c) == s + a + b + c
  {
  }

  lemma {:induction false} Three(c: seq<string>)
    requires |c| == 3
    ensures Concat(c) == c[0] + c[1] + c[2]
  {
    assert c[1..][1..] == [c[2]];
    OneChunk(c[2]);
  }

  lemma {:induction false} EnvelopePrints(f: Format, tag: string, key: string, items: seq<Json>, chunks: seq<string>)
    requires key in {"entries", "items"} && Concat(chunks) == Joined(PrintItems(f, items))
    ensures Concat(Opening(f, tag, key) + chunks + ["]}"]) == Print(f, Tagged(tag, key, JArray(items)))
  {
    hide Joined, PrintItems, Stream, Opening, Concat;
    var o := Opening(f, tag, key);
    TaggedPrints(f, tag, key, JArray(items));
    ConcatAdds(o + chunks, ["]}"]);
    ConcatAdds(o, chunks);
    OneChunk("]}");
    OpeningSpells(f, tag, key);
    assert ":[" == ":" + "[" && "]}" == "]" + "}";
  }

  lemma OpeningSpells(f: Format, tag: string, key: string)
    ensures Concat(Opening(f, tag, key)) == "{" + f.quote(TAG) + ":" + f.quote(tag) + "," + f.quote(key) + ":["
  {
    var o := Opening(f, tag, key);
    assert o == o[..3] + (o[3..6] + [":["]);
    ConcatAdds(o[..3], o[3..6] + [":["]);
    ConcatAdds(o[3..6], [":["]);
    Three(o[..3]);
    Three(o[3..6]);
    OneChunk(":[");
  }

  lemma {:induction false} ItemsPrint(f: Format, items: seq<Value>, first: bool)
    ensures Concat(StreamItems(f, items, first))
            == (if first || items == [] then "" else ",") + Joined(PrintItems(f, EncodeItems(f, items)))
    decreases items, 0
  {
    hide Print, Stream, Encode;
    if items != [] {
      StreamPrints(f, items[0]);
      ItemsPrint(f, items[1..], false);
      var lead := if first then [] else [","];
      ConcatAdds(lead + Stream(f, items[0]), StreamItems(f, items[1..], false));
      ConcatAdds(lead, Stream(f, items[0]));
      if !first { OneChunk(","); }
      JoinedOn(f, Encode(f, items[0]), EncodeItems(f, items[1..]));
      assert EncodeItems(f, items) == [Encode(f, items[0])] + EncodeItems(f, items[1..]);
    }
  }

  lemma {:induction false} JoinedOn(f: Format, first: Json, rest: seq<Json>)
    ensures Joined(PrintItems(f, [first] + rest))
            == Print(f, first) + (if rest == [] then "" else ",") + Joined(PrintItems(f, rest))
  {
    hide Print;
    var all := [first] + rest;
    assert all[1..] == rest;
    var parts := PrintItems(f, all);
    assert parts == [Print(f, first)] + PrintItems(f, rest);
    assert parts[1..] == PrintItems(f, rest);
  }

  lemma {:induction false} PairChunks(lead: seq<string>, key: string, content: seq<string>, tail: seq<string>)
    ensures Concat(lead + ["[", key, ","] + content + ["]"] + tail)
            == Concat(lead) + ("[" + key + "," + Concat(content) + "]") + Concat(tail)
  {
    hide Concat;
    var head := ["[", key, ","];
    ConcatAdds(lead + head + content + ["]"], tail);
    ConcatAdds(lead + head + content, ["]"]);
    ConcatAdds(lead + head, content);
    ConcatAdds(lead, head);
    Three(head);
    OneChunk("]");
    Regroup(key, ",", Concat(content), "[", "]");
    assert (Concat(lead) + ("[" + key + ",")) + Concat(content) + "]"
           == Concat(lead) + ("[" + key + "," + Concat(content) + "]");
  }

  lemma {:induction false} EntriesPrint(f: Format, entries: seq<Entry>, first: bool)
    ensures Concat(StreamEntries(f, entries, first))
            == (if first || entries == [] then "" else ",") + Joined(PrintItems(f, EncodeEntries(f, entries)))
    decreases entries, 0
  {
    hide Print, Stream, Encode;
    if entries != [] {
      var e, rest := entries[0], entries[1..];
      StreamPrints(f, e.value);
      EntriesPrint(f, rest, false);
      var pair := JArray([JString(e.key), Encode(f, e.value)]);
      PairChunks(if first then [] else [","], f.quote(e.key), Stream(f, e.value), StreamEntries(f, rest, false));
      if !first { OneChunk(","); }
      PairPrints(f, e.key, Encode(f, e.value));
      JoinedOn(f, pair, EncodeEntries(f, rest));
      assert EncodeEntries(f, entries) == [pair] + EncodeEntries(f, rest);
    }
  }

  lemma {:induction false} PairPrints(f: Format, key: string, content: Json)
    ensures Print(f, JArray([JString(key), content])) == "[" + f.quote(key) + "," + Print(f, content) + "]"
  {
    JoinedOn(f, JString(key), [content]);
    JoinedOn(f, content, []);
    assert [JString(key)] + [content] == [JString(key), content] && [content] + [] == [content];
    assert Print(f, JString(key)) == f.quote(key);
    Regroup(f.quote(key), ",", Print(f, content), "[", "]");
  }

  // Measuring

  /** The width of one character in UTF-8. */
  function Width(c: char): nat {
    var n := c as int;
    if n < 0x80 then 1 else if n < 0x800 then 2 else if n < 0x1_0000 then 3 else 4
  }

  function Bytes(s: string): nat {
    if s == "" then 0 else Width(s[0]) + Bytes(s[1..])
  }

  lemma {:induction false} BytesAdd(a: string, b: string)
    ensures Bytes(a + b) == Bytes(a) + Bytes(b)
  {
    if a == "" {
      assert a + b == b;
    } else {
      BytesAdd(a[1..], b);
      assert (a + b)[1..] == a[1..] + b;
    }
  }

  datatype Size = Total(bytes: nat) | Exceeded(observed: nat)

  /** Counts chunk by chunk and stops at the first that goes beyond the limit: the size is reported
      exactly when it is within the limit. */
  method Measure(chunks: seq<string>, limit: nat) returns (size: Size)
    ensures var bytes := Bytes(Concat(chunks));
            if bytes <= limit then size == Total(bytes) else size.Exceeded? && limit < size.observed <= bytes
  {
    var total := 0;
    assert chunks[0..] == chunks;
    for i := 0 to |chunks|
      invariant total <= limit
      invariant Bytes(Concat(chunks)) == total + Bytes(Concat(chunks[i..]))
    {
      assert chunks[i..][1..] == chunks[i + 1..];
      BytesAdd(chunks[i], Concat(chunks[i + 1..]));
      var width := ChunkBytes(chunks[i]);
      total := total + width;
      if total > limit {
        return Exceeded(total);
      }
    }
    size := Total(total);
  }

  method ChunkBytes(chunk: string) returns (bytes: nat)
    ensures bytes == Bytes(chunk)
  {
    bytes := 0;
    assert chunk[0..] == chunk;
    for i := 0 to |chunk|
      invariant Bytes(chunk) == bytes + Bytes(chunk[i..])
    {
      assert chunk[i..][1..] == chunk[i + 1..];
      bytes := bytes + Width(chunk[i]);
    }
  }

  /** Measuring the stream measures the canonical JSON of the encoded tree. */
  method MeasureEncoded(f: Format, v: Value, limit: nat) returns (size: Size)
    ensures var bytes := Bytes(Print(f, Encode(f, v)));
            if bytes <= limit then size == Total(bytes) else size.Exceeded? && limit < size.observed <= bytes
  {
    StreamPrints(f, v);
    size := Measure(Stream(f, v), limit);
  }
}
