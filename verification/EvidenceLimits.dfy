/** Which stored values can be decoded and encoded again: decoding asks for no depth, node, key or
    text limits, the preflight of encoding does. */
module EvidenceLimits {
  import opened StateMachine
  import opened EvidenceCodec
  import EvidencePreflight

  const MAX_TEXT_BYTES: nat := 16 * 1024
  const MAX_KEY_BYTES: nat := 256

  function Larger(a: nat, b: nat): nat {
    if a >= b then a else b
  }

  // The limits of the preflight, on a value

  function Depth(v: Value): nat
    decreases v
  {
    match v
    case Mapping(entries) => 1 + EntriesDepth(entries)
    case List(items) => 1 + ItemsDepth(items)
    case Tuple(items) => 1 + ItemsDepth(items)
    case _ => 1
  }

  function ItemsDepth(items: seq<Value>): nat
    decreases items
  {
    if items == [] then 0 else Larger(Depth(items[0]), ItemsDepth(items[1..]))
  }

  function EntriesDepth(entries: seq<Entry>): nat
    decreases entries
  {
    if entries == [] then 0 else Larger(Depth(entries[0].value), EntriesDepth(entries[1..]))
  }

  function Nodes(v: Value): nat
    decreases v
  {
    match v
    case Mapping(entries) => 1 + EntriesNodes(entries)
    case List(items) => 1 + ItemsNodes(items)
    case Tuple(items) => 1 + ItemsNodes(items)
    case _ => 1
  }

  function ItemsNodes(items: seq<Value>): nat
    decreases items
  {
    if items == [] then 0 else Nodes(items[0]) + ItemsNodes(items[1..])
  }

  function EntriesNodes(entries: seq<Entry>): nat
    decreases entries
  {
    if entries == [] then 0 else Nodes(entries[0].value) + EntriesNodes(entries[1..])
  }

  predicate Short(v: Value)
    decreases v
  {
    match v
    case Text(s) => Bytes(s) <= MAX_TEXT_BYTES
    case Mapping(entries) => ShortEntries(entries)
    case List(items) => ShortItems(items)
    case Tuple(items) => ShortItems(items)
    case _ => true
  }

  predicate ShortItems(items: seq<Value>)
    decreases items
  {
    items == [] || (Short(items[0]) && ShortItems(items[1..]))
  }

  predicate ShortEntries(entries: seq<Entry>)
    decreases entries
  {
    entries == [] || (Bytes(entries[0].key) <= MAX_KEY_BYTES && Short(entries[0].value) && ShortEntries(entries[1..]))
  }

  predicate Preflighted(f: Format, v: Value) {
    && Checked(f, v) && Short(v)
    && Depth(v) <= EvidencePreflight.MAX_DEPTH && Nodes(v) <= EvidencePreflight.MAX_NODES
  }

  /** Encoding with its preflight; None where it raises. */
  function Encoded(f: Format, v: Value): Option<Json> {
    if Preflighted(f, v) then Some(Encode(f, v)) else None
  }

  // The same limits, on a stored value

  /** An array stands for an entry of a mapping where a stored value is expected. */
  function StoredDepth(j: Json): nat
    decreases j
  {
    match j
    case JArray(pair) => if |pair| == 2 then StoredDepth(pair[1]) else 0
    case JObject(fields) => 1 + FieldsDepth(fields)
    case _ => 1
  }

  function FieldsDepth(fields: seq<Field>): nat
    decreases fields
  {
    if fields == [] then 0
    else
      match fields[0].content
      case JArray(items) => Larger(AllDepth(items), FieldsDepth(fields[1..]))
      case _ => FieldsDepth(fields[1..])
  }

  function AllDepth(items: seq<Json>): nat
    decreases items
  {
    if items == [] then 0 else Larger(StoredDepth(items[0]), AllDepth(items[1..]))
  }

  function StoredNodes(j: Json): nat
    decreases j
  {
    match j
    case JArray(pair) => if |pair| == 2 then StoredNodes(pair[1]) else 0
    case JObject(fields) => 1 + FieldsNodes(fields)
    case _ => 1
  }

  function FieldsNodes(fields: seq<Field>): nat
    decreases fields
  {
    if fields == [] then 0
    else
      match fields[0].content
      case JArray(items) => AllNodes(items) + FieldsNodes(fields[1..])
      case _ => FieldsNodes(fields[1..])
  }

  function AllNodes(items: seq<Json>): nat
    decreases items
  {
    if items == [] then 0 else StoredNodes(items[0]) + AllNodes(items[1..])
  }

  predicate StoredShort(j: Json)
    decreases j
  {
    match j
    case JString(s) => Bytes(s) <= MAX_TEXT_BYTES
    case JArray(pair) =>
      |pair| == 2 && pair[0].JString? ==> Bytes(pair[0].text) <= MAX_KEY_BYTES && StoredShort(pair[1])
    case JObject(fields) => FieldsShort(fields)
    case _ => true
  }

  predicate FieldsShort(fields: seq<Field>)
    decreases fields
  {
    fields == []
    || ((fields[0].content.JArray? ==> AllShort(fields[0].content.items)) && FieldsShort(fields[1..]))
  }

  predicate AllShort(items: seq<Json>)
    decreases items
  {
    items == [] || (StoredShort(items[0]) && AllShort(items[1..]))
  }

  predicate StoredInLimits(j: Json) {
    && StoredShort(j)
    && StoredDepth(j) <= EvidencePreflight.MAX_DEPTH && StoredNodes(j) <= EvidencePreflight.MAX_NODES
  }

  // Decoding keeps the measures

  predicate Measures(v: Value, j: Json) {
    Depth(v) == StoredDepth(j) && Nodes(v) == StoredNodes(j) && (Short(v) <==> StoredShort(j))
  }

  lemma {:induction false} DecodedMeasures(f: Format, j: Json)
    requires Decode(f, j).Some?
    ensures Measures(Decode(f, j).value, j)
    decreases j
  {
    hide TagIn, ContentAt;
    if j.JObject? {
      var key := ContentKey(TagIn(j.fields).value).value;
      var at := ContentAt(j.fields, key).value;
      var content := j.fields[at].content;
      TagIsText(j.fields, key);
      FieldsOf(j.fields, at);
      if key == "entries" {
        EntriesMeasure(f, content.items, []);
      } else if key == "items" {
        ItemsMeasure(f, content.items);
      }
    }
  }

  lemma {:induction false} TagIsText(fields: seq<Field>, key: string)
    requires TagIn(fields).Some? && ContentAt(fields, key).Some? && key != TAG
    ensures fields[1 - ContentAt(fields, key).value].content.JString?
  {
    assert |fields| == 2;
  }

  /** Of the two fields of an envelope only the content counts. */
  lemma {:induction false} FieldsOf(fields: seq<Field>, at: nat)
    requires |fields| == 2 && at < 2 && fields[1 - at].content.JString?
    ensures var content := fields[at].content;
            && FieldsDepth(fields) == (if content.JArray? then AllDepth(content.items) else 0)
            && FieldsNodes(fields) == (if content.JArray? then AllNodes(content.items) else 0)
            && (FieldsShort(fields) <==> content.JArray? ==> AllShort(content.items))
  {
    var tail := fields[1..];
    assert tail[0] == fields[1] && tail[1..] == [];
    assert FieldsDepth(tail[1..]) == 0 && FieldsNodes(tail[1..]) == 0 && FieldsShort(tail[1..]);
  }

  lemma {:induction false} ItemsMeasure(f: Format, items: seq<Json>)
    requires DecodeItems(f, items).Some?
    ensures var vs := DecodeItems(f, items).value;
            && ItemsDepth(vs) == AllDepth(items) && ItemsNodes(vs) == AllNodes(items)
            && (ShortItems(vs) <==> AllShort(items))
    decreases items
  {
    if items != [] {
      DecodedMeasures(f, items[0]);
      ItemsMeasure(f, items[1..]);
      assert DecodeItems(f, items).value[1..] == DecodeItems(f, items[1..]).value;
    }
  }

  lemma {:induction false} EntriesAppend(entries: seq<Entry>, e: Entry)
    ensures EntriesDepth(entries + [e]) == Larger(EntriesDepth(entries), Depth(e.value))
    ensures EntriesNodes(entries + [e]) == EntriesNodes(entries) + Nodes(e.value)
    ensures ShortEntries(entries + [e]) <==>
              ShortEntries(entries) && Bytes(e.key) <= MAX_KEY_BYTES && Short(e.value)
  {
    if entries == [] {
      assert entries + [e] == [e] && [e][1..] == [];
    } else {
      EntriesAppend(entries[1..], e);
      assert (entries + [e])[1..] == entries[1..] + [e];
    }
  }

  lemma {:induction false} EntriesMeasure(f: Format, items: seq<Json>, done: seq<Entry>)
    requires DecodeEntries(f, items, done).Some?
    ensures var es := DecodeEntries(f, items, done).value;
            && EntriesDepth(es) == Larger(EntriesDepth(done), AllDepth(items))
            && EntriesNodes(es) == EntriesNodes(done) + AllNodes(items)
            && (ShortEntries(es) <==> ShortEntries(done) && AllShort(items))
    decreases items
  {
    if items != [] {
      var pair := items[0];
      DecodedMeasures(f, pair.items[1]);
      var e := Entry(pair.items[0].text, Decode(f, pair.items[1]).value);
      EntriesAppend(done, e);
      EntriesMeasure(f, items[1..], done + [e]);
    }
  }

  /** A stored value that is decoded can be encoded again exactly if it is within the limits. */
  lemma {:induction false} DecodedIsReencodable(f: Format, j: Json)
    requires Decode(f, j).Some?
    ensures Encoded(f, Decode(f, j).value).Some? <==> StoredInLimits(j)
  {
    DecodedIsChecked(f, j);
    DecodedMeasures(f, j);
  }

  /** So many list envelopes, one inside the other. */
  function Nested(n: nat): Json {
    if n == 0 then JNull else Tagged("list", "items", JArray([Nested(n - 1)]))
  }

  /** Any number of nested envelopes is decoded; from 32 on they are not encoded again. */
  lemma {:induction false} NestedDecode(f: Format, n: nat)
    ensures Decode(f, Nested(n)).Some?
    ensures Encoded(f, Decode(f, Nested(n)).value).Some? <==> n < EvidencePreflight.MAX_DEPTH
  {
    NestedMeasures(f, n);
    DecodedIsReencodable(f, Nested(n));
  }

  lemma {:induction false} NestedMeasures(f: Format, n: nat)
    ensures Decode(f, Nested(n)).Some?
    ensures StoredDepth(Nested(n)) == n + 1 && StoredNodes(Nested(n)) == n + 1 && StoredShort(Nested(n))
  {
    hide TagIn, ContentAt;
    if n > 0 {
      NestedMeasures(f, n - 1);
      var items := [Nested(n - 1)];
      var fields := Tagged("list", "items", JArray(items)).fields;
      Recognised("list", "items", JArray(items));
      assert items[1..] == [];
      assert DecodeItems(f, items) == Some([Decode(f, Nested(n - 1)).value] + []);
      FieldsOf(fields, 1);
    }
  }
}
