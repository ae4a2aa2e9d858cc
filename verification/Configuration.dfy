/** Merging configuration layers: values, keyed lists, patches, and the resolution of all layers. */
module Configuration {
  import opened StateMachine

  /** A configuration value. A scalar has a type and a text. */
  datatype Value =
    | Null
    | Scalar(typeName: string, text: string)
    | ListOf(items: seq<Value>)
    | MapOf(fields: map<string, Value>)

  /** The lower value overlaid by the higher one, or None where the code raises. */
  function Merge(lower: Value, higher: Value): Option<Value>
    decreases higher
  {
    if higher.Null? then Some(Null)
    else if lower.Null? then Some(higher)
    else match (lower, higher)
      case (MapOf(l), MapOf(h)) =>
        if exists k :: k in l && k in h && Merge(l[k], h[k]).None? then None
        else
          Some(MapOf(map k | k in l.Keys + h.Keys ::
                       if k !in h then l[k] else if k !in l then h[k] else Merge(l[k], h[k]).value))
      case (ListOf(_), ListOf(_)) => Some(higher)
      case (Scalar(t, _), Scalar(u, _)) => if t == u then Some(higher) else None
      case _ => None
  }

  /** A merge of the results of others; a merge that raised is not forgotten. */
  function Then(lower: Option<Value>, higher: Option<Value>): Option<Value> {
    if lower.None? || higher.None? then None else Merge(lower.value, higher.value)
  }

  /** Both groupings of three values raise, or yield the same. */
  predicate Agree(a: Value, b: Value, c: Value) {
    Then(Merge(a, b), Some(c)) == Then(Some(a), Merge(b, c))
  }

  predicate NullFree(v: Value)
    decreases v
  {
    match v
    case Null => false
    case MapOf(fields) => forall k :: k in fields ==> NullFree(fields[k])
    case _ => true
  }

  /** Overlaying is associative on values without nulls: both groupings raise together or are equal. */
  lemma {:induction false} MergeAssociates(a: Value, b: Value, c: Value)
    requires NullFree(a) && NullFree(b) && NullFree(c)
    ensures Agree(a, b, c)
    decreases c
  {
    if a.MapOf? && b.MapOf? && c.MapOf? {
      forall k | k in a.fields && k in b.fields && k in c.fields
        ensures Agree(a.fields[k], b.fields[k], c.fields[k])
      {
        MergeAssociates(a.fields[k], b.fields[k], c.fields[k]);
      }
      MapsAssociate(a.fields, b.fields, c.fields);
    }
  }

  predicate Clashes(l: map<string, Value>, h: map<string, Value>) {
    exists k :: k in l && k in h && Merge(l[k], h[k]).None?
  }

  function MergedFields(l: map<string, Value>, h: map<string, Value>): map<string, Value>
    requires !Clashes(l, h)
  {
    map k | k in l.Keys + h.Keys :: if k !in h then l[k] else if k !in l then h[k] else Merge(l[k], h[k]).value
  }

  lemma {:induction false} MapsMerge(l: map<string, Value>, h: map<string, Value>)
    ensures Merge(MapOf(l), MapOf(h)) == if Clashes(l, h) then None else Some(MapOf(MergedFields(l, h)))
  {
  }

  lemma {:induction false} MapsAssociate(a: map<string, Value>, b: map<string, Value>, c: map<string, Value>)
    requires forall k :: k in a && k in b && k in c ==> Agree(a[k], b[k], c[k])
    ensures Agree(MapOf(a), MapOf(b), MapOf(c))
  {
    hide Merge;
    MapsMerge(a, b);
    MapsMerge(b, c);
    if Clashes(a, b) {
      ClashOnTheRight(a, b, c);
    } else if Clashes(b, c) {
      ClashOnTheLeft(a, b, c);
    } else {
      var ab, bc := MergedFields(a, b), MergedFields(b, c);
      MapsMerge(ab, c);
      MapsMerge(a, bc);
      forall k | k in a && (k in b || k in c) ensures Fate(ab, c, k) == Fate(a, bc, k) {
      }
      if Clashes(ab, c) {
        var k :| k in ab && k in c && Merge(ab[k], c[k]).None?;
        assert Fate(a, bc, k) == None;
        assert Clashes(a, bc);
      }
      if Clashes(a, bc) {
        var k :| k in a && k in bc && Merge(a[k], bc[k]).None?;
        assert Fate(ab, c, k) == None;
        assert Clashes(ab, c);
      }
      if !Clashes(ab, c) {
        SameMerge(a, b, c);
      }
    }
  }

  /** What a merge of two maps says of one key. */
  function Fate(l: map<string, Value>, h: map<string, Value>, k: string): Option<Value>
    requires k in l || k in h
  {
    if k !in h then Some(l[k]) else if k !in l then Some(h[k]) else Merge(l[k], h[k])
  }

  lemma ClashOnTheRight(a: map<string, Value>, b: map<string, Value>, c: map<string, Value>)
    requires Clashes(a, b) && forall k :: k in a && k in b && k in c ==> Agree(a[k], b[k], c[k])
    ensures Clashes(b, c) || Clashes(a, MergedFields(b, c))
    ensures Then(Some(MapOf(a)), Merge(MapOf(b), MapOf(c))) == None
  {
    hide Merge;
    MapsMerge(b, c);
    if !Clashes(b, c) {
      var k :| k in a && k in b && Merge(a[k], b[k]).None?;
      var bc := MergedFields(b, c);
      assert Merge(a[k], bc[k]).None? by {
        if k in c { assert Then(Merge(a[k], b[k]), Some(c[k])) == None; }
      }
      assert Clashes(a, bc);
      MapsMerge(a, bc);
    }
  }

  lemma ClashOnTheLeft(a: map<string, Value>, b: map<string, Value>, c: map<string, Value>)
    requires !Clashes(a, b) && Clashes(b, c)
    requires forall k :: k in a && k in b && k in c ==> Agree(a[k], b[k], c[k])
    ensures Then(Merge(MapOf(a), MapOf(b)), Some(MapOf(c))) == None
  {
    hide Merge;
    MapsMerge(a, b);
    var k :| k in b && k in c && Merge(b[k], c[k]).None?;
    var ab := MergedFields(a, b);
    assert Merge(ab[k], c[k]).None? by {
      if k in a { assert Then(Some(a[k]), Merge(b[k], c[k])) == None; }
    }
    assert Clashes(ab, c);
    MapsMerge(ab, c);
  }

  lemma SameMerge(a: map<string, Value>, b: map<string, Value>, c: map<string, Value>)
    requires !Clashes(a, b) && !Clashes(b, c) && !Clashes(MergedFields(a, b), c) && !Clashes(a, MergedFields(b, c))
    requires forall k :: k in a && k in b && k in c ==> Agree(a[k], b[k], c[k])
    ensures MergedFields(MergedFields(a, b), c) == MergedFields(a, MergedFields(b, c))
  {
    hide Merge;
    var left, right := MergedFields(MergedFields(a, b), c), MergedFields(a, MergedFields(b, c));
    assert left.Keys == right.Keys == a.Keys + b.Keys + c.Keys;
    forall k | k in left ensures left[k] == right[k] {
    }
  }

  /** With a null in between it is not: a null resets what lies below it, but as a higher value it
      is itself overlaid. */
  lemma {:induction false} NullsBreakAssociativity()
    ensures !Agree(MapOf(map["x" := Scalar("str", "1")]), Null, MapOf(map["y" := Scalar("str", "2")]))
  {
    var a, c := map["x" := Scalar("str", "1")], map["y" := Scalar("str", "2")];
    MapsMerge(a, c);
    assert !Clashes(a, c);
    assert "x" in MergedFields(a, c) && "x" !in c;
  }

  /** The null-free middle values are exactly those on which every two null-free values agree. */
  lemma {:induction false} NullsDecideAssociativity(b: Value)
    ensures NullFree(b) <==> forall a, c :: NullFree(a) && NullFree(c) ==> Agree(a, b, c)
  {
    if NullFree(b) {
      forall a, c | NullFree(a) && NullFree(c) ensures Agree(a, b, c) {
        MergeAssociates(a, b, c);
      }
    } else {
      var a, c := Disagreeing(b);
    }
  }

  /** Two null-free values that disagree around a value that is not. */
  lemma {:induction false} Disagreeing(b: Value) returns (a: Value, c: Value)
    requires !NullFree(b)
    ensures NullFree(a) && NullFree(c) && !Agree(a, b, c)
    decreases b
  {
    if b.Null? {
      NullsBreakAssociativity();
      return MapOf(map["x" := Scalar("str", "1")]), MapOf(map["y" := Scalar("str", "2")]);
    }
    var k :| k in b.fields && !NullFree(b.fields[k]);
    var x, y := Disagreeing(b.fields[k]);
    a, c := MapOf(map[k := x]), MapOf(map[k := y]);
    OneKeyDisagrees(x, b.fields, y, k);
  }

  lemma OneKeyDisagrees(x: Value, b: map<string, Value>, y: Value, k: string)
    requires k in b && !Agree(x, b[k], y)
    ensures !Agree(MapOf(map[k := x]), MapOf(b), MapOf(map[k := y]))
  {
    hide Merge;
    var a, c := map[k := x], map[k := y];
    MapsMerge(a, b);
    MapsMerge(b, c);
    assert Clashes(a, b) <==> Merge(x, b[k]).None?;
    assert Clashes(b, c) <==> Merge(b[k], y).None?;
    if !Clashes(a, b) {
      var ab := MergedFields(a, b);
      MapsMerge(ab, c);
      assert Clashes(ab, c) <==> Merge(ab[k], y).None?;
    }
    if !Clashes(b, c) {
      var bc := MergedFields(b, c);
      MapsMerge(a, bc);
      assert Clashes(a, bc) <==> Merge(x, bc[k]).None?;
    }
    if !Clashes(a, b) && !Clashes(b, c) {
      var ab, bc := MergedFields(a, b), MergedFields(b, c);
      if !Clashes(ab, c) && !Clashes(a, bc) {
        assert MergedFields(ab, c)[k] == Merge(ab[k], y).value;
        assert MergedFields(a, bc)[k] == Merge(x, bc[k]).value;
      }
    }
  }

  // Keyed lists

  function IdOf(item: Value, key: string): Option<string> {
    if item.MapOf? && key in item.fields && item.fields[key].Scalar? && item.fields[key].typeName == "str" then
      Some(item.fields[key].text)
    else None
  }

  predicate Identified(items: seq<Value>, key: string) {
    forall i :: 0 <= i < |items| ==> IdOf(items[i], key).Some?
  }

  function Ids(items: seq<Value>, key: string): (r: seq<string>)
    requires Identified(items, key)
    ensures |r| == |items| && forall i :: 0 <= i < |items| ==> r[i] == IdOf(items[i], key).value
  {
    if items == [] then [] else Ids(items[..|items| - 1], key) + [IdOf(items[|items| - 1], key).value]
  }

  predicate Distinct(ids: seq<string>) {
    forall i, j :: 0 <= i < j < |ids| ==> ids[i] != ids[j]
  }

  /** The last place of an identifier. */
  function PlaceOf(items: seq<Value>, key: string, id: string): (r: Option<nat>)
    ensures r.Some? ==> r.value < |items| && IdOf(items[r.value], key) == Some(id)
    ensures r.None? ==> forall i :: 0 <= i < |items| ==> IdOf(items[i], key) != Some(id)
    ensures r.Some? ==> forall i :: r.value < i < |items| ==> IdOf(items[i], key) != Some(id)
  {
    if items == [] then None
    else if IdOf(items[|items| - 1], key) == Some(id) then Some(|items| - 1)
    else PlaceOf(items[..|items| - 1], key, id)
  }

  /** One higher item: merged into the entry with its identifier, or appended. */
  function Absorb(result: seq<Value>, key: string, item: Value): (r: Option<seq<Value>>)
    requires Identified(result, key) && IdOf(item, key).Some?
    ensures r.Some? ==> Identified(r.value, key)
  {
    var place := PlaceOf(result, key, IdOf(item, key).value);
    if place.None? then Some(result + [item])
    else
      var merged := Merge(result[place.value], item);
      if merged.None? then None
      else
        MergeKeepsId(result[place.value], item, key);
        Some(result[place.value := merged.value])
  }

  lemma {:induction false} MergeKeepsId(lower: Value, higher: Value, key: string)
    requires IdOf(lower, key).Some? && IdOf(higher, key) == IdOf(lower, key) && Merge(lower, higher).Some?
    ensures IdOf(Merge(lower, higher).value, key) == IdOf(lower, key)
  {
  }

  function AbsorbAll(result: seq<Value>, key: string, higher: seq<Value>): (r: Option<seq<Value>>)
    requires Identified(result, key) && Identified(higher, key)
    ensures r.Some? ==> Identified(r.value, key)
    decreases |higher|
  {
    if higher == [] then Some(result)
    else
      var before := AbsorbAll(result, key, higher[..|higher| - 1]);
      if before.None? then None else Absorb(before.value, key, higher[|higher| - 1])
  }

  lemma {:induction false} RaiseSpreads(lower: seq<Value>, key: string, higher: seq<Value>, i: nat)
    requires Identified(lower, key) && Identified(higher, key) && i <= |higher|
    requires AbsorbAll(lower, key, higher[..i]).None?
    ensures AbsorbAll(lower, key, higher).None?
    decreases |higher| - i
  {
    if i < |higher| {
      assert higher[..i + 1][..i] == higher[..i];
      RaiseSpreads(lower, key, higher, i + 1);
    } else {
      assert higher[..i] == higher;
    }
  }

  /** A keyed merge raises where an item has no identifier or two entries of one cannot be merged. */
  function MergeKeyed(lower: seq<Value>, higher: seq<Value>, key: string): Option<Value> {
    if Identified(lower, key) && Identified(higher, key) && AbsorbAll(lower, key, higher).Some? then
      Some(ListOf(AbsorbAll(lower, key, higher).value))
    else None
  }

  method MergeKeyedList(lower: seq<Value>, higher: seq<Value>, key: string) returns (r: Option<Value>)
    ensures r == MergeKeyed(lower, higher, key)
  {
    hide Merge, PlaceOf, IdOf;
    var result: seq<Value>, indexes: map<string, nat> := [], map[];
    for i := 0 to |lower|
      invariant result == lower[..i] && Identified(result, key)
      invariant Indexed(result, key, indexes)
    {
      var id := IdOf(lower[i], key);
      if id.None? {
        return None;
      }
      IndexAppended(result, key, indexes, lower[i]);
      indexes := indexes[id.value := |result|];
      result := result + [lower[i]];
    }
    assert lower[..|lower|] == lower && higher[..0] == [];
    for i := 0 to |higher|
      invariant Identified(lower, key) && Identified(higher[..i], key) && Identified(result, key)
      invariant AbsorbAll(lower, key, higher[..i]) == Some(result)
      invariant Indexed(result, key, indexes)
    {
      var id := IdOf(higher[i], key);
      if id.None? {
        return None;
      }
      assert higher[..i + 1][..i] == higher[..i];
      ghost var before := result;
      if id.value in indexes {
        var at := indexes[id.value];
        var merged := Merge(result[at], higher[i]);
        if merged.None? {
          if Identified(higher, key) {
            RaiseSpreads(lower, key, higher, i + 1);
          }
          return None;
        }
        MergeKeepsId(result[at], higher[i], key);
        IndexUpdated(result, key, indexes, at, merged.value);
        result := result[at := merged.value];
      } else {
        IndexAppended(result, key, indexes, higher[i]);
        indexes := indexes[id.value := |result|];
        result := result + [higher[i]];
      }
      assert Absorb(before, key, higher[i]) == Some(result);
    }
    assert higher[..|higher|] == higher;
    r := Some(ListOf(result));
  }

  /** The index holds the last place of every identifier. */
  predicate Indexed(items: seq<Value>, key: string, indexes: map<string, nat>) {
    && (forall id :: id in indexes ==> PlaceOf(items, key, id) == Some(indexes[id]))
    && (forall i :: 0 <= i < |items| && IdOf(items[i], key).Some? ==> IdOf(items[i], key).value in indexes)
  }

  lemma {:induction false} PlaceIs(items: seq<Value>, key: string, id: string, at: nat)
    requires at < |items| && IdOf(items[at], key) == Some(id)
    requires forall i :: at < i < |items| ==> IdOf(items[i], key) != Some(id)
    ensures PlaceOf(items, key, id) == Some(at)
  {
    hide PlaceOf;
    var place := PlaceOf(items, key, id);
    assert place.Some?;
  }

  lemma IndexAppended(items: seq<Value>, key: string, indexes: map<string, nat>, item: Value)
    requires Indexed(items, key, indexes) && IdOf(item, key).Some?
    ensures Indexed(items + [item], key, indexes[IdOf(item, key).value := |items|])
  {
    hide PlaceOf, IdOf;
    var longer, id := items + [item], IdOf(item, key).value;
    var more := indexes[id := |items|];
    forall other | other in more ensures PlaceOf(longer, key, other) == Some(more[other]) {
      PlaceIs(longer, key, other, more[other]);
    }
  }

  lemma IndexUpdated(items: seq<Value>, key: string, indexes: map<string, nat>, at: nat, item: Value)
    requires Indexed(items, key, indexes) && at < |items| && IdOf(item, key) == IdOf(items[at], key)
    ensures Indexed(items[at := item], key, indexes)
  {
    hide PlaceOf, IdOf;
    forall id | id in indexes ensures PlaceOf(items[at := item], key, id) == Some(indexes[id]) {
      PlaceIs(items[at := item], key, id, indexes[id]);
    }
  }

  // What a keyed merge does, entry by entry

  function Find(items: seq<Value>, key: string, id: string): Option<Value> {
    var place := PlaceOf(items, key, id);
    if place.None? then None else Some(items[place.value])
  }

  function Overlay(lower: Option<Value>, higher: Option<Value>): Option<Value> {
    if higher.None? then lower else if lower.None? then higher else Merge(lower.value, higher.value)
  }

  predicate Clash(lower: Option<Value>, higher: Option<Value>) {
    lower.Some? && higher.Some? && Merge(lower.value, higher.value).None?
  }

  /** The identifiers that do not occur among others, in their order. */
  function Without(ids: seq<string>, others: seq<string>): seq<string> {
    if ids == [] then []
    else
      Without(ids[..|ids| - 1], others) + if ids[|ids| - 1] in others then [] else [ids[|ids| - 1]]
  }

  lemma {:induction false} WithoutHolds(ids: seq<string>, others: seq<string>, id: string)
    ensures id in Without(ids, others) <==> id in ids && id !in others
  {
    if ids != [] {
      WithoutHolds(ids[..|ids| - 1], others, id);
      assert ids == ids[..|ids| - 1] + [ids[|ids| - 1]];
    }
  }

  predicate Keyed(items: seq<Value>, key: string) {
    Identified(items, key) && Distinct(Ids(items, key))
  }

  lemma {:induction false} FindIn(items: seq<Value>, key: string, id: string)
    requires Identified(items, key)
    ensures Find(items, key, id).Some? <==> id in Ids(items, key)
  {
    hide PlaceOf, IdOf;
    var place := PlaceOf(items, key, id);
    if place.Some? { assert Ids(items, key)[place.value] == id; }
  }

  lemma KeyedPrefix(items: seq<Value>, key: string)
    requires Keyed(items, key) && items != []
    ensures var rest := items[..|items| - 1];
            && Keyed(rest, key) && Ids(rest, key) == Ids(items, key)[..|items| - 1]
            && IdOf(items[|items| - 1], key).value !in Ids(rest, key)
  {
    hide IdOf;
    var rest := items[..|items| - 1];
    assert forall i :: 0 <= i < |rest| ==> Ids(rest, key)[i] == Ids(items, key)[i];
  }

  /** The order of a keyed merge: the lower identifiers, then the new ones in their order; every
      identifier stays unique, and its entry is the higher one laid over the lower one. It raises
      exactly where the two entries of some identifier do. */
  lemma {:induction false} KeyedMerge(lower: seq<Value>, higher: seq<Value>, key: string)
    requires Keyed(lower, key) && Keyed(higher, key)
    ensures var merged := AbsorbAll(lower, key, higher);
            && (merged.None? <==> exists id :: Clash(Find(lower, key, id), Find(higher, key, id)))
            && (merged.Some? ==> Overlaid(lower, higher, merged.value, key))
    decreases |higher|
  {
    hide Merge, IdOf, PlaceOf, Find, Ids, Distinct, Absorb, Overlaid;
    if higher == [] {
      NothingAbsorbed(lower, key);
    } else {
      var rest, item := higher[..|higher| - 1], higher[|higher| - 1];
      KeyedPrefix(higher, key);
      KeyedMerge(lower, rest, key);
      assert higher == rest + [item];
      FindOthers(rest, item, key);
      var before := AbsorbAll(lower, key, rest);
      if before.None? {
        var id :| Clash(Find(lower, key, id), Find(rest, key, id));
        assert Clash(Find(lower, key, id), Find(higher, key, id));
      } else {
        OneAbsorbed(lower, rest, item, before.value, key);
      }
    }
  }

  /** The list is the higher one laid over the lower one, entry by entry. */
  ghost predicate Overlaid(lower: seq<Value>, higher: seq<Value>, merged: seq<Value>, key: string) {
    && Keyed(lower, key) && Keyed(higher, key) && Keyed(merged, key)
    && Ids(merged, key) == Ids(lower, key) + Without(Ids(higher, key), Ids(lower, key))
    && forall id :: Find(merged, key, id) == Overlay(Find(lower, key, id), Find(higher, key, id))
  }

  lemma FindOthers(rest: seq<Value>, item: Value, key: string)
    requires Keyed(rest, key) && Keyed(rest + [item], key)
    ensures forall id :: Find(rest, key, id).Some? ==> Find(rest + [item], key, id) == Find(rest, key, id)
  {
    hide IdOf, PlaceOf, Ids, Find, Distinct;
    var all := rest + [item];
    assert all[..|all| - 1] == rest && all[|rest|] == item;
    var own := IdOf(all[|rest|], key).value;
    KeyedPrefix(all, key);
    FindIn(rest, key, own);
    FindLast(rest, item, key);
  }

  lemma {:induction false} NothingAbsorbed(lower: seq<Value>, key: string)
    requires Keyed(lower, key)
    ensures Overlaid(lower, [], lower, key)
    ensures forall id :: !Clash(Find(lower, key, id), Find([], key, id))
  {
  }

  lemma {:induction false} OneAbsorbed(lower: seq<Value>, rest: seq<Value>, item: Value, so: seq<Value>, key: string)
    requires Keyed(rest + [item], key) && Overlaid(lower, rest, so, key)
    requires forall id :: !Clash(Find(lower, key, id), Find(rest, key, id))
    ensures var merged := Absorb(so, key, (rest + [item])[|rest|]);
            && (merged.None? <==> exists id :: Clash(Find(lower, key, id), Find(rest + [item], key, id)))
            && (merged.Some? ==> Overlaid(lower, rest + [item], merged.value, key))
  {
    hide Merge, IdOf, PlaceOf, Ids, Find, Distinct;
    var all := rest + [item];
    assert all[..|all| - 1] == rest && all[|rest|] == item;
    var id := IdOf(all[|rest|], key).value;
    KeyedPrefix(all, key);
    FindIn(rest, key, id);
    FindIn(so, key, id);
    FindLast(rest, item, key);
    IdsOfSum(rest, item, key);
    WithoutLast(Ids(rest, key), id, Ids(lower, key));
    FindIn(lower, key, id);
    var place := PlaceOf(so, key, id);
    FindIs(so, key, id);
    assert Absorb(so, key, item).None? <==> Clash(Find(lower, key, id), Find(all, key, id));
    if place.None? {
      FindLast(so, item, key);
      IdsOfSum(so, item, key);
      DistinctMore(Ids(so, key), id);
    } else if Absorb(so, key, item).Some? {
      MergeKeepsId(so[place.value], item, key);
      FindReplaced(so, key, place.value, Merge(so[place.value], item).value);
    }
  }

  lemma {:induction false} FindIs(items: seq<Value>, key: string, id: string)
    ensures Find(items, key, id) == var p := PlaceOf(items, key, id); if p.None? then None else Some(items[p.value])
  {
  }

  lemma {:induction false} IdsOfSum(items: seq<Value>, item: Value, key: string)
    requires Identified(items, key) && IdOf(item, key).Some?
    ensures Identified(items + [item], key) && Ids(items + [item], key) == Ids(items, key) + [IdOf(item, key).value]
  {
    hide IdOf;
    assert (items + [item])[..|items|] == items;
  }

  lemma {:induction false} WithoutLast(ids: seq<string>, id: string, others: seq<string>)
    ensures Without(ids + [id], others) == Without(ids, others) + if id in others then [] else [id]
  {
    assert (ids + [id])[..|ids|] == ids;
  }

  lemma DistinctMore(ids: seq<string>, id: string)
    requires Distinct(ids) && id !in ids
    ensures Distinct(ids + [id])
  {
  }

  lemma FindLast(items: seq<Value>, item: Value, key: string)
    requires IdOf(item, key).Some?
    ensures Find(items + [item], key, IdOf(item, key).value) == Some(item)
    ensures forall id :: id != IdOf(item, key).value ==> Find(items + [item], key, id) == Find(items, key, id)
  {
    hide IdOf;
    assert (items + [item])[..|items|] == items;
  }

  lemma FindReplaced(items: seq<Value>, key: string, at: nat, item: Value)
    requires Keyed(items, key) && at < |items| && IdOf(item, key) == IdOf(items[at], key)
    ensures var after := items[at := item];
            && Identified(after, key) && Ids(after, key) == Ids(items, key) && Keyed(after, key)
            && Find(after, key, IdOf(item, key).value) == Some(item)
            && forall id :: id != IdOf(item, key).value ==> Find(after, key, id) == Find(items, key, id)
  {
    hide IdOf, PlaceOf, Ids, Distinct;
    var after, own := items[at := item], IdOf(item, key).value;
    assert Ids(after, key) == Ids(items, key);
    KeyedPlace(after, key, at);
    forall id | id != own ensures Find(after, key, id) == Find(items, key, id) {
      var place := PlaceOf(items, key, id);
      if place.Some? {
        PlaceIs(after, key, id, place.value);
      } else {
        assert PlaceOf(after, key, id).None?;
      }
    }
  }

  lemma {:induction false} KeyedPlace(items: seq<Value>, key: string, at: nat)
    requires Keyed(items, key) && at < |items|
    ensures PlaceOf(items, key, IdOf(items[at], key).value) == Some(at)
  {
    hide IdOf, PlaceOf;
    var ids := Ids(items, key);
    forall i | at < i < |items| ensures IdOf(items[i], key) != IdOf(items[at], key) {
      assert ids[i] != ids[at];
    }
    PlaceIs(items, key, IdOf(items[at], key).value, at);
  }

  /** Lists with the same identifiers in the same order and the same entries are the same. */
  lemma {:induction false} SameEntries(a: seq<Value>, b: seq<Value>, key: string)
    requires Keyed(a, key) && Keyed(b, key) && Ids(a, key) == Ids(b, key)
    requires forall id :: Find(a, key, id) == Find(b, key, id)
    ensures a == b
  {
    hide IdOf, PlaceOf, Distinct;
    forall i | 0 <= i < |a| ensures a[i] == b[i] {
      KeyedPlace(a, key, i);
      KeyedPlace(b, key, i);
      assert Ids(a, key)[i] == Ids(b, key)[i];
      assert Find(a, key, IdOf(a[i], key).value) == Some(a[i]);
      assert Find(b, key, IdOf(b[i], key).value) == Some(b[i]);
    }
  }

  lemma {:induction false} WithoutTwice(ids: seq<string>, a: seq<string>, b: seq<string>)
    ensures Without(ids, a + Without(b, a)) == Without(Without(ids, b), a)
  {
    if ids != [] {
      var rest, id := ids[..|ids| - 1], ids[|ids| - 1];
      WithoutTwice(rest, a, b);
      WithoutHolds(b, a, id);
      WithoutSum(Without(rest, b), if id in b then [] else [id], a);
    }
  }

  lemma {:induction false} WithoutSum(ids: seq<string>, more: seq<string>, others: seq<string>)
    ensures Without(ids + more, others) == Without(ids, others) + Without(more, others)
  {
    if more == [] {
      assert ids + more == ids;
    } else {
      var n := |more| - 1;
      assert (ids + more)[..|ids| + n] == ids + more[..n];
      WithoutSum(ids, more[..n], others);
    }
  }

  predicate EntriesNullFree(items: seq<Value>) {
    forall i :: 0 <= i < |items| ==> NullFree(items[i])
  }

  /** Merging keyed lists is associative: both groupings raise together or are equal. */
  lemma {:induction false} KeyedAssociates(a: seq<Value>, b: seq<Value>, c: seq<Value>, key: string)
    requires Keyed(a, key) && Keyed(b, key) && Keyed(c, key)
    requires EntriesNullFree(a) && EntriesNullFree(b) && EntriesNullFree(c)
    ensures var ab, bc := AbsorbAll(a, key, b), AbsorbAll(b, key, c);
            (if ab.None? then None else AbsorbAll(ab.value, key, c))
            == (if bc.None? then None else AbsorbAll(a, key, bc.value))
  {
    hide Merge, IdOf, PlaceOf, Find, Ids, Distinct, Keyed, AbsorbAll, Identified, NullFree, Overlay, Clash;
    KeyedIsIdentified(a, key);
    KeyedIsIdentified(b, key);
    KeyedIsIdentified(c, key);
    KeyedMerge(a, b, key);
    KeyedMerge(b, c, key);
    forall id ensures Raises(a, b, c, key, id) <==> RaisesLate(a, b, c, key, id) {
      OverlaysAssociate(a, b, c, key, id);
    }
    var ab, bc := AbsorbAll(a, key, b), AbsorbAll(b, key, c);
    if ab.Some? { KeyedMerge(ab.value, c, key); }
    if bc.Some? { KeyedMerge(a, bc.value, key); }
    KeyedRaises(a, b, c, key);
    KeyedRaisesLate(a, b, c, key);
    if ab.Some? && AbsorbAll(ab.value, key, c).Some? {
      BothAreOverlaid(a, b, c, ab.value, bc.value, AbsorbAll(ab.value, key, c).value,
                      AbsorbAll(a, key, bc.value).value, key);
    }
  }

  /** The entries of an identifier cannot be merged, from the left or from the right. */
  predicate Raises(a: seq<Value>, b: seq<Value>, c: seq<Value>, key: string, id: string) {
    var x, y, z := Find(a, key, id), Find(b, key, id), Find(c, key, id);
    Clash(x, y) || Clash(Overlay(x, y), z)
  }

  predicate RaisesLate(a: seq<Value>, b: seq<Value>, c: seq<Value>, key: string, id: string) {
    var x, y, z := Find(a, key, id), Find(b, key, id), Find(c, key, id);
    Clash(y, z) || Clash(x, Overlay(y, z))
  }

  lemma {:induction false} KeyedRaises(a: seq<Value>, b: seq<Value>, c: seq<Value>, key: string)
    requires Keyed(a, key) && Keyed(b, key) && Keyed(c, key)
    ensures var ab := AbsorbAll(a, key, b);
            ab.None? || AbsorbAll(ab.value, key, c).None? <==> exists id :: Raises(a, b, c, key, id)
  {
    hide Merge, IdOf, PlaceOf, Find, Ids, Distinct, Keyed, AbsorbAll, Identified, Overlay, Clash;
    KeyedIsIdentified(a, key);
    KeyedIsIdentified(b, key);
    KeyedIsIdentified(c, key);
    KeyedMerge(a, b, key);
    var ab := AbsorbAll(a, key, b);
    if ab.None? {
      var id :| Clash(Find(a, key, id), Find(b, key, id));
      assert Raises(a, b, c, key, id);
    } else {
      KeyedMerge(ab.value, c, key);
      if AbsorbAll(ab.value, key, c).None? {
        var id :| Clash(Find(ab.value, key, id), Find(c, key, id));
        assert Raises(a, b, c, key, id);
      }
      if id :| Raises(a, b, c, key, id) {
        assert Find(ab.value, key, id) == Overlay(Find(a, key, id), Find(b, key, id));
        assert Clash(Find(ab.value, key, id), Find(c, key, id));
      }
    }
  }

  lemma {:induction false} KeyedRaisesLate(a: seq<Value>, b: seq<Value>, c: seq<Value>, key: string)
    requires Keyed(a, key) && Keyed(b, key) && Keyed(c, key)
    ensures var bc := AbsorbAll(b, key, c);
            bc.None? || AbsorbAll(a, key, bc.value).None? <==> exists id :: RaisesLate(a, b, c, key, id)
  {
    hide Merge, IdOf, PlaceOf, Find, Ids, Distinct, Keyed, AbsorbAll, Identified, Overlay, Clash;
    KeyedIsIdentified(a, key);
    KeyedIsIdentified(b, key);
    KeyedIsIdentified(c, key);
    KeyedMerge(b, c, key);
    var bc := AbsorbAll(b, key, c);
    if bc.None? {
      var id :| Clash(Find(b, key, id), Find(c, key, id));
      assert RaisesLate(a, b, c, key, id);
    } else {
      KeyedMerge(a, bc.value, key);
      if AbsorbAll(a, key, bc.value).None? {
        var id :| Clash(Find(a, key, id), Find(bc.value, key, id));
        assert RaisesLate(a, b, c, key, id);
      }
      if id :| RaisesLate(a, b, c, key, id) {
        assert Find(bc.value, key, id) == Overlay(Find(b, key, id), Find(c, key, id));
        assert Clash(Find(a, key, id), Find(bc.value, key, id));
      }
    }
  }

  lemma BothAreOverlaid(a: seq<Value>, b: seq<Value>, c: seq<Value>, ab: seq<Value>, bc: seq<Value>,
                        left: seq<Value>, right: seq<Value>, key: string)
    requires Overlaid(a, b, ab, key) && Overlaid(b, c, bc, key)
    requires Overlaid(ab, c, left, key) && Overlaid(a, bc, right, key)
    requires EntriesNullFree(a) && EntriesNullFree(b) && EntriesNullFree(c)
    requires forall id :: !Raises(a, b, c, key, id)
    ensures left == right
  {
    hide Merge, IdOf, PlaceOf, Find, Ids, Distinct, NullFree, Overlay, Clash, Raises;
    WithoutTwice(Ids(c, key), Ids(a, key), Ids(b, key));
    WithoutSum(Ids(b, key), Without(Ids(c, key), Ids(b, key)), Ids(a, key));
    forall id ensures Find(left, key, id) == Find(right, key, id) {
      OverlaysAssociate(a, b, c, key, id);
      assert !Raises(a, b, c, key, id);
    }
    SameEntries(left, right, key);
  }

  lemma KeyedIsIdentified(items: seq<Value>, key: string)
    requires Keyed(items, key)
    ensures Identified(items, key)
  {
  }

  lemma OverlaysAssociate(a: seq<Value>, b: seq<Value>, c: seq<Value>, key: string, id: string)
    requires EntriesNullFree(a) && EntriesNullFree(b) && EntriesNullFree(c)
    ensures Raises(a, b, c, key, id) <==> RaisesLate(a, b, c, key, id)
    ensures var x, y, z := Find(a, key, id), Find(b, key, id), Find(c, key, id);
            !Raises(a, b, c, key, id) ==> Overlay(Overlay(x, y), z) == Overlay(x, Overlay(y, z))
  {
    hide Merge, IdOf, PlaceOf, NullFree;
    var x, y, z := Find(a, key, id), Find(b, key, id), Find(c, key, id);
    if x.Some? && y.Some? && z.Some? {
      MergeAssociates(x.value, y.value, z.value);
    }
  }

  // Patches

  /** Which fields are keyed lists, and by which key. */
  type Policies = map<string, string>

  function MergeField(policies: Policies, field: string, lower: Value, higher: Value): Option<Value> {
    if lower.ListOf? && higher.ListOf? && field in policies then MergeKeyed(lower.items, higher.items, policies[field])
    else Merge(lower, higher)
  }

  type Fields = map<string, Value>

  predicate FieldsClash(policies: Policies, lower: Fields, higher: Fields) {
    exists f :: f in lower && f in higher && MergeField(policies, f, lower[f], higher[f]).None?
  }

  /** A layer laid over the fields merged so far, or None where one of the fields raises. */
  function MergePatch(policies: Policies, lower: Fields, higher: Fields): Option<Fields> {
    if FieldsClash(policies, lower, higher) then None
    else
      Some(map f | f in lower.Keys + higher.Keys ::
             if f !in higher then lower[f] else if f !in lower then higher[f]
             else MergeField(policies, f, lower[f], higher[f]).value)
  }

  /** A null-free field; a keyed list has distinct identifiers. */
  predicate PlainField(policies: Policies, field: string, v: Value) {
    NullFree(v) && (v.ListOf? && field in policies ==>
                      && EntriesNullFree(v.items)
                      && (Identified(v.items, policies[field]) ==> Keyed(v.items, policies[field])))
  }

  predicate Plain(policies: Policies, fields: Fields) {
    forall f :: f in fields ==> PlainField(policies, f, fields[f])
  }

  /** Both groupings of three values of a field raise, or yield the same. */
  predicate FieldAgrees(policies: Policies, field: string, a: Value, b: Value, c: Value) {
    var ab, bc := MergeField(policies, field, a, b), MergeField(policies, field, b, c);
    (if ab.None? then None else MergeField(policies, field, ab.value, c))
    == (if bc.None? then None else MergeField(policies, field, a, bc.value))
  }

  lemma FieldsAssociate(policies: Policies, field: string, a: Value, b: Value, c: Value)
    requires PlainField(policies, field, a) && PlainField(policies, field, b) && PlainField(policies, field, c)
    ensures FieldAgrees(policies, field, a, b, c)
  {
    hide Identified, Keyed, AbsorbAll, EntriesNullFree, NullFree;
    if field in policies && a.ListOf? && b.ListOf? && c.ListOf? {
      var key := policies[field];
      if Identified(a.items, key) && Identified(b.items, key) && Identified(c.items, key) {
        KeyedAssociates(a.items, b.items, c.items, key);
      }
    } else {
      MergeAssociates(a, b, c);
      KindsDecide(policies, field, a, b, c);
    }
  }

  /** Where not all three are keyed lists, the policy makes no difference. */
  lemma {:induction false} KindsDecide(policies: Policies, field: string, a: Value, b: Value, c: Value)
    requires NullFree(a) && NullFree(b) && NullFree(c)
    requires !(field in policies && a.ListOf? && b.ListOf? && c.ListOf?)
    ensures Agree(a, b, c) ==> FieldAgrees(policies, field, a, b, c)
  {
    hide AbsorbAll, Identified;
  }

  /** Overlaying patches is associative, so consecutive layers can be merged in any grouping. */
  lemma PatchesAssociate(policies: Policies, a: Fields, b: Fields, c: Fields)
    requires Plain(policies, a) && Plain(policies, b) && Plain(policies, c)
    ensures var ab, bc := MergePatch(policies, a, b), MergePatch(policies, b, c);
            (if ab.None? then None else MergePatch(policies, ab.value, c))
            == (if bc.None? then None else MergePatch(policies, a, bc.value))
  {
    hide MergeField, PlainField;
    forall f | f in a && f in b && f in c ensures FieldAgrees(policies, f, a[f], b[f], c[f]) {
      FieldsAssociate(policies, f, a[f], b[f], c[f]);
    }
    var ab, bc := MergePatch(policies, a, b), MergePatch(policies, b, c);
    if ab.None? {
      var f :| f in a && f in b && MergeField(policies, f, a[f], b[f]).None?;
      PatchRaises(policies, a, b, c, f);
    } else if bc.None? {
      var f :| f in b && f in c && MergeField(policies, f, b[f], c[f]).None?;
      assert MergeField(policies, f, ab.value[f], c[f]).None?;
    } else {
      forall f | f in a || f in b || f in c
        ensures FieldFate(policies, ab.value, c, f) == FieldFate(policies, a, bc.value, f)
      {
      }
      PatchesMeet(policies, ab.value, c, a, bc.value);
    }
  }

  /** What a patch says of one field. */
  function FieldFate(policies: Policies, lower: Fields, higher: Fields, f: string): Option<Value>
    requires f in lower || f in higher
  {
    if f !in higher then Some(lower[f]) else if f !in lower then Some(higher[f])
    else MergeField(policies, f, lower[f], higher[f])
  }

  lemma PatchRaises(policies: Policies, a: Fields, b: Fields, c: Fields, f: string)
    requires f in a && f in b && MergeField(policies, f, a[f], b[f]).None?
    requires f in c ==> FieldAgrees(policies, f, a[f], b[f], c[f])
    ensures var bc := MergePatch(policies, b, c); bc.None? || MergePatch(policies, a, bc.value).None?
  {
    hide MergeField;
    var bc := MergePatch(policies, b, c);
    if bc.Some? {
      assert MergeField(policies, f, a[f], bc.value[f]).None?;
    }
  }

  lemma PatchIsItsFates(policies: Policies, p: Fields, q: Fields)
    ensures FieldsClash(policies, p, q) <==> exists f :: f in p.Keys + q.Keys && FieldFate(policies, p, q, f).None?
    ensures var merged := MergePatch(policies, p, q);
            merged.Some? ==>
              && merged.value.Keys == p.Keys + q.Keys
              && forall f :: f in merged.value ==> FieldFate(policies, p, q, f) == Some(merged.value[f])
  {
    hide MergeField;
    if f :| f in p && f in q && MergeField(policies, f, p[f], q[f]).None? {
      assert f in p.Keys + q.Keys && FieldFate(policies, p, q, f).None?;
    }
  }

  lemma PatchesMeet(policies: Policies, p: Fields, q: Fields, r: Fields, s: Fields)
    requires p.Keys + q.Keys == r.Keys + s.Keys
    requires forall f :: f in p || f in q ==> FieldFate(policies, p, q, f) == FieldFate(policies, r, s, f)
    ensures MergePatch(policies, p, q) == MergePatch(policies, r, s)
  {
    hide FieldFate;
    PatchIsItsFates(policies, p, q);
    PatchIsItsFates(policies, r, s);
    assert FieldsClash(policies, p, q) <==> FieldsClash(policies, r, s);
    hide FieldsClash;
    var left, right := MergePatch(policies, p, q), MergePatch(policies, r, s);
    if left.Some? && right.Some? {
      forall f | f in left.value ensures left.value[f] == right.value[f] {
        assert FieldFate(policies, p, q, f) == FieldFate(policies, r, s, f);
      }
      assert left.value == right.value;
    }
  }

  // Resolution

  /** A layer with the rank of its scope in the precedence chain. */
  datatype Layer = Layer(rank: nat, patch: Fields)

  function Insert(layer: Layer, sorted: seq<Layer>): seq<Layer> {
    if sorted == [] || layer.rank < sorted[0].rank then [layer] + sorted else [sorted[0]] + Insert(layer, sorted[1..])
  }

  function Sort(layers: seq<Layer>): seq<Layer> {
    if layers == [] then [] else Insert(layers[|layers| - 1], Sort(layers[..|layers| - 1]))
  }

  predicate DistinctRanks(layers: seq<Layer>) {
    forall i, j :: 0 <= i < j < |layers| ==> layers[i].rank != layers[j].rank
  }

  /** The layers merged in order; the first merge that raises ends it. */
  function Folded(policies: Policies, layers: seq<Layer>): Option<Fields> {
    if layers == [] then Some(map[])
    else
      var before := Folded(policies, layers[..|layers| - 1]);
      if before.None? then None else MergePatch(policies, before.value, layers[|layers| - 1].patch)
  }

  /** The merged fields, or None where a scope occurs twice or a merge raises. */
  function Resolve(policies: Policies, layers: seq<Layer>): Option<Fields> {
    if DistinctRanks(Sort(layers)) then Folded(policies, Sort(layers)) else None
  }

  /** A conflict between layers is final: no later layer hides it. */
  lemma {:induction false} ConflictsAreFinal(policies: Policies, layers: seq<Layer>, i: nat)
    requires i <= |layers| && Folded(policies, layers[..i]).None?
    ensures Folded(policies, layers).None?
    decreases |layers| - i
  {
    if i < |layers| {
      assert layers[..i + 1][..i] == layers[..i];
      ConflictsAreFinal(policies, layers, i + 1);
    } else {
      assert layers[..i] == layers;
    }
  }

  predicate Ascending(layers: seq<Layer>) {
    forall i, j :: 0 <= i < j < |layers| ==> layers[i].rank <= layers[j].rank
  }

  lemma {:induction false} InsertPermutes(layer: Layer, sorted: seq<Layer>)
    ensures multiset(Insert(layer, sorted)) == multiset(sorted) + multiset{layer}
  {
    if sorted != [] && layer.rank >= sorted[0].rank {
      var rest := Insert(layer, sorted[1..]);
      InsertPermutes(layer, sorted[1..]);
      assert sorted == [sorted[0]] + sorted[1..];
      assert multiset(Insert(layer, sorted)) == multiset{sorted[0]} + multiset(rest);
    }
  }

  lemma {:induction false} InsertSorts(layer: Layer, sorted: seq<Layer>)
    requires Ascending(sorted)
    ensures Ascending(Insert(layer, sorted))
  {
    if sorted != [] && layer.rank >= sorted[0].rank {
      var tail := sorted[1..];
      InsertSorts(layer, tail);
      InsertedIsOld(layer, tail);
      assert forall j :: 0 <= j < |tail| ==> tail[j] == sorted[j + 1];
    }
  }

  lemma {:induction false} InsertedIsOld(layer: Layer, sorted: seq<Layer>)
    ensures forall j :: 0 <= j < |Insert(layer, sorted)| ==>
              Insert(layer, sorted)[j] == layer || Insert(layer, sorted)[j] in sorted
  {
    if sorted != [] && layer.rank >= sorted[0].rank {
      InsertedIsOld(layer, sorted[1..]);
    }
  }

  lemma {:induction false} SortSorts(layers: seq<Layer>)
    ensures Ascending(Sort(layers)) && multiset(Sort(layers)) == multiset(layers)
  {
    if layers != [] {
      var n := |layers| - 1;
      SortSorts(layers[..n]);
      InsertSorts(layers[n], Sort(layers[..n]));
      InsertPermutes(layers[n], Sort(layers[..n]));
      assert layers == layers[..n] + [layers[n]];
    }
  }

  lemma {:induction false} StrictOrderIsUnique(a: seq<Layer>, b: seq<Layer>)
    requires Ascending(a) && Ascending(b) && DistinctRanks(a) && multiset(a) == multiset(b)
    ensures a == b
  {
    if a == [] {
      assert |multiset(b)| == 0;
    } else {
      assert |multiset(a)| == |multiset(b)|;
      SameHeads(a, b);
      SameTails(a, b);
      StrictOrderIsUnique(a[1..], b[1..]);
      assert a == [a[0]] + a[1..] && b == [b[0]] + b[1..];
    }
  }

  lemma SameHeads(a: seq<Layer>, b: seq<Layer>)
    requires Ascending(a) && Ascending(b) && DistinctRanks(a) && multiset(a) == multiset(b) && a != [] && b != []
    ensures a[0] == b[0]
  {
    assert a[0] in multiset(b) && b[0] in multiset(a);
    var i :| 0 <= i < |b| && b[i] == a[0];
    var j :| 0 <= j < |a| && a[j] == b[0];
    assert b[0].rank <= b[i].rank && a[0].rank <= a[j].rank;
  }

  lemma SameTails(a: seq<Layer>, b: seq<Layer>)
    requires multiset(a) == multiset(b) && a != [] && b != [] && a[0] == b[0]
    ensures multiset(a[1..]) == multiset(b[1..])
  {
    assert a == [a[0]] + a[1..] && b == [b[0]] + b[1..];
    assert multiset(a) == multiset{a[0]} + multiset(a[1..]);
    assert multiset(b) == multiset{b[0]} + multiset(b[1..]);
    assert multiset(a[1..]) == multiset(a) - multiset{a[0]};
    assert multiset(b[1..]) == multiset(b) - multiset{b[0]};
  }

  /** Resolution does not depend on the order in which the layers are given. */
  lemma ResolutionIgnoresOrder(policies: Policies, a: seq<Layer>, b: seq<Layer>)
    requires multiset(a) == multiset(b)
    ensures Resolve(policies, a) == Resolve(policies, b)
  {
    SortSorts(a);
    SortSorts(b);
    if DistinctRanks(Sort(a)) {
      StrictOrderIsUnique(Sort(a), Sort(b));
    } else if DistinctRanks(Sort(b)) {
      StrictOrderIsUnique(Sort(b), Sort(a));
    }
  }
}
