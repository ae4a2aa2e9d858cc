/** Which layer decides: what the resolved configuration holds, told place by place from the layers, and
    when resolution raises. */
module Precedence {
  import opened StateMachine
  import opened Configuration

  // Values, place by place

  /** What stands at a place: a map or a keyed list, whose entries have places of their own, or a value
      without such entries. */
  datatype Sight = MapHere | ListHere(identified: bool) | Here(value: Value)

  /** A value says something about a place inside maps: it has it, or it ends above it. */
  predicate Touches(v: Value, names: seq<string>)
    decreases |names|
  {
    names == [] || !v.MapOf? || (names[0] in v.fields && Touches(v.fields[names[0]], names[1..]))
  }

  function Shown(v: Value, names: seq<string>): Option<Sight>
    decreases |names|
  {
    if names == [] then Some(if v.MapOf? then MapHere else Here(v))
    else if v.MapOf? && names[0] in v.fields then Shown(v.fields[names[0]], names[1..])
    else None
  }

  lemma {:induction false} UntouchedIsNotShown(v: Value, names: seq<string>)
    requires !Touches(v, names)
    ensures Shown(v, names) == None
    decreases |names|
  {
    if names[0] in v.fields { UntouchedIsNotShown(v.fields[names[0]], names[1..]); }
  }

  /** The higher value decides wherever it says something. */
  lemma {:induction false} MergeShows(lower: Value, higher: Value, names: seq<string>)
    requires Merge(lower, higher).Some?
    ensures Shown(Merge(lower, higher).value, names)
            == if Touches(higher, names) then Shown(higher, names) else Shown(lower, names)
    decreases |names|
  {
    if !Touches(higher, names) { UntouchedIsNotShown(higher, names); }
    if lower.MapOf? && higher.MapOf? {
      hide Merge;
      MapsMerge(lower.fields, higher.fields);
      if names != [] && names[0] in lower.fields && names[0] in higher.fields {
        assert Merge(lower.fields[names[0]], higher.fields[names[0]]).Some?;
        MergeShows(lower.fields[names[0]], higher.fields[names[0]], names[1..]);
      }
    }
  }

  /** Two things that cannot be merged; a null can be merged with anything. */
  predicate Opposed(a: Sight, b: Sight) {
    match (a, b)
    case (MapHere, MapHere) => false
    case (ListHere(i), ListHere(j)) => !i || !j
    case (Here(v), Here(w)) =>
      !v.Null? && !w.Null? && !(v.ListOf? && w.ListOf?)
      && !(v.Scalar? && w.Scalar? && v.typeName == w.typeName)
    case (Here(v), _) => !v.Null?
    case (_, Here(w)) => !w.Null?
    case _ => true
  }

  predicate OpposedAt(lower: Value, higher: Value, names: seq<string>) {
    var a, b := Shown(lower, names), Shown(higher, names);
    a.Some? && b.Some? && Opposed(a.value, b.value)
  }

  /** Merging raises exactly where the two values are opposed at some place. */
  lemma {:induction false} MergeRaises(lower: Value, higher: Value)
    ensures Merge(lower, higher).None? <==> exists names :: OpposedAt(lower, higher, names)
  {
    if names :| OpposedAt(lower, higher, names) { OpposedRaises(lower, higher, names); }
    if Merge(lower, higher).None? { var names := RaisingPlace(lower, higher); }
  }

  lemma {:induction false} OpposedRaises(lower: Value, higher: Value, names: seq<string>)
    requires OpposedAt(lower, higher, names)
    ensures Merge(lower, higher).None?
    decreases |names|
  {
    if names != [] {
      hide Merge;
      OpposedRaises(lower.fields[names[0]], higher.fields[names[0]], names[1..]);
      MapsMerge(lower.fields, higher.fields);
      assert Clashes(lower.fields, higher.fields);
    }
  }

  lemma {:induction false} RaisingPlace(lower: Value, higher: Value) returns (names: seq<string>)
    requires Merge(lower, higher).None?
    ensures OpposedAt(lower, higher, names)
    decreases higher
  {
    if lower.MapOf? && higher.MapOf? {
      var k :| k in lower.fields && k in higher.fields && Merge(lower.fields[k], higher.fields[k]).None?;
      var rest := RaisingPlace(lower.fields[k], higher.fields[k]);
      names := [k] + rest;
      assert names[1..] == rest;
    } else {
      names := [];
    }
  }

  /** What is shown at all places determines a value. */
  lemma {:induction false} ShownDetermines(a: Value, b: Value)
    requires forall names :: Shown(a, names) == Shown(b, names)
    ensures a == b
    decreases a
  {
    assert Shown(a, []) == Shown(b, []);
    if a.MapOf? {
      forall k ensures k in a.fields <==> k in b.fields {
        assert Shown(a, [k]) == Shown(b, [k]);
        assert [k][1..] == [];
        assert Shown(a, [k]).Some? <==> k in a.fields;
        assert Shown(b, [k]).Some? <==> k in b.fields;
      }
      forall k | k in a.fields ensures a.fields[k] == b.fields[k] {
        forall names ensures Shown(a.fields[k], names) == Shown(b.fields[k], names) {
          var all := [k] + names;
          assert all[1..] == names && Shown(a, all) == Shown(b, all);
        }
        ShownDetermines(a.fields[k], b.fields[k]);
      }
    }
  }

  // Fields

  /** A place in a field: in an entry of its keyed list, or outside of such lists. */
  datatype Place = Place(entry: Option<string>, names: seq<string>)

  predicate IsKeyed(policies: Policies, field: string, v: Value) {
    v.ListOf? && field in policies
  }

  predicate Reaches(policies: Policies, field: string, v: Value, p: Place) {
    if IsKeyed(policies, field, v) && p.entry.Some? then
      var found := Find(v.items, policies[field], p.entry.value);
      found.Some? && Touches(found.value, p.names)
    else p.entry.Some? || Touches(v, p.names)
  }

  function Seen(policies: Policies, field: string, v: Value, p: Place): Option<Sight> {
    if IsKeyed(policies, field, v) then
      if p.entry.Some? then
        var found := Find(v.items, policies[field], p.entry.value);
        if found.None? then None else Shown(found.value, p.names)
      else if p.names == [] then Some(ListHere(Identified(v.items, policies[field])))
      else None
    else if p.entry.Some? then None
    else Shown(v, p.names)
  }

  /** A keyed list has distinct identifiers. */
  predicate Tidy(policies: Policies, field: string, v: Value) {
    IsKeyed(policies, field, v) && Identified(v.items, policies[field]) ==> Keyed(v.items, policies[field])
  }

  lemma {:induction false} FieldShows(policies: Policies, field: string, lower: Value, higher: Value, p: Place)
    requires Tidy(policies, field, lower) && Tidy(policies, field, higher)
    requires MergeField(policies, field, lower, higher).Some?
    ensures var merged := MergeField(policies, field, lower, higher).value;
            && Tidy(policies, field, merged)
            && Seen(policies, field, merged, p)
               == if Reaches(policies, field, higher, p) then Seen(policies, field, higher, p)
                  else Seen(policies, field, lower, p)
  {
    hide Find, IdOf, Ids, Distinct, AbsorbAll;
    if IsKeyed(policies, field, lower) && IsKeyed(policies, field, higher) {
      hide Merge, Touches, Shown;
      var key := policies[field];
      KeyedMerge(lower.items, higher.items, key);
      if p.entry.Some? {
        var l, h := Find(lower.items, key, p.entry.value), Find(higher.items, key, p.entry.value);
        if h.Some? {
          if !Touches(h.value, p.names) { UntouchedIsNotShown(h.value, p.names); }
          if l.Some? {
            assert !Clash(l, h);
            MergeShows(l.value, h.value, p.names);
          }
        }
      }
    } else {
      PlainFieldShows(policies, field, lower, higher, p);
    }
  }

  lemma {:induction false} PlainFieldShows(policies: Policies, field: string, lower: Value, higher: Value, p: Place)
    requires !(IsKeyed(policies, field, lower) && IsKeyed(policies, field, higher))
    requires Merge(lower, higher).Some?
    ensures var merged := Merge(lower, higher).value;
            && (IsKeyed(policies, field, merged) ==> merged == lower || merged == higher)
            && Seen(policies, field, merged, p)
               == if Reaches(policies, field, higher, p) then Seen(policies, field, higher, p)
                  else Seen(policies, field, lower, p)
  {
    hide Find, Identified;
    if p.entry.None? {
      MergeShows(lower, higher, p.names);
    } else if IsKeyed(policies, field, higher) && !Reaches(policies, field, higher, p) {
      var found := Find(higher.items, policies[field], p.entry.value);
      if found.Some? { UntouchedIsNotShown(found.value, p.names); }
    }
  }

  predicate FieldOpposed(policies: Policies, field: string, lower: Value, higher: Value, p: Place) {
    var a, b := Seen(policies, field, lower, p), Seen(policies, field, higher, p);
    a.Some? && b.Some? && Opposed(a.value, b.value)
  }


  lemma {:induction false} FieldRaises(policies: Policies, field: string, lower: Value, higher: Value)
    requires Tidy(policies, field, lower) && Tidy(policies, field, higher)
    ensures MergeField(policies, field, lower, higher).None?
            <==> exists p :: FieldOpposed(policies, field, lower, higher, p)
  {
    hide Find, IdOf, Ids, Distinct, AbsorbAll, Merge, Shown, Identified;
    if IsKeyed(policies, field, lower) && IsKeyed(policies, field, higher) {
      KeyedRaises(policies, field, lower, higher);
    } else {
      MergeRaises(lower, higher);
      if names :| OpposedAt(lower, higher, names) {
        PlainPlace(policies, field, lower, higher, names);
      }
      if p :| FieldOpposed(policies, field, lower, higher, p) {
        PlainOpposed(policies, field, lower, higher, p);
      }
    }
  }

  lemma {:induction false} KeyedRaises(policies: Policies, field: string, lower: Value, higher: Value)
    requires Tidy(policies, field, lower) && Tidy(policies, field, higher)
    requires IsKeyed(policies, field, lower) && IsKeyed(policies, field, higher)
    ensures MergeField(policies, field, lower, higher).None?
            <==> exists p :: FieldOpposed(policies, field, lower, higher, p)
  {
    hide Find, IdOf, Ids, Distinct, AbsorbAll, Merge, Shown, Identified;
    var key := policies[field];
    if !(Identified(lower.items, key) && Identified(higher.items, key)) {
      assert FieldOpposed(policies, field, lower, higher, Place(None, []));
    } else {
      KeyedMerge(lower.items, higher.items, key);
      if id :| Clash(Find(lower.items, key, id), Find(higher.items, key, id)) {
        var l, h := Find(lower.items, key, id).value, Find(higher.items, key, id).value;
        MergeRaises(l, h);
        var names :| OpposedAt(l, h, names);
        assert FieldOpposed(policies, field, lower, higher, Place(Some(id), names));
      }
      if p :| FieldOpposed(policies, field, lower, higher, p) {
        var id := p.entry.value;
        var l, h := Find(lower.items, key, id).value, Find(higher.items, key, id).value;
        MergeRaises(l, h);
        assert OpposedAt(l, h, p.names);
        assert Clash(Find(lower.items, key, id), Find(higher.items, key, id));
      }
    }
  }

  /** Outside of keyed lists the places of a field are those of its value. */
  lemma {:induction false} PlainPlace(policies: Policies, field: string, lower: Value, higher: Value,
                                      names: seq<string>)
    requires !(IsKeyed(policies, field, lower) && IsKeyed(policies, field, higher))
    requires OpposedAt(lower, higher, names)
    ensures FieldOpposed(policies, field, lower, higher, Place(None, names))
  {
    hide Identified, Find;
  }

  lemma {:induction false} PlainOpposed(policies: Policies, field: string, lower: Value, higher: Value, p: Place)
    requires !(IsKeyed(policies, field, lower) && IsKeyed(policies, field, higher))
    requires FieldOpposed(policies, field, lower, higher, p)
    ensures OpposedAt(lower, higher, p.names)
  {
    hide Identified, Find;
  }

  // All layers

  predicate AllTidy(policies: Policies, fields: Fields) {
    forall f :: f in fields ==> Tidy(policies, f, fields[f])
  }

  predicate LayersTidy(policies: Policies, layers: seq<Layer>) {
    forall i :: 0 <= i < |layers| ==> AllTidy(policies, layers[i].patch)
  }

  predicate Sets(policies: Policies, fields: Fields, field: string, p: Place) {
    field in fields && Reaches(policies, field, fields[field], p)
  }

  function SeenIn(policies: Policies, fields: Fields, field: string, p: Place): Option<Sight> {
    if field in fields then Seen(policies, field, fields[field], p) else None
  }

  /** The last of these layers that says something about the place. */
  predicate Last(policies: Policies, layers: seq<Layer>, field: string, p: Place, i: int) {
    && 0 <= i < |layers| && Sets(policies, layers[i].patch, field, p)
    && forall j :: i < j < |layers| ==> !Sets(policies, layers[j].patch, field, p)
  }

  predicate Silent(policies: Policies, layers: seq<Layer>, field: string, p: Place) {
    forall i :: 0 <= i < |layers| ==> !Sets(policies, layers[i].patch, field, p)
  }

  /** What is seen is what the last layer that says something shows. */
  ghost predicate Decides(policies: Policies, layers: seq<Layer>, r: Fields, field: string, p: Place) {
    && (Silent(policies, layers, field, p) ==> SeenIn(policies, r, field, p) == None)
    && forall i :: Last(policies, layers, field, p, i) ==>
         SeenIn(policies, r, field, p) == SeenIn(policies, layers[i].patch, field, p)
  }

  predicate SetBy(layers: seq<Layer>, field: string) {
    exists i :: 0 <= i < |layers| && field in layers[i].patch
  }

  lemma {:induction false} PatchShows(policies: Policies, lower: Fields, higher: Fields, field: string, p: Place)
    requires AllTidy(policies, lower) && AllTidy(policies, higher) && MergePatch(policies, lower, higher).Some?
    ensures var merged := MergePatch(policies, lower, higher).value;
            && (field in merged <==> field in lower || field in higher)
            && (field in merged ==> Tidy(policies, field, merged[field]))
            && SeenIn(policies, merged, field, p)
               == if Sets(policies, higher, field, p) then SeenIn(policies, higher, field, p)
                  else SeenIn(policies, lower, field, p)
  {
    hide MergeField, Tidy, Seen, Reaches;
    if field in lower && field in higher {
      assert MergeField(policies, field, lower[field], higher[field]).Some?;
      FieldShows(policies, field, lower[field], higher[field], p);
    } else if field in higher && !Sets(policies, higher, field, p) {
      UnreachedIsNotSeen(policies, field, higher[field], p);
    }
  }

  lemma {:induction false} UnreachedIsNotSeen(policies: Policies, field: string, v: Value, p: Place)
    requires !Reaches(policies, field, v, p)
    ensures Seen(policies, field, v, p) == None
  {
    hide Find, Identified, Shown;
    if IsKeyed(policies, field, v) && p.entry.Some? {
      var found := Find(v.items, policies[field], p.entry.value);
      if found.Some? { UntouchedIsNotShown(found.value, p.names); }
    } else {
      UntouchedIsNotShown(v, p.names);
    }
  }

  lemma {:induction false} FoldShows(policies: Policies, layers: seq<Layer>, field: string, p: Place)
    requires LayersTidy(policies, layers) && Folded(policies, layers).Some?
    ensures var r := Folded(policies, layers).value;
            && AllTidy(policies, r) && Decides(policies, layers, r, field, p) && (field in r <==> SetBy(layers, field))
    decreases |layers|
  {
    hide MergePatch, Seen, Reaches, Tidy;
    if layers != [] {
      var n := |layers| - 1;
      var rest, top := layers[..n], layers[n].patch;
      var before, r := Folded(policies, rest).value, Folded(policies, layers).value;
      FoldShows(policies, rest, field, p);
      PatchShows(policies, before, top, field, p);
      forall f | f in r ensures Tidy(policies, f, r[f]) {
        PatchShows(policies, before, top, f, p);
      }
      LastOfMore(policies, layers, field, p);
    }
  }

  lemma {:induction false} LastOfMore(policies: Policies, layers: seq<Layer>, field: string, p: Place)
    requires layers != []
    ensures var n := |layers| - 1;
            var own := Sets(policies, layers[n].patch, field, p);
            && (forall i :: Last(policies, layers, field, p, i) <==>
                  if own then i == n else Last(policies, layers[..n], field, p, i))
            && (Silent(policies, layers, field, p) <==> !own && Silent(policies, layers[..n], field, p))
            && (SetBy(layers, field) <==> field in layers[n].patch || SetBy(layers[..n], field))
  {
    hide Sets;
    var n := |layers| - 1;
    var rest := layers[..n];
    assert forall i :: 0 <= i < n ==> rest[i] == layers[i];
    if SetBy(rest, field) {
      var i :| 0 <= i < |rest| && field in rest[i].patch;
      assert field in layers[i].patch;
    }
    if SetBy(layers, field) && field !in layers[n].patch {
      var i :| 0 <= i < |layers| && field in layers[i].patch;
      assert field in rest[i].patch;
    }
  }

  // Conflicts between layers

  /** What a layer shows at a place is opposed to what the last layer below it that says something there
      shows. */
  ghost predicate Conflict(policies: Policies, layers: seq<Layer>, field: string, p: Place, i: int, j: int) {
    && 0 <= i < j < |layers| && Last(policies, layers[..j], field, p, i)
    && var a, b := SeenIn(policies, layers[i].patch, field, p), SeenIn(policies, layers[j].patch, field, p);
       a.Some? && b.Some? && Opposed(a.value, b.value)
  }

  lemma {:induction false} PatchRaisesAt(policies: Policies, lower: Fields, higher: Fields)
    requires AllTidy(policies, lower) && AllTidy(policies, higher)
    ensures MergePatch(policies, lower, higher).None? <==>
              exists f, p :: f in lower && f in higher && FieldOpposed(policies, f, lower[f], higher[f], p)
  {
    hide MergeField, Tidy, FieldOpposed;
    if FieldsClash(policies, lower, higher) {
      var f :| f in lower && f in higher && MergeField(policies, f, lower[f], higher[f]).None?;
      FieldRaises(policies, f, lower[f], higher[f]);
      var p :| FieldOpposed(policies, f, lower[f], higher[f], p);
      assert f in lower && f in higher && FieldOpposed(policies, f, lower[f], higher[f], p);
    }
    if f, p :| f in lower && f in higher && FieldOpposed(policies, f, lower[f], higher[f], p) {
      FieldRaises(policies, f, lower[f], higher[f]);
      assert FieldsClash(policies, lower, higher);
    }
  }

  /** The layers raise exactly where two of them conflict. */
  lemma {:induction false} FoldRaises(policies: Policies, layers: seq<Layer>)
    requires LayersTidy(policies, layers)
    ensures Folded(policies, layers).None? <==>
              exists field, p, i, j :: Conflict(policies, layers, field, p, i, j)
    decreases |layers|
  {
    hide MergePatch, Last, SeenIn, Tidy, Opposed;
    if layers != [] {
      var n := |layers| - 1;
      var rest := layers[..n];
      FoldRaises(policies, rest);
      if Folded(policies, rest).None? {
        var field, p, i, j :| Conflict(policies, rest, field, p, i, j);
        ConflictStays(policies, layers, field, p, i, j);
      } else {
        LastRaises(policies, layers, n);
        if field, p, i, j :| Conflict(policies, layers, field, p, i, j) {
          if j < n { ConflictStays(policies, layers, field, p, i, j); }
          assert j == n;
        }
      }
    }
  }

  lemma {:induction false} ConflictStays(policies: Policies, layers: seq<Layer>, field: string, p: Place, i: int,
                                         j: int)
    requires layers != [] && j < |layers| - 1
    ensures Conflict(policies, layers[..|layers| - 1], field, p, i, j) <==> Conflict(policies, layers, field, p, i, j)
  {
    hide Last, SeenIn, Opposed;
    if 0 <= i < j { assert layers[..|layers| - 1][..j] == layers[..j]; }
  }

  lemma {:induction false} LastRaises(policies: Policies, layers: seq<Layer>, n: nat)
    requires LayersTidy(policies, layers) && n + 1 == |layers| && Folded(policies, layers[..n]).Some?
    ensures Folded(policies, layers).None? <==> exists field, p, i :: Conflict(policies, layers, field, p, i, n)
  {
    hide MergePatch, Last, Tidy, Opposed, Seen, Reaches;
    var rest, top := layers[..n], layers[n].patch;
    var before := Folded(policies, rest).value;
    FoldShows(policies, rest, "", Place(None, []));
    PatchRaisesAt(policies, before, top);
    if f, p :| f in before && f in top && FieldOpposed(policies, f, before[f], top[f], p) {
      FoldShows(policies, rest, f, p);
      var i := LastOne(policies, rest, f, p);
      assert Conflict(policies, layers, f, p, i, n);
    }
    if field, p, i :| Conflict(policies, layers, field, p, i, n) {
      FoldShows(policies, rest, field, p);
      assert Last(policies, rest, field, p, i);
      assert SeenIn(policies, before, field, p) == SeenIn(policies, rest[i].patch, field, p);
      assert field in before && field in top && FieldOpposed(policies, field, before[field], top[field], p);
    }
  }

  lemma {:induction false} LastOne(policies: Policies, layers: seq<Layer>, field: string, p: Place) returns (i: int)
    requires !Silent(policies, layers, field, p)
    ensures 0 <= i < |layers| && Last(policies, layers, field, p, i)
    decreases |layers|
  {
    hide Sets;
    var n := |layers| - 1;
    LastOfMore(policies, layers, field, p);
    if Sets(policies, layers[n].patch, field, p) {
      i := n;
    } else {
      i := LastOne(policies, layers[..n], field, p);
    }
  }

  // Resolution

  /** The layer of the highest rank that says something about the place. */
  ghost predicate Highest(policies: Policies, layers: seq<Layer>, layer: Layer, field: string, p: Place) {
    && layer in layers && Sets(policies, layer.patch, field, p)
    && forall other :: other in layers && Sets(policies, other.patch, field, p) ==> other.rank <= layer.rank
  }

  /** The resolved configuration has the fields of all layers; at every place, at any depth, it shows what
      the layer of the highest rank that says something about the place shows there, and nothing where
      none does. */
  lemma {:induction false} HighestWins(policies: Policies, layers: seq<Layer>, field: string, p: Place)
    requires LayersTidy(policies, layers) && Resolve(policies, layers).Some?
    ensures var r := Resolve(policies, layers).value;
            && (field in r <==> SetBy(layers, field))
            && (Silent(policies, layers, field, p) ==> SeenIn(policies, r, field, p) == None)
            && forall layer :: Highest(policies, layers, layer, field, p) ==>
                 SeenIn(policies, r, field, p) == SeenIn(policies, layer.patch, field, p)
  {
    hide Folded, Sort, Sets, SeenIn, Tidy;
    var sorted := Sort(layers);
    SortSorts(layers);
    SameLayers(layers, sorted);
    assert LayersTidy(policies, sorted) by {
      forall i | 0 <= i < |sorted| ensures AllTidy(policies, sorted[i].patch) { assert sorted[i] in layers; }
    }
    FoldShows(policies, sorted, field, p);
    assert SetBy(sorted, field) <==> SetBy(layers, field) by {
      if i :| 0 <= i < |sorted| && field in sorted[i].patch { assert sorted[i] in layers; }
      if i :| 0 <= i < |layers| && field in layers[i].patch { assert layers[i] in sorted; }
    }
    if Silent(policies, layers, field, p) {
      forall i | 0 <= i < |sorted| ensures !Sets(policies, sorted[i].patch, field, p) { assert sorted[i] in layers; }
    }
    forall layer | Highest(policies, layers, layer, field, p)
      ensures exists i :: Last(policies, sorted, field, p, i) && sorted[i] == layer
    {
      var i :| 0 <= i < |sorted| && sorted[i] == layer;
      forall j | i < j < |sorted| ensures !Sets(policies, sorted[j].patch, field, p) {
        assert sorted[j] in layers && sorted[j].rank > layer.rank;
      }
      assert Last(policies, sorted, field, p, i);
    }
  }

  lemma SameLayers(a: seq<Layer>, b: seq<Layer>)
    requires multiset(a) == multiset(b)
    ensures forall x :: x in a <==> x in b
  {
    forall x ensures x in a <==> x in b {
      assert x in a <==> x in multiset(a);
      assert x in b <==> x in multiset(b);
    }
  }

  /** A whole field: the null, the scalar or the list without a policy of the layer of the highest rank
      that has the field is its value. */
  lemma {:induction false} HighestFieldWins(policies: Policies, layers: seq<Layer>, layer: Layer, field: string)
    requires LayersTidy(policies, layers) && Resolve(policies, layers).Some?
    requires layer in layers && field in layer.patch
    requires forall other :: other in layers && field in other.patch ==> other.rank <= layer.rank
    requires !layer.patch[field].MapOf? && !IsKeyed(policies, field, layer.patch[field])
    ensures var r := Resolve(policies, layers).value; field in r && r[field] == layer.patch[field]
  {
    hide Resolve;
    assert Highest(policies, layers, layer, field, Place(None, []));
    HighestWins(policies, layers, field, Place(None, []));
  }

  predicate Twice(layers: seq<Layer>, layer: Layer) {
    exists i, j :: 0 <= i < j < |layers| && layers[i] == layer && layers[j] == layer
  }

  lemma {:induction false} Repeated(layers: seq<Layer>, layer: Layer)
    ensures multiset(layers)[layer] >= 1 <==> layer in layers
    ensures multiset(layers)[layer] >= 2 <==> Twice(layers, layer)
    decreases |layers|
  {
    hide Twice;
    if layers == [] {
      NothingTwice(layer);
    } else {
      var n := |layers| - 1;
      var rest := layers[..n];
      assert layers == rest + [layers[n]];
      Repeated(rest, layer);
      OneMore(rest, layers[n], layer);
    }
  }

  lemma NothingTwice(layer: Layer)
    ensures !Twice([], layer)
  {
  }

  lemma OneMore(rest: seq<Layer>, last: Layer, layer: Layer)
    ensures Twice(rest + [last], layer) <==> Twice(rest, layer) || (last == layer && layer in rest)
  {
    var layers := rest + [last];
    if Twice(rest, layer) {
      var i, j :| 0 <= i < j < |rest| && rest[i] == layer && rest[j] == layer;
      assert layers[i] == layer && layers[j] == layer;
    }
    if last == layer && layer in rest {
      var i :| 0 <= i < |rest| && rest[i] == layer;
      assert layers[i] == layer && layers[|rest|] == layer;
    }
    if Twice(layers, layer) {
      var i, j :| 0 <= i < j < |layers| && layers[i] == layer && layers[j] == layer;
      assert rest[i] == layer;
      assert j < |rest| ==> rest[j] == layer;
    }
  }

  lemma {:induction false} RepeatedRanks(a: seq<Layer>, b: seq<Layer>)
    requires multiset(a) == multiset(b) && !DistinctRanks(a)
    ensures !DistinctRanks(b)
  {
    var i, j :| 0 <= i < j < |a| && a[i].rank == a[j].rank;
    if a[i] == a[j] {
      var layer := a[i];
      Repeated(a, layer);
      Repeated(b, layer);
      assert Twice(a, layer);
      var k, l :| 0 <= k < l < |b| && b[k] == layer && b[l] == layer;
    } else {
      SameLayers(a, b);
      assert a[i] in b && a[j] in b;
      var k :| 0 <= k < |b| && b[k] == a[i];
      var l :| 0 <= l < |b| && b[l] == a[j];
      assert k != l && b[k].rank == b[l].rank;
    }
  }

  /** Resolution raises exactly where a scope occurs twice or two layers, in the order of their ranks,
      conflict. */
  lemma {:induction false} ResolutionRaises(policies: Policies, layers: seq<Layer>)
    requires LayersTidy(policies, layers)
    ensures Resolve(policies, layers).None? <==>
              || !DistinctRanks(layers)
              || exists sorted: seq<Layer>, field, p, i, j ::
                   && Ascending(sorted) && multiset(sorted) == multiset(layers)
                   && Conflict(policies, sorted, field, p, i, j)
  {
    hide Folded, Sort, Conflict, Tidy;
    var sorted := Sort(layers);
    SortSorts(layers);
    SameLayers(layers, sorted);
    assert LayersTidy(policies, sorted) by {
      forall i | 0 <= i < |sorted| ensures AllTidy(policies, sorted[i].patch) { assert sorted[i] in layers; }
    }
    if !DistinctRanks(layers) { RepeatedRanks(layers, sorted); }
    if !DistinctRanks(sorted) { RepeatedRanks(sorted, layers); }
    FoldRaises(policies, sorted);
    if DistinctRanks(sorted) {
      forall other: seq<Layer> | Ascending(other) && multiset(other) == multiset(layers) ensures other == sorted {
        StrictOrderIsUnique(sorted, other);
      }
    }
  }
}
