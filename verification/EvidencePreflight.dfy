/** The iterative preflight of an evidence value, which may share containers or contain itself,
    against a recursive definition. */
module EvidencePreflight {

  /** An object: a container of other objects by identity, or a leaf that is in order or not. A
      mapping's keys are summed up by whether all of them are in order. */
  datatype Node = Container(children: seq<nat>, keysOk: bool) | Leaf(ok: bool)

  type Heap = map<nat, Node>

  const MAX_DEPTH: nat := 32
  const MAX_NODES: nat := 8192

  predicate Closed(heap: Heap) {
    forall id :: id in heap && heap[id].Container? ==>
      forall i :: 0 <= i < |heap[id].children| ==> heap[id].children[i] in heap
  }

  // The recursive definition

  /** Unfolded to a tree, the value is at most n deep and all its keys and leaves are in order. */
  predicate TreeOk(heap: Heap, id: nat, n: nat)
    requires Closed(heap) && id in heap
    decreases n
  {
    n > 0 && match heap[id]
             case Leaf(ok) => ok
             case Container(children, keysOk) =>
               keysOk && forall i :: 0 <= i < |children| ==> TreeOk(heap, children[i], n - 1)
  }

  /** How many nodes the unfolding has down to depth n, counting every occurrence. */
  function Occurrences(heap: Heap, id: nat, n: nat): nat
    requires Closed(heap) && id in heap
    decreases n, 1, 0
  {
    if n == 0 then 0
    else if heap[id].Leaf? then 1
    else 1 + OccurrencesOfAll(heap, heap[id].children, n - 1)
  }

  function OccurrencesOfAll(heap: Heap, ids: seq<nat>, n: nat): nat
    requires Closed(heap) && forall i :: 0 <= i < |ids| ==> ids[i] in heap
    decreases n, 2, |ids|
  {
    if ids == [] then 0 else Occurrences(heap, ids[0], n) + OccurrencesOfAll(heap, ids[1..], n)
  }

  predicate Accepted(heap: Heap, id: nat)
    requires Closed(heap) && id in heap
  {
    TreeOk(heap, id, MAX_DEPTH) && Occurrences(heap, id, MAX_DEPTH) <= MAX_NODES
  }

  // Cycles

  predicate Child(heap: Heap, a: nat, b: nat) {
    a in heap && heap[a].Container? && b in heap[a].children
  }

  /** A path of k steps. */
  ghost predicate Leads(heap: Heap, a: nat, b: nat, k: nat)
    decreases k
  {
    if k == 0 then a == b else exists c :: Child(heap, a, c) && Leads(heap, c, b, k - 1)
  }

  ghost predicate Below(heap: Heap, a: nat, b: nat) {
    exists k: nat :: k > 0 && Leads(heap, a, b, k)
  }

  lemma {:induction false} PathsDescend(heap: Heap, a: nat, b: nat, k: nat, n: nat)
    requires Closed(heap) && a in heap && Leads(heap, a, b, k) && TreeOk(heap, a, n)
    ensures b in heap && n > k && TreeOk(heap, b, n - k)
    decreases k
  {
    if k > 0 {
      var c :| Child(heap, a, c) && Leads(heap, c, b, k - 1);
      var i :| 0 <= i < |heap[a].children| && heap[a].children[i] == c;
      PathsDescend(heap, c, b, k - 1, n - 1);
    }
  }

  /** A value that contains itself is no tree of any depth. */
  lemma {:induction false} CyclesAreRejected(heap: Heap, a: nat, n: nat)
    requires Closed(heap) && a in heap && Below(heap, a, a)
    ensures !TreeOk(heap, a, n)
    decreases n
  {
    if TreeOk(heap, a, n) {
      var k: nat :| k > 0 && Leads(heap, a, a, k);
      PathsDescend(heap, a, a, k, n);
      CyclesAreRejected(heap, a, n - k);
    }
  }

  lemma {:induction false} PathsExtend(heap: Heap, a: nat, b: nat, c: nat, k: nat)
    requires Leads(heap, a, b, k) && Child(heap, b, c)
    ensures Leads(heap, a, c, k + 1)
    decreases k
  {
    if k == 0 {
      assert Leads(heap, c, c, 0);
    } else {
      var d :| Child(heap, a, d) && Leads(heap, d, b, k - 1);
      PathsExtend(heap, d, b, c, k - 1);
    }
  }

  lemma BelowExtends(heap: Heap, a: nat, b: nat, c: nat)
    requires (a == b || Below(heap, a, b)) && Child(heap, b, c)
    ensures Below(heap, a, c)
  {
    if a == b {
      assert Leads(heap, c, c, 0);
      assert Leads(heap, a, c, 1);
    } else {
      var k: nat :| k > 0 && Leads(heap, a, b, k);
      PathsExtend(heap, a, b, c, k);
    }
  }

  // The walk

  datatype Frame = Enter(id: nat, depth: nat) | Exit(id: nat)

  predicate FrameIn(heap: Heap, f: Frame) {
    f.id in heap && (f.Enter? ==> 1 <= f.depth <= MAX_DEPTH + 1)
  }

  predicate FramesIn(heap: Heap, stack: seq<Frame>) {
    forall i :: 0 <= i < |stack| ==> FrameIn(heap, stack[i])
  }

  predicate FrameOk(heap: Heap, f: Frame)
    requires Closed(heap) && FrameIn(heap, f)
  {
    f.Enter? ==> TreeOk(heap, f.id, MAX_DEPTH + 1 - f.depth)
  }

  predicate FramesOk(heap: Heap, stack: seq<Frame>)
    requires Closed(heap) && FramesIn(heap, stack)
  {
    forall i :: 0 <= i < |stack| ==> FrameOk(heap, stack[i])
  }

  function FrameCount(heap: Heap, f: Frame): nat
    requires Closed(heap) && FrameIn(heap, f)
  {
    if f.Enter? then Occurrences(heap, f.id, MAX_DEPTH + 1 - f.depth) else 0
  }

  function FramesCount(heap: Heap, stack: seq<Frame>): nat
    requires Closed(heap) && FramesIn(heap, stack)
  {
    if stack == [] then 0 else FramesCount(heap, stack[..|stack| - 1]) + FrameCount(heap, stack[|stack| - 1])
  }

  /** The containers being walked are exactly those with an exit frame, and whatever is still to be
      entered above an exit frame lies below that container. */
  ghost predicate Nested(heap: Heap, stack: seq<Frame>, active: set<nat>) {
    && (forall a :: a in active <==> exists i :: 0 <= i < |stack| && stack[i] == Exit(a))
    && (forall i, j :: 0 <= i < j < |stack| && stack[i].Exit? ==> stack[j] != stack[i])
    && (forall i, j :: 0 <= i < j < |stack| && stack[i].Exit? && stack[j].Enter? ==>
          Below(heap, stack[i].id, stack[j].id))
  }

  lemma {:induction false} Popped(heap: Heap, stack: seq<Frame>)
    requires Closed(heap) && FramesIn(heap, stack) && stack != []
    ensures FramesIn(heap, stack[..|stack| - 1]) && FrameIn(heap, stack[|stack| - 1])
    ensures FramesOk(heap, stack) <==> FramesOk(heap, stack[..|stack| - 1]) && FrameOk(heap, stack[|stack| - 1])
    ensures FramesCount(heap, stack) == FramesCount(heap, stack[..|stack| - 1]) + FrameCount(heap, stack[|stack| - 1])
  {
    hide FrameOk, FrameCount, FrameIn;
  }

  lemma {:induction false} Pushed(heap: Heap, stack: seq<Frame>, f: Frame)
    requires Closed(heap) && FramesIn(heap, stack) && FrameIn(heap, f)
    ensures FramesIn(heap, stack + [f])
    ensures FramesOk(heap, stack + [f]) <==> FramesOk(heap, stack) && FrameOk(heap, f)
    ensures FramesCount(heap, stack + [f]) == FramesCount(heap, stack) + FrameCount(heap, f)
  {
    hide FrameOk, FrameCount, FrameIn;
    var longer := stack + [f];
    assert longer[..|longer| - 1] == stack && longer[|longer| - 1] == f;
    assert FramesIn(heap, longer);
    Popped(heap, longer);
  }

  lemma {:induction false} TooDeep(heap: Heap, id: nat)
    requires Closed(heap) && id in heap
    ensures !TreeOk(heap, id, 0)
  {
  }

  lemma {:induction false} Unfolded(heap: Heap, id: nat, n: nat)
    requires Closed(heap) && id in heap && n > 0
    ensures heap[id].Leaf? ==> (TreeOk(heap, id, n) <==> heap[id].ok) && Occurrences(heap, id, n) == 1
    ensures heap[id].Container? ==>
              && (TreeOk(heap, id, n) <==> heap[id].keysOk && AllTrees(heap, heap[id].children, n - 1))
              && Occurrences(heap, id, n) == 1 + OccurrencesOfAll(heap, heap[id].children, n - 1)
  {
  }

  predicate AllTrees(heap: Heap, ids: seq<nat>, n: nat)
    requires Closed(heap) && forall i :: 0 <= i < |ids| ==> ids[i] in heap
  {
    forall i :: 0 <= i < |ids| ==> TreeOk(heap, ids[i], n)
  }

  /** Every child of a container costs at least one node, or the tree is already too deep. */
  lemma {:induction false} ManyChildren(heap: Heap, ids: seq<nat>, n: nat)
    requires Closed(heap) && forall i :: 0 <= i < |ids| ==> ids[i] in heap
    ensures n > 0 ==> OccurrencesOfAll(heap, ids, n) >= |ids|
    ensures n == 0 && ids != [] ==> !AllTrees(heap, ids, n)
    decreases |ids|
  {
    if ids != [] {
      if n == 0 {
        TooDeep(heap, ids[0]);
      }
      ManyChildren(heap, ids[1..], n);
    }
  }

  lemma ExitKeepsNested(heap: Heap, stack: seq<Frame>, active: set<nat>)
    requires stack != [] && Nested(heap, stack, active) && stack[|stack| - 1].Exit?
    ensures Nested(heap, stack[..|stack| - 1], active - {stack[|stack| - 1].id})
  {
    hide Below;
  }

  lemma EnterKeepsNested(heap: Heap, stack: seq<Frame>, active: set<nat>)
    requires stack != [] && Nested(heap, stack, active) && stack[|stack| - 1].Enter?
    ensures Nested(heap, stack[..|stack| - 1], active)
  {
    hide Below;
    var rest := stack[..|stack| - 1];
    forall a | a in active ensures exists i :: 0 <= i < |rest| && rest[i] == Exit(a) {
      var i :| 0 <= i < |stack| && stack[i] == Exit(a);
      assert rest[i] == Exit(a);
    }
  }

  lemma ActiveIsCyclic(heap: Heap, stack: seq<Frame>, active: set<nat>)
    requires Closed(heap) && FramesIn(heap, stack) && stack != []
    requires Nested(heap, stack, active) && stack[|stack| - 1].Enter? && stack[|stack| - 1].id in active
    ensures !FrameOk(heap, stack[|stack| - 1])
  {
    hide Below, TreeOk;
    var top := stack[|stack| - 1];
    var i :| 0 <= i < |stack| && stack[i] == Exit(top.id);
    assert Below(heap, top.id, top.id);
    CyclesAreRejected(heap, top.id, MAX_DEPTH + 1 - top.depth);
  }

  lemma NestedExit(heap: Heap, stack: seq<Frame>, active: set<nat>, id: nat)
    requires Nested(heap, stack, active) && id !in active
    ensures Nested(heap, stack + [Exit(id)], active + {id})
  {
    hide Below;
    var longer := stack + [Exit(id)];
    forall a | a in active + {id} ensures exists i :: 0 <= i < |longer| && longer[i] == Exit(a) {
      if a == id {
        assert longer[|stack|] == Exit(a);
      } else {
        var i :| 0 <= i < |stack| && stack[i] == Exit(a);
        assert longer[i] == Exit(a);
      }
    }
  }

  lemma NestedEnter(heap: Heap, stack: seq<Frame>, active: set<nat>, id: nat, depth: nat)
    requires Nested(heap, stack, active)
    requires forall a :: a in active ==> Below(heap, a, id)
    ensures Nested(heap, stack + [Enter(id, depth)], active)
  {
    hide Below;
    var longer := stack + [Enter(id, depth)];
    forall a | a in active ensures exists i :: 0 <= i < |longer| && longer[i] == Exit(a) {
      var i :| 0 <= i < |stack| && stack[i] == Exit(a);
      assert longer[i] == Exit(a);
    }
    forall i | 0 <= i < |stack| && stack[i].Exit? ensures Below(heap, stack[i].id, id) {
      assert stack[i] == Exit(stack[i].id);
    }
  }

  /** The frames of a container: its exit, then its children in reverse, so that the first child is
      entered next. */
  method Open(heap: Heap, stack: seq<Frame>, id: nat, depth: nat, ghost active: set<nat>) returns (longer: seq<Frame>)
    requires Closed(heap) && FramesIn(heap, stack) && id in heap && heap[id].Container? && 1 <= depth <= MAX_DEPTH
    requires Nested(heap, stack, active) && id !in active && forall a :: a in active ==> Below(heap, a, id)
    ensures FramesIn(heap, longer) && Nested(heap, longer, active + {id})
    ensures FramesOk(heap, longer) <==> FramesOk(heap, stack) && AllTrees(heap, heap[id].children, MAX_DEPTH - depth)
    ensures FramesCount(heap, longer)
            == FramesCount(heap, stack) + OccurrencesOfAll(heap, heap[id].children, MAX_DEPTH - depth)
  {
    hide TreeOk, Occurrences, Below, Nested, FramesIn, FramesOk, FramesCount;
    var children := heap[id].children;
    longer := stack + [Exit(id)];
    Pushed(heap, stack, Exit(id));
    NestedExit(heap, stack, active, id);
    var i := |children|;
    assert children[i..] == [];
    while i > 0
      invariant 0 <= i <= |children|
      invariant FramesIn(heap, longer) && Nested(heap, longer, active + {id})
      invariant FramesOk(heap, longer) <==> FramesOk(heap, stack) && AllTrees(heap, children[i..], MAX_DEPTH - depth)
      invariant FramesCount(heap, longer)
                == FramesCount(heap, stack) + OccurrencesOfAll(heap, children[i..], MAX_DEPTH - depth)
    {
      i := i - 1;
      Pushed(heap, longer, Enter(children[i], depth + 1));
      forall a | a in active + {id} ensures Below(heap, a, children[i]) {
        BelowExtends(heap, a, id, children[i]);
      }
      NestedEnter(heap, longer, active + {id}, children[i], depth + 1);
      assert children[i..][1..] == children[i + 1..];
      TreesFrom(heap, children[i..], MAX_DEPTH - depth);
      longer := longer + [Enter(children[i], depth + 1)];
    }
    assert children[0..] == children;
  }

  lemma {:induction false} TreesFrom(heap: Heap, ids: seq<nat>, n: nat)
    requires Closed(heap) && ids != [] && forall i :: 0 <= i < |ids| ==> ids[i] in heap
    ensures AllTrees(heap, ids, n) <==> TreeOk(heap, ids[0], n) && AllTrees(heap, ids[1..], n)
  {
    hide TreeOk;
    if TreeOk(heap, ids[0], n) && AllTrees(heap, ids[1..], n) {
      forall i | 0 <= i < |ids| ensures TreeOk(heap, ids[i], n) {
        if i > 0 { assert ids[1..][i - 1] == ids[i]; }
      }
    }
  }

  lemma ActiveAbove(heap: Heap, stack: seq<Frame>, active: set<nat>, a: nat)
    requires stack != [] && Nested(heap, stack, active) && stack[|stack| - 1].Enter? && a in active
    ensures Below(heap, a, stack[|stack| - 1].id)
  {
    hide Below;
    var i :| 0 <= i < |stack| && stack[i] == Exit(a);
  }

  /** The iterative preflight accepts exactly the values of the recursive definition: shared
      containers are allowed, cycles never are. */
  method Preflight(heap: Heap, root: nat) returns (ok: bool)
    requires Closed(heap) && root in heap
    ensures ok <==> Accepted(heap, root)
  {
    hide TreeOk, Occurrences, Below, Nested, FramesIn, FramesOk, FramesCount;
    var stack, active: set<nat>, count := [Enter(root, 1)], {}, 0;
    Begin(heap, root);
    while stack != []
      invariant FramesIn(heap, stack) && count <= MAX_NODES
      invariant TreeOk(heap, root, MAX_DEPTH) <==> FramesOk(heap, stack)
      invariant Occurrences(heap, root, MAX_DEPTH) == count + FramesCount(heap, stack)
      invariant Nested(heap, stack, active)
      decreases MAX_NODES - count, |stack|
    {
      var top := stack[|stack| - 1];
      ghost var before := stack;
      stack := stack[..|stack| - 1];
      Popped(heap, before);
      if top.Exit? {
        ExitKeepsNested(heap, before, active);
        active := active - {top.id};
        continue;
      }
      if top.depth > MAX_DEPTH {
        TooDeep(heap, top.id);
        return false;
      }
      Unfolded(heap, top.id, MAX_DEPTH + 1 - top.depth);
      EnterKeepsNested(heap, before, active);
      count := count + 1;
      if count > MAX_NODES {
        return false;
      }
      match heap[top.id] {
        case Leaf(fine) =>
          if !fine {
            return false;
          }
        case Container(children, keysOk) =>
          if |children| > MAX_NODES - count {
            ManyChildren(heap, children, MAX_DEPTH - top.depth);
            return false;
          }
          if top.id in active {
            ActiveIsCyclic(heap, before, active);
            return false;
          }
          if !keysOk {
            return false;
          }
          forall a | a in active ensures Below(heap, a, top.id) {
            ActiveAbove(heap, before, active, a);
          }
          stack := Open(heap, stack, top.id, top.depth, active);
          active := active + {top.id};
      }
    }
    Finished(heap);
    ok := true;
  }

  lemma {:induction false} Begin(heap: Heap, root: nat)
    requires Closed(heap) && root in heap
    ensures FramesIn(heap, [Enter(root, 1)]) && Nested(heap, [Enter(root, 1)], {})
    ensures FramesOk(heap, [Enter(root, 1)]) <==> TreeOk(heap, root, MAX_DEPTH)
    ensures FramesCount(heap, [Enter(root, 1)]) == Occurrences(heap, root, MAX_DEPTH)
  {
    hide TreeOk, Occurrences;
    var f := Enter(root, 1);
    assert [f][0] == f && [f][..0] == [];
    assert FramesIn(heap, [f]);
    assert FramesOk(heap, [f]) <==> FrameOk(heap, f);
  }

  lemma {:induction false} Finished(heap: Heap)
    requires Closed(heap)
    ensures FramesIn(heap, []) && FramesOk(heap, []) && FramesCount(heap, []) == 0
  {
  }
}
