/** Session-aligned aggregation of the ordered bars of one instrument. */
module Bars {
  import Costs
  import Decimals
  import DecimalContext
  import DecimalSums
  import opened StateMachine

  /** A trading session, left-closed and right-open. */
  datatype Session = Session(opens: int, closes: int)

  datatype Bar = Bar(starts: int, ends: int, open: real, high: real, low: real, close: real,
                     volume: Decimals.Decimal)

  datatype Window = Window(starts: int, ends: int)

  /** Sessions follow each other without overlap. */
  predicate Calendar(sessions: seq<Session>) {
    && (forall i :: 0 <= i < |sessions| ==> sessions[i].opens < sessions[i].closes)
    && (forall i, j :: 0 <= i < j < |sessions| ==> sessions[i].closes <= sessions[j].opens)
  }

  predicate Holds(s: Session, b: Bar) {
    s.opens <= b.starts < s.closes && b.ends <= s.closes
  }

  /** The session that contains the whole bar. */
  function Locate(sessions: seq<Session>, b: Bar): (r: Option<Session>)
    ensures r.Some? ==> r.value in sessions && Holds(r.value, b)
    ensures r.None? ==> forall s :: s in sessions ==> !Holds(s, b)
  {
    if sessions == [] then None
    else if Holds(sessions[0], b) then Some(sessions[0])
    else Locate(sessions[1..], b)
  }

  /** The aggregation window of a session in which an instant lies; the last one may be short. */
  function WindowAt(s: Session, at: int, width: int): Window
    requires width > 0
  {
    var first := s.opens + (at - s.opens) / width * width;
    Window(first, if first + width < s.closes then first + width else s.closes)
  }

  predicate Fits(sessions: seq<Session>, b: Bar, width: int)
    requires width > 0
  {
    b.starts < b.ends
    && var s := Locate(sessions, b); s.Some? && b.ends <= WindowAt(s.value, b.starts, width).ends
  }

  function WindowOf(sessions: seq<Session>, b: Bar, width: int): Window
    requires width > 0 && Fits(sessions, b, width)
  {
    WindowAt(Locate(sessions, b).value, b.starts, width)
  }

  /** Ordered, without overlap, each inside one session and one window: otherwise the code raises. */
  predicate Valid(sessions: seq<Session>, bars: seq<Bar>, width: int)
    requires width > 0
  {
    && (forall i :: 0 <= i < |bars| ==> Fits(sessions, bars[i], width))
    && (forall i, j :: 0 <= i < j < |bars| ==> bars[i].ends <= bars[j].starts)
  }

  /** The bars cover an interval without a gap. */
  predicate Covers(bars: seq<Bar>, starts: int, ends: int) {
    if bars == [] then starts == ends
    else bars[0].starts == starts && Covers(bars[1..], bars[0].ends, ends)
  }

  function Highest(bars: seq<Bar>): real
    requires bars != []
  {
    if |bars| == 1 then bars[0].high
    else
      var rest := Highest(bars[1..]);
      if bars[0].high > rest then bars[0].high else rest
  }

  function Lowest(bars: seq<Bar>): real
    requires bars != []
  {
    if |bars| == 1 then bars[0].low
    else
      var rest := Lowest(bars[1..]);
      if bars[0].low < rest then bars[0].low else rest
  }

  function Volumes(bars: seq<Bar>): (r: seq<Decimals.Decimal>)
    ensures |r| == |bars|
    ensures forall i :: 0 <= i < |bars| ==> r[i] == bars[i].volume
  {
    if bars == [] then [] else [bars[0].volume] + Volumes(bars[1..])
  }

  /** The sum from zero and from left to right, in the ambient context of 28 digits. */
  function Volume(bars: seq<Bar>): Decimals.Decimal {
    DecimalContext.SumOf(Volumes(bars))
  }

  function Combined(bars: seq<Bar>, w: Window): Bar
    requires bars != []
  {
    Bar(w.starts, w.ends, bars[0].open, Highest(bars), Lowest(bars), bars[|bars| - 1].close, Volume(bars))
  }

  /** How many leading bars share the first one's window. */
  function RunLength(sessions: seq<Session>, bars: seq<Bar>, width: int): (n: nat)
    requires width > 0 && Valid(sessions, bars, width) && bars != []
    ensures 1 <= n <= |bars|
    ensures forall i :: 0 <= i < n ==> WindowOf(sessions, bars[i], width) == WindowOf(sessions, bars[0], width)
    ensures n < |bars| ==> WindowOf(sessions, bars[n], width) != WindowOf(sessions, bars[0], width)
  {
    if |bars| == 1 || WindowOf(sessions, bars[1], width) != WindowOf(sessions, bars[0], width) then 1
    else
      assert Valid(sessions, bars[1..], width);
      1 + RunLength(sessions, bars[1..], width)
  }

  /** One bar for every window its bars cover completely; windows with a gap are dropped. */
  function Aggregate(sessions: seq<Session>, bars: seq<Bar>, width: int): seq<Bar>
    requires width > 0 && Valid(sessions, bars, width)
    decreases |bars|
  {
    if bars == [] then []
    else
      var n := RunLength(sessions, bars, width);
      var w := WindowOf(sessions, bars[0], width);
      (if Covers(bars[..n], w.starts, w.ends) then [Combined(bars[..n], w)] else [])
      + Aggregate(sessions, bars[n..], width)
  }

  // Windows

  lemma DivisionBounds(x: int, w: int)
    requires w > 0
    ensures x / w * w <= x < x / w * w + w
  {
  }

  lemma ScaleStrict(a: int, b: int, w: int)
    requires w > 0
    ensures a < b <==> a * w < b * w
  {
    if a < b { assert (b - a) * w > 0; } else { assert (a - b) * w >= 0; }
  }

  lemma QuotientIs(x: int, w: int, n: int)
    requires w > 0 && n * w <= x < n * w + w
    ensures x / w == n
  {
    var m := x / w;
    DivisionBounds(x, w);
    ScaleStrict(m, n + 1, w);
    ScaleStrict(n, m + 1, w);
  }

  lemma WindowHolds(s: Session, at: int, w: int)
    requires w > 0 && s.opens <= at < s.closes
    ensures var p := WindowAt(s, at, w);
            s.opens <= p.starts <= at < p.ends <= s.closes && p.ends <= p.starts + w
            && (p.ends < s.closes ==> p.ends == p.starts + w)
  {
    DivisionBounds(at - s.opens, w);
    assert (at - s.opens) / w >= 0;
    assert (at - s.opens) / w * w >= 0;
  }

  /** An instant inside a window has that window. */
  lemma WindowIsStable(s: Session, x: int, y: int, w: int)
    requires w > 0 && s.opens <= x < s.closes
    requires WindowAt(s, x, w).starts <= y < WindowAt(s, x, w).ends
    ensures WindowAt(s, y, w) == WindowAt(s, x, w)
  {
    WindowHolds(s, x, w);
    QuotientIs(y - s.opens, w, (x - s.opens) / w);
  }

  /** Windows of a multiple width are unions of windows. */
  lemma WindowsNest(s: Session, x: int, w: int, k: int)
    requires w > 0 && k > 0 && s.opens <= x < s.closes
    ensures k * w > 0
    ensures var p, q := WindowAt(s, x, w), WindowAt(s, x, k * w);
            q.starts <= p.starts && p.ends <= q.ends && WindowAt(s, p.starts, k * w) == q
  {
    hide WindowAt;
    Positive(k, w);
    NestedQuotients(x - s.opens, w, k);
    WindowIs(s, x, w);
    WindowIs(s, x, k * w);
    WindowIs(s, s.opens + (x - s.opens) / w * w, k * w);
  }

  lemma WindowIs(s: Session, at: int, w: int)
    requires w > 0
    ensures var first := s.opens + (at - s.opens) / w * w;
            WindowAt(s, at, w) == Window(first, if first + w < s.closes then first + w else s.closes)
  {
  }

  /** Dividing by a width and then by a factor is dividing by the multiple. */
  lemma NestedQuotients(y: int, w: int, k: int)
    requires w > 0 && k > 0 && k * w > 0
    ensures var n, wide := y / w * w, k * w;
            n / wide == y / wide && y / wide * wide <= n && n + w <= y / wide * wide + wide
  {
    var n, m := y / w, y / w / k;
    DivisionBounds(y, w);
    DivisionBounds(n, k);
    Regroup(m, k, w);
    ScaleOrder(m * k, n, w);
    ScaleOrder(n + 1, m * k + k, w);
    PlusOne(n, w);
    QuotientIs(y, k * w, m);
    QuotientIs(n * w, k * w, m);
  }

  lemma PlusOne(n: int, w: int)
    ensures (n + 1) * w == n * w + w
  {
  }

  lemma Positive(k: int, w: int)
    requires k > 0 && w > 0
    ensures k * w > 0
  {
  }

  lemma Regroup(m: int, k: int, w: int)
    ensures m * (k * w) == (m * k) * w && (m * k + k) * w == (m * k) * w + k * w
  {
  }

  lemma ScaleOrder(a: int, b: int, w: int)
    requires w > 0 && a <= b
    ensures a * w <= b * w
  {
  }

  /** Different windows of one session do not overlap. */
  lemma WindowsApart(s: Session, x: int, y: int, w: int)
    requires w > 0 && s.opens <= x < y < s.closes && WindowAt(s, x, w) != WindowAt(s, y, w)
    ensures WindowAt(s, x, w).ends <= WindowAt(s, y, w).starts
    ensures WindowAt(s, x, w).ends == WindowAt(s, x, w).starts + w
  {
    WindowHolds(s, x, w);
    WindowHolds(s, y, w);
    if y < WindowAt(s, x, w).ends {
      WindowIsStable(s, x, y, w);
    }
    var n, m := (x - s.opens) / w, (y - s.opens) / w;
    if m <= n {
      ScaleOrder(m, n, w);
      DivisionBounds(x - s.opens, w);
      DivisionBounds(y - s.opens, w);
      ScaleOrder(m + 1, n + 1, w);
    } else {
      ScaleOrder(n + 1, m, w);
    }
  }

  lemma {:induction false} LocateIs(sessions: seq<Session>, b: Bar, s: Session)
    requires Calendar(sessions) && s in sessions && Holds(s, b)
    ensures Locate(sessions, b) == Some(s)
  {
    if sessions[0] != s {
      assert s in sessions[1..];
      assert Calendar(sessions[1..]);
      LocateIs(sessions[1..], b, s);
    }
  }

  // Covering

  function EndOf(bars: seq<Bar>, starts: int): int {
    if bars == [] then starts else bars[|bars| - 1].ends
  }

  lemma {:induction false} CoversSplit(a: seq<Bar>, b: seq<Bar>, starts: int, ends: int)
    ensures Covers(a + b, starts, ends) <==> Covers(a, starts, EndOf(a, starts)) && Covers(b, EndOf(a, starts), ends)
  {
    if a == [] {
      assert a + b == b;
    } else {
      assert (a + b)[1..] == a[1..] + b;
      CoversSplit(a[1..], b, a[0].ends, ends);
    }
  }

  lemma {:induction false} CoversEnds(bars: seq<Bar>, starts: int, ends: int)
    requires Covers(bars, starts, ends)
    ensures ends == EndOf(bars, starts)
  {
    if bars != [] {
      CoversEnds(bars[1..], bars[0].ends, ends);
    }
  }

  // Aggregates of aggregates

  predicate SameValues(a: seq<Bar>, b: seq<Bar>) {
    && a != [] && b != []
    && a[0].open == b[0].open && a[|a| - 1].close == b[|b| - 1].close
    && Highest(a) == Highest(b) && Lowest(a) == Lowest(b)
    && ExactVolume(a) == ExactVolume(b)
  }

  function ExactVolume(bars: seq<Bar>): Decimals.Decimal {
    DecimalSums.ExactOf(Volumes(bars))
  }

  /** No volume is negative, and all of them together have at most 28 digits. */
  predicate Summable(bars: seq<Bar>) {
    DecimalSums.NonNegative(Volumes(bars)) && DecimalContext.Fits(ExactVolume(bars))
  }

  lemma {:induction false} ExtremesSplit(a: seq<Bar>, b: seq<Bar>)
    requires a != [] && b != []
    ensures Highest(a + b) == if Highest(a) > Highest(b) then Highest(a) else Highest(b)
    ensures Lowest(a + b) == if Lowest(a) < Lowest(b) then Lowest(a) else Lowest(b)
  {
    assert (a + b)[1..] == a[1..] + b;
    if |a| > 1 {
      ExtremesSplit(a[1..], b);
    } else {
      assert a[1..] + b == b;
    }
  }

  lemma {:induction false} VolumeSplit(a: seq<Bar>, b: seq<Bar>)
    ensures ExactVolume(a + b) == DecimalContext.ExactSum(ExactVolume(a), ExactVolume(b))
    ensures Summable(a + b) ==> Summable(a) && Summable(b)
  {
    hide DecimalContext.ExactSum, DecimalContext.Fits, DecimalSums.ExactOf;
    assert Volumes(a + b) == Volumes(a) + Volumes(b);
    DecimalSums.ExactSplit(Volumes(a), Volumes(b));
    if Summable(a + b) { DecimalSums.PartsFit(Volumes(a), Volumes(b)); }
  }

  lemma VolumeIsExact(bars: seq<Bar>)
    requires Summable(bars)
    ensures Volume(bars) == ExactVolume(bars) && Volume(bars).coefficient >= 0
  {
    hide DecimalContext.Fits, DecimalSums.ExactOf, DecimalContext.SumOf;
    DecimalSums.SumIsExact(Volumes(bars));
    DecimalSums.ExactNonNegative(Volumes(bars));
  }

  /** A combined bar has the exact volume of its run. */
  lemma {:induction false} CombinedVolume(run: seq<Bar>, w: Window)
    requires run != [] && Summable(run)
    ensures ExactVolume([Combined(run, w)]) == ExactVolume(run) && Summable([Combined(run, w)])
  {
    hide DecimalContext.Fits, Volume, DecimalContext.ExactSum;
    VolumeIsExact(run);
    var one := Volumes([Combined(run, w)]);
    assert one == [Volume(run)] && one[..0] == [];
    assert DecimalSums.ExactOf(one[..0]) == Decimals.ZERO;
    DecimalSums.ExactUnit(Volume(run));
  }

  lemma {:induction false} SummableParts(a: seq<Bar>, b: seq<Bar>, c: seq<Bar>)
    requires Summable(c) && ExactVolume(a + b) == ExactVolume(c) && Summable(a) && Summable(b)
    ensures Summable(a + b)
  {
    hide DecimalContext.Fits, ExactVolume, DecimalSums.NonNegative;
    AllNonNegative(a, b);
  }

  lemma {:induction false} AllNonNegative(a: seq<Bar>, b: seq<Bar>)
    requires DecimalSums.NonNegative(Volumes(a)) && DecimalSums.NonNegative(Volumes(b))
    ensures DecimalSums.NonNegative(Volumes(a + b))
  {
    var all := Volumes(a + b);
    forall i | 0 <= i < |all| ensures all[i].coefficient >= 0 {
      assert all[i] == if i < |a| then Volumes(a)[i] else Volumes(b)[i - |a|];
    }
  }

  /** The combined bar of a run stands for the run. */
  lemma CombinedStands(run: seq<Bar>, w: Window, rest: seq<Bar>, combinedRest: seq<Bar>)
    requires run != [] && (rest == [] <==> combinedRest == []) && Summable(run + rest)
    requires rest != [] ==> SameValues(combinedRest, rest) && Summable(combinedRest)
    ensures SameValues([Combined(run, w)] + combinedRest, run + rest) && Summable([Combined(run, w)] + combinedRest)
  {
    hide Volume, ExactVolume, Summable, DecimalContext.ExactSum;
    var one := [Combined(run, w)];
    VolumeSplit(one, combinedRest);
    VolumeSplit(run, rest);
    CombinedVolume(run, w);
    if rest == [] {
      assert one + combinedRest == one && run + rest == run;
    } else {
      SummableParts(one, combinedRest, run + rest);
      ExtremesSplit(one, combinedRest);
      ExtremesSplit(run, rest);
    }
  }

  /** Bars of one session that share a window of the multiple width. */
  predicate Within(sessions: seq<Session>, s: Session, bars: seq<Bar>, q: Window, wide: int)
    requires wide > 0
  {
    && s in sessions
    && forall i :: 0 <= i < |bars| ==>
         Holds(s, bars[i]) && bars[i].starts < bars[i].ends && WindowAt(s, bars[i].starts, wide) == q
  }

  predicate Ordered(bars: seq<Bar>) {
    forall i, j :: 0 <= i < j < |bars| ==> bars[i].ends <= bars[j].starts
  }

  ghost predicate FromOn(bars: seq<Bar>, x: int) {
    forall i :: 0 <= i < |bars| ==> x <= bars[i].starts
  }

  lemma WindowWithin(sessions: seq<Session>, s: Session, b: Bar, w: int)
    requires Calendar(sessions) && w > 0 && s in sessions && Holds(s, b) && Fits(sessions, b, w)
    ensures WindowOf(sessions, b, w) == WindowAt(s, b.starts, w) && b.ends <= WindowAt(s, b.starts, w).ends
  {
    LocateIs(sessions, b, s);
  }

  /** Within one window of width k * w: the aggregates at width w cover an interval from a window's
      start to the wide window's end exactly when the bars do, and then stand for the same values. */
  lemma {:induction false} RunAggregates(sessions: seq<Session>, s: Session, bars: seq<Bar>, q: Window, x: int,
                                         w: int, k: int)
    requires Calendar(sessions) && w > 0 && k > 0 && k * w > 0
    requires Valid(sessions, bars, w) && Within(sessions, s, bars, q, k * w)
    requires s in sessions && (bars != [] ==> x <= WindowAt(s, bars[0].starts, w).starts)
    ensures var made := Aggregate(sessions, bars, w);
            && Within(sessions, s, made, q, k * w) && Ordered(made) && FromOn(made, x)
            && (Covers(made, x, q.ends) <==> Covers(bars, x, q.ends))
            && (Covers(bars, x, q.ends) ==> (bars == [] <==> made == []))
            && (Covers(bars, x, q.ends) && Summable(bars) && bars != [] ==> SameValues(made, bars) && Summable(made))
    decreases |bars|
  {
    hide Calendar, Locate, Valid, Within, FromOn, Ordered, SameValues, WindowAt, RunLength, Covers, Combined, Aggregate,
         Summable;
    AggregateUnfolds(sessions, bars, w);
    if bars == [] {
      NothingMade(sessions, s, q, x, k * w);
    } else {
      var n, p := RunLength(sessions, bars, w), WindowAt(s, bars[0].starts, w);
      RestFollows(sessions, s, bars, q, w, k * w, n);
      FirstWindow(sessions, s, bars, q, w, k);
      var rest := bars[n..];
      RunAggregates(sessions, s, rest, q, p.ends, w, k);
      var tail := Aggregate(sessions, rest, w);
      if Covers(bars[..n], p.starts, p.ends) {
        CoveredRun(sessions, s, bars, n, q, p, x, k * w, tail);
      } else {
        GapStays(bars, n, p, x, q.ends);
        GapInAggregates(tail, p, x, q.ends);
      }
    }
  }

  lemma {:induction false} AggregateUnfolds(sessions: seq<Session>, bars: seq<Bar>, w: int)
    requires w > 0 && Valid(sessions, bars, w)
    ensures bars == [] ==> Aggregate(sessions, bars, w) == []
    ensures bars != [] ==>
              var n, p := RunLength(sessions, bars, w), WindowOf(sessions, bars[0], w);
              var tail := Aggregate(sessions, bars[n..], w);
              Aggregate(sessions, bars, w)
              == if Covers(bars[..n], p.starts, p.ends) then [Combined(bars[..n], p)] + tail else tail
  {
    hide RunLength, Covers, Combined, Locate;
  }

  lemma NothingMade(sessions: seq<Session>, s: Session, q: Window, x: int, wide: int)
    requires wide > 0 && s in sessions
    ensures Within(sessions, s, [], q, wide) && Ordered([]) && FromOn([], x)
  {
  }

  lemma FirstWindow(sessions: seq<Session>, s: Session, bars: seq<Bar>, q: Window, w: int, k: int)
    requires Calendar(sessions) && w > 0 && k > 0 && k * w > 0 && bars != []
    requires Valid(sessions, bars, w) && Within(sessions, s, bars, q, k * w)
    ensures var p := WindowAt(s, bars[0].starts, w);
            && WindowOf(sessions, bars[0], w) == p
            && s.opens <= p.starts <= bars[0].starts && p.starts < p.ends && p.ends <= q.ends && p.ends <= s.closes
            && WindowAt(s, p.starts, k * w) == q
  {
    hide Calendar, Locate;
    WindowWithin(sessions, s, bars[0], w);
    WindowHolds(s, bars[0].starts, w);
    WindowsNest(s, bars[0].starts, w, k);
  }

  lemma {:induction false} GapInAggregates(tail: seq<Bar>, p: Window, x: int, z: int)
    requires FromOn(tail, p.ends) && x <= p.starts < p.ends <= z
    ensures !Covers(tail, x, z) && FromOn(tail, x)
  {
  }

  /** A covered run contributes its combined bar in front of what the rest contributes. */
  lemma {:induction false} CoveredRun(sessions: seq<Session>, s: Session, bars: seq<Bar>, n: nat, q: Window, p: Window,
                                      x: int, wide: int, tail: seq<Bar>)
    requires 0 < n <= |bars| && wide > 0 && s in sessions && Covers(bars[..n], p.starts, p.ends)
    requires x <= p.starts && s.opens <= p.starts < p.ends <= s.closes && WindowAt(s, p.starts, wide) == q
    requires Within(sessions, s, tail, q, wide) && Ordered(tail) && FromOn(tail, p.ends)
    requires Covers(tail, p.ends, q.ends) <==> Covers(bars[n..], p.ends, q.ends)
    requires Covers(bars[n..], p.ends, q.ends) ==>
               && (bars[n..] == [] <==> tail == [])
               && (bars[n..] != [] && Summable(bars[n..]) ==> SameValues(tail, bars[n..]) && Summable(tail))
    ensures var made := [Combined(bars[..n], p)] + tail;
            && Within(sessions, s, made, q, wide) && Ordered(made) && FromOn(made, x)
            && (Covers(made, x, q.ends) <==> Covers(bars, x, q.ends))
            && (Covers(bars, x, q.ends) && Summable(bars) ==> SameValues(made, bars) && Summable(made))
  {
    hide WindowAt, SameValues, Summable;
    var run, rest, one := bars[..n], bars[n..], Combined(bars[..n], p);
    var made := [one] + tail;
    assert bars == run + rest && made[1..] == tail;
    CoversSplit(run, rest, x, q.ends);
    CoversEnds(run, p.starts, p.ends);
    if Covers(rest, p.ends, q.ends) && Summable(bars) {
      VolumeSplit(run, rest);
      CombinedStands(run, p, rest, tail);
    }
  }

  /** After a run the bars belong to later windows. */
  lemma {:induction false} RestFollows(sessions: seq<Session>, s: Session, bars: seq<Bar>, q: Window, w: int, wide: int,
                                       n: nat)
    requires Calendar(sessions) && w > 0 && wide > 0 && Valid(sessions, bars, w) && bars != []
    requires Within(sessions, s, bars, q, wide) && n == RunLength(sessions, bars, w)
    ensures Valid(sessions, bars[n..], w) && Within(sessions, s, bars[n..], q, wide)
    ensures var p := WindowAt(s, bars[0].starts, w);
            && (n < |bars| ==> p.ends <= WindowAt(s, bars[n].starts, w).starts <= bars[n].starts)
            && bars[n - 1].ends <= p.ends
  {
    hide Calendar, Locate;
    WindowWithin(sessions, s, bars[0], w);
    WindowWithin(sessions, s, bars[n - 1], w);
    if n < |bars| {
      WindowWithin(sessions, s, bars[n], w);
      WindowsApart(s, bars[0].starts, bars[n].starts, w);
      WindowHolds(s, bars[n].starts, w);
    }
  }

  /** A gap in a window is a gap in every interval that starts no later than the window. */
  lemma {:induction false} GapStays(bars: seq<Bar>, n: nat, p: Window, x: int, z: int)
    requires 0 < n <= |bars| && !Covers(bars[..n], p.starts, p.ends)
    requires x <= p.starts <= bars[0].starts && p.starts < p.ends <= z && bars[n - 1].ends <= p.ends
    requires n < |bars| ==> p.ends <= bars[n].starts
    ensures !Covers(bars, x, z)
  {
    var run, rest := bars[..n], bars[n..];
    assert bars == run + rest;
    CoversSplit(run, rest, x, z);
  }

  // The whole range

  /** Sessions that contain a common instant are the same. */
  lemma OneSession(sessions: seq<Session>, s: Session, t: Session, at: int)
    requires Calendar(sessions) && s in sessions && t in sessions
    requires s.opens <= at < s.closes && t.opens <= at < t.closes
    ensures s == t
  {
    var i :| 0 <= i < |sessions| && sessions[i] == s;
    var j :| 0 <= j < |sessions| && sessions[j] == t;
  }

  lemma {:induction false} RunIsWithin(sessions: seq<Session>, bars: seq<Bar>, wide: int, n: nat)
    requires Calendar(sessions) && wide > 0 && Valid(sessions, bars, wide) && 0 < n <= |bars|
    requires forall i :: 0 <= i < n ==> WindowOf(sessions, bars[i], wide) == WindowOf(sessions, bars[0], wide)
    ensures Within(sessions, Locate(sessions, bars[0]).value, bars[..n], WindowOf(sessions, bars[0], wide), wide)
  {
    hide Calendar, Locate;
    var s, q := Locate(sessions, bars[0]).value, WindowOf(sessions, bars[0], wide);
    WindowHolds(s, bars[0].starts, wide);
    forall i | 0 <= i < n
      ensures Holds(s, bars[i]) && bars[i].starts < bars[i].ends && WindowAt(s, bars[i].starts, wide) == q
    {
      var t := Locate(sessions, bars[i]).value;
      WindowHolds(t, bars[i].starts, wide);
      OneSession(sessions, s, t, q.starts);
    }
  }

  /** A later bar's window is the same or lies after the earlier bar's window. */
  lemma WindowsInOrder(sessions: seq<Session>, a: Bar, b: Bar, w: int)
    requires Calendar(sessions) && w > 0 && Fits(sessions, a, w) && Fits(sessions, b, w) && a.ends <= b.starts
    ensures var p, q := WindowOf(sessions, a, w), WindowOf(sessions, b, w); p == q || p.ends <= q.starts
  {
    hide Locate;
    var s, t := Locate(sessions, a).value, Locate(sessions, b).value;
    WindowHolds(s, a.starts, w);
    WindowHolds(t, b.starts, w);
    if s == t {
      if WindowAt(s, a.starts, w) != WindowAt(s, b.starts, w) {
        WindowsApart(s, a.starts, b.starts, w);
      }
    } else {
      var i :| 0 <= i < |sessions| && sessions[i] == s;
      var j :| 0 <= j < |sessions| && sessions[j] == t;
      assert i < j;
    }
  }

  lemma {:induction false} AggregateFromOn(sessions: seq<Session>, bars: seq<Bar>, w: int, x: int)
    requires Calendar(sessions) && w > 0 && Valid(sessions, bars, w)
    requires bars != [] ==> x <= WindowOf(sessions, bars[0], w).starts
    ensures FromOn(Aggregate(sessions, bars, w), x)
    decreases |bars|
  {
    hide Calendar, Locate, Covers, Combined, WindowAt, Aggregate;
    AggregateUnfolds(sessions, bars, w);
    if bars != [] {
      var n, p := RunLength(sessions, bars, w), WindowOf(sessions, bars[0], w);
      if n < |bars| {
        WindowsInOrder(sessions, bars[0], bars[n], w);
        WindowPositive(sessions, bars[0], w);
      }
      AggregateFromOn(sessions, bars[n..], w, x);
      CombinedWindow(bars[..n], p);
    }
  }

  lemma WindowPositive(sessions: seq<Session>, b: Bar, w: int)
    requires w > 0 && Fits(sessions, b, w)
    ensures var p := WindowOf(sessions, b, w); p.starts <= b.starts < p.ends
  {
    hide Locate;
    WindowHolds(Locate(sessions, b).value, b.starts, w);
  }

  lemma CombinedWindow(bars: seq<Bar>, w: Window)
    requires bars != []
    ensures Combined(bars, w).starts == w.starts && Combined(bars, w).ends == w.ends
  {
  }

  lemma {:induction false} RunLengthIs(sessions: seq<Session>, bars: seq<Bar>, w: int, n: nat)
    requires w > 0 && Valid(sessions, bars, w) && 0 < n <= |bars|
    requires forall i :: 0 <= i < n ==> WindowOf(sessions, bars[i], w) == WindowOf(sessions, bars[0], w)
    requires n < |bars| ==> WindowOf(sessions, bars[n], w) != WindowOf(sessions, bars[0], w)
    ensures RunLength(sessions, bars, w) == n
  {
    hide Locate, WindowAt;
    var m := RunLength(sessions, bars, w);
    assert m < |bars| ==> WindowOf(sessions, bars[m], w) != WindowOf(sessions, bars[0], w);
  }

  lemma {:induction false} RunOfSum(sessions: seq<Session>, a: seq<Bar>, b: seq<Bar>, w: int)
    requires w > 0 && Valid(sessions, a + b, w) && Valid(sessions, a, w) && a != []
    requires b != [] ==> WindowOf(sessions, a[|a| - 1], w) != WindowOf(sessions, (a + b)[|a|], w)
    ensures var n := RunLength(sessions, a, w);
            && RunLength(sessions, a + b, w) == n
            && (a + b)[..n] == a[..n] && (a + b)[n..] == a[n..] + b
            && (a + b)[0] == a[0] && Valid(sessions, a[n..], w)
            && (n < |a| && b != [] ==> a[n..][|a[n..]| - 1] == a[|a| - 1])
  {
    hide Locate, WindowAt, WindowOf, Fits;
    var n, all := RunLength(sessions, a, w), a + b;
    forall i | 0 <= i < n ensures WindowOf(sessions, all[i], w) == WindowOf(sessions, all[0], w) {
      assert all[i] == a[i];
    }
    if n < |a| {
      assert all[n] == a[n];
    } else if b != [] {
      assert WindowOf(sessions, a[n - 1], w) == WindowOf(sessions, a[0], w);
    }
    RunLengthIs(sessions, all, w, n);
  }

  /** Bars that change windows at some point aggregate separately before and after it. */
  lemma {:induction false} AggregateSplits(sessions: seq<Session>, a: seq<Bar>, b: seq<Bar>, w: int)
    requires w > 0 && Valid(sessions, a + b, w) && Valid(sessions, a, w) && Valid(sessions, b, w)
    requires a != [] && b != [] ==> WindowOf(sessions, a[|a| - 1], w) != WindowOf(sessions, (a + b)[|a|], w)
    ensures Aggregate(sessions, a + b, w) == Aggregate(sessions, a, w) + Aggregate(sessions, b, w)
    decreases |a|
  {
    hide Covers, Combined, Aggregate, RunLength, Fits, WindowOf;
    AggregateUnfolds(sessions, a, w);
    if a == [] {
      assert a + b == b;
    } else {
      AggregateUnfolds(sessions, a + b, w);
      RunOfSum(sessions, a, b, w);
      var n, p := RunLength(sessions, a, w), WindowOf(sessions, a[0], w);
      var rest := a[n..];
      AggregatesOfRest(sessions, a, b, w, n);
      AggregateSplits(sessions, rest, b, w);
      PrefixAssociates(Covers(a[..n], p.starts, p.ends), Combined(a[..n], p), Aggregate(sessions, rest, w),
                       Aggregate(sessions, b, w));
    }
  }

  lemma PrefixAssociates(covered: bool, first: Bar, tail: seq<Bar>, more: seq<Bar>)
    ensures (if covered then [first] + (tail + more) else tail + more)
            == (if covered then [first] + tail else tail) + more
  {
    assert [first] + (tail + more) == ([first] + tail) + more;
  }

  lemma AggregatesOfRest(sessions: seq<Session>, a: seq<Bar>, b: seq<Bar>, w: int, n: nat)
    requires w > 0 && 0 < n <= |a| && Valid(sessions, a, w) && Valid(sessions, a + b, w)
    requires (a + b)[n..] == a[n..] + b
    requires b != [] ==> WindowOf(sessions, a[|a| - 1], w) != WindowOf(sessions, (a + b)[|a|], w)
    ensures Valid(sessions, a[n..] + b, w)
    ensures a[n..] != [] && b != [] ==>
              WindowOf(sessions, a[n..][|a[n..]| - 1], w) != WindowOf(sessions, (a[n..] + b)[|a[n..]|], w)
  {
    hide Fits, WindowOf;
    var all, rest := a + b, a[n..] + b;
    forall i | 0 <= i < |rest| ensures rest[i] == all[n + i] && Fits(sessions, rest[i], w) {
    }
    if b != [] {
      assert all[|a|] == b[0] && rest[|a[n..]|] == b[0];
    }
  }

  /** What fits the windows of one width fits the windows of its multiples. */
  lemma ValidWider(sessions: seq<Session>, bars: seq<Bar>, w: int, k: int)
    requires w > 0 && k > 0 && k * w > 0 && Valid(sessions, bars, w)
    ensures Valid(sessions, bars, k * w)
  {
    hide Locate;
    forall i | 0 <= i < |bars| ensures Fits(sessions, bars[i], k * w) {
      WindowsNest(Locate(sessions, bars[i]).value, bars[i].starts, w, k);
    }
  }

  lemma WithinFits(sessions: seq<Session>, s: Session, bars: seq<Bar>, q: Window, wide: int)
    requires Calendar(sessions) && wide > 0 && Within(sessions, s, bars, q, wide)
    requires forall i :: 0 <= i < |bars| ==> bars[i].ends <= q.ends
    ensures forall i :: 0 <= i < |bars| ==> Fits(sessions, bars[i], wide) && WindowOf(sessions, bars[i], wide) == q
  {
    hide Calendar, Locate;
    forall i | 0 <= i < |bars| ensures Fits(sessions, bars[i], wide) && WindowOf(sessions, bars[i], wide) == q {
      LocateIs(sessions, bars[i], s);
    }
  }

  lemma {:induction false} AggregateStaysIn(sessions: seq<Session>, s: Session, bars: seq<Bar>, q: Window, w: int,
                                            k: int)
    requires Calendar(sessions) && w > 0 && k > 0 && k * w > 0 && bars != []
    requires Valid(sessions, bars, w) && Within(sessions, s, bars, q, k * w)
    ensures var made := Aggregate(sessions, bars, w);
            && Within(sessions, s, made, q, k * w) && Ordered(made)
            && (Covers(made, q.starts, q.ends) <==> Covers(bars, q.starts, q.ends))
            && (Covers(bars, q.starts, q.ends) ==> made != [])
            && (Covers(bars, q.starts, q.ends) && Summable(bars) ==> SameValues(made, bars) && Summable(made))
            && forall i :: 0 <= i < |made| ==> made[i].ends <= q.ends
  {
    hide Calendar, Locate, Valid, Aggregate, Covers, SameValues, Summable;
    FirstWindow(sessions, s, bars, q, w, k);
    WindowsNest(s, bars[0].starts, w, k);
    RunAggregates(sessions, s, bars, q, q.starts, w, k);
    AggregateEnds(sessions, s, bars, q, w, k);
  }

  lemma {:induction false} AggregateEnds(sessions: seq<Session>, s: Session, bars: seq<Bar>, q: Window, w: int, k: int)
    requires Calendar(sessions) && w > 0 && k > 0 && k * w > 0
    requires Valid(sessions, bars, w) && Within(sessions, s, bars, q, k * w)
    ensures forall i :: 0 <= i < |Aggregate(sessions, bars, w)| ==> Aggregate(sessions, bars, w)[i].ends <= q.ends
    decreases |bars|
  {
    hide Calendar, Locate, Valid, Within, Aggregate, Covers, WindowAt, WindowOf, RunLength;
    AggregateUnfolds(sessions, bars, w);
    if bars != [] {
      FirstWindow(sessions, s, bars, q, w, k);
      var n := RunLength(sessions, bars, w);
      RestFollows(sessions, s, bars, q, w, k * w, n);
      AggregateEnds(sessions, s, bars[n..], q, w, k);
    }
  }

  /** The aggregates of the first wide window, followed by those of later windows, aggregate to one
      bar where the bars cover it, followed by what the later ones aggregate to. */
  lemma {:induction false} FrontAggregates(sessions: seq<Session>, s: Session, front: seq<Bar>, made: seq<Bar>,
                                           later: seq<Bar>, q: Window, wide: int)
    requires Calendar(sessions) && wide > 0 && Within(sessions, s, made, q, wide) && Ordered(made)
    requires forall i :: 0 <= i < |made| ==> made[i].ends <= q.ends
    requires Valid(sessions, later, wide) && FromOn(later, q.ends)
    requires front != [] && (Covers(made, q.starts, q.ends) <==> Covers(front, q.starts, q.ends))
    requires Covers(front, q.starts, q.ends) ==> made != []
    ensures Valid(sessions, made + later, wide)
    ensures Aggregate(sessions, made + later, wide)
            == (if Covers(front, q.starts, q.ends) then [Combined(made, q)] else []) + Aggregate(sessions, later, wide)
  {
    hide Calendar, Locate, Aggregate, Covers, WindowAt, Combined, RunLength, Fits, WindowOf;
    hide Valid, Within, Ordered, FromOn;
    WithinFits(sessions, s, made, q, wide);
    var all := made + later;
    JoinedIsValid(sessions, made, later, q, wide);
    if made == [] {
      assert all == later;
    } else {
      RunEnds(sessions, made, later, q, wide);
      RunLengthIs(sessions, all, wide, |made|);
      AggregateUnfolds(sessions, all, wide);
      assert all[..|made|] == made && all[|made|..] == later;
    }
  }

  lemma JoinedIsValid(sessions: seq<Session>, made: seq<Bar>, later: seq<Bar>, q: Window, wide: int)
    requires wide > 0 && Ordered(made) && Valid(sessions, later, wide) && FromOn(later, q.ends)
    requires forall i :: 0 <= i < |made| ==> Fits(sessions, made[i], wide) && made[i].ends <= q.ends
    ensures Valid(sessions, made + later, wide) && Valid(sessions, made, wide)
  {
    hide Fits;
    var all := made + later;
    forall i | 0 <= i < |all| ensures Fits(sessions, all[i], wide) {
      assert all[i] == if i < |made| then made[i] else later[i - |made|];
    }
    forall i, j | 0 <= i < j < |all| ensures all[i].ends <= all[j].starts {
      assert all[i] == if i < |made| then made[i] else later[i - |made|];
      assert all[j] == if j < |made| then made[j] else later[j - |made|];
    }
  }

  /** The bars of the first window are its run. */
  lemma {:induction false} RunEnds(sessions: seq<Session>, made: seq<Bar>, later: seq<Bar>, q: Window, wide: int)
    requires wide > 0 && made != [] && Valid(sessions, made + later, wide) && Valid(sessions, later, wide)
    requires FromOn(later, q.ends)
    requires forall i :: 0 <= i < |made| ==> Fits(sessions, made[i], wide) && WindowOf(sessions, made[i], wide) == q
    ensures var all := made + later;
            && (forall i :: 0 <= i < |made| ==> WindowOf(sessions, all[i], wide) == WindowOf(sessions, all[0], wide))
            && (later != [] ==> WindowOf(sessions, all[|made|], wide) != WindowOf(sessions, all[0], wide))
            && WindowOf(sessions, all[0], wide) == q
  {
    hide Fits, WindowOf;
    var all := made + later;
    assert all[0] == made[0];
    if later != [] {
      assert all[|made|] == later[0];
      WindowPositive(sessions, later[0], wide);
    }
    forall i | 0 <= i < |made| ensures WindowOf(sessions, all[i], wide) == WindowOf(sessions, all[0], wide) {
      assert all[i] == made[i];
    }
  }

  /** The volumes of every wide window that is covered add up without rounding. */
  predicate VolumesFit(sessions: seq<Session>, bars: seq<Bar>, wide: int)
    requires wide > 0 && Valid(sessions, bars, wide)
  {
    forall i, j :: 0 <= i < j <= |bars| && Fills(sessions, bars, i, j, wide) ==> Summable(bars[i..j])
  }

  predicate Fills(sessions: seq<Session>, bars: seq<Bar>, i: nat, j: nat, wide: int)
    requires wide > 0 && Valid(sessions, bars, wide) && i < j <= |bars|
  {
    var q := WindowOf(sessions, bars[i], wide);
    WindowOf(sessions, bars[j - 1], wide) == q && Covers(bars[i..j], q.starts, q.ends)
  }

  lemma CombinedAgain(made: seq<Bar>, front: seq<Bar>, q: Window)
    requires front != [] && SameValues(made, front) && Summable(made) && Summable(front)
    ensures Combined(made, q) == Combined(front, q)
  {
    hide Summable, ExactVolume, Volume;
    VolumeIsExact(made);
    VolumeIsExact(front);
  }

  lemma {:induction false} VolumesFitParts(sessions: seq<Session>, bars: seq<Bar>, wide: int, n: nat)
    requires wide > 0 && Valid(sessions, bars, wide) && VolumesFit(sessions, bars, wide)
    requires bars != [] && n == RunLength(sessions, bars, wide)
    ensures Valid(sessions, bars[n..], wide) && VolumesFit(sessions, bars[n..], wide)
    ensures var q := WindowOf(sessions, bars[0], wide);
            Covers(bars[..n], q.starts, q.ends) ==> Summable(bars[..n])
  {
    hide Summable, Covers, WindowOf, Fits;
    var rest := bars[n..];
    assert bars[0..n] == bars[..n];
    assert WindowOf(sessions, bars[n - 1], wide) == WindowOf(sessions, bars[0], wide);
    if Covers(bars[..n], WindowOf(sessions, bars[0], wide).starts, WindowOf(sessions, bars[0], wide).ends) {
      assert Fills(sessions, bars, 0, n, wide);
    }
    forall i, j | 0 <= i < j <= |rest| && Fills(sessions, rest, i, j, wide) ensures Summable(rest[i..j]) {
      assert rest[i..j] == bars[n + i..n + j];
      assert Fills(sessions, bars, n + i, n + j, wide);
    }
  }

  /** Aggregating in two steps is aggregating in one: whenever the bars can be aggregated at width
      w, the result aggregated at k * w is what the bars aggregated at k * w give, short final
      windows and dropped gaps included, provided that volumes add up without rounding. */
  lemma {:induction false} TwoStepsAreOne(sessions: seq<Session>, bars: seq<Bar>, w: int, k: int)
    requires Calendar(sessions) && w > 0 && k > 0 && k * w > 0 && Valid(sessions, bars, w)
    ensures Valid(sessions, bars, k * w) && Valid(sessions, Aggregate(sessions, bars, w), k * w)
    ensures VolumesFit(sessions, bars, k * w) ==>
              Aggregate(sessions, Aggregate(sessions, bars, w), k * w) == Aggregate(sessions, bars, k * w)
    decreases |bars|
  {
    hide Calendar, Locate, Valid, Within, Aggregate, Covers, Combined, SameValues, WindowOf, RunLength, FromOn, Ordered,
         VolumesFit;
    ValidWider(sessions, bars, w, k);
    AggregateUnfolds(sessions, bars, w);
    if bars == [] {
      AggregateUnfolds(sessions, bars, k * w);
    } else {
      FrontAndRest(sessions, bars, w, k);
      var n := RunLength(sessions, bars, k * w);
      TwoStepsAreOne(sessions, bars[n..], w, k);
    }
  }

  lemma {:induction false} FrontAndRest(sessions: seq<Session>, bars: seq<Bar>, w: int, k: int)
    requires Calendar(sessions) && w > 0 && k > 0 && k * w > 0 && bars != []
    requires Valid(sessions, bars, w) && Valid(sessions, bars, k * w)
    ensures var n := RunLength(sessions, bars, k * w);
            && Valid(sessions, bars[n..], w) && Valid(sessions, bars[n..], k * w)
            && var later, all := Aggregate(sessions, bars[n..], w), Aggregate(sessions, bars, w);
               && (Valid(sessions, later, k * w) ==> Valid(sessions, all, k * w))
               && (VolumesFit(sessions, bars, k * w) ==> VolumesFit(sessions, bars[n..], k * w))
               && (Valid(sessions, later, k * w) && VolumesFit(sessions, bars, k * w)
                   && Aggregate(sessions, later, k * w) == Aggregate(sessions, bars[n..], k * w) ==>
                     Aggregate(sessions, all, k * w) == Aggregate(sessions, bars, k * w))
  {
    hide Calendar, Locate, Aggregate, Covers, Combined, SameValues, WindowAt, Within, FromOn, Ordered, VolumesFit,
         Summable;
    var n, q := RunLength(sessions, bars, k * w), WindowOf(sessions, bars[0], k * w);
    var s := Locate(sessions, bars[0]).value;
    var front, rest := bars[..n], bars[n..];
    assert bars == front + rest && front[0] == bars[0];
    RunIsWithin(sessions, bars, k * w, n);
    AggregateStaysIn(sessions, s, front, q, w, k);
    SplitsAtWide(sessions, bars, n, w, k);
    AggregateUnfolds(sessions, bars, k * w);
    var made, later := Aggregate(sessions, front, w), Aggregate(sessions, rest, w);
    if Valid(sessions, later, k * w) {
      FrontAggregates(sessions, s, front, made, later, q, k * w);
    }
    if VolumesFit(sessions, bars, k * w) {
      VolumesFitParts(sessions, bars, k * w, n);
      if Covers(front, q.starts, q.ends) {
        CombinedAgain(made, front, q);
      }
    }
  }

  /** The narrow aggregates of a wide run and of the rest are separate, and the latter start after
      the wide window. */
  lemma {:induction false} SplitsAtWide(sessions: seq<Session>, bars: seq<Bar>, n: nat, w: int, k: int)
    requires Calendar(sessions) && w > 0 && k > 0 && k * w > 0 && bars != []
    requires Valid(sessions, bars, w) && Valid(sessions, bars, k * w) && n == RunLength(sessions, bars, k * w)
    ensures Valid(sessions, bars[..n], w) && Valid(sessions, bars[n..], w)
    ensures Aggregate(sessions, bars, w) == Aggregate(sessions, bars[..n], w) + Aggregate(sessions, bars[n..], w)
    ensures FromOn(Aggregate(sessions, bars[n..], w), WindowOf(sessions, bars[0], k * w).ends)
  {
    hide Calendar, Locate, Aggregate, Covers, Combined, WindowAt, FromOn, Fits, WindowOf;
    var front, rest := bars[..n], bars[n..];
    assert bars == front + rest;
    var q := WindowOf(sessions, bars[0], k * w);
    if n < |bars| {
      assert WindowOf(sessions, bars[n - 1], k * w) == q;
      NarrowFollowsWide(sessions, bars[n - 1], bars[n], w, k);
    }
    AggregateSplits(sessions, front, rest, w);
    AggregateFromOn(sessions, rest, w, q.ends);
  }

  lemma NarrowFollowsWide(sessions: seq<Session>, a: Bar, b: Bar, w: int, k: int)
    requires Calendar(sessions) && w > 0 && k > 0 && k * w > 0 && a.ends <= b.starts
    requires Fits(sessions, a, w) && Fits(sessions, b, w) && Fits(sessions, a, k * w) && Fits(sessions, b, k * w)
    requires WindowOf(sessions, a, k * w) != WindowOf(sessions, b, k * w)
    ensures WindowOf(sessions, a, w) != WindowOf(sessions, b, w)
    ensures WindowOf(sessions, a, k * w).ends <= WindowOf(sessions, b, w).starts
  {
    hide Locate;
    var s, t := Locate(sessions, a).value, Locate(sessions, b).value;
    WindowsInOrder(sessions, a, b, k * w);
    WindowsNest(s, a.starts, w, k);
    WindowsNest(t, b.starts, w, k);
    WindowHolds(s, a.starts, w);
  }

  // The same without volumes

  function Blank(bars: seq<Bar>): (r: seq<Bar>)
    ensures |r| == |bars|
    ensures forall i :: 0 <= i < |bars| ==> r[i] == bars[i].(volume := Decimals.ZERO)
  {
    if bars == [] then [] else [bars[0].(volume := Decimals.ZERO)] + Blank(bars[1..])
  }

  /** Volumes play no part in where the bars go. */
  lemma {:induction false} BlankFits(sessions: seq<Session>, b: Bar, w: int)
    requires w > 0
    ensures var c := b.(volume := Decimals.ZERO);
            && (Fits(sessions, c, w) <==> Fits(sessions, b, w))
            && (Fits(sessions, b, w) ==> WindowOf(sessions, c, w) == WindowOf(sessions, b, w))
  {
    hide WindowAt;
    BlankLocates(sessions, b);
  }

  lemma {:induction false} BlankLocates(sessions: seq<Session>, b: Bar)
    ensures Locate(sessions, b.(volume := Decimals.ZERO)) == Locate(sessions, b)
  {
    if sessions != [] { BlankLocates(sessions[1..], b); }
  }

  lemma {:induction false} BlankCovers(bars: seq<Bar>, starts: int, ends: int)
    ensures Covers(Blank(bars), starts, ends) <==> Covers(bars, starts, ends)
  {
    if bars != [] {
      BlankCovers(bars[1..], bars[0].ends, ends);
      assert Blank(bars)[1..] == Blank(bars[1..]);
    }
  }

  lemma {:induction false} BlankIsValid(sessions: seq<Session>, bars: seq<Bar>, w: int)
    requires w > 0
    ensures Valid(sessions, Blank(bars), w) <==> Valid(sessions, bars, w)
  {
    hide Fits;
    forall i | 0 <= i < |bars| ensures Fits(sessions, Blank(bars)[i], w) <==> Fits(sessions, bars[i], w) {
      BlankFits(sessions, bars[i], w);
    }
    if Valid(sessions, Blank(bars), w) {
      forall i, j | 0 <= i < j < |bars| ensures bars[i].ends <= bars[j].starts {
        assert Blank(bars)[i].ends <= Blank(bars)[j].starts;
      }
      forall i | 0 <= i < |bars| ensures Fits(sessions, bars[i], w) {
        assert Fits(sessions, Blank(bars)[i], w);
      }
    }
  }

  lemma {:induction false} BlankRuns(sessions: seq<Session>, bars: seq<Bar>, w: int)
    requires w > 0 && Valid(sessions, bars, w) && Valid(sessions, Blank(bars), w) && bars != []
    ensures RunLength(sessions, Blank(bars), w) == RunLength(sessions, bars, w)
    ensures WindowOf(sessions, Blank(bars)[0], w) == WindowOf(sessions, bars[0], w)
  {
    hide Fits, WindowOf, RunLength;
    forall i | 0 <= i < |bars| ensures WindowOf(sessions, Blank(bars)[i], w) == WindowOf(sessions, bars[i], w) {
      BlankFits(sessions, bars[i], w);
    }
    RunLengthIs(sessions, Blank(bars), w, RunLength(sessions, bars, w));
  }

  lemma {:induction false} BlankExtremes(bars: seq<Bar>)
    requires bars != []
    ensures Highest(Blank(bars)) == Highest(bars) && Lowest(Blank(bars)) == Lowest(bars)
  {
    if |bars| > 1 {
      BlankExtremes(bars[1..]);
      assert Blank(bars)[1..] == Blank(bars[1..]);
    }
  }

  lemma {:induction false} NoVolume(bars: seq<Bar>)
    ensures ExactVolume(Blank(bars)) == Decimals.ZERO && Summable(Blank(bars))
  {
    hide DecimalContext.ExactSum;
    if bars != [] {
      var n, blank := |bars| - 1, Volumes(Blank(bars));
      NoVolume(bars[..n]);
      assert blank[..n] == Volumes(Blank(bars[..n]));
      DecimalSums.ExactUnit(Decimals.ZERO);
    }
  }

  lemma {:induction false} BlankCombines(bars: seq<Bar>, w: Window)
    requires bars != []
    ensures Blank([Combined(bars, w)]) == [Combined(Blank(bars), w)]
  {
    hide Summable, Volume, ExactVolume;
    BlankExtremes(bars);
    NoVolume(bars);
    VolumeIsExact(Blank(bars));
  }

  lemma {:induction false} BlankAggregates(sessions: seq<Session>, bars: seq<Bar>, w: int)
    requires w > 0 && Valid(sessions, bars, w)
    ensures Valid(sessions, Blank(bars), w)
    ensures Aggregate(sessions, Blank(bars), w) == Blank(Aggregate(sessions, bars, w))
    decreases |bars|
  {
    hide Fits, WindowOf, RunLength, Covers, Combined, Aggregate, Blank;
    BlankIsValid(sessions, bars, w);
    AggregateUnfolds(sessions, bars, w);
    AggregateUnfolds(sessions, Blank(bars), w);
    if bars != [] {
      var n, p := RunLength(sessions, bars, w), WindowOf(sessions, bars[0], w);
      BlankRuns(sessions, bars, w);
      assert Blank(bars)[..n] == Blank(bars[..n]) && Blank(bars)[n..] == Blank(bars[n..]);
      BlankCovers(bars[..n], p.starts, p.ends);
      BlankCombines(bars[..n], p);
      BlankAggregates(sessions, bars[n..], w);
      var tail := Aggregate(sessions, bars[n..], w);
      assert Blank([Combined(bars[..n], p)] + tail) == Blank([Combined(bars[..n], p)]) + Blank(tail);
    }
  }

  /** Whatever becomes of the volumes, both ways give the same bars otherwise. */
  lemma {:induction false} TwoStepsAlign(sessions: seq<Session>, bars: seq<Bar>, w: int, k: int)
    requires Calendar(sessions) && w > 0 && k > 0 && k * w > 0 && Valid(sessions, bars, w)
    ensures Valid(sessions, bars, k * w) && Valid(sessions, Aggregate(sessions, bars, w), k * w)
    ensures Blank(Aggregate(sessions, Aggregate(sessions, bars, w), k * w)) == Blank(Aggregate(sessions, bars, k * w))
  {
    hide Valid, Aggregate, Calendar, Blank, VolumesFit;
    TwoStepsAreOne(sessions, bars, w, k);
    BlankAggregates(sessions, bars, w);
    BlankAggregates(sessions, Aggregate(sessions, bars, w), k * w);
    BlankAggregates(sessions, bars, k * w);
    BlankVolumesFit(sessions, bars, k * w);
    TwoStepsAreOne(sessions, Blank(bars), w, k);
  }

  lemma {:induction false} BlankVolumesFit(sessions: seq<Session>, bars: seq<Bar>, wide: int)
    requires wide > 0 && Valid(sessions, Blank(bars), wide)
    ensures VolumesFit(sessions, Blank(bars), wide)
  {
    hide Valid, Summable, Fills;
    forall i, j | 0 <= i < j <= |bars| ensures Summable(Blank(bars)[i..j]) {
      assert Blank(bars)[i..j] == Blank(bars[i..j]);
      NoVolume(bars[i..j]);
    }
  }

  // Exactly when both ways agree

  /** The same bar, its volume compared as a number. */
  predicate SameBar(a: Bar, b: Bar) {
    a.(volume := b.volume) == b && Decimals.Value(a.volume) == Decimals.Value(b.volume)
  }

  predicate Alike(a: seq<Bar>, b: seq<Bar>) {
    |a| == |b| && forall i :: 0 <= i < |a| ==> SameBar(a[i], b[i])
  }

  /** The volumes of the bars add up to the same number as those of their narrow aggregates. */
  predicate SumsAgree(sessions: seq<Session>, run: seq<Bar>, w: int)
    requires w > 0
  {
    Valid(sessions, run, w)
    && Decimals.Value(Volume(run)) == Decimals.Value(Volume(Aggregate(sessions, run, w)))
  }

  /** They do in every wide window that the bars cover. */
  predicate AllSumsAgree(sessions: seq<Session>, bars: seq<Bar>, w: int, wide: int)
    requires w > 0 && wide > 0 && Valid(sessions, bars, wide)
  {
    forall i, j :: 0 <= i < j <= |bars| && Fills(sessions, bars, i, j, wide) ==> SumsAgree(sessions, bars[i..j], w)
  }

  /** Bars that fill a window are the whole run of that window. */
  lemma {:induction false} FillsAreRuns(sessions: seq<Session>, bars: seq<Bar>, wide: int, n: nat, i: nat, j: nat)
    requires Calendar(sessions) && wide > 0 && Valid(sessions, bars, wide) && bars != []
    requires n == RunLength(sessions, bars, wide) && i < j <= |bars| && Fills(sessions, bars, i, j, wide)
    ensures i >= n || (i == 0 && j == n)
  {
    hide Calendar, Locate, WindowAt, RunLength, Fits, WindowOf, Covers;
    var p, q := WindowOf(sessions, bars[0], wide), WindowOf(sessions, bars[i], wide);
    if i < n {
      assert q == p;
      FillEnds(bars[i..j], q);
      assert bars[i..j][0] == bars[i] && bars[i..j][j - i - 1] == bars[j - 1];
      WindowPositive(sessions, bars[0], wide);
      if j > n {
        WindowsInOrder(sessions, bars[0], bars[n], wide);
        FitsIsForward(sessions, bars[n], wide);
        WindowPositive(sessions, bars[n], wide);
        WindowPositive(sessions, bars[j - 1], wide);
      }
      if j < n {
        assert WindowOf(sessions, bars[j], wide) == p;
        WindowPositive(sessions, bars[j], wide);
      }
      FitsIsForward(sessions, bars[0], wide);
    }
  }

  lemma {:induction false} FillEnds(run: seq<Bar>, q: Window)
    requires run != [] && Covers(run, q.starts, q.ends)
    ensures run[0].starts == q.starts && run[|run| - 1].ends == q.ends
  {
    CoversEnds(run, q.starts, q.ends);
  }

  lemma {:induction false} SumsSplit(sessions: seq<Session>, bars: seq<Bar>, w: int, wide: int, n: nat)
    requires Calendar(sessions) && w > 0 && wide > 0 && Valid(sessions, bars, wide) && bars != []
    requires n == RunLength(sessions, bars, wide)
    ensures Valid(sessions, bars[n..], wide)
    ensures var q := WindowOf(sessions, bars[0], wide);
            AllSumsAgree(sessions, bars, w, wide) <==>
              && (Covers(bars[..n], q.starts, q.ends) ==> SumsAgree(sessions, bars[..n], w))
              && AllSumsAgree(sessions, bars[n..], w, wide)
  {
    hide Calendar, SumsAgree, Covers, WindowOf, Fits, RunLength;
    var q, rest := WindowOf(sessions, bars[0], wide), bars[n..];
    assert bars[0..n] == bars[..n] && WindowOf(sessions, bars[n - 1], wide) == q;
    assert Fills(sessions, bars, 0, n, wide) <==> Covers(bars[..n], q.starts, q.ends);
    if AllSumsAgree(sessions, bars, w, wide) {
      forall i, j | 0 <= i < j <= |rest| && Fills(sessions, rest, i, j, wide)
        ensures SumsAgree(sessions, rest[i..j], w)
      {
        assert rest[i..j] == bars[n + i..n + j];
        assert Fills(sessions, bars, n + i, n + j, wide);
      }
    }
    if (Covers(bars[..n], q.starts, q.ends) ==> SumsAgree(sessions, bars[..n], w))
       && AllSumsAgree(sessions, rest, w, wide) {
      forall i, j | 0 <= i < j <= |bars| && Fills(sessions, bars, i, j, wide)
        ensures SumsAgree(sessions, bars[i..j], w)
      {
        FillsAreRuns(sessions, bars, wide, n, i, j);
        if i >= n {
          assert rest[i - n..j - n] == bars[i..j];
          assert Fills(sessions, rest, i - n, j - n, wide);
        }
      }
    }
  }

  /** Both ways give the same bars exactly if in every wide window that the bars cover, the volumes
      added one by one and the volumes added by narrow windows make the same number. */
  lemma {:induction false} SumsDecide(sessions: seq<Session>, bars: seq<Bar>, w: int, k: int)
    requires Calendar(sessions) && w > 0 && k > 0 && k * w > 0 && Valid(sessions, bars, w)
    ensures Valid(sessions, bars, k * w) && Valid(sessions, Aggregate(sessions, bars, w), k * w)
    ensures Alike(Aggregate(sessions, Aggregate(sessions, bars, w), k * w), Aggregate(sessions, bars, k * w))
            <==> AllSumsAgree(sessions, bars, w, k * w)
    decreases |bars|
  {
    hide Calendar, Locate, Aggregate, RunLength, AllSumsAgree, SumsAgree, Alike, Covers, WindowOf, Combined, Fits;
    TwoStepsAlign(sessions, bars, w, k);
    AggregateUnfolds(sessions, bars, w);
    AggregateUnfolds(sessions, bars, k * w);
    if bars == [] {
      NothingAgrees(sessions, w, k);
    } else {
      var n, q := RunLength(sessions, bars, k * w), WindowOf(sessions, bars[0], k * w);
      FrontSums(sessions, bars, w, k);
      SumsSplit(sessions, bars, w, k * w, n);
      SumsDecide(sessions, bars[n..], w, k);
    }
  }

  lemma {:induction false} NothingAgrees(sessions: seq<Session>, w: int, k: int)
    requires w > 0 && k * w > 0
    ensures Alike(Aggregate(sessions, Aggregate(sessions, [], w), k * w), Aggregate(sessions, [], k * w))
    ensures AllSumsAgree(sessions, [], w, k * w)
  {
  }

  lemma {:induction false} FrontSums(sessions: seq<Session>, bars: seq<Bar>, w: int, k: int)
    requires Calendar(sessions) && w > 0 && k > 0 && k * w > 0 && bars != []
    requires Valid(sessions, bars, w) && Valid(sessions, bars, k * w)
    requires Valid(sessions, Aggregate(sessions, bars, w), k * w)
    requires Blank(Aggregate(sessions, Aggregate(sessions, bars, w), k * w)) == Blank(Aggregate(sessions, bars, k * w))
    ensures var n, q := RunLength(sessions, bars, k * w), WindowOf(sessions, bars[0], k * w);
            && Valid(sessions, bars[n..], w) && Valid(sessions, bars[n..], k * w)
            && var later, rest := Aggregate(sessions, bars[n..], w), Aggregate(sessions, bars[n..], k * w);
               Valid(sessions, later, k * w) ==>
                 (Alike(Aggregate(sessions, Aggregate(sessions, bars, w), k * w), Aggregate(sessions, bars, k * w))
                  <==> && (Covers(bars[..n], q.starts, q.ends) ==> SumsAgree(sessions, bars[..n], w))
                       && Alike(Aggregate(sessions, later, k * w), rest))
  {
    hide Calendar, Locate, Aggregate, Covers, SameValues, WindowAt, Within, FromOn, Ordered, Summable, Volume, Alike,
         Highest, Lowest, Blank;
    var n, q := RunLength(sessions, bars, k * w), WindowOf(sessions, bars[0], k * w);
    var s := Locate(sessions, bars[0]).value;
    var front, rest := bars[..n], bars[n..];
    assert bars == front + rest && front[0] == bars[0];
    RunIsWithin(sessions, bars, k * w, n);
    AggregateStaysIn(sessions, s, front, q, w, k);
    SplitsAtWide(sessions, bars, n, w, k);
    AggregateUnfolds(sessions, bars, k * w);
    var made, later := Aggregate(sessions, front, w), Aggregate(sessions, rest, w);
    if Valid(sessions, later, k * w) {
      FrontAggregates(sessions, s, front, made, later, q, k * w);
      if Covers(front, q.starts, q.ends) {
        FirstAlike(Combined(made, q), Aggregate(sessions, later, k * w), Combined(front, q),
                   Aggregate(sessions, rest, k * w));
      } else {
        assert [] + Aggregate(sessions, later, k * w) == Aggregate(sessions, later, k * w);
        assert [] + Aggregate(sessions, rest, k * w) == Aggregate(sessions, rest, k * w);
      }
    }
  }

  lemma {:induction false} FirstAlike(a: Bar, x: seq<Bar>, b: Bar, y: seq<Bar>)
    requires Blank([a] + x) == Blank([b] + y)
    ensures Alike([a] + x, [b] + y) <==> Decimals.Value(a.volume) == Decimals.Value(b.volume) && Alike(x, y)
  {
    hide Decimals.Value;
    assert Blank([a] + x)[0] == a.(volume := Decimals.ZERO) && Blank([b] + y)[0] == b.(volume := Decimals.ZERO);
    assert ([a] + x)[0] == a && ([b] + y)[0] == b;
    assert forall i :: 0 <= i < |x| ==> ([a] + x)[i + 1] == x[i];
    assert forall i :: 0 <= i < |y| ==> ([b] + y)[i + 1] == y[i];
    if Alike([a] + x, [b] + y) {
      assert SameBar(([a] + x)[0], ([b] + y)[0]);
      forall i | 0 <= i < |x| ensures SameBar(x[i], y[i]) {
        assert SameBar(([a] + x)[i + 1], ([b] + y)[i + 1]);
      }
    }
    if Decimals.Value(a.volume) == Decimals.Value(b.volume) && Alike(x, y) {
      forall i | 0 <= i <= |x| ensures SameBar(([a] + x)[i], ([b] + y)[i]) {
        assert i > 0 ==> SameBar(x[i - 1], y[i - 1]);
      }
    }
  }

  // Where volumes are rounded

  const ONE_SESSION := [Session(0, 4)]

  function Traded(starts: int, ends: int, volume: Decimals.Decimal): Bar {
    Bar(starts, ends, 1.0, 1.0, 1.0, 1.0, volume)
  }

  const LARGE_AND_SMALL := [
    Traded(0, 2, Decimals.Decimal(1, 28)), Traded(2, 3, Decimals.Decimal(5, 0)), Traded(3, 4, Decimals.Decimal(5, 0))]

  /** Bars that share one window and cover it aggregate to one bar. */
  lemma {:induction false} OneWindow(sessions: seq<Session>, bars: seq<Bar>, w: int, p: Window)
    requires w > 0 && Valid(sessions, bars, w) && bars != [] && Covers(bars, p.starts, p.ends)
    requires forall i :: 0 <= i < |bars| ==> WindowOf(sessions, bars[i], w) == p
    ensures Aggregate(sessions, bars, w) == [Combined(bars, p)]
  {
    hide Fits, WindowOf, RunLength, Covers, Combined, Aggregate;
    RunLengthIs(sessions, bars, w, |bars|);
    AggregateUnfolds(sessions, bars, w);
    assert bars[..|bars|] == bars && bars[|bars|..] == [];
    AggregateUnfolds(sessions, bars[|bars|..], w);
  }

  /** In one step the small volumes are added to the large one and lost; in two steps they are added
      to each other first. */
  lemma {:induction false} RoundingSplits()
    ensures Calendar(ONE_SESSION) && Valid(ONE_SESSION, LARGE_AND_SMALL, 2) && Valid(ONE_SESSION, LARGE_AND_SMALL, 4)
    ensures var narrow := Aggregate(ONE_SESSION, LARGE_AND_SMALL, 2);
            && Valid(ONE_SESSION, narrow, 4)
            && Aggregate(ONE_SESSION, LARGE_AND_SMALL, 4) == [Traded(0, 4, Decimals.Decimal(Decimals.Ten(27), 1))]
            && Aggregate(ONE_SESSION, narrow, 4) == [Traded(0, 4, Decimals.Decimal(Decimals.Ten(27) + 1, 1))]
  {
    hide Aggregate, Valid, Combined, WindowOf, Covers, Volume, Calendar;
    WideStep();
    NarrowStep();
    var narrow := [Traded(0, 2, Decimals.Decimal(Decimals.Ten(27), 1)), Traded(2, 4, Decimals.Decimal(10, 0))];
    StandsIn(narrow, 4);
    ThreeCover(narrow);
    OneWindow(ONE_SESSION, narrow, 4, Window(0, 4));
    SumsOfTraded();
    Combines(narrow, Window(0, 4), Decimals.Decimal(Decimals.Ten(27) + 1, 1));
  }

  /** Bars of the session whose windows are the multiples of the width. */
  lemma {:induction false} StandsIn(bars: seq<Bar>, w: int)
    requires w == 2 || w == 4
    requires forall i :: 0 <= i < |bars| ==>
               0 <= bars[i].starts < bars[i].ends <= 4 && bars[i].ends <= bars[i].starts / w * w + w
    requires forall i, j :: 0 <= i < j < |bars| ==> bars[i].ends <= bars[j].starts
    ensures Calendar(ONE_SESSION) && Valid(ONE_SESSION, bars, w)
    ensures forall i :: 0 <= i < |bars| ==>
              WindowOf(ONE_SESSION, bars[i], w) == Window(bars[i].starts / w * w, bars[i].starts / w * w + w)
  {
    forall i | 0 <= i < |bars|
      ensures Fits(ONE_SESSION, bars[i], w)
      ensures WindowOf(ONE_SESSION, bars[i], w) == Window(bars[i].starts / w * w, bars[i].starts / w * w + w)
    {
      assert Locate(ONE_SESSION, bars[i]) == Some(Session(0, 4));
    }
  }

  lemma {:induction false} ThreeCover(bars: seq<Bar>)
    ensures |bars| == 1 && bars[0].starts < bars[0].ends ==> Covers(bars, bars[0].starts, bars[0].ends)
    ensures |bars| == 2 && bars[0].ends == bars[1].starts ==> Covers(bars, bars[0].starts, bars[1].ends)
    ensures |bars| == 3 && bars[0].ends == bars[1].starts && bars[1].ends == bars[2].starts ==>
              Covers(bars, bars[0].starts, bars[2].ends)
  {
    if 0 < |bars| <= 3 {
      var tail := bars[1..];
      assert tail == [] || tail[0] == bars[1];
      if tail != [] {
        var last := tail[1..];
        assert last == [] || (last[0] == bars[2] && last[1..] == []);
        assert last != [] && tail[0].ends == last[0].starts ==> Covers(last, tail[0].ends, last[0].ends);
      }
    }
  }

  lemma {:induction false} SumsOfTraded()
    ensures var large, ten := Decimals.Decimal(Decimals.Ten(27), 1), Decimals.Decimal(10, 0);
            && Volume(LARGE_AND_SMALL) == large
            && Volume(LARGE_AND_SMALL[..1]) == large && Volume(LARGE_AND_SMALL[1..]) == ten
            && Volume([Traded(0, 2, large), Traded(2, 4, ten)]) == Decimals.Decimal(Decimals.Ten(27) + 1, 1)
  {
    hide Decimals.Ten, DecimalContext.Rounded, DecimalContext.ExactSum;
    var large, ten := Decimals.Decimal(Decimals.Ten(27), 1), Decimals.Decimal(10, 0);
    DecimalSums.FivesAreLost();
    DecimalSums.TwoFives();
    assert Volumes(LARGE_AND_SMALL)
           == [Decimals.Decimal(1, 28), Decimals.Decimal(5, 0), Decimals.Decimal(5, 0)];
    assert Volumes(LARGE_AND_SMALL[..1]) == [Decimals.Decimal(1, 28)];
    assert Volumes(LARGE_AND_SMALL[1..]) == [Decimals.Decimal(5, 0), Decimals.Decimal(5, 0)];
    assert Volumes([Traded(0, 2, large), Traded(2, 4, ten)]) == [large, ten];
  }

  /** Bars whose prices are all the same combine to one with that price. */
  lemma {:induction false} Combines(bars: seq<Bar>, w: Window, volume: Decimals.Decimal)
    requires bars != [] && Volume(bars) == volume
    requires forall i :: 0 <= i < |bars| ==> bars[i] == Traded(bars[i].starts, bars[i].ends, bars[i].volume)
    ensures Combined(bars, w) == Traded(w.starts, w.ends, volume)
  {
    hide Volume;
    Flat(bars);
  }

  lemma {:induction false} Flat(bars: seq<Bar>)
    requires bars != [] && forall i :: 0 <= i < |bars| ==> bars[i].high == 1.0 && bars[i].low == 1.0
    ensures Highest(bars) == 1.0 && Lowest(bars) == 1.0
  {
    if |bars| > 1 { Flat(bars[1..]); }
  }

  lemma {:induction false} WideStep()
    ensures Calendar(ONE_SESSION) && Valid(ONE_SESSION, LARGE_AND_SMALL, 4)
    ensures Aggregate(ONE_SESSION, LARGE_AND_SMALL, 4) == [Traded(0, 4, Decimals.Decimal(Decimals.Ten(27), 1))]
  {
    hide Aggregate, Valid, Combined, WindowOf, Covers, Volume;
    StandsIn(LARGE_AND_SMALL, 4);
    ThreeCover(LARGE_AND_SMALL);
    OneWindow(ONE_SESSION, LARGE_AND_SMALL, 4, Window(0, 4));
    SumsOfTraded();
    Combines(LARGE_AND_SMALL, Window(0, 4), Decimals.Decimal(Decimals.Ten(27), 1));
  }

  lemma {:induction false} NarrowStep()
    ensures Valid(ONE_SESSION, LARGE_AND_SMALL, 2)
    ensures Aggregate(ONE_SESSION, LARGE_AND_SMALL, 2)
            == [Traded(0, 2, Decimals.Decimal(Decimals.Ten(27), 1)), Traded(2, 4, Decimals.Decimal(10, 0))]
  {
    hide Aggregate, Valid, Combined, WindowOf, Covers, Volume;
    var first, last := LARGE_AND_SMALL[..1], LARGE_AND_SMALL[1..];
    assert LARGE_AND_SMALL == first + last;
    StandsIn(LARGE_AND_SMALL, 2);
    StandsIn(first, 2);
    StandsIn(last, 2);
    AggregateSplits(ONE_SESSION, first, last, 2);
    ThreeCover(first);
    ThreeCover(last);
    OneWindow(ONE_SESSION, first, 2, Window(0, 2));
    OneWindow(ONE_SESSION, last, 2, Window(2, 4));
    SumsOfTraded();
    Combines(first, Window(0, 2), Decimals.Decimal(Decimals.Ten(27), 1));
    Combines(last, Window(2, 4), Decimals.Decimal(10, 0));
  }

  // The loops

  method CoversContinuously(bars: seq<Bar>, starts: int, ends: int) returns (covers: bool)
    ensures covers <==> Covers(bars, starts, ends)
  {
    var expected := starts;
    assert bars[0..] == bars;
    for i := 0 to |bars|
      invariant Covers(bars, starts, ends) <==> Covers(bars[i..], expected, ends)
    {
      assert bars[i..][1..] == bars[i + 1..];
      if bars[i].starts != expected {
        return false;
      }
      expected := bars[i].ends;
    }
    covers := expected == ends;
  }

  method ValidateBars(sessions: seq<Session>, bars: seq<Bar>, width: int) returns (ok: bool)
    requires width > 0
    ensures ok <==> Valid(sessions, bars, width)
  {
    hide Fits;
    for i := 0 to |bars|
      invariant forall j :: 0 <= j < i ==> Fits(sessions, bars[j], width)
      invariant forall j, k :: 0 <= j < k < i ==> bars[j].ends <= bars[k].starts
    {
      if !Fits(sessions, bars[i], width) || (i > 0 && bars[i].starts < bars[i - 1].ends) {
        return false;
      }
      FitsIsForward(sessions, bars[i], width);
      if i > 0 {
        FitsIsForward(sessions, bars[i - 1], width);
      }
    }
    ok := true;
  }

  lemma FitsIsForward(sessions: seq<Session>, b: Bar, width: int)
    requires width > 0 && Fits(sessions, b, width)
    ensures b.starts < b.ends
  {
  }

  /** None where the code raises: a width that is not positive, or bars that cannot be grouped. */
  method AggregateBars(sessions: seq<Session>, bars: seq<Bar>, width: int) returns (r: Option<seq<Bar>>)
    ensures r == if width > 0 && Valid(sessions, bars, width) then Some(Aggregate(sessions, bars, width)) else None
  {
    hide Covers, Combined, Fits, WindowOf, Aggregate, RunLength;
    if width <= 0 {
      return None;
    }
    var ok := ValidateBars(sessions, bars, width);
    if !ok {
      return None;
    }
    var aggregated, i := [], 0;
    assert bars[0..] == bars;
    while i < |bars|
      invariant 0 <= i <= |bars| && Valid(sessions, bars[i..], width)
      invariant Aggregate(sessions, bars, width) == aggregated + Aggregate(sessions, bars[i..], width)
    {
      var rest := bars[i..];
      AggregateUnfolds(sessions, rest, width);
      var j := 1;
      while j < |rest| && WindowOf(sessions, rest[j], width) == WindowOf(sessions, rest[0], width)
        invariant 1 <= j <= |rest|
        invariant forall m :: 0 <= m < j ==> WindowOf(sessions, rest[m], width) == WindowOf(sessions, rest[0], width)
      {
        j := j + 1;
      }
      RunLengthIs(sessions, rest, width, j);
      var window := WindowOf(sessions, rest[0], width);
      var covers := CoversContinuously(rest[..j], window.starts, window.ends);
      ghost var before := aggregated;
      if covers {
        aggregated := aggregated + [Combined(rest[..j], window)];
      }
      assert rest[j..] == bars[i + j..];
      i := i + j;
    }
    AggregateUnfolds(sessions, bars[i..], width);
    assert aggregated + [] == aggregated;
    r := Some(aggregated);
  }

  // Coverage of a requested range

  datatype Gap = Leading | Interior | Trailing

  datatype CoverageGap = CoverageGap(session: Session, kind: Gap, covered: int)

  function InSession(sessions: seq<Session>, bars: seq<Bar>, s: Session): seq<Bar> {
    if bars == [] then []
    else (if Locate(sessions, bars[0]) == Some(s) then [bars[0]] else []) + InSession(sessions, bars[1..], s)
  }

  function Later(a: int, b: int): int {
    if a >= b then a else b
  }

  function Earlier(a: int, b: int): int {
    if a <= b then a else b
  }

  predicate Overlaps(s: Session, from: int, to: int) {
    Later(s.opens, from) < Earlier(s.closes, to)
  }

  predicate Covered(sessions: seq<Session>, bars: seq<Bar>, s: Session, from: int, to: int) {
    Covers(InSession(sessions, bars, s), Later(s.opens, from), Earlier(s.closes, to))
  }

  /** The point up to which the bars cover the interval, when they do not cover all of it: the next
      bar does not continue there or goes beyond the end. */
  predicate StopsAt(bars: seq<Bar>, starts: int, ends: int, covered: int, n: nat) {
    && n <= |bars| && Covers(bars[..n], starts, covered)
    && if n == |bars| then covered != ends else bars[n].starts != covered || bars[n].ends > ends
  }

  /** The gap at that point: leading or interior if a later bar follows it, else trailing. */
  ghost predicate FirstGap(bars: seq<Bar>, starts: int, ends: int, kind: Gap, covered: int) {
    exists n: nat ::
      && StopsAt(bars, starts, ends, covered, n)
      && kind == if n < |bars| && bars[n].starts != covered then (if covered == starts then Leading else Interior)
                 else Trailing
  }

  lemma {:induction false} BeyondIsNoCover(bars: seq<Bar>, starts: int, ends: int)
    requires starts > ends && forall i :: 0 <= i < |bars| ==> bars[i].starts < bars[i].ends
    ensures !Covers(bars, starts, ends)
  {
    if bars != [] && bars[0].starts == starts {
      BeyondIsNoCover(bars[1..], bars[0].ends, ends);
    }
  }

  lemma {:induction false} StoppedIsNoCover(bars: seq<Bar>, starts: int, ends: int, covered: int, n: nat)
    requires StopsAt(bars, starts, ends, covered, n) && forall i :: 0 <= i < |bars| ==> bars[i].starts < bars[i].ends
    ensures !Covers(bars, starts, ends)
  {
    assert bars == bars[..n] + bars[n..];
    CoversSplit(bars[..n], bars[n..], starts, ends);
    CoversEnds(bars[..n], starts, covered);
    if n < |bars| && bars[n].ends > ends {
      BeyondIsNoCover(bars[n..][1..], bars[n].ends, ends);
    }
  }

  method SessionGap(bars: seq<Bar>, starts: int, ends: int) returns (gap: Option<(Gap, int)>)
    requires forall i :: 0 <= i < |bars| ==> bars[i].starts < bars[i].ends
    ensures gap.None? <==> Covers(bars, starts, ends)
    ensures gap.Some? ==> FirstGap(bars, starts, ends, gap.value.0, gap.value.1)
  {
    var expected := starts;
    assert bars[..0] == [];
    for i := 0 to |bars|
      invariant Covers(bars[..i], starts, expected)
    {
      if bars[i].starts != expected {
        assert StopsAt(bars, starts, ends, expected, i);
        StoppedIsNoCover(bars, starts, ends, expected, i);
        return Some((if expected == starts then Leading else Interior, expected));
      }
      if bars[i].ends > ends {
        assert StopsAt(bars, starts, ends, expected, i);
        StoppedIsNoCover(bars, starts, ends, expected, i);
        return Some((Trailing, expected));
      }
      CoversEnds(bars[..i], starts, expected);
      assert bars[..i + 1] == bars[..i] + [bars[i]];
      CoversSplit(bars[..i], [bars[i]], starts, bars[i].ends);
      expected := bars[i].ends;
    }
    assert bars[..|bars|] == bars;
    if expected != ends {
      assert StopsAt(bars, starts, ends, expected, |bars|);
      StoppedIsNoCover(bars, starts, ends, expected, |bars|);
      return Some((Trailing, expected));
    }
    gap := None;
  }

  lemma {:induction false} InSessionOn(sessions: seq<Session>, bars: seq<Bar>, s: Session, found: seq<Bar>)
    requires bars != []
    ensures found + InSession(sessions, bars, s)
            == (if Locate(sessions, bars[0]) == Some(s) then found + [bars[0]] else found)
               + InSession(sessions, bars[1..], s)
  {
    hide Locate;
  }

  method SessionBars(sessions: seq<Session>, bars: seq<Bar>, s: Session) returns (found: seq<Bar>)
    ensures found == InSession(sessions, bars, s)
  {
    hide Locate;
    found := [];
    assert bars[0..] == bars;
    for i := 0 to |bars|
      invariant InSession(sessions, bars, s) == found + InSession(sessions, bars[i..], s)
    {
      assert bars[i..][1..] == bars[i + 1..];
      InSessionOn(sessions, bars[i..], s, found);
      if Locate(sessions, bars[i]) == Some(s) {
        found := found + [bars[i]];
      }
    }
    assert found + [] == found;
  }

  lemma {:induction false} InSessionForward(sessions: seq<Session>, bars: seq<Bar>, s: Session)
    requires forall i :: 0 <= i < |bars| ==> bars[i].starts < bars[i].ends
    ensures forall i :: 0 <= i < |InSession(sessions, bars, s)| ==>
              InSession(sessions, bars, s)[i].starts < InSession(sessions, bars, s)[i].ends
  {
    if bars != [] {
      InSessionForward(sessions, bars[1..], s);
    }
  }

  /** Each bar lies in one session, and the bars are ordered without overlap: otherwise the code
      raises. */
  predicate InCalendar(sessions: seq<Session>, bars: seq<Bar>) {
    && (forall i :: 0 <= i < |bars| ==> Locate(sessions, bars[i]).Some?)
    && Ordered(bars)
  }

  method ValidateForCalendar(sessions: seq<Session>, bars: seq<Bar>) returns (ok: bool)
    requires forall i :: 0 <= i < |bars| ==> bars[i].starts < bars[i].ends
    ensures ok <==> InCalendar(sessions, bars)
  {
    for i := 0 to |bars|
      invariant InCalendar(sessions, bars[..i])
    {
      if Locate(sessions, bars[i]).None? || (i > 0 && bars[i].starts < bars[i - 1].ends) {
        return false;
      }
      assert forall j :: 0 <= j < i ==> bars[..i][j] == bars[j] && bars[j].ends <= bars[i].starts;
    }
    assert bars[..|bars|] == bars;
    ok := true;
  }

  datatype Coverage = Raised | Complete | Uncovered(gap: CoverageGap)

  /** The range is complete exactly when the bars cover every session's part of it; a reported gap is
      in the first session that they do not cover, at the point up to which they cover it. */
  method RequestedRangeGap(sessions: seq<Session>, bars: seq<Bar>, from: int, to: int) returns (r: Coverage)
    requires forall i :: 0 <= i < |bars| ==> bars[i].starts < bars[i].ends
    ensures r.Raised? <==> from >= to || !InCalendar(sessions, bars)
    ensures r.Complete? <==>
              && from < to && InCalendar(sessions, bars)
              && forall i :: 0 <= i < |sessions| && Overlaps(sessions[i], from, to) ==>
                               Covered(sessions, bars, sessions[i], from, to)
    ensures r.Uncovered? ==>
              exists i ::
                && 0 <= i < |sessions| && sessions[i] == r.gap.session && Overlaps(sessions[i], from, to)
                && !Covered(sessions, bars, sessions[i], from, to)
                && FirstGap(InSession(sessions, bars, sessions[i]), Later(sessions[i].opens, from),
                            Earlier(sessions[i].closes, to), r.gap.kind, r.gap.covered)
                && forall j :: 0 <= j < i && Overlaps(sessions[j], from, to) ==>
                                 Covered(sessions, bars, sessions[j], from, to)
  {
    hide InSession, Covers, FirstGap;
    var ok := ValidateForCalendar(sessions, bars);
    if !ok || from >= to {
      return Raised;
    }
    for i := 0 to |sessions|
      invariant forall j :: 0 <= j < i && Overlaps(sessions[j], from, to) ==>
                              Covered(sessions, bars, sessions[j], from, to)
    {
      var s := sessions[i];
      if Overlaps(s, from, to) {
        var found := SessionBars(sessions, bars, s);
        InSessionForward(sessions, bars, s);
        var here := SessionGap(found, Later(s.opens, from), Earlier(s.closes, to));
        if here.Some? {
          assert !Covered(sessions, bars, sessions[i], from, to);
          return Uncovered(CoverageGap(s, here.value.0, here.value.1));
        }
      }
    }
    r := Complete;
  }
}
