/** What aggregated bars stand for and what a covered range is, told by the instants and the bars that
    lie in an interval. */
module BarMeaning {
  import Decimals
  import DecimalSums
  import opened StateMachine
  import opened Bars

  predicate Forward(bars: seq<Bar>) {
    forall i :: 0 <= i < |bars| ==> bars[i].starts < bars[i].ends
  }

  predicate Inside(bars: seq<Bar>, starts: int, ends: int) {
    forall i :: 0 <= i < |bars| ==> starts <= bars[i].starts && bars[i].ends <= ends
  }

  /** Some bar is observed at the instant. */
  predicate At(bars: seq<Bar>, t: int) {
    exists i :: 0 <= i < |bars| && bars[i].starts <= t < bars[i].ends
  }

  /** Bars cover an interval exactly if none of them leaves it and every instant of it is in one. */
  lemma {:induction false} CoversIsEveryInstant(bars: seq<Bar>, starts: int, ends: int)
    requires Forward(bars) && Ordered(bars) && starts <= ends
    ensures Covers(bars, starts, ends) <==>
              Inside(bars, starts, ends) && forall t :: starts <= t < ends ==> At(bars, t)
    decreases |bars|
  {
    if bars == [] {
      assert starts < ends ==> !At(bars, starts);
    } else {
      var b, rest := bars[0], bars[1..];
      if Covers(bars, starts, ends) {
        CoveredIsInside(bars, starts, ends);
        CoversIsEveryInstant(rest, b.ends, ends);
        forall t | starts <= t < ends ensures At(bars, t) { LaterAt(bars, t); }
      }
      if Inside(bars, starts, ends) && forall t :: starts <= t < ends ==> At(bars, t) {
        assert At(bars, starts);
        assert b.starts == starts;
        forall i | 0 <= i < |rest| ensures b.ends <= rest[i].starts && rest[i].ends <= ends {
          assert rest[i] == bars[i + 1];
        }
        forall t | b.ends <= t < ends ensures At(rest, t) {
          assert At(bars, t);
          LaterAt(bars, t);
        }
        CoversIsEveryInstant(rest, b.ends, ends);
      }
    }
  }

  lemma LaterAt(bars: seq<Bar>, t: int)
    requires bars != []
    ensures At(bars, t) <==> bars[0].starts <= t < bars[0].ends || At(bars[1..], t)
  {
    if At(bars[1..], t) {
      var i :| 0 <= i < |bars[1..]| && bars[1..][i].starts <= t < bars[1..][i].ends;
      assert bars[i + 1] == bars[1..][i];
    }
    if At(bars, t) {
      var i :| 0 <= i < |bars| && bars[i].starts <= t < bars[i].ends;
      assert i > 0 ==> bars[1..][i - 1] == bars[i];
    }
  }

  lemma {:induction false} CoveredIsInside(bars: seq<Bar>, starts: int, ends: int)
    requires Forward(bars) && Covers(bars, starts, ends)
    ensures starts <= ends && Inside(bars, starts, ends)
    decreases |bars|
  {
    if bars != [] {
      CoveredIsInside(bars[1..], bars[0].ends, ends);
      forall i | 0 <= i < |bars| ensures starts <= bars[i].starts && bars[i].ends <= ends {
        if i > 0 { assert bars[i] == bars[1..][i - 1]; }
      }
    }
  }

  // Aggregates

  /** An aggregation window: so many widths after the opening of a session, cut at its close. */
  ghost predicate IsWindow(sessions: seq<Session>, width: int, starts: int, ends: int) {
    exists i, m: nat :: 0 <= i < |sessions| && WindowOfSession(sessions[i], width, m, starts, ends)
  }

  predicate WindowOfSession(s: Session, width: int, m: nat, starts: int, ends: int) {
    && starts == s.opens + m * width && starts < s.closes
    && (starts + width <= s.closes ==> ends == starts + width)
    && (starts + width > s.closes ==> ends == s.closes)
  }

  /** A bar stands for a run of bars: it opens as the first and closes as the last of them, reaches as high
      and as low as any, and has the volumes added in order, each step rounded to 28 digits. */
  ghost predicate StandsFor(o: Bar, run: seq<Bar>) {
    && run != [] && o.open == run[0].open && o.close == run[|run| - 1].close
    && (forall i :: 0 <= i < |run| ==> o.low <= run[i].low && run[i].high <= o.high)
    && (exists i :: 0 <= i < |run| && run[i].high == o.high)
    && (exists i :: 0 <= i < |run| && run[i].low == o.low)
    && DecimalSums.AddsUp(Volumes(run), o.volume)
  }

  /** A bar is made from the bars between two places: they cover its window, and it stands for them. */
  ghost predicate MadeFrom(sessions: seq<Session>, bars: seq<Bar>, width: int, o: Bar, i: int, j: int) {
    && 0 <= i < j <= |bars| && IsWindow(sessions, width, o.starts, o.ends)
    && Covers(bars[i..j], o.starts, o.ends) && StandsFor(o, bars[i..j])
  }

  ghost predicate Made(sessions: seq<Session>, bars: seq<Bar>, width: int, o: Bar) {
    exists i, j :: MadeFrom(sessions, bars, width, o, i, j)
  }

  predicate Spans(out: seq<Bar>, starts: int, ends: int) {
    exists k :: 0 <= k < |out| && out[k].starts == starts && out[k].ends == ends
  }

  lemma {:induction false} ExtremesAre(run: seq<Bar>)
    requires run != []
    ensures forall i :: 0 <= i < |run| ==> Lowest(run) <= run[i].low && run[i].high <= Highest(run)
    ensures exists i :: 0 <= i < |run| && run[i].high == Highest(run)
    ensures exists i :: 0 <= i < |run| && run[i].low == Lowest(run)
    decreases |run|
  {
    if |run| == 1 {
      assert run[0].high == Highest(run) && run[0].low == Lowest(run);
    } else {
      var rest := run[1..];
      ExtremesAre(rest);
      var h :| 0 <= h < |rest| && rest[h].high == Highest(rest);
      var l :| 0 <= l < |rest| && rest[l].low == Lowest(rest);
      assert rest[h] == run[h + 1] && rest[l] == run[l + 1];
      assert run[0].high == Highest(run) || run[h + 1].high == Highest(run);
      assert run[0].low == Lowest(run) || run[l + 1].low == Lowest(run);
      forall i | 0 <= i < |run| ensures Lowest(run) <= run[i].low && run[i].high <= Highest(run) {
        if i > 0 { assert run[i] == rest[i - 1]; }
      }
    }
  }

  lemma CombinedStandsFor(run: seq<Bar>, w: Window)
    requires run != []
    ensures StandsFor(Combined(run, w), run)
  {
    hide Highest, Lowest, DecimalSums.AddsUp;
    ExtremesAre(run);
    DecimalSums.SumsAccumulate(Volumes(run));
  }

  lemma WindowIsOne(sessions: seq<Session>, b: Bar, width: int)
    requires width > 0 && Fits(sessions, b, width)
    ensures var w := WindowOf(sessions, b, width); IsWindow(sessions, width, w.starts, w.ends)
    ensures var w := WindowOf(sessions, b, width); w.starts <= b.starts && b.ends <= w.ends
  {
    var s := Locate(sessions, b).value;
    WindowHolds(s, b.starts, width);
    DivisionBounds(b.starts - s.opens, width);
    var m := (b.starts - s.opens) / width;
    var i :| 0 <= i < |sessions| && sessions[i] == s;
    var w := WindowOf(sessions, b, width);
    assert WindowOfSession(sessions[i], width, m, w.starts, w.ends);
  }

  /** Every aggregated bar is made from the bars that cover its window. */
  lemma {:induction false} AggregatesAreMade(sessions: seq<Session>, bars: seq<Bar>, width: int, k: nat)
    requires width > 0 && Valid(sessions, bars, width) && k < |Aggregate(sessions, bars, width)|
    ensures Made(sessions, bars, width, Aggregate(sessions, bars, width)[k])
    decreases |bars|
  {
    hide Locate, WindowOf, Aggregate, Covers, StandsFor, IsWindow, Combined;
    AggregateUnfolds(sessions, bars, width);
    var n, w := RunLength(sessions, bars, width), WindowOf(sessions, bars[0], width);
    var out, tail := Aggregate(sessions, bars, width), Aggregate(sessions, bars[n..], width);
    if Covers(bars[..n], w.starts, w.ends) && k == 0 {
      assert bars[0..n] == bars[..n];
      WindowIsOne(sessions, bars[0], width);
      CombinedStandsFor(bars[..n], w);
      CombinedSpans(bars[..n], w);
      assert MadeFrom(sessions, bars, width, out[k], 0, n);
    } else {
      var l := if Covers(bars[..n], w.starts, w.ends) then k - 1 else k;
      assert out[k] == tail[l];
      AggregatesAreMade(sessions, bars[n..], width, l);
      var i, j :| MadeFrom(sessions, bars[n..], width, tail[l], i, j);
      assert bars[n..][i..j] == bars[n + i..n + j];
      assert MadeFrom(sessions, bars, width, out[k], n + i, n + j);
    }
  }

  lemma CombinedSpans(run: seq<Bar>, w: Window)
    requires run != []
    ensures Combined(run, w).starts == w.starts && Combined(run, w).ends == w.ends
  {
  }

  lemma {:induction false} WindowIsStart(sessions: seq<Session>, b: Bar, width: int, starts: int, ends: int)
    requires Calendar(sessions) && width > 0 && Fits(sessions, b, width)
    requires IsWindow(sessions, width, starts, ends) && starts <= b.starts && b.ends <= ends
    ensures WindowOf(sessions, b, width) == Window(starts, ends)
  {
    hide Locate;
    var i, m: nat :| 0 <= i < |sessions| && WindowOfSession(sessions[i], width, m, starts, ends);
    var s, t := sessions[i], Locate(sessions, b).value;
    NoLess(m, width);
    OneSession(sessions, s, t, b.starts);
    QuotientIs(starts - s.opens, width, m);
    WindowIs(s, starts, width);
    WindowIsStable(s, starts, b.starts, width);
  }

  lemma NoLess(m: nat, width: int)
    requires width > 0
    ensures m * width >= 0
  {
  }

  lemma {:induction false} CoveredWindowFills(sessions: seq<Session>, bars: seq<Bar>, width: int, starts: int,
                                              ends: int, i: nat, j: nat)
    requires Calendar(sessions) && width > 0 && Valid(sessions, bars, width) && i < j <= |bars|
    requires IsWindow(sessions, width, starts, ends) && Covers(bars[i..j], starts, ends)
    ensures Fills(sessions, bars, i, j, width) && WindowOf(sessions, bars[i], width) == Window(starts, ends)
  {
    hide Calendar, IsWindow, WindowOf, Locate;
    var run := bars[i..j];
    forall k | 0 <= k < |run| ensures run[k].starts < run[k].ends {
      assert run[k] == bars[i + k];
      FitsIsForward(sessions, bars[i + k], width);
    }
    CoveredIsInside(run, starts, ends);
    assert run[0] == bars[i] && run[j - i - 1] == bars[j - 1];
    WindowIsStart(sessions, bars[i], width, starts, ends);
    WindowIsStart(sessions, bars[j - 1], width, starts, ends);
  }

  lemma {:induction false} FillsAreSpanned(sessions: seq<Session>, bars: seq<Bar>, width: int, i: nat, j: nat)
    requires Calendar(sessions) && width > 0 && Valid(sessions, bars, width) && i < j <= |bars|
    requires Fills(sessions, bars, i, j, width)
    ensures var w := WindowOf(sessions, bars[i], width); Spans(Aggregate(sessions, bars, width), w.starts, w.ends)
    decreases |bars|
  {
    hide Calendar, Locate, WindowOf, Aggregate, Combined, RunLength, Fits, Covers;
    AggregateUnfolds(sessions, bars, width);
    var n := RunLength(sessions, bars, width);
    var w := WindowOf(sessions, bars[0], width);
    var out, tail := Aggregate(sessions, bars, width), Aggregate(sessions, bars[n..], width);
    FillsAreRuns(sessions, bars, width, n, i, j);
    if i == 0 && j == n {
      assert bars[0..n] == bars[..n];
      CombinedSpans(bars[..n], w);
      assert out[0] == Combined(bars[..n], w);
    } else {
      assert bars[n..][i - n..j - n] == bars[i..j];
      assert Fills(sessions, bars[n..], i - n, j - n, width);
      FillsAreSpanned(sessions, bars[n..], width, i - n, j - n);
      var o := WindowOf(sessions, bars[i], width);
      var k :| 0 <= k < |tail| && tail[k].starts == o.starts && tail[k].ends == o.ends;
      var l := if Covers(bars[..n], w.starts, w.ends) then k + 1 else k;
      assert out[l] == tail[k];
    }
  }

  /** What aggregation yields: bars in order without overlap, each made from the bars that cover its window,
      and one for every window that some of the bars cover. */
  lemma {:induction false} AggregationMeans(sessions: seq<Session>, bars: seq<Bar>, width: int)
    requires Calendar(sessions) && width > 0 && Valid(sessions, bars, width)
    ensures var out := Aggregate(sessions, bars, width);
            && Ordered(out)
            && (forall k :: 0 <= k < |out| ==> Made(sessions, bars, width, out[k]))
            && forall starts, ends, i, j ::
                 0 <= i < j <= |bars| && IsWindow(sessions, width, starts, ends) && Covers(bars[i..j], starts, ends) ==>
                   Spans(out, starts, ends)
  {
    hide Calendar, Locate, Aggregate, Covers, IsWindow, Made, Spans, Fits, WindowOf;
    var out := Aggregate(sessions, bars, width);
    TwoStepsAlign(sessions, bars, width, 1);
    forall k | 0 <= k < |out| ensures Made(sessions, bars, width, out[k]) {
      AggregatesAreMade(sessions, bars, width, k);
    }
    forall starts, ends, i, j | 0 <= i < j <= |bars| && IsWindow(sessions, width, starts, ends)
                                && Covers(bars[i..j], starts, ends)
      ensures Spans(out, starts, ends)
    {
      CoveredWindowFills(sessions, bars, width, starts, ends, i, j);
      FillsAreSpanned(sessions, bars, width, i, j);
    }
  }

  // Requested ranges

  /** The instants of a session that are asked for. */
  predicate Asked(s: Session, from: int, to: int, t: int) {
    from <= t < to && s.opens <= t < s.closes
  }

  /** A bar of the session is observed at the instant. */
  predicate Observed(sessions: seq<Session>, bars: seq<Bar>, s: Session, t: int) {
    exists i :: 0 <= i < |bars| && Locate(sessions, bars[i]) == Some(s) && bars[i].starts <= t < bars[i].ends
  }

  /** No bar of the session leaves the range. */
  predicate KeptWithin(sessions: seq<Session>, bars: seq<Bar>, s: Session, from: int, to: int) {
    forall i :: 0 <= i < |bars| && Locate(sessions, bars[i]) == Some(s) ==> from <= bars[i].starts && bars[i].ends <= to
  }

  lemma {:induction false} InSessionIs(sessions: seq<Session>, bars: seq<Bar>, s: Session)
    requires Forward(bars) && Ordered(bars)
    ensures var own := InSession(sessions, bars, s);
            && Forward(own) && Ordered(own)
            && (forall b :: b in own <==> b in bars && Locate(sessions, b) == Some(s))
    decreases |bars|
  {
    hide Locate;
    if bars != [] {
      var rest := bars[1..];
      assert bars == [bars[0]] + rest;
      forall i | 0 <= i < |rest| ensures rest[i].starts < rest[i].ends && bars[0].ends <= rest[i].starts {
        assert rest[i] == bars[i + 1];
      }
      assert Ordered(rest) by {
        forall i, j | 0 <= i < j < |rest| ensures rest[i].ends <= rest[j].starts {
          assert rest[i] == bars[i + 1] && rest[j] == bars[j + 1];
        }
      }
      InSessionIs(sessions, rest, s);
      var later := InSession(sessions, rest, s);
      forall i | 0 <= i < |later| ensures bars[0].ends <= later[i].starts { assert later[i] in rest; }
    }
  }

  /** A session's part of the range is covered exactly if a bar of the session is observed at each of its
      instants that are asked for, and none of its bars leaves the range. */
  lemma {:induction false} CoveredIsEveryInstant(sessions: seq<Session>, bars: seq<Bar>, s: Session, from: int,
                                                 to: int)
    requires Forward(bars) && InCalendar(sessions, bars)
    ensures Overlaps(s, from, to) <==> exists t :: Asked(s, from, to, t)
    ensures Overlaps(s, from, to) ==>
              (Covered(sessions, bars, s, from, to) <==>
                 && KeptWithin(sessions, bars, s, from, to)
                 && forall t :: Asked(s, from, to, t) ==> Observed(sessions, bars, s, t))
  {
    hide Locate, InSession, Covers;
    if Overlaps(s, from, to) {
      var starts, ends := Later(s.opens, from), Earlier(s.closes, to);
      assert Asked(s, from, to, starts);
      var own := InSession(sessions, bars, s);
      InSessionIs(sessions, bars, s);
      CoversIsEveryInstant(own, starts, ends);
      SessionHolds(sessions, bars, s, own);
      forall t ensures At(own, t) <==> Observed(sessions, bars, s, t) { SameInstants(sessions, bars, s, own, t); }
      assert forall t :: Asked(s, from, to, t) <==> starts <= t < ends;
      assert Inside(own, starts, ends) <==> KeptWithin(sessions, bars, s, from, to) by {
        if KeptWithin(sessions, bars, s, from, to) {
          forall i | 0 <= i < |own| ensures starts <= own[i].starts && own[i].ends <= ends {
            assert own[i] in bars;
          }
        }
        if Inside(own, starts, ends) {
          forall i | 0 <= i < |bars| && Locate(sessions, bars[i]) == Some(s)
            ensures from <= bars[i].starts && bars[i].ends <= to
          {
            assert bars[i] in own;
          }
        }
      }
    }
  }

  lemma SessionHolds(sessions: seq<Session>, bars: seq<Bar>, s: Session, own: seq<Bar>)
    requires forall b :: b in own <==> b in bars && Locate(sessions, b) == Some(s)
    ensures forall i :: 0 <= i < |own| ==> s.opens <= own[i].starts && own[i].ends <= s.closes
  {
    hide Locate;
    forall i | 0 <= i < |own| ensures Holds(s, own[i]) { assert own[i] in own; }
  }

  lemma {:induction false} SameInstants(sessions: seq<Session>, bars: seq<Bar>, s: Session, own: seq<Bar>, t: int)
    requires forall b :: b in own <==> b in bars && Locate(sessions, b) == Some(s)
    ensures At(own, t) <==> Observed(sessions, bars, s, t)
  {
    hide Locate;
    if At(own, t) {
      var i :| 0 <= i < |own| && own[i].starts <= t < own[i].ends;
      assert own[i] in bars;
    }
    if Observed(sessions, bars, s, t) {
      var i :| 0 <= i < |bars| && Locate(sessions, bars[i]) == Some(s) && bars[i].starts <= t < bars[i].ends;
      assert bars[i] in own;
    }
  }

  /** The reported point: every instant before it is in a bar, and there either no bar goes on before the end,
      or a bar leaves the interval. A leading gap begins the interval, an interior one does not, and both are
      followed by a bar; a trailing one is not, unless that bar goes beyond the end. */
  lemma {:induction false} GapIsFirst(bars: seq<Bar>, starts: int, ends: int, kind: Gap, covered: int)
    requires Forward(bars) && Ordered(bars) && starts < ends && FirstGap(bars, starts, ends, kind, covered)
    ensures forall t :: starts <= t < covered ==> At(bars, t)
    ensures (covered < ends && !At(bars, covered)) || !Inside(bars, starts, ends)
    ensures kind == Leading ==> covered == starts
    ensures kind == Interior ==> covered > starts
    ensures kind != Trailing ==> (exists i :: 0 <= i < |bars| && bars[i].ends > covered) || !Inside(bars, starts, ends)
    ensures kind == Trailing && Inside(bars, starts, ends) ==>
              forall i :: 0 <= i < |bars| ==> bars[i].ends <= covered
  {
    hide Covers;
    var n: nat :| StopsAt(bars, starts, ends, covered, n)
                  && kind == if n < |bars| && bars[n].starts != covered then
                               (if covered == starts then Leading else Interior)
                             else Trailing;
    var front := bars[..n];
    CoveredIsInside(front, starts, covered);
    CoversIsEveryInstant(front, starts, covered);
    forall t | starts <= t < covered ensures At(bars, t) {
      assert At(front, t);
      var i :| 0 <= i < |front| && front[i].starts <= t < front[i].ends;
      assert bars[i] == front[i];
    }
    forall i | 0 <= i < n ensures bars[i].ends <= covered { assert bars[i] == front[i]; }
    CoversEnds(front, starts, covered);
    assert n > 0 ==> front[n - 1] == bars[n - 1] && bars[n - 1].ends == covered;
    if n < |bars| {
      assert bars[n].starts < starts || bars[n].ends > ends ==> !Inside(bars, starts, ends);
      assert n > 0 ==> bars[n].starts >= covered;
    } else {
      assert n > 0 && covered > ends ==> !Inside(bars, starts, ends);
    }
  }
}
