/** `WindowedFilter` with `MaxFilter`: three samples stand in for all those of a sliding window. It is an
    approximation: what it reports is always a sample of the window, and can be less than the largest. */
module WindowedFilter {
  datatype Sample = Sample(value: int, time: int)

  /** The best, second-best and third-best estimates. */
  datatype Filter = Filter(window: nat, zero: int, best: Sample, second: Sample, third: Sample)

  function NewFilter(window: nat, zero: int, zeroTime: int): Filter {
    var s := Sample(zero, zeroTime);
    Filter(window, zero, s, s, s)
  }

  predicate TooOld(f: Filter, s: Sample, now: int) {
    now - s.time > f.window
  }

  function ResetTo(f: Filter, s: Sample): Filter {
    f.(best := s, second := s, third := s)
  }

  /** The new sample takes the place of every estimate below the best that it equals or beats. */
  function Insert(f: Filter, s: Sample): Filter {
    if s.value >= f.second.value then f.(second := s, third := s)
    else if s.value >= f.third.value then f.(third := s)
    else f
  }

  /** Moves the estimates up while the best one is outside the window. */
  function Expire(f: Filter, s: Sample): Filter {
    var f1 := f.(best := f.second, second := f.third, third := s);
    if TooOld(f1, f1.best, s.time) then f1.(best := f1.second, second := f1.third) else f1
  }

  /** Spreads equal estimates out in time. */
  function Spread(f: Filter, s: Sample): Filter {
    if f.second.value == f.best.value && s.time - f.second.time > 0 then f.(second := s, third := s)
    else if f.third.value == f.second.value && s.time - f.third.time > 1 then f.(third := s)
    else f
  }

  predicate Resets(f: Filter, s: Sample) {
    f.best.value == f.zero || s.value >= f.best.value || TooOld(f, f.third, s.time)
  }

  function Update(f: Filter, s: Sample): Filter {
    if Resets(f, s) then ResetTo(f, s) else
      var f1 := Insert(f, s);
      if TooOld(f1, f1.best, s.time) then Expire(f1, s) else Spread(f1, s)
  }

  function Run(f: Filter, history: seq<Sample>): Filter {
    if history == [] then f
    else Update(Run(f, history[..|history| - 1]), history[|history| - 1])
  }

  // ---------------------------------------------------------------- the filter and its history

  predicate InOrder(history: seq<Sample>) {
    forall i: nat, j: nat :: i < j < |history| ==> history[i].time <= history[j].time
  }

  /** `s` is the sample at `i`, and no later one is larger. */
  predicate LargestSince(history: seq<Sample>, i: nat, s: Sample) {
    && i < |history|
    && history[i] == s
    && forall j: nat :: i <= j < |history| ==> history[j].value <= s.value
  }

  /** The three estimates are samples of the history, oldest first, each the largest since its own time. */
  predicate Tracks(f: Filter, history: seq<Sample>, b: nat, c: nat, d: nat) {
    && b <= c <= d
    && LargestSince(history, b, f.best)
    && LargestSince(history, c, f.second)
    && LargestSince(history, d, f.third)
  }

  /** ... and the best is inside the window. */
  ghost predicate Inv(f: Filter, history: seq<Sample>) {
    && history != []
    && !TooOld(f, f.best, history[|history| - 1].time)
    && exists b: nat, c: nat, d: nat :: Tracks(f, history, b, c, d)
  }

  lemma LargestSinceExtends(history: seq<Sample>, i: nat, s: Sample, x: Sample)
    requires LargestSince(history, i, s)
    ensures x.value <= s.value ==> LargestSince(history + [x], i, s)
    ensures LargestSince(history + [x], |history|, x)
    ensures i < |history|
  {
  }

  lemma InsertTracks(f: Filter, history: seq<Sample>, b: nat, c: nat, d: nat, x: Sample) returns (c': nat, d': nat)
    requires Tracks(f, history, b, c, d) && x.value <= f.best.value
    ensures Tracks(Insert(f, x), history + [x], b, c', d')
    ensures c' == c || Insert(f, x).second == x
    ensures d' == d || Insert(f, x).third == x
    ensures d' <= |history| && x.value <= Insert(f, x).third.value
  {
    hide LargestSince;
    LargestSinceExtends(history, b, f.best, x);
    LargestSinceExtends(history, c, f.second, x);
    LargestSinceExtends(history, d, f.third, x);
    var n := |history|;
    c' := if x.value >= f.second.value then n else c;
    d' := if x.value >= f.second.value || x.value >= f.third.value then n else d;
  }

  /** Estimates ordered by position are ordered by value and by time. */
  lemma TracksOrders(f: Filter, history: seq<Sample>, b: nat, c: nat, d: nat)
    requires Tracks(f, history, b, c, d) && InOrder(history)
    ensures f.best.value >= f.second.value >= f.third.value >= history[|history| - 1].value
    ensures f.best.time <= f.second.time <= f.third.time <= history[|history| - 1].time
  {
    var last := |history| - 1;
    assert history[b] == f.best && history[c] == f.second && history[d] == f.third;
    assert history[last].value <= f.third.value;
  }

  /** A sample below the best, while the best is inside the window: it takes the place of the second estimate exactly
      when it equals or beats it, or when the second equals the best and time has passed since; and of the third exactly
      when it equals or beats that, or takes the second's place, or the third equals the second and more than one time
      unit has passed since. */
  lemma SmallerSampleMoves(f: Filter, x: Sample)
    requires !Resets(f, x) && !TooOld(f, f.best, x.time) && f.third.value <= f.second.value <= f.best.value
    ensures var t := Update(f, x);
            var takesSecond := f.second.value <= x.value || (f.second.value == f.best.value && f.second.time < x.time);
            var takesThird := f.third.value <= x.value
                || (f.third.value == f.second.value && f.third.time + 1 < x.time);
            && t == f.(second := t.second, third := t.third)
            && t.second == (if takesSecond then x else f.second)
            && t.third == (if takesSecond || takesThird then x else f.third)
  {
    hide Expire;
  }

  lemma UpdateKeepsInv(f: Filter, history: seq<Sample>, x: Sample)
    requires Inv(f, history) && InOrder(history + [x])
    ensures Inv(Update(f, x), history + [x])
  {
    hide LargestSince;
    var b: nat, c: nat, d: nat :| Tracks(f, history, b, c, d);
    var n := |history|;
    var h := history + [x];
    assert h[n] == x;
    LargestSinceExtends(history, b, f.best, x);
    if Resets(f, x) {
      assert Tracks(Update(f, x), h, n, n, n);
    } else {
      var c1, d1 := InsertTracks(f, history, b, c, d, x);
      var f1 := Insert(f, x);
      TracksOrders(f1, h, b, c1, d1);
      if TooOld(f1, f1.best, x.time) {
        if TooOld(f1, f1.second, x.time) {
          assert Tracks(Update(f, x), h, d1, n, n);
        } else {
          assert Tracks(Update(f, x), h, c1, d1, n);
        }
      } else {
        var c2, d2 := SpreadTracks(f1, h, b, c1, d1);
      }
    }
  }

  lemma SpreadTracks(f: Filter, h: seq<Sample>, b: nat, c: nat, d: nat) returns (c': nat, d': nat)
    requires h != [] && Tracks(f, h, b, c, d)
    ensures Tracks(Spread(f, h[|h| - 1]), h, b, c', d')
  {
    var n := |h| - 1;
    var f1 := Spread(f, h[n]);
    assert LargestSince(h, n, h[n]);
    c' := if f1.second == f.second then c else n;
    d' := if f1.third == f.third && c' == c then d else n;
  }

  /** The first sample always resets a new filter. */
  lemma FirstSampleInv(window: nat, zero: int, zeroTime: int, x: Sample)
    ensures Inv(Update(NewFilter(window, zero, zeroTime), x), [x])
  {
    var f := Update(NewFilter(window, zero, zeroTime), x);
    assert f == ResetTo(NewFilter(window, zero, zeroTime), x);
    assert Tracks(f, [x], 0, 0, 0);
  }

  lemma UpdateKeepsParameters(f: Filter, x: Sample)
    ensures Update(f, x).window == f.window && Update(f, x).zero == f.zero
  {
  }

  lemma {:induction false} RunKeepsInv(window: nat, zero: int, zeroTime: int, history: seq<Sample>)
    requires history != [] && InOrder(history)
    ensures Inv(Run(NewFilter(window, zero, zeroTime), history), history)
    ensures Run(NewFilter(window, zero, zeroTime), history).window == window
    ensures Run(NewFilter(window, zero, zeroTime), history).zero == zero
    decreases |history|
  {
    hide Inv; hide Update;
    var n := |history| - 1;
    var f := NewFilter(window, zero, zeroTime);
    assert history == history[..n] + [history[n]];
    UpdateKeepsParameters(Run(f, history[..n]), history[n]);
    if n == 0 {
      FirstSampleInv(window, zero, zeroTime, history[0]);
    } else {
      RunKeepsInv(window, zero, zeroTime, history[..n]);
      UpdateKeepsInv(Run(f, history[..n]), history[..n], history[n]);
    }
  }

  /** `m` bounds the samples that are inside the window at the last sample's time. */
  ghost predicate BoundsWindow(history: seq<Sample>, window: nat, m: int)
    requires history != []
  {
    forall i: nat :: i < |history| && history[|history| - 1].time - history[i].time <= window ==> history[i].value <= m
  }

  /** For every history with nondecreasing times: the estimates are ordered by value and by time, and the best is a
      sample of the window that no later sample beats; so it never exceeds the largest sample of the window. */
  lemma EstimatesAreOrderedSamples(window: nat, zero: int, zeroTime: int, history: seq<Sample>)
      returns (b: nat, c: nat, d: nat)
    requires history != [] && InOrder(history)
    ensures var f := Run(NewFilter(window, zero, zeroTime), history);
            && Tracks(f, history, b, c, d)
            && f.best.value >= f.second.value >= f.third.value >= history[|history| - 1].value
            && f.best.time <= f.second.time <= f.third.time <= history[|history| - 1].time
            && history[|history| - 1].time - f.best.time <= window
            && (forall m :: BoundsWindow(history, window, m) ==> f.best.value <= m)
  {
    RunKeepsInv(window, zero, zeroTime, history);
    var f := Run(NewFilter(window, zero, zeroTime), history);
    b, c, d :| Tracks(f, history, b, c, d);
    TracksOrders(f, history, b, c, d);
  }

  /** A best estimate is replaced by a smaller one only when it has left the window. */
  lemma BestFallsOnlyByAge(f: Filter, history: seq<Sample>, x: Sample)
    requires Inv(f, history) && InOrder(history + [x]) && f.zero <= x.value
    ensures Update(f, x).best.value >= f.best.value || TooOld(f, f.best, x.time)
  {
    var b: nat, c: nat, d: nat :| Tracks(f, history, b, c, d);
    hide LargestSince;
    InOrderPrefix(history, x);
    TracksOrders(f, history, b, c, d);
  }

  lemma InOrderPrefix(history: seq<Sample>, x: Sample)
    requires InOrder(history + [x])
    ensures InOrder(history)
  {
    var h := history + [x];
    assert forall i: nat :: i < |history| ==> history[i] == h[i];
  }

  /** So over a history that fits into one window, the filter is exact: the best is the largest of all samples. `zero`
      is the value that no sample lies below, as its role as the uninitialised value asks. */
  lemma {:induction false} ExactWithinOneWindow(window: nat, zero: int, zeroTime: int, history: seq<Sample>)
    requires history != [] && InOrder(history)
    requires history[|history| - 1].time - history[0].time <= window
    requires forall i: nat :: i < |history| ==> zero <= history[i].value
    ensures var best := Run(NewFilter(window, zero, zeroTime), history).best;
            best in history && forall i: nat :: i < |history| ==> history[i].value <= best.value
    decreases |history|
  {
    hide Inv; hide Update;
    var n := |history| - 1;
    var f := NewFilter(window, zero, zeroTime);
    RunKeepsInv(window, zero, zeroTime, history);
    BestIsASample(Run(f, history), history);
    if n > 0 {
      var before := history[..n];
      assert history == before + [history[n]];
      RunKeepsInv(window, zero, zeroTime, before);
      ExactWithinOneWindow(window, zero, zeroTime, before);
      BestFallsOnlyByAge(Run(f, before), before, history[n]);
    }
  }

  lemma BestIsASample(f: Filter, history: seq<Sample>)
    requires Inv(f, history)
    ensures f.best in history && history[|history| - 1].value <= f.best.value
  {
    var b: nat, c: nat, d: nat :| Tracks(f, history, b, c, d);
    assert history[|history| - 1].value <= f.best.value;
  }

  /** A best estimate stays, at its value and no older, as long as no sample is larger and it is inside the window. */
  lemma BestStays(f: Filter, history: seq<Sample>, x: Sample)
    requires Inv(f, history) && InOrder(history + [x]) && f.zero <= x.value <= f.best.value
             && !TooOld(f, f.best, x.time)
    ensures Update(f, x).best.value == f.best.value && f.best.time <= Update(f, x).best.time
  {
    hide LargestSince;
    var b: nat, c: nat, d: nat :| Tracks(f, history, b, c, d);
    InOrderPrefix(history, x);
    TracksOrders(f, history, b, c, d);
    assert (history + [x])[|history| - 1] == history[|history| - 1] && (history + [x])[|history|] == x;
  }

  /** The sample at `i` was at least the best estimate when it was submitted, and nothing after it is larger. */
  ghost predicate WasBest(window: nat, zero: int, zeroTime: int, history: seq<Sample>, i: nat) {
    && i < |history|
    && (i == 0 || Run(NewFilter(window, zero, zeroTime), history[..i]).best.value <= history[i].value)
    && forall j: nat :: i <= j < |history| ==> history[j].value <= history[i].value
  }

  lemma WasBestBefore(window: nat, zero: int, zeroTime: int, history: seq<Sample>, i: nat)
    requires InOrder(history) && WasBest(window, zero, zeroTime, history, i) && i < |history| - 1
    ensures var before := history[..|history| - 1];
            && InOrder(before) && WasBest(window, zero, zeroTime, before, i)
            && before[|before| - 1].time <= history[|history| - 1].time
  {
    hide Run;
    var n := |history| - 1;
    assert history[..n][..i] == history[..i];
    assert history[n - 1].time <= history[n].time;
  }

  lemma {:induction false} WasBestIsReported(window: nat, zero: int, zeroTime: int, history: seq<Sample>, i: nat)
    requires InOrder(history) && WasBest(window, zero, zeroTime, history, i)
    requires history[|history| - 1].time - history[i].time <= window
    requires forall k: nat :: k < |history| ==> zero <= history[k].value
    ensures var best := Run(NewFilter(window, zero, zeroTime), history).best;
            best.value == history[i].value && history[i].time <= best.time
    decreases |history|
  {
    hide Inv; hide Update; hide InOrder;
    var n := |history| - 1;
    var f, x := NewFilter(window, zero, zeroTime), history[n];
    var before := history[..n];
    assert history == before + [x];
    UpdateIs(Run(f, before), x);
    if n > i {
      WasBestBefore(window, zero, zeroTime, history, i);
      RunKeepsInv(window, zero, zeroTime, before);
      WasBestIsReported(window, zero, zeroTime, before, i);
      BestStays(Run(f, before), before, x);
    }
  }

  /** So over a history of any length the filter is exact whenever the largest sample of the window was at least the
      best estimate when it was submitted. */
  lemma ExactWhenTheLargestWasBest(window: nat, zero: int, zeroTime: int, history: seq<Sample>, i: nat)
    requires InOrder(history) && i < |history| && history[|history| - 1].time - history[i].time <= window
    requires BoundsWindow(history, window, history[i].value)
    requires i == 0 || Run(NewFilter(window, zero, zeroTime), history[..i]).best.value <= history[i].value
    requires forall k: nat :: k < |history| ==> zero <= history[k].value
    ensures Run(NewFilter(window, zero, zeroTime), history).best.value == history[i].value
  {
    hide Run;
    forall j: nat | i <= j < |history|
      ensures history[j].value <= history[i].value
    {
      assert history[i].time <= history[j].time;
    }
    WasBestIsReported(window, zero, zeroTime, history, i);
  }

  /** Over a longer history it can be less than the largest sample of the window, for samples falling in value where
      the fourth comes after the third estimate was taken and is not recorded: when that estimate leaves the window
      everything is reset to the newest sample, although the fourth is still inside. */
  lemma CanMissTheWindowMaximum(window: nat, zero: int, zeroTime: int, h: seq<Sample>)
    requires |h| == 5 && InOrder(h)
    requires h[0].value > h[1].value > h[2].value > h[3].value > h[4].value > zero
    requires h[0].time < h[1].time && h[1].time + 1 < h[2].time
    requires h[3].time - h[0].time <= window
    requires h[4].time - h[3].time <= window < h[4].time - h[2].time
    ensures Run(NewFilter(window, zero, zeroTime), h).best == h[4]
    ensures !BoundsWindow(h, window, h[4].value)
  {
    hide Update; hide Run;
    var f := NewFilter(window, zero, zeroTime);
    var f1 := f.(best := h[0], second := h[0], third := h[0]);
    var f2 := f1.(second := h[1], third := h[1]);
    var f3 := f2.(third := h[2]);
    RunStep(f, h, 0);
    RunStep(f, h, 1);
    RunStep(f, h, 2);
    RunStep(f, h, 3);
    RunStep(f, h, 4);
    assert Update(f, h[0]) == f1 && Update(f1, h[1]) == f2 by { UpdateIs(f, h[0]); UpdateIs(f1, h[1]); }
    assert Update(f2, h[2]) == f3 && Update(f3, h[3]) == f3 by { UpdateIs(f2, h[2]); UpdateIs(f3, h[3]); }
    UpdateIs(f3, h[4]);
    assert h[..5] == h;
    assert h[3].value > h[4].value;
  }

  lemma RunStep(f: Filter, h: seq<Sample>, n: nat)
    requires n < |h|
    ensures Run(f, h[..n + 1]) == Update(Run(f, h[..n]), h[n])
    ensures Run(f, h[..0]) == f
  {
    assert h[..n + 1][..n] == h[..n];
  }

  lemma UpdateIs(f: Filter, s: Sample)
    ensures Resets(f, s) ==> Update(f, s) == ResetTo(f, s)
    ensures !Resets(f, s) && !TooOld(f, f.best, s.time) ==> Update(f, s) == Spread(Insert(f, s), s)
  {
  }

  // ---------------------------------------------------------------- the object

  class MaxFilter {
    const window: nat
    const zero: int
    const estimates: array<Sample>
    ghost var history: seq<Sample>

    ghost predicate Valid()
      reads this, estimates
    {
      && estimates.Length == 3
      && (history == [] ==> estimates[0].value == zero)
      && (history != [] ==> InOrder(history) && Inv(State(), history))
    }

    ghost function State(): Filter
      reads this, estimates
      requires estimates.Length == 3
    {
      Filter(window, zero, estimates[0], estimates[1], estimates[2])
    }

    constructor (window: nat, zero: int, zeroTime: int)
      ensures Valid() && history == [] && State() == NewFilter(window, zero, zeroTime) && fresh(estimates)
    {
      this.window, this.zero := window, zero;
      estimates := new Sample[3](_ => Sample(zero, zeroTime));
      history := [];
    }

    method Reset(value: int, time: int)
      requires estimates.Length == 3
      modifies estimates
      ensures State() == ResetTo(old(State()), Sample(value, time))
    {
      estimates[2] := Sample(value, time);
      estimates[1] := estimates[2];
      estimates[0] := estimates[1];
    }

    method UpdateEstimates(value: int, time: int)
      requires estimates.Length == 3
      modifies estimates
      ensures State() == Update(old(State()), Sample(value, time))
    {
      if estimates[0].value == zero || value >= estimates[0].value || time - estimates[2].time > window {
        Reset(value, time);
        return;
      }
      if value >= estimates[1].value {
        estimates[1] := Sample(value, time);
        estimates[2] := estimates[1];
      } else if value >= estimates[2].value {
        estimates[2] := Sample(value, time);
      }
      assert State() == Insert(old(State()), Sample(value, time));
      if time - estimates[0].time > window {
        estimates[0] := estimates[1];
        estimates[1] := estimates[2];
        estimates[2] := Sample(value, time);
        if time - estimates[0].time > window {
          estimates[0] := estimates[1];
          estimates[1] := estimates[2];
        }
        return;
      }
      if estimates[1].value == estimates[0].value && time - estimates[1].time > 0 {
        estimates[1] := Sample(value, time);
        estimates[2] := estimates[1];
        return;
      }
      if estimates[2].value == estimates[1].value && time - estimates[2].time > 1 {
        estimates[2] := Sample(value, time);
      }
    }

    /** One sample: what the filter holds afterwards is tied to everything submitted so far. */
    method Submit(value: int, time: int)
      requires Valid() && (history != [] ==> history[|history| - 1].time <= time)
      modifies this`history, estimates
      ensures Valid() && history == old(history) + [Sample(value, time)]
      ensures State() == Update(old(State()), Sample(value, time))
    {
      hide Update; hide Tracks;
      ghost var x := Sample(value, time);
      if history != [] {
        UpdateKeepsInv(State(), history, x);
      } else {
        ResetFirst(State(), x);
        assert history + [x] == [x];
      }
      UpdateEstimates(value, time);
      history := history + [x];
    }

    function GetBest(): (best: int)
      reads this, estimates
      requires Valid()
      ensures history != [] ==> exists i: nat :: i < |history| && history[i].value == best
                                                 && history[|history| - 1].time - history[i].time <= window
                                                 && forall j: nat :: i <= j < |history| ==> history[j].value <= best
    {
      estimates[0].value
    }

    function GetSecondBest(): (second: int)
      reads this, estimates
      requires Valid()
      ensures second == State().second.value
      ensures history != [] ==> exists i: nat :: LargestSince(history, i, Sample(second, estimates[1].time))
    {
      estimates[1].value
    }

    function GetThirdBest(): (third: int)
      reads this, estimates
      requires Valid()
      ensures third == State().third.value
      ensures history != [] ==> exists i: nat :: LargestSince(history, i, Sample(third, estimates[2].time))
    {
      estimates[2].value
    }
  }

  lemma ResetFirst(f: Filter, x: Sample)
    requires f.best.value == f.zero
    ensures Inv(Update(f, x), [x]) && InOrder([x])
  {
    assert Tracks(Update(f, x), [x], 0, 0, 0);
  }
}
