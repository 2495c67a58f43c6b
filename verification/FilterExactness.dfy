/** Exactly when the three-slot filter reports the largest sample of its window: when that sample is one of the three
    estimates after the sample that follows it.  Those can be read with the three getters. */
module FilterExactness {
  import opened WindowedFilter

  /** The sample at `i` is the last of the largest in the window. */
  ghost predicate LastLargest(h: seq<Sample>, window: nat, i: nat) {
    && i < |h|
    && h[|h| - 1].time - h[i].time <= window
    && BoundsWindow(h, window, h[i].value)
    && forall j: nat :: i < j < |h| ==> h[j].value < h[i].value
  }

  predicate Among(f: Filter, v: int) {
    f.best.value == v || f.second.value == v || f.third.value == v
  }

  predicate Ordered(f: Filter) {
    && f.best.value >= f.second.value >= f.third.value
    && f.best.time <= f.second.time <= f.third.time
  }

  /** Estimates up to the value `v` were taken at time `t` or later ... */
  predicate YoungFrom(f: Filter, v: int, t: int) {
    && (f.best.value <= v ==> t <= f.best.time)
    && (f.second.value <= v ==> t <= f.second.time)
    && (f.third.value <= v ==> t <= f.third.time)
  }

  /** ... and those above it before. */
  predicate OldAbove(f: Filter, v: int, t: int) {
    && (f.best.value > v ==> f.best.time < t)
    && (f.second.value > v ==> f.second.time < t)
    && (f.third.value > v ==> f.third.time < t)
  }

  /** `v` is among the estimates, and as the third only if the two above it differ; so it will not be spread away. */
  predicate Holds(f: Filter, v: int) {
    Among(f, v) && (f.second.value > v ==> f.second.value < f.best.value)
  }

  // ---------------------------------------------------------------- one update

  /** After an update the estimates no larger than the new sample are that sample. */
  lemma NewestAtItsValue(f: Filter, x: Sample)
    requires Ordered(f)
    ensures YoungFrom(Update(f, x), x.value, x.time)
  {
  }

  lemma UpdateKeepsYoung(f: Filter, x: Sample, v: int, t: int)
    requires YoungFrom(f, v, t) && t <= x.time
    ensures YoungFrom(Update(f, x), v, t)
  {
  }

  /** A value that is gone does not come back with other samples. */
  lemma UpdateBringsNothingBack(f: Filter, x: Sample, v: int)
    requires !Among(f, v) && x.value != v
    ensures !Among(Update(f, x), v)
  {
  }

  /** A smaller sample, with `v` still inside the window, does not displace it. */
  lemma UpdateKeepsHolding(f: Filter, x: Sample, v: int, t: int)
    requires Ordered(f) && YoungFrom(f, v, t) && Holds(f, v)
    requires f.zero <= x.value < v && x.time - t <= f.window
    ensures Holds(Update(f, x), v)
  {
  }

  /** If the first smaller sample leaves `v` among the estimates, it holds from then on. */
  lemma FirstSmallerSample(f: Filter, x: Sample, v: int, t: int)
    requires Ordered(f) && YoungFrom(f, v, t) && OldAbove(f, v, t)
    requires f.zero <= x.value < v && t <= x.time && x.time - t <= f.window
    ensures Among(Update(f, x), v) ==> Holds(Update(f, x), v)
  {
  }

  // ---------------------------------------------------------------- whole histories

  lemma RunIsOrdered(window: nat, zero: int, zeroTime: int, h: seq<Sample>, n: nat)
    requires InOrder(h) && 0 < n <= |h|
    ensures var f := Run(NewFilter(window, zero, zeroTime), h[..n]);
            Ordered(f) && f.window == window && f.zero == zero
  {
    hide Run;
    assert h[..n] != [] && InOrder(h[..n]);
    var b, c, d := EstimatesAreOrderedSamples(window, zero, zeroTime, h[..n]);
    RunKeepsInv(window, zero, zeroTime, h[..n]);
  }

  /** An estimate above the largest sample of the final window was taken before it. */
  lemma RunIsOldAbove(window: nat, zero: int, zeroTime: int, h: seq<Sample>, i: nat)
    requires InOrder(h) && LastLargest(h, window, i)
    ensures OldAbove(Run(NewFilter(window, zero, zeroTime), h[..i + 1]), h[i].value, h[i].time)
  {
    hide Run;
    var s := h[..i + 1];
    assert s != [] && InOrder(s);
    var b, c, d := EstimatesAreOrderedSamples(window, zero, zeroTime, s);
    assert s[b] == h[b] && s[c] == h[c] && s[d] == h[d];
  }

  /** From the sample after the largest on, either it is held or it is gone for good. */
  lemma {:induction false} HeldOrGone(window: nat, zero: int, zeroTime: int, h: seq<Sample>, i: nat, n: nat)
    requires InOrder(h) && LastLargest(h, window, i) && 0 < i && i + 2 <= n <= |h|
    requires forall k: nat :: k < |h| ==> zero <= h[k].value
    ensures var f := NewFilter(window, zero, zeroTime);
            && YoungFrom(Run(f, h[..n]), h[i].value, h[i].time)
            && if Among(Run(f, h[..i + 2]), h[i].value) then Holds(Run(f, h[..n]), h[i].value)
               else !Among(Run(f, h[..n]), h[i].value)
    decreases n
  {
    hide Run; hide Update; hide Ordered; hide YoungFrom; hide OldAbove; hide Holds; hide Among; hide BoundsWindow;
    var f := NewFilter(window, zero, zeroTime);
    var v, t := h[i].value, h[i].time;
    var x := h[n - 1];
    RunStep(f, h, n - 1);
    RunIsOrdered(window, zero, zeroTime, h, n - 1);
    assert t <= x.time <= h[|h| - 1].time by { InOrderAt(h, i, n - 1); InOrderAt(h, n - 1, |h| - 1); }
    var before := Run(f, h[..n - 1]);
    if n == i + 2 {
      RunStep(f, h, i);
      RunIsOrdered(window, zero, zeroTime, h, i);
      NewestAtItsValue(Run(f, h[..i]), h[i]);
      RunIsOldAbove(window, zero, zeroTime, h, i);
      FirstSmallerSample(before, x, v, t);
    } else {
      HeldOrGone(window, zero, zeroTime, h, i, n - 1);
      if Among(Run(f, h[..i + 2]), v) {
        UpdateKeepsHolding(before, x, v, t);
      } else {
        UpdateBringsNothingBack(before, x, v);
      }
    }
    UpdateKeepsYoung(before, x, v, t);
  }

  lemma InOrderAt(h: seq<Sample>, i: nat, j: nat)
    requires InOrder(h) && i <= j < |h|
    ensures h[i].time <= h[j].time
  {
  }

  lemma HoldsBelowBest(f: Filter, v: int)
    requires Ordered(f)
    ensures Holds(f, v) ==> v <= f.best.value
    ensures !Among(f, v) ==> f.best.value != v
  {
  }

  /** The filter reports the largest sample of the window always when that is the first of all or the newest, and
      otherwise exactly when it is among the three estimates once the next sample has been submitted. */
  lemma ReportsTheMaximumIff(window: nat, zero: int, zeroTime: int, h: seq<Sample>, i: nat)
    requires InOrder(h) && LastLargest(h, window, i)
    requires forall k: nat :: k < |h| ==> zero <= h[k].value
    ensures var f := NewFilter(window, zero, zeroTime);
            && (Run(f, h).best.value == h[i].value <==> BoundsWindow(h, window, Run(f, h).best.value))
            && (i == 0 || i + 1 == |h| ==> Run(f, h).best.value == h[i].value)
            && (i + 2 <= |h| ==> (Run(f, h).best.value == h[i].value <==> Among(Run(f, h[..i + 2]), h[i].value)))
  {
    hide Run; hide Update; hide Among; hide Holds; hide Ordered;
    var f := NewFilter(window, zero, zeroTime);
    var b, c, d := EstimatesAreOrderedSamples(window, zero, zeroTime, h);
    RunIsOrdered(window, zero, zeroTime, h, |h|);
    assert h[..|h|] == h;
    HoldsBelowBest(Run(f, h), h[i].value);
    if i == 0 {
      ExactWhenTheLargestWasBest(window, zero, zeroTime, h, i);
      if 2 <= |h| {
        FirstIsHeld(window, zero, zeroTime, h);
      }
    } else if i + 2 <= |h| {
      HeldOrGone(window, zero, zeroTime, h, i, |h|);
    }
  }

  /** The very first sample, when the next is smaller and it is still inside the window, is the best of both. */
  lemma FirstIsHeld(window: nat, zero: int, zeroTime: int, h: seq<Sample>)
    requires InOrder(h) && LastLargest(h, window, 0) && 2 <= |h|
    requires forall k: nat :: k < |h| ==> zero <= h[k].value
    ensures Among(Run(NewFilter(window, zero, zeroTime), h[..2]), h[0].value)
  {
    hide Run; hide Update;
    InOrderAt(h, 1, |h| - 1);
    var s := h[..2];
    assert InOrder(s) && s[0] == h[0] && s[1] == h[1];
    ExactWhenTheLargestWasBest(window, zero, zeroTime, s, 0);
  }

  /** Every history has a last largest sample of its window, so one of the cases always applies. */
  lemma LastLargestExists(window: nat, h: seq<Sample>) returns (i: nat)
    requires InOrder(h) && h != []
    ensures LastLargest(h, window, i)
  {
    var m := WindowStart(window, h, |h| - 1);
    i := LargestFrom(h, m);
    forall k: nat | k < |h| && h[|h| - 1].time - h[k].time <= window
      ensures h[k].value <= h[i].value
    {
      assert m <= k;
    }
    InOrderAt(h, m, i);
  }

  /** The first sample inside the window, looking back from one that is. */
  lemma {:induction false} WindowStart(window: nat, h: seq<Sample>, n: nat) returns (m: nat)
    requires InOrder(h) && n < |h| && h[|h| - 1].time - h[n].time <= window
    ensures m <= n && h[|h| - 1].time - h[m].time <= window
    ensures forall k: nat :: k < |h| && h[|h| - 1].time - h[k].time <= window ==> m <= k
    decreases n
  {
    m := n;
    if n > 0 && h[|h| - 1].time - h[n - 1].time <= window {
      m := WindowStart(window, h, n - 1);
    } else if n > 0 {
      forall k: nat | k < n
        ensures h[|h| - 1].time - h[k].time > window
      {
        InOrderAt(h, k, n - 1);
      }
    }
  }

  lemma {:induction false} LargestFrom(h: seq<Sample>, m: nat) returns (i: nat)
    requires m < |h|
    ensures m <= i < |h|
    ensures forall j: nat :: m <= j < |h| ==> h[j].value <= h[i].value && (i < j ==> h[j].value < h[i].value)
    decreases |h| - m
  {
    i := m;
    if m + 1 < |h| {
      i := LargestFrom(h, m + 1);
      if h[m].value > h[i].value {
        i := m;
      }
    }
  }
}
