/** The round-trip-time smoother (`RttStats`).

    `smoothed` is a moving average with weight one eighth whose two products are each
    rounded to a whole microsecond before they are added. */
module RttEstimation {
  import opened Base

  datatype Rtt = Rtt(latest: int, minimum: int, smoothed: int, previous: int)

  const NO_RTT := Rtt(0, 0, 0, 0)

  /** One call of `UpdateRtt`: the raw send-to-ack delay and the peer's reported ack delay. */
  datatype Measurement = Measurement(sendDelta: int, ackDelay: int)

  /** Infinite and non-positive delays are ignored. */
  predicate Accepted(x: Measurement) {
    x.sendDelta != INT64_MAX && x.sendDelta > 0
  }

  function NewMinimum(r: Rtt, x: Measurement): int {
    if r.minimum == 0 || r.minimum > x.sendDelta then x.sendDelta else r.minimum
  }

  /** The sample after the ack-delay correction, which applies only when it leaves a value
      at or above the minimum. */
  function Adjusted(r: Rtt, x: Measurement): int {
    if x.sendDelta > x.ackDelay && x.sendDelta - NewMinimum(r, x) >= x.ackDelay
    then x.sendDelta - x.ackDelay else x.sendDelta
  }

  /** `llround(k * x / 8)` for a non-negative argument: halves round up. */
  function Eighths(k: nat, x: int): int {
    (k * x + 4) / 8
  }

  function Updated(r: Rtt, x: Measurement): Rtt {
    if !Accepted(x) then r else
      var sample := Adjusted(r, x);
      Rtt(sample, NewMinimum(r, x),
          if r.smoothed == 0 then sample else Eighths(7, r.smoothed) + Eighths(1, sample),
          r.smoothed)
  }

  /** The state after a whole history of calls, oldest first. */
  function Smooth(history: seq<Measurement>): Rtt {
    if history == [] then NO_RTT else Updated(Smooth(history[..|history| - 1]), history[|history| - 1])
  }

  /** The adjusted samples that a history feeds into the average. */
  function AdjustedSamples(history: seq<Measurement>): seq<int> {
    if history == [] then [] else
      var before, x := history[..|history| - 1], history[|history| - 1];
      AdjustedSamples(before) + if Accepted(x) then [Adjusted(Smooth(before), x)] else []
  }

  ghost predicate WithinRange(samples: seq<int>, lo: int, hi: int) {
    forall i :: 0 <= i < |samples| ==> lo <= samples[i] <= hi
  }

  /** What section 5.3 of RFC 9002 intends: for every history, once a sample has been
      accepted the average is never zero again, no latest sample undercuts the minimum,
      and the average stays inside the range of the samples except that the double
      rounding may carry it one microsecond above the largest. */
  lemma {:induction false} SmoothedStaysInRange(history: seq<Measurement>, lo: int, hi: int)
    requires WithinRange(AdjustedSamples(history), lo, hi)
    ensures var r := Smooth(history);
            if AdjustedSamples(history) == [] then r == NO_RTT
            else 0 < r.minimum <= r.latest && 0 < r.smoothed && lo <= r.smoothed <= hi + 1
                 && lo <= r.latest <= hi && (r.previous == 0 || lo <= r.previous <= hi + 1)
  {
    if history != [] {
      var before, x := history[..|history| - 1], history[|history| - 1];
      var all := AdjustedSamples(history);
      assert forall i :: 0 <= i < |AdjustedSamples(before)| ==> AdjustedSamples(before)[i] == all[i];
      SmoothedStaysInRange(before, lo, hi);
      if Accepted(x) {
        assert all[|all| - 1] == Adjusted(Smooth(before), x);
      }
    }
  }

  /** One update leaves the range of the average and the sample exactly when the two are equal and 4 modulo 8, and then
      by one microsecond upward; it never falls below the range. */
  lemma LeavesTheRangeIff(r: Rtt, x: Measurement)
    requires Accepted(x) && 0 < r.smoothed
    ensures var sample, average := Adjusted(r, x), Updated(r, x).smoothed;
            && Min(r.smoothed, sample) <= average <= Max(r.smoothed, sample) + 1
            && (average > Max(r.smoothed, sample) <==> r.smoothed == sample && sample % 8 == 4)
  {
    hide Adjusted; hide Eighths; hide NewMinimum;
    AdjustedPositive(r, x);
    Weighed(r.smoothed, Adjusted(r, x));
  }

  lemma AdjustedPositive(r: Rtt, x: Measurement)
    requires Accepted(x)
    ensures 0 < Adjusted(r, x)
  {
  }

  lemma Weighed(s: int, x: int)
    requires 0 < s && 0 < x
    ensures var t := Eighths(7, s) + Eighths(1, x);
            && Min(s, x) <= t <= Max(s, x) + 1
            && (t > Max(s, x) <==> s == x && x % 8 == 4)
  {
    var q, r := s / 8, s % 8;
    var p, u := x / 8, x % 8;
    SevenEighths(q, r);
    OneEighth(p, u);
  }

  lemma SevenEighths(q: int, r: int)
    requires 0 <= r < 8
    ensures Eighths(7, 8 * q + r) == 7 * q + (7 * r + 4) / 8
  {
  }

  lemma OneEighth(q: int, r: int)
    requires 0 <= r < 8
    ensures Eighths(1, 8 * q + r) == q + (r + 4) / 8
  {
  }

  /** Over a whole history of samples up to `hi` that ends in an accepted one: the average stands above `hi` exactly
      when it had come up to `hi` before, the last sample is `hi`, and `hi` is 4 modulo 8. */
  lemma {:induction false} HistoryLeavesTheRangeIff(history: seq<Measurement>, lo: int, hi: int)
    requires history != [] && Accepted(history[|history| - 1]) && WithinRange(AdjustedSamples(history), lo, hi)
    ensures var before := Smooth(history[..|history| - 1]);
            Smooth(history).smoothed > hi <==>
              hi <= before.smoothed && Adjusted(before, history[|history| - 1]) == hi && hi % 8 == 4
  {
    hide Updated; hide Adjusted;
    var before, x := history[..|history| - 1], history[|history| - 1];
    var sample := Adjusted(Smooth(before), x);
    SamplesOfPrefix(history);
    SmoothedStaysInRange(before, lo, hi);
    SmoothedStaysInRange(history, lo, hi);
    AboveOnlyAtFour(before, lo, hi);
    AcceptedUpdate(Smooth(before), x);
    if AdjustedSamples(before) != [] {
      RoundedAbove(Smooth(before).smoothed, sample, hi);
    }
  }

  lemma SamplesOfPrefix(history: seq<Measurement>)
    requires history != []
    ensures var before, x := history[..|history| - 1], history[|history| - 1];
            && AdjustedSamples(before) == AdjustedSamples(history)[..|AdjustedSamples(before)|]
            && (Accepted(x) ==> AdjustedSamples(history) != []
                                && AdjustedSamples(history)[|AdjustedSamples(history)| - 1]
                                   == Adjusted(Smooth(before), x))
  {
    hide Adjusted; hide Accepted; hide Smooth;
  }

  lemma AcceptedUpdate(r: Rtt, x: Measurement)
    requires Accepted(x)
    ensures Updated(r, x).latest == Adjusted(r, x)
    ensures Updated(r, x).smoothed
         == if r.smoothed == 0 then Adjusted(r, x) else Eighths(7, r.smoothed) + Eighths(1, Adjusted(r, x))
  {
    hide Adjusted; hide Eighths;
  }

  lemma RoundedAbove(average: int, sample: int, hi: int)
    requires 0 < sample <= hi && 0 < average <= hi + 1 && (average > hi ==> hi % 8 == 4)
    ensures Eighths(7, average) + Eighths(1, sample) > hi <==> hi <= average && sample == hi && hi % 8 == 4
  {
  }

  /** The average comes to stand above the samples only when their bound is 4 modulo 8. */
  lemma {:induction false} AboveOnlyAtFour(history: seq<Measurement>, lo: int, hi: int)
    requires WithinRange(AdjustedSamples(history), lo, hi)
    ensures AdjustedSamples(history) != [] && Smooth(history).smoothed > hi ==> hi % 8 == 4
  {
    hide Updated; hide Adjusted;
    if history != [] {
      var before, x := history[..|history| - 1], history[|history| - 1];
      SamplesOfPrefix(history);
      AboveOnlyAtFour(before, lo, hi);
      SmoothedStaysInRange(before, lo, hi);
      SmoothedStaysInRange(history, lo, hi);
      if Accepted(x) {
        AcceptedUpdate(Smooth(before), x);
        if AdjustedSamples(before) != [] {
          RoundedAbove(Smooth(before).smoothed, Adjusted(Smooth(before), x), hi);
        }
      } else {
        RejectedUpdate(Smooth(before), x);
      }
    }
  }

  lemma RejectedUpdate(r: Rtt, x: Measurement)
    requires !Accepted(x)
    ensures Updated(r, x) == r
  {
  }

  /** The smallest instance: two samples of 4 drive the average to 5. */
  lemma RoundingCarriesAboveTheRange()
    ensures var history := [Measurement(4, 0), Measurement(4, 0)];
            AdjustedSamples(history) == [4, 4] && Smooth(history).smoothed == 5
  {
    var one, two := [Measurement(4, 0)], [Measurement(4, 0), Measurement(4, 0)];
    assert two[..1] == one && one[..0] == [];
    assert Smooth([]) == NO_RTT && AdjustedSamples([]) == [];
    assert Smooth(one) == Rtt(4, 4, 4, 0);
    assert AdjustedSamples(one) == [4];
  }

  // ---------------------------------------------------------------- what the values mean

  /** The average weighs its old value seven to one against the sample; the two roundings cost less than a microsecond
      downward and at most one upward. */
  predicate SevenToOne(before: int, sample: int, average: int) {
    7 * before + sample - 6 <= 8 * average <= 7 * before + sample + 8
  }

  /** One accepted call: the first sample becomes the average, a later one is weighed in; the sample is the delay
      itself, less the peer's ack delay where that leaves no less than the minimum. */
  lemma AcceptedMeasurement(r: Rtt, x: Measurement)
    requires Accepted(x) && 0 <= r.smoothed
    ensures var t := Updated(r, x);
            && (r.smoothed == 0 ==> t.smoothed == t.latest)
            && (r.smoothed > 0 ==> SevenToOne(r.smoothed, t.latest, t.smoothed))
            && t.previous == r.smoothed
            && (t.latest == x.sendDelta || t.latest == x.sendDelta - x.ackDelay)
            && (0 <= x.ackDelay && 0 < t.minimum ==>
                  (t.latest == x.sendDelta - x.ackDelay <==> t.minimum <= x.sendDelta - x.ackDelay))
  {
  }

  /** The delays that a history's accepted calls report. */
  function Delays(history: seq<Measurement>): seq<int> {
    if history == [] then [] else
      var before, x := history[..|history| - 1], history[|history| - 1];
      Delays(before) + if Accepted(x) then [x.sendDelta] else []
  }

  /** Over every history the minimum is the least delay reported. */
  lemma {:induction false} MinimumIsTheLeastDelay(history: seq<Measurement>)
    ensures if Delays(history) == [] then Smooth(history) == NO_RTT
            else Smooth(history).minimum in Delays(history) && 0 < Smooth(history).minimum
                 && forall i :: 0 <= i < |Delays(history)| ==> Smooth(history).minimum <= Delays(history)[i]
  {
    if history != [] {
      var before, x := history[..|history| - 1], history[|history| - 1];
      MinimumIsTheLeastDelay(before);
      var all := Delays(history);
      assert all == Delays(before) + if Accepted(x) then [x.sendDelta] else [];
      assert forall i :: 0 <= i < |Delays(before)| ==> all[i] == Delays(before)[i];
      if Accepted(x) {
        assert all[|all| - 1] == x.sendDelta;
      }
    }
  }

  function Repeated(r: Rtt, x: int, n: nat): Rtt {
    if n == 0 then r else Updated(Repeated(r, x, n - 1), Measurement(x, 0))
  }

  function Power(base: nat, n: nat): nat {
    if n == 0 then 1 else base * Power(base, n - 1)
  }

  function Distance(a: int, b: int): nat {
    if a <= b then b - a else a - b
  }

  /** Repeated samples of one value draw the average to it at a pace of seven eighths, to within 8 microseconds. */
  lemma {:induction false} RepeatedSamplesDrawTheAverage(r: Rtt, x: int, n: nat)
    requires 0 < r.smoothed && 0 < x < INT64_MAX
    ensures var t := Repeated(r, x, n);
            && 0 < t.smoothed
            && Power(8, n) * (Distance(t.smoothed, x) - 8) <= Power(7, n) * (Distance(r.smoothed, x) - 8)
    decreases n
  {
    hide Updated; hide Power;
    PowerStep(n, 0, 0, 0);
    if n > 0 {
      RepeatedSamplesDrawTheAverage(r, x, n - 1);
      var s := Repeated(r, x, n - 1);
      AcceptedMeasurement(s, Measurement(x, 0));
      StaysPositive(s, x);
      PowerStep(n, Distance(Repeated(r, x, n).smoothed, x) - 8, Distance(s.smoothed, x) - 8,
          Distance(r.smoothed, x) - 8);
    }
  }

  lemma PowerStep(n: nat, e: int, d: int, first: int)
    requires 8 * e <= 7 * d
    ensures Power(8, 0) == Power(7, 0) == 1
    ensures n > 0 && Power(8, n - 1) * d <= Power(7, n - 1) * first ==> Power(8, n) * e <= Power(7, n) * first
  {
    if n > 0 && Power(8, n - 1) * d <= Power(7, n - 1) * first {
      var p, q := Power(8, n - 1), Power(7, n - 1);
      Shrinks(p, e, d);
      assert (8 * p) * e == 8 * (p * e);
      assert (7 * q) * first == 7 * (q * first);
    }
  }

  lemma StaysPositive(r: Rtt, x: int)
    requires 0 < r.smoothed && 0 < x
    ensures Updated(r, Measurement(x, 0)).smoothed > 0
  {
  }

  lemma Shrinks(p: nat, e: int, d: int)
    requires 8 * e <= 7 * d
    ensures 8 * (p * e) <= 7 * (p * d)
  {
    assert p * (8 * e) <= p * (7 * d);
  }

  /** `GetMaxRtt`: the round-trip time that loss detection works with. */
  function MaxRtt(r: Rtt): (m: int)
    ensures m >= ALARM_GRANULARITY && m >= r.previous && m >= r.latest
    ensures m == ALARM_GRANULARITY || m == r.previous || m == r.latest
  {
    Max(ALARM_GRANULARITY, Max(r.previous, r.latest))
  }

  class RttStats {
    var latestRtt: int
    var minRtt: int
    var smoothedRtt: int
    var previousSrtt: int

    function State(): Rtt
      reads this
    {
      Rtt(latestRtt, minRtt, smoothedRtt, previousSrtt)
    }

    constructor ()
      ensures State() == NO_RTT
    {
      latestRtt, minRtt, smoothedRtt, previousSrtt := 0, 0, 0, 0;
    }

    method UpdateRtt(sendDelta: int, ackDelay: int)
      modifies this
      ensures State() == Updated(old(State()), Measurement(sendDelta, ackDelay))
      ensures 0 < sendDelta != INT64_MAX && 0 < old(smoothedRtt) ==>
                SevenToOne(old(smoothedRtt), latestRtt, smoothedRtt) && previousSrtt == old(smoothedRtt)
      ensures 0 < sendDelta != INT64_MAX && old(smoothedRtt) == 0 ==> smoothedRtt == latestRtt
    {
      if sendDelta == INT64_MAX || sendDelta <= 0 {
        return;
      }
      if minRtt == 0 || minRtt > sendDelta {
        minRtt := sendDelta;
      }
      var rttSample := sendDelta;
      previousSrtt := smoothedRtt;
      if rttSample > ackDelay {
        if rttSample - minRtt >= ackDelay {
          rttSample := rttSample - ackDelay;
        }
      }
      latestRtt := rttSample;
      if smoothedRtt == 0 {
        smoothedRtt := rttSample;
      } else {
        smoothedRtt := Eighths(7, smoothedRtt) + Eighths(1, rttSample);
      }
    }
  }
}
