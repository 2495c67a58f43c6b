/** The bandwidth sampler (`BandwidthSampler`): running byte totals, a snapshot of them for
    every packet sent, and a bandwidth sample for every packet acknowledged. */
module BandwidthSampling {
  import opened Base
  import opened PacketNumberQueue
  import opened LossDetection
  import opened AckPoints
  import opened Samples

  /** `ConnectionStateOnSentPacket`. */
  datatype Snapshot = Snapshot(
    sentTime: int, size: nat, sentAtLastAcked: nat, lastAckedSentTime: int, lastAckedAckTime: int, state: SendState)

  datatype Sample = Sample(bandwidth: nat, rtt: int, state: SendState)

  const NO_SAMPLE := Sample(0, 0, NO_STATE)

  datatype Sampler = Sampler(
    totalSent: nat,
    totalAcked: nat,
    totalLost: nat,
    sentAtLastAcked: nat,
    lastAckedSentTime: int,
    lastAckedAckTime: int,
    lastSent: Option<nat>,
    appLimited: bool,
    endOfAppLimited: Option<nat>,
    queue: Indexed<Snapshot>,
    recent: RecentAckPoints,
    candidates: seq<AckPoint>,
    ackedAfterLastEvent: nat,
    overestimateAvoidance: bool)

  const NEW_SAMPLER := Sampler(0, 0, 0, 0, 0, 0, None, true, None, EmptyQueue(), NO_POINTS, [], 0, false)

  // ---------------------------------------------------------------- invariant

  /** A snapshot never runs ahead of the totals it was taken from. */
  predicate Fits(s: Sampler, x: Snapshot) {
    && x.sentAtLastAcked <= x.state.totalSent <= s.totalSent
    && x.state.totalAcked <= s.totalAcked
    && x.state.totalLost <= s.totalLost
    && x.state.isValid
  }

  ghost predicate SnapshotsFit(s: Sampler) {
    forall k: nat :: k in s.queue.items ==> Fits(s, s.queue.items[k])
  }

  ghost predicate InPacketOrder(q: Indexed<Snapshot>) {
    forall j: nat, k: nat :: j in q.items && k in q.items && j < k ==>
      q.items[j].state.totalAcked <= q.items[k].state.totalAcked
  }

  ghost predicate SamplerInv(s: Sampler) {
    && IndexedInv(s.queue)
    && SnapshotsFit(s)
    && InPacketOrder(s.queue)
    && s.sentAtLastAcked <= s.totalSent
    && s.ackedAfterLastEvent <= s.totalAcked
    && CandidatesInv(s.candidates, s.recent, s.totalAcked)
  }

  // ---------------------------------------------------------------- sending

  /** With nothing in flight, the start of this transmission stands in for an earlier ack. */
  function Reopened(s: Sampler, time: int): Sampler {
    var r := Observe(NO_POINTS, time, s.totalAcked);
    s.(lastAckedAckTime := time, sentAtLastAcked := s.totalSent, lastAckedSentTime := time,
       recent := if s.overestimateAvoidance then r else s.recent,
       candidates := if s.overestimateAvoidance then [r.newer] else s.candidates)
  }

  /** The state just before the snapshot is taken. */
  function Counted(s: Sampler, time: int, pn: nat, bytes: nat, inFlight: nat): Sampler {
    var s1 := s.(lastSent := Some(pn), totalSent := s.totalSent + bytes);
    if inFlight != 0 then s1 else Reopened(s1, time)
  }

  function TakeSnapshot(s: Sampler, time: int, bytes: nat, inFlightNow: nat): Snapshot {
    Snapshot(time, bytes, s.sentAtLastAcked, s.lastAckedSentTime, s.lastAckedAckTime,
             SendState(true, s.appLimited, s.totalSent, s.totalAcked, s.totalLost, inFlightNow))
  }

  /** `OnPacketSent`; `inFlight` is what was in flight before this packet. */
  function Sent(s: Sampler, time: int, pn: nat, bytes: nat, inFlight: nat): Sampler {
    var s1 := Counted(s, time, pn, bytes, inFlight);
    s1.(queue := Emplaced(s.queue, pn, TakeSnapshot(s1, time, bytes, inFlight + bytes)))
  }

  lemma SentKeepsInv(s: Sampler, time: int, pn: nat, bytes: nat, inFlight: nat)
    requires SamplerInv(s)
    ensures SamplerInv(Sent(s, time, pn, bytes, inFlight))
  {
    hide Observe; hide SnapshotsFit; hide InPacketOrder;
    CountedKeepsCandidates(s, time, pn, bytes, inFlight);
    SentSnapshotsFit(s, time, pn, bytes, inFlight);
    SentKeepsOrder(s, time, pn, bytes, inFlight);
    EmplacedKeepsInv(s.queue, pn, TakeSnapshot(Counted(s, time, pn, bytes, inFlight), time, bytes, inFlight + bytes));
  }

  lemma CountedKeepsCandidates(s: Sampler, time: int, pn: nat, bytes: nat, inFlight: nat)
    requires SamplerInv(s)
    ensures var s1 := Counted(s, time, pn, bytes, inFlight); CandidatesInv(s1.candidates, s1.recent, s1.totalAcked)
  {
    hide SnapshotsFit; hide InPacketOrder; hide IndexedInv;
  }

  lemma SentSnapshotsFit(s: Sampler, time: int, pn: nat, bytes: nat, inFlight: nat)
    requires SamplerInv(s)
    ensures SnapshotsFit(Sent(s, time, pn, bytes, inFlight))
  {
    hide CandidatesInv; hide InPacketOrder; hide Observe;
    var r := Sent(s, time, pn, bytes, inFlight);
    forall k: nat | k in r.queue.items
      ensures Fits(r, r.queue.items[k])
    {
      assert k in s.queue.items && r.queue.items[k] == s.queue.items[k] ==> Fits(s, s.queue.items[k]);
    }
  }

  lemma SentKeepsOrder(s: Sampler, time: int, pn: nat, bytes: nat, inFlight: nat)
    requires SamplerInv(s)
    ensures InPacketOrder(Sent(s, time, pn, bytes, inFlight).queue)
  {
    hide CandidatesInv; hide Observe;
    var r := Sent(s, time, pn, bytes, inFlight);
    forall j: nat, k: nat | j in r.queue.items && k in r.queue.items && j < k
      ensures r.queue.items[j].state.totalAcked <= r.queue.items[k].state.totalAcked
    {
      assert j in s.queue.items ==> Fits(s, s.queue.items[j]);
    }
  }

  // ---------------------------------------------------------------- losses

  function LostOne(s: Sampler, x: LostPacket): Sampler {
    s.(totalLost := s.totalLost + x.bytes)
  }

  /** The send state that a lost packet yields, invalid when it is not tracked. */
  function StateOf(s: Sampler, pn: nat): SendState {
    if pn in s.queue.items then s.queue.items[pn].state.(isValid := true) else NO_STATE
  }

  function LostBytes(lost: seq<LostPacket>): nat {
    if lost == [] then 0 else LostBytes(lost[..|lost| - 1]) + lost[|lost| - 1].bytes
  }

  /** The send state of the last tracked packet of a list of losses. */
  function LastLostState(s: Sampler, lost: seq<LostPacket>): SendState {
    if lost == [] then NO_STATE else
      var x := StateOf(s, lost[|lost| - 1].number);
      if x.isValid then x else LastLostState(s, lost[..|lost| - 1])
  }

  function LoseAll(s: Sampler, lost: seq<LostPacket>): Sampler {
    s.(totalLost := s.totalLost + LostBytes(lost))
  }

  lemma LoseAllKeepsInv(s: Sampler, lost: seq<LostPacket>)
    requires SamplerInv(s)
    ensures SamplerInv(LoseAll(s, lost))
  {
    var r := LoseAll(s, lost);
    forall k: nat | k in r.queue.items
      ensures Fits(r, r.queue.items[k])
    {
      assert Fits(s, s.queue.items[k]);
    }
  }

  // ---------------------------------------------------------------- acknowledgements

  /** The totals after one tracked packet has been acknowledged. */
  function Credited(s: Sampler, time: int, pn: nat, x: Snapshot): Sampler {
    var total := s.totalAcked + x.size;
    s.(totalAcked := total,
       sentAtLastAcked := x.state.totalSent,
       lastAckedSentTime := x.sentTime,
       lastAckedAckTime := time,
       recent := if s.overestimateAvoidance then Observe(s.recent, time, total) else s.recent,
       appLimited := s.appLimited && s.endOfAppLimited.Some? && pn <= s.endOfAppLimited.value)
  }

  /** The start point of the ack-rate slope for a packet with snapshot `x`. */
  function StartPoint(s: Sampler, x: Snapshot): AckPoint {
    if s.overestimateAvoidance && s.candidates != []
    then s.candidates[Choose(s.candidates, x.state.totalAcked)]
    else AckPoint(x.lastAckedAckTime, x.state.totalAcked)
  }

  /** The candidates left once the start point has been chosen. */
  function Pruned(s: Sampler, x: Snapshot): seq<AckPoint> {
    if x.lastAckedSentTime != 0 && s.overestimateAvoidance && s.candidates != []
    then s.candidates[Choose(s.candidates, x.state.totalAcked)..]
    else s.candidates
  }

  /** The sample of one tracked packet.  Its slopes need no check against underflow or
      division by zero beyond those made here. */
  function SampleOf(s: Sampler, time: int, x: Snapshot): (r: Sample)
    requires Fits(s, x) && StartPoint(s, x).acked <= s.totalAcked
    ensures r.state.totalAcked <= s.totalAcked
  {
    if x.lastAckedSentTime == 0 then NO_SAMPLE else
      var a0 := StartPoint(s, x);
      if time <= a0.time then NO_SAMPLE else
        var ackRate := Rate(s.totalAcked - a0.acked, time - a0.time);
        var sendRate :=
          if x.sentTime > x.lastAckedSentTime
          then Rate(x.state.totalSent - x.sentAtLastAcked, x.sentTime - x.lastAckedSentTime)
          else INT64_MAX;
        Sample(Min(sendRate, ackRate), time - x.sentTime, x.state.(isValid := true))
  }

  /** `OnPacketAcknowledgedInner`: the new state. */
  function Acknowledged(s: Sampler, time: int, pn: nat, x: Snapshot): Sampler {
    var s1 := Credited(s, time, pn, x);
    s1.(candidates := Pruned(s1, x))
  }

  lemma CreditedKeepsInv(s: Sampler, time: int, pn: nat, x: Snapshot)
    requires SamplerInv(s) && Fits(s, x)
    ensures SamplerInv(Credited(s, time, pn, x)) && Fits(Credited(s, time, pn, x), x)
    ensures StartPoint(Credited(s, time, pn, x), x).acked <= s.totalAcked + x.size
  {
    var s1 := Credited(s, time, pn, x);
    forall k: nat | k in s1.queue.items
      ensures Fits(s1, s1.queue.items[k])
    {
      assert Fits(s, s.queue.items[k]);
    }
    assert LessRecent(s.recent).acked <= LessRecent(s1.recent).acked;
    CandidatesBelowTotal(s1.candidates, s1.recent, s1.totalAcked);
  }

  lemma AcknowledgedKeepsInv(s: Sampler, time: int, pn: nat, x: Snapshot)
    requires SamplerInv(s) && Fits(s, x)
    ensures SamplerInv(Acknowledged(s, time, pn, x))
  {
    CreditedKeepsInv(s, time, pn, x);
    var s1 := Credited(s, time, pn, x);
    var r := Acknowledged(s, time, pn, x);
    forall k: nat | k in r.queue.items
      ensures Fits(r, r.queue.items[k])
    {
      assert Fits(s1, s1.queue.items[k]);
    }
  }

  /** The sampler, the event's sample so far, and the send state of the last packet that
      gave a valid sample. */
  datatype Progress = Progress(s: Sampler, sample: EventSample, last: SendState)

  function Merge(p: Progress, x: Sample, s: Sampler): Progress
    requires x.state.totalAcked <= s.totalAcked
  {
    if !x.state.isValid then p.(s := s) else
      var e1 := if x.rtt == 0 then p.sample else p.sample.(rtt := Min(p.sample.rtt, x.rtt));
      var e2 := if x.bandwidth > e1.maxBandwidth
                then e1.(maxBandwidth := x.bandwidth, appLimited := x.state.appLimited) else e1;
      var inflight := s.totalAcked - x.state.totalAcked;
      Progress(s, if inflight > e2.maxInflight then e2.(maxInflight := inflight) else e2, x.state)
  }

  /** `OnPacketAcknowledged`, folded into the event: untracked packets are skipped. */
  function AckOne(p: Progress, time: int, pn: nat): (r: Progress)
    requires SamplerInv(p.s)
    ensures SamplerInv(r.s)
  {
    if pn !in p.s.queue.items then p else
      hide SamplerInv;
      hide SampleOf;
      hide StartPoint;
      TrackedFits(p.s, pn);
      AcknowledgedKeepsInv(p.s, time, pn, p.s.queue.items[pn]);
      Merge(p, TrackedSample(p.s, time, pn), Acknowledged(p.s, time, pn, p.s.queue.items[pn]))
  }

  function TrackedSample(s: Sampler, time: int, pn: nat): (r: Sample)
    requires SamplerInv(s) && pn in s.queue.items
    ensures r.state.totalAcked <= s.totalAcked + s.queue.items[pn].size
  {
    var x := s.queue.items[pn];
    CreditedKeepsInv(s, time, pn, x);
    SampleOf(Credited(s, time, pn, x), time, x)
  }

  lemma TrackedFits(s: Sampler, pn: nat)
    requires SamplerInv(s) && pn in s.queue.items
    ensures Fits(s, s.queue.items[pn])
  {}

  function SizeAt(q: Indexed<Snapshot>, pn: nat): nat {
    if pn in q.items then q.items[pn].size else 0
  }

  /** The bytes that a list of acknowledgements adds to the total. */
  function SizeOfAcked(q: Indexed<Snapshot>, acked: seq<nat>): nat {
    if acked == [] then 0 else SizeOfAcked(q, acked[..|acked| - 1]) + SizeAt(q, acked[|acked| - 1])
  }

  function AckAll(p: Progress, time: int, acked: seq<nat>): (r: Progress)
    requires SamplerInv(p.s)
    ensures SamplerInv(r.s)
    decreases |acked|
  {
    hide SamplerInv;
    if acked == [] then p else AckOne(AckAll(p, time, acked[..|acked| - 1]), time, acked[|acked| - 1])
  }

  /** Acknowledgements leave the snapshots and the other totals alone. */
  ghost predicate OnlyCredited(s: Sampler, r: Sampler, bytes: nat) {
    && r.queue == s.queue && r.totalSent == s.totalSent && r.totalLost == s.totalLost
    && r.ackedAfterLastEvent == s.ackedAfterLastEvent
    && r.totalAcked == s.totalAcked + bytes
  }

  lemma AckOneCredits(p: Progress, time: int, pn: nat)
    requires SamplerInv(p.s)
    ensures OnlyCredited(p.s, AckOne(p, time, pn).s, SizeAt(p.s.queue, pn))
  {
    hide SamplerInv; hide SampleOf; hide StartPoint; hide TrackedSample; hide Pruned;
  }

  lemma {:induction false} AckAllCredits(p: Progress, time: int, acked: seq<nat>)
    requires SamplerInv(p.s)
    ensures OnlyCredited(p.s, AckAll(p, time, acked).s, SizeOfAcked(p.s.queue, acked))
    decreases |acked|
  {
    hide SamplerInv; hide AckOne;
    if acked != [] {
      AckAllCredits(p, time, acked[..|acked| - 1]);
      AckOneCredits(AckAll(p, time, acked[..|acked| - 1]), time, acked[|acked| - 1]);
    }
  }

  /** `rate` is at most `bytes` over `delta`, or the least rate that is not zero. */
  predicate WithinSlope(rate: nat, bytes: int, delta: int) {
    rate <= 1 || rate * delta <= 8 * bytes * 1_000_000
  }

  /** No larger rate is. */
  predicate ReachesSlope(rate: nat, bytes: int, delta: int) {
    8 * bytes * 1_000_000 < (rate + 1) * delta
  }

  lemma RateWithinSlope(bytes: nat, delta: int, rate: nat)
    requires delta > 0 && rate <= Rate(bytes, delta)
    ensures WithinSlope(rate, bytes, delta)
    ensures rate == Rate(bytes, delta) ==> ReachesSlope(rate, bytes, delta)
  {
    hide Rate;
    RateIsTheSlope(bytes, delta);
    SmallerProduct(rate, Rate(bytes, delta), delta);
  }

  lemma SmallerProduct(a: nat, b: nat, c: nat)
    requires a <= b
    ensures a * c <= b * c
  {}

  /** A sample is the smaller of two slopes: the rate at which bytes were acked since its start point, and the rate at
      which they were sent since the last ack that the packet knew of, where those two sends are apart in time. There
      is a sample exactly when the packet knew of an ack and this ack comes after the start point. */
  lemma SampleIsTheSmallerSlope(s: Sampler, time: int, x: Snapshot)
    requires Fits(s, x) && StartPoint(s, x).acked <= s.totalAcked
    ensures var r, a0 := SampleOf(s, time, x), StartPoint(s, x);
            && (r.state.isValid <==> x.lastAckedSentTime != 0 && a0.time < time)
            && (r.state.isValid ==>
                  var ackedBytes, sentBytes := s.totalAcked - a0.acked, x.state.totalSent - x.sentAtLastAcked;
                  var ackTime, sendTime := time - a0.time, x.sentTime - x.lastAckedSentTime;
                  && r.rtt == time - x.sentTime && r.state == x.state
                  && WithinSlope(r.bandwidth, ackedBytes, ackTime)
                  && (sendTime > 0 ==> WithinSlope(r.bandwidth, sentBytes, sendTime))
                  && (ReachesSlope(r.bandwidth, ackedBytes, ackTime)
                      || (sendTime > 0 && ReachesSlope(r.bandwidth, sentBytes, sendTime))
                      || (sendTime <= 0 && r.bandwidth == INT64_MAX)))
  {
    hide Rate; hide WithinSlope; hide ReachesSlope; hide StartPoint;
    var r, a0 := SampleOf(s, time, x), StartPoint(s, x);
    if r.state.isValid {
      RateWithinSlope(s.totalAcked - a0.acked, time - a0.time, r.bandwidth);
      if x.lastAckedSentTime < x.sentTime {
        RateWithinSlope(x.state.totalSent - x.sentAtLastAcked, x.sentTime - x.lastAckedSentTime, r.bandwidth);
      }
    }
  }

  /** The sample that the packet in place `i` of a list of acknowledgements gives, if it is tracked. */
  function SampleAt(p: Progress, time: int, acked: seq<nat>, i: nat): Option<Sample>
    requires SamplerInv(p.s) && i < |acked|
  {
    var s := AckAll(p, time, acked[..i]).s;
    if acked[i] in s.queue.items then Some(TrackedSample(s, time, acked[i])) else None
  }

  predicate Valid(x: Option<Sample>) {
    x.Some? && x.value.state.isValid
  }

  ghost predicate Gives(p: Progress, time: int, acked: seq<nat>, i: nat, bandwidth: nat)
    requires SamplerInv(p.s)
  {
    i < |acked| && Valid(SampleAt(p, time, acked, i)) && SampleAt(p, time, acked, i).value.bandwidth == bandwidth
  }

  /** The bytes acked between the send of the packet in place `i` and its ack, its own included. */
  ghost function InflightAt(p: Progress, time: int, acked: seq<nat>, i: nat): int
    requires SamplerInv(p.s) && i < |acked| && Valid(SampleAt(p, time, acked, i))
  {
    AckAll(p, time, acked[..i + 1]).s.totalAcked - SampleAt(p, time, acked, i).value.state.totalAcked
  }

  lemma SamplesStay(p: Progress, time: int, acked: seq<nat>, i: nat)
    requires SamplerInv(p.s) && i + 1 < |acked|
    ensures var before := acked[..|acked| - 1];
            && SampleAt(p, time, acked, i) == SampleAt(p, time, before, i)
            && (Valid(SampleAt(p, time, acked, i)) ==> InflightAt(p, time, acked, i) == InflightAt(p, time, before, i))
  {
    hide SamplerInv; hide AckAll; hide TrackedSample;
    var before := acked[..|acked| - 1];
    assert acked[..i] == before[..i] && acked[..i + 1] == before[..i + 1];
  }

  /** What a packet's sample, if it is valid, does to the event's. */
  lemma MergeTakes(p: Progress, time: int, acked: seq<nat>)
    requires SamplerInv(p.s) && acked != []
    ensures var last := |acked| - 1;
            var x := SampleAt(p, time, acked, last);
            var before, after := AckAll(p, time, acked[..last]), AckAll(p, time, acked);
            if !Valid(x) then after.sample == before.sample && after.last == before.last else
              && after.sample.maxBandwidth == Max(before.sample.maxBandwidth, x.value.bandwidth)
              && after.sample.appLimited == (if before.sample.maxBandwidth < x.value.bandwidth
                                             then x.value.state.appLimited else before.sample.appLimited)
              && after.sample.rtt == (if x.value.rtt == 0 then before.sample.rtt
                                      else Min(before.sample.rtt, x.value.rtt))
              && after.sample.maxInflight == Max(before.sample.maxInflight, InflightAt(p, time, acked, last))
              && after.last == x.value.state
  {
    hide SamplerInv; hide TrackedSample; hide Acknowledged; hide AckAll;
    var last := |acked| - 1;
    assert acked[..last + 1] == acked;
    AckAllStep(p, time, acked);
  }

  lemma AckAllStep(p: Progress, time: int, acked: seq<nat>)
    requires SamplerInv(p.s) && acked != []
    ensures AckAll(p, time, acked) == AckOne(AckAll(p, time, acked[..|acked| - 1]), time, acked[|acked| - 1])
  {
    hide SamplerInv; hide AckOne;
  }

  /** The event's bandwidth is the largest of its packets' valid samples: none is larger, and unless none exceeds what
      the event started with it is one of them.  The event is app limited if the first one as large was. */
  ghost predicate IsBestSample(p: Progress, time: int, acked: seq<nat>, best: nat, appLimited: bool)
    requires SamplerInv(p.s)
  {
    && p.sample.maxBandwidth <= best
    && (forall i: nat, b: nat :: Gives(p, time, acked, i, b) ==> b <= best)
    && ((best == p.sample.maxBandwidth && appLimited == p.sample.appLimited)
        || exists i: nat ::
             && Gives(p, time, acked, i, best)
             && appLimited == SampleAt(p, time, acked, i).value.state.appLimited
             && forall j: nat, b: nat :: j < i && Gives(p, time, acked, j, b) ==> b < best)
  }

  lemma {:induction false} EventReportsTheBestSample(p: Progress, time: int, acked: seq<nat>)
    requires SamplerInv(p.s)
    ensures var after := AckAll(p, time, acked).sample;
            IsBestSample(p, time, acked, after.maxBandwidth, after.appLimited)
    decreases |acked|
  {
    hide SamplerInv; hide SampleAt; hide AckAll;
    if acked == [] {
      NothingAcked(p, time);
    } else {
      var last := |acked| - 1;
      var before := acked[..last];
      EventReportsTheBestSample(p, time, before);
      MergeTakes(p, time, acked);
      forall i: nat | i < last
        ensures SampleAt(p, time, acked, i) == SampleAt(p, time, before, i)
        ensures forall b: nat :: Gives(p, time, acked, i, b) <==> Gives(p, time, before, i, b)
      {
        SamplesStay(p, time, acked, i);
      }
      var earlier, best := AckAll(p, time, before).sample.maxBandwidth, AckAll(p, time, acked).sample.maxBandwidth;
      if earlier < best {
        assert Gives(p, time, acked, last, best);
      }
    }
  }

  lemma NothingAcked(p: Progress, time: int)
    requires SamplerInv(p.s)
    ensures AckAll(p, time, []) == p
  {
  }

  /** Some packet of the event has a valid sample with this round trip, which is not zero. */
  ghost predicate GivesTrip(p: Progress, time: int, acked: seq<nat>, i: nat, rtt: int)
    requires SamplerInv(p.s)
  {
    i < |acked| && Valid(SampleAt(p, time, acked, i)) && SampleAt(p, time, acked, i).value.rtt == rtt && rtt != 0
  }

  ghost predicate GivesInflight(p: Progress, time: int, acked: seq<nat>, i: nat, bytes: int)
    requires SamplerInv(p.s)
  {
    i < |acked| && Valid(SampleAt(p, time, acked, i)) && InflightAt(p, time, acked, i) == bytes
  }

  /** The event's round trip is the least of those of its packets' valid samples, zeros apart. */
  ghost predicate IsLeastRtt(p: Progress, time: int, acked: seq<nat>, least: int)
    requires SamplerInv(p.s)
  {
    && least <= p.sample.rtt
    && (forall i: nat, t: int :: GivesTrip(p, time, acked, i, t) ==> least <= t)
    && (least == p.sample.rtt || exists i: nat :: GivesTrip(p, time, acked, i, least))
  }

  lemma {:induction false} EventReportsTheLeastRtt(p: Progress, time: int, acked: seq<nat>)
    requires SamplerInv(p.s)
    ensures IsLeastRtt(p, time, acked, AckAll(p, time, acked).sample.rtt)
    decreases |acked|
  {
    hide SamplerInv; hide SampleAt; hide AckAll;
    if acked == [] {
      NothingAcked(p, time);
    } else {
      var last := |acked| - 1;
      var before := acked[..last];
      EventReportsTheLeastRtt(p, time, before);
      MergeTakes(p, time, acked);
      forall i: nat, t: int | i < last
        ensures GivesTrip(p, time, acked, i, t) <==> GivesTrip(p, time, before, i, t)
      {
        SamplesStay(p, time, acked, i);
      }
      var earlier, least := AckAll(p, time, before).sample.rtt, AckAll(p, time, acked).sample.rtt;
      if least < earlier {
        assert GivesTrip(p, time, acked, last, least);
      }
    }
  }

  /** The event's inflight is the most that was acked between the send and the ack of one of its packets. */
  ghost predicate IsMostInflight(p: Progress, time: int, acked: seq<nat>, most: nat)
    requires SamplerInv(p.s)
  {
    && p.sample.maxInflight <= most
    && (forall i: nat, b: int :: GivesInflight(p, time, acked, i, b) ==> b <= most)
    && (most == p.sample.maxInflight || exists i: nat :: GivesInflight(p, time, acked, i, most))
  }

  lemma {:induction false} EventReportsTheMostInflight(p: Progress, time: int, acked: seq<nat>)
    requires SamplerInv(p.s)
    ensures IsMostInflight(p, time, acked, AckAll(p, time, acked).sample.maxInflight)
    decreases |acked|
  {
    hide SamplerInv; hide SampleAt; hide AckAll; hide InflightAt;
    if acked == [] {
      NothingAcked(p, time);
    } else {
      var last := |acked| - 1;
      var before := acked[..last];
      EventReportsTheMostInflight(p, time, before);
      MergeTakes(p, time, acked);
      forall i: nat, b: int | i < last
        ensures GivesInflight(p, time, acked, i, b) <==> GivesInflight(p, time, before, i, b)
      {
        SamplesStay(p, time, acked, i);
      }
      var earlier, most := AckAll(p, time, before).sample.maxInflight, AckAll(p, time, acked).sample.maxInflight;
      if earlier < most {
        assert GivesInflight(p, time, acked, last, most);
      }
    }
  }

  /** The send state that goes with the acks is that of the last valid sample. */
  ghost predicate IsLastState(p: Progress, time: int, acked: seq<nat>, state: SendState)
    requires SamplerInv(p.s)
  {
    || (state == p.last && forall j: nat :: j < |acked| ==> !Valid(SampleAt(p, time, acked, j)))
    || exists i: nat ::
         && i < |acked| && Valid(SampleAt(p, time, acked, i)) && SampleAt(p, time, acked, i).value.state == state
         && forall j: nat :: i < j < |acked| ==> !Valid(SampleAt(p, time, acked, j))
  }

  lemma {:induction false} EventReportsTheLastState(p: Progress, time: int, acked: seq<nat>)
    requires SamplerInv(p.s)
    ensures IsLastState(p, time, acked, AckAll(p, time, acked).last)
    decreases |acked|
  {
    hide SamplerInv; hide SampleAt; hide AckAll;
    if acked == [] {
      NothingAcked(p, time);
    } else {
      var last := |acked| - 1;
      EventReportsTheLastState(p, time, acked[..last]);
      MergeTakes(p, time, acked);
      forall i: nat | i < last
        ensures SampleAt(p, time, acked, i) == SampleAt(p, time, acked[..last], i)
      {
        SamplesStay(p, time, acked, i);
      }
      if Valid(SampleAt(p, time, acked, last)) {
        assert SampleAt(p, time, acked, last).value.state == AckAll(p, time, acked).last;
      }
    }
  }

  // ---------------------------------------------------------------- the congestion event

  /** `OnAckEventEnd`; `height` is what the ack-height tracker would report. */
  function ExtraAcked(s: Sampler, height: nat): nat {
    if s.totalAcked == s.ackedAfterLastEvent then 0 else height
  }

  function EventEnded(s: Sampler, height: nat): Sampler {
    if s.totalAcked == s.ackedAfterLastEvent then s else
      s.(ackedAfterLastEvent := s.totalAcked,
         candidates := if s.overestimateAvoidance && height == 0
                       then s.candidates + [LessRecent(s.recent)] else s.candidates)
  }

  lemma EventEndedKeepsInv(s: Sampler, height: nat)
    requires SamplerInv(s)
    ensures SamplerInv(EventEnded(s, height))
  {
    var r := EventEnded(s, height);
    forall k: nat | k in r.queue.items
      ensures Fits(r, r.queue.items[k])
    {
      assert Fits(s, s.queue.items[k]);
    }
  }

  /** The send state of the largest packet of the event. */
  function LastState(lostState: SendState, ackedState: SendState, lost: seq<LostPacket>, acked: seq<nat>): SendState {
    if !lostState.isValid || lost == [] then ackedState
    else if !ackedState.isValid || acked == [] then lostState
    else if lost[|lost| - 1].number > acked[|acked| - 1] then lostState else ackedState
  }

  function EventOutcome(s: Sampler, time: int, acked: seq<nat>, lost: seq<LostPacket>, height: nat)
      : (Sampler, EventSample)
    requires SamplerInv(s)
  {
    var s1 := LoseAll(s, lost);
    var lostState := LastLostState(s, lost);
    LoseAllKeepsInv(s, lost);
    if acked == [] then (s1, NO_EVENT_SAMPLE.(last := lostState)) else
      var p := AckAll(Progress(s1, NO_EVENT_SAMPLE, NO_STATE), time, acked);
      (EventEnded(p.s, height),
       p.sample.(last := LastState(lostState, p.last, lost, acked), extraAcked := ExtraAcked(p.s, height)))
  }

  /** The send state of the losses is that of the last one still tracked. */
  ghost predicate IsLastLost(s: Sampler, lost: seq<LostPacket>, state: SendState) {
    || (state == NO_STATE && forall j: nat :: j < |lost| ==> lost[j].number !in s.queue.items)
    || exists i: nat ::
         && i < |lost| && lost[i].number in s.queue.items && state == s.queue.items[lost[i].number].state
         && forall j: nat :: i < j < |lost| ==> lost[j].number !in s.queue.items
  }

  lemma {:induction false} LastLostStateIs(s: Sampler, lost: seq<LostPacket>)
    requires SnapshotsFit(s)
    ensures IsLastLost(s, lost, LastLostState(s, lost))
    decreases |lost|
  {
    if lost != [] {
      var last := lost[|lost| - 1];
      if last.number in s.queue.items {
        assert Fits(s, s.queue.items[last.number]);
      } else {
        LastLostStateIs(s, lost[..|lost| - 1]);
      }
    }
  }

  /** Of the two, the one that exists; of both, the one of the larger packet. */
  predicate IsNewer(x: SendState, lostState: SendState, ackedState: SendState, lost: seq<LostPacket>, acked: seq<nat>) {
    && (!lostState.isValid ==> x == ackedState)
    && (lostState.isValid && !ackedState.isValid ==> x == lostState)
    && (lostState.isValid && ackedState.isValid && lost != [] && acked != [] ==>
          x == if acked[|acked| - 1] < lost[|lost| - 1].number then lostState else ackedState)
  }

  /** The report of an event. */
  ghost predicate Reports(s: Sampler, time: int, acked: seq<nat>, lost: seq<LostPacket>, height: nat, r: EventSample)
    requires SamplerInv(s)
  {
    LoseAllKeepsInv(s, lost);
    var p := Progress(LoseAll(s, lost), EventSample(0, false, INT64_MAX, 0, NO_STATE, 0), NO_STATE);
    && IsBestSample(p, time, acked, r.maxBandwidth, r.appLimited)
    && IsLeastRtt(p, time, acked, r.rtt)
    && IsMostInflight(p, time, acked, r.maxInflight)
    && (exists lostState, ackedState ::
          && IsLastLost(s, lost, lostState) && IsLastState(p, time, acked, ackedState)
          && IsNewer(r.last, lostState, ackedState, lost, acked))
    && r.extraAcked
       == if s.totalAcked + SizeOfAcked(s.queue, acked) > s.ackedAfterLastEvent && acked != [] then height else 0
  }

  lemma EventReports(s: Sampler, time: int, acked: seq<nat>, lost: seq<LostPacket>, height: nat)
    requires SamplerInv(s)
    ensures Reports(s, time, acked, lost, height, EventOutcome(s, time, acked, lost, height).1)
  {
    hide SamplerInv; hide AckAll; hide LastLostState; hide LoseAll;
    hide IsBestSample; hide IsLeastRtt; hide IsMostInflight; hide IsLastState; hide IsLastLost;
    LoseAllKeepsInv(s, lost);
    var p := Progress(LoseAll(s, lost), NO_EVENT_SAMPLE, NO_STATE);
    EventReportsTheBestSample(p, time, acked);
    EventReportsTheLeastRtt(p, time, acked);
    EventReportsTheMostInflight(p, time, acked);
    EventReportsTheLastState(p, time, acked);
    InvFits(s);
    LastLostStateIs(s, lost);
    AckAllCredits(p, time, acked);
    LosingKeeps(s, lost);
    if acked == [] {
      NothingAcked(p, time);
    }
  }

  lemma InvFits(s: Sampler)
    requires SamplerInv(s)
    ensures SnapshotsFit(s) && s.ackedAfterLastEvent <= s.totalAcked
  {
  }

  lemma LosingKeeps(s: Sampler, lost: seq<LostPacket>)
    ensures var r := LoseAll(s, lost);
            r.queue == s.queue && r.totalAcked == s.totalAcked && r.ackedAfterLastEvent == s.ackedAfterLastEvent
  {
  }

  /** What one congestion event does to the totals and to the snapshots. */
  lemma EventKeepsInv(s: Sampler, time: int, acked: seq<nat>, lost: seq<LostPacket>, height: nat)
    requires SamplerInv(s)
    ensures var r := EventOutcome(s, time, acked, lost, height).0;
            && SamplerInv(r) && r.queue == s.queue && r.totalSent == s.totalSent
            && r.totalLost == s.totalLost + LostBytes(lost)
            && r.totalAcked == s.totalAcked + SizeOfAcked(s.queue, acked)
  {
    hide SamplerInv; hide AckAll; hide LostBytes; hide LessRecent;
    LoseAllKeepsInv(s, lost);
    if acked != [] {
      var start := Progress(LoseAll(s, lost), NO_EVENT_SAMPLE, NO_STATE);
      AckAllCredits(start, time, acked);
      EventEndedKeepsInv(AckAll(start, time, acked).s, height);
    }
  }

  function Forgotten(s: Sampler, leastUnacked: nat): Sampler {
    s.(queue := RemovedUpTo(s.queue, leastUnacked))
  }

  lemma ForgottenKeepsInv(s: Sampler, leastUnacked: nat)
    requires SamplerInv(s)
    ensures SamplerInv(Forgotten(s, leastUnacked))
    ensures forall k: nat :: k in Forgotten(s, leastUnacked).queue.items <==> k in s.queue.items && leastUnacked <= k
    ensures forall k: nat :: k in s.queue.items && leastUnacked <= k ==>
              Forgotten(s, leastUnacked).queue.items[k] == s.queue.items[k]
  {
    var r := Forgotten(s, leastUnacked);
    forall k: nat | k in r.queue.items
      ensures Fits(r, r.queue.items[k])
    {
      assert Fits(s, s.queue.items[k]);
    }
  }

  function AppLimitedNow(s: Sampler): Sampler {
    s.(appLimited := true, endOfAppLimited := s.lastSent)
  }

  lemma AppLimitedKeepsInv(s: Sampler)
    requires SamplerInv(s)
    ensures SamplerInv(AppLimitedNow(s))
  {
    assert forall k: nat :: k in s.queue.items ==> Fits(s, s.queue.items[k]);
  }

  lemma AvoidanceKeepsInv(s: Sampler)
    requires SamplerInv(s)
    ensures SamplerInv(s.(overestimateAvoidance := true))
  {
    assert forall k: nat :: k in s.queue.items ==> Fits(s, s.queue.items[k]);
  }

  // ---------------------------------------------------------------- the object

  class BandwidthSampler {
    var totalBytesSent: nat
    var totalBytesAcked: nat
    var totalBytesLost: nat
    var totalBytesSentAtLastAckedPacket: nat
    var lastAckedPacketSentTime: int
    var lastAckedPacketAckTime: int
    var lastSentPacket: Option<nat>
    var isAppLimited: bool
    var endOfAppLimitedPhase: Option<nat>
    /** The queue of snapshots, by its meaning (see `PacketNumberIndexedQueue`). */
    var connectionStateMap: Indexed<Snapshot>
    var recentAckPoints: RecentAckPoints
    var a0Candidates: seq<AckPoint>
    var totalBytesAckedAfterLastAckEvent: nat
    var overestimateAvoidance: bool

    function State(): Sampler
      reads this
    {
      Sampler(totalBytesSent, totalBytesAcked, totalBytesLost, totalBytesSentAtLastAckedPacket,
              lastAckedPacketSentTime, lastAckedPacketAckTime, lastSentPacket, isAppLimited, endOfAppLimitedPhase,
              connectionStateMap, recentAckPoints, a0Candidates, totalBytesAckedAfterLastAckEvent,
              overestimateAvoidance)
    }

    constructor ()
      ensures State() == NEW_SAMPLER && !overestimateAvoidance && isAppLimited
    {
      totalBytesSent, totalBytesAcked, totalBytesLost, totalBytesSentAtLastAckedPacket := 0, 0, 0, 0;
      lastAckedPacketSentTime, lastAckedPacketAckTime, lastSentPacket := 0, 0, None;
      isAppLimited, endOfAppLimitedPhase := true, None;
      connectionStateMap := EmptyQueue();
      recentAckPoints, a0Candidates := NO_POINTS, [];
      totalBytesAckedAfterLastAckEvent, overestimateAvoidance := 0, false;
    }

    method EnableOverestimateAvoidance()
      requires SamplerInv(State())
      modifies this`overestimateAvoidance
      ensures SamplerInv(State()) && State() == old(State()).(overestimateAvoidance := true)
    {
      hide SamplerInv;
      AvoidanceKeepsInv(State());
      overestimateAvoidance := true;
    }

    method Reopen(sentTime: int)
      modifies this`lastAckedPacketAckTime, this`recentAckPoints, this`a0Candidates,
               this`totalBytesSentAtLastAckedPacket, this`lastAckedPacketSentTime
      ensures State() == Reopened(old(State()), sentTime)
    {
      lastAckedPacketAckTime := sentTime;
      if overestimateAvoidance {
        recentAckPoints := NO_POINTS;
        recentAckPoints := Observe(recentAckPoints, sentTime, totalBytesAcked);
        a0Candidates := [];
        a0Candidates := a0Candidates + [recentAckPoints.newer];
      }
      totalBytesSentAtLastAckedPacket := totalBytesSent;
      lastAckedPacketSentTime := sentTime;
    }

    method OnPacketSent(sentTime: int, packetNumber: nat, bytes: nat, bytesInFlight: nat)
      requires SamplerInv(State())
      modifies this
      ensures SamplerInv(State()) && State() == Sent(old(State()), sentTime, packetNumber, bytes, bytesInFlight)
    {
      hide SamplerInv;
      SentKeepsInv(State(), sentTime, packetNumber, bytes, bytesInFlight);
      lastSentPacket := Some(packetNumber);
      totalBytesSent := totalBytesSent + bytes;
      if bytesInFlight == 0 {
        Reopen(sentTime);
      }
      assert State() == Counted(old(State()), sentTime, packetNumber, bytes, bytesInFlight);
      var snapshot := TakeSnapshot(State(), sentTime, bytes, bytesInFlight + bytes);
      connectionStateMap := Emplaced(connectionStateMap, packetNumber, snapshot);
    }

    method OnPacketLost(lost: LostPacket) returns (state: SendState)
      modifies this`totalBytesLost
      ensures State() == LostOne(old(State()), lost)
      ensures state == StateOf(old(State()), lost.number)
    {
      state := NO_STATE;
      totalBytesLost := totalBytesLost + lost.bytes;
      var sentPacket := Lookup(connectionStateMap, lost.number);
      if sentPacket.Some? {
        state := sentPacket.value.state.(isValid := true);
      }
    }

    /** Chooses the start point and prunes the candidates before it. */
    method ChooseA0Point(key: nat) returns (a0: Option<AckPoint>)
      modifies this`a0Candidates
      ensures old(a0Candidates) == [] ==> a0 == None && a0Candidates == []
      ensures old(a0Candidates) != [] ==>
                var k := Choose(old(a0Candidates), key);
                a0 == Some(old(a0Candidates)[k]) && a0Candidates == old(a0Candidates)[k..]
    {
      if a0Candidates == [] {
        return None;
      }
      if |a0Candidates| == 1 {
        return Some(a0Candidates[0]);
      }
      for i := 1 to |a0Candidates|
        invariant a0Candidates == old(a0Candidates)
        invariant Choose(a0Candidates, key) == ChooseFrom(a0Candidates, key, i)
      {
        if a0Candidates[i].acked > key {
          a0 := Some(a0Candidates[i - 1]);
          if i > 1 {
            a0Candidates := a0Candidates[i - 1..];
          }
          return;
        }
      }
      a0 := Some(a0Candidates[|a0Candidates| - 1]);
      a0Candidates := a0Candidates[|a0Candidates| - 1..];
    }

    /** Adds an acknowledged packet to the totals. */
    method Credit(ackTime: int, packetNumber: nat, x: Snapshot)
      requires SamplerInv(State()) && Fits(State(), x)
      modifies this`totalBytesAcked, this`totalBytesSentAtLastAckedPacket, this`lastAckedPacketSentTime,
               this`lastAckedPacketAckTime, this`recentAckPoints, this`isAppLimited
      ensures State() == Credited(old(State()), ackTime, packetNumber, x)
      ensures totalBytesAcked == old(totalBytesAcked) + x.size && totalBytesSentAtLastAckedPacket == x.state.totalSent
      ensures lastAckedPacketSentTime == x.sentTime && lastAckedPacketAckTime == ackTime
      ensures SamplerInv(State()) && Fits(State(), x) && StartPoint(State(), x).acked <= totalBytesAcked
    {
      hide Observe; hide SamplerInv; hide Fits; hide StartPoint;
      CreditedKeepsInv(State(), ackTime, packetNumber, x);
      totalBytesAcked := totalBytesAcked + x.size;
      totalBytesSentAtLastAckedPacket := x.state.totalSent;
      lastAckedPacketSentTime := x.sentTime;
      lastAckedPacketAckTime := ackTime;
      if overestimateAvoidance {
        recentAckPoints := Observe(recentAckPoints, ackTime, totalBytesAcked);
      }
      MaybeExitAppLimited(packetNumber);
    }

    method MaybeExitAppLimited(packetNumber: nat)
      modifies this`isAppLimited
      ensures isAppLimited
              == (old(isAppLimited) && endOfAppLimitedPhase.Some? && packetNumber <= endOfAppLimitedPhase.value)
    {
      if isAppLimited {
        if endOfAppLimitedPhase.None? || packetNumber > endOfAppLimitedPhase.value {
          isAppLimited := false;
        }
      }
    }

    /** The slopes of the send and the ack curve up to the packet just credited. */
    method MakeSample(ackTime: int, x: Snapshot) returns (sample: Sample)
      requires Fits(State(), x) && StartPoint(State(), x).acked <= totalBytesAcked
      modifies this`a0Candidates
      ensures State() == old(State()).(candidates := Pruned(old(State()), x))
      ensures sample == SampleOf(old(State()), ackTime, x)
    {
      if x.lastAckedSentTime == 0 {
        return NO_SAMPLE;
      }
      var sendRate := INT64_MAX;
      if x.sentTime > x.lastAckedSentTime {
        sendRate := Rate(x.state.totalSent - x.sentAtLastAcked, x.sentTime - x.lastAckedSentTime);
      }
      var a0 := AckPoint(x.lastAckedAckTime, x.state.totalAcked);
      if overestimateAvoidance {
        var chosen := ChooseA0Point(x.state.totalAcked);
        if chosen.Some? {
          a0 := chosen.value;
        }
      }
      if ackTime <= a0.time {
        return NO_SAMPLE;
      }
      var ackRate := Rate(totalBytesAcked - a0.acked, ackTime - a0.time);
      sample := Sample(Min(sendRate, ackRate), ackTime - x.sentTime, x.state.(isValid := true));
    }

    /** `OnPacketAcknowledged`, with its inner part: untracked packets give no sample. */
    method OnPacketAcknowledged(ackTime: int, packetNumber: nat, ghost p: Progress) returns (sample: Sample)
      requires SamplerInv(State()) && p.s == State()
      modifies this
      ensures SamplerInv(State())
      ensures sample.state.totalAcked <= totalBytesAcked
      ensures Merge(p, sample, State()) == AckOne(p, ackTime, packetNumber)
    {
      if packetNumber !in connectionStateMap.items {
        return NO_SAMPLE;
      }
      var x := connectionStateMap.items[packetNumber];
      assert Fits(State(), x);
      AcknowledgedKeepsInv(State(), ackTime, packetNumber, x);
      Credit(ackTime, packetNumber, x);
      sample := MakeSample(ackTime, x);
    }

    method OnCongestionEvent(ackTime: int, ackedPackets: seq<nat>, lostPackets: seq<LostPacket>, height: nat)
      returns (eventSample: EventSample)
      requires SamplerInv(State())
      modifies this
      ensures (State(), eventSample) == EventOutcome(old(State()), ackTime, ackedPackets, lostPackets, height)
      ensures Reports(old(State()), ackTime, ackedPackets, lostPackets, height, eventSample)
      ensures SamplerInv(State())
    {
      hide Reports;
      EventReports(State(), ackTime, ackedPackets, lostPackets, height);
      EventKeepsInv(State(), ackTime, ackedPackets, lostPackets, height);
      var lastLostState := LoseEach(lostPackets);
      LoseAllKeepsInv(old(State()), lostPackets);
      if ackedPackets == [] {
        return NO_EVENT_SAMPLE.(last := lastLostState);
      }
      var lastAckedState;
      eventSample, lastAckedState := AckEach(ackTime, ackedPackets);
      eventSample := eventSample.(last := LastState(lastLostState, lastAckedState, lostPackets, ackedPackets));
      var extra := OnAckEventEnd(height);
      eventSample := eventSample.(extraAcked := extra);
    }

    method LoseEach(lostPackets: seq<LostPacket>) returns (last: SendState)
      modifies this`totalBytesLost
      ensures State() == LoseAll(old(State()), lostPackets)
      ensures last == LastLostState(old(State()), lostPackets)
    {
      last := NO_STATE;
      for i := 0 to |lostPackets|
        invariant State() == LoseAll(old(State()), lostPackets[..i])
        invariant last == LastLostState(old(State()), lostPackets[..i])
      {
        assert lostPackets[..i + 1][..i] == lostPackets[..i];
        var state := OnPacketLost(lostPackets[i]);
        if state.isValid {
          last := state;
        }
      }
      assert lostPackets[..|lostPackets|] == lostPackets;
    }

    method AckEach(ackTime: int, ackedPackets: seq<nat>) returns (sample: EventSample, last: SendState)
      requires SamplerInv(State())
      modifies this
      ensures Progress(State(), sample, last)
           == AckAll(Progress(old(State()), NO_EVENT_SAMPLE, NO_STATE), ackTime, ackedPackets)
    {
      hide SamplerInv; hide AckOne; hide Merge;
      sample, last := NO_EVENT_SAMPLE, NO_STATE;
      ghost var start := Progress(State(), sample, last);
      for i := 0 to |ackedPackets|
        invariant Progress(State(), sample, last) == AckAll(start, ackTime, ackedPackets[..i])
      {
        assert ackedPackets[..i + 1][..i] == ackedPackets[..i];
        ghost var p := Progress(State(), sample, last);
        var x := OnPacketAcknowledged(ackTime, ackedPackets[i], p);
        sample, last := MergeSample(sample, last, x, p.s);
      }
      assert ackedPackets[..|ackedPackets|] == ackedPackets;
    }

    /** Takes one packet's sample into the event's. */
    method MergeSample(sample: EventSample, last: SendState, x: Sample, ghost before: Sampler)
      returns (newSample: EventSample, newLast: SendState)
      requires x.state.totalAcked <= totalBytesAcked
      ensures Progress(State(), newSample, newLast) == Merge(Progress(before, sample, last), x, State())
    {
      newSample, newLast := sample, last;
      if x.state.isValid {
        newLast := x.state;
        if x.rtt != 0 {
          newSample := newSample.(rtt := Min(newSample.rtt, x.rtt));
        }
        if x.bandwidth > newSample.maxBandwidth {
          newSample := newSample.(maxBandwidth := x.bandwidth, appLimited := x.state.appLimited);
        }
        var inflightSample := totalBytesAcked - newLast.totalAcked;
        if inflightSample > newSample.maxInflight {
          newSample := newSample.(maxInflight := inflightSample);
        }
      }
    }

    method OnAckEventEnd(height: nat) returns (extraAcked: nat)
      requires totalBytesAckedAfterLastAckEvent <= totalBytesAcked
      modifies this
      ensures State() == EventEnded(old(State()), height) && extraAcked == ExtraAcked(old(State()), height)
    {
      var newlyAckedBytes := totalBytesAcked - totalBytesAckedAfterLastAckEvent;
      if newlyAckedBytes == 0 {
        return 0;
      }
      totalBytesAckedAfterLastAckEvent := totalBytesAcked;
      extraAcked := height;
      if overestimateAvoidance && extraAcked == 0 {
        a0Candidates := a0Candidates + [LessRecent(recentAckPoints)];
      }
    }

    method OnAppLimited()
      requires SamplerInv(State())
      modifies this
      ensures SamplerInv(State()) && State() == AppLimitedNow(old(State()))
    {
      hide SamplerInv;
      AppLimitedKeepsInv(State());
      isAppLimited := true;
      endOfAppLimitedPhase := lastSentPacket;
    }

    method RemoveObsoletePackets(leastUnacked: nat)
      requires SamplerInv(State())
      modifies this`connectionStateMap
      ensures SamplerInv(State()) && State() == Forgotten(old(State()), leastUnacked)
      ensures forall k: nat :: k in connectionStateMap.items <==>
                k in old(connectionStateMap).items && leastUnacked <= k
    {
      hide SamplerInv;
      ForgottenKeepsInv(State(), leastUnacked);
      connectionStateMap := RemovedUpTo(connectionStateMap, leastUnacked);
    }
  }
}
