/** The send, ack and loss engine as a state machine: `QuicSentPacketManager` with its packet
    map, its loss detection, its round-trip estimator and the sampler of its congestion
    controller.  Four things happen to it: a packet is sent, an ack frame arrives, the loss
    alarm fires, the retransmission timer fires.

    Loss detection is described here by the plain scan; that the real algorithm computes the
    same is the contract of `GeneralLossAlgorithm.DetectLosses`. */
module SendEngine {
  import opened Base
  import opened RttEstimation
  import opened UnackedPackets
  import opened LossDetection
  import opened PacketNumberQueue
  import opened Samples
  import opened BandwidthSampling

  /** `timeout` is the loss alarm, zero when it is not set.  The last three components are
      history: the latest event time, the bytes given up by retransmission timeouts, and the
      bytes of acks that named a packet no longer in flight. */
  datatype Engine = Engine(
    packets: PacketMap,
    rtt: Rtt,
    timeout: int,
    leastInFlight: Option<nat>,
    sampler: Sampler,
    largestNewlyAcked: Option<nat>,
    clock: int,
    abandoned: nat,
    duplicate: nat)

  const START := Engine(EMPTY_MAP, NO_RTT, 0, Some(1), NEW_SAMPLER, None, 0, 0, 0)

  /** `height` is the ack-height tracker's answer, which the model leaves open.  An ack frame
      names the largest packet it acknowledges, used for the round-trip sample, and the list
      of packets. */
  datatype Event =
    | Send(time: int, number: nat, bytes: nat)
    | Ack(time: int, largest: nat, acked: seq<nat>, height: nat)
    | Timeout(time: int, height: nat)

  /** What the callers owe: a clock that is positive and does not run backwards, packet
      numbers that increase, and acks in ascending order that name packets still recorded. */
  ghost predicate Enabled(e: Engine, ev: Event) {
    e.clock <= ev.time && 0 < ev.time &&
    match ev
    case Send(_, pn, _) => e.packets.Next() <= pn
    case Ack(_, _, acked, _) =>
      AllIn(e.packets, acked) && Ascending(acked) && (acked == [] ==> e.largestNewlyAcked.Some?)
    case Timeout(_, _) => true
  }

  // ---------------------------------------------------------------- invariant

  ghost predicate TimingInv(m: PacketMap, clock: int) {
    && 0 <= clock
    && (forall pn: nat :: m.Has(pn) ==> 0 <= m.At(pn).sentTime <= clock)
    && (forall pn: nat :: m.InFlight(pn) ==> 0 < m.At(pn).sentTime)
    && SentInOrder(m)
  }

  function Delay(r: Rtt): int {
    LossDelay(MaxRtt(r), REORDERING_SHIFT)
  }

  /** Nothing below the cached starting point is in flight, and a loss alarm belongs to a
      packet that is in flight, was passed by an ack, and is due at that time. */
  ghost predicate LossInv(e: Engine) {
    && (e.largestNewlyAcked.Some? ==> e.largestNewlyAcked.value < e.packets.Next() && e.packets.largestSent.Some?)
    && e.leastInFlight.Some?
    && e.leastInFlight.value <= e.packets.Next()
    && (forall pn: nat :: pn < e.leastInFlight.value ==> !e.packets.InFlight(pn))
    && (e.timeout != 0 ==>
          && e.largestNewlyAcked.Some?
          && e.packets.InFlight(e.leastInFlight.value)
          && e.leastInFlight.value <= e.largestNewlyAcked.value
          && e.timeout == e.packets.At(e.leastInFlight.value).sentTime + Delay(e.rtt))
  }

  /** Every packet that is recorded and was really sent has a snapshot of its own size. */
  ghost predicate TrackingInv(m: PacketMap, q: Indexed<Snapshot>) {
    && (q.mark.Some? ==> q.mark.value < m.Next())
    && (forall pn: nat :: m.Has(pn) ==>
          if m.At(pn).sentTime == 0 then m.At(pn).bytes == 0 && pn !in q.items
          else pn in q.items && q.items[pn].size == m.At(pn).bytes)
  }

  /** Every byte sent is acked, lost, in flight or given up by a timeout; the only excess is
      what duplicate acks added. */
  ghost predicate Conserved(e: Engine) {
    e.sampler.totalSent + e.duplicate
      == e.sampler.totalAcked + e.sampler.totalLost + e.packets.bytesInFlight + e.abandoned
  }

  ghost predicate Balanced(x: SendState) {
    x.bytesInFlight == x.totalSent - x.totalAcked - x.totalLost
  }

  ghost predicate SnapshotsInv(e: Engine) {
    e.abandoned == 0 && e.duplicate == 0 ==>
      forall k: nat :: k in e.sampler.queue.items ==> Balanced(e.sampler.queue.items[k].state)
  }

  ghost predicate Parts(e: Engine) {
    && MapInv(e.packets)
    && SamplerInv(e.sampler)
    && TimingInv(e.packets, e.clock)
    && LossInv(e)
    && TrackingInv(e.packets, e.sampler.queue)
  }

  ghost predicate Inv(e: Engine) {
    Parts(e) && Conserved(e) && SnapshotsInv(e)
  }

  // ---------------------------------------------------------------- steps

  function Sending(e: Engine, time: int, pn: nat, bytes: nat): Engine
    requires e.packets.Next() <= pn && e.packets.bytesInFlight >= 0
  {
    e.(sampler := Sent(e.sampler, time, pn, bytes, e.packets.bytesInFlight),
       packets := AddSent(e.packets, pn, time, bytes),
       clock := time)
  }

  /** `MaybeUpdateRTT`: whether the named packet gives a round-trip sample. */
  predicate GivesRtt(e: Engine, largest: nat) {
    IsUnacked(e.packets, largest) && e.packets.At(largest).sentTime != 0
  }

  function RttAfter(e: Engine, largest: nat, time: int): Rtt {
    if GivesRtt(e, largest)
    then Updated(e.rtt, Measurement(time - e.packets.At(largest).sentTime, 0)) else e.rtt
  }

  /** The ack frame up to loss detection: round-trip sample, then every packet handled. */
  function Acking(e: Engine, time: int, largest: nat, acked: seq<nat>): Engine
    requires AllIn(e.packets, acked)
  {
    e.(rtt := RttAfter(e, largest, time),
       packets := SettleAll(e.packets, acked, Acked),
       largestNewlyAcked := if acked == [] then e.largestNewlyAcked else Some(acked[|acked| - 1]),
       duplicate := e.duplicate + LandedSizeOf(e.packets, acked),
       clock := time)
  }

  function CriteriaAt(e: Engine, time: int): Criteria
    requires e.largestNewlyAcked.Some?
  {
    Criteria(e.largestNewlyAcked.value, time, Delay(e.rtt), REORDERING_THRESHOLD)
  }

  function LossesAt(e: Engine, time: int): (lost: seq<LostPacket>)
    requires e.largestNewlyAcked.Some?
    ensures AllIn(e.packets, Numbers(lost)) && Ascending(Numbers(lost))
    ensures forall i :: 0 <= i < |lost| ==> Genuine(e.packets, lost[i], CriteriaAt(e, time))
  {
    var d := Detect(e.packets, CriteriaAt(e, time));
    LostFromIsSound(e.packets, e.packets.least, CriteriaAt(e, time));
    assert forall i :: 0 <= i < |d.lost| ==> Genuine(e.packets, d.lost[i], CriteriaAt(e, time));
    d.lost
  }

  /** `InvokeLossDetection`. */
  function Detecting(e: Engine, time: int): Engine
    requires e.largestNewlyAcked.Some?
  {
    var d := Detect(e.packets, CriteriaAt(e, time));
    e.(timeout := d.timeout,
       leastInFlight := Some(d.leastInFlight),
       packets := SettleAll(e.packets, Numbers(LossesAt(e, time)), NeverSent),
       clock := time)
  }

  /** `MaybeInvokeCongestionEvent`: the sampler learns of acks and losses and forgets what the
      map had forgotten before, then the map forgets what has become useless. */
  function Finishing(e: Engine, time: int, rttUpdated: bool, acked: seq<nat>, lost: seq<LostPacket>,
      height: nat): Engine
    requires SamplerInv(e.sampler)
  {
    if !rttUpdated && acked == [] && lost == [] then e else
      e.(sampler := Forgotten(EventOutcome(e.sampler, time, acked, lost, height).0, e.packets.least),
         packets := DropObsolete(e.packets))
  }

  /** `PostProcessNewlyAckedPackets`. */
  function PostProcessing(e: Engine, time: int, rttUpdated: bool, acked: seq<nat>, height: nat): Engine
    requires SamplerInv(e.sampler) && e.largestNewlyAcked.Some?
  {
    Finishing(Detecting(e, time), time, rttUpdated, acked, LossesAt(e, time), height)
  }

  function AckStep(e: Engine, time: int, largest: nat, acked: seq<nat>, height: nat): Engine
    requires SamplerInv(e.sampler) && AllIn(e.packets, acked)
    requires acked == [] ==> e.largestNewlyAcked.Some?
  {
    PostProcessing(Acking(e, time, largest, acked), time, GivesRtt(e, largest), acked, height)
  }

  /** The loss alarm. */
  function AlarmStep(e: Engine, time: int, height: nat): Engine
    requires SamplerInv(e.sampler) && e.largestNewlyAcked.Some?
  {
    PostProcessing(e, time, false, [], height)
  }

  /** Marks every outstanding packet numbered `pn` or above as never sent. */
  function AbandonFrom(m: PacketMap, pn: nat): PacketMap
    requires m.least <= pn
    decreases m.Next() - pn
  {
    if m.Next() <= pn then m
    else AbandonFrom(if m.At(pn).state == Outstanding then Settle(m, pn, NeverSent) else m, pn + 1)
  }

  /** `RetransmitRtoPackets`. */
  function RtoStep(e: Engine, time: int): Engine
    requires e.packets.bytesInFlight >= 0
  {
    e.(packets := DropObsolete(AbandonFrom(e.packets, e.packets.least)),
       abandoned := e.abandoned + e.packets.bytesInFlight,
       clock := time)
  }

  /** One event.  A timeout is a loss alarm exactly when one is set. */
  function Step(e: Engine, ev: Event): Engine
    requires Inv(e) && Enabled(e, ev)
  {
    match ev
    case Send(time, pn, bytes) => Sending(e, time, pn, bytes)
    case Ack(time, largest, acked, height) => AckStep(e, time, largest, acked, height)
    case Timeout(time, height) => if e.timeout != 0 then AlarmStep(e, time, height) else RtoStep(e, time)
  }

  // ---------------------------------------------------------------- sending keeps the invariant

  lemma AddSentAt(m: PacketMap, pn: nat, time: int, bytes: nat)
    requires m.Next() <= pn
    ensures var r := AddSent(m, pn, time, bytes);
            && r.Next() == pn + 1
            && (forall q: nat :: r.Has(q) ==>
                  r.At(q) == if q == pn then Info(time, bytes, true, Outstanding) else if m.Has(q) then m.At(q)
                      else GAP)
            && (forall q: nat :: r.InFlight(q) <==> m.InFlight(q) || q == pn)
  {}

  lemma SendingKeepsTiming(m: PacketMap, clock: int, pn: nat, time: int, bytes: nat)
    requires TimingInv(m, clock) && m.Next() <= pn && clock <= time && 0 < time
    ensures TimingInv(AddSent(m, pn, time, bytes), time)
  {
    AddSentAt(m, pn, time, bytes);
  }

  lemma SendingKeepsTracking(m: PacketMap, q: Indexed<Snapshot>, pn: nat, time: int, bytes: nat, x: Snapshot)
    requires TrackingInv(m, q) && IndexedInv(q) && m.Next() <= pn && 0 < time && x.size == bytes
    ensures TrackingInv(AddSent(m, pn, time, bytes), Emplaced(q, pn, x))
    ensures CanEmplace(q, pn)
  {
    AddSentAt(m, pn, time, bytes);
  }

  lemma SendingKeepsLossInv(e: Engine, time: int, pn: nat, bytes: nat)
    requires LossInv(e) && e.packets.Next() <= pn && e.packets.bytesInFlight >= 0
    ensures LossInv(Sending(e, time, pn, bytes))
  {
    hide Sent;
    AddSentAt(e.packets, pn, time, bytes);
  }

  lemma SendingKeepsParts(e: Engine, time: int, pn: nat, bytes: nat)
    requires Parts(e) && Enabled(e, Send(time, pn, bytes))
    ensures Parts(Sending(e, time, pn, bytes))
    ensures CanEmplace(e.sampler.queue, pn)
  {
    hide SamplerInv; hide TimingInv; hide TrackingInv; hide LossInv; hide AddSent; hide Counted; hide BytesOf;
    hide CountOf;
    AddSentKeepsInv(e.packets, pn, time, bytes);
    SentKeepsInv(e.sampler, time, pn, bytes, e.packets.bytesInFlight);
    SendingKeepsTiming(e.packets, e.clock, pn, time, bytes);
    SendingKeepsLossInv(e, time, pn, bytes);
    SamplerQueueInv(e.sampler);
    var s1 := Counted(e.sampler, time, pn, bytes, e.packets.bytesInFlight);
    SendingKeepsTracking(e.packets, e.sampler.queue, pn, time, bytes,
                         TakeSnapshot(s1, time, bytes, e.packets.bytesInFlight + bytes));
  }

  lemma SendingKeepsInv(e: Engine, time: int, pn: nat, bytes: nat)
    requires Inv(e) && Enabled(e, Send(time, pn, bytes))
    ensures Inv(Sending(e, time, pn, bytes))
  {
    hide Parts;
    SendingKeepsParts(e, time, pn, bytes);
  }

  // ---------------------------------------------------------------- settling packets

  lemma SettleAllAt(m: PacketMap, pns: seq<nat>, state: PacketState)
    requires AllIn(m, pns)
    ensures var r := SettleAll(m, pns, state);
            && (forall q: nat :: m.Has(q) ==>
                  r.At(q) == if q in pns then m.At(q).(inFlight := false, state := state) else m.At(q))
            && (forall q: nat :: r.InFlight(q) <==> m.InFlight(q) && q !in pns)
  {
    forall q: nat | m.Has(q)
      ensures SettleAll(m, pns, state).At(q)
           == if q in pns then m.At(q).(inFlight := false, state := state) else m.At(q)
    {
      SettleAllChanges(m, pns, state, q);
    }
  }

  lemma SettlingKeeps(m: PacketMap, pns: seq<nat>, state: PacketState, q: Indexed<Snapshot>, clock: int, time: int)
    requires AllIn(m, pns) && TimingInv(m, clock) && TrackingInv(m, q) && clock <= time
    ensures TimingInv(SettleAll(m, pns, state), time)
    ensures TrackingInv(SettleAll(m, pns, state), q)
  {
    hide SettleAll; hide Settle;
    SettleAllAt(m, pns, state);
  }

  /** The sampler credits exactly the bytes that the map records for the acked packets. */
  lemma {:induction false} CreditMatchesMap(m: PacketMap, q: Indexed<Snapshot>, acked: seq<nat>)
    requires TrackingInv(m, q) && AllIn(m, acked)
    ensures SizeOfAcked(q, acked) == SizeOf(m, acked)
    decreases |acked|
  {
    if acked != [] {
      CreditMatchesMap(m, q, acked[..|acked| - 1]);
      assert m.Has(acked[|acked| - 1]);
    }
  }

  /** Lost packets are in flight, so their bytes all leave the total. */
  lemma {:induction false} LostBytesMatchMap(m: PacketMap, lost: seq<LostPacket>, c: Criteria)
    requires forall i :: 0 <= i < |lost| ==> Genuine(m, lost[i], c)
    requires AllIn(m, Numbers(lost))
    ensures LostBytes(lost) == FlyingSizeOf(m, Numbers(lost))
    decreases |lost|
  {
    if lost != [] {
      var last := |lost| - 1;
      assert Numbers(lost)[..last] == Numbers(lost[..last]);
      LostBytesMatchMap(m, lost[..last], c);
      assert Genuine(m, lost[last], c);
    }
  }

  // ---------------------------------------------------------------- loss detection inside a step

  /** The state in which loss detection is invoked. */
  ghost predicate MidInv(e: Engine) {
    && MapInv(e.packets)
    && SamplerInv(e.sampler)
    && TimingInv(e.packets, e.clock)
    && TrackingInv(e.packets, e.sampler.queue)
    && e.largestNewlyAcked.Some? && e.largestNewlyAcked.value < e.packets.Next() && e.packets.largestSent.Some?
    && e.leastInFlight.Some? && e.leastInFlight.value <= e.packets.Next()
    && (forall pn: nat :: pn < e.leastInFlight.value ==> !e.packets.InFlight(pn))
  }

  /** Detection goes by the thresholds, with the longest of a millisecond, the average before the latest round trip,
      and the latest round trip. */
  ghost predicate DetectsRightly(e: Engine, time: int)
    requires e.largestNewlyAcked.Some?
  {
    forall rtt: int :: LargestOf(rtt, 1000, e.rtt.previous, e.rtt.latest) ==>
      ByTheThresholds(e.packets, rtt, e.largestNewlyAcked.value, time, LossesAt(e, time), Detecting(e, time).timeout)
  }

  /** In every such state the report of the scan is exact and the alarm is the earliest
      deadline left. */
  lemma DetectionIsExact(e: Engine, time: int)
    requires MidInv(e)
    ensures LossesExact(e.packets, CriteriaAt(e, time), LossesAt(e, time))
    ensures AlarmExact(e.packets, CriteriaAt(e, time), Detect(e.packets, CriteriaAt(e, time)))
    ensures DetectsRightly(e, time)
  {
    DetectsByTheThresholds(e.packets, MaxRtt(e.rtt), e.largestNewlyAcked.value, time);
    assert Delay(e.rtt) > 0;
    DetectReports(e.packets, CriteriaAt(e, time));
  }

  lemma AckingGivesMid(e: Engine, time: int, largest: nat, acked: seq<nat>)
    requires Inv(e) && e.clock <= time && AllIn(e.packets, acked) && Ascending(acked)
    requires acked == [] ==> e.largestNewlyAcked.Some?
    ensures MidInv(Acking(e, time, largest, acked))
    ensures forall i :: 0 <= i < |acked| ==> !Acking(e, time, largest, acked).packets.InFlight(acked[i])
    ensures Acking(e, time, largest, acked).packets.bytesInFlight
            == e.packets.bytesInFlight - FlyingSizeOf(e.packets, acked)
  {
    hide SamplerInv; hide TimingInv; hide TrackingInv; hide SettleAll; hide BytesOf; hide CountOf; hide FlyingSizeOf;
    hide RttAfter;
    SettleAllKeepsInv(e.packets, acked, Acked);
    SettleAllBytes(e.packets, acked, Acked);
    SettlingKeeps(e.packets, acked, Acked, e.sampler.queue, e.clock, time);
    SettleAllAt(e.packets, acked, Acked);
    if acked != [] {
      assert e.packets.Has(acked[|acked| - 1]);
    }
  }

  lemma AlarmGivesMid(e: Engine)
    requires Inv(e) && e.timeout != 0
    ensures MidInv(e)
  {}

  lemma DetectingKeepsLossInv(e: Engine, time: int)
    requires MidInv(e) && e.clock <= time
    ensures LossInv(Detecting(e, time))
  {
    var c, lost := CriteriaAt(e, time), LossesAt(e, time);
    var d, r := Detect(e.packets, c), Detecting(e, time);
    DetectionIsExact(e, time);
    SettleAllAt(e.packets, Numbers(lost), NeverSent);
    forall pn: nat | pn < d.leastInFlight
      ensures !r.packets.InFlight(pn)
    {
      if e.packets.InFlight(pn) {
        assert Candidate(e.packets, pn, c);
        assert IsLost(e.packets, pn, c) || Survives(e.packets, pn, c);
      }
    }
    assert forall i :: 0 <= i < |lost| ==> Genuine(e.packets, lost[i], c) && IsLost(e.packets, Numbers(lost)[i], c);
  }

  lemma DetectingKeepsRest(e: Engine, time: int)
    requires MidInv(e) && e.clock <= time
    ensures var r := Detecting(e, time);
            && MapInv(r.packets) && TimingInv(r.packets, r.clock) && TrackingInv(r.packets, r.sampler.queue)
            && r.packets.bytesInFlight == e.packets.bytesInFlight - LostBytes(LossesAt(e, time))
            && r.packets.packetsInFlight <= e.packets.packetsInFlight
            && (LossesAt(e, time) != [] ==> r.packets.packetsInFlight < e.packets.packetsInFlight)
  {
    var c, lost := CriteriaAt(e, time), LossesAt(e, time);
    SettleAllKeepsInv(e.packets, Numbers(lost), NeverSent);
    SettlingKeeps(e.packets, Numbers(lost), NeverSent, e.sampler.queue, e.clock, time);
    SettleAllBytes(e.packets, Numbers(lost), NeverSent);
    LostBytesMatchMap(e.packets, lost, c);
    if lost != [] {
      assert Genuine(e.packets, lost[0], c);
      assert e.packets.InFlight(Numbers(lost)[0]);
    }
  }

  // ---------------------------------------------------------------- the congestion event

  lemma DroppingKeepsLossInv(e: Engine, r: Engine)
    requires MapInv(e.packets) && LossInv(e)
    requires r.packets == DropObsolete(e.packets) && r.timeout == e.timeout && r.leastInFlight == e.leastInFlight
    requires r.largestNewlyAcked == e.largestNewlyAcked && r.rtt == e.rtt
    ensures LossInv(r)
  {
    DropObsoleteKeepsInv(e.packets);
  }

  lemma DroppingKeepsRest(m: PacketMap, q: Indexed<Snapshot>, clock: int)
    requires MapInv(m) && TimingInv(m, clock) && TrackingInv(m, q) && IndexedInv(q)
    ensures TimingInv(DropObsolete(m), clock)
    ensures TrackingInv(DropObsolete(m), RemovedUpTo(q, m.least))
  {
    DropObsoleteKeepsInv(m);
  }

  /** The snapshots of `r` are among those of `s`. */
  ghost predicate SnapshotsKept(s: Sampler, r: Sampler) {
    forall k: nat :: k in r.queue.items ==> k in s.queue.items && r.queue.items[k] == s.queue.items[k]
  }

  /** The totals have moved by exactly the acked and the lost bytes. */
  ghost predicate Moved(e: Engine, r: Engine, acked: seq<nat>, lost: seq<LostPacket>) {
    && r.packets.bytesInFlight == e.packets.bytesInFlight - LostBytes(lost)
    && r.packets.packetsInFlight <= e.packets.packetsInFlight
    && (lost != [] ==> r.packets.packetsInFlight < e.packets.packetsInFlight)
    && r.sampler.totalSent == e.sampler.totalSent
    && r.sampler.totalAcked == e.sampler.totalAcked + SizeOfAcked(e.sampler.queue, acked)
    && r.sampler.totalLost == e.sampler.totalLost + LostBytes(lost)
    && SnapshotsKept(e.sampler, r.sampler)
    && r.abandoned == e.abandoned && r.duplicate == e.duplicate
  }

  lemma SamplerAfterEvent(s: Sampler, time: int, acked: seq<nat>, lost: seq<LostPacket>, height: nat, least: nat)
    requires SamplerInv(s)
    ensures var r := Forgotten(EventOutcome(s, time, acked, lost, height).0, least);
            && SamplerInv(r) && SnapshotsKept(s, r) && r.queue == RemovedUpTo(s.queue, least)
            && r.totalSent == s.totalSent
            && r.totalAcked == s.totalAcked + SizeOfAcked(s.queue, acked)
            && r.totalLost == s.totalLost + LostBytes(lost)
  {
    hide EventOutcome; hide SnapshotsFit; hide InPacketOrder;
    EventKeepsInv(s, time, acked, lost, height);
    ForgottenKeepsInv(EventOutcome(s, time, acked, lost, height).0, least);
  }

  /** After the event the front entry is in flight or nothing is recorded. */
  lemma FinishingKeeps(e: Engine, time: int, rttUpdated: bool, acked: seq<nat>, lost: seq<LostPacket>, height: nat)
    requires Parts(e)
    ensures var r := Finishing(e, time, rttUpdated, acked, lost, height);
            && Parts(r)
            && r.packets.bytesInFlight == e.packets.bytesInFlight
               && r.packets.packetsInFlight == e.packets.packetsInFlight
            && r.sampler.totalSent == e.sampler.totalSent && SnapshotsKept(e.sampler, r.sampler)
            && r.sampler.totalAcked == e.sampler.totalAcked + SizeOfAcked(e.sampler.queue, acked)
            && r.sampler.totalLost == e.sampler.totalLost + LostBytes(lost)
            && r.abandoned == e.abandoned && r.duplicate == e.duplicate
            && (rttUpdated || acked != [] || lost != [] ==> r.packets.entries == [] || r.packets.entries[0].inFlight)
  {
    hide MapInv; hide SamplerInv; hide TimingInv; hide LossInv; hide TrackingInv; hide EventOutcome; hide DropObsolete;
    var r := Finishing(e, time, rttUpdated, acked, lost, height);
    SamplerQueueInv(e.sampler);
    if rttUpdated || acked != [] || lost != [] {
      SamplerAfterEvent(e.sampler, time, acked, lost, height, e.packets.least);
      DropObsoleteKeepsInv(e.packets);
      DropObsoleteTotals(e.packets);
      DroppingKeepsRest(e.packets, e.sampler.queue, e.clock);
      DroppingKeepsLossInv(e, r);
    }
  }

  lemma SamplerQueueInv(s: Sampler)
    requires SamplerInv(s)
    ensures IndexedInv(s.queue)
  {}

  lemma DropObsoleteTotals(m: PacketMap)
    ensures DropObsolete(m).bytesInFlight == m.bytesInFlight && DropObsolete(m).packetsInFlight == m.packetsInFlight
  {}

  /** Loss detection followed by the congestion event. */
  lemma PostProcessingKeeps(e: Engine, time: int, rttUpdated: bool, acked: seq<nat>, height: nat)
    requires MidInv(e) && e.clock <= time
    ensures SamplerInv(e.sampler)
    ensures Parts(PostProcessing(e, time, rttUpdated, acked, height))
    ensures Moved(e, PostProcessing(e, time, rttUpdated, acked, height), acked, LossesAt(e, time))
  {
    hide MapInv; hide SamplerInv; hide TimingInv; hide LossInv; hide TrackingInv; hide Finishing; hide LossesAt;
    hide SettleAll;
    hide LostFrom; hide SurvivorFrom;
    DetectingKeepsLossInv(e, time);
    DetectingKeepsRest(e, time);
    FinishingKeeps(Detecting(e, time), time, rttUpdated, acked, LossesAt(e, time), height);
  }

  // ---------------------------------------------------------------- whole steps

  /** The totals after an ack frame, in terms of the state before it. */
  ghost predicate AckTotals(e: Engine, r: Engine, acked: seq<nat>, lost: seq<LostPacket>)
    requires AllIn(e.packets, acked)
  {
    && r.sampler.totalSent == e.sampler.totalSent
    && r.sampler.totalAcked == e.sampler.totalAcked + FlyingSizeOf(e.packets, acked) + LandedSizeOf(e.packets, acked)
    && r.sampler.totalLost == e.sampler.totalLost + LostBytes(lost)
    && r.packets.bytesInFlight == e.packets.bytesInFlight - FlyingSizeOf(e.packets, acked) - LostBytes(lost)
    && r.abandoned == e.abandoned && r.duplicate == e.duplicate + LandedSizeOf(e.packets, acked)
    && SnapshotsKept(e.sampler, r.sampler)
  }

  lemma AckStepTotals(e: Engine, time: int, largest: nat, acked: seq<nat>, height: nat)
    requires Inv(e) && Enabled(e, Ack(time, largest, acked, height))
    ensures SamplerInv(e.sampler)
    ensures var r := AckStep(e, time, largest, acked, height);
            Parts(r) && AckTotals(e, r, acked, LossesAt(Acking(e, time, largest, acked), time))
  {
    hide MapInv; hide SamplerInv; hide TimingInv; hide LossInv; hide MidInv; hide SettleAll; hide LossesAt;
    hide PostProcessing;
    hide FlyingSizeOf; hide LandedSizeOf; hide SizeOf; hide SizeOfAcked; hide TrackingInv; hide Ascending;
    AckingGivesMid(e, time, largest, acked);
    PostProcessingKeeps(Acking(e, time, largest, acked), time, GivesRtt(e, largest), acked, height);
    CreditMatchesMap(e.packets, e.sampler.queue, acked);
    SizesSplit(e.packets, acked);
  }

  lemma AckStepKeepsInv(e: Engine, time: int, largest: nat, acked: seq<nat>, height: nat)
    requires Inv(e) && Enabled(e, Ack(time, largest, acked, height))
    ensures Inv(AckStep(e, time, largest, acked, height))
  {
    hide Parts; hide AckStep; hide Acking; hide LossesAt; hide FlyingSizeOf; hide LandedSizeOf;
    AckStepTotals(e, time, largest, acked, height);
  }

  lemma AlarmStepKeepsInv(e: Engine, time: int, height: nat)
    requires Inv(e) && Enabled(e, Timeout(time, height)) && e.timeout != 0
    ensures e.largestNewlyAcked.Some? && SamplerInv(e.sampler)
    ensures Inv(AlarmStep(e, time, height))
    ensures Moved(e, AlarmStep(e, time, height), [], LossesAt(e, time))
  {
    hide MapInv; hide TimingInv; hide SamplerInv; hide TrackingInv; hide MidInv; hide LossesAt; hide PostProcessing;
    AlarmGivesMid(e);
    PostProcessingKeeps(e, time, false, [], height);
  }

  lemma {:induction false} AbandonFromLandsAll(m: PacketMap, pn: nat)
    requires MapInv(m) && m.least <= pn && forall q: nat :: q < pn ==> !m.InFlight(q)
    ensures var r := AbandonFrom(m, pn);
            && MapInv(r) && r.least == m.least && |r.entries| == |m.entries| && r.largestSent == m.largestSent
            && forall q: nat :: !r.InFlight(q)
    decreases m.Next() - pn
  {
    if pn < m.Next() {
      var next := if m.At(pn).state == Outstanding then Settle(m, pn, NeverSent) else m;
      if m.At(pn).state == Outstanding {
        SettleKeepsInv(m, pn, NeverSent);
      }
      assert !next.InFlight(pn);
      forall q: nat | q < pn + 1
        ensures !next.InFlight(q)
      {
        assert q < pn ==> !m.InFlight(q);
      }
      AbandonFromLandsAll(next, pn + 1);
    }
  }

  lemma NothingInFlightNothingKept(m: PacketMap)
    requires MapInv(m) && forall q: nat :: !m.InFlight(q)
    ensures DropObsolete(m).entries == [] && DropObsolete(m).least == m.Next() && MapInv(DropObsolete(m))
    ensures DropObsolete(m).bytesInFlight == 0 && DropObsolete(m).packetsInFlight == 0
  {
    DropObsoleteKeepsInv(m);
    forall i | 0 <= i < |m.entries|
      ensures Useless(m.entries[i])
    {
      assert !m.InFlight(m.least + i);
    }
  }

  /** After a retransmission timeout nothing is recorded and the next packet to be recorded is
      the one after the largest sent. */
  lemma RtoEmptiesTheMap(e: Engine, time: int)
    requires MapInv(e.packets)
    ensures var m := RtoStep(e, time).packets;
            && m.entries == [] && m.bytesInFlight == 0 && m.packetsInFlight == 0 && MapInv(m)
            && m.largestSent == e.packets.largestSent
            && m.least == e.packets.Next()
            && m.least == if m.largestSent.Some? then m.largestSent.value + 1 else 1
  {
    AbandonFromLandsAll(e.packets, e.packets.least);
    NothingInFlightNothingKept(AbandonFrom(e.packets, e.packets.least));
  }

  lemma RtoStepKeepsInv(e: Engine, time: int)
    requires Inv(e) && e.clock <= time && e.timeout == 0
    ensures Inv(RtoStep(e, time))
  {
    hide AbandonFrom; hide DropObsolete; hide SamplerInv; hide BytesOf; hide CountOf;
    RtoEmptiesTheMap(e, time);
  }

  lemma StepKeepsInv(e: Engine, ev: Event)
    requires Inv(e) && Enabled(e, ev)
    ensures Inv(Step(e, ev))
  {
    hide Inv; hide Sending; hide AckStep; hide AlarmStep; hide RtoStep;
    match ev
    case Send(time, pn, bytes) => SendingKeepsInv(e, time, pn, bytes);
    case Ack(time, largest, acked, height) => AckStepKeepsInv(e, time, largest, acked, height);
    case Timeout(time, height) =>
      if e.timeout != 0 {
        AlarmStepKeepsInv(e, time, height);
      } else {
        RtoStepKeepsInv(e, time);
      }
  }

  // ---------------------------------------------------------------- runs

  /** The events can happen one after the other from state `e`. */
  ghost predicate Possible(e: Engine, events: seq<Event>)
    requires Inv(e)
    decreases |events|
  {
    events == [] ||
    (Enabled(e, events[0]) && (StepKeepsInv(e, events[0]); Possible(Step(e, events[0]), events[1..])))
  }

  ghost function Run(e: Engine, events: seq<Event>): Engine
    requires Inv(e) && Possible(e, events)
    decreases |events|
  {
    if events == [] then e else
      StepKeepsInv(e, events[0]);
      Run(Step(e, events[0]), events[1..])
  }

  lemma {:induction false} RunKeepsInv(e: Engine, events: seq<Event>)
    requires Inv(e) && Possible(e, events)
    ensures Inv(Run(e, events))
    decreases |events|
  {
    hide Inv; hide Step; hide Enabled;
    if events != [] {
      StepKeepsInv(e, events[0]);
      RunKeepsInv(Step(e, events[0]), events[1..]);
    }
  }

  lemma StartInv()
    ensures Inv(START)
  {}

  /** Where every run begins. */
  ghost function Start(): (e: Engine)
    ensures Inv(e)
  {
    StartInv();
    START
  }

  /** In every state of every run: an entry is in flight exactly when it is outstanding, no packet below the cached
      starting point is in flight, a loss alarm belongs to a packet in flight that an ack has passed, and unless
      timeouts or duplicate acks have occurred every snapshot still held has the in-flight figure that its own totals
      give. */
  lemma EveryStateIsSound(events: seq<Event>)
    ensures Possible(Start(), events) ==>
              var e := Run(Start(), events);
              && (forall pn: nat :: e.packets.Has(pn) ==>
                 (e.packets.InFlight(pn) <==> e.packets.At(pn).state == Outstanding))
              && e.leastInFlight.Some?
              && (forall pn: nat :: pn < e.leastInFlight.value ==> !e.packets.InFlight(pn))
              && (e.timeout != 0 ==> e.packets.InFlight(e.leastInFlight.value) && e.largestNewlyAcked.Some?
                                     && e.leastInFlight.value <= e.largestNewlyAcked.value)
              && (e.abandoned == 0 && e.duplicate == 0 ==>
                    forall k: nat :: k in e.sampler.queue.items ==> Balanced(e.sampler.queue.items[k].state))
  {
    hide Start; hide Possible; hide Run; hide SamplerInv; hide TimingInv; hide TrackingInv; hide BytesOf; hide CountOf;
    if Possible(Start(), events) {
      RunKeepsInv(Start(), events);
    }
  }

  /** Byte conservation in every run: all bytes sent are acked, lost, in flight or given up,
      and the books balance exactly when no ack named a packet that was not in flight. */
  lemma BytesAreConserved(events: seq<Event>)
    ensures Possible(Start(), events) ==>
              var e := Run(Start(), events);
              var accounted := e.sampler.totalAcked + e.sampler.totalLost + e.packets.bytesInFlight + e.abandoned;
              && accounted == e.sampler.totalSent + e.duplicate
              && (e.sampler.totalSent == accounted <==> e.duplicate == 0)
              && 0 <= e.packets.bytesInFlight == BytesOf(e.packets.entries)
              && e.packets.packetsInFlight == CountOf(e.packets.entries)
  {
    hide Start; hide Possible; hide Run; hide SamplerInv; hide TimingInv; hide TrackingInv; hide LossInv;
    if Possible(Start(), events) {
      RunKeepsInv(Start(), events);
    }
  }

  /** What a send records about itself: its in-flight figure is what was sent less what was
      acked or lost exactly when timeouts and duplicate acks have cancelled out. */
  lemma SnapshotTakenAtSend(e: Engine, time: int, pn: nat, bytes: nat)
    requires Inv(e) && Enabled(e, Send(time, pn, bytes))
    ensures var r := Sending(e, time, pn, bytes);
            && pn in r.sampler.queue.items
            && (var x := r.sampler.queue.items[pn].state;
                && x.bytesInFlight == r.packets.bytesInFlight
                && (Balanced(x) <==> e.abandoned == e.duplicate))
  {}

  /** The saturating branch is avoided exactly when the duplicates of this frame do not exceed
      what is left in flight, and the congestion controller's figure is the map's figure
      exactly when there are no duplicates or nothing is left. */
  lemma SaturationNeedsDuplicates(e: Engine, time: int, largest: nat, acked: seq<nat>, height: nat)
    requires Inv(e) && Enabled(e, Ack(time, largest, acked, height))
    ensures var r := AckStep(e, time, largest, acked, height);
            var ackedBytes := r.sampler.totalAcked - e.sampler.totalAcked;
            var lostBytes := r.sampler.totalLost - e.sampler.totalLost;
            var duplicates := LandedSizeOf(e.packets, acked);
            && ackedBytes >= 0 && lostBytes >= 0
            && (e.packets.bytesInFlight >= ackedBytes + lostBytes <==> duplicates <= r.packets.bytesInFlight)
            && (InFlightAfterEvent(e.packets.bytesInFlight, ackedBytes, lostBytes) == r.packets.bytesInFlight
                <==> duplicates == 0 || r.packets.bytesInFlight == 0)
  {
    hide Acking; hide AckStep; hide LossesAt; hide SamplerInv; hide FlyingSizeOf; hide LandedSizeOf; hide TimingInv;
    hide LossInv; hide TrackingInv; hide Inv;
    AckStepTotals(e, time, largest, acked, height);
    AckStepKeepsInv(e, time, largest, acked, height);
    BytesNotNegative(e);
    BytesNotNegative(AckStep(e, time, largest, acked, height));
  }

  /** On a loss alarm the saturating branch is never taken, and the figure is always the map's. */
  lemma NoSaturationOnAlarms(e: Engine, time: int, height: nat)
    requires Inv(e) && Enabled(e, Timeout(time, height)) && e.timeout != 0
    ensures e.largestNewlyAcked.Some? && SamplerInv(e.sampler)
    ensures var r := AlarmStep(e, time, height);
            var lostBytes := r.sampler.totalLost - e.sampler.totalLost;
            && r.sampler.totalAcked == e.sampler.totalAcked
            && 0 <= lostBytes <= e.packets.bytesInFlight
            && InFlightAfterEvent(e.packets.bytesInFlight, 0, lostBytes) == r.packets.bytesInFlight
  {
    hide Parts; hide AlarmStep; hide LossesAt;
    AlarmStepKeepsInv(e, time, height);
    BytesNotNegative(e);
    BytesNotNegative(AlarmStep(e, time, height));
  }

  lemma BytesNotNegative(e: Engine)
    requires Inv(e)
    ensures e.packets.bytesInFlight >= 0 && e.packets.packetsInFlight >= 0
  {}

  /** In every run, loss detection after an ack frame reports exactly the packets in flight at
      or below the largest newly acked that meet a threshold, and arms the alarm for the
      earliest deadline among the others. */
  lemma EveryAckDetectsExactly(events: seq<Event>, time: int, largest: nat, acked: seq<nat>, height: nat)
    ensures Possible(Start(), events) && Enabled(Run(Start(), events), Ack(time, largest, acked, height)) ==>
              var e1 := Acking(Run(Start(), events), time, largest, acked);
              var c := CriteriaAt(e1, time);
              && LossesExact(e1.packets, c, LossesAt(e1, time))
              && AlarmExact(e1.packets, c, Detect(e1.packets, c))
              && DetectsRightly(e1, time)
  {
    hide Start; hide Possible; hide Run; hide Inv; hide MidInv; hide LossesExact; hide AlarmExact; hide DetectsRightly;
    hide Detect;
    hide LossesAt; hide SettleAll;
    if Possible(Start(), events) && Enabled(Run(Start(), events), Ack(time, largest, acked, height)) {
      RunKeepsInv(Start(), events);
      AckingGivesMid(Run(Start(), events), time, largest, acked);
      DetectionIsExact(Acking(Run(Start(), events), time, largest, acked), time);
    }
  }

  /** So does loss detection when the alarm fires, at whatever time. */
  lemma EveryAlarmDetectsExactly(events: seq<Event>, time: int)
    ensures Possible(Start(), events) && Run(Start(), events).timeout != 0 ==>
              var e := Run(Start(), events);
              && e.largestNewlyAcked.Some?
              && LossesExact(e.packets, CriteriaAt(e, time), LossesAt(e, time))
              && AlarmExact(e.packets, CriteriaAt(e, time), Detect(e.packets, CriteriaAt(e, time)))
              && DetectsRightly(e, time)
  {
    hide Start; hide Possible; hide Run; hide LossesExact; hide AlarmExact; hide DetectsRightly; hide Detect;
    hide LossesAt; hide Parts;
    if Possible(Start(), events) && Run(Start(), events).timeout != 0 {
      RunKeepsInv(Start(), events);
      AlarmGivesMid(Run(Start(), events));
      DetectionIsExact(Run(Start(), events), time);
    }
  }

  // ---------------------------------------------------------------- the loss alarm

  /** "At least one packet should be lost when the alarm fires": an alarm that fires at or
      after its time loses the very packet it was set for, so fewer packets are in flight. */
  lemma AlarmMakesProgress(e: Engine, time: int, height: nat)
    requires Inv(e) && Enabled(e, Timeout(time, height)) && e.timeout != 0 && e.timeout <= time
    ensures e.packets.InFlight(e.leastInFlight.value)
    ensures e.leastInFlight.value in Numbers(LossesAt(e, time))
    ensures 0 <= Step(e, Timeout(time, height)).packets.packetsInFlight < e.packets.packetsInFlight
  {
    hide MapInv; hide TimingInv; hide SamplerInv; hide TrackingInv; hide LossesAt; hide AlarmStep; hide MidInv;
    AlarmPacketIsLost(e, time);
    AlarmStepKeepsInv(e, time, height);
    BytesNotNegative(AlarmStep(e, time, height));
  }

  lemma AlarmPacketIsLost(e: Engine, time: int)
    requires Inv(e) && e.timeout != 0 && e.timeout <= time
    ensures e.packets.InFlight(e.leastInFlight.value) && e.leastInFlight.value in Numbers(LossesAt(e, time))
  {
    hide MapInv; hide TimingInv; hide SamplerInv; hide TrackingInv; hide LostFrom; hide SurvivorFrom; hide MidInv;
    AlarmGivesMid(e);
    DetectionIsExact(e, time);
    assert IsLost(e.packets, e.leastInFlight.value, CriteriaAt(e, time));
  }

  /** Every event is a loss alarm, and each fires at or after the time it was set for. */
  ghost predicate OnlyDueAlarms(e: Engine, events: seq<Event>)
    requires Inv(e) && Possible(e, events)
    decreases |events|
  {
    events == [] ||
    (events[0].Timeout? && e.timeout != 0 && e.timeout <= events[0].time
     && (StepKeepsInv(e, events[0]); OnlyDueAlarms(Step(e, events[0]), events[1..])))
  }

  /** Consecutive alarms cannot outnumber the packets in flight. */
  lemma {:induction false} AlarmsAreBounded(e: Engine, events: seq<Event>)
    requires Inv(e) && Possible(e, events)
    ensures OnlyDueAlarms(e, events) ==> |events| <= e.packets.packetsInFlight
    decreases |events|
  {
    BytesNotNegative(e);
    if events != [] && OnlyDueAlarms(e, events) {
      StepKeepsInv(e, events[0]);
      AlarmMakesProgress(e, events[0].time, events[0].height);
      AlarmsAreBounded(Step(e, events[0]), events[1..]);
    }
  }

  lemma SentInOrderMid(e: Engine)
    requires MidInv(e)
    ensures SentInOrder(e.packets)
  {}

  /** A packet declared lost is forgotten in the same event: losses are a prefix of what is in
      flight, so they are all swept off the front of the map. */
  lemma LostPacketsAreForgotten(e: Engine, time: int, rttUpdated: bool, acked: seq<nat>, height: nat, i: nat)
    requires MidInv(e) && e.clock <= time && i < |LossesAt(e, time)|
    ensures LossesAt(e, time)[i].number
          < Finishing(Detecting(e, time), time, rttUpdated, acked, LossesAt(e, time), height).packets.least
  {
    hide TimingInv; hide SamplerInv; hide TrackingInv; hide LostFrom; hide SurvivorFrom; hide SettleAll;
    hide EventOutcome;
    hide ObsoletePrefix;
    SentInOrderMid(e);
    var c, lost := CriteriaAt(e, time), LossesAt(e, time);
    var m := Detecting(e, time).packets;
    DetectionIsExact(e, time);
    DetectingKeepsRest(e, time);
    SettleAllAt(e.packets, Numbers(lost), NeverSent);
    DropObsoleteKeepsInv(m);
    var r := DropObsolete(m);
    assert Genuine(e.packets, lost[i], c);
    forall q: nat | q <= lost[i].number
      ensures !m.InFlight(q)
    {
      if e.packets.InFlight(q) {
        LossesAreAPrefix(e.packets, c, q, lost[i].number);
      }
    }
    assert r.entries != [] ==> r.InFlight(r.least);
  }

  // ---------------------------------------------------------------- duplicate acks

  /** An ack that names a recorded packet no longer in flight is accepted, and puts that
      packet's bytes on the books a second time. */
  lemma AckOfLandedPacketCountsTwice(e: Engine, time: int, pn: nat, height: nat)
    requires Inv(e) && e.clock <= time && 0 < time && e.packets.Has(pn) && !e.packets.InFlight(pn)
    ensures Enabled(e, Ack(time, pn, [pn], height))
    ensures Step(e, Ack(time, pn, [pn], height)).duplicate == e.duplicate + e.packets.At(pn).bytes
  {
    hide Inv; hide SamplerInv; hide Detecting; hide LossesAt;
    SamplerOf(e);
    assert AllIn(e.packets, [pn]) && Ascending([pn]);
    assert [pn][..0] == [];
    assert LandedSizeOf(e.packets, [pn]) == LandedSizeOf(e.packets, []) + e.packets.At(pn).bytes;
    AckStepTotals(e, time, pn, [pn], height);
  }

  lemma SamplerOf(e: Engine)
    requires Inv(e)
    ensures SamplerInv(e.sampler)
  {}

  /** Two packets sent, the second acked twice: it stays recorded behind the first. */
  function TwoSentOneAckedTwice(t: int, bytes: nat): seq<Event> {
    [Send(t, 1, bytes), Send(t, 2, bytes), Ack(t, 2, [2], 0), Ack(t, 2, [2], 0)]
  }

  lemma NothingSentAtStart(e: Engine)
    requires e == Start()
    ensures e.packets.bytesInFlight == 0 && e.packets.Next() <= 1
  {}

  lemma OneSent(e: Engine, r: Engine, t: int, bytes: nat)
    requires e == Start() && t > 0 && e.packets.bytesInFlight == 0
    requires r == Sending(e, t, 1, bytes)
    ensures Inv(e) && Enabled(e, Send(t, 1, bytes)) && Inv(r)
    ensures r.packets.least == 1 && r.packets.entries == [Info(t, bytes, true, Outstanding)]
    ensures r.clock == t && r.abandoned == 0 && r.duplicate == 0
  {
    hide Parts; hide Sent;
    SendingKeepsInv(e, t, 1, bytes);
  }

  lemma TwoSent(e: Engine, r: Engine, t: int, bytes: nat)
    requires Inv(e) && e.packets.least == 1 && e.packets.entries == [Info(t, bytes, true, Outstanding)]
    requires t > 0 && e.clock == t && e.abandoned == 0 && e.duplicate == 0
    requires e.packets.bytesInFlight >= 0 && r == Sending(e, t, 2, bytes)
    ensures Enabled(e, Send(t, 2, bytes)) && Inv(r) && Enabled(r, Ack(t, 2, [2], 0))
    ensures r.packets.least == 1 && r.clock == t && r.abandoned == 0 && r.duplicate == 0
    ensures r.packets.entries == [Info(t, bytes, true, Outstanding), Info(t, bytes, true, Outstanding)]
  {
    hide Inv; hide Sent;
    SendingKeepsInv(e, t, 2, bytes);
  }

  lemma SecondAckedStaysRecorded(e: Engine, t: int, bytes: nat)
    requires Inv(e) && Enabled(e, Ack(t, 2, [2], 0)) && e.packets.least == 1 && e.clock == t
    requires e.packets.entries == [Info(t, bytes, true, Outstanding), Info(t, bytes, true, Outstanding)]
    requires e.abandoned == 0 && e.duplicate == 0
    ensures var r := Step(e, Ack(t, 2, [2], 0));
            && Inv(r) && r.clock == t && r.duplicate == 0 && r.abandoned == 0
            && r.packets.Has(2) && !r.packets.InFlight(2) && r.packets.At(2).bytes == bytes
  {
    hide Inv; hide SamplerInv; hide EventOutcome; hide LostFrom; hide SurvivorFrom; hide TrackingInv; hide SettleAll;
    hide LandedSizeOf; hide FlyingSizeOf; hide TimingInv; hide MidInv; hide Acking; hide Forgotten;
    var e1 := Acking(e, t, 2, [2]);
    AckFacts(e, t, 2, [2], 0);
    AckStepKeepsInv(e, t, 2, [2], 0);
    AckStepTotals(e, t, 2, [2], 0);
    OneOfTwoAcked(e, e1, t, bytes);
    SettleNothing(e1.packets);
  }

  /** The first of the two is neither passed by three packets nor late, so nothing is lost. */
  lemma OneOfTwoAcked(e: Engine, e1: Engine, t: int, bytes: nat)
    requires Inv(e) && AllIn(e.packets, [2]) && e.packets.least == 1 && e1 == Acking(e, t, 2, [2])
    requires e.packets.entries == [Info(t, bytes, true, Outstanding), Info(t, bytes, true, Outstanding)]
    ensures LandedSizeOf(e.packets, [2]) == 0
    ensures e1.packets.entries == [Info(t, bytes, true, Outstanding), Info(t, bytes, false, Acked)]
            && e1.packets.least == 1
    ensures e1.largestNewlyAcked.Some? && LossesAt(e1, t) == []
  {
    hide Parts; hide LostFrom; hide SurvivorFrom; hide SettleAll; hide RttAfter;
    SettleAllAt(e.packets, [2], Acked);
    assert e1.packets.entries[0] == e1.packets.At(1) && e1.packets.entries[1] == e1.packets.At(2);
    NothingLostFrom(e1.packets, e1.packets.least, CriteriaAt(e1, t));
    assert [2][..0] == [];
  }

  lemma SettleNothing(m: PacketMap)
    ensures SettleAll(m, [], NeverSent) == m
  {}

  /** Conservation without the duplicate term is false of the code: twice `bytes` were sent,
      yet three times as much is acked or in flight. */
  lemma DuplicateAckBreaksTheBooks(t: int, bytes: nat)
    requires t > 0
    ensures Possible(Start(), TwoSentOneAckedTwice(t, bytes))
    ensures var e := Run(Start(), TwoSentOneAckedTwice(t, bytes));
            e.sampler.totalAcked + e.sampler.totalLost + e.packets.bytesInFlight + e.abandoned
                == e.sampler.totalSent + bytes
  {
    hide Step; hide Sending; hide SamplerInv; hide AckStep; hide Enabled; hide Parts;
    var events := TwoSentOneAckedTwice(t, bytes);
    var start := Start();
    BytesNotNegative(start);
    NothingSentAtStart(start);
    var one := Sending(start, t, 1, bytes);
    OneSent(start, one, t, bytes);
    SendFacts(start, t, 1, bytes);
    BytesNotNegative(one);
    var two := Sending(one, t, 2, bytes);
    TwoSent(one, two, t, bytes);
    SendFacts(one, t, 2, bytes);
    SecondAckedStaysRecorded(two, t, bytes);
    var three := Step(two, Ack(t, 2, [2], 0));
    AckOfLandedPacketCountsTwice(three, t, 2, 0);
    var four := Step(three, Ack(t, 2, [2], 0));
    StepKeepsInv(three, Ack(t, 2, [2], 0));
    assert events[1..][1..][1..][1..] == [];
    assert events[1..][1..][1..][0] == Ack(t, 2, [2], 0) && events[1..][1..][0] == Ack(t, 2, [2], 0);
    assert Possible(four, []) && Run(four, []) == four;
    assert Possible(three, events[1..][1..][1..]) && Run(three, events[1..][1..][1..]) == four;
    assert Possible(two, events[1..][1..]) && Run(two, events[1..][1..]) == four;
    assert Possible(one, events[1..]) && Run(one, events[1..]) == four;
  }

  // ---------------------------------------------------------------- what an implementation needs to know

  lemma SendFacts(e: Engine, time: int, pn: nat, bytes: nat)
    requires Inv(e) && Enabled(e, Send(time, pn, bytes))
    ensures e.packets.bytesInFlight >= 0 && e.packets.Next() <= pn
    ensures Step(e, Send(time, pn, bytes)) == Sending(e, time, pn, bytes) && Inv(Sending(e, time, pn, bytes))
  {
    SendingKeepsInv(e, time, pn, bytes);
  }

  lemma AckFacts(e: Engine, time: int, largest: nat, acked: seq<nat>, height: nat)
    requires Inv(e) && Enabled(e, Ack(time, largest, acked, height))
    ensures AllIn(e.packets, acked) && Ascending(acked)
    ensures SamplerInv(e.sampler) && Acking(e, time, largest, acked).sampler == e.sampler
    ensures MidInv(Acking(e, time, largest, acked)) && Acking(e, time, largest, acked).clock == time
    ensures Acking(e, time, largest, acked).largestNewlyAcked.Some?
    ensures forall i :: 0 <= i < |acked| ==>
              var m := Acking(e, time, largest, acked).packets; m.Has(acked[i]) && !m.InFlight(acked[i])
    ensures Step(e, Ack(time, largest, acked, height))
         == PostProcessing(Acking(e, time, largest, acked), time, GivesRtt(e, largest), acked, height)
  {
    AckingGivesMid(e, time, largest, acked);
  }

  lemma TimeoutFacts(e: Engine, time: int, height: nat)
    requires Inv(e) && Enabled(e, Timeout(time, height))
    ensures Inv(Step(e, Timeout(time, height))) && MapInv(e.packets) && SamplerInv(e.sampler) && e.clock <= time
    ensures e.packets.bytesInFlight >= 0
    ensures e.timeout != 0 ==>
              && e.largestNewlyAcked.Some? && MidInv(e)
              && Step(e, Timeout(time, height))
                 == Finishing(Detecting(e, time), time, false, [], LossesAt(e, time), height)
    ensures e.timeout == 0 ==> Step(e, Timeout(time, height)) == RtoStep(e, time)
  {
    StepKeepsInv(e, Timeout(time, height));
    if e.timeout != 0 {
      AlarmGivesMid(e);
    }
  }
}
