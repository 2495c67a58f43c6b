/** Loss detection (`GeneralLossAlgorithm`).

    The specification is a plain scan of every entry, with the packet threshold and the
    time threshold of sections 6.1.1 and 6.1.2 of RFC 9002 (here with a quarter of a round
    trip as the margin).  The algorithm itself starts at a cached packet number, skips the
    scan when no packet is missing and stops at the first packet it does not lose. */
module LossDetection {
  import opened Base
  import opened UnackedPackets

  datatype LostPacket = LostPacket(number: nat, bytes: nat)

  /** What one detection is asked: the largest newly acked packet, the current time, the
      loss delay and the reordering threshold. */
  datatype Criteria = Criteria(largest: nat, now: int, delay: int, threshold: nat)

  /** The result of one detection.  A timeout of zero means that no alarm is needed;
      `leastInFlight` is the packet at which the next detection starts. */
  datatype Detection = Detection(lost: seq<LostPacket>, timeout: int, leastInFlight: nat)

  const REORDERING_THRESHOLD: nat := 3
  const REORDERING_SHIFT: nat := 2

  /** `max_rtt + (max_rtt >> shift)`. */
  function LossDelay(maxRtt: int, shift: nat): int {
    maxRtt + maxRtt / Pow2(shift)
  }

  // ---------------------------------------------------------------- the plain scan

  /** In flight and at or below the largest newly acked packet. */
  predicate Candidate(m: PacketMap, pn: nat, c: Criteria) {
    m.InFlight(pn) && pn <= c.largest
  }

  predicate IsLost(m: PacketMap, pn: nat, c: Criteria) {
    Candidate(m, pn, c) && (c.largest - pn >= c.threshold || c.now >= m.At(pn).sentTime + c.delay)
  }

  predicate Survives(m: PacketMap, pn: nat, c: Criteria) {
    Candidate(m, pn, c) && !IsLost(m, pn, c)
  }

  /** Every lost packet numbered `pn` or above. */
  function LostFrom(m: PacketMap, pn: nat, c: Criteria): seq<LostPacket>
    decreases m.Next() - pn
  {
    if m.Next() <= pn then [] else
      (if IsLost(m, pn, c) then [LostPacket(pn, m.At(pn).bytes)] else []) + LostFrom(m, pn + 1, c)
  }

  /** The first packet numbered `pn` or above that is a candidate but not lost. */
  function SurvivorFrom(m: PacketMap, pn: nat, c: Criteria): (k: Option<nat>)
    ensures k.Some? ==> pn <= k.value && Survives(m, k.value, c)
    decreases m.Next() - pn
  {
    if m.Next() <= pn then None
    else if Survives(m, pn, c) then Some(pn)
    else SurvivorFrom(m, pn + 1, c)
  }

  function Detect(m: PacketMap, c: Criteria): Detection {
    var survivor := SurvivorFrom(m, m.least, c);
    Detection(LostFrom(m, m.least, c),
              if survivor.Some? then m.At(survivor.value).sentTime + c.delay else 0,
              if survivor.Some? then survivor.value else c.largest + 1)
  }

  function Numbers(lost: seq<LostPacket>): (pns: seq<nat>)
    ensures |pns| == |lost|
    ensures forall i :: 0 <= i < |lost| ==> pns[i] == lost[i].number
  {
    seq(|lost|, i requires 0 <= i < |lost| => lost[i].number)
  }

  /** The packets in flight were sent in order of packet number. */
  ghost predicate SentInOrder(m: PacketMap) {
    forall p: nat, q: nat :: p < q && m.InFlight(p) && m.InFlight(q) ==> m.At(p).sentTime <= m.At(q).sentTime
  }

  // ---------------------------------------------------------------- what the scan reports

  ghost predicate Genuine(m: PacketMap, x: LostPacket, c: Criteria) {
    IsLost(m, x.number, c) && x.bytes == m.At(x.number).bytes
  }

  /** The report holds only lost packets, with their sizes, in ascending order, and it
      holds every lost packet. */
  ghost predicate LossesExact(m: PacketMap, c: Criteria, lost: seq<LostPacket>) {
    && (forall i :: 0 <= i < |lost| ==> Genuine(m, lost[i], c))
    && Ascending(Numbers(lost))
    && (forall pn: nat :: IsLost(m, pn, c) ==> pn in Numbers(lost))
  }

  /** The alarm stands at the earliest deadline of the surviving candidates, and at zero
      exactly when there is none; no survivor lies below the next starting point. */
  ghost predicate AlarmExact(m: PacketMap, c: Criteria, d: Detection) {
    && (d.timeout != 0 ==> Survives(m, d.leastInFlight, c) && d.timeout == m.At(d.leastInFlight).sentTime + c.delay)
    && (d.timeout == 0 ==> d.leastInFlight == c.largest + 1)
    && (forall pn: nat :: Survives(m, pn, c) ==>
          0 != d.timeout <= m.At(pn).sentTime + c.delay && d.leastInFlight <= pn)
  }

  lemma {:induction false} LostFromIsSound(m: PacketMap, pn: nat, c: Criteria)
    ensures forall i :: 0 <= i < |LostFrom(m, pn, c)| ==>
              Genuine(m, LostFrom(m, pn, c)[i], c) && pn <= LostFrom(m, pn, c)[i].number
    ensures Ascending(Numbers(LostFrom(m, pn, c)))
    decreases m.Next() - pn
  {
    if pn < m.Next() {
      LostFromIsSound(m, pn + 1, c);
    }
  }

  lemma {:induction false} LostFromIsComplete(m: PacketMap, pn: nat, c: Criteria, q: nat)
    requires pn <= q && IsLost(m, q, c)
    ensures q in Numbers(LostFrom(m, pn, c))
    decreases m.Next() - pn
  {
    var all := LostFrom(m, pn, c);
    if pn == q {
      assert Numbers(all)[0] == q;
    } else {
      var rest := LostFrom(m, pn + 1, c);
      LostFromIsComplete(m, pn + 1, c, q);
      var j :| 0 <= j < |rest| && Numbers(rest)[j] == q;
      assert Numbers(all)[j + (|all| - |rest|)] == q;
    }
  }

  lemma {:induction false} SurvivorFromIsFirst(m: PacketMap, pn: nat, c: Criteria, q: nat)
    requires pn <= q && Survives(m, q, c)
    ensures SurvivorFrom(m, pn, c).Some? && SurvivorFrom(m, pn, c).value <= q
    decreases m.Next() - pn
  {
    if pn < q && !Survives(m, pn, c) {
      SurvivorFromIsFirst(m, pn + 1, c, q);
    }
  }

  /** The whole report of one detection: which packets are lost, and when to look again. */
  lemma DetectReports(m: PacketMap, c: Criteria)
    requires SentInOrder(m)
    requires forall pn: nat :: m.InFlight(pn) ==> m.At(pn).sentTime + c.delay > 0
    ensures LossesExact(m, c, Detect(m, c).lost)
    ensures AlarmExact(m, c, Detect(m, c))
  {
    LostFromIsSound(m, m.least, c);
    forall pn: nat | IsLost(m, pn, c)
      ensures pn in Numbers(LostFrom(m, m.least, c))
    {
      LostFromIsComplete(m, m.least, c, pn);
    }
    forall pn: nat | Survives(m, pn, c)
      ensures SurvivorFrom(m, m.least, c).Some? && SurvivorFrom(m, m.least, c).value <= pn
    {
      SurvivorFromIsFirst(m, m.least, c, pn);
    }
  }

  /** A candidate is declared lost: three packets behind the largest newly acked, or late by the longest recent round
      trip `rtt` and a quarter of it, counted in whole microseconds. */
  predicate PassedOrLate(m: PacketMap, pn: nat, rtt: int, largest: nat, now: int)
    requires m.Has(pn)
  {
    largest - pn >= 3 || 4 * (now - m.At(pn).sentTime) > 5 * rtt - 4
  }

  ghost predicate LeftOver(m: PacketMap, pn: nat, rtt: int, largest: nat, now: int) {
    m.InFlight(pn) && pn <= largest && !PassedOrLate(m, pn, rtt, largest, now)
  }

  /** What sections 6.1.1 and 6.1.2 of RFC 9002 ask, with their packet threshold of 3 and a margin of a quarter round
      trip: the packets lost are exactly the candidates that were passed or are late, with their sizes, and the alarm
      stands five quarters of a round trip after the earliest packet left over was sent. */
  ghost predicate ByTheThresholds(m: PacketMap, rtt: int, largest: nat, now: int, lost: seq<LostPacket>, timeout: int) {
    && Ascending(Numbers(lost))
    && (forall pn: nat :: pn in Numbers(lost)
          <==> m.InFlight(pn) && pn <= largest && PassedOrLate(m, pn, rtt, largest, now))
    && (forall i :: 0 <= i < |lost| ==> m.Has(lost[i].number) && lost[i].bytes == m.At(lost[i].number).bytes)
    && (timeout == 0 ==> forall pn: nat :: !LeftOver(m, pn, rtt, largest, now))
    && (timeout != 0 ==> exists pn: nat :: DueFor(m, pn, rtt, largest, now, timeout))
  }

  /** The timeout is the deadline of `pn`, which was left over, and no other was sent before it. */
  ghost predicate DueFor(m: PacketMap, pn: nat, rtt: int, largest: nat, now: int, timeout: int) {
    && LeftOver(m, pn, rtt, largest, now)
    && 5 * rtt - 4 < 4 * (timeout - m.At(pn).sentTime) <= 5 * rtt
    && forall q: nat :: LeftOver(m, q, rtt, largest, now) ==> pn <= q && m.At(pn).sentTime <= m.At(q).sentTime
  }

  lemma QuarterMargin(rtt: int, elapsed: int)
    ensures 5 * rtt - 4 < 4 * LossDelay(rtt, REORDERING_SHIFT) <= 5 * rtt
    ensures elapsed >= LossDelay(rtt, REORDERING_SHIFT) <==> 4 * elapsed > 5 * rtt - 4
  {
    assert Pow2(2) == 4;
  }

  ghost predicate Dated(m: PacketMap) {
    forall pn: nat :: m.InFlight(pn) ==> 0 < m.At(pn).sentTime
  }

  /** The exact report, read with the thresholds as numbers. */
  lemma DetectsByTheThresholds(m: PacketMap, rtt: int, largest: nat, now: int)
    requires SentInOrder(m) && 0 <= rtt && Dated(m)
    ensures var d := Detect(m, Criteria(largest, now, LossDelay(rtt, REORDERING_SHIFT), REORDERING_THRESHOLD));
            ByTheThresholds(m, rtt, largest, now, d.lost, d.timeout)
  {
    hide LossDelay; hide Detect; hide Ascending;
    var c := Criteria(largest, now, LossDelay(rtt, REORDERING_SHIFT), REORDERING_THRESHOLD);
    QuarterMargin(rtt, 0);
    DetectReports(m, c);
    var d := Detect(m, c);
    forall pn: nat
      ensures IsLost(m, pn, c) <==> m.InFlight(pn) && pn <= largest && PassedOrLate(m, pn, rtt, largest, now)
      ensures Survives(m, pn, c) <==> LeftOver(m, pn, rtt, largest, now)
    {
      if m.InFlight(pn) {
        QuarterMargin(rtt, now - m.At(pn).sentTime);
      }
    }
    forall i | 0 <= i < |d.lost|
      ensures Genuine(m, d.lost[i], c)
    {}
    forall pn: nat
      ensures pn in Numbers(d.lost) <==> IsLost(m, pn, c)
    {
      if pn in Numbers(d.lost) {
        var i :| 0 <= i < |d.lost| && Numbers(d.lost)[i] == pn;
        assert Genuine(m, d.lost[i], c);
      }
    }
    if d.timeout != 0 {
      assert DueFor(m, d.leastInFlight, rtt, largest, now, d.timeout);
    }
  }

  /** Losses are always a prefix of what is in flight: when a packet is lost, so is every
      earlier one. */
  lemma LossesAreAPrefix(m: PacketMap, c: Criteria, p: nat, q: nat)
    requires SentInOrder(m) && p <= q && m.InFlight(p) && IsLost(m, q, c)
    ensures IsLost(m, p, c)
  {}

  // ---------------------------------------------------------------- why the short cuts are sound

  lemma {:induction false} NothingLostFrom(m: PacketMap, pn: nat, c: Criteria)
    requires forall q: nat :: pn <= q ==> !IsLost(m, q, c)
    ensures LostFrom(m, pn, c) == []
    decreases m.Next() - pn
  {
    if pn < m.Next() {
      NothingLostFrom(m, pn + 1, c);
    }
  }

  lemma {:induction false} NoSurvivorFrom(m: PacketMap, pn: nat, c: Criteria)
    requires forall q: nat :: pn <= q ==> !Survives(m, q, c)
    ensures SurvivorFrom(m, pn, c) == None
    decreases m.Next() - pn
  {
    if pn < m.Next() {
      NoSurvivorFrom(m, pn + 1, c);
    }
  }

  /** Packets that are not in flight can be skipped. */
  lemma {:induction false} SkipLanded(m: PacketMap, pn: nat, c: Criteria, q: nat)
    requires pn <= q && forall p: nat :: pn <= p < q ==> !m.InFlight(p)
    ensures LostFrom(m, pn, c) == LostFrom(m, q, c)
    ensures SurvivorFrom(m, pn, c) == SurvivorFrom(m, q, c)
    decreases q - pn
  {
    if pn < q {
      assert !m.InFlight(pn);
      SkipLanded(m, pn + 1, c, q);
    }
  }

  /** One step of the plain scan. */
  lemma ScanStep(m: PacketMap, pn: nat, c: Criteria)
    requires m.Has(pn) && pn <= c.largest
    ensures !m.At(pn).inFlight ==>
              LostFrom(m, pn, c) == LostFrom(m, pn + 1, c) && SurvivorFrom(m, pn, c) == SurvivorFrom(m, pn + 1, c)
    ensures m.At(pn).inFlight && (c.largest - pn >= c.threshold || c.now >= m.At(pn).sentTime + c.delay) ==>
              && LostFrom(m, pn, c) == [LostPacket(pn, m.At(pn).bytes)] + LostFrom(m, pn + 1, c)
              && SurvivorFrom(m, pn, c) == SurvivorFrom(m, pn + 1, c)
    ensures m.At(pn).inFlight && !(c.largest - pn >= c.threshold || c.now >= m.At(pn).sentTime + c.delay) ==>
              Survives(m, pn, c)
  {}

  /** A survivor ends the scan: nothing after it is lost. */
  lemma SurvivorEndsScan(m: PacketMap, pn: nat, c: Criteria)
    requires SentInOrder(m) && Survives(m, pn, c)
    ensures LostFrom(m, pn, c) == [] && SurvivorFrom(m, pn, c) == Some(pn)
  {
    assert forall q: nat :: pn <= q ==> !IsLost(m, q, c);
    NothingLostFrom(m, pn, c);
  }

  lemma BeyondLargest(m: PacketMap, pn: nat, c: Criteria)
    requires m.Next() <= pn || c.largest < pn
    ensures LostFrom(m, pn, c) == [] && SurvivorFrom(m, pn, c) == None
  {
    NothingLostFrom(m, pn, c);
    NoSurvivorFrom(m, pn, c);
  }

  /** When every packet from the cached start to the largest newly acked has been acked, the
      plain scan finds nothing. */
  lemma NothingToDetect(m: PacketMap, c: Criteria, start: nat, pns: seq<nat>)
    requires forall pn: nat :: pn < start ==> !m.InFlight(pn)
    requires Ascending(pns) && pns != [] && pns[0] == start
    requires pns[|pns| - 1] == c.largest && start + |pns| - 1 == c.largest
    requires forall i :: 0 <= i < |pns| ==> !m.InFlight(pns[i])
    ensures Detect(m, c) == Detection([], 0, c.largest + 1)
  {
    forall pn: nat
      ensures !Candidate(m, pn, c)
    {
      if start <= pn <= c.largest {
        AscendingGap(pns, 0, pn - start);
        AscendingGap(pns, pn - start, |pns| - 1);
        assert pns[pn - start] == pn;
      }
    }
    NothingLostFrom(m, m.least, c);
    NoSurvivorFrom(m, m.least, c);
  }

  lemma {:induction false} AscendingGap(pns: seq<nat>, i: nat, j: nat)
    requires Ascending(pns) && i <= j < |pns|
    ensures pns[j] - pns[i] >= j - i
    decreases j - i
  {
    if i < j {
      AscendingGap(pns, i, j - 1);
    }
  }

  // ---------------------------------------------------------------- the algorithm

  /** `pns` begins with the `n` numbers from `first` on, and does not go on with the next. */
  ghost predicate RunsOn(pns: seq<nat>, first: nat, n: int) {
    && 0 <= n <= |pns|
    && (forall i :: 0 <= i < n ==> pns[i] == first + i)
    && (n < |pns| ==> pns[n] != first + n)
  }

  class GeneralLossAlgorithm {
    var lossDetectionTimeout: int
    var reorderingShift: nat
    var reorderingThreshold: nat
    var leastInFlight: Option<nat>

    constructor ()
      ensures lossDetectionTimeout == 0 && leastInFlight == Some(1)
      ensures reorderingShift == REORDERING_SHIFT && reorderingThreshold == REORDERING_THRESHOLD
    {
      lossDetectionTimeout := 0;
      reorderingShift, reorderingThreshold := REORDERING_SHIFT, REORDERING_THRESHOLD;
      leastInFlight := Some(1);
    }

    predicate AsConstructed()
      reads this
    {
      reorderingShift == REORDERING_SHIFT && reorderingThreshold == REORDERING_THRESHOLD
    }

    /** The cached start is at most one past the largest packet sent and nothing below it
        is in flight. */
    ghost predicate CacheValid(m: PacketMap)
      reads this
    {
      leastInFlight.Some? ==>
        && leastInFlight.value <= m.Next()
        && forall pn: nat :: pn < leastInFlight.value ==> !m.InFlight(pn)
    }

    /** Whether no packet is missing between the cached start and the largest newly acked. */
    predicate NoPacketMissing(largestNewlyAcked: nat, packetsAcked: seq<nat>)
      reads this
    {
      && packetsAcked != [] && leastInFlight.Some? && packetsAcked[0] == leastInFlight.value
      && packetsAcked[|packetsAcked| - 1] == largestNewlyAcked
      && leastInFlight.value + |packetsAcked| - 1 == largestNewlyAcked
    }

    /** There is a hole in the acked packets: move the cached start past their front, which is as far as they run on
        from it without one missing. */
    method AdvanceLeastInFlight(packetsAcked: seq<nat>, ghost m: PacketMap)
      requires CacheValid(m) && Ascending(packetsAcked)
      requires forall i :: 0 <= i < |packetsAcked| ==> m.Has(packetsAcked[i]) && !m.InFlight(packetsAcked[i])
      modifies this`leastInFlight
      ensures CacheValid(m)
      ensures old(leastInFlight) == None ==> leastInFlight == None
      ensures old(leastInFlight).Some? ==>
                leastInFlight.Some?
                    && RunsOn(packetsAcked, old(leastInFlight).value, leastInFlight.value - old(leastInFlight).value)
    {
      if packetsAcked != [] && leastInFlight.Some? && packetsAcked[0] == leastInFlight.value {
        ghost var first := leastInFlight.value;
        for k := 0 to |packetsAcked|
          invariant CacheValid(m) && leastInFlight == Some(first + k)
          invariant forall i :: 0 <= i < k ==> packetsAcked[i] == first + i
        {
          if packetsAcked[k] != leastInFlight.value {
            break;
          }
          leastInFlight := Some(leastInFlight.value + 1);
        }
      }
    }

    /** The scan from packet `start`, which stops at the first packet that survives. */
    method ScanFrom(unacked: UnackedPacketMap, start: nat, time: int, delay: int, largestNewlyAcked: nat)
      returns (packetsLost: seq<LostPacket>)
      requires SentInOrder(unacked.State()) && unacked.leastUnacked <= start <= unacked.State().Next()
      requires lossDetectionTimeout == 0
      modifies this`lossDetectionTimeout, this`leastInFlight
      ensures packetsLost
              == LostFrom(unacked.State(), start, Criteria(largestNewlyAcked, time, delay, reorderingThreshold))
      ensures leastInFlight
              == SurvivorFrom(unacked.State(), start, Criteria(largestNewlyAcked, time, delay, reorderingThreshold))
      ensures lossDetectionTimeout
           == if leastInFlight.Some? then unacked.State().At(leastInFlight.value).sentTime + delay else 0
    {
      hide LostFrom; hide SurvivorFrom; hide Survives; hide SentInOrder;
      ghost var c := Criteria(largestNewlyAcked, time, delay, reorderingThreshold);
      ghost var m := unacked.State();
      packetsLost := [];
      leastInFlight := None;
      var packetNumber := start;
      while packetNumber < unacked.leastUnacked + |unacked.packets| && packetNumber <= largestNewlyAcked
        invariant start <= packetNumber <= m.Next()
        invariant leastInFlight == None && lossDetectionTimeout == 0
        invariant LostFrom(m, start, c) == packetsLost + LostFrom(m, packetNumber, c)
        invariant SurvivorFrom(m, start, c) == SurvivorFrom(m, packetNumber, c)
      {
        var it := unacked.packets[packetNumber - unacked.leastUnacked];
        assert it == m.At(packetNumber);
        ScanStep(m, packetNumber, c);
        if it.inFlight {
          if largestNewlyAcked - packetNumber >= reorderingThreshold {
            packetsLost := packetsLost + [LostPacket(packetNumber, it.bytes)];
          } else {
            var whenLost := it.sentTime + delay;
            if time < whenLost {
              SurvivorEndsScan(m, packetNumber, c);
              lossDetectionTimeout := whenLost;
              leastInFlight := Some(packetNumber);
              return;
            }
            packetsLost := packetsLost + [LostPacket(packetNumber, it.bytes)];
          }
        }
        packetNumber := packetNumber + 1;
      }
      BeyondLargest(m, packetNumber, c);
    }

    /** The fast algorithm: it reports what the plain scan reports and leaves behind the
        plain scan's alarm and starting point. */
    method DetectLosses(unacked: UnackedPacketMap, time: int, maxRtt: int, largestNewlyAcked: nat,
                        packetsAcked: seq<nat>) returns (packetsLost: seq<LostPacket>)
      requires CacheValid(unacked.State()) && SentInOrder(unacked.State())
      requires unacked.largestSentPacket.Some? && unacked.State().Next() == unacked.largestSentPacket.value + 1
      requires Ascending(packetsAcked)
      requires forall i :: 0 <= i < |packetsAcked| ==>
                 unacked.State().Has(packetsAcked[i]) && !unacked.State().InFlight(packetsAcked[i])
      modifies this`lossDetectionTimeout, this`leastInFlight
      ensures leastInFlight.Some?
      ensures Detection(packetsLost, lossDetectionTimeout, leastInFlight.value)
           == Detect(unacked.State(),
               Criteria(largestNewlyAcked, time, LossDelay(maxRtt, reorderingShift), reorderingThreshold))
      ensures AsConstructed() && 0 <= maxRtt && Dated(unacked.State()) ==>
                ByTheThresholds(unacked.State(), maxRtt, largestNewlyAcked, time, packetsLost, lossDetectionTimeout)
    {
      hide ByTheThresholds; hide LossDelay; hide Dated; hide SentInOrder; hide LostFrom; hide SurvivorFrom;
      hide Survives;
      if AsConstructed() && 0 <= maxRtt && Dated(unacked.State()) {
        DetectsByTheThresholds(unacked.State(), maxRtt, largestNewlyAcked, time);
      }
      var delay := LossDelay(maxRtt, reorderingShift);
      ghost var c := Criteria(largestNewlyAcked, time, delay, reorderingThreshold);
      ghost var m := unacked.State();
      lossDetectionTimeout := 0;
      if NoPacketMissing(largestNewlyAcked, packetsAcked) {
        NothingToDetect(m, c, leastInFlight.value, packetsAcked);
        packetsLost := [];
        leastInFlight := Some(largestNewlyAcked + 1);
        return;
      }
      AdvanceLeastInFlight(packetsAcked, m);

      var packetNumber := unacked.leastUnacked;
      if leastInFlight.Some? && leastInFlight.value >= packetNumber {
        if leastInFlight.value <= unacked.largestSentPacket.value + 1 {
          packetNumber := leastInFlight.value;
        }
      }
      SkipLanded(m, m.least, c, packetNumber);
      packetsLost := ScanFrom(unacked, packetNumber, time, delay, largestNewlyAcked);
      if leastInFlight.None? {
        leastInFlight := Some(largestNewlyAcked + 1);
      }
    }

    method Reset()
      modifies this`lossDetectionTimeout, this`leastInFlight
      ensures lossDetectionTimeout == 0 && leastInFlight == None
    {
      lossDetectionTimeout := 0;
      leastInFlight := None;
    }
  }
}
