/** `QuicSentPacketManager` as an object.  Its methods carry out exactly the steps of the
    machine in `SendEngine`, with the fast loss detection in place of the plain scan. */
module SentPacketManager {
  import opened Base
  import opened RttEstimation
  import opened UnackedPackets
  import opened LossDetection
  import opened BandwidthSampling
  import opened SendEngine

  function Reversed(s: seq<nat>): (r: seq<nat>)
    ensures |r| == |s| && forall i :: 0 <= i < |s| ==> r[i] == s[|s| - 1 - i]
  {
    seq(|s|, i requires 0 <= i < |s| => s[|s| - 1 - i])
  }

  class QuicSentPacketManager {
    const unackedPackets: UnackedPacketMap
    const rttStats: RttStats
    const lossAlgorithm: GeneralLossAlgorithm
    /** The sampler of the send algorithm, which is told of every send and every event. */
    const sampler: BandwidthSampler
    var packetsAcked: seq<nat>
    var packetsLost: seq<LostPacket>
    var largestNewlyAcked: Option<nat>
    var rttUpdated: bool
    ghost var clock: int
    ghost var abandoned: nat
    ghost var duplicate: nat

    ghost function State(): Engine
      reads this, unackedPackets, rttStats, lossAlgorithm, sampler
    {
      Engine(unackedPackets.State(), rttStats.State(), lossAlgorithm.lossDetectionTimeout, lossAlgorithm.leastInFlight,
             sampler.State(), largestNewlyAcked, clock, abandoned, duplicate)
    }

    ghost predicate Thresholds()
      reads this, lossAlgorithm
    {
      lossAlgorithm.reorderingShift == REORDERING_SHIFT && lossAlgorithm.reorderingThreshold == REORDERING_THRESHOLD
    }

    /** Between events no acked or lost packet is pending. */
    ghost predicate Valid()
      reads this, unackedPackets, rttStats, lossAlgorithm, sampler
    {
      Thresholds() && packetsAcked == [] && packetsLost == [] && Inv(State())
    }

    constructor ()
      ensures Valid() && State() == Start()
      ensures fresh(unackedPackets) && fresh(rttStats) && fresh(lossAlgorithm) && fresh(sampler)
    {
      unackedPackets := new UnackedPacketMap();
      rttStats := new RttStats();
      lossAlgorithm := new GeneralLossAlgorithm();
      sampler := new BandwidthSampler();
      packetsAcked, packetsLost, largestNewlyAcked := [], [], None;
      rttUpdated := false;
      clock, abandoned, duplicate := 0, 0, 0;
      new;
      StartInv();
    }

    method OnPacketSent(packetNumber: nat, bytes: nat, sentTime: int)
      requires Valid() && Enabled(State(), Send(sentTime, packetNumber, bytes))
      modifies this, unackedPackets, sampler
      ensures Valid() && State() == Step(old(State()), Send(sentTime, packetNumber, bytes))
    {
      hide Inv; hide Enabled; hide Step; hide Sent; hide AddSent;
      SendFacts(State(), sentTime, packetNumber, bytes);
      SamplerOf(State());
      sampler.OnPacketSent(sentTime, packetNumber, bytes, unackedPackets.bytesInFlight);
      unackedPackets.AddSentPacket(packetNumber, bytes, sentTime);
      clock := sentTime;
    }

    method OnAckFrameStart(largestAcked: nat, ackReceiveTime: int)
      modifies this`rttUpdated, rttStats
      ensures rttUpdated == GivesRtt(old(State()), largestAcked)
      ensures State() == old(State()).(rtt := RttAfter(old(State()), largestAcked, ackReceiveTime))
    {
      rttUpdated := MaybeUpdateRTT(largestAcked, ackReceiveTime);
    }

    method MaybeUpdateRTT(largestAcked: nat, ackReceiveTime: int) returns (updated: bool)
      modifies rttStats
      ensures updated == GivesRtt(old(State()), largestAcked)
      ensures State() == old(State()).(rtt := RttAfter(old(State()), largestAcked, ackReceiveTime))
    {
      if !IsUnacked(unackedPackets.State(), largestAcked) {
        return false;
      }
      var info := unackedPackets.State().At(largestAcked);
      if info.sentTime == 0 {
        return false;
      }
      rttStats.UpdateRtt(ackReceiveTime - info.sentTime, 0);
      updated := true;
    }

    method OnAckRange(start: nat)
      modifies this`packetsAcked
      ensures packetsAcked == old(packetsAcked) + [start]
    {
      packetsAcked := packetsAcked + [start];
    }

    /** Takes every acked packet out of flight. */
    method MarkPacketsHandled()
      requires AllIn(unackedPackets.State(), packetsAcked)
      modifies unackedPackets
      ensures unackedPackets.State() == SettleAll(old(unackedPackets.State()), packetsAcked, Acked)
    {
      ghost var m := unackedPackets.State();
      for i := 0 to |packetsAcked|
        invariant unackedPackets.State() == SettleAll(m, packetsAcked[..i], Acked)
      {
        assert packetsAcked[..i + 1][..i] == packetsAcked[..i];
        unackedPackets.RemoveFromInFlight(packetsAcked[i]);
        unackedPackets.SetPacketState(packetsAcked[i], Acked);
      }
      assert packetsAcked[..|packetsAcked|] == packetsAcked;
    }

    method MarkPacketsLost()
      requires AllIn(unackedPackets.State(), Numbers(packetsLost))
      modifies unackedPackets
      ensures unackedPackets.State() == SettleAll(old(unackedPackets.State()), Numbers(packetsLost), NeverSent)
    {
      ghost var m, pns := unackedPackets.State(), Numbers(packetsLost);
      for i := 0 to |packetsLost|
        invariant unackedPackets.State() == SettleAll(m, pns[..i], NeverSent)
      {
        assert pns[..i + 1][..i] == pns[..i];
        unackedPackets.RemoveFromInFlight(packetsLost[i].number);
        unackedPackets.SetPacketState(packetsLost[i].number, NeverSent);
      }
      assert pns[..|packetsLost|] == pns;
    }

    method DetectAndMarkLosses(time: int)
      requires Thresholds() && packetsLost == [] && Ascending(packetsAcked)
      requires MidInv(State()) && clock <= time
      requires forall i :: 0 <= i < |packetsAcked| ==>
                 unackedPackets.State().Has(packetsAcked[i]) && !unackedPackets.State().InFlight(packetsAcked[i])
      modifies this`packetsLost, this`clock, unackedPackets, lossAlgorithm`lossDetectionTimeout,
          lossAlgorithm`leastInFlight
      ensures State() == Detecting(old(State()), time) && packetsLost == LossesAt(old(State()), time)
    {
      hide SamplerInv; hide TrackingInv; hide BytesOf; hide CountOf; hide LostFrom; hide SurvivorFrom; hide SettleAll;
      ghost var e := State();
      packetsLost := lossAlgorithm.DetectLosses(unackedPackets, time, MaxRtt(rttStats.State()),
          largestNewlyAcked.value, packetsAcked);
      assert packetsLost == LossesAt(e, time);
      MarkPacketsLost();
      clock := time;
    }

    /** The state that loss detection works on: the largest newly acked packet is the last of
        the acked ones, if there are any. */
    ghost function WithLargestAcked(): Engine
      reads this, unackedPackets, rttStats, lossAlgorithm, sampler
    {
      State().(largestNewlyAcked := if packetsAcked == [] then largestNewlyAcked
          else Some(packetsAcked[|packetsAcked| - 1]))
    }

    method InvokeLossDetection(time: int)
      requires Thresholds() && packetsLost == [] && Ascending(packetsAcked)
      requires MidInv(WithLargestAcked()) && clock <= time
      requires forall i :: 0 <= i < |packetsAcked| ==>
                 unackedPackets.State().Has(packetsAcked[i]) && !unackedPackets.State().InFlight(packetsAcked[i])
      modifies this`packetsLost, this`largestNewlyAcked, this`clock, unackedPackets,
               lossAlgorithm`lossDetectionTimeout, lossAlgorithm`leastInFlight
      ensures State() == Detecting(old(WithLargestAcked()), time)
              && packetsLost == LossesAt(old(WithLargestAcked()), time)
    {
      if packetsAcked != [] {
        largestNewlyAcked := Some(packetsAcked[|packetsAcked| - 1]);
      }
      assert State() == old(WithLargestAcked());
      DetectAndMarkLosses(time);
    }

    method MaybeInvokeCongestionEvent(updated: bool, eventTime: int, height: nat)
      requires SamplerInv(sampler.State())
      modifies this`packetsAcked, this`packetsLost, sampler, unackedPackets
      ensures State() == Finishing(old(State()), eventTime, updated, old(packetsAcked), old(packetsLost), height)
      ensures packetsAcked == [] && packetsLost == []
    {
      hide SamplerInv;
      hide EventOutcome;
      hide DropObsolete;
      if !updated && packetsAcked == [] && packetsLost == [] {
        return;
      }
      var sample := sampler.OnCongestionEvent(eventTime, packetsAcked, packetsLost, height);
      sampler.RemoveObsoletePackets(unackedPackets.leastUnacked);
      unackedPackets.RemoveObsoletePackets();
      packetsAcked := [];
      packetsLost := [];
    }

    /** The first part of the end of an ack frame: reverse the list, handle each packet. */
    method HandleAckedPackets(ackReceiveTime: int, ghost largest: nat, ghost e: Engine)
      requires AllIn(e.packets, Reversed(packetsAcked))
      requires State() == e.(rtt := RttAfter(e, largest, ackReceiveTime))
      modifies this`packetsAcked, this`duplicate, this`clock, unackedPackets
      ensures packetsAcked == Reversed(old(packetsAcked))
      ensures WithLargestAcked() == Acking(e, ackReceiveTime, largest, packetsAcked)
    {
      packetsAcked := Reversed(packetsAcked);
      MarkPacketsHandled();
      duplicate := duplicate + LandedSizeOf(e.packets, packetsAcked);
      clock := ackReceiveTime;
    }

    method PostProcessNewlyAckedPackets(ackReceiveTime: int, height: nat)
      requires Thresholds() && packetsLost == [] && Ascending(packetsAcked)
      requires MidInv(WithLargestAcked()) && SamplerInv(sampler.State()) && clock <= ackReceiveTime
      requires forall i :: 0 <= i < |packetsAcked| ==>
                 unackedPackets.State().Has(packetsAcked[i]) && !unackedPackets.State().InFlight(packetsAcked[i])
      modifies this, unackedPackets, lossAlgorithm`lossDetectionTimeout, lossAlgorithm`leastInFlight, sampler
      ensures packetsAcked == [] && packetsLost == []
      ensures State()
              == PostProcessing(old(WithLargestAcked()), ackReceiveTime, old(rttUpdated), old(packetsAcked), height)
    {
      hide SamplerInv; hide MidInv; hide Detecting; hide Finishing; hide LossesAt; hide Ascending;
      InvokeLossDetection(ackReceiveTime);
      MaybeInvokeCongestionEvent(rttUpdated, ackReceiveTime, height);
    }

    /** The end of an ack frame that began in state `e`. */
    method OnAckFrameEnd(ackReceiveTime: int, height: nat, ghost largest: nat, ghost e: Engine)
      requires Inv(e) && Enabled(e, Ack(ackReceiveTime, largest, Reversed(packetsAcked), height))
      requires State() == e.(rtt := RttAfter(e, largest, ackReceiveTime)) && rttUpdated == GivesRtt(e, largest)
      requires Thresholds() && packetsLost == []
      modifies this, unackedPackets, lossAlgorithm`lossDetectionTimeout, lossAlgorithm`leastInFlight, sampler
      ensures Thresholds() && packetsAcked == [] && packetsLost == []
      ensures State() == Step(e, Ack(ackReceiveTime, largest, Reversed(old(packetsAcked)), height))
    {
      hide Inv; hide Enabled; hide Step; hide MidInv; hide Acking; hide PostProcessing; hide GivesRtt; hide RttAfter;
      hide AllIn; hide Ascending;
      AckFacts(e, ackReceiveTime, largest, Reversed(packetsAcked), height);
      HandleAckedPackets(ackReceiveTime, largest, e);
      PostProcessNewlyAckedPackets(ackReceiveTime, height);
    }

    /** A whole ack frame; its ranges arrive in descending order. */
    method OnAckFrame(time: int, largest: nat, ranges: seq<nat>, height: nat)
      requires Valid() && Enabled(State(), Ack(time, largest, Reversed(ranges), height))
      modifies this, unackedPackets, rttStats, lossAlgorithm`lossDetectionTimeout, lossAlgorithm`leastInFlight, sampler
      ensures Valid() && State() == Step(old(State()), Ack(time, largest, Reversed(ranges), height))
    {
      hide Inv; hide AckStep; hide GivesRtt; hide RttAfter;
      ghost var e := State();
      OnAckFrameStart(largest, time);
      for i := 0 to |ranges|
        invariant packetsAcked == ranges[..i] && packetsLost == [] && Thresholds()
        invariant State() == e.(rtt := RttAfter(e, largest, time)) && rttUpdated == GivesRtt(e, largest)
      {
        OnAckRange(ranges[i]);
      }
      assert ranges[..|ranges|] == ranges;
      AckStepKeepsInv(e, time, largest, Reversed(ranges), height);
      OnAckFrameEnd(time, height, largest, e);
    }

    /** The loop of `RetransmitRtoPackets`: every outstanding packet is given up. */
    method AbandonOutstandingPackets()
      requires MapInv(unackedPackets.State())
      modifies unackedPackets
      ensures unackedPackets.State() == AbandonFrom(old(unackedPackets.State()), old(unackedPackets.leastUnacked))
    {
      hide BytesOf; hide CountOf; hide Settle;
      ghost var m := unackedPackets.State();
      if unackedPackets.packets != [] {
        var packetNumber := unackedPackets.leastUnacked;
        var largestSentPacket := unackedPackets.largestSentPacket.value;
        while packetNumber <= largestSentPacket
          invariant unackedPackets.leastUnacked <= packetNumber <= largestSentPacket + 1
          invariant unackedPackets.State().Next() == largestSentPacket + 1
          invariant AbandonFrom(m, m.least) == AbandonFrom(unackedPackets.State(), packetNumber)
        {
          if unackedPackets.State().At(packetNumber).state == Outstanding {
            SettleIsBoth(unackedPackets.State(), packetNumber, NeverSent);
            unackedPackets.RemoveFromInFlight(packetNumber);
            unackedPackets.SetPacketState(packetNumber, NeverSent);
          }
          packetNumber := packetNumber + 1;
        }
      }
    }

    method RetransmitRtoPackets(ghost now: int)
      requires MapInv(unackedPackets.State())
      modifies this`abandoned, this`clock, unackedPackets
      ensures State() == RtoStep(old(State()), now)
    {
      hide DropObsolete; hide BytesOf; hide CountOf; hide AbandonFrom;
      abandoned := abandoned + unackedPackets.bytesInFlight;
      clock := now;
      AbandonOutstandingPackets();
      unackedPackets.RemoveObsoletePackets();
    }

    method OnRetransmissionTimeout(now: int, height: nat)
      requires Valid() && Enabled(State(), Timeout(now, height))
      modifies this, unackedPackets, lossAlgorithm`lossDetectionTimeout, lossAlgorithm`leastInFlight, sampler
      ensures Valid() && State() == Step(old(State()), Timeout(now, height))
    {
      hide Inv; hide Enabled; hide Step; hide MidInv; hide MapInv; hide Finishing; hide Detecting; hide LossesAt;
      hide RtoStep;
      TimeoutFacts(State(), now, height);
      if lossAlgorithm.lossDetectionTimeout != 0 {
        InvokeLossDetection(now);
        MaybeInvokeCongestionEvent(false, now, height);
      } else {
        RetransmitRtoPackets(now);
      }
    }
  }

  lemma SettleIsBoth(m: PacketMap, pn: nat, state: PacketState)
    requires m.Has(pn)
    ensures Landed(m, pn).Has(pn) && Settle(m, pn, state) == WithState(Landed(m, pn), pn, state)
    ensures Settle(m, pn, state).least == m.least && |Settle(m, pn, state).entries| == |m.entries|
  {}
}
