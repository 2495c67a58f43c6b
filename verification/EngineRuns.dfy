/** Conditions on the events of a run, and what they give in every state of it: books that balance exactly, and a map
    whose front is in flight. */
module EngineRuns {
  import opened UnackedPackets
  import opened LossDetection
  import opened BandwidthSampling
  import opened SendEngine

  // ---------------------------------------------------------------- when the books balance

  /** No packet named by the ack is recorded with bytes and out of flight. */
  ghost predicate Fresh(m: PacketMap, acked: seq<nat>)
    requires AllIn(m, acked)
  {
    forall i :: 0 <= i < |acked| ==> m.InFlight(acked[i]) || m.At(acked[i]).bytes == 0
  }

  /** Every ack frame of the run is fresh when it arrives: it names only packets in flight, or numbers that were
      skipped. */
  ghost predicate AcksAreFresh(e: Engine, events: seq<Event>)
    requires Inv(e) && Possible(e, events)
    decreases |events|
  {
    events == [] ||
    ((events[0].Ack? ==> Fresh(e.packets, events[0].acked))
     && (StepKeepsInv(e, events[0]); AcksAreFresh(Step(e, events[0]), events[1..])))
  }

  lemma {:induction false} FreshMeansNothingLanded(m: PacketMap, acked: seq<nat>)
    requires AllIn(m, acked)
    ensures Fresh(m, acked) <==> LandedSizeOf(m, acked) == 0
    decreases |acked|
  {
    if acked != [] {
      var last := |acked| - 1;
      FreshMeansNothingLanded(m, acked[..last]);
      assert Fresh(m, acked) ==> Fresh(m, acked[..last]);
    }
  }

  /** One event adds to the duplicates exactly when it is an ack that is not fresh. */
  lemma StepDuplicates(e: Engine, ev: Event)
    requires Inv(e) && Enabled(e, ev)
    ensures e.duplicate <= Step(e, ev).duplicate
    ensures Step(e, ev).duplicate == e.duplicate <==> (ev.Ack? ==> Fresh(e.packets, ev.acked))
  {
    hide Inv; hide AckStep; hide AlarmStep; hide Acking; hide LossesAt; hide LandedSizeOf; hide FlyingSizeOf;
    hide Fresh;
    hide AddSent; hide Sent; hide AbandonFrom;
    match ev {
      case Send(_, _, _) =>
      case Ack(time, largest, acked, height) =>
        AckStepTotals(e, time, largest, acked, height);
        FreshMeansNothingLanded(e.packets, acked);
      case Timeout(time, height) =>
        if e.timeout != 0 {
          AlarmStepKeepsInv(e, time, height);
        }
    }
  }

  lemma {:induction false} RunDuplicates(e: Engine, events: seq<Event>)
    requires Inv(e) && Possible(e, events)
    ensures e.duplicate <= Run(e, events).duplicate
    ensures Run(e, events).duplicate == e.duplicate <==> AcksAreFresh(e, events)
    decreases |events|
  {
    hide Inv; hide Step; hide Enabled; hide Fresh;
    if events != [] {
      StepKeepsInv(e, events[0]);
      StepDuplicates(e, events[0]);
      RunDuplicates(Step(e, events[0]), events[1..]);
    }
  }

  /** The books of a run balance without an error term exactly when every ack was fresh when it arrived. */
  lemma BooksBalanceExactly(events: seq<Event>)
    ensures Possible(Start(), events) ==>
              var e := Run(Start(), events);
              e.sampler.totalSent == e.sampler.totalAcked + e.sampler.totalLost + e.packets.bytesInFlight + e.abandoned
              <==> AcksAreFresh(Start(), events)
  {
    hide Possible; hide Run; hide AcksAreFresh;
    if Possible(Start(), events) {
      BytesAreConserved(events);
      RunDuplicates(Start(), events);
      StartHasNoDuplicates();
    }
  }

  lemma StartHasNoDuplicates()
    ensures Start().duplicate == 0
  {}

  // ---------------------------------------------------------------- when the front is in flight

  predicate Swept(m: PacketMap) {
    m.entries == [] || m.entries[0].inFlight
  }

  /** The send does not begin an empty map with a gap. */
  predicate NoGapInFront(m: PacketMap, ev: Event) {
    ev.Send? ==> m.entries != [] || ev.number == m.Next()
  }

  lemma FinishingSweeps(e: Engine, time: int, rttUpdated: bool, acked: seq<nat>, height: nat)
    requires MidInv(e) && e.clock <= time
    ensures SamplerInv(e.sampler)
    ensures var r := PostProcessing(e, time, rttUpdated, acked, height);
            acked != [] || Swept(e.packets) ==> Swept(r.packets)
  {
    hide TimingInv; hide SamplerInv; hide TrackingInv; hide LossesAt; hide Detect; hide EventOutcome; hide Forgotten;
    hide BytesOf; hide CountOf; hide ObsoletePrefix;
    var lost := LossesAt(e, time);
    SettleAllKeepsInv(e.packets, Numbers(lost), NeverSent);
    DropObsoleteKeepsInv(Detecting(e, time).packets);
    if !rttUpdated && acked == [] && lost == [] {
      assert Numbers(lost) == [];
      SettleNothing(e.packets);
    }
  }

  /** An ack frame that names a packet sweeps the map, whatever it was; every other event keeps a swept map swept. */
  lemma StepSweeps(e: Engine, ev: Event)
    requires Inv(e) && Enabled(e, ev)
    ensures ev.Ack? && ev.acked != [] ==> Swept(Step(e, ev).packets)
    ensures Swept(e.packets) && NoGapInFront(e.packets, ev) ==> Swept(Step(e, ev).packets)
  {
    hide Inv; hide MidInv; hide PostProcessing; hide RttAfter; hide GivesRtt; hide LandedSizeOf; hide Sent;
    hide RtoStep;
    match ev {
      case Send(_, pn, bytes) =>
      case Ack(time, largest, acked, height) =>
        AckFacts(e, time, largest, acked, height);
        FinishingSweeps(Acking(e, time, largest, acked), time, GivesRtt(e, largest), acked, height);
      case Timeout(time, height) =>
        TimeoutFacts(e, time, height);
        if e.timeout != 0 {
          FinishingSweeps(e, time, false, [], height);
        } else {
          RtoEmptiesTheMap(e, time);
        }
    }
  }

  /** Every send of the run that finds the map empty takes the next packet number. */
  ghost predicate NoGapsInFront(e: Engine, events: seq<Event>)
    requires Inv(e) && Possible(e, events)
    decreases |events|
  {
    events == [] ||
    (NoGapInFront(e.packets, events[0]) && (StepKeepsInv(e, events[0]); NoGapsInFront(Step(e, events[0]), events[1..])))
  }

  lemma {:induction false} RunStaysSwept(e: Engine, events: seq<Event>)
    requires Inv(e) && Possible(e, events) && Swept(e.packets)
    ensures NoGapsInFront(e, events) ==> Swept(Run(e, events).packets)
    decreases |events|
  {
    hide Inv; hide Step; hide Enabled; hide Swept; hide NoGapInFront;
    if events != [] && NoGapsInFront(e, events) {
      StepKeepsInv(e, events[0]);
      StepSweeps(e, events[0]);
      RunStaysSwept(Step(e, events[0]), events[1..]);
    }
  }

  /** The event is an ack frame that names a packet. */
  predicate NamesAPacket(ev: Event) {
    ev.Ack? && ev.acked != []
  }

  lemma {:induction false} RunEndsSwept(e: Engine, events: seq<Event>)
    requires Inv(e) && Possible(e, events)
    ensures events != [] && NamesAPacket(events[|events| - 1]) ==> Swept(Run(e, events).packets)
    decreases |events|
  {
    hide Inv; hide Step; hide Enabled; hide Swept;
    if events != [] {
      StepKeepsInv(e, events[0]);
      StepSweeps(e, events[0]);
      RunEndsSwept(Step(e, events[0]), events[1..]);
    }
  }

  /** A run that ends in an ack frame naming a packet ends with an empty map or a front entry in flight. */
  lemma EveryAckSweepsTheMap(events: seq<Event>)
    ensures Possible(Start(), events) && events != [] && NamesAPacket(events[|events| - 1]) ==>
              Swept(Run(Start(), events).packets)
  {
    hide Start; hide Possible; hide Run; hide Swept;
    if Possible(Start(), events) {
      RunEndsSwept(Start(), events);
    }
  }

  /** Without such gaps this holds in every state, not just after acks. */
  lemma EveryStateIsSwept(events: seq<Event>)
    ensures Possible(Start(), events) && NoGapsInFront(Start(), events) ==> Swept(Run(Start(), events).packets)
  {
    hide Possible; hide Run; hide NoGapsInFront;
    if Possible(Start(), events) {
      RunStaysSwept(Start(), events);
    }
  }

  /** The packets sent are numbered from `next` on, one after the other, as the packet maker numbers them. */
  predicate Consecutive(events: seq<Event>, next: nat)
    decreases |events|
  {
    events == [] ||
    if events[0].Send?
    then events[0].number == next && Consecutive(events[1..], next + 1)
    else Consecutive(events[1..], next)
  }

  /** Only a send changes the number that comes next. */
  lemma StepNext(e: Engine, ev: Event)
    requires Inv(e) && Enabled(e, ev)
    ensures Step(e, ev).packets.Next() == if ev.Send? then ev.number + 1 else e.packets.Next()
  {
    hide Inv; hide MidInv; hide RttAfter; hide GivesRtt; hide LandedSizeOf; hide Sent; hide RtoStep; hide LossesAt;
    hide Detect;
    hide EventOutcome; hide Forgotten; hide ObsoletePrefix; hide BytesOf; hide CountOf;
    match ev {
      case Send(_, _, _) =>
      case Ack(time, largest, acked, height) =>
        AckFacts(e, time, largest, acked, height);
        DropKeepsNext(Detecting(Acking(e, time, largest, acked), time).packets);
      case Timeout(time, height) =>
        TimeoutFacts(e, time, height);
        if e.timeout != 0 {
          DropKeepsNext(Detecting(e, time).packets);
        } else {
          RtoEmptiesTheMap(e, time);
        }
    }
  }

  lemma DropKeepsNext(m: PacketMap)
    ensures DropObsolete(m).Next() == m.Next()
  {
  }

  lemma {:induction false} ConsecutiveLeavesNoGaps(e: Engine, events: seq<Event>)
    requires Inv(e) && Possible(e, events) && Consecutive(events, e.packets.Next())
    ensures NoGapsInFront(e, events)
    decreases |events|
  {
    hide Inv; hide Step; hide Enabled;
    if events != [] {
      StepKeepsInv(e, events[0]);
      StepNext(e, events[0]);
      ConsecutiveLeavesNoGaps(Step(e, events[0]), events[1..]);
    }
  }

  /** For packets numbered 1, 2, 3 and so on the map is swept in every state of every run. */
  lemma ConsecutiveRunsAreSwept(events: seq<Event>)
    ensures Possible(Start(), events) && Consecutive(events, 1) ==> Swept(Run(Start(), events).packets)
  {
    hide Possible; hide Run; hide NoGapsInFront; hide Consecutive; hide Swept;
    NextAtStart();
    if Possible(Start(), events) && Consecutive(events, 1) {
      ConsecutiveLeavesNoGaps(Start(), events);
      EveryStateIsSwept(events);
    }
  }

  lemma NextAtStart()
    ensures Start().packets.Next() == 1
  {
  }

  // ---------------------------------------------------------------- when the next snapshot balances

  /** No retransmission timeout of the run finds bytes in flight. */
  ghost predicate NothingGivenUp(e: Engine, events: seq<Event>)
    requires Inv(e) && Possible(e, events)
    decreases |events|
  {
    events == [] ||
    ((events[0].Timeout? && e.timeout == 0 ==> e.packets.bytesInFlight == 0)
     && (StepKeepsInv(e, events[0]); NothingGivenUp(Step(e, events[0]), events[1..])))
  }

  lemma StepGivesUp(e: Engine, ev: Event)
    requires Inv(e) && Enabled(e, ev)
    ensures e.abandoned <= Step(e, ev).abandoned
    ensures Step(e, ev).abandoned == e.abandoned
       <==> (ev.Timeout? && e.timeout == 0 ==> e.packets.bytesInFlight == 0)
  {
    hide Inv; hide AckStep; hide AlarmStep; hide Acking; hide LossesAt; hide LandedSizeOf; hide FlyingSizeOf;
    hide AddSent; hide Sent; hide AbandonFrom; hide DropObsolete;
    BytesNotNegative(e);
    match ev {
      case Send(_, _, _) =>
      case Ack(time, largest, acked, height) => AckStepTotals(e, time, largest, acked, height);
      case Timeout(time, height) =>
        if e.timeout != 0 {
          AlarmStepKeepsInv(e, time, height);
        }
    }
  }

  lemma {:induction false} RunGivesUp(e: Engine, events: seq<Event>)
    requires Inv(e) && Possible(e, events)
    ensures e.abandoned <= Run(e, events).abandoned
    ensures Run(e, events).abandoned == e.abandoned <==> NothingGivenUp(e, events)
    decreases |events|
  {
    hide Inv; hide Step; hide Enabled;
    if events != [] {
      StepKeepsInv(e, events[0]);
      StepGivesUp(e, events[0]);
      RunGivesUp(Step(e, events[0]), events[1..]);
    }
  }

  /** The snapshot that a send would take in state `e` gives its in-flight figure as sent less acked less lost. */
  ghost predicate NextSnapshotBalances(e: Engine, time: int, pn: nat, bytes: nat) {
    && Inv(e) && Enabled(e, Send(time, pn, bytes)) && e.packets.bytesInFlight >= 0
    && pn in Sending(e, time, pn, bytes).sampler.queue.items
    && Balanced(Sending(e, time, pn, bytes).sampler.queue.items[pn].state)
  }

  /** After a run in which timeouts gave nothing up, the next snapshot balances exactly when every ack was fresh; after
      one whose acks were all fresh, exactly when timeouts gave nothing up. */
  lemma SnapshotBalancesIff(events: seq<Event>, time: int, pn: nat, bytes: nat)
    ensures Possible(Start(), events) && Enabled(Run(Start(), events), Send(time, pn, bytes)) ==>
              var balances := NextSnapshotBalances(Run(Start(), events), time, pn, bytes);
              && (NothingGivenUp(Start(), events) ==> (balances <==> AcksAreFresh(Start(), events)))
              && (AcksAreFresh(Start(), events) ==> (balances <==> NothingGivenUp(Start(), events)))
  {
    hide Possible; hide Run; hide AcksAreFresh; hide NothingGivenUp; hide Inv; hide Enabled; hide Sending;
    hide Balanced;
    if Possible(Start(), events) && Enabled(Run(Start(), events), Send(time, pn, bytes)) {
      var e := Run(Start(), events);
      RunKeepsInv(Start(), events);
      RunDuplicates(Start(), events);
      RunGivesUp(Start(), events);
      NothingCountedAtStart();
      BytesNotNegative(e);
      SendFacts(e, time, pn, bytes);
      SnapshotTakenAtSend(e, time, pn, bytes);
    }
  }

  lemma NothingCountedAtStart()
    ensures Start().duplicate == 0 && Start().abandoned == 0 && Start().timeout == 0
  {
  }

  function SentAndGivenUp(t: int, bytes: nat): seq<Event> {
    [Send(t, 1, bytes), Timeout(t, 0)]
  }

  /** The documented equality fails: after a send that a timeout gave up, the snapshot of the next send does not
      balance. */
  lemma GivenUpBytesUnbalanceTheNext(t: int, bytes: nat, more: nat)
    requires t > 0 && bytes > 0
    ensures Possible(Start(), SentAndGivenUp(t, bytes))
    ensures var e := Run(Start(), SentAndGivenUp(t, bytes));
            Enabled(e, Send(t, 2, more)) && !NextSnapshotBalances(e, t, 2, more)
  {
    hide Step; hide Sending; hide Inv; hide Enabled; hide RtoStep;
    var events := SentAndGivenUp(t, bytes);
    var start := Start();
    BytesNotNegative(start);
    NothingSentAtStart(start);
    NothingCountedAtStart();
    var one := Sending(start, t, 1, bytes);
    OneSent(start, one, t, bytes);
    SendFacts(start, t, 1, bytes);
    OneInFlight(start, one, t, bytes);
    StepKeepsInv(one, Timeout(t, 0));
    StepNext(one, Timeout(t, 0));
    var two := Step(one, Timeout(t, 0));
    assert events[1..] == [Timeout(t, 0)] && events[1..][1..] == [];
    assert Possible(two, []) && Run(two, []) == two;
    assert Possible(one, events[1..]) && Run(one, events[1..]) == two;
    assert !NothingGivenUp(one, events[1..]);
    assert AcksAreFresh(two, []);
    assert AcksAreFresh(one, events[1..]);
    StillEnabled(one, two, t, more);
    SnapshotBalancesIff(events, t, 2, more);
  }

  lemma OneInFlight(start: Engine, one: Engine, t: int, bytes: nat)
    requires start == Start() && start.packets.bytesInFlight == 0 && start.packets.Next() <= 1 && t > 0
    requires one == Sending(start, t, 1, bytes)
    ensures one.timeout == 0 && one.packets.bytesInFlight == bytes && one.packets.Next() == 2 && one.clock == t
    ensures Enabled(one, Timeout(t, 0))
  {
    hide Sent;
  }

  lemma StillEnabled(one: Engine, two: Engine, t: int, more: nat)
    requires Inv(one) && Enabled(one, Timeout(t, 0)) && one.timeout == 0 && t > 0
    requires two == Step(one, Timeout(t, 0)) && two.packets.Next() == 2
    ensures Enabled(two, Send(t, 2, more))
  {
    hide Inv; hide AbandonFrom; hide DropObsolete;
  }
}
