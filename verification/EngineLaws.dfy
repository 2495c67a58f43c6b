/** The engine against the events of its run: what the map records is what was sent, a round trip runs from the send to
    the ack, and the samples of its congestion controller are read from the log of the run. */
module EngineLaws {
  import opened Base
  import opened RttEstimation
  import opened Samples
  import opened UnackedPackets
  import opened LossDetection
  import opened BandwidthSampling
  import opened SendEngine
  import opened EngineRuns
  import History = SamplerHistory

  ghost predicate WasSent(events: seq<Event>, pn: nat, time: int, bytes: nat) {
    exists i: nat :: i < |events| && events[i] == Send(time, pn, bytes)
  }

  /** Every entry that is not a gap is a packet of the run, with its time and size. */
  ghost predicate EntriesWereSent(m: PacketMap, events: seq<Event>) {
    forall pn: nat :: m.Has(pn) && m.At(pn).sentTime != 0 ==> WasSent(events, pn, m.At(pn).sentTime, m.At(pn).bytes)
  }

  /** No number is used twice, and the next one is above all. */
  ghost predicate NumbersBelow(events: seq<Event>, next: nat) {
    && (forall i: nat :: i < |events| && events[i].Send? ==> events[i].number < next)
    && (forall i: nat, j: nat :: i < j < |events| && events[i].Send? && events[j].Send? ==>
          events[i].number < events[j].number)
  }

  /** What is recorded was recorded before, with the same time and size. */
  ghost predicate Keeps(m: PacketMap, r: PacketMap) {
    forall pn: nat :: r.Has(pn) ==>
      m.Has(pn) && r.At(pn).sentTime == m.At(pn).sentTime && r.At(pn).bytes == m.At(pn).bytes
  }

  lemma SettlingKeepsEntries(m: PacketMap, pns: seq<nat>, state: PacketState)
    requires AllIn(m, pns)
    ensures Keeps(m, SettleAll(m, pns, state))
  {
    hide SettleAll; hide Settle;
    SettleAllAt(m, pns, state);
  }

  lemma {:induction false} AbandoningKeepsEntries(m: PacketMap, pn: nat)
    requires m.least <= pn
    ensures Keeps(m, AbandonFrom(m, pn))
    decreases m.Next() - pn
  {
    if pn < m.Next() {
      AbandoningKeepsEntries(if m.At(pn).state == Outstanding then Settle(m, pn, NeverSent) else m, pn + 1);
    }
  }

  lemma DroppingKeepsEntries(m: PacketMap)
    ensures Keeps(m, DropObsolete(m))
  {
  }

  lemma KeepsOn(a: PacketMap, b: PacketMap, c: PacketMap)
    requires Keeps(a, b) && Keeps(b, c)
    ensures Keeps(a, c)
  {
  }

  lemma PostProcessingKeepsEntries(e: Engine, time: int, rttUpdated: bool, acked: seq<nat>, height: nat)
    requires SamplerInv(e.sampler) && e.largestNewlyAcked.Some?
    ensures Keeps(e.packets, PostProcessing(e, time, rttUpdated, acked, height).packets)
  {
    hide SamplerInv; hide LossesAt; hide Keeps; hide SettleAll; hide DropObsolete; hide EventOutcome;
    SettlingKeepsEntries(e.packets, Numbers(LossesAt(e, time)), NeverSent);
    DroppingKeepsEntries(Detecting(e, time).packets);
    KeepsOn(e.packets, Detecting(e, time).packets, DropObsolete(Detecting(e, time).packets));
  }

  lemma SamplerOf(e: Engine)
    requires Inv(e)
    ensures SamplerInv(e.sampler) && (e.timeout != 0 ==> e.largestNewlyAcked.Some?) && e.packets.bytesInFlight >= 0
  {
    hide SamplerInv;
    BytesNotNegative(e);
  }

  lemma StepKeepsEntries(e: Engine, ev: Event)
    requires Inv(e) && Enabled(e, ev) && !ev.Send?
    ensures Keeps(e.packets, Step(e, ev).packets)
  {
    hide Inv; hide Keeps; hide SettleAll; hide PostProcessing; hide DropObsolete; hide AbandonFrom; hide RttAfter;
    hide GivesRtt;
    hide LandedSizeOf;
    SamplerOf(e);
    match ev {
      case Send(_, _, _) =>
      case Ack(time, largest, acked, height) =>
        var e1 := Acking(e, time, largest, acked);
        SettlingKeepsEntries(e.packets, acked, Acked);
        PostProcessingKeepsEntries(e1, time, GivesRtt(e, largest), acked, height);
        KeepsOn(e.packets, e1.packets, Step(e, ev).packets);
      case Timeout(time, height) =>
        if e.timeout != 0 {
          PostProcessingKeepsEntries(e, time, false, [], height);
        } else {
          AbandoningKeepsEntries(e.packets, e.packets.least);
          DroppingKeepsEntries(AbandonFrom(e.packets, e.packets.least));
          KeepsOn(e.packets, AbandonFrom(e.packets, e.packets.least), Step(e, ev).packets);
        }
    }
  }

  /** The clock is that of the latest event. */
  lemma StepSetsTheClock(e: Engine, ev: Event)
    requires Inv(e) && Enabled(e, ev)
    ensures Step(e, ev).clock == ev.time
  {
    hide Inv; hide SettleAll; hide LossesAt; hide Detect; hide DropObsolete; hide AbandonFrom; hide RttAfter;
    hide GivesRtt;
    hide LandedSizeOf; hide EventOutcome; hide Forgotten; hide Sent; hide AddSent;
    SamplerOf(e);
  }

  lemma StillSent(events: seq<Event>, ev: Event, pn: nat, time: int, bytes: nat)
    ensures WasSent(events, pn, time, bytes) ==> WasSent(events + [ev], pn, time, bytes)
    ensures ev == Send(time, pn, bytes) ==> WasSent(events + [ev], pn, time, bytes)
  {
    if WasSent(events, pn, time, bytes) {
      var i: nat :| i < |events| && events[i] == Send(time, pn, bytes);
      assert (events + [ev])[i] == events[i];
    }
    if ev == Send(time, pn, bytes) {
      assert (events + [ev])[|events|] == ev;
    }
  }

  lemma StepKeepsRecord(e: Engine, past: seq<Event>, ev: Event)
    requires Inv(e) && Enabled(e, ev) && EntriesWereSent(e.packets, past) && NumbersBelow(past, e.packets.Next())
    ensures EntriesWereSent(Step(e, ev).packets, past + [ev]) && NumbersBelow(past + [ev], Step(e, ev).packets.Next())
  {
    hide Inv; hide WasSent; hide AckStep; hide AlarmStep; hide RtoStep; hide AddSent; hide Sent;
    StepNext(e, ev);
    forall pn: nat, time: int, bytes: nat
      ensures WasSent(past, pn, time, bytes) ==> WasSent(past + [ev], pn, time, bytes)
    {
      StillSent(past, ev, pn, time, bytes);
    }
    if ev.Send? {
      AddSentAt(e.packets, ev.number, ev.time, ev.bytes);
      StillSent(past, ev, ev.number, ev.time, ev.bytes);
    } else {
      StepKeepsEntries(e, ev);
    }
  }

  // ---------------------------------------------------------------- round trips

  /** An ack whose largest packet is still in flight measures from the send of that packet to the ack; any other leaves
      the round trips alone. */
  ghost predicate RttLaw(e: Engine, past: seq<Event>, time: int, largest: nat, r: Rtt) {
    if !e.packets.InFlight(largest) then r == e.rtt else
      && (exists sent: int, bytes: nat :: WasSent(past, largest, sent, bytes))
      && forall sent: int, bytes: nat :: WasSent(past, largest, sent, bytes) ==>
           if time - sent <= 0 || time - sent == INT64_MAX then r == e.rtt else
             && r.latest == time - sent
             && r.minimum == (if e.rtt.minimum == 0 || time - sent < e.rtt.minimum then time - sent else e.rtt.minimum)
             && r.previous == e.rtt.smoothed
             && (e.rtt.smoothed == 0 ==> r.smoothed == time - sent)
             && (e.rtt.smoothed > 0 ==> SevenToOne(e.rtt.smoothed, time - sent, r.smoothed))
  }

  lemma SentOnce(past: seq<Event>, next: nat, pn: nat, time: int, bytes: nat, time': int, bytes': nat)
    requires NumbersBelow(past, next) && WasSent(past, pn, time, bytes) && WasSent(past, pn, time', bytes')
    ensures time == time' && bytes == bytes'
  {
  }

  /** A packet is still in flight exactly when it is in flight, and then it has a send time. */
  lemma UnackedIsInFlight(e: Engine, pn: nat)
    requires Inv(e)
    ensures GivesRtt(e, pn) <==> e.packets.InFlight(pn)
  {
  }

  lemma MeasuresFromTheSend(e: Engine, past: seq<Event>, time: int, largest: nat)
    requires Inv(e) && EntriesWereSent(e.packets, past) && NumbersBelow(past, e.packets.Next()) && 0 <= e.rtt.smoothed
    ensures RttLaw(e, past, time, largest, RttAfter(e, largest, time))
  {
    hide WasSent; hide NumbersBelow; hide SevenToOne; hide Updated; hide Inv; hide IsUnacked;
    UnackedIsInFlight(e, largest);
    if GivesRtt(e, largest) {
      var x := e.packets.At(largest);
      assert WasSent(past, largest, x.sentTime, x.bytes);
      forall sent: int, bytes: nat | WasSent(past, largest, sent, bytes)
        ensures sent == x.sentTime
      {
        SentOnce(past, e.packets.Next(), largest, sent, bytes, x.sentTime, x.bytes);
      }
      OneMeasurement(e.rtt, time - x.sentTime);
    }
  }

  lemma OneMeasurement(r: Rtt, delta: int)
    requires 0 <= r.smoothed
    ensures var t := Updated(r, Measurement(delta, 0));
            if delta <= 0 || delta == INT64_MAX then t == r else
              && t.latest == delta && t.previous == r.smoothed
              && t.minimum == (if r.minimum == 0 || delta < r.minimum then delta else r.minimum)
              && (r.smoothed == 0 ==> t.smoothed == delta)
              && (r.smoothed > 0 ==> SevenToOne(r.smoothed, delta, t.smoothed))
  {
    hide SevenToOne;
    if delta > 0 && delta != INT64_MAX {
      AcceptedMeasurement(r, Measurement(delta, 0));
    }
  }

  /** Only an ack measures, and the average never falls below zero. */
  lemma StepMeasures(e: Engine, past: seq<Event>, ev: Event)
    requires Inv(e) && Enabled(e, ev) && EntriesWereSent(e.packets, past) && NumbersBelow(past, e.packets.Next())
    requires 0 <= e.rtt.smoothed
    ensures if ev.Ack? then RttLaw(e, past, ev.time, ev.largest, Step(e, ev).rtt) else Step(e, ev).rtt == e.rtt
    ensures 0 <= Step(e, ev).rtt.smoothed
  {
    hide Inv; hide RttLaw; hide Detecting; hide LossesAt; hide SettleAll; hide LandedSizeOf; hide AbandonFrom;
    hide Detect;
    hide DropObsolete; hide GivesRtt; hide EventOutcome; hide NumbersBelow; hide EntriesWereSent; hide RttAfter;
    SamplerOf(e);
    if ev.Ack? {
      MeasuresFromTheSend(e, past, ev.time, ev.largest);
      MeasuringStaysPositive(e, ev.largest, ev.time);
      PostProcessingKeepsRtt(Acking(e, ev.time, ev.largest, ev.acked), ev.time, GivesRtt(e, ev.largest),
                             ev.acked, ev.height);
    } else if ev.Timeout? && e.timeout != 0 {
      PostProcessingKeepsRtt(e, ev.time, false, [], ev.height);
    }
  }

  lemma MeasuringStaysPositive(e: Engine, largest: nat, time: int)
    requires 0 <= e.rtt.smoothed
    ensures 0 <= RttAfter(e, largest, time).smoothed
  {
    hide Updated; hide Useless;
    if GivesRtt(e, largest) {
      OneMeasurement(e.rtt, time - e.packets.At(largest).sentTime);
    }
  }

  lemma PostProcessingKeepsRtt(e: Engine, time: int, rttUpdated: bool, acked: seq<nat>, height: nat)
    requires SamplerInv(e.sampler) && e.largestNewlyAcked.Some?
    ensures PostProcessing(e, time, rttUpdated, acked, height).rtt == e.rtt
  {
    hide SamplerInv; hide Detect; hide LossesAt; hide SettleAll; hide DropObsolete; hide EventOutcome;
  }

  // ---------------------------------------------------------------- the sampler's log

  /** What an event adds to the log of the sampler: a send with what was in flight before it, losses, then acks. */
  ghost function Logged(e: Engine, log: seq<History.Entry>, ev: Event): seq<History.Entry>
    requires Inv(e) && Enabled(e, ev)
  {
    SamplerOf(e);
    match ev
    case Send(time, pn, bytes) => log + [History.Sends(time, pn, bytes, e.packets.bytesInFlight)]
    case Ack(time, largest, acked, _) =>
      History.AckLog(History.LossLog(log, LossesAt(Acking(e, time, largest, acked), time)), e.sampler.queue,
                     time, acked)
    case Timeout(time, _) => if e.timeout != 0 then History.LossLog(log, LossesAt(e, time)) else log
  }

  lemma FinishingRests(e: Engine, log: seq<History.Entry>, time: int, rttUpdated: bool, acked: seq<nat>,
      lost: seq<LostPacket>, height: nat)
    requires SamplerInv(e.sampler) && History.Rests(e.sampler, log)
    ensures History.Rests(Finishing(e, time, rttUpdated, acked, lost, height).sampler,
                          History.AckLog(History.LossLog(log, lost), e.sampler.queue, time, acked))
  {
    hide SamplerInv; hide History.Rests; hide EventOutcome; hide Forgotten;
    if rttUpdated || acked != [] || lost != [] {
      var step := History.Event(time, acked, lost, height);
      History.NextRests(e.sampler, log, step);
      History.RestsInv(History.Next(e.sampler, step), History.Logged(e.sampler, log, step));
      History.NextRests(History.Next(e.sampler, step), History.Logged(e.sampler, log, step),
                        History.Forget(e.packets.least));
    }
  }

  lemma StepRests(e: Engine, log: seq<History.Entry>, ev: Event)
    requires Inv(e) && Enabled(e, ev) && History.Rests(e.sampler, log)
    ensures History.Rests(Step(e, ev).sampler, Logged(e, log, ev))
  {
    hide Inv; hide History.Rests; hide SamplerInv; hide LossesAt; hide SettleAll; hide Finishing; hide RttAfter;
    hide GivesRtt;
    hide LandedSizeOf; hide Sent; hide History.AckLog; hide AddSent; hide AbandonFrom; hide DropObsolete;
    SamplerOf(e);
    match ev {
      case Send(time, pn, bytes) =>
        EmplacesAgain(e, time, pn, bytes);
        History.NextRests(e.sampler, log, History.Send(time, pn, bytes, e.packets.bytesInFlight));
      case Ack(time, largest, acked, height) =>
        var e1 := Acking(e, time, largest, acked);
        FinishingRests(Detecting(e1, time), log, time, GivesRtt(e, largest), acked, LossesAt(e1, time), height);
      case Timeout(time, height) =>
        if e.timeout != 0 {
          FinishingRests(Detecting(e, time), log, time, false, [], LossesAt(e, time), height);
          NoAcksToLog(History.LossLog(log, LossesAt(e, time)), e, time);
        }
    }
  }

  lemma NoAcksToLog(log: seq<History.Entry>, e: Engine, time: int)
    ensures History.AckLog(log, e.sampler.queue, time, []) == log
  {
  }

  lemma EmplacesAgain(e: Engine, time: int, pn: nat, bytes: nat)
    requires Inv(e) && Enabled(e, Send(time, pn, bytes))
    ensures History.Enabled(e.sampler, History.Send(time, pn, bytes, e.packets.bytesInFlight))
  {
    hide Parts;
    SendingKeepsParts(e, time, pn, bytes);
  }

  // ---------------------------------------------------------------- whole runs

  ghost predicate Recorded(e: Engine, past: seq<Event>, log: seq<History.Entry>) {
    && EntriesWereSent(e.packets, past) && NumbersBelow(past, e.packets.Next()) && 0 <= e.rtt.smoothed
    && History.Rests(e.sampler, log)
  }

  lemma StepRecords(e: Engine, past: seq<Event>, log: seq<History.Entry>, ev: Event)
    requires Inv(e) && Enabled(e, ev) && Recorded(e, past, log)
    ensures Recorded(Step(e, ev), past + [ev], Logged(e, log, ev))
  {
    hide Inv; hide Enabled; hide Step; hide Logged; hide EntriesWereSent; hide NumbersBelow; hide History.Rests;
    hide RttLaw;
    StepKeepsRecord(e, past, ev);
    StepMeasures(e, past, ev);
    StepRests(e, log, ev);
  }

  /** The log of a run. */
  ghost function RunLog(e: Engine, log: seq<History.Entry>, events: seq<Event>): seq<History.Entry>
    requires Inv(e) && Possible(e, events)
    decreases |events|
  {
    if events == [] then log else
      StepKeepsInv(e, events[0]); RunLog(Step(e, events[0]), Logged(e, log, events[0]), events[1..])
  }

  lemma {:induction false} RunRecords(e: Engine, past: seq<Event>, log: seq<History.Entry>, events: seq<Event>)
    requires Inv(e) && Recorded(e, past, log)
    ensures Possible(e, events) ==> Recorded(Run(e, events), past + events, RunLog(e, log, events))
    decreases |events|
  {
    hide Inv; hide Enabled; hide Step; hide Logged; hide Recorded;
    if events == [] {
      assert past + events == past;
    } else if Possible(e, events) {
      StepKeepsInv(e, events[0]);
      StepRecords(e, past, log, events[0]);
      RunRecords(Step(e, events[0]), past + [events[0]], Logged(e, log, events[0]), events[1..]);
      assert past + [events[0]] + events[1..] == past + events;
    }
  }

  lemma StartRecords()
    ensures Recorded(Start(), [], [])
    ensures Start().packets == PacketMap(1, [], 0, 0, None, 0) && Start().leastInFlight == Some(1)
            && Start().timeout == 0
    ensures Start().clock == 0
  {
    hide History.Rests;
    History.NewRests();
  }

  /** In every run every event measures a round trip exactly if it is an ack whose largest packet is still in flight,
      and then from the send of that packet in the run to the ack. */
  lemma EveryEventMeasures(events: seq<Event>, ev: Event)
    ensures Possible(Start(), events) && Enabled(Run(Start(), events), ev) ==>
              var e := Run(Start(), events);
              && Inv(e)
              && if ev.Ack? then RttLaw(e, events, ev.time, ev.largest, Step(e, ev).rtt) else Step(e, ev).rtt == e.rtt
  {
    hide Start; hide Possible; hide Run; hide Inv; hide Enabled; hide Step; hide RttLaw; hide EntriesWereSent;
    hide NumbersBelow; hide History.Rests;
    if Possible(Start(), events) && Enabled(Run(Start(), events), ev) {
      StartRecords();
      RunKeepsInv(Start(), events);
      RunRecords(Start(), [], [], events);
      assert [] + events == events;
      StepMeasures(Run(Start(), events), events, ev);
    }
  }

  /** In every run the sampler's totals and snapshots are read from the log of the run, and so are the samples of every
      ack frame: each is the smaller of the two slopes between its packet and the last ack before that was sent. */
  lemma EveryAckIsSampledFromTheLog(events: seq<Event>, time: int, largest: nat, acked: seq<nat>, height: nat, i: nat)
    ensures Possible(Start(), events) && Enabled(Run(Start(), events), Ack(time, largest, acked, height))
            && i < |acked| ==>
              var e, log := Run(Start(), events), RunLog(Start(), [], events);
              var lost := LossesAt(Acking(e, time, largest, acked), time);
              && SamplerInv(LoseAll(e.sampler, lost))
              && History.Agrees(e.sampler, log)
              && History.ReadFromLog(
                   e.sampler, History.LogAt(History.LossLog(log, lost), e.sampler.queue, time, acked, i),
                   time, acked[i],
                   SampleAt(Progress(LoseAll(e.sampler, lost), NO_EVENT_SAMPLE, NO_STATE), time, acked, i))
  {
    hide Start; hide Possible; hide Run; hide Inv; hide EntriesWereSent; hide NumbersBelow;
    hide History.Agrees; hide History.CurveAgrees; hide SamplerInv; hide SampleAt; hide LossesAt;
    hide History.FromAnchor; hide History.FromCurve;
    if Possible(Start(), events) && Enabled(Run(Start(), events), Ack(time, largest, acked, height)) && i < |acked| {
      StartRecords();
      RunRecords(Start(), [], [], events);
      var e, log := Run(Start(), events), RunLog(Start(), [], events);
      var lost := LossesAt(Acking(e, time, largest, acked), time);
      LoseAllKeepsInv(e.sampler, lost);
      LosingKeeps(e.sampler, lost);
      History.LossesAgree(e.sampler, log, lost);
      History.LossesCurve(e.sampler, log, lost);
      History.SampleAtIsRead(Progress(LoseAll(e.sampler, lost), NO_EVENT_SAMPLE, NO_STATE),
                             History.LossLog(log, lost), time, acked, i);
    }
  }
}
