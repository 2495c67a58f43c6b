/** The sampler against a log of what happened to it: packets sent, tracked packets acknowledged, bytes lost,
    application limits. Totals, snapshots and samples are all read from the log. */
module SamplerHistory {
  import opened Base
  import opened Samples
  import opened PacketNumberQueue
  import opened LossDetection
  import opened AckPoints
  import opened BandwidthSampling

  /** `inFlight` is what was in flight before the packet. */
  datatype Entry =
    | Sends(time: int, number: nat, bytes: nat, inFlight: nat)
    | Acks(time: int, number: nat)
    | Loses(bytes: nat)
    | Limits

  // ---------------------------------------------------------------- reading the log

  ghost function SentBytes(log: seq<Entry>): nat {
    if log == [] then 0 else
      var e := log[|log| - 1];
      SentBytes(log[..|log| - 1]) + if e.Sends? then e.bytes else 0
  }

  ghost function LostTotal(log: seq<Entry>): nat {
    if log == [] then 0 else
      var e := log[|log| - 1];
      LostTotal(log[..|log| - 1]) + if e.Loses? then e.bytes else 0
  }

  /** Where the packet was sent, the last time if the number was used again. */
  ghost function SendOf(log: seq<Entry>, pn: nat): (i: Option<nat>)
    ensures i.Some? ==> i.value < |log| && log[i.value].Sends? && log[i.value].number == pn
    ensures forall j: nat :: j < |log| && log[j].Sends? && log[j].number == pn ==> i.Some? && j <= i.value
  {
    if log == [] then None
    else if log[|log| - 1].Sends? && log[|log| - 1].number == pn then Some(|log| - 1)
    else SendOf(log[..|log| - 1], pn)
  }

  ghost function SizeIn(log: seq<Entry>, pn: nat): nat {
    var i := SendOf(log, pn);
    if i.Some? then log[i.value].bytes else 0
  }

  ghost function AckedBytes(log: seq<Entry>): nat {
    if log == [] then 0 else
      var before, e := log[..|log| - 1], log[|log| - 1];
      AckedBytes(before) + if e.Acks? then SizeIn(before, e.number) else 0
  }

  ghost predicate IsAnchor(e: Entry) {
    e.Acks? || (e.Sends? && e.inFlight == 0)
  }

  /** The last ack, or the last packet sent with nothing in flight, whichever is later. */
  ghost function Anchor(log: seq<Entry>): (a: Option<nat>)
    ensures a.Some? ==> a.value < |log| && IsAnchor(log[a.value])
    ensures forall j: nat :: j < |log| && IsAnchor(log[j]) ==> a.Some? && j <= a.value
  {
    if log == [] then None
    else if IsAnchor(log[|log| - 1]) then Some(|log| - 1)
    else Anchor(log[..|log| - 1])
  }

  /** The send of the packet that the anchor acks, or the anchor itself when it is a send. */
  ghost function SendBehind(log: seq<Entry>, a: nat): Option<nat>
    requires a < |log| && IsAnchor(log[a])
  {
    if log[a].Acks? then SendOf(log[..a], log[a].number) else Some(a)
  }

  /** The time and the total sent that a packet's send stands for. */
  ghost predicate IsOrigin(log: seq<Entry>, sentTime: int, ackTime: int, sentTotal: nat) {
    var a := Anchor(log);
    if a.None? then sentTime == 0 && ackTime == 0 && sentTotal == 0 else
      var b := SendBehind(log, a.value);
      && ackTime == log[a.value].time
      && b.Some? && sentTime == log[b.value].time && sentTotal == SentBytes(log[..b.value + 1])
  }

  ghost function LastNumber(log: seq<Entry>): Option<nat> {
    if log == [] then None
    else if log[|log| - 1].Sends? then Some(log[|log| - 1].number)
    else LastNumber(log[..|log| - 1])
  }

  /** How much of the log ends with the last application limit; none of it before there is one. */
  ghost function LimitedUpTo(log: seq<Entry>): (n: nat)
    ensures n <= |log|
  {
    if log == [] then 0 else if log[|log| - 1].Limits? then |log| else LimitedUpTo(log[..|log| - 1])
  }

  /** The sender is limited from the start, and from every limit on, until a packet sent later is acked. */
  ghost predicate IsLimited(log: seq<Entry>) {
    var n := LimitedUpTo(log);
    forall j: nat :: n <= j < |log| && log[j].Acks? ==>
      LastNumber(log[..n]).Some? && log[j].number <= LastNumber(log[..n]).value
  }

  // ---------------------------------------------------------------- the sampler agrees with the log

  ghost predicate TotalsAgree(s: Sampler, log: seq<Entry>) {
    && s.totalSent == SentBytes(log) && s.totalAcked == AckedBytes(log) && s.totalLost == LostTotal(log)
    && IsOrigin(log, s.lastAckedSentTime, s.lastAckedAckTime, s.sentAtLastAcked)
  }

  ghost predicate LimitAgrees(s: Sampler, log: seq<Entry>) {
    && s.lastSent == LastNumber(log) && (s.appLimited <==> IsLimited(log))
    && s.endOfAppLimited == LastNumber(log[..LimitedUpTo(log)])
  }

  /** The snapshot of a packet says what the log up to its send says. */
  ghost predicate SnapshotAgrees(log: seq<Entry>, pn: nat, x: Snapshot) {
    var i := SendOf(log, pn);
    && i.Some? && log[i.value] == Sends(x.sentTime, pn, x.size, log[i.value].inFlight)
    && var at := log[..i.value + 1];
       && IsOrigin(at, x.lastAckedSentTime, x.lastAckedAckTime, x.sentAtLastAcked)
       && x.state == SendState(true, IsLimited(at), SentBytes(at), AckedBytes(at), LostTotal(at),
                               log[i.value].inFlight + x.size)
  }

  ghost predicate SnapshotsAgree(s: Sampler, log: seq<Entry>) {
    forall pn: nat :: pn in s.queue.items ==> SnapshotAgrees(log, pn, s.queue.items[pn])
  }

  ghost predicate Agrees(s: Sampler, log: seq<Entry>) {
    TotalsAgree(s, log) && LimitAgrees(s, log) && SnapshotsAgree(s, log)
  }

  // ---------------------------------------------------------------- growing the log

  lemma Grown(log: seq<Entry>, e: Entry)
    ensures (log + [e])[..|log|] == log
    ensures SentBytes(log + [e]) == SentBytes(log) + (if e.Sends? then e.bytes else 0)
    ensures AckedBytes(log + [e]) == AckedBytes(log) + (if e.Acks? then SizeIn(log, e.number) else 0)
    ensures LostTotal(log + [e]) == LostTotal(log) + (if e.Loses? then e.bytes else 0)
    ensures LastNumber(log + [e]) == if e.Sends? then Some(e.number) else LastNumber(log)
    ensures forall pn: nat ::
              SendOf(log + [e], pn) == if e.Sends? && e.number == pn then Some(|log|) else SendOf(log, pn)
    ensures Anchor(log + [e]) == if IsAnchor(e) then Some(|log|) else Anchor(log)
    ensures LimitedUpTo(log + [e]) == if e.Limits? then |log| + 1 else LimitedUpTo(log)
  {
    assert (log + [e])[..|log|] == log;
  }

  lemma PrefixOfGrown(log: seq<Entry>, e: Entry, n: nat)
    requires n <= |log|
    ensures (log + [e])[..n] == log[..n]
  {
  }

  /** What was said about a snapshot stays said. */
  lemma SnapshotStays(log: seq<Entry>, e: Entry, pn: nat, x: Snapshot)
    requires SnapshotAgrees(log, pn, x) && !(e.Sends? && e.number == pn)
    ensures SnapshotAgrees(log + [e], pn, x)
  {
    hide SentBytes; hide AckedBytes; hide LostTotal; hide IsOrigin; hide IsLimited;
    Grown(log, e);
    PrefixOfGrown(log, e, SendOf(log, pn).value + 1);
  }

  /** So does the origin, as long as no anchor comes. */
  lemma OriginStays(log: seq<Entry>, e: Entry, sentTime: int, ackTime: int, sentTotal: nat)
    requires IsOrigin(log, sentTime, ackTime, sentTotal) && !IsAnchor(e)
    ensures IsOrigin(log + [e], sentTime, ackTime, sentTotal)
  {
    hide SentBytes;
    Grown(log, e);
    var a := Anchor(log);
    if a.Some? {
      PrefixOfGrown(log, e, a.value);
      var b := SendBehind(log, a.value);
      assert SendBehind(log + [e], a.value) == b;
      PrefixOfGrown(log, e, b.value + 1);
    }
  }

  lemma OriginOfIdleSend(log: seq<Entry>, e: Entry)
    requires e.Sends? && e.inFlight == 0
    ensures IsOrigin(log + [e], e.time, e.time, SentBytes(log) + e.bytes)
  {
    Grown(log, e);
    assert (log + [e])[..|log| + 1] == log + [e];
  }

  lemma OriginOfAck(log: seq<Entry>, e: Entry)
    requires e.Acks? && SendOf(log, e.number).Some?
    ensures var i := SendOf(log, e.number).value; IsOrigin(log + [e], log[i].time, e.time, SentBytes(log[..i + 1]))
  {
    hide SentBytes;
    Grown(log, e);
    var i := SendOf(log, e.number).value;
    assert SendBehind(log + [e], |log|) == Some(i);
    PrefixOfGrown(log, e, i + 1);
  }

  // ---------------------------------------------------------------- limits

  lemma LimitGrows(log: seq<Entry>, e: Entry)
    ensures IsLimited(log + [e]) <==>
            e.Limits? || (IsLimited(log) && (e.Acks? ==>
              var end := LastNumber(log[..LimitedUpTo(log)]); end.Some? && e.number <= end.value))
    ensures LastNumber((log + [e])[..LimitedUpTo(log + [e])])
         == if e.Limits? then LastNumber(log) else LastNumber(log[..LimitedUpTo(log)])
  {
    hide LastNumber; hide LimitedUpTo;
    Grown(log, e);
    var n := LimitedUpTo(log);
    if e.Limits? {
      assert (log + [e])[..|log| + 1] == log + [e];
    } else {
      PrefixOfGrown(log, e, n);
      forall j: nat | n <= j < |log| ensures (log + [e])[j] == log[j] {}
      assert (log + [e])[|log|] == e;
    }
  }

  // ---------------------------------------------------------------- sending

  lemma SendAgrees(s: Sampler, log: seq<Entry>, time: int, pn: nat, bytes: nat, inFlight: nat)
    requires Agrees(s, log) && CanEmplace(s.queue, pn) && IndexedInv(s.queue)
    ensures Agrees(Sent(s, time, pn, bytes, inFlight), log + [Sends(time, pn, bytes, inFlight)])
    ensures Sent(s, time, pn, bytes, inFlight).queue.items.Keys == s.queue.items.Keys + {pn}
  {
    hide SentBytes; hide AckedBytes; hide LostTotal; hide IsOrigin; hide IsLimited; hide SnapshotAgrees; hide Observe;
    var e := Sends(time, pn, bytes, inFlight);
    var r, log' := Sent(s, time, pn, bytes, inFlight), log + [e];
    Grown(log, e);
    LimitGrows(log, e);
    if inFlight == 0 {
      OriginOfIdleSend(log, e);
    } else {
      OriginStays(log, e, s.lastAckedSentTime, s.lastAckedAckTime, s.sentAtLastAcked);
    }
    assert TotalsAgree(r, log') && LimitAgrees(r, log');
    forall k: nat | k in r.queue.items
      ensures SnapshotAgrees(log', k, r.queue.items[k])
    {
      if k == pn {
        TakenAgrees(log, e, r, r.queue.items[k]);
      } else {
        assert r.queue.items[k] == s.queue.items[k];
        SnapshotStays(log, e, k, s.queue.items[k]);
      }
    }
  }

  /** The snapshot just taken. */
  lemma TakenAgrees(log: seq<Entry>, e: Entry, r: Sampler, x: Snapshot)
    requires e.Sends? && TotalsAgree(r, log + [e]) && LimitAgrees(r, log + [e])
    requires x == Snapshot(e.time, e.bytes, r.sentAtLastAcked, r.lastAckedSentTime, r.lastAckedAckTime,
                           SendState(true, r.appLimited, r.totalSent, r.totalAcked, r.totalLost, e.inFlight + e.bytes))
    ensures SnapshotAgrees(log + [e], e.number, x)
  {
    hide SentBytes; hide AckedBytes; hide LostTotal; hide IsOrigin; hide IsLimited;
    Grown(log, e);
    assert (log + [e])[..|log| + 1] == log + [e];
  }

  // ---------------------------------------------------------------- acks and losses

  lemma CreditAgrees(s: Sampler, log: seq<Entry>, time: int, pn: nat)
    requires Agrees(s, log) && pn in s.queue.items
    ensures Agrees(Credited(s, time, pn, s.queue.items[pn]), log + [Acks(time, pn)])
  {
    hide SentBytes; hide AckedBytes; hide LostTotal; hide IsOrigin; hide IsLimited; hide SnapshotAgrees; hide Observe;
    var x, e := s.queue.items[pn], Acks(time, pn);
    var r, log' := Credited(s, time, pn, x), log + [e];
    Grown(log, e);
    LimitGrows(log, e);
    SnapshotSays(log, pn, x);
    OriginOfAck(log, e);
    assert TotalsAgree(r, log') && LimitAgrees(r, log');
    forall k: nat | k in r.queue.items
      ensures SnapshotAgrees(log', k, r.queue.items[k])
    {
      SnapshotStays(log, e, k, s.queue.items[k]);
    }
  }

  lemma SnapshotSays(log: seq<Entry>, pn: nat, x: Snapshot)
    requires SnapshotAgrees(log, pn, x)
    ensures var i := SendOf(log, pn);
            && i.Some? && x.sentTime == log[i.value].time && x.size == SizeIn(log, pn)
            && x.state.totalSent == SentBytes(log[..i.value + 1])
  {
    hide SentBytes; hide AckedBytes; hide LostTotal; hide IsOrigin; hide IsLimited;
  }

  /** Pruning the candidates, dropping snapshots and closing an event leave the rest as it is. */
  lemma OthersAgree(s: Sampler, log: seq<Entry>, r: Sampler)
    requires Agrees(s, log)
    requires r == s.(candidates := r.candidates, recent := r.recent, ackedAfterLastEvent := r.ackedAfterLastEvent,
                     overestimateAvoidance := r.overestimateAvoidance, queue := r.queue)
    requires forall k: nat :: k in r.queue.items ==> k in s.queue.items && r.queue.items[k] == s.queue.items[k]
    ensures Agrees(r, log)
  {
    hide SentBytes; hide AckedBytes; hide LostTotal; hide IsOrigin; hide IsLimited; hide SnapshotAgrees;
  }

  /** The log after the tracked ones of some packets have been acked. */
  ghost function AckLog(log: seq<Entry>, q: Indexed<Snapshot>, time: int, acked: seq<nat>): seq<Entry> {
    if acked == [] then log else
      var before, pn := AckLog(log, q, time, acked[..|acked| - 1]), acked[|acked| - 1];
      if pn in q.items then before + [Acks(time, pn)] else before
  }

  lemma {:induction false} AcksAgree(p: Progress, log: seq<Entry>, time: int, acked: seq<nat>)
    requires SamplerInv(p.s) && Agrees(p.s, log)
    ensures Agrees(AckAll(p, time, acked).s, AckLog(log, p.s.queue, time, acked))
    ensures AckAll(p, time, acked).s.queue == p.s.queue
    decreases |acked|
  {
    hide SamplerInv; hide Agrees; hide AckOne;
    if acked != [] {
      var before, pn := acked[..|acked| - 1], acked[|acked| - 1];
      AcksAgree(p, log, time, before);
      AckOneCredits(AckAll(p, time, before), time, pn);
      OneAckAgrees(AckAll(p, time, before), AckLog(log, p.s.queue, time, before), time, pn);
    }
  }

  lemma OneAckAgrees(p: Progress, log: seq<Entry>, time: int, pn: nat)
    requires SamplerInv(p.s) && Agrees(p.s, log)
    ensures Agrees(AckOne(p, time, pn).s, if pn in p.s.queue.items then log + [Acks(time, pn)] else log)
  {
    hide SamplerInv; hide Agrees; hide Credited; hide Pruned; hide TrackedSample;
    if pn in p.s.queue.items {
      var x := p.s.queue.items[pn];
      CreditAgrees(p.s, log, time, pn);
      CreditKeepsQueue(p.s, time, pn, x);
      OthersAgree(Credited(p.s, time, pn, x), log + [Acks(time, pn)], Acknowledged(p.s, time, pn, x));
    }
  }

  lemma CreditKeepsQueue(s: Sampler, time: int, pn: nat, x: Snapshot)
    ensures Acknowledged(s, time, pn, x) == Credited(s, time, pn, x).(
              candidates := Acknowledged(s, time, pn, x).candidates)
    ensures Credited(s, time, pn, x).queue == s.queue
  {
  }

  ghost function LossLog(log: seq<Entry>, lost: seq<LostPacket>): seq<Entry> {
    if lost == [] then log else LossLog(log, lost[..|lost| - 1]) + [Loses(lost[|lost| - 1].bytes)]
  }

  lemma LossAgrees(s: Sampler, log: seq<Entry>, bytes: nat)
    requires Agrees(s, log)
    ensures Agrees(s.(totalLost := s.totalLost + bytes), log + [Loses(bytes)])
  {
    hide SentBytes; hide AckedBytes; hide LostTotal; hide IsOrigin; hide IsLimited; hide SnapshotAgrees;
    var e := Loses(bytes);
    Grown(log, e);
    LimitGrows(log, e);
    OriginStays(log, e, s.lastAckedSentTime, s.lastAckedAckTime, s.sentAtLastAcked);
    forall k: nat | k in s.queue.items
      ensures SnapshotAgrees(log + [e], k, s.queue.items[k])
    {
      SnapshotStays(log, e, k, s.queue.items[k]);
    }
  }

  lemma {:induction false} LossesAgree(s: Sampler, log: seq<Entry>, lost: seq<LostPacket>)
    requires Agrees(s, log)
    ensures Agrees(LoseAll(s, lost), LossLog(log, lost))
    decreases |lost|
  {
    hide Agrees;
    if lost != [] {
      var before, bytes := lost[..|lost| - 1], lost[|lost| - 1].bytes;
      LossesAgree(s, log, before);
      LossAgrees(LoseAll(s, before), LossLog(log, before), bytes);
      assert LoseAll(s, lost) == LoseAll(s, before).(totalLost := LoseAll(s, before).totalLost + bytes);
    } else {
      assert LoseAll(s, lost) == s;
    }
  }

  lemma LimitAppAgrees(s: Sampler, log: seq<Entry>)
    requires Agrees(s, log)
    ensures Agrees(AppLimitedNow(s), log + [Limits])
  {
    hide SentBytes; hide AckedBytes; hide LostTotal; hide IsOrigin; hide IsLimited; hide SnapshotAgrees;
    var e := Limits;
    Grown(log, e);
    LimitGrows(log, e);
    OriginStays(log, e, s.lastAckedSentTime, s.lastAckedAckTime, s.sentAtLastAcked);
    forall k: nat | k in s.queue.items
      ensures SnapshotAgrees(log + [e], k, s.queue.items[k])
    {
      SnapshotStays(log, e, k, s.queue.items[k]);
    }
  }

  // ---------------------------------------------------------------- steps and runs

  datatype Step =
    | Send(time: int, number: nat, bytes: nat, inFlight: nat)
    | Event(time: int, acked: seq<nat>, lost: seq<LostPacket>, height: nat)
    | Forget(leastUnacked: nat)
    | Limit
    | Avoid

  /** Packet numbers increase, as far as the sampler can tell. */
  ghost predicate Enabled(s: Sampler, step: Step) {
    step.Send? ==> CanEmplace(s.queue, step.number)
  }

  function Next(s: Sampler, step: Step): Sampler
    requires SamplerInv(s)
  {
    match step
    case Send(time, pn, bytes, inFlight) => Sent(s, time, pn, bytes, inFlight)
    case Event(time, acked, lost, height) => EventOutcome(s, time, acked, lost, height).0
    case Forget(leastUnacked) => Forgotten(s, leastUnacked)
    case Limit => AppLimitedNow(s)
    case Avoid => s.(overestimateAvoidance := true)
  }

  ghost function Logged(s: Sampler, log: seq<Entry>, step: Step): seq<Entry> {
    match step
    case Send(time, pn, bytes, inFlight) => log + [Sends(time, pn, bytes, inFlight)]
    case Event(time, acked, lost, _) => AckLog(LossLog(log, lost), s.queue, time, acked)
    case Forget(_) => log
    case Limit => log + [Limits]
    case Avoid => log
  }

  lemma NextKeepsInv(s: Sampler, step: Step)
    requires SamplerInv(s)
    ensures SamplerInv(Next(s, step))
  {
    hide SamplerInv; hide Sent; hide EventOutcome; hide Forgotten;
    match step {
      case Send(time, pn, bytes, inFlight) => SentKeepsInv(s, time, pn, bytes, inFlight);
      case Event(time, acked, lost, height) => EventKeepsInv(s, time, acked, lost, height);
      case Forget(leastUnacked) => ForgottenKeepsInv(s, leastUnacked);
      case Limit => AppLimitedKeepsInv(s);
      case Avoid => AvoidanceKeepsInv(s);
    }
  }

  lemma QueueInv(s: Sampler)
    requires SamplerInv(s)
    ensures IndexedInv(s.queue)
  {
  }

  lemma NextAgrees(s: Sampler, log: seq<Entry>, step: Step)
    requires SamplerInv(s) && Enabled(s, step) && Agrees(s, log)
    ensures Agrees(Next(s, step), Logged(s, log, step))
  {
    hide SamplerInv; hide Agrees; hide AckAll; hide LoseAll; hide Sent;
    match step {
      case Send(time, pn, bytes, inFlight) =>
        QueueInv(s);
        SendAgrees(s, log, time, pn, bytes, inFlight);
      case Event(time, acked, lost, height) =>
        LossesAgree(s, log, lost);
        LoseAllKeepsInv(s, lost);
        LosingKeeps(s, lost);
        if acked != [] {
          var p := Progress(LoseAll(s, lost), NO_EVENT_SAMPLE, NO_STATE);
          AcksAgree(p, LossLog(log, lost), time, acked);
          OthersAgree(AckAll(p, time, acked).s, Logged(s, log, step), Next(s, step));
        }
      case Forget(leastUnacked) => OthersAgree(s, log, Next(s, step));
      case Limit => LimitAppAgrees(s, log);
      case Avoid => OthersAgree(s, log, Next(s, step));
    }
  }

  ghost predicate Possible(s: Sampler, steps: seq<Step>)
    requires SamplerInv(s)
    decreases |steps|
  {
    steps == [] || (Enabled(s, steps[0]) && (NextKeepsInv(s, steps[0]); Possible(Next(s, steps[0]), steps[1..])))
  }

  ghost function Run(s: Sampler, steps: seq<Step>): (r: Sampler)
    requires SamplerInv(s)
    ensures SamplerInv(r)
    decreases |steps|
  {
    if steps == [] then s else NextKeepsInv(s, steps[0]); Run(Next(s, steps[0]), steps[1..])
  }

  /** The log of a run. */
  ghost function RunLog(s: Sampler, log: seq<Entry>, steps: seq<Step>): seq<Entry>
    requires SamplerInv(s)
    decreases |steps|
  {
    if steps == [] then log else
      NextKeepsInv(s, steps[0]); RunLog(Next(s, steps[0]), Logged(s, log, steps[0]), steps[1..])
  }

  // ---------------------------------------------------------------- samples read from the log

  /** Nothing is acked after the last anchor. */
  lemma {:induction false} NoAcksAfterAnchor(log: seq<Entry>)
    requires Anchor(log).Some?
    ensures AckedBytes(log) == AckedBytes(log[..Anchor(log).value + 1])
    decreases |log|
  {
    var before := log[..|log| - 1];
    if IsAnchor(log[|log| - 1]) {
      assert log[..|log|] == log;
    } else {
      NoAcksAfterAnchor(before);
      assert before[..Anchor(log).value + 1] == log[..Anchor(log).value + 1];
    }
  }

  /** The sample of a packet, from the log before its ack: it is the smaller of two slopes. Since its start point `a0`
      bytes were acked, the packet's own among them; since the packet behind its anchor bytes were sent, up to its own.
      There is one exactly when the packet behind the anchor has a time and the ack is later than the start point. */
  ghost predicate IsSampleOf(log: seq<Entry>, time: int, pn: nat, a0: AckPoint, r: Sample) {
    var i := SendOf(log, pn);
    i.Some? &&
      var at := log[..i.value + 1];
      var a := Anchor(at);
      if a.None? then !r.state.isValid else
        var b := SendBehind(at, a.value);
        b.Some? &&
          var ackedBytes := AckedBytes(log + [Acks(time, pn)]) - a0.acked;
          var sentBytes := SentBytes(at) - SentBytes(log[..b.value + 1]);
          var ackTime, sendTime := time - a0.time, log[i.value].time - log[b.value].time;
          && (r.state.isValid <==> log[b.value].time != 0 && ackTime > 0)
          && (r.state.isValid ==>
                && r.state == SendState(true, IsLimited(at), SentBytes(at), AckedBytes(at), LostTotal(at),
                                        log[i.value].inFlight + log[i.value].bytes)
                && r.rtt == time - log[i.value].time
                && IsSmallerSlope(r.bandwidth, ackedBytes, ackTime, sentBytes, sendTime))
  }

  predicate IsSmallerSlope(rate: nat, ackedBytes: int, ackTime: int, sentBytes: int, sendTime: int) {
    && WithinSlope(rate, ackedBytes, ackTime)
    && (sendTime > 0 ==> WithinSlope(rate, sentBytes, sendTime))
    && (ReachesSlope(rate, ackedBytes, ackTime)
        || (sendTime > 0 && ReachesSlope(rate, sentBytes, sendTime))
        || (sendTime <= 0 && rate == INT64_MAX))
  }

  /** The start point is the packet's anchor. */
  ghost predicate StartsAtAnchor(log: seq<Entry>, pn: nat, a0: AckPoint) {
    var i := SendOf(log, pn);
    i.Some? &&
      var a := Anchor(log[..i.value + 1]);
      a.Some? ==> a0.time == log[a.value].time && a0.acked == AckedBytes(log[..a.value + 1])
  }

  /** The sample of a packet whose start point is its anchor. */
  ghost predicate FromAnchor(log: seq<Entry>, time: int, pn: nat, r: Sample) {
    exists a0: AckPoint :: StartsAtAnchor(log, pn, a0) && IsSampleOf(log, time, pn, a0, r)
  }

  lemma SampleIsReadFromTheLog(s: Sampler, log: seq<Entry>, time: int, pn: nat)
    requires SamplerInv(s) && Agrees(s, log) && pn in s.queue.items
    ensures var a0 := StartPoint(Credited(s, time, pn, s.queue.items[pn]), s.queue.items[pn]);
            && IsSampleOf(log, time, pn, a0, TrackedSample(s, time, pn))
            && (!s.overestimateAvoidance || s.candidates == [] ==> StartsAtAnchor(log, pn, a0))
  {
    hide SamplerInv; hide SentBytes; hide AckedBytes; hide LostTotal; hide IsLimited; hide SampleOf;
    hide SnapshotAgrees;
    hide WithinSlope; hide ReachesSlope; hide StartPoint; hide StartsAtAnchor;
    var x := s.queue.items[pn];
    var s1 := Credited(s, time, pn, x);
    TrackedFits(s, pn);
    CreditedKeepsInv(s, time, pn, x);
    SampleIsTheSmallerSlope(s1, time, x);
    SnapshotSaysAll(log, pn, x);
    Grown(log, Acks(time, pn));
    StartPointIs(s, log, time, pn);
  }

  lemma SnapshotSaysAll(log: seq<Entry>, pn: nat, x: Snapshot)
    requires SnapshotAgrees(log, pn, x)
    ensures var i := SendOf(log, pn);
            && i.Some? && x.sentTime == log[i.value].time && x.size == log[i.value].bytes
            && var at := log[..i.value + 1];
               var a := Anchor(at);
               && x.state == SendState(true, IsLimited(at), SentBytes(at), AckedBytes(at), LostTotal(at),
                                       log[i.value].inFlight + log[i.value].bytes)
               && (a.None? ==> x.lastAckedSentTime == 0 && x.lastAckedAckTime == 0)
               && (a.Some? ==>
                     var b := SendBehind(at, a.value);
                     && b.Some? && b.value <= i.value
                     && x.lastAckedSentTime == log[b.value].time && x.lastAckedAckTime == log[a.value].time
                     && x.sentAtLastAcked == SentBytes(log[..b.value + 1]))
  {
    hide SentBytes; hide AckedBytes; hide LostTotal; hide IsLimited;
    var i := SendOf(log, pn).value;
    var at := log[..i + 1];
    if Anchor(at).Some? {
      var b := SendBehind(at, Anchor(at).value).value;
      assert at[..b + 1] == log[..b + 1];
    }
  }

  lemma StartPointIs(s: Sampler, log: seq<Entry>, time: int, pn: nat)
    requires Agrees(s, log) && pn in s.queue.items
    ensures !s.overestimateAvoidance || s.candidates == [] ==>
              StartsAtAnchor(log, pn, StartPoint(Credited(s, time, pn, s.queue.items[pn]), s.queue.items[pn]))
  {
    hide SentBytes; hide AckedBytes; hide LostTotal; hide IsLimited; hide SnapshotAgrees;
    var x := s.queue.items[pn];
    SnapshotSaysAll(log, pn, x);
    var at := log[..SendOf(log, pn).value + 1];
    if Anchor(at).Some? {
      NoAcksAfterAnchor(at);
      assert at[..Anchor(at).value + 1] == log[..Anchor(at).value + 1];
    }
  }

  // ---------------------------------------------------------------- candidates for the start point

  /** The bytes acked up to some ack, or some packet sent with nothing in flight, at the time of that. */
  ghost predicate OnCurve(log: seq<Entry>, p: AckPoint) {
    exists n: nat :: IsPointAt(log, n, p)
  }

  ghost predicate IsPointAt(log: seq<Entry>, n: nat, p: AckPoint) {
    0 < n <= |log| && IsAnchor(log[n - 1]) && log[n - 1].time == p.time && AckedBytes(log[..n]) == p.acked
  }

  /** Every candidate, and every point that may become one, is on the curve of bytes acked. */
  ghost predicate CurveAgrees(s: Sampler, log: seq<Entry>) {
    && (forall i :: 0 <= i < |s.candidates| ==> OnCurve(log, s.candidates[i]))
    && (s.recent.older.acked != 0 ==> OnCurve(log, s.recent.older))
    && (s.recent.newer == AckPoint(0, 0) || OnCurve(log, s.recent.newer))
    && (s.overestimateAvoidance && s.totalAcked != s.ackedAfterLastEvent ==> OnCurve(log, s.recent.newer))
  }

  lemma PointStays(log: seq<Entry>, e: Entry, p: AckPoint)
    ensures OnCurve(log, p) ==> OnCurve(log + [e], p)
  {
    if OnCurve(log, p) {
      var n: nat :| IsPointAt(log, n, p);
      PrefixOfGrown(log, e, n);
      assert IsPointAt(log + [e], n, p);
    }
  }

  lemma NewPoint(log: seq<Entry>, e: Entry, p: AckPoint)
    requires IsAnchor(e) && p.time == e.time && p.acked == AckedBytes(log + [e])
    ensures OnCurve(log + [e], p)
  {
    assert (log + [e])[..|log| + 1] == log + [e];
    assert IsPointAt(log + [e], |log| + 1, p);
  }

  /** A log entry that leaves the candidates and the recent points alone. */
  lemma CurveStays(s: Sampler, log: seq<Entry>, e: Entry, r: Sampler)
    requires CurveAgrees(s, log) && r.candidates == s.candidates && r.recent == s.recent
    requires r.overestimateAvoidance && r.totalAcked != r.ackedAfterLastEvent ==>
               s.overestimateAvoidance && s.totalAcked != s.ackedAfterLastEvent
    ensures CurveAgrees(r, log + [e])
  {
    hide OnCurve;
    forall p: AckPoint ensures OnCurve(log, p) ==> OnCurve(log + [e], p) { PointStays(log, e, p); }
  }

  lemma SendCurve(s: Sampler, log: seq<Entry>, time: int, pn: nat, bytes: nat, inFlight: nat)
    requires CurveAgrees(s, log) && s.totalAcked == AckedBytes(log)
    ensures CurveAgrees(Sent(s, time, pn, bytes, inFlight), log + [Sends(time, pn, bytes, inFlight)])
  {
    hide OnCurve; hide AckedBytes; hide CurveAgrees;
    var e := Sends(time, pn, bytes, inFlight);
    var r := Sent(s, time, pn, bytes, inFlight);
    if inFlight == 0 && s.overestimateAvoidance {
      Grown(log, e);
      NewPoint(log, e, AckPoint(time, s.totalAcked));
      Reopens(r, log + [e]);
    } else {
      CurveStays(s, log, e, r);
    }
  }

  lemma Reopens(r: Sampler, log: seq<Entry>)
    requires r.candidates == [r.recent.newer] && r.recent.older == AckPoint(0, 0) && OnCurve(log, r.recent.newer)
    ensures CurveAgrees(r, log)
  {
    hide OnCurve;
  }

  lemma CreditCurve(s: Sampler, log: seq<Entry>, time: int, pn: nat)
    requires Agrees(s, log) && CurveAgrees(s, log) && pn in s.queue.items
    ensures CurveAgrees(Credited(s, time, pn, s.queue.items[pn]), log + [Acks(time, pn)])
  {
    hide OnCurve; hide AckedBytes; hide SentBytes; hide LostTotal; hide IsLimited; hide IsOrigin; hide SnapshotAgrees;
    hide Agrees;
    var x, e := s.queue.items[pn], Acks(time, pn);
    var r := Credited(s, time, pn, x);
    CreditAgrees(s, log, time, pn);
    TotalIs(r, log + [e]);
    NewPoint(log, e, AckPoint(time, r.totalAcked));
    if s.overestimateAvoidance {
      forall p: AckPoint ensures OnCurve(log, p) ==> OnCurve(log + [e], p) { PointStays(log, e, p); }
    } else {
      CurveStays(s, log, e, r);
    }
  }

  lemma TotalIs(s: Sampler, log: seq<Entry>)
    requires Agrees(s, log)
    ensures s.totalAcked == AckedBytes(log)
  {
    hide SnapshotsAgree; hide LimitAgrees; hide IsOrigin;
  }

  lemma PruneCurve(s: Sampler, log: seq<Entry>, x: Snapshot)
    requires CurveAgrees(s, log)
    ensures CurveAgrees(s.(candidates := Pruned(s, x)), log)
  {
    hide OnCurve;
  }

  lemma OneAckCurve(p: Progress, log: seq<Entry>, time: int, pn: nat)
    requires SamplerInv(p.s) && Agrees(p.s, log) && CurveAgrees(p.s, log)
    ensures CurveAgrees(AckOne(p, time, pn).s, if pn in p.s.queue.items then log + [Acks(time, pn)] else log)
  {
    hide SamplerInv; hide Agrees; hide CurveAgrees; hide Credited; hide Pruned; hide TrackedSample;
    if pn in p.s.queue.items {
      var x := p.s.queue.items[pn];
      CreditCurve(p.s, log, time, pn);
      PruneCurve(Credited(p.s, time, pn, x), log + [Acks(time, pn)], x);
    }
  }

  lemma {:induction false} AcksCurve(p: Progress, log: seq<Entry>, time: int, acked: seq<nat>)
    requires SamplerInv(p.s) && Agrees(p.s, log) && CurveAgrees(p.s, log)
    ensures CurveAgrees(AckAll(p, time, acked).s, AckLog(log, p.s.queue, time, acked))
    decreases |acked|
  {
    hide SamplerInv; hide Agrees; hide CurveAgrees; hide AckOne;
    if acked != [] {
      var before := acked[..|acked| - 1];
      AcksCurve(p, log, time, before);
      AcksAgree(p, log, time, before);
      OneAckCurve(AckAll(p, time, before), AckLog(log, p.s.queue, time, before), time, acked[|acked| - 1]);
    }
  }

  lemma {:induction false} LossesCurve(s: Sampler, log: seq<Entry>, lost: seq<LostPacket>)
    requires CurveAgrees(s, log)
    ensures CurveAgrees(LoseAll(s, lost), LossLog(log, lost))
    decreases |lost|
  {
    hide CurveAgrees;
    if lost != [] {
      var before := lost[..|lost| - 1];
      LossesCurve(s, log, before);
      CurveStays(LoseAll(s, before), LossLog(log, before), Loses(lost[|lost| - 1].bytes), LoseAll(s, lost));
    } else {
      assert LoseAll(s, lost) == s;
    }
  }

  lemma EndCurve(s: Sampler, log: seq<Entry>, height: nat)
    requires CurveAgrees(s, log)
    ensures CurveAgrees(EventEnded(s, height), log)
  {
    hide OnCurve;
  }

  /** Between events the curve agrees and all acks belong to an ended event. */
  ghost predicate Rests(s: Sampler, log: seq<Entry>) {
    SamplerInv(s) && Agrees(s, log) && CurveAgrees(s, log) && s.totalAcked == s.ackedAfterLastEvent
  }

  lemma EventRests(s: Sampler, log: seq<Entry>, step: Step)
    requires Rests(s, log) && step.Event?
    ensures CurveAgrees(Next(s, step), Logged(s, log, step))
    ensures Next(s, step).totalAcked == Next(s, step).ackedAfterLastEvent
  {
    hide SamplerInv; hide Agrees; hide CurveAgrees; hide AckAll; hide LostBytes; hide LessRecent;
    LossesAgree(s, log, step.lost);
    LossesCurve(s, log, step.lost);
    LoseAllKeepsInv(s, step.lost);
    if step.acked != [] {
      var p := Progress(LoseAll(s, step.lost), NO_EVENT_SAMPLE, NO_STATE);
      AcksCurve(p, LossLog(log, step.lost), step.time, step.acked);
      EndCurve(AckAll(p, step.time, step.acked).s, Logged(s, log, step), step.height);
    }
  }

  lemma NextRests(s: Sampler, log: seq<Entry>, step: Step)
    requires Rests(s, log) && Enabled(s, step)
    ensures Rests(Next(s, step), Logged(s, log, step))
  {
    hide SamplerInv; hide Agrees; hide CurveAgrees; hide Sent; hide EventOutcome; hide Enabled;
    NextKeepsInv(s, step);
    NextAgrees(s, log, step);
    match step {
      case Send(time, pn, bytes, inFlight) =>
        TotalIs(s, log);
        SendCurve(s, log, time, pn, bytes, inFlight);
        SendRests(s, time, pn, bytes, inFlight);
      case Event(_, _, _, _) => EventRests(s, log, step);
      case Forget(_) => SameCurve(s, log, Next(s, step));
      case Limit => CurveStays(s, log, Limits, Next(s, step));
      case Avoid => SameCurve(s, log, Next(s, step));
    }
  }

  lemma SendRests(s: Sampler, time: int, pn: nat, bytes: nat, inFlight: nat)
    ensures Sent(s, time, pn, bytes, inFlight).totalAcked == s.totalAcked
    ensures Sent(s, time, pn, bytes, inFlight).ackedAfterLastEvent == s.ackedAfterLastEvent
  {
  }

  lemma SameCurve(s: Sampler, log: seq<Entry>, r: Sampler)
    requires CurveAgrees(s, log) && r.candidates == s.candidates && r.recent == s.recent
    requires r.totalAcked == r.ackedAfterLastEvent
    ensures CurveAgrees(r, log)
  {
    hide OnCurve;
  }

  // ---------------------------------------------------------------- candidates of an event

  predicate IsSuffix(a: seq<AckPoint>, b: seq<AckPoint>) {
    exists k: nat :: k <= |b| && a == b[k..]
  }

  lemma SuffixOfSuffix(a: seq<AckPoint>, b: seq<AckPoint>, c: seq<AckPoint>)
    requires IsSuffix(a, b) && IsSuffix(b, c)
    ensures IsSuffix(a, c)
  {
    var k: nat :| k <= |b| && a == b[k..];
    var l: nat :| l <= |c| && b == c[l..];
    assert a == c[k + l..];
  }

  lemma OneAckPrunes(p: Progress, time: int, pn: nat)
    requires SamplerInv(p.s)
    ensures IsSuffix(AckOne(p, time, pn).s.candidates, p.s.candidates)
  {
    hide SamplerInv; hide TrackedSample; hide Observe;
    assert p.s.candidates == p.s.candidates[0..];
  }

  lemma {:induction false} AcksPrune(p: Progress, time: int, acked: seq<nat>)
    requires SamplerInv(p.s)
    ensures IsSuffix(AckAll(p, time, acked).s.candidates, p.s.candidates)
    decreases |acked|
  {
    hide SamplerInv; hide AckOne; hide IsSuffix;
    if acked == [] {
      WholeIsSuffix(p.s.candidates);
    } else {
      var before := AckAll(p, time, acked[..|acked| - 1]);
      AcksPrune(p, time, acked[..|acked| - 1]);
      OneAckPrunes(before, time, acked[|acked| - 1]);
      SuffixOfSuffix(AckAll(p, time, acked).s.candidates, before.s.candidates, p.s.candidates);
    }
  }

  lemma WholeIsSuffix(a: seq<AckPoint>)
    ensures IsSuffix(a, a)
  {
    assert a == a[0..];
  }

  /** An event prunes the candidates from the front; it adds one exactly when overestimates are avoided, bytes were
      acked and no extra bytes were, and this one is on the curve. */
  lemma EventPrunesAndAdds(s: Sampler, log: seq<Entry>, step: Step)
    requires Rests(s, log) && step.Event?
    ensures var r := Next(s, step);
            if s.overestimateAvoidance && s.totalAcked < r.totalAcked && step.height == 0
            then r.candidates != [] && IsSuffix(r.candidates[..|r.candidates| - 1], s.candidates)
                 && OnCurve(Logged(s, log, step), r.candidates[|r.candidates| - 1])
            else IsSuffix(r.candidates, s.candidates)
  {
    hide SamplerInv; hide Agrees; hide CurveAgrees; hide AckAll; hide LostBytes; hide LessRecent; hide IsSuffix;
    hide OnCurve;
    EventRests(s, log, step);
    LoseAllKeepsInv(s, step.lost);
    var p := Progress(LoseAll(s, step.lost), NO_EVENT_SAMPLE, NO_STATE);
    AcksPrune(p, step.time, step.acked);
    AckAllCredits(p, step.time, step.acked);
    AvoidanceStays(p, step.time, step.acked);
    var r := Next(s, step);
    if step.acked == [] {
      WholeIsSuffix(s.candidates);
    } else if s.overestimateAvoidance && s.totalAcked < r.totalAcked && step.height == 0 {
      var kept := AckAll(p, step.time, step.acked).s.candidates;
      assert r.candidates[..|kept|] == kept;
      CandidatesOnCurve(r, Logged(s, log, step));
    }
  }

  lemma CandidatesOnCurve(s: Sampler, log: seq<Entry>)
    requires CurveAgrees(s, log)
    ensures forall i :: 0 <= i < |s.candidates| ==> OnCurve(log, s.candidates[i])
  {
    hide OnCurve;
  }

  // ---------------------------------------------------------------- whole runs

  lemma {:induction false} RunRests(s: Sampler, log: seq<Entry>, steps: seq<Step>)
    requires Rests(s, log)
    ensures Possible(s, steps) ==> Rests(Run(s, steps), RunLog(s, log, steps))
    decreases |steps|
  {
    hide SamplerInv; hide Rests; hide Next; hide Logged; hide Enabled;
    RestsInv(s, log);
    if steps != [] && Possible(s, steps) {
      NextKeepsInv(s, steps[0]);
      NextRests(s, log, steps[0]);
      RunRests(Next(s, steps[0]), Logged(s, log, steps[0]), steps[1..]);
    }
  }

  lemma RestsInv(s: Sampler, log: seq<Entry>)
    requires Rests(s, log)
    ensures SamplerInv(s)
  {
  }

  lemma NewRests()
    ensures Rests(NEW_SAMPLER, [])
    ensures !NEW_SAMPLER.overestimateAvoidance && NEW_SAMPLER.appLimited && NEW_SAMPLER.queue.items == map[]
  {
  }

  /** In every run the totals, and every snapshot held, are what the log says. */
  lemma EveryRunAgrees(steps: seq<Step>)
    ensures SamplerInv(NEW_SAMPLER)
    ensures Possible(NEW_SAMPLER, steps) ==> Agrees(Run(NEW_SAMPLER, steps), RunLog(NEW_SAMPLER, [], steps))
  {
    hide Agrees; hide SamplerInv; hide CurveAgrees;
    NewRests();
    RunRests(NEW_SAMPLER, [], steps);
  }

  // ---------------------------------------------------------------- samples of an event

  /** The sample of a packet whose start point is a point of the curve. */
  ghost predicate FromCurve(log: seq<Entry>, time: int, pn: nat, r: Sample) {
    exists a0: AckPoint :: OnCurve(log + [Acks(time, pn)], a0) && IsSampleOf(log, time, pn, a0, r)
  }

  lemma SampleIsFromAnchorOrCurve(s: Sampler, log: seq<Entry>, time: int, pn: nat)
    requires SamplerInv(s) && Agrees(s, log) && CurveAgrees(s, log) && pn in s.queue.items
    ensures FromAnchor(log, time, pn, TrackedSample(s, time, pn))
            || (s.overestimateAvoidance && FromCurve(log, time, pn, TrackedSample(s, time, pn)))
  {
    hide SamplerInv; hide Agrees; hide IsSampleOf; hide StartsAtAnchor; hide TrackedSample; hide OnCurve;
    var x := s.queue.items[pn];
    var r, a0 := TrackedSample(s, time, pn), StartPoint(Credited(s, time, pn, x), x);
    SampleIsReadFromTheLog(s, log, time, pn);
    CreditCurve(s, log, time, pn);
    if !s.overestimateAvoidance || s.candidates == [] {
      assert StartsAtAnchor(log, pn, a0) && IsSampleOf(log, time, pn, a0, r);
    } else {
      assert OnCurve(log + [Acks(time, pn)], a0) && IsSampleOf(log, time, pn, a0, r);
    }
  }

  /** The log when packet `i` of an event's list is acked. */
  ghost function LogAt(log: seq<Entry>, q: Indexed<Snapshot>, time: int, acked: seq<nat>, i: nat): seq<Entry>
    requires i <= |acked|
  {
    AckLog(log, q, time, acked[..i])
  }

  ghost predicate ReadFromLog(s: Sampler, log: seq<Entry>, time: int, pn: nat, x: Option<Sample>) {
    && (x.Some? <==> pn in s.queue.items)
    && (x.Some? ==>
          FromAnchor(log, time, pn, x.value) || (s.overestimateAvoidance && FromCurve(log, time, pn, x.value)))
  }

  lemma SampleAtIsRead(p: Progress, log: seq<Entry>, time: int, acked: seq<nat>, i: nat)
    requires SamplerInv(p.s) && Agrees(p.s, log) && CurveAgrees(p.s, log) && i < |acked|
    ensures ReadFromLog(p.s, LogAt(log, p.s.queue, time, acked, i), time, acked[i], SampleAt(p, time, acked, i))
  {
    hide SamplerInv; hide Agrees; hide CurveAgrees; hide FromAnchor; hide FromCurve; hide TrackedSample; hide AckAll;
    hide AckLog;
    var before := AckAll(p, time, acked[..i]).s;
    AcksAgree(p, log, time, acked[..i]);
    AcksCurve(p, log, time, acked[..i]);
    AvoidanceStays(p, time, acked[..i]);
    if acked[i] in before.queue.items {
      SampleIsFromAnchorOrCurve(before, AckLog(log, p.s.queue, time, acked[..i]), time, acked[i]);
    }
  }

  lemma {:induction false} AvoidanceStays(p: Progress, time: int, acked: seq<nat>)
    requires SamplerInv(p.s)
    ensures AckAll(p, time, acked).s.overestimateAvoidance == p.s.overestimateAvoidance
    decreases |acked|
  {
    hide SamplerInv; hide AckOne;
    if acked != [] {
      AvoidanceStays(p, time, acked[..|acked| - 1]);
      OneAckKeepsAvoidance(AckAll(p, time, acked[..|acked| - 1]), time, acked[|acked| - 1]);
    }
  }

  lemma OneAckKeepsAvoidance(p: Progress, time: int, pn: nat)
    requires SamplerInv(p.s)
    ensures AckOne(p, time, pn).s.overestimateAvoidance == p.s.overestimateAvoidance
  {
    hide SamplerInv; hide TrackedSample;
  }

  /** In every run, the sample of every packet that an event acks is read from the log: bytes acked since its anchor,
      or since a point of the curve when overestimates are avoided, and bytes sent since the packet behind the anchor,
      each over the time since then. */
  lemma EverySampleIsReadFromTheLog(steps: seq<Step>, time: int, acked: seq<nat>, lost: seq<LostPacket>, i: nat)
    ensures SamplerInv(NEW_SAMPLER)
    ensures Possible(NEW_SAMPLER, steps) && i < |acked| ==>
              var s, log := Run(NEW_SAMPLER, steps), RunLog(NEW_SAMPLER, [], steps);
              && SamplerInv(LoseAll(s, lost))
              && ReadFromLog(s, LogAt(LossLog(log, lost), s.queue, time, acked, i), time, acked[i],
                             SampleAt(Progress(LoseAll(s, lost), NO_EVENT_SAMPLE, NO_STATE), time, acked, i))
  {
    hide SamplerInv; hide Agrees; hide CurveAgrees; hide FromAnchor; hide FromCurve; hide SampleAt;
    NewRests();
    RunRests(NEW_SAMPLER, [], steps);
    if Possible(NEW_SAMPLER, steps) && i < |acked| {
      var s, log := Run(NEW_SAMPLER, steps), RunLog(NEW_SAMPLER, [], steps);
      LoseAllKeepsInv(s, lost);
      LosingKeeps(s, lost);
      LossesAgree(s, log, lost);
      LossesCurve(s, log, lost);
      SampleAtIsRead(Progress(LoseAll(s, lost), NO_EVENT_SAMPLE, NO_STATE), LossLog(log, lost), time, acked, i);
    }
  }
}
