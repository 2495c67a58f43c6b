/** Pruning the candidates for the start point does not show in the sampler: as long as packets are acked in ascending
    order, every event reports what it would report if the whole log of candidates were kept. */
module SamplerPruning {
  import opened Samples
  import opened LossDetection
  import opened AckPoints
  import opened BandwidthSampling

  // ---------------------------------------------------------------- the sampler that keeps the whole log

  function AckOneWhole(p: Progress, time: int, pn: nat): (r: Progress)
    requires SamplerInv(p.s)
    ensures SamplerInv(r.s)
  {
    if pn !in p.s.queue.items then p else
      hide SamplerInv;
      hide SampleOf;
      hide StartPoint;
      TrackedFits(p.s, pn);
      CreditedKeepsInv(p.s, time, pn, p.s.queue.items[pn]);
      Merge(p, TrackedSample(p.s, time, pn), Credited(p.s, time, pn, p.s.queue.items[pn]))
  }

  function AckAllWhole(p: Progress, time: int, acked: seq<nat>): (r: Progress)
    requires SamplerInv(p.s)
    ensures SamplerInv(r.s)
    decreases |acked|
  {
    hide SamplerInv;
    if acked == [] then p else AckOneWhole(AckAllWhole(p, time, acked[..|acked| - 1]), time, acked[|acked| - 1])
  }

  function EventOutcomeWhole(s: Sampler, time: int, acked: seq<nat>, lost: seq<LostPacket>, height: nat)
    : (r: (Sampler, EventSample))
    requires SamplerInv(s)
    ensures SamplerInv(r.0)
  {
    hide SamplerInv; hide EventEnded;
    var s1 := LoseAll(s, lost);
    var lostState := LastLostState(s, lost);
    LoseAllKeepsInv(s, lost);
    if acked == [] then (s1, NO_EVENT_SAMPLE.(last := lostState)) else
      var p := AckAllWhole(Progress(s1, NO_EVENT_SAMPLE, NO_STATE), time, acked);
      EventEndedKeepsInv(p.s, height);
      (EventEnded(p.s, height),
       p.sample.(last := LastState(lostState, p.last, lost, acked), extraAcked := ExtraAcked(p.s, height)))
  }

  // ---------------------------------------------------------------- the two side by side

  /** `s` is `w` without the first `d` candidates, none of which a key of at least `key` can choose. */
  predicate DropsTo(w: Sampler, s: Sampler, d: nat, key: nat) {
    && d <= |w.candidates|
    && s == w.(candidates := w.candidates[d..])
    && (d == 0 || (d < |w.candidates| && w.candidates[d].acked <= key))
  }

  /** Packets numbered `mark` or above, recorded or still to be sent, have keys of at least `key`. */
  ghost predicate KeysFrom(s: Sampler, key: nat, mark: nat) {
    && key <= s.totalAcked
    && forall k: nat :: k in s.queue.items && mark <= k ==> key <= s.queue.items[k].state.totalAcked
  }

  lemma StartPointAgrees(w: Sampler, s: Sampler, d: nat, key: nat, x: Snapshot) returns (d': nat)
    requires DropsTo(w, s, d, key) && Sorted(w.candidates) && key <= x.state.totalAcked
    ensures StartPoint(s, x) == StartPoint(w, x)
    ensures DropsTo(w, s.(candidates := Pruned(s, x)), d', x.state.totalAcked)
  {
    d' := d;
    if s.overestimateAvoidance && s.candidates != [] {
      QueryAgrees(w.candidates, d, x.state.totalAcked);
      if x.lastAckedSentTime != 0 {
        d' := Choose(w.candidates, x.state.totalAcked);
        if d' > 0 {
          assert w.candidates[d'].acked <= x.state.totalAcked;
        }
      }
    }
  }

  lemma SampleAgrees(w: Sampler, s: Sampler, time: int, x: Snapshot)
    requires Fits(s, x) && Fits(w, x) && StartPoint(s, x) == StartPoint(w, x)
    requires s.totalAcked == w.totalAcked && StartPoint(s, x).acked <= s.totalAcked
    ensures SampleOf(s, time, x) == SampleOf(w, time, x)
  {
    hide StartPoint; hide Rate;
  }

  predicate SameAnswers(p: Progress, q: Progress) {
    p.sample == q.sample && p.last == q.last
  }

  lemma CreditedStaysDropped(w: Sampler, s: Sampler, d: nat, key: nat, time: int, pn: nat, x: Snapshot)
    requires DropsTo(w, s, d, key)
    ensures DropsTo(Credited(w, time, pn, x), Credited(s, time, pn, x), d, key)
    ensures Credited(w, time, pn, x).candidates == w.candidates
    ensures Credited(w, time, pn, x).totalAcked == Credited(s, time, pn, x).totalAcked == s.totalAcked + x.size
  {
    hide Observe;
  }

  /** Once a packet is acked the keys of the packets from it on start at its own. */
  lemma KeysAfterAck(s: Sampler, time: int, pn: nat)
    requires SamplerInv(s) && pn in s.queue.items
    ensures var x := s.queue.items[pn]; KeysFrom(Acknowledged(s, time, pn, x), x.state.totalAcked, pn)
  {
    hide Observe; hide Pruned; hide CandidatesInv;
    assert Fits(s, s.queue.items[pn]);
  }

  lemma SamplerInvFacts(s: Sampler)
    requires SamplerInv(s)
    ensures Sorted(s.candidates) && SnapshotsFit(s)
  {
  }

  lemma AckOneAgrees(w: Progress, p: Progress, d: nat, key: nat, time: int, pn: nat) returns (d': nat, key': nat)
    requires SamplerInv(w.s) && SamplerInv(p.s) && DropsTo(w.s, p.s, d, key) && SameAnswers(w, p)
             && KeysFrom(p.s, key, pn)
    ensures SameAnswers(AckOneWhole(w, time, pn), AckOne(p, time, pn))
    ensures DropsTo(AckOneWhole(w, time, pn).s, AckOne(p, time, pn).s, d', key')
    ensures KeysFrom(AckOne(p, time, pn).s, key', pn)
  {
    hide SamplerInv; hide SampleOf; hide StartPoint; hide Pruned; hide Credited; hide Merge; hide Fits;
    hide SameAnswers; hide Sorted;
    d', key' := d, key;
    if pn in p.s.queue.items {
      var x := p.s.queue.items[pn];
      SamplerInvFacts(w.s);
      TrackedFits(p.s, pn);
      TrackedFits(w.s, pn);
      CreditedKeepsInv(w.s, time, pn, x);
      CreditedKeepsInv(p.s, time, pn, x);
      var w1, s1 := Credited(w.s, time, pn, x), Credited(p.s, time, pn, x);
      key' := x.state.totalAcked;
      CreditedStaysDropped(w.s, p.s, d, key, time, pn, x);
      d' := StartPointAgrees(w1, s1, d, key, x);
      SampleAgrees(w1, s1, time, x);
      KeysAfterAck(p.s, time, pn);
      MergeAgrees(w, p, TrackedSample(p.s, time, pn), w1, Acknowledged(p.s, time, pn, x));
    }
  }

  lemma MergeAgrees(w: Progress, p: Progress, x: Sample, w1: Sampler, s1: Sampler)
    requires SameAnswers(w, p) && w1.totalAcked == s1.totalAcked >= x.state.totalAcked
    ensures SameAnswers(Merge(w, x, w1), Merge(p, x, s1))
    ensures Merge(w, x, w1).s == w1 && Merge(p, x, s1).s == s1
  {
  }

  ghost predicate NeverFalling(pns: seq<nat>) {
    forall i, j :: 0 <= i < j < |pns| ==> pns[i] <= pns[j]
  }

  /** The last packet acked, or the mark that stood before. */
  function LastOr(acked: seq<nat>, mark: nat): nat {
    if acked == [] then mark else acked[|acked| - 1]
  }

  lemma {:induction false} AckAllAgrees(w: Progress, p: Progress, d: nat, key: nat, mark: nat, time: int,
      acked: seq<nat>)
    returns (d': nat, key': nat)
    requires SamplerInv(w.s) && SamplerInv(p.s) && DropsTo(w.s, p.s, d, key) && SameAnswers(w, p)
             && KeysFrom(p.s, key, mark)
    requires NeverFalling(acked) && (acked != [] ==> mark <= acked[0])
    ensures SameAnswers(AckAllWhole(w, time, acked), AckAll(p, time, acked))
    ensures DropsTo(AckAllWhole(w, time, acked).s, AckAll(p, time, acked).s, d', key')
    ensures KeysFrom(AckAll(p, time, acked).s, key', LastOr(acked, mark))
    decreases |acked|
  {
    hide SamplerInv; hide DropsTo; hide AckOne; hide AckOneWhole; hide SameAnswers; hide KeysFrom;
    d', key' := d, key;
    if acked != [] {
      var last := |acked| - 1;
      var before := acked[..last];
      var d1, key1 := AckAllAgrees(w, p, d, key, mark, time, before);
      KeysFromHigher(AckAll(p, time, before).s, key1, LastOr(before, mark), acked[last]);
      d', key' := AckOneAgrees(AckAllWhole(w, time, before), AckAll(p, time, before), d1, key1, time, acked[last]);
    }
  }

  lemma KeysFromHigher(s: Sampler, key: nat, mark: nat, higher: nat)
    requires KeysFrom(s, key, mark) && mark <= higher
    ensures KeysFrom(s, key, higher)
  {
  }

  lemma EventAgrees(w: Sampler, s: Sampler, d: nat, key: nat, mark: nat, time: int, acked: seq<nat>,
                    lost: seq<LostPacket>, height: nat) returns (d': nat, key': nat)
    requires SamplerInv(w) && SamplerInv(s) && DropsTo(w, s, d, key) && KeysFrom(s, key, mark)
    requires NeverFalling(acked) && (acked != [] ==> mark <= acked[0])
    ensures EventOutcomeWhole(w, time, acked, lost, height).1 == EventOutcome(s, time, acked, lost, height).1
    ensures DropsTo(EventOutcomeWhole(w, time, acked, lost, height).0, EventOutcome(s, time, acked, lost, height).0,
            d', key')
    ensures KeysFrom(EventOutcome(s, time, acked, lost, height).0, key', LastOr(acked, mark))
  {
    hide SamplerInv; hide AckAll; hide AckAllWhole; hide LessRecent;
    LoseAllKeepsInv(w, lost);
    LoseAllKeepsInv(s, lost);
    LastLostAgrees(w, s, lost);
    d', key' := d, key;
    if acked != [] {
      var pw := Progress(LoseAll(w, lost), NO_EVENT_SAMPLE, NO_STATE);
      var ps := Progress(LoseAll(s, lost), NO_EVENT_SAMPLE, NO_STATE);
      d', key' := AckAllAgrees(pw, ps, d, key, mark, time, acked);
      var rw, rs := AckAllWhole(pw, time, acked).s, AckAll(ps, time, acked).s;
      var p := LessRecent(rs.recent);
      assert rw.candidates[d'..] + [p] == (rw.candidates + [p])[d'..];
    }
  }

  lemma {:induction false} LastLostAgrees(w: Sampler, s: Sampler, lost: seq<LostPacket>)
    requires w.queue == s.queue
    ensures LastLostState(w, lost) == LastLostState(s, lost)
    decreases |lost|
  {
    if lost != [] {
      LastLostAgrees(w, s, lost[..|lost| - 1]);
    }
  }

  // ---------------------------------------------------------------- runs

  datatype Step =
    | SendPacket(time: int, number: nat, bytes: nat, inFlight: nat)
    | AckEvent(time: int, acked: seq<nat>, lost: seq<LostPacket>, height: nat)
    | Forget(leastUnacked: nat)
    | BecomeAppLimited

  function Next(s: Sampler, step: Step): (r: Sampler)
    requires SamplerInv(s)
    ensures SamplerInv(r)
  {
    hide SamplerInv;
    match step
    case SendPacket(time, number, bytes, inFlight) =>
      SentKeepsInv(s, time, number, bytes, inFlight);
      Sent(s, time, number, bytes, inFlight)
    case AckEvent(time, acked, lost, height) =>
      EventKeepsInv(s, time, acked, lost, height);
      EventOutcome(s, time, acked, lost, height).0
    case Forget(leastUnacked) =>
      ForgottenKeepsInv(s, leastUnacked);
      Forgotten(s, leastUnacked)
    case BecomeAppLimited =>
      AppLimitedKeepsInv(s);
      AppLimitedNow(s)
  }

  function NextWhole(w: Sampler, step: Step): (r: Sampler)
    requires SamplerInv(w)
    ensures SamplerInv(r)
  {
    if step.AckEvent? then EventOutcomeWhole(w, step.time, step.acked, step.lost, step.height).0 else Next(w, step)
  }

  /** What the sampler reports for each event of a run, with pruning and with the whole log. */
  function Reports(s: Sampler, steps: seq<Step>): seq<EventSample>
    requires SamplerInv(s)
    decreases |steps|
  {
    if steps == [] then [] else
      var step := steps[0];
      (if step.AckEvent? then [EventOutcome(s, step.time, step.acked, step.lost, step.height).1] else [])
      + Reports(Next(s, step), steps[1..])
  }

  function ReportsWhole(w: Sampler, steps: seq<Step>): seq<EventSample>
    requires SamplerInv(w)
    decreases |steps|
  {
    if steps == [] then [] else
      var step := steps[0];
      (if step.AckEvent? then [EventOutcomeWhole(w, step.time, step.acked, step.lost, step.height).1] else [])
      + ReportsWhole(NextWhole(w, step), steps[1..])
  }

  /** Throughout the run packets are acked in ascending order, from `mark` on. */
  ghost predicate AckedInOrder(steps: seq<Step>, mark: nat)
    decreases |steps|
  {
    steps == [] ||
    match steps[0]
    case AckEvent(_, acked, _, _) =>
      NeverFalling(acked) && (acked != [] ==> mark <= acked[0]) && AckedInOrder(steps[1..], LastOr(acked, mark))
    case _ => AckedInOrder(steps[1..], mark)
  }

  /** A step that is not an event does the same to both. */
  lemma QuietStepAgrees(w: Sampler, s: Sampler, d: nat, key: nat, mark: nat, step: Step) returns (d': nat)
    requires SamplerInv(w) && SamplerInv(s) && DropsTo(w, s, d, key) && KeysFrom(s, key, mark) && !step.AckEvent?
    ensures DropsTo(Next(w, step), Next(s, step), d', key) && KeysFrom(Next(s, step), key, mark)
  {
    hide SamplerInv; hide Observe;
    d' := d;
    match step {
      case SendPacket(time, number, bytes, inFlight) =>
        d' := SendAgrees(w, s, d, key, mark, time, number, bytes, inFlight);
      case Forget(_) =>
      case BecomeAppLimited =>
    }
  }

  lemma SendAgrees(w: Sampler, s: Sampler, d: nat, key: nat, mark: nat, time: int, pn: nat, bytes: nat, inFlight: nat)
    returns (d': nat)
    requires DropsTo(w, s, d, key) && KeysFrom(s, key, mark)
    ensures DropsTo(Sent(w, time, pn, bytes, inFlight), Sent(s, time, pn, bytes, inFlight), d', key)
    ensures KeysFrom(Sent(s, time, pn, bytes, inFlight), key, mark)
  {
    hide Observe;
    d' := if inFlight == 0 && s.overestimateAvoidance then 0 else d;
  }

  lemma {:induction false} ReportsAgree(w: Sampler, s: Sampler, d: nat, key: nat, mark: nat, steps: seq<Step>)
    requires SamplerInv(w) && SamplerInv(s) && DropsTo(w, s, d, key) && KeysFrom(s, key, mark)
             && AckedInOrder(steps, mark)
    ensures Reports(s, steps) == ReportsWhole(w, steps)
    decreases |steps|
  {
    hide SamplerInv; hide DropsTo; hide KeysFrom; hide EventOutcome; hide EventOutcomeWhole; hide NeverFalling;
    if steps != [] {
      var step := steps[0];
      if step.AckEvent? {
        var d', key' := EventAgrees(w, s, d, key, mark, step.time, step.acked, step.lost, step.height);
        ReportsAgree(NextWhole(w, step), Next(s, step), d', key', LastOr(step.acked, mark), steps[1..]);
      } else {
        var d' := QuietStepAgrees(w, s, d, key, mark, step);
        ReportsAgree(NextWhole(w, step), Next(s, step), d', key, mark, steps[1..]);
      }
    }
  }

  /** For every run of the sampler in which packets are acked in ascending order, with overestimate avoidance on or
      off, the reports are those of a sampler that keeps its whole log of candidates. */
  lemma PruningNeverShows(avoidance: bool, steps: seq<Step>)
    ensures SamplerInv(NEW_SAMPLER.(overestimateAvoidance := avoidance))
    ensures var s := NEW_SAMPLER.(overestimateAvoidance := avoidance);
            AckedInOrder(steps, 0) ==> Reports(s, steps) == ReportsWhole(s, steps)
  {
    hide Reports; hide ReportsWhole; hide AckedInOrder;
    var s := NEW_SAMPLER.(overestimateAvoidance := avoidance);
    assert s.queue.items == map[];
    if AckedInOrder(steps, 0) {
      ReportsAgree(s, s, 0, 0, 0, steps);
    }
  }
}
