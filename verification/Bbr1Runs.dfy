/** What every run of BBRv1 keeps. */
module Bbr1Runs {
  import opened Base
  import opened Gains
  import opened Samples
  import opened WindowedFilter
  import opened Bbr1

  // ---------------------------------------------------------------- the invariant

  /** Draining, probing and recovery all come after full bandwidth. */
  predicate ModeInv(s: Sender) {
    && (s.mode == DRAIN || s.mode == PROBE_BW ==> s.path.full)
    && (s.recovery.state != NOT_IN_RECOVERY ==> s.path.full)
  }

  /** In PROBE_BW the gain is the one at the cycle's offset, or still the draining one when draining to the target. */
  predicate CycleInv(s: Sender) {
    s.mode == PROBE_BW ==>
      && s.cycle.offset < GAIN_CYCLE_LENGTH
      && (s.cycle.pacingGain == CycleGain(s.cycle.offset)
          || (s.params.drainToTarget && s.cycle.pacingGain == PROBE_DOWN && s.cycle.offset >= 2))
  }

  /** The time to leave PROBE_RTT, once set, is 200 ms or more after entering it. */
  predicate ProbeRttInv(s: Sender) {
    s.mode == PROBE_RTT ==>
      s.probeRtt.exitAt == 0 || s.probeRtt.exitAt >= s.history.probeRttSince + PROBE_RTT_TIME
  }

  /** A filter against everything it was given up to the current round. */
  ghost predicate Fed(f: Filter, samples: seq<Sample>, round: nat, window: nat) {
    && f.window == window && f.zero == 0
    && (forall i: nat :: i < |samples| ==> 0 <= samples[i].value && samples[i].time <= round)
    && (samples == [] ==> f == NewFilter(window, 0, 0))
    && (samples != [] ==> InOrder(samples) && WindowedFilter.Inv(f, samples))
  }

  ghost predicate FilterInv(s: Sender) {
    Fed(s.path.bandwidth, s.history.samples, s.path.roundCount, BANDWIDTH_WINDOW)
  }

  predicate CwndInRange(s: Sender) {
    MIN_CWND <= s.cwnd <= s.params.maxCwnd
  }

  /** The window is in range from the first event on, and paid for by acks; before that nothing has happened yet. */
  predicate CwndInv(s: Sender) {
    && MIN_CWND <= s.params.maxCwnd
    && (s.history.events > 0 ==> CwndInRange(s))
    && s.cwnd <= Max(s.params.initialCwnd, MIN_CWND) + s.path.totalAcked
    && (s.history.events == 0 ==>
       s.cwnd == s.params.initialCwnd && s.mode == STARTUP && s.path.minRtt == 0 && !s.path.full)
  }

  predicate RecoveryInv(s: Sender) {
    s.recovery.state != NOT_IN_RECOVERY ==> s.recovery.window >= MIN_CWND
  }

  /** What holds between events. */
  ghost predicate Inv(s: Sender) {
    && s.history.now > 0 && s.history.probeRttSince <= s.history.now
    && ModeInv(s) && CycleInv(s) && ProbeRttInv(s) && FilterInv(s) && CwndInv(s) && RecoveryInv(s)
    && (s.mode == STARTUP ==> !s.path.full)
  }

  // ---------------------------------------------------------------- one event

  /** The acked part of the event changes the round and the recovery state only; recovery starts with a window of 0. */
  lemma AcknowledgedKeeps(s: Sender, x: Input)
    requires ModeInv(s) && RecoveryInv(s)
    ensures var t := Acknowledged(s, x);
            && ModeInv(t)
            && t == s.(path := t.path, recovery := t.recovery)
            && t.path == s.path.(roundEnd := t.path.roundEnd, roundCount := t.path.roundCount)
            && t.path.roundCount >= s.path.roundCount
            && (t.recovery.state != NOT_IN_RECOVERY ==>
                  if s.recovery.state == NOT_IN_RECOVERY then t.recovery.window == 0 && t.recovery.state == CONSERVATION
                  else t.recovery.window == s.recovery.window)
  {
  }

  lemma UpdateKeepsFed(f: Filter, samples: seq<Sample>, round: nat, window: nat, x: Sample)
    requires Fed(f, samples, round, window) && x.value >= 0 && x.time == round
    ensures Fed(Update(f, x), samples + [x], round, window)
  {
    hide WindowedFilter.Inv; hide Update;
    UpdateKeepsParameters(f, x);
    if samples == [] {
      FirstSampleInv(window, 0, 0, x);
      assert samples + [x] == [x];
    } else {
      UpdateKeepsInv(f, samples, x);
    }
  }

  lemma FeedFilterKeeps(s: Sender, x: Input)
    requires FilterInv(s)
    ensures FilterInv(FeedFilter(s, x))
  {
    hide Fed; hide Update;
    UpdateKeepsFed(s.path.bandwidth, s.history.samples, s.path.roundCount, BANDWIDTH_WINDOW,
        Sample(x.sample.maxBandwidth, s.path.roundCount));
  }

  lemma SampledKeeps(s: Sender, x: Input)
    requires FilterInv(s)
    ensures var t := Sampled(s, x);
            && FilterInv(t)
            && t == s.(path := t.path, history := s.history.(samples := t.history.samples, trips := t.history.trips))
            && t.path.full == s.path.full
            && t.path.roundCount == s.path.roundCount
            && t.path.totalAcked == s.path.totalAcked + x.acked
  {
    hide Update; hide Fed;
    FeedFilterKeeps(s, x);
  }

  /** Within PROBE_BW the draining gain comes straight after the probing one. */
  predicate DrainsAfterProbing(before: Cycle, after: Cycle) {
    after.pacingGain == PROBE_DOWN && before.pacingGain != PROBE_DOWN ==> before.pacingGain == PROBE_UP
  }

  lemma GainCycleKeeps(s: Sender, x: Input)
    requires CycleInv(s) && s.mode == PROBE_BW
    ensures var t := UpdateGainCycle(s, x);
            CycleInv(t) && t == s.(cycle := t.cycle) && DrainsAfterProbing(s.cycle, t.cycle)
  {
    hide Target; hide AdvancesCycle;
  }

  lemma EnterProbeBwKeeps(s: Sender, now: int, random: nat)
    ensures var t := EnterProbeBw(s, now, random);
            CycleInv(t) && t == s.(mode := PROBE_BW, cycle := t.cycle) && t.cycle.pacingGain != PROBE_DOWN
  {
  }

  lemma ExitStartupOrDrainKeeps(s: Sender, x: Input)
    requires ModeInv(s) && CycleInv(s)
    ensures var t := ExitStartupOrDrain(s, x);
            && ModeInv(t) && CycleInv(t)
            && t == s.(mode := t.mode, cycle := t.cycle)
            && (t.mode == STARTUP ==> !t.path.full)
            && (s.mode == PROBE_BW || s.mode == PROBE_RTT || !s.path.full ==> t == s)
            && (s.mode != PROBE_BW && t.mode == PROBE_BW ==> t.cycle.pacingGain != PROBE_DOWN)
            && (t.mode == PROBE_RTT ==> s.mode == PROBE_RTT)
  {
    hide Target; hide EnterProbeBw;
    var s1 := s.(mode := DRAIN, cycle := s.cycle.(pacingGain := DRAIN_GAIN, cwndGain := HIGH_CWND_GAIN));
    EnterProbeBwKeeps(s, x.time, x.random);
    EnterProbeBwKeeps(s1, x.time, x.random);
  }

  /** Entering PROBE_RTT never leaves it in the same event; leaving it takes the time it was given and a round. */
  lemma ProbeRttKeeps(s: Sender, x: Input, roundStart: bool, expired: bool)
    requires ModeInv(s) && CycleInv(s) && ProbeRttInv(s)
    requires s.mode == STARTUP ==> !s.path.full
    requires s.history.probeRttSince <= x.time && x.time > 0
    ensures var t := EnterOrExitProbeRtt(s, x, roundStart, expired);
            && ModeInv(t) && CycleInv(t) && ProbeRttInv(t)
            && t.recovery == s.recovery && t.cwnd == s.cwnd && t.pacingRate == s.pacingRate && t.params == s.params
            && t.path == s.path.(minRttTime := t.path.minRttTime)
            && t.history == s.history.(probeRttSince := t.history.probeRttSince) && t.history.probeRttSince <= x.time
            && (t.mode == STARTUP ==> !t.path.full)
            && (s.mode == PROBE_RTT && t.mode != PROBE_RTT ==>
                  && s.history.probeRttSince + PROBE_RTT_TIME <= s.probeRtt.exitAt <= x.time
                  && (s.probeRtt.roundPassed || roundStart)
                  && t.mode == (if s.path.full then PROBE_BW else STARTUP) && t.cycle.pacingGain != PROBE_DOWN)
            && (s.mode != PROBE_RTT ==> t.mode == PROBE_RTT || (t.mode == s.mode && t.cycle == s.cycle))
            && (s.mode != PROBE_RTT && !expired ==> t.mode == s.mode)
  {
    hide EnterProbeBw;
    var s1 := s.(probeRtt := s.probeRtt.(roundPassed := s.probeRtt.roundPassed || roundStart));
    EnterProbeBwKeeps(s1.(path := s1.path.(minRttTime := x.time)), x.time, x.random);
  }

  /** The filter's part of the invariant looks at nothing that the modes change. */
  lemma FilterInvFrame(s: Sender, t: Sender)
    requires FilterInv(s) && t.path.bandwidth == s.path.bandwidth && t.path.roundCount == s.path.roundCount
    requires t.history.samples == s.history.samples
    ensures FilterInv(t)
  {
  }

  lemma CheckFullBandwidthKeeps(p: Path, last: SendState)
    ensures var q := CheckFullBandwidth(p, last);
            && q == p.(full := q.full, baseline := q.baseline, roundsWithoutGain := q.roundsWithoutGain)
            && (p.full ==> q.full)
  {
    hide ScaleRate; hide LossEndsStartup;
  }

  /** What one event's mode changes keep, and which moves they can make. */
  predicate ModesMove(s: Sender, t: Sender, x: Input, expired: bool) {
    && (s.path.full ==> t.path.full)
    && (s.mode == PROBE_BW && t.mode == PROBE_BW ==> DrainsAfterProbing(s.cycle, t.cycle))
    && (s.mode != PROBE_BW && t.mode == PROBE_BW ==> t.cycle.pacingGain != PROBE_DOWN)
    && (s.mode == PROBE_RTT && t.mode != PROBE_RTT ==>
          && s.history.probeRttSince + PROBE_RTT_TIME <= x.time
          && t.mode == (if t.path.full then PROBE_BW else STARTUP))
    && (s.mode != PROBE_RTT && t.mode == PROBE_RTT ==> expired)
    && (s.mode == PROBE_BW && t.mode != PROBE_BW ==> t.mode == PROBE_RTT)
  }

  lemma ModedKeeps(s: Sender, x: Input, roundStart: bool, expired: bool)
    requires ModeInv(s) && CycleInv(s) && ProbeRttInv(s)
    requires s.history.probeRttSince <= x.time && x.time > 0
    ensures var t := Moded(s, x, roundStart, expired);
            && ModeInv(t) && CycleInv(t) && ProbeRttInv(t) && (t.mode == STARTUP ==> !t.path.full)
            && t.recovery == s.recovery && t.cwnd == s.cwnd && t.pacingRate == s.pacingRate && t.params == s.params
            && t.path.bandwidth == s.path.bandwidth && t.path.roundCount == s.path.roundCount
            && t.path.minRtt == s.path.minRtt && t.path.totalAcked == s.path.totalAcked
            && t.history == s.history.(probeRttSince := t.history.probeRttSince) && t.history.probeRttSince <= x.time
            && ModesMove(s, t, x, expired)
  {
    hide UpdateGainCycle; hide CheckFullBandwidth; hide ExitStartupOrDrain; hide EnterOrExitProbeRtt;
    if s.mode == PROBE_BW { GainCycleKeeps(s, x); }
    var s1 := if s.mode == PROBE_BW then UpdateGainCycle(s, x) else s;
    CheckFullBandwidthKeeps(s1.path, x.sample.last);
    var s2 := if roundStart && !s1.path.full then s1.(path := CheckFullBandwidth(s1.path, x.sample.last)) else s1;
    ExitStartupOrDrainKeeps(s2, x);
    ProbeRttKeeps(ExitStartupOrDrain(s2, x), x, roundStart, expired);
  }

  /** The windows are put in range; until full bandwidth neither the window nor the rate falls. */
  lemma WindowedKeeps(s: Sender, x: Input, roundStart: bool)
    requires MIN_CWND <= s.params.maxCwnd
    requires s.mode == PROBE_RTT ==> CwndInRange(s)
    requires s.recovery.state != NOT_IN_RECOVERY ==> s.recovery.window == 0 || s.recovery.window >= MIN_CWND
    ensures var t := Windowed(s, x, roundStart);
            && CwndInRange(t) && RecoveryInv(t)
            && t.cwnd <= Max(s.cwnd + x.acked, MIN_CWND)
            && (!s.path.full && s.cwnd <= s.params.maxCwnd ==> t.cwnd >= s.cwnd)
            && (!s.path.full ==> t.pacingRate >= s.pacingRate)
  {
    hide Target; hide ScaleRate; hide Estimate;
  }

  predicate WindowAndRateGrow(s: Sender, t: Sender) {
    s.cwnd <= s.params.maxCwnd ==>
      t.cwnd <= s.params.maxCwnd && (!t.path.full ==> t.cwnd >= s.cwnd && t.pacingRate >= s.pacingRate)
  }

  /** What the mode changes of an event find, and what the windows find after them. */
  lemma ReadyForModes(s: Sender, x: Input)
    requires Inv(s) && s.history.now <= x.time
    ensures var t := Sampled(Acknowledged(s, x), x);
            var u := Moded(t, x, StartsRound(s.path, x.lastAcked), MinRttExpires(s.path, x));
            && ModeInv(t) && CycleInv(t) && ProbeRttInv(t) && t.history.probeRttSince <= x.time && x.time > 0
            && t.params == s.params && u.params == s.params
            && (u.mode == PROBE_RTT ==> CwndInRange(u))
    ensures MinRttExpires(Acknowledged(s, x).path, x) == MinRttExpires(s.path, x)
  {
    hide Acknowledged; hide Sampled; hide Moded; hide FilterInv;
    AcknowledgedKeeps(s, x);
    FilterInvLater(s, Acknowledged(s, x));
    SampledKeeps(Acknowledged(s, x), x);
    ModedKeeps(Sampled(Acknowledged(s, x), x), x, StartsRound(s.path, x.lastAcked), MinRttExpires(s.path, x));
  }

  /** Every congestion event: the invariant is kept, and the moves are among those allowed. */
  lemma EventKeepsInv(s: Sender, x: Input)
    requires Inv(s) && s.history.now <= x.time
    ensures var t := OnEvent(s, x);
            && Inv(t) && t.params == s.params && t.history.events == s.history.events + 1
            && ModesMove(s, t, x, MinRttExpires(s.path, x)) && WindowAndRateGrow(s, t)
  {
    hide Acknowledged; hide Sampled; hide Moded; hide FilterInv; hide NewPacingRate; hide NewCwnd;
    hide NewRecoveryWindow;
    hide CheckFullBandwidth;
    var roundStart, expired := StartsRound(s.path, x.lastAcked), MinRttExpires(s.path, x);
    var s1 := Acknowledged(s, x);
    AcknowledgedKeeps(s, x);
    FilterInvLater(s, s1);
    var s2 := Sampled(s1, x);
    SampledKeeps(s1, x);
    var s3 := Moded(s2, x, roundStart, expired);
    ModedKeeps(s2, x, roundStart, expired);
    FilterInvFrame(s2, s3);
    WindowedKeeps(s3, x, roundStart);
    FilterInvFrame(s3, Windowed(s3, x, roundStart));
  }

  /** `w` is no more than `budget` beyond the smallest window and what is in flight plus what was just acked. */
  predicate WithinBudget(w: int, budget: int, x: Input) {
    w <= Max(budget, Max(MIN_CWND, x.inFlight + x.acked))
  }

  /** Recovery as it is meant: as much may always be sent as was acked; a new recovery starts from what is in flight; in
      CONSERVATION the window gives up what was lost and gains nothing, in GROWTH it gains what was acked. */
  lemma RecoveryConservesPackets(s: Sender, x: Input)
    requires Inv(s) && s.history.now <= x.time
    ensures var r, w := OnEvent(s, x).recovery, s.recovery.window;
            r.state != NOT_IN_RECOVERY ==>
              && r.window >= x.inFlight + x.acked
              && (s.recovery.state == NOT_IN_RECOVERY ==> r.state == CONSERVATION && WithinBudget(r.window, 0, x))
              && (s.recovery.state != NOT_IN_RECOVERY && r.state == CONSERVATION ==>
                 WithinBudget(r.window, Max(w - x.lost, MSS), x))
              && (s.recovery.state != NOT_IN_RECOVERY && r.state == GROWTH ==>
                 WithinBudget(r.window, Max(w - x.lost, MSS) + x.acked, x))
  {
    hide Acknowledged; hide Sampled; hide Moded; hide FilterInv; hide NewPacingRate; hide NewCwnd;
    hide CheckFullBandwidth;
    var roundStart, expired := StartsRound(s.path, x.lastAcked), MinRttExpires(s.path, x);
    AcknowledgedKeeps(s, x);
    FilterInvLater(s, Acknowledged(s, x));
    SampledKeeps(Acknowledged(s, x), x);
    ModedKeeps(Sampled(Acknowledged(s, x), x), x, roundStart, expired);
  }

  lemma FilterInvLater(s: Sender, t: Sender)
    requires FilterInv(s) && t.path.bandwidth == s.path.bandwidth && t.path.roundCount >= s.path.roundCount
    requires t.history == s.history
    ensures FilterInv(t)
  {
  }

  lemma SentKeepsInv(s: Sender, packetNumber: nat, bytesInFlight: nat, samplerAppLimited: bool)
    requires Inv(s)
    ensures Inv(OnSent(s, packetNumber, bytesInFlight, samplerAppLimited))
  {
    hide FilterInv;
    FilterInvFrame(s, OnSent(s, packetNumber, bytesInFlight, samplerAppLimited));
  }

  // ---------------------------------------------------------------- runs

  datatype Step = Congestion(x: Input) | SentPacket(packetNumber: nat, bytesInFlight: nat, samplerAppLimited: bool)

  function Next(s: Sender, step: Step): Sender {
    match step
    case Congestion(x) => OnEvent(s, x)
    case SentPacket(n, inFlight, limited) => OnSent(s, n, inFlight, limited)
  }

  /** The only thing asked of a step: the clock does not go back. */
  predicate Enabled(s: Sender, step: Step) {
    step.Congestion? ==> s.history.now <= step.x.time
  }

  predicate Possible(s: Sender, steps: seq<Step>)
    decreases |steps|
  {
    steps == [] || (Enabled(s, steps[0]) && Possible(Next(s, steps[0]), steps[1..]))
  }

  function Run(s: Sender, steps: seq<Step>): Sender
    decreases |steps|
  {
    if steps == [] then s else Run(Next(s, steps[0]), steps[1..])
  }

  lemma NewSenderInv(p: Params, now: int)
    requires now > 0 && MIN_CWND <= p.maxCwnd
    ensures Inv(NewSender(p, now))
  {
  }

  lemma StepKeepsInv(s: Sender, step: Step)
    requires Inv(s) && Enabled(s, step)
    ensures var t := Next(s, step);
            Inv(t) && t.params == s.params && WindowAndRateGrow(s, t) && (s.path.full ==> t.path.full)
  {
    hide Inv; hide OnEvent;
    match step {
      case Congestion(x) => EventKeepsInv(s, x);
      case SentPacket(n, inFlight, limited) => SentKeepsInv(s, n, inFlight, limited);
    }
  }

  lemma {:induction false} RunKeepsInv(s: Sender, steps: seq<Step>)
    requires Inv(s) && Possible(s, steps)
    ensures var t := Run(s, steps);
            Inv(t) && t.params == s.params && WindowAndRateGrow(s, t) && (s.path.full ==> t.path.full)
    decreases |steps|
  {
    hide Inv; hide Next;
    if steps != [] {
      StepKeepsInv(s, steps[0]);
      RunKeepsInv(Next(s, steps[0]), steps[1..]);
    }
  }

  /** In every state between steps: the usable window is between four segments and the maximum, from the first event on
      and, when the initial window is itself in that range, from the start; recovery, DRAIN and PROBE_BW mean that full
      bandwidth was reached, and STARTUP that it was not.  The window never outgrows the acks. */
  lemma EveryStateGuarantees(p: Params, now: int, steps: seq<Step>)
    requires now > 0 && MIN_CWND <= p.maxCwnd && Possible(NewSender(p, now), steps)
    ensures var s := Run(NewSender(p, now), steps);
            && (s.history.events > 0 || MIN_CWND <= p.initialCwnd <= p.maxCwnd <==>
               MIN_CWND <= UsableWindow(s) <= p.maxCwnd)
            && (s.recovery.state != NOT_IN_RECOVERY || s.mode == DRAIN || s.mode == PROBE_BW ==> s.path.full)
            && (s.mode == STARTUP ==> !s.path.full)
            && (s.recovery.state != NOT_IN_RECOVERY ==> s.recovery.window >= MIN_CWND)
            && s.cwnd <= Max(p.initialCwnd, MIN_CWND) + s.path.totalAcked
  {
    NewSenderInv(p, now);
    RunKeepsInv(NewSender(p, now), steps);
  }

  /** Until full bandwidth is reached neither the congestion window nor the pacing rate falls, visits to PROBE_RTT
      included; `more` continues the run `steps`. */
  lemma NoFallBeforeFullBandwidth(p: Params, now: int, steps: seq<Step>, more: seq<Step>)
    requires now > 0 && MIN_CWND <= p.maxCwnd && p.initialCwnd <= p.maxCwnd
    requires Possible(NewSender(p, now), steps) && Possible(Run(NewSender(p, now), steps), more)
    ensures var s := Run(NewSender(p, now), steps);
            var t := Run(s, more);
            !t.path.full ==> t.cwnd >= s.cwnd && t.pacingRate >= s.pacingRate
  {
    hide Inv;
    NewSenderInv(p, now);
    RunKeepsInv(NewSender(p, now), steps);
    RunKeepsInv(Run(NewSender(p, now), steps), more);
  }

  /** Whenever a run comes to pace at the draining gain in PROBE_BW, it was in PROBE_BW at the probing gain just
      before. */
  lemma DrainingFollowsProbing(p: Params, now: int, steps: seq<Step>, step: Step)
    requires now > 0 && MIN_CWND <= p.maxCwnd
    requires Possible(NewSender(p, now), steps) && Enabled(Run(NewSender(p, now), steps), step)
    ensures var s := Run(NewSender(p, now), steps);
            var t := Next(s, step);
            Draining(t) && !Draining(s) ==> s.mode == PROBE_BW && s.cycle.pacingGain == PROBE_UP
  {
    hide Inv; hide OnEvent;
    NewSenderInv(p, now);
    RunKeepsInv(NewSender(p, now), steps);
    if step.Congestion? {
      EventKeepsInv(Run(NewSender(p, now), steps), step.x);
    }
  }

  predicate Draining(s: Sender) {
    s.mode == PROBE_BW && s.cycle.pacingGain == PROBE_DOWN
  }

  /** A visit to PROBE_RTT lasts 200 ms or more, and ends in PROBE_BW or STARTUP according to whether full bandwidth was
      reached. */
  lemma ProbeRttLasts(p: Params, now: int, steps: seq<Step>, step: Step)
    requires now > 0 && MIN_CWND <= p.maxCwnd
    requires Possible(NewSender(p, now), steps) && Enabled(Run(NewSender(p, now), steps), step)
    ensures var s := Run(NewSender(p, now), steps);
            var t := Next(s, step);
            s.mode == PROBE_RTT && t.mode != PROBE_RTT ==>
              && step.Congestion? && step.x.time - s.history.probeRttSince >= PROBE_RTT_TIME
              && t.mode == (if t.path.full then PROBE_BW else STARTUP)
  {
    hide Inv; hide OnEvent;
    NewSenderInv(p, now);
    RunKeepsInv(NewSender(p, now), steps);
    if step.Congestion? {
      EventKeepsInv(Run(NewSender(p, now), steps), step.x);
    }
  }

  /** `v` is one of the samples taken within `window` rounds of the newest, and no sample since is larger. */
  ghost predicate RecentLargest(samples: seq<Sample>, window: nat, v: int)
    requires samples != []
  {
    exists i: nat :: i < |samples| && samples[i].value == v
                     && samples[|samples| - 1].time - samples[i].time <= window
                     && forall j: nat :: i <= j < |samples| ==> samples[j].value <= v
  }

  lemma FedReports(f: Filter, samples: seq<Sample>, round: nat, window: nat)
    requires Fed(f, samples, round, window)
    ensures samples == [] ==> f.best.value == 0
    ensures samples != [] ==> f.best.value >= 0 && RecentLargest(samples, window, f.best.value)
  {
    if samples != [] {
      var b: nat, c: nat, d: nat :| Tracks(f, samples, b, c, d);
      assert samples[b] == f.best;
    }
  }

  /** The bandwidth estimate is 0 as long as no sample was taken; afterwards it is one of the samples taken in the last
      ten rounds before the newest, and no sample since is larger. */
  lemma EstimateIsARecentSample(p: Params, now: int, steps: seq<Step>)
    requires now > 0 && MIN_CWND <= p.maxCwnd && Possible(NewSender(p, now), steps)
    ensures var s := Run(NewSender(p, now), steps);
            && (s.history.samples == [] ==> Estimate(s.path) == 0)
            && (s.history.samples != [] ==> RecentLargest(s.history.samples, BANDWIDTH_WINDOW, Estimate(s.path)))
  {
    hide Fed; hide RecentLargest;
    NewSenderInv(p, now);
    RunKeepsInv(NewSender(p, now), steps);
    var s := Run(NewSender(p, now), steps);
    FedReports(s.path.bandwidth, s.history.samples, s.path.roundCount, BANDWIDTH_WINDOW);
  }
}
