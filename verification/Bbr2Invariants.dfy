/** What every step of the BBRv2 modes and phases keeps. */
module Bbr2Invariants {
  import opened Base
  import opened Gains
  import opened Bbr2Model
  import opened Bbr2Modes

  /** Full bandwidth is reached exactly outside STARTUP; the probing cycle starts with the
      first PROBE_BW; PROBE_RTT is held only between PROBE_DOWN and what follows it. */
  ghost predicate Phased(s: Sender) {
    && (s.mode == STARTUP <==> !s.model.fullBandwidthReached)
    && (s.mode == STARTUP || s.mode == DRAIN ==> s.cycle.phase == NOT_STARTED)
    && (s.mode == PROBE_BW ==> s.cycle.phase != NOT_STARTED)
    && (s.mode == PROBE_RTT ==> s.cycle.phase == CRUISE || s.cycle.phase == REFILL)
  }

  /** While probing for bandwidth there are no short-term lower bounds. */
  ghost predicate BoundsClear(s: Sender) {
    Probing(s) ==> s.model.bandwidthLo == INFINITE_BANDWIDTH && s.model.inflightLo == UNSET
  }

  /** Upward probing never outruns the acks. */
  ghost predicate WithinCredit(s: Sender) {
    s.history.raised + s.cycle.probeUpAcked <= s.history.credit
  }

  /** Every visit to PROBE_DOWN but an unfinished one has called `Advance` exactly once.  The
      round count tells that no second call can come. */
  ghost predicate AdvancedOnce(s: Sender) {
    && s.history.advances + (if s.cycle.phase == DOWN && !s.cycle.hasAdvancedMaxBw then 1 else 0) == s.history.downs
    && (s.cycle.phase == DOWN && s.cycle.hasAdvancedMaxBw ==> s.cycle.roundsInPhase >= 1)
    && s.cycle.phaseStartTime <= s.history.now
    && (s.cycle.roundsInPhase >= 1 ==> s.cycle.phaseStartTime < s.history.now)
  }

  ghost predicate StartupRounds(s: Sender) {
    s.mode == STARTUP ==>
        s.model.roundsWithoutGrowth < STARTUP_FULL_BW_ROUNDS && s.model.baseline <= MaxBandwidth(s.model)
  }

  /** Holds at every turn of the mode loop. */
  ghost predicate LoopInv(s: Sender) {
    && Slopes(s) && s.model.minRtt > 0 && 0 < s.history.now
    && Phased(s) && BoundsClear(s) && WithinCredit(s) && AdvancedOnce(s) && StartupRounds(s)
  }

  /** The event happens now and its round-trip sample is positive. */
  ghost predicate Timely(s: Sender, ev: Event) {
    ev.time == s.history.now && ev.rtt > 0
  }

  /** Configuration, window and history clock are none of the modes' business. */
  ghost predicate Frame(s: Sender, r: Sender) {
    && r.params == s.params && r.cwnd == s.cwnd && r.pacingRate == s.pacingRate
    && r.quiescenceStart == s.quiescenceStart && r.history.now == s.history.now
    && r.model.totalAcked == s.model.totalAcked
  }

  // ---------------------------------------------------------------- entering phases

  lemma EnterDownKeeps(s: Sender, tooHigh: bool, risky: bool, now: int, randomRounds: nat, randomWait: nat)
    requires LoopInv(s) && now == s.history.now && s.model.fullBandwidthReached
    requires s.cycle.phase == UP || s.cycle.phase == NOT_STARTED
    ensures var r := EnterDown(s, tooHigh, risky, now, randomRounds, randomWait).(mode := PROBE_BW);
            LoopInv(r) && Frame(s, r) && r.cycle.phase == DOWN
  {}

  lemma LeftDownKeeps(s: Sender)
    requires Slopes(s) && WithinCredit(s) && AdvancedOnce(s)
    ensures var r := LeftDown(s);
            && Slopes(r) && WithinCredit(r) && Frame(s, r) && r.mode == s.mode && r.exitTime == s.exitTime
            && r.history.advances == r.history.downs
            && r.cycle == s.cycle.(hasAdvancedMaxBw := r.cycle.hasAdvancedMaxBw)
            && r.model == s.model.(bandwidths := r.model.bandwidths)
  {}

  lemma EnterCruiseKeeps(s: Sender, now: int)
    requires LoopInv(s) && now == s.history.now && s.model.fullBandwidthReached
    ensures var r := EnterCruise(s, now).(mode := PROBE_BW); LoopInv(r) && Frame(s, r) && r.cycle.phase == CRUISE
  {
    hide LeftDown;
    LeftDownKeeps(s);
  }

  lemma EnterRefillKeeps(s: Sender, rounds: nat, now: int)
    requires LoopInv(s) && now == s.history.now && s.model.fullBandwidthReached && rounds <= 30
    ensures var r := EnterRefill(s, rounds, now).(mode := PROBE_BW);
            LoopInv(r) && Frame(s, r) && r.cycle.phase == REFILL
  {
    hide LeftDown;
    LeftDownKeeps(s);
  }

  lemma EnterUpKeeps(s: Sender, now: int)
    requires LoopInv(s) && now == s.history.now && s.mode == PROBE_BW && s.cycle.phase == REFILL
    ensures var r := EnterUp(s, now); LoopInv(r) && Frame(s, r) && r.mode == PROBE_BW && r.cycle.phase == UP
  {
    hide Pow2;
  }

  // ---------------------------------------------------------------- within a phase

  /** Adapting the upper bound touches nothing but the bound and one flag. */
  lemma AdaptUpperBoundsChanges(s: Sender, ev: Event)
    ensures var r := AdaptUpperBounds(s, ev);
            r == s.(cycle := s.cycle.(isSampleFromProbing := r.cycle.isSampleFromProbing),
                    model := s.model.(inflightHi := r.model.inflightHi))
  {
    hide IsInflightTooHigh; hide Scale; hide TargetInflight; hide SentInFlight;
  }

  lemma AdaptUpperBoundsKeeps(s: Sender, ev: Event)
    requires LoopInv(s)
    ensures var r := AdaptUpperBounds(s, ev);
            && LoopInv(r) && Frame(s, r) && r.mode == s.mode
            && r.cycle == s.cycle.(isSampleFromProbing := r.cycle.isSampleFromProbing)
            && r.history == s.history
  {
    hide AdaptUpperBounds;
    AdaptUpperBoundsChanges(s, ev);
  }

  /** Segments are no larger than the bytes that pay for them. */
  lemma UpwardStepIsPaid(acked: nat, perStep: nat)
    requires perStep >= MSS
    ensures acked / perStep * MSS + acked % perStep <= acked
  {
    assert acked / perStep * MSS <= acked / perStep * perStep;
  }

  lemma ProbeUpwardKeeps(s: Sender, ev: Event)
    requires LoopInv(s) && s.mode == PROBE_BW && s.cycle.phase == UP
    requires s.history.raised + s.cycle.probeUpAcked + ev.acked <= s.history.credit
    ensures var r := ProbeUpward(s, ev);
            && LoopInv(r) && Frame(s, r) && r.mode == PROBE_BW && r.cycle.phase == UP
            && r.cycle.roundsInPhase == s.cycle.roundsInPhase
  {
    hide Pow2;
    UpwardStepIsPaid(s.cycle.probeUpAcked + ev.acked, s.cycle.probeUpBytes);
  }

  lemma CountedRoundsKeeps(s: Sender, ev: Event)
    requires LoopInv(s) && Timely(s, ev)
    ensures var r := CountedRounds(s, ev);
            && LoopInv(r) && Frame(s, r) && r.mode == s.mode && r.cycle.phase == s.cycle.phase && r.history == s.history
            && r.cycle.probeUpAcked == s.cycle.probeUpAcked
            && (FirstRoundOver(r, ev) && r.cycle.phase == DOWN ==> !r.cycle.hasAdvancedMaxBw)
  {}

  lemma FirstRoundKeeps(s: Sender, ev: Event)
    requires LoopInv(s) && s.mode == PROBE_BW && s.cycle.phase == DOWN && FirstRoundOver(s, ev)
             && !s.cycle.hasAdvancedMaxBw
    ensures var r := FirstRound(s, ev); LoopInv(r) && Frame(s, r) && r.mode == PROBE_BW && r.cycle.phase == DOWN
  {}

  lemma DrainDownKeeps(s: Sender, ev: Event)
    requires LoopInv(s) && Timely(s, ev) && s.mode == PROBE_BW && s.cycle.phase == DOWN
    ensures var r := DrainDown(s, ev);
            LoopInv(r) && Frame(s, r) && r.mode == PROBE_BW && r.cycle.phase in {DOWN, CRUISE, REFILL}
  {
    hide AdaptUpperBounds; hide EnterRefill; hide EnterCruise; hide IsTimeToProbe; hide HiWithHeadroom; hide Bdp;
    var s1 := AdaptUpperBounds(s, ev);
    AdaptUpperBoundsKeeps(s, ev);
    EnterRefillKeeps(s1, 0, ev.time);
    EnterCruiseKeeps(s1, ev.time);
    KeepsMode(s1, ev.time);
  }

  /** Entering a phase leaves the mode alone. */
  lemma KeepsMode(s: Sender, now: int)
    ensures EnterCruise(s, now).mode == s.mode
    ensures EnterRefill(s, 0, now).mode == s.mode
  {}

  lemma UpdateDownKeeps(s: Sender, ev: Event)
    requires LoopInv(s) && Timely(s, ev) && s.mode == PROBE_BW && s.cycle.phase == DOWN
    requires FirstRoundOver(s, ev) ==> !s.cycle.hasAdvancedMaxBw
    ensures var r := UpdateDown(s, ev);
            LoopInv(r) && Frame(s, r) && r.mode == PROBE_BW && r.cycle.phase in {DOWN, CRUISE, REFILL}
  {
    hide DrainDown; hide FirstRound; hide EnterRefill;
    if FirstRoundOver(s, ev) {
      var s1 := FirstRound(s, ev);
      FirstRoundKeeps(s, ev);
      EnterRefillKeeps(s1, 0, ev.time);
      KeepsMode(s1, ev.time);
      DrainDownKeeps(s1, ev);
    } else {
      DrainDownKeeps(s, ev);
    }
  }

  lemma UpdateCruiseKeeps(s: Sender, ev: Event)
    requires LoopInv(s) && Timely(s, ev) && s.mode == PROBE_BW && s.cycle.phase == CRUISE
    ensures var r := UpdateCruise(s, ev); LoopInv(r) && Frame(s, r) && r.mode == PROBE_BW
  {
    hide AdaptUpperBounds; hide EnterRefill; hide IsTimeToProbe;
    AdaptUpperBoundsKeeps(s, ev);
    EnterRefillKeeps(AdaptUpperBounds(s, ev), 0, ev.time);
    KeepsMode(AdaptUpperBounds(s, ev), ev.time);
  }

  lemma UpdateRefillKeeps(s: Sender, ev: Event)
    requires LoopInv(s) && Timely(s, ev) && s.mode == PROBE_BW && s.cycle.phase == REFILL
    ensures var r := UpdateRefill(s, ev); LoopInv(r) && Frame(s, r) && r.mode == PROBE_BW
  {
    hide AdaptUpperBounds; hide EnterUp;
    AdaptUpperBoundsKeeps(s, ev);
    EnterUpKeeps(AdaptUpperBounds(s, ev), ev.time);
  }

  lemma UpdateUpKeeps(s: Sender, ev: Event, priorInFlight: nat)
    requires LoopInv(s) && Timely(s, ev) && s.mode == PROBE_BW && s.cycle.phase == UP
    requires s.history.raised + s.cycle.probeUpAcked + ev.acked <= s.history.credit
    ensures var r := UpdateUp(s, ev, priorInFlight); LoopInv(r) && Frame(s, r) && r.mode == PROBE_BW
  {
    hide AdaptUpperBounds; hide ProbeUpward; hide EnterDown; hide ProbedTooHigh;
    var s1 := AdaptUpperBounds(s, ev);
    AdaptUpperBoundsKeeps(s, ev);
    EnterDownKeeps(s1, true, false, ev.time, ev.randomRounds, ev.randomWait);
    var s2 := ProbeUpward(s1, ev);
    ProbeUpwardKeeps(s1, ev);
    var risky := s2.lastCycleProbedTooHigh && priorInFlight >= s2.model.inflightHi;
    EnterDownKeeps(s2, false, risky, ev.time, ev.randomRounds, ev.randomWait);
    DownKeepsMode(s1, true, false, ev.time, ev.randomRounds, ev.randomWait);
    DownKeepsMode(s2, false, risky, ev.time, ev.randomRounds, ev.randomWait);
  }

  lemma DownKeepsMode(s: Sender, tooHigh: bool, risky: bool, now: int, randomRounds: nat, randomWait: nat)
    ensures EnterDown(s, tooHigh, risky, now, randomRounds, randomWait).mode == s.mode
  {}

  // ---------------------------------------------------------------- modes

  /** The event's acked bytes have been credited but, while in PROBE_UP, not yet spent. */
  ghost predicate CreditPending(s: Sender, ev: Event) {
    s.mode == PROBE_BW && s.cycle.phase == UP ==> s.history.raised + s.cycle.probeUpAcked + ev.acked <= s.history.credit
  }

  lemma PhaseStepKeeps(s: Sender, ev: Event, priorInFlight: nat)
    requires LoopInv(s) && Timely(s, ev) && s.mode == PROBE_BW && CreditPending(s, ev)
    requires FirstRoundOver(s, ev) && s.cycle.phase == DOWN ==> !s.cycle.hasAdvancedMaxBw
    ensures var r := PhaseStep(s, ev, priorInFlight);
            && LoopInv(r) && Frame(s, r) && r.mode == PROBE_BW
            && (s.cycle.phase == DOWN ==> r.cycle.phase in {DOWN, CRUISE, REFILL})
  {
    hide UpdateUp; hide UpdateDown; hide UpdateCruise; hide UpdateRefill; hide BoundsClear; hide WithinCredit;
    hide AdvancedOnce;
    match s.cycle.phase
    case UP => UpdateUpKeeps(s, ev, priorInFlight);
    case DOWN => UpdateDownKeeps(s, ev);
    case CRUISE => UpdateCruiseKeeps(s, ev);
    case REFILL => UpdateRefillKeeps(s, ev);
  }

  /** PROBE_BW either stays, or gives way to PROBE_RTT at the moment PROBE_DOWN ends. */
  lemma ProbeBwKeeps(s: Sender, ev: Event, priorInFlight: nat)
    requires LoopInv(s) && Timely(s, ev) && s.mode == PROBE_BW && CreditPending(s, ev)
    ensures var (r, next) := ProbeBwEvent(s, ev, priorInFlight);
            && LoopInv(r) && Frame(s, r) && r.mode == PROBE_BW
            && next in {PROBE_BW, PROBE_RTT}
            && (next == PROBE_RTT ==> s.cycle.phase == DOWN && r.cycle.phase in {CRUISE, REFILL})
  {
    hide CountedRounds; hide PhaseStep; hide FirstRoundOver;
    CountedRoundsKeeps(s, ev);
    PhaseStepKeeps(CountedRounds(s, ev), ev, priorInFlight);
  }

  lemma StartupKeeps(s: Sender, ev: Event)
    requires LoopInv(s) && Timely(s, ev) && s.mode == STARTUP
    ensures var (r, next) := StartupEvent(s, ev);
            && Frame(s, r) && r.mode == STARTUP && next in {STARTUP, DRAIN}
            && r.cycle == s.cycle && r.history == s.history && r.exitTime == s.exitTime
            && r.model.minRtt == s.model.minRtt && r.model.bandwidths == s.model.bandwidths
            && r.model.bandwidthLo == s.model.bandwidthLo && r.model.inflightLo == s.model.inflightLo
            && (next == STARTUP ==> LoopInv(r) && r.model.inflightHi == s.model.inflightHi)
            && (next == DRAIN <==> r.model.fullBandwidthReached)
  {
    hide IsInflightTooHigh; hide Bdp; hide GrowthTarget;
    GrowthFacts(s.model, ev);
  }

  lemma GrowthFacts(m: Model, ev: Event)
    requires m.roundsWithoutGrowth < STARTUP_FULL_BW_ROUNDS && !m.fullBandwidthReached && m.baseline <= MaxBandwidth(m)
    ensures var r := CheckGrowth(m, ev);
            && r == m.(baseline := r.baseline, roundsWithoutGrowth := r.roundsWithoutGrowth,
               fullBandwidthReached := r.fullBandwidthReached)
            && (r.fullBandwidthReached <==> GrowthOf(m, ev) == Exit)
            && m.baseline <= r.baseline <= MaxBandwidth(m)
            && (!r.fullBandwidthReached ==> r.roundsWithoutGrowth < STARTUP_FULL_BW_ROUNDS)
  {}

  lemma DrainKeeps(s: Sender, ev: Event)
    requires LoopInv(s) && s.mode == DRAIN
    ensures var (r, next) := DrainEvent(s, ev);
            LoopInv(r) && Frame(s, r) && r.mode == DRAIN && next in {DRAIN, PROBE_BW}
  {
    hide DrainTarget;
  }

  /** PROBE_RTT stays put right after it is entered. */
  lemma ProbeRttKeeps(s: Sender, ev: Event)
    requires LoopInv(s) && s.mode == PROBE_RTT
    ensures var (r, next) := ProbeRttEvent(s, ev);
            && LoopInv(r) && Frame(s, r) && r.mode == PROBE_RTT
            && next in {PROBE_RTT, PROBE_BW} && (s.exitTime == 0 ==> next == PROBE_RTT)
  {
    hide InflightTarget;
  }

  /** How many mode changes can still follow within the same event. */
  function ChangesLeft(s: Sender): nat {
    match s.mode
    case STARTUP => 3
    case DRAIN => 2
    case PROBE_BW => if s.cycle.phase == DOWN then 1 else 0
    case PROBE_RTT => if s.exitTime == 0 then 0 else 1
  }

  lemma SwitchFromStartup(s: Sender, now: int, randomRounds: nat, randomWait: nat)
    requires Slopes(s) && s.model.minRtt > 0 && 0 < s.history.now && WithinCredit(s) && AdvancedOnce(s)
    requires s.mode == STARTUP && s.cycle.phase == NOT_STARTED && s.model.fullBandwidthReached
    ensures var r := Switch(s, DRAIN, now, randomRounds, randomWait); LoopInv(r) && Frame(s, r) && ChangesLeft(r) == 2
  {}

  lemma SwitchFromDrain(s: Sender, now: int, randomRounds: nat, randomWait: nat)
    requires LoopInv(s) && s.mode == DRAIN && now == s.history.now
    ensures var r := Switch(s, PROBE_BW, now, randomRounds, randomWait);
            LoopInv(r) && Frame(s, r) && ChangesLeft(r) == 1
  {
    hide EnterDown; hide AdvancedOnce; hide WithinCredit;
    ModeBeforeEnterDown(s, now, randomRounds, randomWait);
    EnterDownKeeps(s, false, false, now, randomRounds, randomWait);
  }

  lemma ModeBeforeEnterDown(s: Sender, now: int, randomRounds: nat, randomWait: nat)
    ensures EnterDown(s.(mode := PROBE_BW), false, false, now, randomRounds, randomWait)
         == EnterDown(s, false, false, now, randomRounds, randomWait).(mode := PROBE_BW)
  {}

  lemma SwitchToProbeRtt(s: Sender, now: int, randomRounds: nat, randomWait: nat)
    requires LoopInv(s) && s.mode == PROBE_BW && s.cycle.phase in {CRUISE, REFILL}
    ensures var r := Switch(s, PROBE_RTT, now, randomRounds, randomWait);
            LoopInv(r) && Frame(s, r) && ChangesLeft(r) == 0
  {}

  lemma SwitchFromProbeRtt(s: Sender, now: int, randomRounds: nat, randomWait: nat)
    requires LoopInv(s) && s.mode == PROBE_RTT && now == s.history.now
    ensures var r := Switch(s, PROBE_BW, now, randomRounds, randomWait);
            LoopInv(r) && Frame(s, r) && ChangesLeft(r) == 0
    ensures Switch(s, PROBE_BW, now, randomRounds, randomWait).cycle.phase in {CRUISE, REFILL}
  {
    hide EnterCruise; hide EnterRefill;
    var s1 := s.(cycle := s.cycle.(startTime := now));
    EnterCruiseKeeps(s1, now);
    EnterRefillKeeps(s1, s1.cycle.probeUpRounds, now);
    ModeBeforeEnter(s1, now);
  }

  lemma ModeBeforeEnter(s: Sender, now: int)
    ensures EnterCruise(s.(mode := PROBE_BW), now) == EnterCruise(s, now).(mode := PROBE_BW)
    ensures EnterRefill(s.(mode := PROBE_BW), s.cycle.probeUpRounds, now)
         == EnterRefill(s, s.cycle.probeUpRounds, now).(mode := PROBE_BW)
  {}

  /** One turn of the mode loop: either the mode proposes itself, or the next state has fewer
      mode changes ahead of it. */
  lemma TurnKeeps(s: Sender, ev: Event, priorInFlight: nat)
    requires LoopInv(s) && Timely(s, ev) && CreditPending(s, ev)
    ensures Slopes(s)
    ensures var (r, next) := Dispatch(s, ev, priorInFlight);
            && Frame(s, r) && r.mode == s.mode
            && (next == s.mode ==> LoopInv(r))
            && (next != s.mode ==>
                  var t := Switch(r, next, ev.time, ev.randomRounds, ev.randomWait);
                  && LoopInv(t) && Frame(s, t) && CreditPending(t, ev) && ChangesLeft(t) < ChangesLeft(s)
                  && t.mode == next && next != STARTUP)
  {
    hide StartupEvent; hide DrainEvent; hide ProbeBwEvent; hide ProbeRttEvent; hide Switch; hide AdvancedOnce;
    hide WithinCredit;
    hide BoundsClear; hide Slopes;
    var (r, next) := Dispatch(s, ev, priorInFlight);
    match s.mode
    case STARTUP =>
      StartupKeeps(s, ev);
      if next == DRAIN {
        StartupStillSlopes(s, r);
        SwitchFromStartup(r, ev.time, ev.randomRounds, ev.randomWait);
        SwitchSetsMode(r, next, ev.time, ev.randomRounds, ev.randomWait);
      }
    case DRAIN =>
      DrainKeeps(s, ev);
      if next == PROBE_BW {
        SwitchFromDrain(r, ev.time, ev.randomRounds, ev.randomWait);
        SwitchSetsMode(r, next, ev.time, ev.randomRounds, ev.randomWait);
      }
    case PROBE_BW =>
      ProbeBwKeeps(s, ev, priorInFlight);
      if next == PROBE_RTT {
        SwitchToProbeRtt(r, ev.time, ev.randomRounds, ev.randomWait);
        SwitchSetsMode(r, next, ev.time, ev.randomRounds, ev.randomWait);
      }
    case PROBE_RTT =>
      ProbeRttKeeps(s, ev);
      if next == PROBE_BW {
        ProbeRttKeepsExit(s, ev);
        SwitchFromProbeRtt(r, ev.time, ev.randomRounds, ev.randomWait);
        SwitchSetsMode(r, next, ev.time, ev.randomRounds, ev.randomWait);
      }
  }

  lemma StartupStillSlopes(s: Sender, r: Sender)
    requires LoopInv(s) && r.cycle == s.cycle && r.history == s.history && r.model.minRtt == s.model.minRtt
    ensures Slopes(r) && r.model.minRtt > 0 && 0 < r.history.now && WithinCredit(r) && AdvancedOnce(r)
  {}

  lemma SwitchSetsMode(s: Sender, next: Mode, now: int, randomRounds: nat, randomWait: nat)
    ensures Switch(s, next, now, randomRounds, randomWait).mode == next
  {}

  lemma ProbeRttKeepsExit(s: Sender, ev: Event)
    requires ProbeRttEvent(s, ev).1 == PROBE_BW
    ensures s.exitTime != 0 && ProbeRttEvent(s, ev).0 == s
  {}
}
