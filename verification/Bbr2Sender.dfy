/** `Bbr2Sender` as an object, with the mode classes that share its model.  Every method does
    exactly the step that the state machine of `Bbr2Modes` prescribes. */
module Bbr2SenderObject {
  import opened Base
  import opened Samples
  import opened Gains
  import opened Bbr2Model
  import opened Bbr2Modes
  import opened Bbr2Invariants
  import opened Bbr2Runs
  import opened Bbr2Laws

  datatype AdaptResult = ADAPTED_OK | ADAPTED_PROBED_TOO_HIGH | NOT_ADAPTED_INFLIGHT_HIGH_NOT_SET
      | NOT_ADAPTED_INVALID_SAMPLE

  class Bbr2Sender {
    const params: Params
    var mode: Mode
    var model: Model
    var cycle: Cycle
    var lastCycleProbedTooHigh: bool
    var lastCycleStoppedRiskyProbe: bool
    var exitTime: int
    var cwnd: nat
    var pacingRate: nat
    var lastQuiescenceStart: int
    ghost var history: History

    ghost function State(): Sender
      reads this
    {
      Sender(params, mode, model, cycle, lastCycleProbedTooHigh, lastCycleStoppedRiskyProbe, exitTime, cwnd, pacingRate,
             lastQuiescenceStart, history)
    }

    constructor (p: Params, now: int, rtt: int, rttTime: int)
      requires Configured(p, now, rtt)
      ensures State() == Begin(p, now, rtt, rttTime) && Inv(State()) && StateLaws(State())
    {
      var initialCwnd := ApplyLimits(p.initialCwnd, p.minCwnd, p.maxCwnd);
      params := p.(initialCwnd := initialCwnd);
      mode := STARTUP;
      model := Model(None, None, 0, 0, (0, 0), rtt, rttTime, 0, 0, 0, 0, INFINITE_BANDWIDTH, 0, UNSET, UNSET,
                     STARTUP_CWND_GAIN, STARTUP_PACING_GAIN, false, 0, 0);
      cycle := NEW_CYCLE;
      lastCycleProbedTooHigh, lastCycleStoppedRiskyProbe, exitTime := false, false, 0;
      cwnd := initialCwnd;
      pacingRate := ScaleRate(Rate(initialCwnd, rtt), STARTUP_PACING_GAIN);
      lastQuiescenceStart := 0;
      history := History(now, 0, 0, 0, 0, [rtt]);
      new;
      NewSenderInv(p, now, rtt, rttTime);
      BeginLaw(p, now, rtt, rttTime);
    }

    // -------------------------------------------------------------- PROBE_BW: entering phases

    method AdvanceMaxBandwidthFilter()
      modifies this`model, this`cycle, this`history
      ensures State() == AdvancedFilter(old(State()))
    {
      if model.bandwidths.1 != 0 {
        model := model.(bandwidths := (model.bandwidths.1, 0));
      }
      cycle := cycle.(hasAdvancedMaxBw := true);
      history := history.(advances := history.advances + 1);
    }

    method ExitProbeDown()
      modifies this`model, this`cycle, this`history
      ensures State() == if !old(cycle.hasAdvancedMaxBw) then AdvancedFilter(old(State())) else old(State())
    {
      if !cycle.hasAdvancedMaxBw {
        AdvanceMaxBandwidthFilter();
      }
    }

    method EnterProbeDown(probedTooHigh: bool, stoppedRiskyProbe: bool, now: int, randomRounds: nat, randomWait: nat)
      modifies this`model, this`cycle, this`history, this`lastCycleProbedTooHigh, this`lastCycleStoppedRiskyProbe
      ensures State() == EnterDown(old(State()), probedTooHigh, stoppedRiskyProbe, now, randomRounds, randomWait)
      ensures old(history.advances == history.downs) ==>
              history.advances + 1 == history.downs && !cycle.hasAdvancedMaxBw
    {
      lastCycleProbedTooHigh := probedTooHigh;
      lastCycleStoppedRiskyProbe := stoppedRiskyProbe;
      cycle := cycle.(startTime := now, phase := DOWN, roundsInPhase := 0, phaseStartTime := now);
      cycle := cycle.(roundsSinceProbe := randomRounds, waitTime := PROBE_BASE_DURATION + randomWait);
      cycle := cycle.(probeUpBytes := UNSET, hasAdvancedMaxBw := false);
      model := RestartRoundEarly(model);
      history := history.(downs := history.downs + 1);
    }

    method EnterProbeCruise(now: int)
      modifies this`model, this`cycle, this`history
      ensures State() == EnterCruise(old(State()), now)
      ensures model.inflightLo == UNSET || model.inflightLo <= model.inflightHi
      ensures old(AdvancedOnce(State())) ==> history.advances == history.downs
    {
      hide AdvanceFilter;
      if cycle.phase == DOWN {
        ExitProbeDown();
      }
      model := CapInflightLo(model, model.inflightHi);
      cycle := cycle.(phase := CRUISE, roundsInPhase := 0, phaseStartTime := now, isSampleFromProbing := false);
    }

    method EnterProbeRefill(probeUpRounds: nat, now: int)
      modifies this`model, this`cycle, this`history, this`lastCycleStoppedRiskyProbe
      ensures State() == EnterRefill(old(State()), probeUpRounds, now)
      ensures model.bandwidthLo == INFINITE_BANDWIDTH && model.inflightLo == UNSET
      ensures old(AdvancedOnce(State())) ==> history.advances == history.downs
    {
      hide AdvanceFilter;
      if cycle.phase == DOWN {
        ExitProbeDown();
      }
      cycle := cycle.(phase := REFILL, roundsInPhase := 0, phaseStartTime := now, isSampleFromProbing := false);
      lastCycleStoppedRiskyProbe := false;
      model := model.(bandwidthLo := INFINITE_BANDWIDTH);
      model := model.(inflightLo := UNSET);
      cycle := cycle.(probeUpRounds := probeUpRounds, probeUpAcked := 0);
      model := RestartRoundEarly(model);
      history := history.(raised := 0, credit := 0);
    }

    method RaiseInflightHighSlope()
      modifies this`cycle
      ensures State() == RaisedSlope(old(State())) && Slopes(State())
    {
      var growthThisRound := Pow2(cycle.probeUpRounds);
      cycle := cycle.(probeUpRounds := Min(cycle.probeUpRounds + 1, 30));
      cycle := cycle.(probeUpBytes := Max(cwnd / growthThisRound, MSS));
    }

    method EnterProbeUp(now: int)
      modifies this`model, this`cycle
      ensures State() == EnterUp(old(State()), now) && Slopes(State())
    {
      hide Pow2;
      cycle := cycle.(phase := UP, roundsInPhase := 0, phaseStartTime := now, isSampleFromProbing := true);
      RaiseInflightHighSlope();
      model := RestartRoundEarly(model);
    }

    // -------------------------------------------------------------- PROBE_BW: upper bounds

    method MaybeAdaptUpperBounds(ev: Event) returns (result: AdaptResult)
      modifies this`model, this`cycle
      ensures State() == AdaptUpperBounds(old(State()), ev)
      ensures result == ADAPTED_PROBED_TOO_HIGH <==> ProbedTooHigh(old(State()), ev)
      ensures model == old(model).(inflightHi := model.inflightHi)
      ensures cycle == old(cycle).(isSampleFromProbing := cycle.isSampleFromProbing)
    {
      hide IsInflightTooHigh; hide Scale; hide TargetInflight; hide SentInFlight;
      if !ev.last.isValid {
        return NOT_ADAPTED_INVALID_SAMPLE;
      }
      var inflightAtSend := SentInFlight(ev.last);
      if IsInflightTooHigh(model, ev, PROBE_BW_FULL_LOSS_COUNT, params.lossThreshold) {
        if cycle.isSampleFromProbing {
          cycle := cycle.(isSampleFromProbing := false);
          if !ev.last.appLimited {
            var target := TargetInflight(model, cwnd);
            model := model.(inflightHi := Max(inflightAtSend, Scale(target, BETA_KEEP)));
          }
          return ADAPTED_PROBED_TOO_HIGH;
        }
        return ADAPTED_OK;
      }
      if model.inflightHi == UNSET {
        return NOT_ADAPTED_INFLIGHT_HIGH_NOT_SET;
      }
      if inflightAtSend > model.inflightHi {
        model := model.(inflightHi := inflightAtSend);
      }
      result := ADAPTED_OK;
    }

    /** Turns the acked bytes collected into segments on `inflight_hi`. */
    method SpendAcked(bytesAcked: nat)
      requires Slopes(State())
      modifies this`model, this`cycle, this`history
      ensures var acked := old(cycle.probeUpAcked) + bytesAcked;
              var delta := acked / old(cycle.probeUpBytes);
              && cycle == old(cycle).(probeUpAcked := acked % old(cycle.probeUpBytes))
              && model == old(model).(inflightHi := old(model.inflightHi) + delta * MSS)
              && history == old(history).(raised := old(history.raised) + delta * MSS)
    {
      cycle := cycle.(probeUpAcked := cycle.probeUpAcked + bytesAcked);
      DivModOf(cycle.probeUpAcked, cycle.probeUpBytes);
      if cycle.probeUpAcked >= cycle.probeUpBytes {
        var delta := cycle.probeUpAcked / cycle.probeUpBytes;
        cycle := cycle.(probeUpAcked := cycle.probeUpAcked - delta * cycle.probeUpBytes);
        var newInflightHi := model.inflightHi + delta * MSS;
        if newInflightHi > model.inflightHi {
          model := model.(inflightHi := newInflightHi);
          history := history.(raised := history.raised + delta * MSS);
        }
      }
    }

    /** What it raises is paid for: with what is pending it stays within the bytes acked since PROBE_REFILL began. */
    method ProbeInflightHighUpward(ev: Event)
      requires LoopInv(State()) && mode == PROBE_BW && cycle.phase == UP
      requires history.raised + cycle.probeUpAcked + ev.acked <= history.credit
      modifies this`model, this`cycle, this`history
      ensures State() == ProbeUpward(old(State()), ev) && LoopInv(State())
      ensures history.raised + cycle.probeUpAcked <= history.credit && cycle.probeUpBytes >= MSS
    {
      hide RaisedSlope; hide LoopInv;
      LoopInvFacts(State());
      ProbeUpwardKeeps(State(), ev);
      LoopInvFacts(ProbeUpward(State(), ev));
      if !IsCwndLimited(ev) {
        return;
      }
      if ev.priorCwnd < model.inflightHi {
        return;
      }
      SpendAcked(ev.acked);
      if ev.endOfRound {
        RaiseInflightHighSlope();
      }
    }

    // -------------------------------------------------------------- PROBE_BW: phases

    /** The first round of PROBE_DOWN has ended: the filter advances unless the sender is app limited. */
    method EndFirstDownRound(ev: Event)
      modifies this`model, this`cycle, this`history
      ensures State() == FirstRound(old(State()), ev)
    {
      hide AdvanceFilter;
      cycle := cycle.(isSampleFromProbing := false);
      if !ev.appLimited {
        AdvanceMaxBandwidthFilter();
      }
    }

    /** `UpdateProbeDown` once the end of the first round is dealt with. */
    method DrainProbeDown(ev: Event)
      requires LoopInv(State()) && Timely(State(), ev) && mode == PROBE_BW && cycle.phase == DOWN
      modifies this`model, this`cycle, this`history, this`lastCycleStoppedRiskyProbe
      ensures State() == DrainDown(old(State()), ev) && LoopInv(State())
      ensures cycle.phase == DOWN || cycle.phase == CRUISE || cycle.phase == REFILL
    {
      hide AdaptUpperBounds; hide EnterRefill; hide EnterCruise; hide HiWithHeadroom; hide Bdp; hide IsTimeToProbe;
      hide LoopInv; hide AdvancedOnce;
      DrainDownKeeps(State(), ev);
      var adapted := MaybeAdaptUpperBounds(ev);
      if IsTimeToProbe(model, cycle, cwnd, ev) {
        EnterProbeRefill(0, ev.time);
        return;
      }
      if ev.time - cycle.phaseStartTime > model.minRtt {
        EnterProbeCruise(ev.time);
        return;
      }
      if ev.inFlight > HiWithHeadroom(model) {
        return;
      }
      if ev.inFlight < Bdp(model, MaxBandwidth(model)) {
        EnterProbeCruise(ev.time);
      }
    }

    /** PROBE_DOWN is left only for PROBE_CRUISE or PROBE_REFILL, with the filter advanced exactly once. */
    method UpdateProbeDown(ev: Event)
      requires LoopInv(State()) && Timely(State(), ev) && mode == PROBE_BW && cycle.phase == DOWN
      requires FirstRoundOver(State(), ev) ==> !cycle.hasAdvancedMaxBw
      modifies this`model, this`cycle, this`history, this`lastCycleStoppedRiskyProbe
      ensures State() == UpdateDown(old(State()), ev) && LoopInv(State())
      ensures cycle.phase == DOWN || cycle.phase == CRUISE || cycle.phase == REFILL
      ensures cycle.phase != DOWN ==> history.advances == history.downs
    {
      hide FirstRound; hide EnterRefill; hide DrainDown; hide LoopInv; hide AdvancedOnce;
      UpdateDownKeeps(State(), ev);
      AdvancesEven(UpdateDown(State(), ev));
      if cycle.roundsInPhase == 1 && ev.endOfRound {
        FirstRoundKeeps(State(), ev);
        EndFirstDownRound(ev);
        if lastCycleStoppedRiskyProbe && !lastCycleProbedTooHigh {
          EnterProbeRefill(0, ev.time);
          return;
        }
      }
      DrainProbeDown(ev);
    }

    method UpdateProbeCruise(ev: Event)
      requires LoopInv(State()) && Timely(State(), ev) && mode == PROBE_BW && cycle.phase == CRUISE
      modifies this`model, this`cycle, this`history, this`lastCycleStoppedRiskyProbe
      ensures State() == UpdateCruise(old(State()), ev) && LoopInv(State())
    {
      hide AdaptUpperBounds; hide EnterRefill; hide IsTimeToProbe; hide LoopInv; hide AdvancedOnce;
      UpdateCruiseKeeps(State(), ev);
      var adapted := MaybeAdaptUpperBounds(ev);
      if IsTimeToProbe(model, cycle, cwnd, ev) {
        EnterProbeRefill(0, ev.time);
      }
    }

    method UpdateProbeRefill(ev: Event)
      requires LoopInv(State()) && Timely(State(), ev) && mode == PROBE_BW && cycle.phase == REFILL
      modifies this`model, this`cycle
      ensures State() == UpdateRefill(old(State()), ev) && LoopInv(State())
    {
      hide AdaptUpperBounds; hide EnterUp; hide LoopInv;
      UpdateRefillKeeps(State(), ev);
      var adapted := MaybeAdaptUpperBounds(ev);
      if cycle.roundsInPhase > 0 && ev.endOfRound {
        EnterProbeUp(ev.time);
      }
    }

    method UpdateProbeUp(priorInFlight: nat, ev: Event)
      requires LoopInv(State()) && Timely(State(), ev) && mode == PROBE_BW && cycle.phase == UP
               && CreditPending(State(), ev)
      modifies this`model, this`cycle, this`history, this`lastCycleProbedTooHigh, this`lastCycleStoppedRiskyProbe
      ensures State() == UpdateUp(old(State()), ev, priorInFlight) && LoopInv(State())
    {
      hide AdaptUpperBounds; hide ProbeUpward; hide EnterDown; hide ProbedTooHigh; hide LoopInv;
      LoopInvFacts(State());
      UpdateUpKeeps(State(), ev, priorInFlight);
      AdaptUpperBoundsKeeps(State(), ev);
      var adapted := MaybeAdaptUpperBounds(ev);
      if adapted == ADAPTED_PROBED_TOO_HIGH {
        EnterProbeDown(true, false, ev.time, ev.randomRounds, ev.randomWait);
        return;
      }
      ProbeInflightHighUpward(ev);
      var isRisky, isQueuing := false, false;
      if lastCycleProbedTooHigh && priorInFlight >= model.inflightHi {
        isRisky := true;
      } else if cycle.roundsInPhase > 0 {
        var queuingThreshold := (2 * MSS + ev.ackHeight) % (UINT64_MAX + 1);
        isQueuing := ev.inFlight >= queuingThreshold;
      }
      if isRisky || isQueuing {
        EnterProbeDown(false, isRisky, ev.time, ev.randomRounds, ev.randomWait);
      }
    }

    method CountRounds(ev: Event)
      modifies this`cycle
      ensures State() == CountedRounds(old(State()), ev)
    {
      if ev.endOfRound {
        if cycle.startTime != ev.time {
          cycle := cycle.(roundsSinceProbe := cycle.roundsSinceProbe + 1);
        }
        if cycle.phaseStartTime != ev.time {
          cycle := cycle.(roundsInPhase := cycle.roundsInPhase + 1);
        }
      }
    }

    /** The update of the current phase. */
    method UpdatePhase(priorInFlight: nat, ev: Event)
      requires LoopInv(State()) && Timely(State(), ev) && mode == PROBE_BW && CreditPending(State(), ev)
      requires FirstRoundOver(State(), ev) && cycle.phase == DOWN ==> !cycle.hasAdvancedMaxBw
      modifies this`model, this`cycle, this`history, this`lastCycleProbedTooHigh, this`lastCycleStoppedRiskyProbe
      ensures State() == PhaseStep(old(State()), ev, priorInFlight) && LoopInv(State())
      ensures old(cycle.phase) == DOWN ==> cycle.phase == DOWN || cycle.phase == CRUISE || cycle.phase == REFILL
    {
      hide UpdateUp; hide UpdateDown; hide UpdateCruise; hide UpdateRefill; hide LoopInv; hide FirstRoundOver;
      LoopInvFacts(State());
      if cycle.phase == UP {
        UpdateProbeUp(priorInFlight, ev);
      } else if cycle.phase == DOWN {
        UpdateProbeDown(ev);
      } else if cycle.phase == CRUISE {
        UpdateProbeCruise(ev);
      } else if cycle.phase == REFILL {
        UpdateProbeRefill(ev);
      }
    }

    /** PROBE_BW stays, pacing a quarter above the estimate to probe and a quarter below it to drain, or gives way to
        PROBE_RTT at the moment PROBE_DOWN ends. */
    method ProbeBwOnCongestionEvent(priorInFlight: nat, ev: Event) returns (next: Mode)
      requires LoopInv(State()) && Timely(State(), ev) && mode == PROBE_BW && CreditPending(State(), ev)
      modifies this`model, this`cycle, this`history, this`lastCycleProbedTooHigh, this`lastCycleStoppedRiskyProbe
      ensures Slopes(old(State())) && (State(), next) == ProbeBwEvent(old(State()), ev, priorInFlight)
      ensures LoopInv(State()) && (next == PROBE_BW || next == PROBE_RTT)
      ensures next == PROBE_RTT ==> old(cycle.phase) == DOWN && (cycle.phase == CRUISE || cycle.phase == REFILL)
      ensures next == PROBE_BW ==>
              && model.cwndGain == Ratio(2, 1)
              && (cycle.phase == UP ==> model.pacingGain == Ratio(5, 4))
              && (cycle.phase == DOWN ==> model.pacingGain == Ratio(3, 4))
              && (cycle.phase == CRUISE || cycle.phase == REFILL ==> model.pacingGain == Ratio(1, 1))
      ensures ProbeBwTurn(old(State()), ev, SentInFlight(ev.last), priorInFlight, State(), next)
    {
      hide PhaseStep; hide MinRttExpires; hide LoopInv; hide CountedRounds; hide FirstRoundOver; hide ProbeBwTurn;
      hide SentInFlight;
      LoopInvFacts(State());
      CountedRoundsKeeps(State(), ev);
      ProbeBwKeeps(State(), ev, priorInFlight);
      ProbeBwObeys(State(), ev, priorInFlight);
      CountRounds(ev);
      var switchToProbeRtt := false;
      var wasDown := cycle.phase == DOWN;
      UpdatePhase(priorInFlight, ev);
      if wasDown && cycle.phase != DOWN {
        switchToProbeRtt := MaybeExpireMinRtt(ev);
      }
      if switchToProbeRtt {
        return PROBE_RTT;
      }
      model := model.(pacingGain := PhaseGain(cycle.phase), cwndGain := PROBE_BW_CWND_GAIN);
      next := PROBE_BW;
    }

    method MaybeExpireMinRtt(ev: Event) returns (expired: bool)
      modifies this`model
      ensures expired == MinRttExpires(old(model), ev) && model == ExpireMinRtt(old(model), ev)
    {
      if ev.time < model.minRttTime + PROBE_RTT_PERIOD {
        return false;
      }
      if ev.rtt == INT64_MAX {
        return false;
      }
      model := model.(minRtt := ev.rtt, minRttTime := ev.time);
      expired := true;
    }

    // -------------------------------------------------------------- the other modes

    /** The baseline never falls and never exceeds the largest bandwidth. */
    method CheckBandwidthGrowth(ev: Event) returns (growth: Growth)
      requires model.roundsWithoutGrowth < STARTUP_FULL_BW_ROUNDS && !model.fullBandwidthReached
      requires model.baseline <= MaxBandwidth(model)
      modifies this`model
      ensures growth == GrowthOf(old(model), ev) && model == CheckGrowth(old(model), ev)
      ensures old(model.baseline) <= model.baseline <= MaxBandwidth(old(model))
      ensures model.fullBandwidthReached <==> growth == Exit
    {
      GrowthFacts(model, ev);
      if ev.appLimited {
        return AppLimited;
      }
      var threshold := GrowthTarget(model.baseline);
      if MaxBandwidth(model) >= threshold {
        model := model.(baseline := MaxBandwidth(model), roundsWithoutGrowth := 0);
        return Growing;
      }
      model := model.(roundsWithoutGrowth := model.roundsWithoutGrowth + 1);
      growth := NoGrowth;
      if model.roundsWithoutGrowth >= STARTUP_FULL_BW_ROUNDS {
        model := model.(fullBandwidthReached := true);
        growth := Exit;
      }
    }

    /** Leaving STARTUP because of losses bounds inflight by no less than was delivered in the round. */
    method CheckExcessiveLosses(ev: Event)
      modifies this`model
      ensures State() == CheckLosses(old(State()), ev)
      ensures model.fullBandwidthReached && !old(model.fullBandwidthReached) ==> model.inflightHi >= model.maxDelivered
    {
      hide IsInflightTooHigh; hide Bdp;
      if model.fullBandwidthReached {
        return;
      }
      if IsInflightTooHigh(model, ev, STARTUP_FULL_LOSS_COUNT, params.lossThreshold) {
        var newInflightHi := Bdp(model, MaxBandwidth(model));
        if newInflightHi < model.maxDelivered {
          newInflightHi := model.maxDelivered;
        }
        model := model.(inflightHi := newInflightHi);
        model := model.(fullBandwidthReached := true);
      }
    }

    /** DRAIN is proposed exactly when full bandwidth is reached; the lower bounds are left alone. */
    method StartupOnCongestionEvent(ev: Event) returns (next: Mode)
      requires LoopInv(State()) && Timely(State(), ev) && mode == STARTUP
      modifies this`model
      ensures (State(), next) == StartupEvent(old(State()), ev)
      ensures next == DRAIN <==> model.fullBandwidthReached
      ensures next == STARTUP ==> LoopInv(State())
      ensures model.bandwidthLo == old(model.bandwidthLo) && model.inflightLo == old(model.inflightLo)
    {
      hide CheckLosses; hide CheckGrowth; hide GrowthOf; hide LoopInv;
      StartupKeeps(State(), ev);
      StartupFacts(State());
      if !model.fullBandwidthReached && ev.endOfRound {
        var growth := CheckBandwidthGrowth(ev);
        if growth == NoGrowth || growth == Exit {
          CheckExcessiveLosses(ev);
        }
      }
      next := if model.fullBandwidthReached then DRAIN else STARTUP;
    }

    method DrainOnCongestionEvent(ev: Event) returns (next: Mode)
      requires LoopInv(State()) && mode == DRAIN
      modifies this`model
      ensures (State(), next) == DrainEvent(old(State()), ev) && LoopInv(State())
      ensures next == PROBE_BW <==> ev.inFlight <= DrainTarget(model, params.minCwnd)
    {
      hide Bdp; hide LoopInv;
      DrainKeeps(State(), ev);
      model := model.(pacingGain := DRAIN_PACING_GAIN);
      model := model.(cwndGain := DRAIN_CWND_GAIN);
      next := if ev.inFlight <= DrainTarget(model, params.minCwnd) then PROBE_BW else DRAIN;
    }

    /** PROBE_RTT stays put right after it is entered, and until its exit time is past. */
    method ProbeRttOnCongestionEvent(ev: Event) returns (next: Mode)
      requires LoopInv(State()) && mode == PROBE_RTT
      modifies this`exitTime
      ensures (State(), next) == ProbeRttEvent(old(State()), ev) && LoopInv(State())
      ensures next == PROBE_BW <==> old(exitTime) != 0 && ev.time > old(exitTime)
    {
      hide InflightTarget; hide LoopInv;
      ProbeRttKeeps(State(), ev);
      if exitTime == 0 {
        if ev.inFlight <= InflightTarget(model) || ev.inFlight <= params.minCwnd {
          exitTime := ev.time + PROBE_RTT_DURATION;
        }
        return PROBE_RTT;
      }
      next := if ev.time > exitTime then PROBE_BW else PROBE_RTT;
    }

    method EnterProbeBwMode(now: int, randomRounds: nat, randomWait: nat)
      modifies this`model, this`cycle, this`history, this`lastCycleProbedTooHigh, this`lastCycleStoppedRiskyProbe
      ensures State() == EnterProbeBw(old(State()), now, randomRounds, randomWait)
    {
      hide EnterDown; hide EnterCruise; hide EnterRefill;
      if cycle.phase == NOT_STARTED {
        EnterProbeDown(false, false, now, randomRounds, randomWait);
      } else {
        cycle := cycle.(startTime := now);
        if cycle.phase == CRUISE {
          EnterProbeCruise(now);
        } else if cycle.phase == REFILL {
          EnterProbeRefill(cycle.probeUpRounds, now);
        }
      }
    }

    /** `Leave` of the current mode, the assignment of the next, `Enter` of that. */
    method SwitchMode(next: Mode, now: int, randomRounds: nat, randomWait: nat)
      modifies this
      ensures State() == Switch(old(State()), next, now, randomRounds, randomWait)
    {
      hide EnterProbeBw;
      if mode == STARTUP {
        model := model.(bandwidthLo := INFINITE_BANDWIDTH);
      }
      mode := next;
      if mode == PROBE_BW {
        EnterProbeBwMode(now, randomRounds, randomWait);
      } else if mode == PROBE_RTT {
        model := model.(pacingGain := UNIT_GAIN, cwndGain := UNIT_GAIN);
        exitTime := 0;
      }
    }

    // -------------------------------------------------------------- the sender

    method DispatchEvent(priorInFlight: nat, ev: Event) returns (next: Mode)
      requires LoopInv(State()) && Timely(State(), ev) && CreditPending(State(), ev)
      modifies this
      ensures Slopes(old(State())) && (State(), next) == Dispatch(old(State()), ev, priorInFlight)
    {
      hide StartupEvent; hide DrainEvent; hide ProbeBwEvent; hide ProbeRttEvent; hide LoopInv;
      LoopInvFacts(State());
      match mode
      case STARTUP => next := StartupOnCongestionEvent(ev);
      case DRAIN => next := DrainOnCongestionEvent(ev);
      case PROBE_BW => next := ProbeBwOnCongestionEvent(priorInFlight, ev);
      case PROBE_RTT => next := ProbeRttOnCongestionEvent(ev);
    }

    /** The mode loop: the limit on mode changes is kept, and never cuts the loop off. */
    method SettleMode(priorInFlight: nat, ev: Event) returns (changes: nat)
      requires LoopInv(State()) && Timely(State(), ev) && CreditPending(State(), ev)
      modifies this
      ensures State() == Settle(old(State()), ev, priorInFlight, MAX_MODE_CHANGES).sender
      ensures changes == Settle(old(State()), ev, priorInFlight, MAX_MODE_CHANGES).changes <= 3
    {
      hide LoopInv; hide Dispatch; hide Switch; hide Timely; hide CreditPending; hide ChangesLeft;
      ghost var start := Settle(State(), ev, priorInFlight, MAX_MODE_CHANGES);
      AtMostThreeAllowed(State());
      ModeLoopSettles(State(), ev, priorInFlight, MAX_MODE_CHANGES);
      var modeChangesAllowed := MAX_MODE_CHANGES as int;
      changes := 0;
      while true
        invariant LoopInv(State()) && Timely(State(), ev) && CreditPending(State(), ev)
        invariant 0 <= ChangesLeft(State()) <= modeChangesAllowed
        invariant start == Settle(State(), ev, priorInFlight, modeChangesAllowed).(
                             changes := changes + Settle(State(), ev, priorInFlight, modeChangesAllowed).changes)
        decreases modeChangesAllowed
      {
        TurnKeeps(State(), ev, priorInFlight);
        TimelyAfter(State(), ev, priorInFlight);
        var next := DispatchEvent(priorInFlight, ev);
        if next == mode {
          break;
        }
        SwitchMode(next, ev.time, ev.randomRounds, ev.randomWait);
        modeChangesAllowed := modeChangesAllowed - 1;
        changes := changes + 1;
        if modeChangesAllowed < 0 {
          break;
        }
      }
    }

    method UpdatePacingRate(bytesAcked: nat)
      requires model.minRtt > 0
      modifies this`pacingRate
      ensures pacingRate == NewPacingRate(old(State()), bytesAcked)
      ensures !model.fullBandwidthReached && model.totalAcked != bytesAcked ==> pacingRate >= old(pacingRate)
    {
      hide ScaleRate; hide Rate;
      if BandwidthEstimate(model) == 0 {
        return;
      }
      if model.totalAcked == bytesAcked {
        pacingRate := Rate(cwnd, model.minRtt);
        return;
      }
      var targetRate := ScaleRate(BandwidthEstimate(model), model.pacingGain);
      if model.fullBandwidthReached {
        pacingRate := targetRate;
        return;
      }
      if targetRate > pacingRate {
        pacingRate := targetRate;
      }
    }

    /** The window is paid for by acks and kept within the limit of the mode, the smallest window apart. */
    method UpdateCongestionWindow(bytesAcked: nat, ackHeight: nat)
      modifies this`cwnd
      ensures cwnd == NewCwnd(old(State()), bytesAcked, ackHeight)
      ensures cwnd <= Max(old(cwnd) + bytesAcked, params.minCwnd)
      ensures cwnd <= Max(ModeLimit(mode, cycle.phase, model), params.minCwnd)
      ensures params.minCwnd <= params.maxCwnd ==> params.minCwnd <= cwnd <= params.maxCwnd
    {
      hide TargetCwnd; hide ModeLimit;
      NewCwndWithin(State(), bytesAcked, ackHeight);
      var targetCwnd := TargetCwnd(model, params.minCwnd);
      var priorCwnd := cwnd;
      if model.fullBandwidthReached {
        targetCwnd := (targetCwnd + ackHeight) % (UINT64_MAX + 1);
        cwnd := Min(priorCwnd + bytesAcked, targetCwnd);
      } else if priorCwnd < targetCwnd || priorCwnd < 2 * params.initialCwnd {
        cwnd := priorCwnd + bytesAcked;
      }
      cwnd := ApplyLimits(cwnd, 0, ModeLimit(mode, cycle.phase, model));
      cwnd := ApplyLimits(cwnd, params.minCwnd, params.maxCwnd);
    }

    method FinishEvent(ev: Event)
      requires LoopInv(State()) && 0 < params.minCwnd <= params.maxCwnd <= UNSET
      modifies this
      ensures old(State()).model.minRtt > 0 && State() == Finished(old(State()), ev) && Inv(State())
    {
      hide NewPacingRate; hide NewCwnd; hide LoopInv; hide ModeLimit;
      FinishedKeeps(State(), ev);
      MinRttPositive(State());
      UpdatePacingRate(ev.acked);
      UpdateCongestionWindow(ev.acked, ev.ackHeight);
      if ev.endOfRound {
        model := NewRound(model);
      }
      if ev.inFlight == 0 {
        lastQuiescenceStart := ev.time;
      }
    }

    /** The model's part of the event, before any mode sees it. */
    method StartEvent(x: Input) returns (ev: Event)
      requires LoopInv(State()) && Enabled(State(), Congestion(x))
      modifies this`model, this`history
      ensures State() == Started(old(State()), x) && ev == EventFor(old(State()), x)
      ensures LoopInv(State()) && Timely(State(), ev) && CreditPending(State(), ev)
    {
      hide AdaptLowerBounds; hide TakeSample; hide EndLatest; hide CountRound; hide LoopInv; hide Timely;
      hide CreditPending;
      StartKeeps(State(), x);
      var isProbing := mode == STARTUP || (mode == PROBE_BW && (cycle.phase == REFILL || cycle.phase == UP));
      ev := MakeEvent(model, x, cwnd, isProbing);
      model := CountRound(model, x.lastAcked);
      model := TakeSample(model, x);
      model := AdaptLowerBounds(model, ev);
      model := EndLatest(model, x, ev.endOfRound);
      history := history.(now := x.time, credit := history.credit + x.acked,
                          trips := Recorded(history.trips, x.sample.rtt));
    }

    method OnCongestionEvent(x: Input) returns (changes: nat)
      requires Inv(State()) && Enabled(State(), Congestion(x)) && StateLaws(State())
      modifies this
      ensures Inv(State()) && StateLaws(State()) && State() == OnEvent(old(State()), x)
      ensures changes <= 3
      ensures Obeys(old(State()), x, State()) && Summed(old(State()), x, State())
    {
      hide LoopInv; hide Started; hide EventFor; hide Settle; hide Finished; hide Timely; hide CreditPending;
      hide StateLaws; hide Obeys; hide Summed;
      StartKeeps(State(), x);
      EventSums(State(), x);
      EventKeepsInv(State(), x);
      var ev := StartEvent(x);
      ghost var start := State();
      AtMostThreeAllowed(start);
      ModeLoopSettles(start, ev, x.priorInFlight, MAX_MODE_CHANGES);
      changes := SettleMode(x.priorInFlight, ev);
      MinRttPositive(State());
      FinishEvent(ev);
    }

    method OnExitQuiescence(now: int)
      requires LoopInv(State()) && now == history.now
      modifies this
      ensures State() == ExitQuiescence(old(State()), now) && LoopInv(State())
    {
      hide Switch; hide LoopInv;
      QuiescenceKeeps(State(), now);
      if lastQuiescenceStart != 0 {
        if mode == PROBE_BW {
          model := model.(minRttTime := model.minRttTime + now - Min(now, lastQuiescenceStart));
        } else if mode == PROBE_RTT {
          if now > exitTime {
            SwitchMode(PROBE_BW, now, 0, 0);
          }
        }
        lastQuiescenceStart := 0;
      }
    }

    method OnPacketSent(sentTime: int, bytesInFlight: nat, packetNumber: nat)
      requires Inv(State()) && Enabled(State(), SentPacket(sentTime, packetNumber, bytesInFlight))
      requires StateLaws(State())
      modifies this
      ensures SentLaw(old(State()), sentTime, packetNumber, bytesInFlight, State()) && StateLaws(State())
      ensures Inv(State()) && State() == OnSent(old(State()), sentTime, packetNumber, bytesInFlight)
    {
      hide LoopInv; hide ExitQuiescence; hide StateLaws; hide SentLaw;
      SendObeys(State(), sentTime, packetNumber, bytesInFlight);
      SendKeepsLaws(State(), sentTime, packetNumber, bytesInFlight);
      SentKeepsInv(State(), sentTime, packetNumber, bytesInFlight);
      LaterKeeps(State(), sentTime);
      history := history.(now := sentTime);
      if bytesInFlight == 0 {
        OnExitQuiescence(sentTime);
      }
      model := model.(lastSent := Some(packetNumber));
    }
  }

  lemma LoopInvFacts(s: Sender)
    requires LoopInv(s)
    ensures Slopes(s) && (s.mode == PROBE_BW ==> s.cycle.phase != NOT_STARTED)
    ensures s.history.raised + s.cycle.probeUpAcked <= s.history.credit
  {}

  /** Outside PROBE_DOWN visits and advances of the filter are even. */
  lemma AdvancesEven(s: Sender)
    requires LoopInv(s)
    ensures s.cycle.phase != DOWN ==> s.history.advances == s.history.downs
  {}

  lemma DivModOf(a: nat, b: nat)
    requires b > 0
    ensures a < b ==> a / b == 0 && a % b == a
    ensures a - a / b * b == a % b
    ensures a >= b ==> a / b * MSS > 0
  {}

  lemma TimelyAfter(s: Sender, ev: Event, priorInFlight: nat)
    requires LoopInv(s) && Timely(s, ev) && CreditPending(s, ev)
    ensures Slopes(s)
    ensures forall t: Sender :: Frame(s, t) ==> Timely(t, ev)
  {}
}
