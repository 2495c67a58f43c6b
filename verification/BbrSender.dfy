/** `BbrSender` as an object: every method does the step that the state machine of `Bbr1` prescribes. */
module BbrSenderObject {
  import opened Base
  import opened Gains
  import opened Samples
  import opened WindowedFilter
  import opened Bbr1
  import opened Bbr1Runs
  import opened Bbr1Laws

  class BbrSender {
    const params: Params
    var mode: Mode
    var path: Path
    var cycle: Cycle
    var probeRtt: ProbeRtt
    var recovery: Recovery
    var congestionWindow: nat
    var pacingRate: nat
    ghost var history: History

    ghost function State(): Sender
      reads this
    {
      Sender(params, mode, path, cycle, probeRtt, recovery, congestionWindow, pacingRate, history)
    }

    constructor (p: Params, now: int)
      requires now > 0 && MIN_CWND <= p.maxCwnd
      ensures State() == NewSender(p, now) && Bbr1Runs.Inv(State()) && Geared(State())
    {
      params := p;
      mode := STARTUP;
      path := Path(None, None, 0, 0, 0, 0, NewFilter(BANDWIDTH_WINDOW, 0, 0), 0, 0, false, false, 0, 0);
      cycle := Cycle(HIGH_GAIN, HIGH_CWND_GAIN, 0, 0);
      probeRtt := ProbeRtt(0, false, false);
      recovery := Recovery(NOT_IN_RECOVERY, None, p.maxCwnd);
      congestionWindow := p.initialCwnd;
      pacingRate := 0;
      history := History(now, 0, [], [], 0);
      new;
      NewSenderInv(p, now);
    }

    /** The window is never visible below four segments or above the maximum once an event has been handled. */
    function GetCongestionWindow(): (window: nat)
      reads this
      requires Bbr1Runs.Inv(State())
      ensures window == UsableWindow(State())
      ensures history.events > 0 ==> MIN_CWND <= window <= params.maxCwnd
    {
      if mode == PROBE_RTT then MIN_CWND
      else if recovery.state != NOT_IN_RECOVERY then Min(congestionWindow, recovery.window)
      else congestionWindow
    }

    function GetTargetCongestionWindow(gain: Gain, fallbackRtt: int): (window: nat)
      reads this
      ensures window == Target(State(), gain, fallbackRtt) >= MIN_CWND
    {
      var minRtt := if path.minRtt != 0 then path.minRtt else fallbackRtt;
      var bdp := Estimate(path) * Max(0, minRtt) / 8 / 1_000_000;
      var window := Scale(bdp, gain);
      Max(if window == 0 then Scale(params.initialCwnd, gain) else window, MIN_CWND)
    }

    method OnPacketSent(packetNumber: nat, bytesInFlight: nat, samplerAppLimited: bool)
      requires Bbr1Runs.Inv(State()) && Geared(State())
      modifies this`path, this`probeRtt
      ensures SentLaw(old(State()), packetNumber, bytesInFlight, samplerAppLimited, State()) && Geared(State())
      ensures Bbr1Runs.Inv(State()) && State() == OnSent(old(State()), packetNumber, bytesInFlight, samplerAppLimited)
    {
      hide Bbr1Runs.Inv;
      SentKeepsInv(State(), packetNumber, bytesInFlight, samplerAppLimited);
      path := path.(lastSent := Some(packetNumber));
      if bytesInFlight == 0 && samplerAppLimited {
        probeRtt := probeRtt.(exitingQuiescence := true);
      }
    }

    method UpdateRoundTripCounter(lastAcked: nat) returns (roundStart: bool)
      modifies this`path
      ensures path == CountRound(old(path), Some(lastAcked)) && roundStart == StartsRound(old(path), Some(lastAcked))
    {
      if path.roundEnd.None? || lastAcked > path.roundEnd.value {
        path := path.(roundCount := path.roundCount + 1, roundEnd := path.lastSent);
        return true;
      }
      roundStart := false;
    }

    /** Recovery begins only after full bandwidth, in CONSERVATION and with a window still to be set; it goes on with
        the window it has, and ends only without losses. */
    method UpdateRecoveryState(lastAcked: nat, hasLosses: bool, roundStart: bool)
      modifies this`recovery, this`path
      ensures State() == UpdateRecovery(old(State()), lastAcked, hasLosses, roundStart)
      ensures old(recovery.state) == NOT_IN_RECOVERY && recovery.state != NOT_IN_RECOVERY ==>
                path.full && hasLosses && recovery.state == CONSERVATION && recovery.window == 0
      ensures old(recovery.state) != NOT_IN_RECOVERY ==>
                recovery.window == old(recovery.window) && (hasLosses ==> recovery.state != NOT_IN_RECOVERY)
    {
      if !path.full {
        return;
      }
      if hasLosses {
        recovery := recovery.(endAt := path.lastSent);
      }
      if recovery.state == NOT_IN_RECOVERY {
        if hasLosses {
          recovery := recovery.(state := CONSERVATION, window := 0);
          path := path.(roundEnd := path.lastSent);
        }
      } else {
        if recovery.state == CONSERVATION && roundStart {
          recovery := recovery.(state := GROWTH);
        }
        if !hasLosses && Exceeds(lastAcked, recovery.endAt) {
          recovery := recovery.(state := NOT_IN_RECOVERY);
        }
      }
    }

    /** Takes the sampler's sample into the bandwidth filter. */
    method TakeBandwidthSample(x: Input)
      modifies this`path, this`history
      ensures State() == FeedFilter(old(State()), x)
      ensures old(FilterInv(State())) ==> FilterInv(State())
    {
      hide Update; hide Fed;
      if FilterInv(State()) {
        FeedFilterKeeps(State(), x);
      }
      var best := Estimate(path);
      if x.sample.last.isValid {
        path := path.(appLimited := x.sample.last.appLimited);
      }
      path := path.(totalAcked := path.totalAcked + x.acked);
      if x.acked != 0 && (!x.sample.appLimited || x.sample.maxBandwidth > best) {
        var sample := Sample(x.sample.maxBandwidth, path.roundCount);
        path := path.(bandwidth := Update(path.bandwidth, sample));
        history := history.(samples := history.samples + [sample]);
      }
    }

    method MaybeUpdateMinRtt(x: Input) returns (expired: bool)
      requires HasRtt(x)
      modifies this`path
      ensures path == UpdateMinRtt(old(path), x) && expired == MinRttExpires(old(path), x)
    {
      expired := path.minRtt != 0 && x.time > path.minRttTime + MIN_RTT_EXPIRY;
      if expired || x.sample.rtt < path.minRtt || path.minRtt == 0 {
        path := path.(minRtt := x.sample.rtt, minRttTime := x.time);
      }
    }

    method TakeSample(x: Input) returns (expired: bool)
      modifies this`path, this`history
      ensures State() == Sampled(old(State()), x) && expired == MinRttExpires(old(path), x)
    {
      hide Update;
      TakeBandwidthSample(x);
      expired := false;
      if x.sample.rtt != INT64_MAX {
        expired := MaybeUpdateMinRtt(x);
        history := history.(trips := history.trips + [x.sample.rtt]);
      }
      if x.hasLosses {
        path := path.(lossEvents := path.lossEvents + 1, lostInRound := path.lostInRound + x.lost);
      }
    }

    /** Gain and offset stay matched, and the draining gain is entered only from the probing one. */
    method UpdateGainCyclePhase(x: Input)
      requires CycleInv(State()) && mode == PROBE_BW
      modifies this`cycle
      ensures State() == UpdateGainCycle(old(State()), x)
      ensures CycleInv(State()) && DrainsAfterProbing(old(cycle), cycle)
    {
      hide Target; hide CycleInv; hide DrainsAfterProbing;
      GainCycleKeeps(State(), x);
      var minRtt := if path.minRtt != 0 then path.minRtt else x.fallbackRtt;
      var gain := cycle.pacingGain;
      var shouldAdvance := x.time - cycle.start > minRtt;
      if gain.num > gain.den && !x.hasLosses && x.priorInFlight < GetTargetCongestionWindow(gain, x.fallbackRtt) {
        shouldAdvance := false;
      }
      if gain.num < gain.den && x.inFlight <= GetTargetCongestionWindow(UNIT, x.fallbackRtt) {
        shouldAdvance := true;
      }
      TargetFrame(State());
      if shouldAdvance {
        cycle := cycle.(offset := (cycle.offset + 1) % GAIN_CYCLE_LENGTH, start := x.time);
        if params.drainToTarget && gain.num < gain.den && CycleGain(cycle.offset) == UNIT
           && x.inFlight > GetTargetCongestionWindow(UNIT, x.fallbackRtt) {
          return;
        }
        cycle := cycle.(pacingGain := CycleGain(cycle.offset));
      }
    }

    method CheckIfFullBandwidthReached(last: SendState)
      requires !path.full
      modifies this`path
      ensures path == CheckFullBandwidth(old(path), last)
      ensures path.full ==> !path.appLimited && path.roundsWithoutGain == old(path.roundsWithoutGain) + 1
    {
      hide ScaleRate; hide Estimate;
      if path.appLimited {
        return;
      }
      var target := ScaleRate(path.baseline, PROBE_UP);
      EstimateFrame(path);
      if Estimate(path) >= target {
        path := path.(baseline := Estimate(path), roundsWithoutGain := 0);
        return;
      }
      path := path.(roundsWithoutGain := path.roundsWithoutGain + 1);
      if path.roundsWithoutGain >= STARTUP_ROUNDS || LossEndsStartup(path, last) {
        path := path.(full := true);
      }
    }

    method EnterStartupMode()
      modifies this`mode, this`cycle
      ensures State() == EnterStartup(old(State()))
    {
      mode := STARTUP;
      cycle := cycle.(pacingGain := HIGH_GAIN, cwndGain := HIGH_CWND_GAIN);
    }

    method EnterProbeBandwidthMode(now: int, random: nat)
      modifies this`mode, this`cycle
      ensures State() == EnterProbeBw(old(State()), now, random)
      ensures CycleInv(State()) && cycle.pacingGain != PROBE_DOWN
    {
      EnterProbeBwKeeps(State(), now, random);
      mode := PROBE_BW;
      cycle := cycle.(cwndGain := CWND_GAIN);
      var offset := random % (GAIN_CYCLE_LENGTH - 1);
      if offset >= 1 {
        offset := offset + 1;
      }
      cycle := cycle.(offset := offset, start := now, pacingGain := CycleGain(offset));
    }

    /** STARTUP is left as soon as full bandwidth is reached, and nothing is left before. */
    method MaybeExitStartupOrDrain(x: Input)
      requires ModeInv(State()) && CycleInv(State())
      modifies this`mode, this`cycle
      ensures State() == ExitStartupOrDrain(old(State()), x)
      ensures ModeInv(State()) && CycleInv(State())
      ensures (mode == STARTUP ==> !path.full) && (!path.full ==> mode == old(mode))
      ensures mode == PROBE_RTT ==> old(mode) == PROBE_RTT
    {
      hide Target; hide EnterProbeBw; hide ModeInv; hide CycleInv;
      ExitStartupOrDrainKeeps(State(), x);
      if mode == STARTUP && path.full {
        mode := DRAIN;
        cycle := cycle.(pacingGain := DRAIN_GAIN);
        cycle := cycle.(cwndGain := HIGH_CWND_GAIN);
      }
      if mode == DRAIN && x.inFlight <= GetTargetCongestionWindow(UNIT, x.fallbackRtt) {
        EnterProbeBandwidthMode(x.time, x.random);
      }
    }

    /** One event spent in PROBE_RTT. */
    method StayOrExitProbeRtt(x: Input, roundStart: bool)
      modifies this`mode, this`cycle, this`path, this`probeRtt
      ensures State() == StayInProbeRtt(old(State()), x, roundStart)
    {
      hide EnterProbeBw;
      if probeRtt.exitAt == 0 {
        if x.inFlight < MIN_CWND + MAX_OUTGOING_PACKET_SIZE {
          probeRtt := probeRtt.(exitAt := x.time + PROBE_RTT_TIME, roundPassed := false);
        }
      } else {
        if roundStart {
          probeRtt := probeRtt.(roundPassed := true);
        }
        if x.time >= probeRtt.exitAt && probeRtt.roundPassed {
          path := path.(minRttTime := x.time);
          if !path.full {
            EnterStartupMode();
          } else {
            EnterProbeBandwidthMode(x.time, x.random);
          }
        }
      }
    }

    /** PROBE_RTT is entered only when the minimum round trip has expired, and left 200 ms later or more. */
    method MaybeEnterOrExitProbeRtt(x: Input, roundStart: bool, expired: bool)
      requires ModeInv(State()) && CycleInv(State()) && ProbeRttInv(State()) && (mode == STARTUP ==> !path.full)
      requires history.probeRttSince <= x.time && x.time > 0
      modifies this`mode, this`cycle, this`path, this`probeRtt, this`history
      ensures State() == EnterOrExitProbeRtt(old(State()), x, roundStart, expired)
      ensures ModeInv(State()) && CycleInv(State()) && ProbeRttInv(State())
      ensures old(mode) != PROBE_RTT && mode == PROBE_RTT ==> expired
      ensures old(mode) == PROBE_RTT && mode != PROBE_RTT ==> x.time - old(history.probeRttSince) >= PROBE_RTT_TIME
    {
      hide StayInProbeRtt; hide ModeInv; hide CycleInv; hide ProbeRttInv;
      ProbeRttKeeps(State(), x, roundStart, expired);
      if expired && !probeRtt.exitingQuiescence && mode != PROBE_RTT {
        mode := PROBE_RTT;
        cycle := cycle.(pacingGain := UNIT);
        probeRtt := probeRtt.(exitAt := 0);
        history := history.(probeRttSince := x.time);
      }
      if mode == PROBE_RTT {
        StayOrExitProbeRtt(x, roundStart);
      }
      probeRtt := probeRtt.(exitingQuiescence := false);
    }

    /** The mode changes of one event. */
    method UpdateMode(x: Input, roundStart: bool, expired: bool)
      requires ModeInv(State()) && CycleInv(State()) && ProbeRttInv(State())
      requires history.probeRttSince <= x.time && x.time > 0
      modifies this`mode, this`cycle, this`path, this`probeRtt, this`history
      ensures State() == Moded(old(State()), x, roundStart, expired)
      ensures ModeInv(State()) && CycleInv(State()) && ProbeRttInv(State()) && (mode == STARTUP ==> !path.full)
      ensures ModesMove(old(State()), State(), x, expired)
    {
      hide UpdateGainCycle; hide CheckFullBandwidth; hide ExitStartupOrDrain; hide EnterOrExitProbeRtt;
      hide ModesMove; hide CycleInv; hide DrainsAfterProbing;
      ModedKeeps(State(), x, roundStart, expired);
      if mode == PROBE_BW {
        UpdateGainCyclePhase(x);
      }
      if roundStart && !path.full {
        CheckFullBandwidthKeeps(path, x.sample.last);
        CycleInvApart(State(), CheckFullBandwidth(path, x.sample.last));
        CheckIfFullBandwidthReached(x.sample.last);
      }
      MaybeExitStartupOrDrain(x);
      MaybeEnterOrExitProbeRtt(x, roundStart, expired);
    }

    method CalculatePacingRate(x: Input)
      modifies this`pacingRate
      ensures pacingRate == NewPacingRate(old(State()), x)
      ensures !path.full ==> pacingRate >= old(pacingRate)
    {
      hide ScaleRate; hide Estimate;
      if Estimate(path) == 0 {
        return;
      }
      var targetRate := ScaleRate(Estimate(path), cycle.pacingGain);
      if path.full {
        pacingRate := targetRate;
        return;
      }
      if pacingRate == 0 && x.connectionMinRtt != 0 {
        pacingRate := INITIAL_PACING_RATE;
        return;
      }
      pacingRate := Max(pacingRate, targetRate);
    }

    /** Outside PROBE_RTT the window is put in range; it grows by no more than the bytes acked, and never falls before
        full bandwidth. */
    method CalculateCongestionWindow(x: Input)
      requires MIN_CWND <= params.maxCwnd
      modifies this`congestionWindow
      ensures congestionWindow == NewCwnd(old(State()), x)
      ensures if mode == PROBE_RTT then congestionWindow == old(congestionWindow)
              else MIN_CWND <= congestionWindow <= params.maxCwnd
      ensures congestionWindow <= Max(old(congestionWindow) + x.acked, MIN_CWND)
      ensures !path.full && old(congestionWindow) <= params.maxCwnd ==> congestionWindow >= old(congestionWindow)
    {
      hide Target;
      if mode == PROBE_RTT {
        return;
      }
      var targetWindow := GetTargetCongestionWindow(cycle.cwndGain, x.fallbackRtt);
      if path.full {
        congestionWindow := Min(targetWindow, congestionWindow + x.acked);
      } else if congestionWindow < targetWindow || path.totalAcked < params.initialCwnd {
        congestionWindow := congestionWindow + x.acked;
      }
      congestionWindow := Max(congestionWindow, MIN_CWND);
      congestionWindow := Min(congestionWindow, params.maxCwnd);
    }

    /** In recovery the window is never below four segments nor below what is in flight and was just acked; beyond that
        CONSERVATION gives up what was lost and gains nothing, GROWTH gains what was acked. */
    method CalculateRecoveryWindow(x: Input)
      modifies this`recovery
      ensures recovery == old(recovery).(window := NewRecoveryWindow(old(recovery), x))
      ensures recovery.state != NOT_IN_RECOVERY ==>
              recovery.window >= MIN_CWND && recovery.window >= x.inFlight + x.acked
      ensures recovery.state == CONSERVATION ==>
                WithinBudget(recovery.window, Max(old(recovery.window) - x.lost, MSS), x)
      ensures recovery.state == GROWTH ==>
                WithinBudget(recovery.window, Max(old(recovery.window) - x.lost, MSS) + x.acked, x)
    {
      if recovery.state == NOT_IN_RECOVERY {
        return;
      }
      if recovery.window == 0 {
        recovery := recovery.(window := x.inFlight + x.acked);
        recovery := recovery.(window := Max(MIN_CWND, recovery.window));
        return;
      }
      recovery := recovery.(window := if recovery.window >= x.lost then recovery.window - x.lost else MSS);
      if recovery.state == GROWTH {
        recovery := recovery.(window := recovery.window + x.acked);
      }
      recovery := recovery.(window := Max(recovery.window, x.inFlight + x.acked));
      recovery := recovery.(window := Max(MIN_CWND, recovery.window));
    }

    /** Rate, windows and the end of the event. */
    method UpdateControls(x: Input, roundStart: bool)
      requires MIN_CWND <= params.maxCwnd && (mode == PROBE_RTT ==> CwndInRange(State()))
      modifies this
      ensures State() == Windowed(old(State()), x, roundStart)
      ensures CwndInRange(State()) && RecoveryInv(State()) && WindowAndRateGrow(old(State()), State())
    {
      hide NewPacingRate; hide NewCwnd; hide NewRecoveryWindow; hide WithinBudget;
      ghost var s := State();
      CalculatePacingRate(x);
      PacingRateApart(s, pacingRate, x);
      CalculateCongestionWindow(x);
      CalculateRecoveryWindow(x);
      if roundStart {
        path := path.(lossEvents := 0, lostInRound := 0);
      }
      history := history.(now := x.time, events := history.events + 1);
    }

    /** The acked part of the event. */
    method HandleAcked(x: Input) returns (roundStart: bool)
      modifies this`path, this`recovery
      ensures State() == Acknowledged(old(State()), x) && roundStart == StartsRound(old(path), x.lastAcked)
    {
      hide UpdateRecovery;
      roundStart := false;
      if x.lastAcked.Some? {
        roundStart := UpdateRoundTripCounter(x.lastAcked.value);
        UpdateRecoveryState(x.lastAcked.value, x.hasLosses, roundStart);
      }
    }

    method OnCongestionEvent(x: Input)
      requires Bbr1Runs.Inv(State()) && Geared(State()) && history.now <= x.time
      modifies this
      ensures Bbr1Runs.Inv(State()) && State() == OnEvent(old(State()), x)
      ensures Geared(State()) && Obeys(old(State()), x, State())
      ensures MIN_CWND <= UsableWindow(State()) <= params.maxCwnd
    {
      hide Acknowledged; hide Sampled; hide Moded; hide Windowed; hide FilterInv; hide MinRttExpires;
      hide ModesMove; hide WindowAndRateGrow;
      hide Obeys; hide Geared;
      EventKeepsInv(State(), x);
      EventObeys(State(), x);
      ReadyForModes(State(), x);
      var roundStart := HandleAcked(x);
      var expired := TakeSample(x);
      UpdateMode(x, roundStart, expired);
      UpdateControls(x, roundStart);
    }
  }

  /** The target window looks only at the parameters and the path. */
  lemma TargetFrame(s: Sender)
    ensures forall c: Cycle, gain: Gain, rtt: int :: Target(s.(cycle := c), gain, rtt) == Target(s, gain, rtt)
  {
  }

  lemma CycleInvApart(s: Sender, p: Path)
    requires CycleInv(s)
    ensures CycleInv(s.(path := p))
  {
  }

  lemma EstimateFrame(p: Path)
    ensures forall rounds: nat :: Estimate(p.(roundsWithoutGain := rounds)) == Estimate(p)
  {
  }

  /** The congestion window does not look at the pacing rate. */
  lemma PacingRateApart(s: Sender, rate: nat, x: Input)
    ensures NewCwnd(s.(pacingRate := rate), x) == NewCwnd(s, x)
  {
  }
}
