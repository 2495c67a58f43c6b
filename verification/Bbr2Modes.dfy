/** The BBRv2 sender as a state machine: four modes, the phases of PROBE_BW, and the network
    model that all of them share. */
module Bbr2Modes {
  import opened Base
  import opened Samples
  import opened Gains
  import opened Bbr2Model

  datatype Mode = STARTUP | DRAIN | PROBE_BW | PROBE_RTT

  datatype Phase = NOT_STARTED | UP | DOWN | CRUISE | REFILL

  datatype Cycle = Cycle(
    startTime: int,
    phase: Phase,
    roundsInPhase: nat,
    phaseStartTime: int,
    roundsSinceProbe: nat,
    waitTime: int,
    probeUpRounds: nat,
    probeUpBytes: nat,
    probeUpAcked: nat,
    hasAdvancedMaxBw: bool,
    isSampleFromProbing: bool)

  const NEW_CYCLE := Cycle(0, NOT_STARTED, 0, 0, 0, 0, 0, UNSET, 0, false, false)

  /** History: the latest event time, how often PROBE_DOWN was entered and how often the
      filter's `Advance` was called, the bytes by which `ProbeInflightHighUpward` raised the
      upper bound since REFILL was last entered, the bytes acked since then, and the round-trip times it was given, the
      initial one included. */
  datatype History = History(now: int, downs: nat, advances: nat, raised: nat, credit: nat, trips: seq<int>)

  function Recorded(trips: seq<int>, rtt: int): seq<int> {
    if rtt == INT64_MAX then trips else trips + [rtt]
  }

  datatype Sender = Sender(
    params: Params,
    mode: Mode,
    model: Model,
    cycle: Cycle,
    lastCycleProbedTooHigh: bool,
    lastCycleStoppedRiskyProbe: bool,
    exitTime: int,
    cwnd: nat,
    pacingRate: nat,
    quiescenceStart: int,
    history: History)

  /** The bytes that must be acked per upward step are never fewer than one segment, and the
      shift that sets them never exceeds 30. */
  predicate Slopes(s: Sender) {
    s.cycle.probeUpBytes >= MSS && s.cycle.probeUpRounds <= 30
  }

  // ---------------------------------------------------------------- PROBE_BW: entering phases

  function AdvancedFilter(s: Sender): Sender {
    s.(model := AdvanceFilter(s.model),
       cycle := s.cycle.(hasAdvancedMaxBw := true),
       history := s.history.(advances := s.history.advances + 1))
  }

  /** `ExitProbeDown`, called by the two functions that can end PROBE_DOWN. */
  function LeftDown(s: Sender): Sender {
    if s.cycle.phase == DOWN && !s.cycle.hasAdvancedMaxBw then AdvancedFilter(s) else s
  }

  function EnterDown(s: Sender, tooHigh: bool, risky: bool, now: int, randomRounds: nat, randomWait: nat): Sender {
    s.(lastCycleProbedTooHigh := tooHigh,
       lastCycleStoppedRiskyProbe := risky,
       cycle := s.cycle.(startTime := now, phase := DOWN, roundsInPhase := 0, phaseStartTime := now,
                         roundsSinceProbe := randomRounds, waitTime := PROBE_BASE_DURATION + randomWait,
                         probeUpBytes := UNSET, hasAdvancedMaxBw := false),
       model := RestartRoundEarly(s.model),
       history := s.history.(downs := s.history.downs + 1))
  }

  function EnterCruise(s: Sender, now: int): Sender {
    var s1 := LeftDown(s);
    s1.(model := CapInflightLo(s1.model, s1.model.inflightHi),
        cycle := s1.cycle.(phase := CRUISE, roundsInPhase := 0, phaseStartTime := now, isSampleFromProbing := false))
  }

  function EnterRefill(s: Sender, probeUpRounds: nat, now: int): Sender {
    var s1 := LeftDown(s);
    s1.(cycle := s1.cycle.(phase := REFILL, roundsInPhase := 0, phaseStartTime := now, isSampleFromProbing := false,
                           probeUpRounds := probeUpRounds, probeUpAcked := 0),
        lastCycleStoppedRiskyProbe := false,
        model := RestartRoundEarly(ClearLowerBounds(s1.model)),
        history := s1.history.(raised := 0, credit := 0))
  }

  /** `RaiseInflightHighSlope`. */
  function RaisedSlope(s: Sender): Sender {
    s.(cycle := s.cycle.(probeUpRounds := Min(s.cycle.probeUpRounds + 1, 30),
                         probeUpBytes := Max(s.cwnd / Pow2(s.cycle.probeUpRounds), MSS)))
  }

  function EnterUp(s: Sender, now: int): Sender {
    var s1 := RaisedSlope(s.(cycle := s.cycle.(phase := UP, roundsInPhase := 0, phaseStartTime := now,
                                               isSampleFromProbing := true)));
    s1.(model := RestartRoundEarly(s1.model))
  }

  // ---------------------------------------------------------------- PROBE_BW: upper bounds

  /** `GetTargetBytesInflight`. */
  function TargetInflight(m: Model, cwnd: nat): nat {
    Min(Bdp(m, BandwidthEstimate(m)), cwnd)
  }

  predicate ProbedTooHigh(s: Sender, ev: Event) {
    && ev.last.isValid && s.cycle.isSampleFromProbing
    && IsInflightTooHigh(s.model, ev, PROBE_BW_FULL_LOSS_COUNT, s.params.lossThreshold)
  }

  /** `MaybeAdaptUpperBounds`. */
  function AdaptUpperBounds(s: Sender, ev: Event): Sender {
    if !ev.last.isValid then s
    else if IsInflightTooHigh(s.model, ev, PROBE_BW_FULL_LOSS_COUNT, s.params.lossThreshold) then
      if !s.cycle.isSampleFromProbing then s else
        s.(cycle := s.cycle.(isSampleFromProbing := false),
           model := if ev.last.appLimited then s.model
                    else s.model.(inflightHi
                        := Max(SentInFlight(ev.last), Scale(TargetInflight(s.model, s.cwnd), BETA_KEEP))))
    else if s.model.inflightHi == UNSET then s
    else if SentInFlight(ev.last) > s.model.inflightHi then
      s.(model := s.model.(inflightHi := SentInFlight(ev.last)))
    else s
  }

  /** `ProbeInflightHighUpward`. */
  function ProbeUpward(s: Sender, ev: Event): Sender
    requires Slopes(s)
  {
    if !IsCwndLimited(ev) || ev.priorCwnd < s.model.inflightHi then s else
      var acked := s.cycle.probeUpAcked + ev.acked;
      var delta := acked / s.cycle.probeUpBytes;
      var s1 := s.(cycle := s.cycle.(probeUpAcked := acked % s.cycle.probeUpBytes),
                   model := s.model.(inflightHi := s.model.inflightHi + delta * MSS),
                   history := s.history.(raised := s.history.raised + delta * MSS));
      if ev.endOfRound then RaisedSlope(s1) else s1
  }

  // ---------------------------------------------------------------- PROBE_BW: phases

  /** `IsTimeToProbeBandwidth`: the cycle has lasted long enough, or as many rounds as a Reno flow of the same size
      would take, but no more than 63. */
  predicate IsTimeToProbe(m: Model, c: Cycle, cwnd: nat, ev: Event) {
    || ev.time - c.startTime > c.waitTime
    || c.roundsSinceProbe >= Min(PROBE_MAX_ROUNDS, TargetInflight(m, cwnd) / MSS)
  }

  /** The part of `UpdateProbeDown` that runs at the end of the first round. */
  predicate FirstRoundOver(s: Sender, ev: Event) {
    s.cycle.roundsInPhase == 1 && ev.endOfRound
  }

  function FirstRound(s: Sender, ev: Event): Sender {
    var s1 := s.(cycle := s.cycle.(isSampleFromProbing := false));
    if ev.appLimited then s1 else AdvancedFilter(s1)
  }

  function DrainDown(s: Sender, ev: Event): Sender {
    var s1 := AdaptUpperBounds(s, ev);
    if IsTimeToProbe(s1.model, s1.cycle, s1.cwnd, ev) then EnterRefill(s1, 0, ev.time)
    else if ev.time - s1.cycle.phaseStartTime > s1.model.minRtt then EnterCruise(s1, ev.time)
    else if ev.inFlight > HiWithHeadroom(s1.model) then s1
    else if ev.inFlight < Bdp(s1.model, MaxBandwidth(s1.model)) then EnterCruise(s1, ev.time)
    else s1
  }

  function UpdateDown(s: Sender, ev: Event): Sender {
    if !FirstRoundOver(s, ev) then DrainDown(s, ev) else
      var s1 := FirstRound(s, ev);
      if s1.lastCycleStoppedRiskyProbe && !s1.lastCycleProbedTooHigh then EnterRefill(s1, 0, ev.time)
      else DrainDown(s1, ev)
  }

  function UpdateCruise(s: Sender, ev: Event): Sender {
    var s1 := AdaptUpperBounds(s, ev);
    if IsTimeToProbe(s1.model, s1.cycle, s1.cwnd, ev) then EnterRefill(s1, 0, ev.time) else s1
  }

  function UpdateRefill(s: Sender, ev: Event): Sender {
    var s1 := AdaptUpperBounds(s, ev);
    if s1.cycle.roundsInPhase > 0 && ev.endOfRound then EnterUp(s1, ev.time) else s1
  }

  function UpdateUp(s: Sender, ev: Event, priorInFlight: nat): Sender
    requires Slopes(s)
  {
    var s1 := AdaptUpperBounds(s, ev);
    if ProbedTooHigh(s, ev) then EnterDown(s1, true, false, ev.time, ev.randomRounds, ev.randomWait) else
      var s2 := ProbeUpward(s1, ev);
      var risky := s2.lastCycleProbedTooHigh && priorInFlight >= s2.model.inflightHi;
      var queuing := !risky && s2.cycle.roundsInPhase > 0
                     && ev.inFlight >= (2 * MSS + ev.ackHeight) % (UINT64_MAX + 1);
      if risky || queuing then EnterDown(s2, false, risky, ev.time, ev.randomRounds, ev.randomWait) else s2
  }

  function CountedRounds(s: Sender, ev: Event): Sender {
    if !ev.endOfRound then s else
      s.(cycle := s.cycle.(
           roundsSinceProbe := s.cycle.roundsSinceProbe + (if s.cycle.startTime != ev.time then 1 else 0),
           roundsInPhase := s.cycle.roundsInPhase + (if s.cycle.phaseStartTime != ev.time then 1 else 0)))
  }

  function PhaseGain(p: Phase): Gain {
    match p
    case UP => PROBE_UP_GAIN
    case DOWN => PROBE_DOWN_GAIN
    case _ => UNIT_GAIN
  }

  function WithGains(s: Sender, pacing: Gain, cwnd: Gain): Sender {
    s.(model := s.model.(pacingGain := pacing, cwndGain := cwnd))
  }

  /** The phase step of one event. */
  function PhaseStep(s: Sender, ev: Event, priorInFlight: nat): Sender
    requires Slopes(s)
  {
    match s.cycle.phase
    case UP => UpdateUp(s, ev, priorInFlight)
    case DOWN => UpdateDown(s, ev)
    case CRUISE => UpdateCruise(s, ev)
    case REFILL => UpdateRefill(s, ev)
    case NOT_STARTED => s
  }

  /** `Bbr2ProbeBwMode::OnCongestionEvent`: the new state and the mode proposed. */
  function ProbeBwEvent(s: Sender, ev: Event, priorInFlight: nat): (Sender, Mode)
    requires Slopes(s)
  {
    var s1 := CountedRounds(s, ev);
    var s2 := PhaseStep(s1, ev, priorInFlight);
    var downEnded := s1.cycle.phase == DOWN && s2.cycle.phase != DOWN;
    if downEnded && MinRttExpires(s2.model, ev)
    then (s2.(model := ExpireMinRtt(s2.model, ev)), PROBE_RTT)
    else (WithGains(s2, PhaseGain(s2.cycle.phase), PROBE_BW_CWND_GAIN), PROBE_BW)
  }

  /** `Bbr2ProbeBwMode::Enter`. */
  function EnterProbeBw(s: Sender, now: int, randomRounds: nat, randomWait: nat): Sender {
    if s.cycle.phase == NOT_STARTED then EnterDown(s, false, false, now, randomRounds, randomWait) else
      var s1 := s.(cycle := s.cycle.(startTime := now));
      match s1.cycle.phase
      case CRUISE => EnterCruise(s1, now)
      case REFILL => EnterRefill(s1, s1.cycle.probeUpRounds, now)
      case _ => s1
  }

  // ---------------------------------------------------------------- the other modes

  /** `CheckExcessiveLosses`. */
  function CheckLosses(s: Sender, ev: Event): Sender {
    if !s.model.fullBandwidthReached
       && IsInflightTooHigh(s.model, ev, STARTUP_FULL_LOSS_COUNT, s.params.lossThreshold)
    then s.(model := s.model.(inflightHi := Max(Bdp(s.model, MaxBandwidth(s.model)), s.model.maxDelivered),
                              fullBandwidthReached := true))
    else s
  }

  function StartupEvent(s: Sender, ev: Event): (Sender, Mode) {
    var s1 :=
      if s.model.fullBandwidthReached || !ev.endOfRound then s else
        var growth := GrowthOf(s.model, ev);
        var s2 := s.(model := CheckGrowth(s.model, ev));
        if growth == NoGrowth || growth == Exit then CheckLosses(s2, ev) else s2;
    (s1, if s1.model.fullBandwidthReached then DRAIN else STARTUP)
  }

  function DrainTarget(m: Model, minCwnd: nat): nat {
    Max(Bdp(m, MaxBandwidth(m)), minCwnd)
  }

  function DrainEvent(s: Sender, ev: Event): (Sender, Mode) {
    var s1 := WithGains(s, DRAIN_PACING_GAIN, DRAIN_CWND_GAIN);
    (s1, if ev.inFlight <= DrainTarget(s1.model, s1.params.minCwnd) then PROBE_BW else DRAIN)
  }

  function InflightTarget(m: Model): nat {
    Scale(Bdp(m, MaxBandwidth(m)), PROBE_RTT_BDP_FRACTION)
  }

  function EnterProbeRtt(s: Sender): Sender {
    WithGains(s, UNIT_GAIN, UNIT_GAIN).(exitTime := 0)
  }

  function ProbeRttEvent(s: Sender, ev: Event): (Sender, Mode) {
    if s.exitTime == 0 then
      (if ev.inFlight <= InflightTarget(s.model) || ev.inFlight <= s.params.minCwnd
       then s.(exitTime := ev.time + PROBE_RTT_DURATION) else s, PROBE_RTT)
    else (s, if ev.time > s.exitTime then PROBE_BW else PROBE_RTT)
  }

  // ---------------------------------------------------------------- the mode loop

  predicate Probing(s: Sender) {
    s.mode == STARTUP || (s.mode == PROBE_BW && (s.cycle.phase == REFILL || s.cycle.phase == UP))
  }

  /** One dispatch of `OnCongestionEvent` to the current mode. */
  function Dispatch(s: Sender, ev: Event, priorInFlight: nat): (Sender, Mode)
    requires Slopes(s)
  {
    match s.mode
    case STARTUP => StartupEvent(s, ev)
    case DRAIN => DrainEvent(s, ev)
    case PROBE_BW => ProbeBwEvent(s, ev, priorInFlight)
    case PROBE_RTT => ProbeRttEvent(s, ev)
  }

  /** Leaving the current mode and entering the next; only STARTUP's `Leave` does anything. */
  function Switch(s: Sender, next: Mode, now: int, randomRounds: nat, randomWait: nat): Sender {
    var s1 := if s.mode == STARTUP then s.(model := s.model.(bandwidthLo := INFINITE_BANDWIDTH)) else s;
    var s2 := s1.(mode := next);
    match next
    case PROBE_BW => EnterProbeBw(s2, now, randomRounds, randomWait)
    case PROBE_RTT => EnterProbeRtt(s2)
    case _ => s2
  }

  // ---------------------------------------------------------------- pacing rate and window

  /** `UpdatePacingRate`. */
  function NewPacingRate(s: Sender, acked: nat): nat
    requires s.model.minRtt > 0
  {
    var estimate := BandwidthEstimate(s.model);
    var target := ScaleRate(estimate, s.model.pacingGain);
    if estimate == 0 then s.pacingRate
    else if s.model.totalAcked == acked then Rate(s.cwnd, s.model.minRtt)
    else if s.model.fullBandwidthReached then target
    else Max(s.pacingRate, target)
  }

  function ApplyLimits(x: nat, lower: nat, upper: nat): nat {
    Min(upper, Max(lower, x))
  }

  /** `GetCwndLimitsByMode`: the upper limit that a mode, or a phase of PROBE_BW, puts on the window. */
  function ModeLimit(mode: Mode, phase: Phase, m: Model): nat {
    match mode
    case PROBE_BW => Min(m.inflightLo, if phase == CRUISE then HiWithHeadroom(m) else m.inflightHi)
    case PROBE_RTT => Min(Min(m.inflightLo, HiWithHeadroom(m)), InflightTarget(m))
    case _ => m.inflightLo
  }

  /** `GetTargetCongestionWindow`, at the model's own gain. */
  function TargetCwnd(m: Model, minCwnd: nat): nat {
    Max(Scale(Bdp(m, BandwidthEstimate(m)), m.cwndGain), minCwnd)
  }

  /** `UpdateCongestionWindow`; adding the ack height may wrap around. */
  function NewCwnd(s: Sender, acked: nat, ackHeight: nat): nat {
    var target := TargetCwnd(s.model, s.params.minCwnd);
    var desired :=
      if s.model.fullBandwidthReached then Min(s.cwnd + acked, (target + ackHeight) % (UINT64_MAX + 1))
      else if s.cwnd < target || s.cwnd < 2 * s.params.initialCwnd then s.cwnd + acked
      else s.cwnd;
    ApplyLimits(ApplyLimits(desired, 0, ModeLimit(s.mode, s.cycle.phase, s.model)), s.params.minCwnd, s.params.maxCwnd)
  }

  // ---------------------------------------------------------------- events of the sender

  /** The state in which the mode loop starts. */
  function Started(s: Sender, x: Input): Sender {
    s.(model := EventStart(s.model, x, s.cwnd, Probing(s)),
       history := s.history.(now := x.time, credit := s.history.credit + x.acked,
                              trips := Recorded(s.history.trips, x.sample.rtt)))
  }

  function EventFor(s: Sender, x: Input): Event {
    MakeEvent(s.model, x, s.cwnd, Probing(s))
  }

  /** What follows the mode loop: pacing rate, window, end of round, start of quiescence. */
  function Finished(s: Sender, ev: Event): Sender
    requires s.model.minRtt > 0
  {
    var s1 := s.(pacingRate := NewPacingRate(s, ev.acked));
    s1.(cwnd := NewCwnd(s1, ev.acked, ev.ackHeight),
        model := if ev.endOfRound then NewRound(s1.model) else s1.model,
        quiescenceStart := if ev.inFlight == 0 then ev.time else s1.quiescenceStart)
  }

  /** `OnExitQuiescence`. */
  function ExitQuiescence(s: Sender, now: int): Sender {
    if s.quiescenceStart == 0 then s else
      var s1 :=
        match s.mode
        case PROBE_BW =>
          s.(model := s.model.(minRttTime := s.model.minRttTime + now - Min(now, s.quiescenceStart)))
        case PROBE_RTT => if now > s.exitTime then Switch(s, PROBE_BW, now, 0, 0) else s
        case _ => s;
      s1.(quiescenceStart := 0)
  }

  /** `Bbr2Sender::OnPacketSent`. */
  function OnSent(s: Sender, time: int, packetNumber: nat, inFlight: nat): Sender {
    var s1 := s.(history := s.history.(now := time));
    var s2 := if inFlight == 0 then ExitQuiescence(s1, time) else s1;
    s2.(model := s2.model.(lastSent := Some(packetNumber)))
  }
}
