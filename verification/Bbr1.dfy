/** BBRv1 (`BbrSender`) as a state machine over congestion events and sent packets.

    The sampler's answer to an event, the bytes in flight, the smoothed round-trip times and the random pick are
    inputs. */
module Bbr1 {
  import opened Base
  import opened Gains
  import opened Samples
  import opened WindowedFilter

  const MIN_CWND: nat := 4 * MSS
  const MAX_OUTGOING_PACKET_SIZE: nat := 1452
  const BANDWIDTH_WINDOW: nat := 10
  const MIN_RTT_EXPIRY: nat := 10_000_000
  const PROBE_RTT_TIME: nat := 200_000
  const INITIAL_PACING_RATE: nat := 800_000
  const STARTUP_ROUNDS: nat := 3
  const FULL_LOSS_COUNT: nat := 3
  const LOSS_THRESHOLD: nat := 3
  const GAIN_CYCLE_LENGTH: nat := 8

  const HIGH_GAIN: Gain := Ratio(2885, 1000)
  const HIGH_CWND_GAIN: Gain := Ratio(2, 1)
  const DRAIN_GAIN: Gain := Ratio(1000, 2885)
  const CWND_GAIN: Gain := Ratio(2, 1)
  const UNIT: Gain := Ratio(1, 1)
  const PROBE_UP: Gain := Ratio(5, 4)
  const PROBE_DOWN: Gain := Ratio(3, 4)

  function CycleGain(offset: nat): Gain {
    if offset == 0 then PROBE_UP else if offset == 1 then PROBE_DOWN else UNIT
  }

  datatype Mode = STARTUP | DRAIN | PROBE_BW | PROBE_RTT
  datatype RecoveryState = NOT_IN_RECOVERY | CONSERVATION | GROWTH

  datatype Params = Params(initialCwnd: nat, maxCwnd: nat, drainToTarget: bool)

  /** What the sender has learned of the path. */
  datatype Path = Path(
    lastSent: Option<nat>, roundEnd: Option<nat>, roundCount: nat, lossEvents: nat, lostInRound: nat, totalAcked: nat,
    bandwidth: Filter, minRtt: int, minRttTime: int, appLimited: bool, full: bool, roundsWithoutGain: nat,
        baseline: nat)

  datatype Cycle = Cycle(pacingGain: Gain, cwndGain: Gain, offset: nat, start: int)
  datatype ProbeRtt = ProbeRtt(exitAt: int, roundPassed: bool, exitingQuiescence: bool)
  datatype Recovery = Recovery(state: RecoveryState, endAt: Option<nat>, window: nat)

  /** What the code does not keep: the latest time, the events so far, the bandwidth samples handed to the filter, the
      round trips sampled, and the time at which the current visit to PROBE_RTT began. */
  datatype History = History(now: int, events: nat, samples: seq<Sample>, trips: seq<int>, probeRttSince: int)

  datatype Sender = Sender(
    params: Params, mode: Mode, path: Path, cycle: Cycle, probeRtt: ProbeRtt, recovery: Recovery, cwnd: nat,
    pacingRate: nat, history: History)

  /** A congestion event: its time, the bytes in flight before and after it, the largest packet acked if any, whether
      packets were lost, the bytes acked and lost, the sampler's sample, the smallest round-trip time known to the
      connection (0 for none) and the one to use when the sender has none of its own, and the random pick. */
  datatype Input = Input(
    time: int, priorInFlight: nat, inFlight: nat, lastAcked: Option<nat>, hasLosses: bool, acked: nat, lost: nat,
    sample: EventSample, connectionMinRtt: int, fallbackRtt: int, random: nat)

  // ---------------------------------------------------------------- readings

  function Estimate(p: Path): nat {
    Max(0, p.bandwidth.best.value)
  }

  function MinRtt(p: Path, fallbackRtt: int): int {
    if p.minRtt != 0 then p.minRtt else fallbackRtt
  }

  function Target(s: Sender, gain: Gain, fallbackRtt: int): nat {
    var bdp := Estimate(s.path) * Max(0, MinRtt(s.path, fallbackRtt)) / 8 / 1_000_000;
    var window := Scale(bdp, gain);
    Max(if window == 0 then Scale(s.params.initialCwnd, gain) else window, MIN_CWND)
  }

  /** `GetCongestionWindow`: the window that sending is held to. */
  function UsableWindow(s: Sender): nat {
    if s.mode == PROBE_RTT then MIN_CWND
    else if s.recovery.state != NOT_IN_RECOVERY then Min(s.cwnd, s.recovery.window)
    else s.cwnd
  }

  // ---------------------------------------------------------------- rounds and recovery

  predicate Exceeds(packet: nat, mark: Option<nat>) {
    mark.Some? && packet > mark.value
  }

  predicate StartsRound(p: Path, lastAcked: Option<nat>) {
    lastAcked.Some? && (p.roundEnd.None? || Exceeds(lastAcked.value, p.roundEnd))
  }

  function CountRound(p: Path, lastAcked: Option<nat>): Path {
    if StartsRound(p, lastAcked) then p.(roundCount := p.roundCount + 1, roundEnd := p.lastSent) else p
  }

  /** `UpdateRecoveryState`; leaving CONSERVATION falls through to the test for leaving recovery. */
  function UpdateRecovery(s: Sender, lastAcked: nat, hasLosses: bool, roundStart: bool): Sender {
    if !s.path.full then s else
      var r := if hasLosses then s.recovery.(endAt := s.path.lastSent) else s.recovery;
      if r.state == NOT_IN_RECOVERY then
        if hasLosses
        then s.(recovery := r.(state := CONSERVATION, window := 0), path := s.path.(roundEnd := s.path.lastSent))
        else s.(recovery := r)
      else
        var grown := if r.state == CONSERVATION && roundStart then r.(state := GROWTH) else r;
        s.(recovery := if !hasLosses
            && Exceeds(lastAcked, grown.endAt) then grown.(state := NOT_IN_RECOVERY) else grown)
  }

  function Acknowledged(s: Sender, x: Input): Sender {
    if x.lastAcked.None? then s else
      var s1 := s.(path := CountRound(s.path, x.lastAcked));
      UpdateRecovery(s1, x.lastAcked.value, x.hasLosses, StartsRound(s.path, x.lastAcked))
  }

  // ---------------------------------------------------------------- the sample

  predicate FeedsFilter(p: Path, x: Input) {
    x.acked != 0 && (!x.sample.appLimited || x.sample.maxBandwidth > Estimate(p))
  }

  /** The part of the event that feeds the bandwidth filter, with the sample put on record. */
  function FeedFilter(s: Sender, x: Input): Sender {
    var p := s.path.(appLimited := if x.sample.last.isValid then x.sample.last.appLimited else s.path.appLimited,
                     totalAcked := s.path.totalAcked + x.acked);
    if !FeedsFilter(s.path, x) then s.(path := p) else
      var sample := Sample(x.sample.maxBandwidth, p.roundCount);
      s.(path := p.(bandwidth := Update(p.bandwidth, sample)),
         history := s.history.(samples := s.history.samples + [sample]))
  }

  predicate HasRtt(x: Input) {
    x.sample.rtt != INT64_MAX
  }

  predicate MinRttExpires(p: Path, x: Input) {
    HasRtt(x) && p.minRtt != 0 && x.time > p.minRttTime + MIN_RTT_EXPIRY
  }

  function UpdateMinRtt(p: Path, x: Input): Path {
    if HasRtt(x) && (MinRttExpires(p, x) || x.sample.rtt < p.minRtt || p.minRtt == 0)
    then p.(minRtt := x.sample.rtt, minRttTime := x.time)
    else p
  }

  function CountLosses(p: Path, x: Input): Path {
    if x.hasLosses then p.(lossEvents := p.lossEvents + 1, lostInRound := p.lostInRound + x.lost) else p
  }

  function Sampled(s: Sender, x: Input): Sender {
    var s1 := FeedFilter(s, x);
    s1.(path := CountLosses(UpdateMinRtt(s1.path, x), x),
        history := if HasRtt(x) then s1.history.(trips := s1.history.trips + [x.sample.rtt]) else s1.history)
  }

  // ---------------------------------------------------------------- modes

  function EnterStartup(s: Sender): Sender {
    s.(mode := STARTUP, cycle := s.cycle.(pacingGain := HIGH_GAIN, cwndGain := HIGH_CWND_GAIN))
  }

  /** A random place in the gain cycle, but never the draining one. */
  function EnterProbeBw(s: Sender, now: int, random: nat): Sender {
    var pick := random % (GAIN_CYCLE_LENGTH - 1);
    var offset := if pick >= 1 then pick + 1 else pick;
    s.(mode := PROBE_BW, cycle := Cycle(CycleGain(offset), CWND_GAIN, offset, now))
  }

  predicate AdvancesCycle(s: Sender, x: Input) {
    var gain := s.cycle.pacingGain;
    if gain.num < gain.den && x.inFlight <= Target(s, UNIT, x.fallbackRtt) then true
    else if gain.num > gain.den && !x.hasLosses && x.priorInFlight < Target(s, gain, x.fallbackRtt) then false
    else x.time - s.cycle.start > MinRtt(s.path, x.fallbackRtt)
  }

  function UpdateGainCycle(s: Sender, x: Input): Sender {
    if !AdvancesCycle(s, x) then s else
      var offset := (s.cycle.offset + 1) % GAIN_CYCLE_LENGTH;
      var c := s.cycle.(offset := offset, start := x.time);
      if s.params.drainToTarget && c.pacingGain.num < c.pacingGain.den && CycleGain(offset) == UNIT
         && x.inFlight > Target(s, UNIT, x.fallbackRtt)
      then s.(cycle := c)
      else s.(cycle := c.(pacingGain := CycleGain(offset)))
  }

  predicate LossEndsStartup(p: Path, last: SendState) {
    && p.lossEvents >= FULL_LOSS_COUNT && last.isValid
    && last.bytesInFlight > 0 && p.lostInRound > 0 && p.lostInRound > last.bytesInFlight * LOSS_THRESHOLD
  }

  function CheckFullBandwidth(p: Path, last: SendState): Path {
    if p.appLimited then p
    else if Estimate(p) >= ScaleRate(p.baseline, PROBE_UP) then p.(baseline := Estimate(p), roundsWithoutGain := 0)
    else
      var rounds := p.roundsWithoutGain + 1;
      p.(roundsWithoutGain := rounds, full := p.full || rounds >= STARTUP_ROUNDS || LossEndsStartup(p, last))
  }

  function ExitStartupOrDrain(s: Sender, x: Input): Sender {
    var s1 := if s.mode == STARTUP && s.path.full
              then s.(mode := DRAIN, cycle := s.cycle.(pacingGain := DRAIN_GAIN, cwndGain := HIGH_CWND_GAIN))
              else s;
    if s1.mode == DRAIN && x.inFlight <= Target(s1, UNIT, x.fallbackRtt) then EnterProbeBw(s1, x.time, x.random) else s1
  }

  function EnterProbeRtt(s: Sender, now: int): Sender {
    s.(mode := PROBE_RTT, cycle := s.cycle.(pacingGain := UNIT), probeRtt := s.probeRtt.(exitAt := 0),
       history := s.history.(probeRttSince := now))
  }

  function StayInProbeRtt(s: Sender, x: Input, roundStart: bool): Sender {
    if s.probeRtt.exitAt == 0 then
      if x.inFlight < MIN_CWND + MAX_OUTGOING_PACKET_SIZE
      then s.(probeRtt := s.probeRtt.(exitAt := x.time + PROBE_RTT_TIME, roundPassed := false))
      else s
    else
      var passed := s.probeRtt.roundPassed || roundStart;
      var s1 := s.(probeRtt := s.probeRtt.(roundPassed := passed));
      if !(x.time >= s.probeRtt.exitAt && passed) then s1 else
        var s2 := s1.(path := s1.path.(minRttTime := x.time));
        if !s2.path.full then EnterStartup(s2) else EnterProbeBw(s2, x.time, x.random)
  }

  function EnterOrExitProbeRtt(s: Sender, x: Input, roundStart: bool, expired: bool): Sender {
    var s1 := if expired && !s.probeRtt.exitingQuiescence && s.mode != PROBE_RTT then EnterProbeRtt(s, x.time) else s;
    var s2 := if s1.mode == PROBE_RTT then StayInProbeRtt(s1, x, roundStart) else s1;
    s2.(probeRtt := s2.probeRtt.(exitingQuiescence := false))
  }

  /** All mode changes of one event. */
  function Moded(s: Sender, x: Input, roundStart: bool, expired: bool): Sender {
    var s1 := if s.mode == PROBE_BW then UpdateGainCycle(s, x) else s;
    var s2 := if roundStart && !s1.path.full then s1.(path := CheckFullBandwidth(s1.path, x.sample.last)) else s1;
    EnterOrExitProbeRtt(ExitStartupOrDrain(s2, x), x, roundStart, expired)
  }

  // ---------------------------------------------------------------- rate and windows

  function NewPacingRate(s: Sender, x: Input): nat {
    var target := ScaleRate(Estimate(s.path), s.cycle.pacingGain);
    if Estimate(s.path) == 0 then s.pacingRate
    else if s.path.full then target
    else if s.pacingRate == 0 && x.connectionMinRtt != 0 then INITIAL_PACING_RATE
    else Max(s.pacingRate, target)
  }

  function NewCwnd(s: Sender, x: Input): nat {
    if s.mode == PROBE_RTT then s.cwnd else
      var target := Target(s, s.cycle.cwndGain, x.fallbackRtt);
      var grown :=
        if s.path.full then Min(target, s.cwnd + x.acked)
        else if s.cwnd < target || s.path.totalAcked < s.params.initialCwnd then s.cwnd + x.acked
        else s.cwnd;
      Min(Max(grown, MIN_CWND), s.params.maxCwnd)
  }

  function NewRecoveryWindow(r: Recovery, x: Input): nat {
    if r.state == NOT_IN_RECOVERY then r.window
    else if r.window == 0 then Max(MIN_CWND, x.inFlight + x.acked)
    else
      var left := if r.window >= x.lost then r.window - x.lost else MSS;
      var grown := if r.state == GROWTH then left + x.acked else left;
      Max(MIN_CWND, Max(grown, x.inFlight + x.acked))
  }

  function Windowed(s: Sender, x: Input, roundStart: bool): Sender {
    s.(pacingRate := NewPacingRate(s, x), cwnd := NewCwnd(s, x),
       recovery := s.recovery.(window := NewRecoveryWindow(s.recovery, x)),
       path := if roundStart then s.path.(lossEvents := 0, lostInRound := 0) else s.path,
       history := s.history.(now := x.time, events := s.history.events + 1))
  }

  // ---------------------------------------------------------------- events

  function OnEvent(s: Sender, x: Input): Sender {
    var roundStart := StartsRound(s.path, x.lastAcked);
    var s1 := Acknowledged(s, x);
    var s2 := Sampled(s1, x);
    Windowed(Moded(s2, x, roundStart, MinRttExpires(s1.path, x)), x, roundStart)
  }

  /** `OnPacketSent`; whether the sampler calls itself app limited is an input. */
  function OnSent(s: Sender, packetNumber: nat, bytesInFlight: nat, samplerAppLimited: bool): Sender {
    s.(path := s.path.(lastSent := Some(packetNumber)),
       probeRtt := s.probeRtt.(
         exitingQuiescence := s.probeRtt.exitingQuiescence || (bytesInFlight == 0 && samplerAppLimited)))
  }

  function NewSender(p: Params, now: int): Sender {
    Sender(p, STARTUP,
           Path(None, None, 0, 0, 0, 0, NewFilter(BANDWIDTH_WINDOW, 0, 0), 0, 0, false, false, 0, 0),
           Cycle(HIGH_GAIN, HIGH_CWND_GAIN, 0, 0), ProbeRtt(0, false, false),
           Recovery(NOT_IN_RECOVERY, None, p.maxCwnd), p.initialCwnd, 0, History(now, 0, [], [], 0))
  }
}
