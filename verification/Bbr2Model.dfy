/** The BBRv2 network model (`Bbr2NetworkModel`) and its parameters.

    Gains are exact ratios.  The sampler's answer to an event is an input here. */
module Bbr2Model {
  import opened Base
  import opened Gains
  import opened Samples

  const STARTUP_PACING_GAIN: Gain := Ratio(2885, 1000)
  const STARTUP_CWND_GAIN: Gain := Ratio(2, 1)
  const DRAIN_PACING_GAIN: Gain := Ratio(1000, 2885)
  const DRAIN_CWND_GAIN: Gain := Ratio(2, 1)
  const PROBE_UP_GAIN: Gain := Ratio(5, 4)
  const PROBE_DOWN_GAIN: Gain := Ratio(3, 4)
  const UNIT_GAIN: Gain := Ratio(1, 1)
  const PROBE_BW_CWND_GAIN: Gain := Ratio(2, 1)
  const PROBE_RTT_BDP_FRACTION: Gain := Ratio(1, 2)
  const HEADROOM: Gain := Ratio(3, 10)
  const BETA_KEEP: Gain := Ratio(7, 10)

  const STARTUP_FULL_BW_ROUNDS: nat := 3
  const STARTUP_FULL_LOSS_COUNT: nat := 20
  const PROBE_BW_FULL_LOSS_COUNT: nat := 30
  const PROBE_MAX_ROUNDS: nat := 63
  const PROBE_RAND_ROUNDS: nat := 2
  const PROBE_BASE_DURATION: nat := 100_000
  const PROBE_RAND_DURATION: nat := 1_000_000
  const PROBE_RTT_PERIOD: nat := 200_000
  const PROBE_RTT_DURATION: nat := 200_000

  /** No lower bound on bandwidth; no bound on inflight. */
  const INFINITE_BANDWIDTH: nat := INT64_MAX
  const UNSET: nat := UINT64_MAX

  datatype Params = Params(minCwnd: nat, maxCwnd: nat, initialCwnd: nat, lossThreshold: Gain)

  datatype Model = Model(
    lastSent: Option<nat>,
    endOfRound: Option<nat>,
    roundCount: nat,
    totalAcked: nat,
    bandwidths: (nat, nat),
    minRtt: int,
    minRttTime: int,
    lostInRound: nat,
    lossEventsInRound: nat,
    maxDelivered: nat,
    bandwidthLatest: nat,
    bandwidthLo: nat,
    inflightLatest: nat,
    inflightLo: nat,
    inflightHi: nat,
    cwndGain: Gain,
    pacingGain: Gain,
    fullBandwidthReached: bool,
    baseline: nat,
    roundsWithoutGrowth: nat)

  /** What a congestion event brings: its time, what was in flight before it, the largest
      packet acked, the bytes acked and lost, the sampler's sample, the current ack height
      and the two random picks. */
  datatype Input = Input(
    time: int, priorInFlight: nat, lastAcked: Option<nat>, acked: nat, lost: nat, sample: EventSample,
    ackHeight: nat, randomRounds: nat, randomWait: nat)

  /** `Bbr2CongestionEvent`. */
  datatype Event = Event(
    time: int, priorCwnd: nat, inFlight: nat, acked: nat, lost: nat, endOfRound: bool, appLimited: bool,
    probing: bool, rtt: int, last: SendState, ackHeight: nat, randomRounds: nat, randomWait: nat)

  // ---------------------------------------------------------------- readings

  function MaxBandwidth(m: Model): nat {
    Max(m.bandwidths.0, m.bandwidths.1)
  }

  function BandwidthEstimate(m: Model): nat {
    Min(MaxBandwidth(m), m.bandwidthLo)
  }

  /** Bytes that a bandwidth delivers in one minimum round trip. */
  function Bdp(m: Model, bandwidth: nat): nat {
    if m.minRtt < 0 then 0 else bandwidth * m.minRtt / 8 / 1_000_000
  }

  function HiWithHeadroom(m: Model): nat {
    var headroom := Scale(m.inflightHi, HEADROOM);
    if m.inflightHi > headroom then m.inflightHi - headroom else 0
  }

  /** `BytesInFlight` of a send state, with its unsigned subtraction. */
  function SentInFlight(x: SendState): nat {
    if x.bytesInFlight != 0 then x.bytesInFlight
    else (x.totalSent - x.totalAcked - x.totalLost) % (UINT64_MAX + 1)
  }

  predicate IsInflightTooHigh(m: Model, ev: Event, maxLossEvents: nat, lossThreshold: Gain) {
    && ev.last.isValid
    && m.lossEventsInRound >= maxLossEvents
    && SentInFlight(ev.last) > 0 && m.lostInRound > 0
    && m.lostInRound > Scale(SentInFlight(ev.last), lossThreshold)
  }

  predicate IsCwndLimited(ev: Event) {
    ev.inFlight + ev.acked + ev.lost >= ev.priorCwnd
  }

  // ---------------------------------------------------------------- updates

  function NewRound(m: Model): Model {
    m.(lostInRound := 0, lossEventsInRound := 0, maxDelivered := 0)
  }

  function RestartRoundEarly(m: Model): Model {
    NewRound(m).(endOfRound := m.lastSent)
  }

  function AdvanceFilter(m: Model): Model {
    if m.bandwidths.1 == 0 then m else m.(bandwidths := (m.bandwidths.1, 0))
  }

  predicate RoundEnds(m: Model, lastAcked: Option<nat>) {
    lastAcked.Some? && (m.endOfRound.None? || lastAcked.value > m.endOfRound.value)
  }

  function CountRound(m: Model, lastAcked: Option<nat>): Model {
    if RoundEnds(m, lastAcked) then m.(roundCount := m.roundCount + 1, endOfRound := m.lastSent) else m
  }

  /** Filters and counters fed by the sample. */
  function TakeSample(m: Model, x: Input): Model {
    var total := m.totalAcked + x.acked;
    var feed := x.acked != 0 && (!x.sample.appLimited || x.sample.maxBandwidth > MaxBandwidth(m));
    var better := x.sample.rtt != INT64_MAX && (x.sample.rtt < m.minRtt || m.minRttTime == 0);
    m.(totalAcked := total,
       bandwidths := if feed then (m.bandwidths.0, Max(x.sample.maxBandwidth, m.bandwidths.1)) else m.bandwidths,
       minRtt := if better then x.sample.rtt else m.minRtt,
       minRttTime := if better then x.time else m.minRttTime,
       lostInRound := m.lostInRound + x.lost,
       lossEventsInRound := if x.lost > 0 then m.lossEventsInRound + 1 else m.lossEventsInRound,
       maxDelivered := if x.acked > 0 && x.sample.last.isValid && total > x.sample.last.totalAcked
                       then Max(m.maxDelivered, total - x.sample.last.totalAcked) else m.maxDelivered,
       bandwidthLatest := Max(x.sample.maxBandwidth, m.bandwidthLatest),
       inflightLatest := Max(x.sample.maxInflight, m.inflightLatest))
  }

  function MakeEvent(m: Model, x: Input, priorCwnd: nat, probing: bool): Event {
    Event(x.time, priorCwnd,
          InFlightAfterEvent(x.priorInFlight, x.acked, x.lost),
          x.acked, x.lost, RoundEnds(m, x.lastAcked), x.sample.last.isValid && x.sample.last.appLimited,
          probing, x.sample.rtt, x.sample.last, x.ackHeight, x.randomRounds, x.randomWait)
  }

  /** `AdaptLowerBounds` in its default mode: short-term bounds are set only at the end of a
      round with losses, and never while probing for bandwidth. */
  function AdaptLowerBounds(m: Model, ev: Event): Model {
    if !ev.endOfRound || ev.probing || m.lostInRound == 0 then m else
      var lo := if m.bandwidthLo == INFINITE_BANDWIDTH then MaxBandwidth(m) else m.bandwidthLo;
      var inflight := if m.inflightLo == UNSET then ev.priorCwnd else m.inflightLo;
      m.(bandwidthLo := Max(m.bandwidthLatest, ScaleRate(lo, BETA_KEEP)),
         inflightLo := Max(m.inflightLatest, Scale(inflight, BETA_KEEP)))
  }

  function EndLatest(m: Model, x: Input, endOfRound: bool): Model {
    if !endOfRound then m else
      m.(bandwidthLatest := if x.sample.maxBandwidth != 0 then x.sample.maxBandwidth else m.bandwidthLatest,
         inflightLatest := if x.sample.maxInflight > 0 then x.sample.maxInflight else m.inflightLatest)
  }

  /** `OnCongestionEventStart`. */
  function EventStart(m: Model, x: Input, priorCwnd: nat, probing: bool): Model {
    var ev := MakeEvent(m, x, priorCwnd, probing);
    EndLatest(AdaptLowerBounds(TakeSample(CountRound(m, x.lastAcked), x), ev), x, ev.endOfRound)
  }

  /** `MaybeExpireMinRtt`. */
  predicate MinRttExpires(m: Model, ev: Event) {
    ev.time >= m.minRttTime + PROBE_RTT_PERIOD && ev.rtt != INT64_MAX
  }

  function ExpireMinRtt(m: Model, ev: Event): Model {
    if MinRttExpires(m, ev) then m.(minRtt := ev.rtt, minRttTime := ev.time) else m
  }

  function CapInflightLo(m: Model, cap: nat): Model {
    if m.inflightLo != UNSET && m.inflightLo > cap then m.(inflightLo := cap) else m
  }

  function ClearLowerBounds(m: Model): Model {
    m.(bandwidthLo := INFINITE_BANDWIDTH, inflightLo := UNSET)
  }

  // ---------------------------------------------------------------- bandwidth growth in STARTUP

  datatype Growth = AppLimited | NoGrowth | Growing | Exit

  /** `llround(1.25 * b)`. */
  function GrowthTarget(b: nat): nat {
    (5 * b + 2) / 4
  }

  function GrowthOf(m: Model, ev: Event): Growth {
    if ev.appLimited then AppLimited
    else if MaxBandwidth(m) >= GrowthTarget(m.baseline) then Growing
    else if m.roundsWithoutGrowth + 1 >= STARTUP_FULL_BW_ROUNDS then Exit
    else NoGrowth
  }

  /** `CheckBandwidthGrowth`. */
  function CheckGrowth(m: Model, ev: Event): Model {
    match GrowthOf(m, ev)
    case AppLimited => m
    case Growing => m.(baseline := MaxBandwidth(m), roundsWithoutGrowth := 0)
    case NoGrowth => m.(roundsWithoutGrowth := m.roundsWithoutGrowth + 1)
    case Exit => m.(roundsWithoutGrowth := m.roundsWithoutGrowth + 1, fullBandwidthReached := true)
  }

  /** Rounds that may still pass before STARTUP gives up, if bandwidth stays within `bound`. */
  function RoundsLeft(m: Model, bound: nat): int {
    STARTUP_FULL_BW_ROUNDS * (bound - m.baseline) + (STARTUP_FULL_BW_ROUNDS - m.roundsWithoutGrowth)
  }

  /** A round that is not app limited uses up allowance exactly unless bandwidth is stuck at a
      baseline of at most one bit per second, where the growth target rounds down to the
      baseline itself. */
  lemma GrowthUsesUpRounds(m: Model, ev: Event, bound: nat)
    requires !ev.appLimited && MaxBandwidth(m) <= bound
    requires m.roundsWithoutGrowth < STARTUP_FULL_BW_ROUNDS && m.baseline <= MaxBandwidth(m)
    ensures RoundsLeft(CheckGrowth(m, ev), bound) < RoundsLeft(m, bound)
       <==> !(MaxBandwidth(m) == m.baseline && m.baseline <= 1)
  {}
}
