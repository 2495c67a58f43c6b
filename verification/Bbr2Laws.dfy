/** What one congestion event of BBRv2 does, told from the event and the states before and after each turn of the mode
    loop: with the constants as numbers, divisions as inequalities, and each transition with its exact condition. */
module Bbr2Laws {
  import opened Base
  import opened Gains
  import opened Samples
  import opened Bbr2Model
  import opened Bbr2Modes
  import opened Bbr2Invariants
  import opened Bbr2Runs

  // ---------------------------------------------------------------- readings

  /** The bytes in flight that a send state stands for; when it does not say, the difference of its totals as an
      unsigned 64-bit word. */
  predicate IsInflight(n: nat, last: SendState) {
    var word, difference := 0x1_0000_0000_0000_0000, last.totalSent - last.totalAcked - last.totalLost;
    if last.bytesInFlight != 0 then n == last.bytesInFlight else
      && n < word
      && (0 <= difference < word ==> n == difference)
      && (-word <= difference < 0 ==> n == difference + word)
  }

  /** The estimate is the larger of two samples, unless losses have set a lower bound. */
  predicate EstimateLaw(m: Model) {
    LargerOf(MaxBandwidth(m), m.bandwidths.0, m.bandwidths.1)
    && SmallerOf(BandwidthEstimate(m), MaxBandwidth(m), m.bandwidthLo)
  }

  /** No more than one bandwidth-delay product is in flight, the maximum bandwidth being meant. */
  predicate WithinBdp(inFlight: int, m: Model) {
    8_000_000 * inFlight <= MaxBandwidth(m) * m.minRtt
  }

  /** At least `least` losses in the round and more bytes lost than the threshold allows of those in flight. */
  predicate TooManyLost(m: Model, ev: Event, sent: nat, least: nat, threshold: Gain) {
    && ev.last.isValid && m.lossEventsInRound >= least && sent > 0 && m.lostInRound > 0
    && threshold.den * m.lostInRound > threshold.num * sent
  }

  // ---------------------------------------------------------------- before the mode loop

  predicate EndsRound(m: Model, x: Input) {
    x.lastAcked.Some? && (m.endOfRound == None || m.endOfRound.value < x.lastAcked.value)
  }

  predicate IsProbing(s: Sender) {
    s.mode == STARTUP || (s.mode == PROBE_BW && s.cycle.phase in {REFILL, UP})
  }

  predicate EventLaw(s: Sender, x: Input, ev: Event) {
    && ev == Event(x.time, s.cwnd, ev.inFlight, x.acked, x.lost, EndsRound(s.model, x),
                   x.sample.last.isValid && x.sample.last.appLimited, IsProbing(s), x.sample.rtt, x.sample.last,
                   x.ackHeight, x.randomRounds, x.randomWait)
    && (x.acked + x.lost <= x.priorInFlight ==> ev.inFlight + x.acked + x.lost == x.priorInFlight)
    && (x.acked + x.lost > x.priorInFlight ==> ev.inFlight == 0)
  }

  predicate RoundLaw(m: Model, x: Input, n: Model) {
    && n.roundCount == (if EndsRound(m, x) then m.roundCount + 1 else m.roundCount)
    && n.endOfRound == (if EndsRound(m, x) then m.lastSent else m.endOfRound)
    && n.totalAcked == m.totalAcked + x.acked
    && n.lostInRound == m.lostInRound + x.lost
    && n.lossEventsInRound == (if x.lost > 0 then m.lossEventsInRound + 1 else m.lossEventsInRound)
    && (if x.acked > 0 && x.sample.last.isValid
        then LargerOf(n.maxDelivered, m.maxDelivered, n.totalAcked - x.sample.last.totalAcked)
        else n.maxDelivered == m.maxDelivered)
  }

  /** A sample that is not app limited, or beats the maximum, is fed to the current one of the two slots. */
  predicate BandwidthLaw(m: Model, x: Input, n: Model) {
    && n.bandwidths.0 == m.bandwidths.0
    && (if x.acked > 0 && (x.sample.appLimited ==> MaxBandwidth(m) < x.sample.maxBandwidth)
        then LargerOf(n.bandwidths.1, m.bandwidths.1, x.sample.maxBandwidth)
        else n.bandwidths.1 == m.bandwidths.1)
  }

  /** A smaller round trip replaces the minimum; so does any while the minimum has no time. */
  predicate MinRttLaw(m: Model, x: Input, n: Model) {
    if x.sample.rtt != INT64_MAX && (x.sample.rtt < m.minRtt || m.minRttTime == 0)
    then n.minRtt == x.sample.rtt && n.minRttTime == x.time
    else n.minRtt == m.minRtt && n.minRttTime == m.minRttTime
  }

  /** What was delivered lately: the largest so far, or this event's at the end of a round. */
  predicate LatestLaw(m: Model, x: Input, n: Model) {
    && (if EndsRound(m, x) && x.sample.maxBandwidth > 0 then n.bandwidthLatest == x.sample.maxBandwidth
        else LargerOf(n.bandwidthLatest, m.bandwidthLatest, x.sample.maxBandwidth))
    && (if EndsRound(m, x) && x.sample.maxInflight > 0 then n.inflightLatest == x.sample.maxInflight
        else LargerOf(n.inflightLatest, m.inflightLatest, x.sample.maxInflight))
  }

  /** A round with losses that was not probing for bandwidth takes three tenths off the lower bounds, but leaves what
      was delivered lately. */
  ghost predicate LowerBoundLaw(m: Model, x: Input, priorCwnd: nat, probing: bool, n: Model) {
    if EndsRound(m, x) && !probing && m.lostInRound + x.lost > 0 then
      && (exists kept: nat ::
            && IsNearest(kept, if m.bandwidthLo == INFINITE_BANDWIDTH then MaxBandwidth(n) else m.bandwidthLo, 7, 10)
            && LargestOf(n.bandwidthLo, kept, m.bandwidthLatest, x.sample.maxBandwidth))
      && (exists kept: nat ::
            && IsPart(kept, if m.inflightLo == UNSET then priorCwnd else m.inflightLo, 7, 10)
            && LargestOf(n.inflightLo, kept, m.inflightLatest, x.sample.maxInflight))
    else n.bandwidthLo == m.bandwidthLo && n.inflightLo == m.inflightLo
  }

  predicate OnlyFed(m: Model, n: Model) {
    n == m.(endOfRound := n.endOfRound, roundCount := n.roundCount, totalAcked := n.totalAcked,
            bandwidths := n.bandwidths, minRtt := n.minRtt, minRttTime := n.minRttTime, lostInRound := n.lostInRound,
            lossEventsInRound := n.lossEventsInRound, maxDelivered := n.maxDelivered,
            bandwidthLatest := n.bandwidthLatest, bandwidthLo := n.bandwidthLo, inflightLatest := n.inflightLatest,
            inflightLo := n.inflightLo)
  }

  /** The model takes the sample in; the history notes it. */
  ghost predicate StartLaw(s: Sender, x: Input, c: Sender) {
    && c == s.(model := c.model, history := c.history)
    && c.history == s.history.(now := x.time, credit := s.history.credit + x.acked, trips := c.history.trips)
    && c.history.trips == s.history.trips + (if x.sample.rtt == INT64_MAX then [] else [x.sample.rtt])
    && RoundLaw(s.model, x, c.model) && BandwidthLaw(s.model, x, c.model) && MinRttLaw(s.model, x, c.model)
    && LatestLaw(s.model, x, c.model) && LowerBoundLaw(s.model, x, s.cwnd, IsProbing(s), c.model)
    && OnlyFed(s.model, c.model)
  }

  // ---------------------------------------------------------------- PROBE_BW: bounds

  /** `kept` is seven tenths of what the sender aims to have in flight: one bandwidth-delay product, or the window. */
  ghost predicate IsKept(kept: nat, m: Model, cwnd: nat) {
    exists b: nat, target: nat ::
      IsBdp(b, BandwidthEstimate(m), m.minRtt) && SmallerOf(target, b, cwnd) && IsPart(kept, target, 7, 10)
  }

  /** The upper bound on inflight falls when a probe lost too much, and rises with what was in flight without that. */
  ghost predicate UpperBoundLaw(s: Sender, ev: Event, sent: nat, r: Sender) {
    var tooMany := TooManyLost(s.model, ev, sent, 30, s.params.lossThreshold);
    && r == s.(cycle := s.cycle.(isSampleFromProbing := s.cycle.isSampleFromProbing && !tooMany),
               model := s.model.(inflightHi := r.model.inflightHi))
    && (tooMany && s.cycle.isSampleFromProbing && !ev.last.appLimited ==>
          exists kept: nat :: IsKept(kept, s.model, s.cwnd) && LargerOf(r.model.inflightHi, sent, kept))
    && (tooMany && !(s.cycle.isSampleFromProbing && !ev.last.appLimited) ==> r.model.inflightHi == s.model.inflightHi)
    && (!tooMany ==>
          r.model.inflightHi
          == if ev.last.isValid && s.model.inflightHi != UNSET && sent > s.model.inflightHi then sent
             else s.model.inflightHi)
  }

  predicate ProbedTooMuch(s: Sender, ev: Event, sent: nat) {
    s.cycle.isSampleFromProbing && TooManyLost(s.model, ev, sent, 30, s.params.lossThreshold)
  }

  /** `perStep` is the window over two to the power of the rounds spent probing, but one segment or more. */
  ghost predicate IsSlope(perStep: nat, cwnd: nat, rounds: nat) {
    exists share: nat :: IsPart(share, cwnd, 1, Pow2(rounds)) && LargerOf(perStep, share, 1460)
  }

  ghost predicate SteeperLaw(s: Sender, r: Sender) {
    && r == s.(cycle := s.cycle.(probeUpRounds := r.cycle.probeUpRounds, probeUpBytes := r.cycle.probeUpBytes))
    && SmallerOf(r.cycle.probeUpRounds, s.cycle.probeUpRounds + 1, 30)
    && IsSlope(r.cycle.probeUpBytes, s.cwnd, s.cycle.probeUpRounds)
  }

  /** Whole steps of acked bytes become segments of the upper bound, and the rest is kept. */
  predicate SpentLaw(s: Sender, acked: nat, r: Sender) {
    && r == s.(cycle := s.cycle.(probeUpAcked := r.cycle.probeUpAcked),
               model := s.model.(inflightHi := r.model.inflightHi),
               history := s.history.(raised := r.history.raised))
    && r.cycle.probeUpAcked < s.cycle.probeUpBytes
    && r.model.inflightHi - s.model.inflightHi == r.history.raised - s.history.raised >= 0
    && 1460 * (s.cycle.probeUpAcked + acked - r.cycle.probeUpAcked)
       == s.cycle.probeUpBytes * (r.model.inflightHi - s.model.inflightHi)
  }

  /** Only a sender that used its whole window, and has a window as large as the bound, raises it. */
  ghost predicate UpwardLaw(s: Sender, ev: Event, r: Sender) {
    if ev.inFlight + ev.acked + ev.lost < ev.priorCwnd || ev.priorCwnd < s.model.inflightHi then r == s
    else if !ev.endOfRound then SpentLaw(s, ev.acked, r)
    else exists b :: SpentLaw(s, ev.acked, b) && SteeperLaw(b, r)
  }

  // ---------------------------------------------------------------- PROBE_BW: entering phases

  /** The newer of the two slots becomes the older, unless it is empty. */
  predicate AdvancedLaw(s: Sender, r: Sender) {
    && r == s.(model := s.model.(bandwidths := r.model.bandwidths), cycle := s.cycle.(hasAdvancedMaxBw := true),
               history := s.history.(advances := s.history.advances + 1))
    && r.model.bandwidths == if s.model.bandwidths.1 > 0 then (s.model.bandwidths.1, 0) else s.model.bandwidths
  }

  /** A visit to PROBE_DOWN that has not advanced the filter does so when it ends. */
  predicate LeftLaw(s: Sender, r: Sender) {
    if s.cycle.phase == DOWN && !s.cycle.hasAdvancedMaxBw then AdvancedLaw(s, r) else r == s
  }

  /** A new round with nothing lost or delivered in it yet. */
  function FreshRound(m: Model): Model {
    m.(endOfRound := m.lastSent, lostInRound := 0, lossEventsInRound := 0, maxDelivered := 0)
  }

  predicate DownLaw(s: Sender, tooHigh: bool, risky: bool, now: int, randomRounds: nat, randomWait: nat, r: Sender) {
    && r == s.(lastCycleProbedTooHigh := tooHigh, lastCycleStoppedRiskyProbe := risky, cycle := r.cycle,
               model := FreshRound(s.model), history := s.history.(downs := s.history.downs + 1))
    && r.cycle == s.cycle.(phase := DOWN, startTime := now, phaseStartTime := now, roundsInPhase := 0,
                           roundsSinceProbe := randomRounds, waitTime := 100_000 + randomWait,
                           probeUpBytes := UNSET, hasAdvancedMaxBw := false)
  }

  ghost predicate CruiseLaw(s: Sender, now: int, r: Sender) {
    exists l: Sender :: LeftLaw(s, l) &&
      r == l.(cycle := l.cycle.(phase := CRUISE, phaseStartTime := now, roundsInPhase := 0,
                                isSampleFromProbing := false),
              model := l.model.(inflightLo := if l.model.inflightLo == UNSET || l.model.inflightLo <= l.model.inflightHi
                                              then l.model.inflightLo else l.model.inflightHi))
  }

  ghost predicate RefillLaw(s: Sender, rounds: nat, now: int, r: Sender) {
    exists l: Sender :: LeftLaw(s, l) &&
      r == l.(cycle := l.cycle.(phase := REFILL, phaseStartTime := now, roundsInPhase := 0,
                                isSampleFromProbing := false, probeUpRounds := rounds, probeUpAcked := 0),
              lastCycleStoppedRiskyProbe := false,
              model := FreshRound(l.model).(bandwidthLo := INFINITE_BANDWIDTH, inflightLo := UNSET),
              history := l.history.(raised := 0, credit := 0))
  }

  ghost predicate UpLaw(s: Sender, now: int, r: Sender) {
    exists b: Sender :: SteeperLaw(s, b) &&
      r == b.(cycle := b.cycle.(phase := UP, phaseStartTime := now, roundsInPhase := 0, isSampleFromProbing := true),
              model := FreshRound(b.model))
  }

  // ---------------------------------------------------------------- PROBE_BW: phases

  predicate CountedLaw(s: Sender, ev: Event, r: Sender) {
    var inPhase, sinceProbe := s.cycle.roundsInPhase, s.cycle.roundsSinceProbe;
    && r == s.(cycle := s.cycle.(roundsInPhase := r.cycle.roundsInPhase,
                                 roundsSinceProbe := r.cycle.roundsSinceProbe))
    && r.cycle.roundsInPhase == (if ev.endOfRound && s.cycle.phaseStartTime < ev.time then inPhase + 1 else inPhase)
    && r.cycle.roundsSinceProbe
       == (if ev.endOfRound && s.cycle.startTime != ev.time then sinceProbe + 1 else sinceProbe)
  }

  /** The wait is over, 63 rounds have gone by, or as many as the segments in flight. */
  predicate ProbeIsDue(s: Sender, ev: Event) {
    var rounds := s.cycle.roundsSinceProbe;
    || s.cycle.startTime + s.cycle.waitTime < ev.time
    || rounds >= 63
    || 1460 * (rounds + 1) > s.cwnd
    || 8_000_000 * 1460 * (rounds + 1) > BandwidthEstimate(s.model) * s.model.minRtt
  }

  /** PROBE_DOWN is over when it has lasted a round trip, or left seven tenths of the upper bound in flight and less
      than a bandwidth-delay product. */
  predicate DownIsOver(s: Sender, ev: Event) {
    || s.cycle.phaseStartTime + s.model.minRtt < ev.time
    || (10 * (ev.inFlight - 1) < 7 * s.model.inflightHi && WithinBdp(ev.inFlight + 1, s.model))
  }

  ghost predicate DrainLaw(s: Sender, ev: Event, sent: nat, r: Sender) {
    exists a :: UpperBoundLaw(s, ev, sent, a) &&
      if ProbeIsDue(a, ev) then RefillLaw(a, 0, ev.time, r)
      else if DownIsOver(a, ev) then CruiseLaw(a, ev.time, r)
      else r == a
  }

  /** The first round of PROBE_DOWN ends the probe: its samples are no longer the probe's, and the filter advances. */
  predicate FirstRoundLaw(s: Sender, ev: Event, r: Sender) {
    var b := s.(cycle := s.cycle.(isSampleFromProbing := false));
    if ev.appLimited then r == b else AdvancedLaw(b, r)
  }

  ghost predicate DownStepLaw(s: Sender, ev: Event, sent: nat, r: Sender) {
    if !(ev.endOfRound && s.cycle.roundsInPhase == 1) then DrainLaw(s, ev, sent, r) else
      exists b :: FirstRoundLaw(s, ev, b) &&
        if s.lastCycleStoppedRiskyProbe && !s.lastCycleProbedTooHigh then RefillLaw(b, 0, ev.time, r)
        else DrainLaw(b, ev, sent, r)
  }

  ghost predicate CruiseStepLaw(s: Sender, ev: Event, sent: nat, r: Sender) {
    exists a :: UpperBoundLaw(s, ev, sent, a) && if ProbeIsDue(a, ev) then RefillLaw(a, 0, ev.time, r) else r == a
  }

  /** PROBE_REFILL lasts until the end of a round that began after it was entered. */
  ghost predicate RefillStepLaw(s: Sender, ev: Event, sent: nat, r: Sender) {
    exists a :: UpperBoundLaw(s, ev, sent, a) &&
      if ev.endOfRound && a.cycle.roundsInPhase >= 1 then UpLaw(a, ev.time, r) else r == a
  }

  /** Filling the pipe beyond a bound that was found too high is risky; a queue of two segments beyond the extra acks, a
      round after PROBE_UP began, has been built. */
  predicate IsRisky(s: Sender, priorInFlight: nat) {
    s.lastCycleProbedTooHigh && s.model.inflightHi <= priorInFlight
  }

  predicate HasQueue(s: Sender, ev: Event) {
    s.cycle.roundsInPhase >= 1
    && (2920 + ev.ackHeight < 0x1_0000_0000_0000_0000 ==> 2920 + ev.ackHeight <= ev.inFlight)
    && (2920 + ev.ackHeight >= 0x1_0000_0000_0000_0000 ==>
          (2920 + ev.ackHeight) % 0x1_0000_0000_0000_0000 <= ev.inFlight)
  }

  ghost predicate UpStepLaw(s: Sender, ev: Event, sent: nat, priorInFlight: nat, r: Sender) {
    exists a :: UpperBoundLaw(s, ev, sent, a) &&
      if ProbedTooMuch(s, ev, sent) then DownLaw(a, true, false, ev.time, ev.randomRounds, ev.randomWait, r) else
        exists b :: UpwardLaw(a, ev, b) &&
          if IsRisky(b, priorInFlight) || HasQueue(b, ev)
          then DownLaw(b, false, IsRisky(b, priorInFlight), ev.time, ev.randomRounds, ev.randomWait, r)
          else r == b
  }

  ghost predicate PhaseLaw(s: Sender, ev: Event, sent: nat, priorInFlight: nat, r: Sender) {
    match s.cycle.phase
    case UP => UpStepLaw(s, ev, sent, priorInFlight, r)
    case DOWN => DownStepLaw(s, ev, sent, r)
    case CRUISE => CruiseStepLaw(s, ev, sent, r)
    case REFILL => RefillStepLaw(s, ev, sent, r)
    case NOT_STARTED => r == s
  }

  // ---------------------------------------------------------------- turns of the mode loop

  /** The pacing gain of each phase: above 1 to probe, below 1 to drain, and 1 otherwise. */
  predicate PacesByPhase(s: Sender) {
    s.model.pacingGain == match s.cycle.phase case UP => Ratio(5, 4) case DOWN => Ratio(3, 4) case _ => Ratio(1, 1)
  }

  /** PROBE_RTT is proposed as PROBE_DOWN ends with a minimum of 200 ms or more and a round trip to replace it. */
  predicate Expires(c: Sender, ev: Event, p: Sender) {
    c.cycle.phase == DOWN && p.cycle.phase != DOWN && p.model.minRttTime + 200_000 <= ev.time && ev.rtt != INT64_MAX
  }

  ghost predicate ProbeBwTurn(s: Sender, ev: Event, sent: nat, priorInFlight: nat, r: Sender, next: Mode) {
    exists c, p :: CountedLaw(s, ev, c) && PhaseLaw(c, ev, sent, priorInFlight, p) &&
      if Expires(c, ev, p)
      then next == PROBE_RTT && r == p.(model := p.model.(minRtt := ev.rtt, minRttTime := ev.time))
      else
        && next == PROBE_BW && PacesByPhase(r)
        && r == p.(model := p.model.(pacingGain := r.model.pacingGain, cwndGain := Ratio(2, 1)))
  }

  /** STARTUP ends with three rounds without growth of bandwidth by a quarter, or with a round of too many losses. */
  ghost predicate StartupTurn(s: Sender, ev: Event, sent: nat, r: Sender, next: Mode) {
    var checked := ev.endOfRound && !ev.appLimited;
    var grown := 4 * MaxBandwidth(s.model) + 2 > 5 * s.model.baseline;
    var stuck := checked && !grown && s.model.roundsWithoutGrowth >= 2;
    var lossy := checked && !grown && TooManyLost(s.model, ev, sent, 20, s.params.lossThreshold);
    && next == (if stuck || lossy then DRAIN else STARTUP)
    && r == s.(model := s.model.(fullBandwidthReached := stuck || lossy, baseline := r.model.baseline,
                                 roundsWithoutGrowth := r.model.roundsWithoutGrowth, inflightHi := r.model.inflightHi))
    && r.model.baseline == (if checked && grown then MaxBandwidth(s.model) else s.model.baseline)
    && r.model.roundsWithoutGrowth == (if !checked then s.model.roundsWithoutGrowth
                                       else if grown then 0 else s.model.roundsWithoutGrowth + 1)
    && (lossy && !stuck ==>
          exists b: nat :: IsBdp(b, MaxBandwidth(s.model), s.model.minRtt)
                           && LargerOf(r.model.inflightHi, b, s.model.maxDelivered))
    && (!lossy || stuck ==> r.model.inflightHi == s.model.inflightHi)
  }

  /** DRAIN ends when no more than one bandwidth-delay product, or the smallest window, is in flight. */
  predicate DrainTurn(s: Sender, ev: Event, r: Sender, next: Mode) {
    && r == s.(model := s.model.(pacingGain := Ratio(1000, 2885), cwndGain := Ratio(2, 1)))
    && next == if ev.inFlight <= s.params.minCwnd || WithinBdp(ev.inFlight, s.model) then PROBE_BW else DRAIN
  }

  /** PROBE_RTT ends 200 ms after half a bandwidth-delay product, or the smallest window, was in flight. */
  predicate ProbeRttTurn(s: Sender, ev: Event, r: Sender, next: Mode) {
    && r == s.(exitTime := r.exitTime)
    && (s.exitTime == 0 ==>
          && next == PROBE_RTT
          && r.exitTime == if ev.inFlight <= s.params.minCwnd || WithinBdp(2 * ev.inFlight, s.model)
                           then ev.time + 200_000 else 0)
    && (s.exitTime != 0 ==> r.exitTime == s.exitTime && (next == PROBE_BW <==> s.exitTime < ev.time)
                            && (next == PROBE_RTT <==> ev.time <= s.exitTime))
  }

  ghost predicate TurnLaw(s: Sender, ev: Event, sent: nat, priorInFlight: nat, r: Sender, next: Mode) {
    match s.mode
    case STARTUP => StartupTurn(s, ev, sent, r, next)
    case DRAIN => DrainTurn(s, ev, r, next)
    case PROBE_BW => ProbeBwTurn(s, ev, sent, priorInFlight, r, next)
    case PROBE_RTT => ProbeRttTurn(s, ev, r, next)
  }

  /** Leaving STARTUP drops the lower bound on bandwidth; PROBE_BW begins with PROBE_DOWN, or with the phase it gave way
      in; PROBE_RTT has no gains and no time to end yet. */
  ghost predicate SwitchLaw(s: Sender, next: Mode, now: int, randomRounds: nat, randomWait: nat, r: Sender) {
    var left := s.(mode := next,
                   model := s.model.(bandwidthLo :=
                     if s.mode == STARTUP then INFINITE_BANDWIDTH else s.model.bandwidthLo));
    var again := left.(cycle := left.cycle.(startTime := now));
    match next
    case PROBE_RTT =>
      r == left.(model := left.model.(pacingGain := Ratio(1, 1), cwndGain := Ratio(1, 1)), exitTime := 0)
    case PROBE_BW =>
      (match s.cycle.phase
       case NOT_STARTED => DownLaw(left, false, false, now, randomRounds, randomWait, r)
       case CRUISE => CruiseLaw(again, now, r)
       case REFILL => RefillLaw(again, s.cycle.probeUpRounds, now, r)
       case _ => r == again)
    case _ => r == left
  }

  /** `t` is where at most `changes` changes of mode lead: the first mode that proposes itself. */
  ghost predicate LoopLaw(s: Sender, ev: Event, sent: nat, priorInFlight: nat, t: Sender, changes: nat)
    decreases changes
  {
    exists r, next :: TurnLaw(s, ev, sent, priorInFlight, r, next) &&
      if next == s.mode then t == r else
        changes > 0 && exists u ::
          && SwitchLaw(r, next, ev.time, ev.randomRounds, ev.randomWait, u)
          && LoopLaw(u, ev, sent, priorInFlight, t, changes - 1)
  }

  // ---------------------------------------------------------------- after the mode loop

  /** `rate` is the whole number of bits per second, but not 0, at which the bytes go out in one round trip. */
  predicate IsRate(rate: nat, bytes: nat, time: int) {
    && 8_000_000 * bytes < (rate + 1) * time
    && (rate * time <= 8_000_000 * bytes || (rate == 1 && 0 < 8_000_000 * bytes < time))
  }

  /** The rate is the estimate times the gain, and does not fall before full bandwidth; the first ack sets it from the
      window. */
  ghost predicate RateLaw(s: Sender, acked: nat, rate: nat) {
    var estimate, gain := BandwidthEstimate(s.model), s.model.pacingGain;
    if estimate == 0 then rate == s.pacingRate
    else if s.model.totalAcked == acked then IsRate(rate, s.cwnd, s.model.minRtt)
    else if s.model.fullBandwidthReached then IsNearest(rate, estimate, gain.num, gain.den)
    else exists y: nat :: IsNearest(y, estimate, gain.num, gain.den) && LargerOf(rate, s.pacingRate, y)
  }

  /** `w` is the window that the gain calls for, with the smallest window as the least. */
  ghost predicate IsWindow(w: nat, m: Model, minCwnd: nat) {
    exists b: nat, v: nat ::
      && IsBdp(b, BandwidthEstimate(m), m.minRtt) && IsPart(v, b, m.cwndGain.num, m.cwndGain.den)
         && LargerOf(w, v, minCwnd)
  }

  /** `h` is seven tenths of the upper bound, rounded up. */
  predicate IsHeadroom(h: nat, hi: nat) {
    10 * h - 10 < 7 * hi <= 10 * h
  }

  /** `limit` is what the mode allows: the bounds on inflight that it goes by. */
  ghost predicate IsLimit(limit: nat, s: Sender) {
    match s.mode
    case PROBE_BW =>
      if s.cycle.phase == CRUISE
      then exists h: nat :: IsHeadroom(h, s.model.inflightHi) && SmallerOf(limit, s.model.inflightLo, h)
      else SmallerOf(limit, s.model.inflightLo, s.model.inflightHi)
    case PROBE_RTT =>
      exists h: nat, b: nat, half: nat ::
        && IsHeadroom(h, s.model.inflightHi) && IsBdp(b, MaxBandwidth(s.model), s.model.minRtt) && IsPart(half, b, 1, 2)
        && SmallestOf(limit, s.model.inflightLo, h, half)
    case _ => limit == s.model.inflightLo
  }

  predicate SmallestOf(smallest: int, a: int, b: int, c: int) {
    (smallest == a || smallest == b || smallest == c) && smallest <= a && smallest <= b && smallest <= c
  }

  /** The window grows by the bytes acked: at full bandwidth up to the target and the extra acks, before as long as it
      is below the target or two initial windows. */
  ghost predicate CwndLaw(s: Sender, acked: nat, ackHeight: nat, cwnd: nat) {
    exists target: nat, limit: nat ::
      && IsWindow(target, s.model, s.params.minCwnd) && IsLimit(limit, s)
      && var grown := if s.model.fullBandwidthReached then Min(s.cwnd + acked, Wrapped(target + ackHeight))
                      else if s.cwnd < target || s.cwnd < 2 * s.params.initialCwnd then s.cwnd + acked
                      else s.cwnd;
         Clamped(cwnd, Min(grown, limit), s.params.minCwnd, s.params.maxCwnd)
  }

  /** An unsigned 64-bit word. */
  function Wrapped(n: nat): nat {
    if n < 0x1_0000_0000_0000_0000 then n else n % 0x1_0000_0000_0000_0000
  }

  ghost predicate FinishLaw(s: Sender, ev: Event, t: Sender) {
    && RateLaw(s, ev.acked, t.pacingRate) && CwndLaw(s, ev.acked, ev.ackHeight, t.cwnd)
    && t == s.(pacingRate := t.pacingRate, cwnd := t.cwnd,
               quiescenceStart := if ev.inFlight == 0 then ev.time else s.quiescenceStart,
               model := if ev.endOfRound then s.model.(lostInRound := 0, lossEventsInRound := 0, maxDelivered := 0)
                        else s.model)
  }

  // ---------------------------------------------------------------- whole events and packets sent

  /** An event: the sample is taken in, the mode loop settles within three changes, rate and window follow. */
  ghost predicate Obeys(s: Sender, x: Input, t: Sender) {
    && EstimateLaw(t.model)
    && exists c, ev, sent: nat, u :: Via(s, x, c, ev, sent, u) && FinishLaw(u, ev, t)
  }

  ghost predicate Via(s: Sender, x: Input, c: Sender, ev: Event, sent: nat, u: Sender) {
    && StartLaw(s, x, c) && EventLaw(s, x, ev) && IsInflight(sent, ev.last)
    && EstimateLaw(s.model) && EstimateLaw(c.model) && EstimateLaw(u.model)
    && LoopLaw(c, ev, sent, x.priorInFlight, u, 3)
  }

  /** Sending after quiescence: PROBE_BW puts off the end of the minimum by as long as nothing was in flight, and
      PROBE_RTT ends once its time is past. */
  ghost predicate SentLaw(s: Sender, time: int, number: nat, inFlight: nat, t: Sender) {
    var now := s.(history := s.history.(now := time));
    exists u: Sender :: t == u.(model := u.model.(lastSent := Some(number))) &&
      if inFlight != 0 || s.quiescenceStart == 0 then u == now
      else if s.mode == PROBE_BW then
        u == now.(quiescenceStart := 0,
                  model := s.model.(minRttTime := if s.quiescenceStart < time
                                                  then s.model.minRttTime + (time - s.quiescenceStart)
                                                  else s.model.minRttTime))
      else if s.mode == PROBE_RTT && s.exitTime < time then
        exists v :: SwitchLaw(now, PROBE_BW, time, 0, 0, v) && u == v.(quiescenceStart := 0)
      else u == now.(quiescenceStart := 0)
  }

  // ---------------------------------------------------------------- the sample is taken in

  lemma InflightIs(last: SendState)
    ensures IsInflight(SentInFlight(last), last)
  {
  }

  lemma EstimateIs(m: Model)
    ensures EstimateLaw(m)
  {
  }

  lemma BdpIs(m: Model, bandwidth: nat)
    ensures IsBdp(Bdp(m, bandwidth), bandwidth, m.minRtt)
  {
    if m.minRtt >= 0 {
      EightMillionths(bandwidth * m.minRtt);
    }
  }

  lemma TooManyLostIs(m: Model, ev: Event, least: nat, threshold: Gain)
    ensures IsInflightTooHigh(m, ev, least, threshold) <==> TooManyLost(m, ev, SentInFlight(ev.last), least, threshold)
  {
    hide SentInFlight;
    var sent := SentInFlight(ev.last);
    ScaleIs(sent, threshold);
    Exceeds(m.lostInRound, Scale(sent, threshold), threshold.num * sent, threshold.den);
  }

  /** A whole number is above the whole part of a quotient exactly when it is above the quotient. */
  lemma Exceeds(n: nat, part: nat, a: nat, den: nat)
    requires den > 0 && den * part <= a < den * (part + 1)
    ensures n > part <==> den * n > a
  {
    if n > part {
      assert den * n >= den * (part + 1);
    } else {
      assert den * n <= den * part;
    }
  }

  lemma StartRoundObeys(s: Sender, x: Input)
    ensures RoundLaw(s.model, x, Started(s, x).model) && BandwidthLaw(s.model, x, Started(s, x).model)
    ensures MinRttLaw(s.model, x, Started(s, x).model)
  {
    hide Scale; hide ScaleRate;
  }

  lemma StartLatestObeys(s: Sender, x: Input)
    ensures LatestLaw(s.model, x, Started(s, x).model) && OnlyFed(s.model, Started(s, x).model)
  {
    hide Scale; hide ScaleRate;
  }

  lemma StartBoundsObey(s: Sender, x: Input)
    ensures LowerBoundLaw(s.model, x, s.cwnd, IsProbing(s), Started(s, x).model)
  {
    hide Scale; hide ScaleRate; hide IsPart; hide IsNearest; hide TakeSample; hide MaxBandwidth;
    var m, ev := TakeSample(CountRound(s.model, x.lastAcked), x), EventFor(s, x);
    LatestIs(CountRound(s.model, x.lastAcked), x);
    EndKeepsBandwidth(m, ev, x);
    var rate := if s.model.bandwidthLo == INFINITE_BANDWIDTH then MaxBandwidth(m) else s.model.bandwidthLo;
    var bytes := if s.model.inflightLo == UNSET then s.cwnd else s.model.inflightLo;
    ScaleRateIs(rate, BETA_KEEP);
    ScaleIs(bytes, BETA_KEEP);
    if EndsRound(s.model, x) && !IsProbing(s) && s.model.lostInRound + x.lost > 0 {
      var n := Started(s, x).model;
      assert LargestOf(n.bandwidthLo, ScaleRate(rate, BETA_KEEP), s.model.bandwidthLatest, x.sample.maxBandwidth);
      assert LargestOf(n.inflightLo, Scale(bytes, BETA_KEEP), s.model.inflightLatest, x.sample.maxInflight);
    }
  }

  lemma EndKeepsBandwidth(m: Model, ev: Event, x: Input)
    ensures MaxBandwidth(EndLatest(AdaptLowerBounds(m, ev), x, ev.endOfRound)) == MaxBandwidth(m)
  {
    hide Scale; hide ScaleRate;
  }

  lemma LatestIs(m: Model, x: Input)
    ensures var n := TakeSample(m, x);
            && n.bandwidthLatest == Max(x.sample.maxBandwidth, m.bandwidthLatest)
            && n.inflightLatest == Max(x.sample.maxInflight, m.inflightLatest)
            && n.lostInRound == m.lostInRound + x.lost && n.bandwidthLo == m.bandwidthLo && n.inflightLo == m.inflightLo
  {
  }

  lemma StartObeys(s: Sender, x: Input)
    ensures StartLaw(s, x, Started(s, x)) && EventLaw(s, x, EventFor(s, x))
  {
    hide EventStart; hide RoundLaw; hide BandwidthLaw; hide MinRttLaw; hide LatestLaw; hide LowerBoundLaw; hide OnlyFed;
    StartRoundObeys(s, x);
    StartLatestObeys(s, x);
    StartBoundsObey(s, x);
  }

  // ---------------------------------------------------------------- phases

  lemma KeptIs(m: Model, cwnd: nat)
    ensures IsKept(Scale(TargetInflight(m, cwnd), BETA_KEEP), m, cwnd)
  {
    hide Scale; hide Bdp; hide IsBdp; hide IsPart; hide BandwidthEstimate;
    BdpIs(m, BandwidthEstimate(m));
    ScaleIs(TargetInflight(m, cwnd), BETA_KEEP);
  }

  lemma UpperBoundObeys(s: Sender, ev: Event)
    ensures UpperBoundLaw(s, ev, SentInFlight(ev.last), AdaptUpperBounds(s, ev))
  {
    hide IsInflightTooHigh; hide TooManyLost; hide Scale; hide TargetInflight; hide SentInFlight; hide IsKept;
    TooManyLostIs(s.model, ev, 30, s.params.lossThreshold);
    TooManyNeedsSample(s.model, ev, SentInFlight(ev.last), 30, s.params.lossThreshold);
    KeptIs(s.model, s.cwnd);
  }

  lemma TooManyNeedsSample(m: Model, ev: Event, sent: nat, least: nat, threshold: Gain)
    ensures TooManyLost(m, ev, sent, least, threshold) ==> ev.last.isValid
  {
  }

  lemma SlopeObeys(s: Sender)
    ensures SteeperLaw(s, RaisedSlope(s))
  {
    hide Pow2; hide IsPart;
    ShareIs(s.cwnd, Pow2(s.cycle.probeUpRounds));
  }

  lemma ShareIs(a: nat, b: nat)
    requires b > 0
    ensures IsPart(a / b, a, 1, b)
  {
    WholePart(a, b);
  }

  lemma LeftObeys(s: Sender)
    ensures LeftLaw(s, LeftDown(s))
  {
  }

  lemma DownObeys(s: Sender, tooHigh: bool, risky: bool, now: int, randomRounds: nat, randomWait: nat)
    ensures DownLaw(s, tooHigh, risky, now, randomRounds, randomWait,
                    EnterDown(s, tooHigh, risky, now, randomRounds, randomWait))
  {
  }

  lemma CruiseObeys(s: Sender, now: int)
    ensures CruiseLaw(s, now, EnterCruise(s, now))
  {
    hide LeftDown; hide LeftLaw;
    LeftObeys(s);
  }

  lemma RefillObeys(s: Sender, rounds: nat, now: int)
    ensures RefillLaw(s, rounds, now, EnterRefill(s, rounds, now))
  {
    hide LeftDown; hide LeftLaw;
    LeftObeys(s);
  }

  lemma UpObeys(s: Sender, now: int)
    ensures UpLaw(s, now, EnterUp(s, now))
  {
    hide Pow2; hide SteeperLaw;
    SlopeObeys(s);
    var b := RaisedSlope(s);
    assert SteeperLaw(s, b);
  }

  lemma SpentObeys(s: Sender, ev: Event)
    requires Slopes(s)
    ensures var acked := s.cycle.probeUpAcked + ev.acked;
            var delta := acked / s.cycle.probeUpBytes;
            SpentLaw(s, ev.acked, s.(cycle := s.cycle.(probeUpAcked := acked % s.cycle.probeUpBytes),
                                     model := s.model.(inflightHi := s.model.inflightHi + delta * MSS),
                                     history := s.history.(raised := s.history.raised + delta * MSS)))
  {
    var acked, perStep := s.cycle.probeUpAcked + ev.acked, s.cycle.probeUpBytes;
    StepsPay(acked, perStep);
  }

  lemma StepsPay(acked: nat, perStep: nat)
    requires perStep > 0
    ensures acked % perStep < perStep && 1460 * (acked - acked % perStep) == perStep * (acked / perStep * MSS)
    ensures acked / perStep * MSS >= 0
  {
    assert acked - acked % perStep == perStep * (acked / perStep);
  }

  lemma UpwardObeys(s: Sender, ev: Event)
    requires Slopes(s)
    ensures UpwardLaw(s, ev, ProbeUpward(s, ev))
  {
    hide SpentLaw; hide SteeperLaw; hide RaisedSlope;
    SpentObeys(s, ev);
    var acked := s.cycle.probeUpAcked + ev.acked;
    var delta := acked / s.cycle.probeUpBytes;
    var b := s.(cycle := s.cycle.(probeUpAcked := acked % s.cycle.probeUpBytes),
                model := s.model.(inflightHi := s.model.inflightHi + delta * MSS),
                history := s.history.(raised := s.history.raised + delta * MSS));
    SlopeObeys(b);
  }

  lemma CountedObeys(s: Sender, ev: Event)
    requires s.cycle.phaseStartTime <= ev.time
    ensures CountedLaw(s, ev, CountedRounds(s, ev))
  {
  }

  lemma DueIs(s: Sender, ev: Event)
    requires s.model.minRtt > 0
    ensures IsTimeToProbe(s.model, s.cycle, s.cwnd, ev) <==> ProbeIsDue(s, ev)
  {
    hide Bdp; hide BandwidthEstimate;
    var rounds := s.cycle.roundsSinceProbe;
    var b := Bdp(s.model, BandwidthEstimate(s.model));
    BdpIs(s.model, BandwidthEstimate(s.model));
    assert TargetInflight(s.model, s.cwnd) / 1460 <= rounds
      <==> 1460 * (rounds + 1) > s.cwnd || 1460 * (rounds + 1) > b;
  }

  lemma DownOverIs(s: Sender, ev: Event)
    requires s.model.minRtt > 0
    ensures ev.time - s.cycle.phaseStartTime > s.model.minRtt
            || (ev.inFlight <= HiWithHeadroom(s.model) && ev.inFlight < Bdp(s.model, MaxBandwidth(s.model)))
       <==> DownIsOver(s, ev)
  {
    hide Bdp; hide MaxBandwidth; hide HiWithHeadroom;
    BdpIs(s.model, MaxBandwidth(s.model));
    HeadroomIs(s.model);
  }

  lemma HeadroomIs(m: Model)
    ensures IsHeadroom(HiWithHeadroom(m), m.inflightHi)
  {
  }

  lemma DrainObeys(s: Sender, ev: Event)
    requires s.model.minRtt > 0
    ensures DrainLaw(s, ev, SentInFlight(ev.last), DrainDown(s, ev))
  {
    hide AdaptUpperBounds; hide UpperBoundLaw; hide IsTimeToProbe; hide ProbeIsDue; hide EnterRefill; hide EnterCruise;
    hide RefillLaw; hide CruiseLaw; hide DownIsOver; hide HiWithHeadroom; hide Bdp; hide SentInFlight;
    var a := AdaptUpperBounds(s, ev);
    UpperBoundObeys(s, ev);
    AdaptUpperBoundsChanges(s, ev);
    DueIs(a, ev);
    DownOverIs(a, ev);
    RefillObeys(a, 0, ev.time);
    CruiseObeys(a, ev.time);
  }

  lemma FirstRoundObeys(s: Sender, ev: Event)
    ensures FirstRoundLaw(s, ev, FirstRound(s, ev)) && FirstRound(s, ev).model.minRtt == s.model.minRtt
  {
  }

  lemma FirstRoundKeepsFlags(s: Sender, ev: Event)
    ensures FirstRound(s, ev).lastCycleStoppedRiskyProbe == s.lastCycleStoppedRiskyProbe
    ensures FirstRound(s, ev).lastCycleProbedTooHigh == s.lastCycleProbedTooHigh
  {
  }

  lemma DownStepObeys(s: Sender, ev: Event)
    requires s.model.minRtt > 0
    ensures DownStepLaw(s, ev, SentInFlight(ev.last), UpdateDown(s, ev))
  {
    hide DrainDown; hide DrainLaw; hide FirstRound; hide FirstRoundLaw; hide EnterRefill; hide RefillLaw;
    hide SentInFlight;
    var b := FirstRound(s, ev);
    FirstRoundObeys(s, ev);
    FirstRoundKeepsFlags(s, ev);
    DrainObeys(s, ev);
    DrainObeys(b, ev);
    RefillObeys(b, 0, ev.time);
  }

  lemma CruiseStepObeys(s: Sender, ev: Event)
    requires s.model.minRtt > 0
    ensures CruiseStepLaw(s, ev, SentInFlight(ev.last), UpdateCruise(s, ev))
  {
    hide AdaptUpperBounds; hide UpperBoundLaw; hide IsTimeToProbe; hide ProbeIsDue; hide EnterRefill; hide RefillLaw;
    hide SentInFlight;
    var a := AdaptUpperBounds(s, ev);
    UpperBoundObeys(s, ev);
    AdaptUpperBoundsChanges(s, ev);
    DueIs(a, ev);
    RefillObeys(a, 0, ev.time);
  }

  lemma RefillStepObeys(s: Sender, ev: Event)
    ensures RefillStepLaw(s, ev, SentInFlight(ev.last), UpdateRefill(s, ev))
  {
    hide AdaptUpperBounds; hide UpperBoundLaw; hide EnterUp; hide UpLaw; hide SentInFlight;
    var a := AdaptUpperBounds(s, ev);
    UpperBoundObeys(s, ev);
    UpObeys(a, ev.time);
  }

  lemma ProbedTooMuchIs(s: Sender, ev: Event)
    ensures ProbedTooHigh(s, ev) <==> ProbedTooMuch(s, ev, SentInFlight(ev.last))
  {
    hide IsInflightTooHigh; hide TooManyLost; hide SentInFlight;
    TooManyLostIs(s.model, ev, 30, s.params.lossThreshold);
    TooManyNeedsSample(s.model, ev, SentInFlight(ev.last), 30, s.params.lossThreshold);
  }

  lemma UpStepObeys(s: Sender, ev: Event, priorInFlight: nat)
    requires Slopes(s)
    ensures UpStepLaw(s, ev, SentInFlight(ev.last), priorInFlight, UpdateUp(s, ev, priorInFlight))
  {
    hide AdaptUpperBounds; hide UpperBoundLaw; hide ProbedTooHigh; hide ProbedTooMuch; hide EnterDown; hide DownLaw;
    hide ProbeUpward; hide UpwardLaw; hide SentInFlight;
    var sent, a := SentInFlight(ev.last), AdaptUpperBounds(s, ev);
    UpperBoundObeys(s, ev);
    AdaptUpperBoundsChanges(s, ev);
    ProbedTooMuchIs(s, ev);
    DownObeys(a, true, false, ev.time, ev.randomRounds, ev.randomWait);
    var b := ProbeUpward(a, ev);
    UpwardObeys(a, ev);
    DownObeys(b, false, IsRisky(b, priorInFlight), ev.time, ev.randomRounds, ev.randomWait);
  }

  lemma PhaseObeys(s: Sender, ev: Event, priorInFlight: nat)
    requires Slopes(s) && s.model.minRtt > 0
    ensures PhaseLaw(s, ev, SentInFlight(ev.last), priorInFlight, PhaseStep(s, ev, priorInFlight))
  {
    hide UpdateUp; hide UpdateDown; hide UpdateCruise; hide UpdateRefill; hide SentInFlight;
    hide UpStepLaw; hide DownStepLaw; hide CruiseStepLaw; hide RefillStepLaw;
    match s.cycle.phase {
      case UP => UpStepObeys(s, ev, priorInFlight);
      case DOWN => DownStepObeys(s, ev);
      case CRUISE => CruiseStepObeys(s, ev);
      case REFILL => RefillStepObeys(s, ev);
      case NOT_STARTED =>
    }
  }

  // ---------------------------------------------------------------- turns

  lemma ProbeBwObeys(s: Sender, ev: Event, priorInFlight: nat)
    requires LoopInv(s) && Timely(s, ev)
    ensures var (r, next) := ProbeBwEvent(s, ev, priorInFlight);
            ProbeBwTurn(s, ev, SentInFlight(ev.last), priorInFlight, r, next)
  {
    hide CountedRounds; hide CountedLaw; hide PhaseStep; hide PhaseLaw; hide SentInFlight;
    CountedRoundsKeeps(s, ev);
    CountedObeys(s, ev);
    PhaseObeys(CountedRounds(s, ev), ev, priorInFlight);
  }

  lemma StartupObeys(s: Sender, ev: Event)
    requires LoopInv(s) && s.mode == STARTUP
    ensures var (r, next) := StartupEvent(s, ev); StartupTurn(s, ev, SentInFlight(ev.last), r, next)
  {
    hide IsInflightTooHigh; hide TooManyLost; hide Bdp; hide MaxBandwidth; hide SentInFlight; hide IsBdp;
    TooManyLostIs(s.model, ev, 20, s.params.lossThreshold);
    TooManyLostIs(CheckGrowth(s.model, ev), ev, 20, s.params.lossThreshold);
    LossApart(s.model, ev, SentInFlight(ev.last), s.params.lossThreshold);
    GrowthKeepsBandwidth(s.model, ev);
    BdpIs(s.model, MaxBandwidth(s.model));
    BdpIs(CheckGrowth(s.model, ev), MaxBandwidth(s.model));
  }

  lemma LossApart(m: Model, ev: Event, sent: nat, threshold: Gain)
    ensures TooManyLost(CheckGrowth(m, ev), ev, sent, 20, threshold) == TooManyLost(m, ev, sent, 20, threshold)
  {
  }

  lemma DrainTurnObeys(s: Sender, ev: Event)
    requires s.model.minRtt > 0
    ensures var (r, next) := DrainEvent(s, ev); DrainTurn(s, ev, r, next)
  {
    hide Bdp;
    BdpIs(WithGains(s, DRAIN_PACING_GAIN, DRAIN_CWND_GAIN).model, MaxBandwidth(s.model));
  }

  lemma ProbeRttObeys(s: Sender, ev: Event)
    requires s.model.minRtt > 0
    ensures var (r, next) := ProbeRttEvent(s, ev); ProbeRttTurn(s, ev, r, next)
  {
    hide Bdp; hide MaxBandwidth;
    BdpIs(s.model, MaxBandwidth(s.model));
  }

  lemma TurnObeys(s: Sender, ev: Event, priorInFlight: nat)
    requires LoopInv(s) && Timely(s, ev)
    ensures var (r, next) := Dispatch(s, ev, priorInFlight);
            TurnLaw(s, ev, SentInFlight(ev.last), priorInFlight, r, next)
  {
    hide StartupEvent; hide DrainEvent; hide ProbeBwEvent; hide ProbeRttEvent; hide SentInFlight; hide Timely;
    hide StartupTurn; hide DrainTurn; hide ProbeBwTurn; hide ProbeRttTurn;
    match s.mode {
      case STARTUP => StartupObeys(s, ev);
      case DRAIN => DrainTurnObeys(s, ev);
      case PROBE_BW => ProbeBwObeys(s, ev, priorInFlight);
      case PROBE_RTT => ProbeRttObeys(s, ev);
    }
  }

  lemma SwitchObeys(s: Sender, next: Mode, now: int, randomRounds: nat, randomWait: nat)
    ensures SwitchLaw(s, next, now, randomRounds, randomWait, Switch(s, next, now, randomRounds, randomWait))
  {
    hide EnterDown; hide EnterCruise; hide EnterRefill; hide DownLaw; hide CruiseLaw; hide RefillLaw;
    var left := s.(mode := next,
                   model := s.model.(bandwidthLo :=
                     if s.mode == STARTUP then INFINITE_BANDWIDTH else s.model.bandwidthLo));
    var again := left.(cycle := left.cycle.(startTime := now));
    DownObeys(left, false, false, now, randomRounds, randomWait);
    CruiseObeys(again, now);
    RefillObeys(again, s.cycle.probeUpRounds, now);
  }

  lemma {:induction false} LoopObeys(s: Sender, ev: Event, priorInFlight: nat, allowed: nat, changes: nat)
    requires LoopInv(s) && Timely(s, ev) && CreditPending(s, ev) && ChangesLeft(s) <= changes <= allowed
    ensures LoopLaw(s, ev, SentInFlight(ev.last), priorInFlight, Settle(s, ev, priorInFlight, allowed).sender, changes)
    decreases allowed
  {
    hide LoopInv; hide Dispatch; hide Switch; hide SentInFlight; hide TurnLaw; hide SwitchLaw; hide ChangesLeft;
    hide Timely;
    hide CreditPending;
    TurnKeeps(s, ev, priorInFlight);
    TurnObeys(s, ev, priorInFlight);
    var (r, next) := Dispatch(s, ev, priorInFlight);
    if next != s.mode {
      SwitchObeys(r, next, ev.time, ev.randomRounds, ev.randomWait);
      var u := Switch(r, next, ev.time, ev.randomRounds, ev.randomWait);
      TimelyLater(s, u, ev);
      LoopObeys(u, ev, priorInFlight, allowed - 1, changes - 1);
    }
  }

  lemma TimelyLater(s: Sender, u: Sender, ev: Event)
    requires Timely(s, ev) && Frame(s, u)
    ensures Timely(u, ev)
  {
  }

  // ---------------------------------------------------------------- rate and window

  lemma RateObeys(s: Sender, acked: nat)
    requires s.model.minRtt > 0
    ensures RateLaw(s, acked, NewPacingRate(s, acked))
  {
    hide ScaleRate; hide BandwidthEstimate; hide IsNearest; hide Rate;
    ScaleRateIs(BandwidthEstimate(s.model), s.model.pacingGain);
    RateIsTheSlope(s.cwnd, s.model.minRtt);
  }

  lemma WindowIs(m: Model, minCwnd: nat)
    ensures IsWindow(TargetCwnd(m, minCwnd), m, minCwnd)
  {
    hide Scale; hide Bdp; hide BandwidthEstimate; hide IsBdp; hide IsPart;
    var b := Bdp(m, BandwidthEstimate(m));
    BdpIs(m, BandwidthEstimate(m));
    ScaleIs(b, m.cwndGain);
  }

  lemma LimitIs(s: Sender)
    ensures IsLimit(ModeLimit(s.mode, s.cycle.phase, s.model), s)
  {
    hide Scale; hide Bdp; hide MaxBandwidth; hide IsBdp; hide IsPart; hide HiWithHeadroom; hide IsHeadroom;
    HeadroomIs(s.model);
    BdpIs(s.model, MaxBandwidth(s.model));
    ScaleIs(Bdp(s.model, MaxBandwidth(s.model)), PROBE_RTT_BDP_FRACTION);
  }

  lemma CwndObeys(s: Sender, acked: nat, ackHeight: nat)
    ensures CwndLaw(s, acked, ackHeight, NewCwnd(s, acked, ackHeight))
  {
    hide TargetCwnd; hide ModeLimit; hide IsWindow; hide IsLimit;
    WindowIs(s.model, s.params.minCwnd);
    LimitIs(s);
  }

  lemma FinishObeys(s: Sender, ev: Event)
    requires s.model.minRtt > 0
    ensures FinishLaw(s, ev, Finished(s, ev))
  {
    hide NewPacingRate; hide NewCwnd; hide RateLaw; hide CwndLaw;
    LimitApart(s, NewPacingRate(s, ev.acked), ev);
    RateObeys(s, ev.acked);
    CwndObeys(s, ev.acked, ev.ackHeight);
  }

  // ---------------------------------------------------------------- whole events

  lemma EventObeys(s: Sender, x: Input)
    requires Inv(s) && Enabled(s, Congestion(x))
    ensures Obeys(s, x, OnEvent(s, x))
  {
    hide LoopInv; hide Started; hide EventFor; hide Settle; hide Finished; hide Timely; hide CreditPending;
    hide SentInFlight;
    hide StartLaw; hide EventLaw; hide LoopLaw; hide FinishLaw; hide IsInflight; hide EstimateLaw; hide ChangesLeft;
    StartKeeps(s, x);
    var c, ev := Started(s, x), EventFor(s, x);
    AtMostThreeAllowed(c);
    ModeLoopSettles(c, ev, x.priorInFlight, MAX_MODE_CHANGES);
    var u := Settle(c, ev, x.priorInFlight, MAX_MODE_CHANGES).sender;
    MinRttPositive(u);
    StartObeys(s, x);
    LoopObeys(c, ev, x.priorInFlight, MAX_MODE_CHANGES, 3);
    FinishObeys(u, ev);
    InflightIs(ev.last);
    EstimateIs(s.model);
    EstimateIs(c.model);
    EstimateIs(u.model);
    EstimateIs(OnEvent(s, x).model);
    assert Via(s, x, c, ev, SentInFlight(ev.last), u);
  }

  lemma SendObeys(s: Sender, time: int, number: nat, inFlight: nat)
    ensures SentLaw(s, time, number, inFlight, OnSent(s, time, number, inFlight))
  {
    hide Switch; hide SwitchLaw;
    var now := s.(history := s.history.(now := time));
    SwitchObeys(now, PROBE_BW, time, 0, 0);
  }

  // ---------------------------------------------------------------- gains

  /** The gains that an event leaves: STARTUP doubles what it delivers, DRAIN undoes it, PROBE_BW goes by its phase, and
      PROBE_RTT holds still. */
  predicate Geared(s: Sender) {
    var pacing, window := s.model.pacingGain, s.model.cwndGain;
    match s.mode
    case STARTUP => pacing == Ratio(2885, 1000) && window == Ratio(2, 1)
    case DRAIN => pacing == Ratio(1000, 2885) && window == Ratio(2, 1)
    case PROBE_BW => PacesByPhase(s) && window == Ratio(2, 1)
    case PROBE_RTT => pacing == Ratio(1, 1) && window == Ratio(1, 1)
  }

  /** The gains between events: PROBE_BW, when a sent packet has begun it, still has the window gain of PROBE_RTT. */
  predicate InGear(s: Sender) {
    if s.mode == PROBE_BW then PacesByPhase(s) else Geared(s)
  }

  // ---------------------------------------------------------------- what the mode loop leaves alone

  /** Mode, round-trip record, minimum, totals and the count of rounds are the same. */
  predicate Steady(s: Sender, r: Sender) {
    && r.mode == s.mode && r.history.trips == s.history.trips
    && r.model.minRtt == s.model.minRtt && r.model.minRttTime == s.model.minRttTime
    && r.model.roundCount == s.model.roundCount && r.model.totalAcked == s.model.totalAcked
    && r.model.lastSent == s.model.lastSent && r.params == s.params
  }

  lemma EnteringIsSteady(s: Sender, rounds: nat, now: int, r: Sender)
    ensures CruiseLaw(s, now, r) || RefillLaw(s, rounds, now, r) ==> Steady(s, r)
  {
  }

  lemma AdaptingIsSteady(s: Sender, ev: Event, sent: nat, r: Sender)
    ensures UpperBoundLaw(s, ev, sent, r) || UpwardLaw(s, ev, r) || UpLaw(s, ev.time, r) ==> Steady(s, r)
  {
    hide IsKept; hide IsSlope; hide TooManyLost;
  }

  lemma DrainIsSteady(s: Sender, ev: Event, sent: nat, r: Sender)
    requires DrainLaw(s, ev, sent, r)
    ensures Steady(s, r)
  {
    hide UpperBoundLaw; hide CruiseLaw; hide RefillLaw;
    var a :| UpperBoundLaw(s, ev, sent, a) &&
      if ProbeIsDue(a, ev) then RefillLaw(a, 0, ev.time, r)
      else if DownIsOver(a, ev) then CruiseLaw(a, ev.time, r)
      else r == a;
    AdaptingIsSteady(s, ev, sent, a);
    EnteringIsSteady(a, 0, ev.time, r);
  }

  lemma DownStepIsSteady(s: Sender, ev: Event, sent: nat, r: Sender)
    requires DownStepLaw(s, ev, sent, r)
    ensures Steady(s, r)
  {
    hide DrainLaw; hide RefillLaw;
    if ev.endOfRound && s.cycle.roundsInPhase == 1 {
      var b :| FirstRoundLaw(s, ev, b) &&
        if s.lastCycleStoppedRiskyProbe && !s.lastCycleProbedTooHigh then RefillLaw(b, 0, ev.time, r)
        else DrainLaw(b, ev, sent, r);
      FirstRoundIsSteady(s, ev, b);
      if s.lastCycleStoppedRiskyProbe && !s.lastCycleProbedTooHigh {
        EnteringIsSteady(b, 0, ev.time, r);
      } else {
        DrainIsSteady(b, ev, sent, r);
      }
    } else {
      DrainIsSteady(s, ev, sent, r);
    }
  }

  lemma FirstRoundIsSteady(s: Sender, ev: Event, r: Sender)
    requires FirstRoundLaw(s, ev, r)
    ensures Steady(s, r)
  {
  }

  lemma CruiseStepIsSteady(s: Sender, ev: Event, sent: nat, r: Sender)
    requires CruiseStepLaw(s, ev, sent, r)
    ensures Steady(s, r)
  {
    hide UpperBoundLaw; hide RefillLaw; hide ProbeIsDue;
    var a :| UpperBoundLaw(s, ev, sent, a) && if ProbeIsDue(a, ev) then RefillLaw(a, 0, ev.time, r) else r == a;
    AdaptingIsSteady(s, ev, sent, a);
    EnteringIsSteady(a, 0, ev.time, r);
  }

  lemma RefillStepIsSteady(s: Sender, ev: Event, sent: nat, r: Sender)
    requires RefillStepLaw(s, ev, sent, r)
    ensures Steady(s, r)
  {
    hide UpperBoundLaw; hide UpLaw;
    var a :| UpperBoundLaw(s, ev, sent, a) &&
      if ev.endOfRound && a.cycle.roundsInPhase >= 1 then UpLaw(a, ev.time, r) else r == a;
    AdaptingIsSteady(s, ev, sent, a);
    AdaptingIsSteady(a, ev, sent, r);
  }

  lemma UpStepIsSteady(s: Sender, ev: Event, sent: nat, priorInFlight: nat, r: Sender)
    requires UpStepLaw(s, ev, sent, priorInFlight, r)
    ensures Steady(s, r)
  {
    hide UpperBoundLaw; hide UpwardLaw; hide DownLaw; hide ProbedTooMuch; hide HasQueue;
    var a :| UpperBoundLaw(s, ev, sent, a) &&
      if ProbedTooMuch(s, ev, sent) then DownLaw(a, true, false, ev.time, ev.randomRounds, ev.randomWait, r) else
        exists b :: UpwardLaw(a, ev, b) &&
          if IsRisky(b, priorInFlight) || HasQueue(b, ev)
          then DownLaw(b, false, IsRisky(b, priorInFlight), ev.time, ev.randomRounds, ev.randomWait, r)
          else r == b;
    AdaptingIsSteady(s, ev, sent, a);
    if ProbedTooMuch(s, ev, sent) {
      LeavingUpIsSteady(a, true, false, ev, r);
    } else {
      var b :| UpwardLaw(a, ev, b) &&
        if IsRisky(b, priorInFlight) || HasQueue(b, ev)
        then DownLaw(b, false, IsRisky(b, priorInFlight), ev.time, ev.randomRounds, ev.randomWait, r)
        else r == b;
      AdaptingIsSteady(a, ev, sent, b);
      if r != b {
        LeavingUpIsSteady(b, false, IsRisky(b, priorInFlight), ev, r);
      }
    }
  }

  lemma LeavingUpIsSteady(s: Sender, tooHigh: bool, risky: bool, ev: Event, r: Sender)
    requires DownLaw(s, tooHigh, risky, ev.time, ev.randomRounds, ev.randomWait, r)
    ensures Steady(s, r)
  {
  }

  lemma PhaseIsSteady(s: Sender, ev: Event, sent: nat, priorInFlight: nat, r: Sender)
    requires PhaseLaw(s, ev, sent, priorInFlight, r)
    ensures Steady(s, r)
  {
    hide UpStepLaw; hide DownStepLaw; hide CruiseStepLaw; hide RefillStepLaw;
    match s.cycle.phase {
      case UP => UpStepIsSteady(s, ev, sent, priorInFlight, r);
      case DOWN => DownStepIsSteady(s, ev, sent, r);
      case CRUISE => CruiseStepIsSteady(s, ev, sent, r);
      case REFILL => RefillStepIsSteady(s, ev, sent, r);
      case NOT_STARTED =>
    }
  }

  /** The minimum is the same, or it had its 200 ms and gave way to the event's round trip. */
  predicate Ages(s: Sender, ev: Event, r: Sender) {
    || (r.model.minRtt == s.model.minRtt && r.model.minRttTime == s.model.minRttTime)
    || (&& ev.rtt != INT64_MAX && s.model.minRttTime + 200_000 <= ev.time
        && r.model.minRtt == ev.rtt && r.model.minRttTime == ev.time)
  }

  /** Steady but for the mode and the age of the minimum. */
  predicate Carries(s: Sender, ev: Event, r: Sender) {
    Ages(s, ev, r)
    && Steady(s, r.(mode := s.mode, model := r.model.(minRtt := s.model.minRtt, minRttTime := s.model.minRttTime)))
  }

  lemma TurnGears(s: Sender, ev: Event, sent: nat, priorInFlight: nat, r: Sender, next: Mode)
    requires TurnLaw(s, ev, sent, priorInFlight, r, next) && (s.mode == STARTUP || s.mode == PROBE_RTT ==> Geared(s))
    ensures r.mode == s.mode && (next != s.mode ==> next != STARTUP) && (next == s.mode ==> Geared(r))
    ensures Carries(s, ev, r)
  {
    hide PhaseLaw; hide CountedLaw; hide TooManyLost; hide WithinBdp; hide LargerOf;
    if s.mode == PROBE_BW {
      var c, p :| CountedLaw(s, ev, c) && PhaseLaw(c, ev, sent, priorInFlight, p) &&
        if Expires(c, ev, p)
        then next == PROBE_RTT && r == p.(model := p.model.(minRtt := ev.rtt, minRttTime := ev.time))
        else
          && next == PROBE_BW && PacesByPhase(r)
          && r == p.(model := p.model.(pacingGain := r.model.pacingGain, cwndGain := Ratio(2, 1)));
      PhaseIsSteady(c, ev, sent, priorInFlight, p);
      CountingIsSteady(s, ev, c);
    }
  }

  lemma CountingIsSteady(s: Sender, ev: Event, c: Sender)
    requires CountedLaw(s, ev, c)
    ensures Steady(s, c)
  {
  }

  lemma SwitchGears(s: Sender, next: Mode, ev: Event, randomRounds: nat, randomWait: nat, r: Sender)
    requires SwitchLaw(s, next, ev.time, randomRounds, randomWait, r) && next != STARTUP
    ensures r.mode == next && (next == PROBE_RTT ==> Geared(r)) && Carries(s, ev, r)
  {
    hide CruiseLaw; hide RefillLaw;
    var left := s.(mode := next,
                   model := s.model.(bandwidthLo :=
                     if s.mode == STARTUP then INFINITE_BANDWIDTH else s.model.bandwidthLo));
    EnteringIsSteady(left.(cycle := left.cycle.(startTime := ev.time)), s.cycle.probeUpRounds, ev.time, r);
  }

  lemma CarriesOn(s: Sender, ev: Event, r: Sender, u: Sender, t: Sender)
    requires Carries(s, ev, r) && Carries(r, ev, u) && Carries(u, ev, t)
    ensures Carries(s, ev, t)
  {
  }

  lemma {:induction false} LoopGears(s: Sender, ev: Event, sent: nat, priorInFlight: nat, t: Sender, changes: nat)
    requires LoopLaw(s, ev, sent, priorInFlight, t, changes) && (s.mode == STARTUP || s.mode == PROBE_RTT ==> Geared(s))
    ensures Geared(t) && (t.mode == STARTUP ==> s.mode == STARTUP) && Carries(s, ev, t)
    decreases changes
  {
    hide TurnLaw; hide SwitchLaw; hide Geared; hide Carries;
    var r, next :| TurnLaw(s, ev, sent, priorInFlight, r, next) &&
      if next == s.mode then t == r else
        changes > 0 && exists u ::
          && SwitchLaw(r, next, ev.time, ev.randomRounds, ev.randomWait, u)
          && LoopLaw(u, ev, sent, priorInFlight, t, changes - 1);
    TurnGears(s, ev, sent, priorInFlight, r, next);
    if next != s.mode {
      var u :| SwitchLaw(r, next, ev.time, ev.randomRounds, ev.randomWait, u)
               && LoopLaw(u, ev, sent, priorInFlight, t, changes - 1);
      SwitchGears(r, next, ev, ev.randomRounds, ev.randomWait, u);
      LoopGears(u, ev, sent, priorInFlight, t, changes - 1);
      CarriesOn(s, ev, r, u, t);
    }
  }

  // ---------------------------------------------------------------- rates around the estimate

  /** At full bandwidth the sender paces above the estimate to probe and below it to drain, as far as whole bits per
      second allow, and otherwise at the estimate. */
  predicate PacesAround(s: Sender) {
    var estimate, rate := BandwidthEstimate(s.model), s.pacingRate;
    estimate > 0 ==>
      match s.mode
      case STARTUP => true
      case DRAIN => rate < estimate
      case PROBE_BW =>
        (match s.cycle.phase
         case UP => rate >= estimate && (rate > estimate <==> estimate >= 2)
         case DOWN => rate <= estimate && (rate < estimate <==> estimate >= 3)
         case _ => rate == estimate)
      case PROBE_RTT => rate == estimate
  }

  lemma FinishPaces(s: Sender, ev: Event, t: Sender)
    requires FinishLaw(s, ev, t) && Geared(s) && s.model.totalAcked != ev.acked
    requires s.mode != STARTUP ==> s.model.fullBandwidthReached
    ensures Geared(t) && PacesAround(t)
  {
    hide CwndLaw; hide IsNearest; hide IsRate;
    assert BandwidthEstimate(t.model) == BandwidthEstimate(s.model);
    NearestAround(t.pacingRate, BandwidthEstimate(s.model));
  }

  lemma NearestAround(rate: nat, estimate: nat)
    ensures IsNearest(rate, estimate, 5, 4) ==> rate >= estimate && (rate > estimate <==> estimate >= 2)
    ensures IsNearest(rate, estimate, 3, 4) && estimate > 0 ==>
              rate <= estimate && (rate < estimate <==> estimate >= 3)
    ensures IsNearest(rate, estimate, 1, 1) ==> rate == estimate
    ensures IsNearest(rate, estimate, 1000, 2885) && estimate > 0 ==> rate < estimate
  {
  }

  // ---------------------------------------------------------------- the minimum round trip

  /** The minimum is one of the round trips on record, and none from that one on is smaller. */
  ghost predicate TripsInv(s: Sender) {
    exists i: nat :: LeastSince(s.history.trips, i, s.model.minRtt)
  }

  ghost predicate LeastSince(trips: seq<int>, i: nat, least: int) {
    i < |trips| && trips[i] == least && forall j: nat :: i <= j < |trips| ==> least <= trips[j]
  }

  /** A larger minimum comes only after 200 ms, or in place of one that has no time; a smaller round trip is never
      missed. */
  predicate MinimumMoves(s: Sender, x: Input, t: Sender) {
    && (t.model.minRtt == s.model.minRtt || (t.model.minRtt == x.sample.rtt && x.sample.rtt != INT64_MAX))
    && (t.model.minRtt > s.model.minRtt ==> s.model.minRttTime == 0 || s.model.minRttTime + 200_000 <= x.time)
    && (x.sample.rtt != INT64_MAX ==> t.model.minRtt <= x.sample.rtt)
  }

  lemma LoopKeepsTrips(s: Sender, x: Input, c: Sender, ev: Event, t: Sender)
    requires TripsInv(s) && StartLaw(s, x, c) && EventLaw(s, x, ev) && Carries(c, ev, t)
    ensures TripsInv(t) && MinimumMoves(s, x, t)
  {
    hide RoundLaw; hide BandwidthLaw; hide LatestLaw; hide LowerBoundLaw; hide OnlyFed; hide EndsRound;
    var trips := s.history.trips;
    var i: nat :| LeastSince(trips, i, s.model.minRtt);
    if t.model.minRtt == s.model.minRtt && c.model.minRtt == s.model.minRtt {
      assert LeastSince(t.history.trips, i, t.model.minRtt);
    } else {
      assert LeastSince(t.history.trips, |trips|, t.model.minRtt);
    }
  }

  // ---------------------------------------------------------------- whole runs

  /** What an event does to gains, rate, minimum and counts, whatever turns the mode loop took. */
  predicate Summed(s: Sender, x: Input, t: Sender) {
    && Geared(t) && (s.model.totalAcked > 0 ==> PacesAround(t)) && MinimumMoves(s, x, t)
    && t.model.totalAcked == s.model.totalAcked + x.acked
    && t.model.roundCount == (if EndsRound(s.model, x) then s.model.roundCount + 1 else s.model.roundCount)
    && (t.mode == STARTUP ==> s.mode == STARTUP)
  }

  ghost predicate StateLaws(s: Sender) {
    InGear(s) && TripsInv(s)
  }

  lemma EventSums(s: Sender, x: Input)
    requires Inv(s) && Enabled(s, Congestion(x)) && StateLaws(s)
    ensures Obeys(s, x, OnEvent(s, x)) && Summed(s, x, OnEvent(s, x)) && StateLaws(OnEvent(s, x))
  {
    hide LoopInv; hide Started; hide EventFor; hide Settle; hide Finished; hide Timely; hide CreditPending;
    hide SentInFlight;
    hide StartLaw; hide EventLaw; hide FinishLaw; hide EstimateLaw; hide ChangesLeft; hide LoopLaw; hide Enabled;
    hide TripsInv; hide PacesByPhase; hide PacesAround; hide MinimumMoves; hide EndsRound; hide Obeys; hide Carries;
    EventObeys(s, x);
    StartKeeps(s, x);
    var c, ev := Started(s, x), EventFor(s, x);
    AtMostThreeAllowed(c);
    ModeLoopSettles(c, ev, x.priorInFlight, MAX_MODE_CHANGES);
    var u := Settle(c, ev, x.priorInFlight, MAX_MODE_CHANGES).sender;
    MinRttPositive(u);
    StartObeys(s, x);
    LoopObeys(c, ev, x.priorInFlight, MAX_MODE_CHANGES, 3);
    FinishObeys(u, ev);
    StartGears(s, x, c);
    LoopGears(c, ev, SentInFlight(ev.last), x.priorInFlight, u, 3);
    LoopKeepsTrips(s, x, c, ev, u);
    SumUp(s, x, c, ev, u, OnEvent(s, x));
  }

  lemma StartGears(s: Sender, x: Input, c: Sender)
    requires InGear(s) && StartLaw(s, x, c)
    ensures c.mode == s.mode && (c.mode == STARTUP || c.mode == PROBE_RTT ==> Geared(c))
  {
    hide RoundLaw; hide BandwidthLaw; hide MinRttLaw; hide LatestLaw; hide LowerBoundLaw;
  }

  lemma SumUp(s: Sender, x: Input, c: Sender, ev: Event, u: Sender, t: Sender)
    requires StartLaw(s, x, c) && EventLaw(s, x, ev) && Carries(c, ev, u) && FinishLaw(u, ev, t)
    requires Geared(u) && (u.mode == STARTUP ==> s.mode == STARTUP) && LoopInv(u)
    requires TripsInv(u) && MinimumMoves(s, x, u)
    ensures Summed(s, x, t) && StateLaws(t)
  {
    hide CwndLaw; hide RateLaw; hide LowerBoundLaw; hide LatestLaw; hide BandwidthLaw; hide MinRttLaw;
    hide PacesAround; hide EndsRound;
    if s.model.totalAcked > 0 {
      FinishPaces(u, ev, t);
    }
  }

  lemma SendKeepsLaws(s: Sender, time: int, number: nat, inFlight: nat)
    requires Inv(s) && Enabled(s, SentPacket(time, number, inFlight)) && StateLaws(s)
    ensures StateLaws(OnSent(s, time, number, inFlight))
  {
    hide Switch;
    var now := s.(history := s.history.(now := time));
    SwitchObeys(now, PROBE_BW, time, 0, 0);
    var v := Switch(now, PROBE_BW, time, 0, 0);
    if s.mode == PROBE_RTT && inFlight == 0 && s.quiescenceStart != 0 && s.exitTime < time {
      ResumesInGear(now, time, v);
    }
    KeepsTrips(s, OnSent(s, time, number, inFlight));
  }

  lemma ResumesInGear(s: Sender, now: int, v: Sender)
    requires SwitchLaw(s, PROBE_BW, now, 0, 0, v) && Geared(s) && s.mode == PROBE_RTT
             && s.cycle.phase in {CRUISE, REFILL}
    ensures v.mode == PROBE_BW && PacesByPhase(v) && v.history.trips == s.history.trips
            && v.model.minRtt == s.model.minRtt
  {
  }

  lemma KeepsTrips(s: Sender, t: Sender)
    requires t.history.trips == s.history.trips && t.model.minRtt == s.model.minRtt
    ensures TripsInv(s) ==> TripsInv(t)
  {
  }

  ghost predicate StepObeys(s: Sender, o: Occurrence, t: Sender) {
    match o
    case Congestion(x) => Obeys(s, x, t) && Summed(s, x, t)
    case SentPacket(time, number, inFlight) => SentLaw(s, time, number, inFlight, t)
  }

  lemma StepObeysLaws(s: Sender, o: Occurrence)
    requires Inv(s) && Enabled(s, o) && StateLaws(s)
    ensures StepObeys(s, o, Next(s, o)) && StateLaws(Next(s, o))
  {
    hide Inv; hide StateLaws; hide Obeys; hide Summed; hide SentLaw; hide Enabled;
    match o {
      case Congestion(x) => EventSums(s, x);
      case SentPacket(time, number, inFlight) =>
        SendObeys(s, time, number, inFlight);
        SendKeepsLaws(s, time, number, inFlight);
    }
  }

  lemma {:induction false} RunKeepsLaws(s: Sender, os: seq<Occurrence>)
    requires Inv(s) && Possible(s, os) && StateLaws(s)
    ensures StateLaws(Run(s, os))
    decreases |os|
  {
    hide Inv; hide StateLaws; hide StepObeys; hide Next; hide Enabled;
    if os != [] {
      StepObeysLaws(s, os[0]);
      RunKeepsLaws(Next(s, os[0]), os[1..]);
    }
  }

  /** The sender as constructed. */
  lemma BeginLaw(params: Params, now: int, rtt: int, rttTime: int)
    requires Configured(params, now, rtt)
    ensures var s := Begin(params, now, rtt, rttTime);
            && s.mode == STARTUP && Geared(s) && TripsInv(s) && s.history.trips == [rtt]
            && s.cycle == Cycle(0, NOT_STARTED, 0, 0, 0, 0, 0, UINT64_MAX, 0, false, false)
            && Clamped(s.cwnd, params.initialCwnd, params.minCwnd, params.maxCwnd)
            && s.params == params.(initialCwnd := s.cwnd)
            && (exists rate: nat :: IsRate(rate, s.cwnd, rtt) && IsNearest(s.pacingRate, rate, 2885, 1000))
            && s.model.minRtt == rtt && s.model.minRttTime == rttTime && BandwidthEstimate(s.model) == 0
            && s.model.bandwidthLo == INT64_MAX && s.model.inflightLo == UINT64_MAX && s.model.inflightHi == UINT64_MAX
            && s.model.endOfRound == None && s.model.lastSent == None && s.model.roundCount == 0
               && s.model.totalAcked == 0
            && !s.model.fullBandwidthReached && s.model.baseline == 0 && s.model.roundsWithoutGrowth == 0
            && s.exitTime == 0 && s.quiescenceStart == 0 && !s.lastCycleProbedTooHigh && !s.lastCycleStoppedRiskyProbe
  {
    hide Rate; hide ScaleRate; hide IsNearest;
    var s := Begin(params, now, rtt, rttTime);
    RateIsTheSlope(s.cwnd, rtt);
    ScaleRateIs(Rate(s.cwnd, rtt), STARTUP_PACING_GAIN);
    assert LeastSince([rtt], 0, rtt);
  }

  /** In every run every step obeys the laws, and the minimum is the least of the round trips from some one on. */
  lemma EveryStepObeys(params: Params, now: int, rtt: int, rttTime: int, os: seq<Occurrence>, o: Occurrence)
    requires Configured(params, now, rtt) && Possible(Begin(params, now, rtt, rttTime), os)
    requires Enabled(Run(Begin(params, now, rtt, rttTime), os), o)
    ensures var s := Run(Begin(params, now, rtt, rttTime), os);
            InGear(s) && TripsInv(s) && Inv(s) && StepObeys(s, o, Next(s, o))
  {
    hide Possible; hide Run; hide Begin; hide Inv; hide StepObeys; hide Next; hide Enabled; hide TripsInv;
    hide IsNearest; hide IsRate; hide Clamped;
    var b := Begin(params, now, rtt, rttTime);
    BeginLaw(params, now, rtt, rttTime);
    RunKeepsLaws(b, os);
    RunKeepsInv(b, os);
    StepObeysLaws(Run(b, os), o);
  }
}
