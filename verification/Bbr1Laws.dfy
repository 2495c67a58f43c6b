/** What one congestion event of BBRv1 does, told from the event and the states before and after it alone: with the
    constants as numbers, divisions as inequalities, and each transition with its exact condition. */
module Bbr1Laws {
  import opened Base
  import opened Gains
  import opened Samples
  import opened WindowedFilter
  import opened Bbr1
  import opened Bbr1Runs

  // ---------------------------------------------------------------- the target window

  /** `w` is the window for `num / den` bandwidth-delay products, or of that many initial windows as long as there is no
      bandwidth to speak of; never below four segments. */
  ghost predicate IsTarget(w: int, s: Sender, num: nat, den: nat, fallbackRtt: int) {
    exists b: nat, v: nat, v0: nat ::
      && IsBdp(b, Estimate(s.path), if s.path.minRtt == 0 then fallbackRtt else s.path.minRtt)
      && IsPart(v, b, num, den) && IsPart(v0, s.params.initialCwnd, num, den)
      && w >= 5840 && w >= (if v > 0 then v else v0) && (w == 5840 || w == if v > 0 then v else v0)
  }

  lemma TargetIs(s: Sender, gain: Gain, fallbackRtt: int)
    ensures IsTarget(Target(s, gain, fallbackRtt), s, gain.num, gain.den, fallbackRtt)
  {
    hide Estimate;
    var rtt := MinRtt(s.path, fallbackRtt);
    var b := Estimate(s.path) * Max(0, rtt) / 8 / 1_000_000;
    EightMillionths(Estimate(s.path) * Max(0, rtt));
    assert IsBdp(b, Estimate(s.path), if s.path.minRtt == 0 then fallbackRtt else s.path.minRtt);
    ScaleIs(b, gain);
    ScaleIs(s.params.initialCwnd, gain);
  }

  // ---------------------------------------------------------------- rounds and counts

  /** A packet sent after the current round began is acked. */
  predicate EndsRound(s: Sender, x: Input) {
    x.lastAcked.Some? && (s.path.roundEnd == None || s.path.roundEnd.value < x.lastAcked.value)
  }

  predicate BeginsRecovery(s: Sender, x: Input) {
    s.path.full && s.recovery.state == NOT_IN_RECOVERY && x.lastAcked.Some? && x.hasLosses
  }

  predicate RoundLaw(s: Sender, x: Input, t: Sender) {
    && t.path.lastSent == s.path.lastSent
    && t.path.roundCount == (if EndsRound(s, x) then s.path.roundCount + 1 else s.path.roundCount)
    && t.path.roundEnd == (if EndsRound(s, x) || BeginsRecovery(s, x) then s.path.lastSent else s.path.roundEnd)
    && t.path.totalAcked == s.path.totalAcked + x.acked
    && (EndsRound(s, x) ==> t.path.lossEvents == 0 && t.path.lostInRound == 0)
    && (!EndsRound(s, x) && x.hasLosses ==>
          t.path.lossEvents == s.path.lossEvents + 1 && t.path.lostInRound == s.path.lostInRound + x.lost)
    && (!EndsRound(s, x) && !x.hasLosses ==>
          t.path.lossEvents == s.path.lossEvents && t.path.lostInRound == s.path.lostInRound)
  }

  // ---------------------------------------------------------------- recovery

  /** Recovery is entered on losses, turns from CONSERVATION to GROWTH with the round, and is left by an ack without
      losses of a packet sent after the last loss. Its window starts from what is in flight, gives up what is lost and,
      in GROWTH, gains what is acked. */
  predicate RecoveryLaw(s: Sender, x: Input, t: Sender) {
    var r, u := s.recovery, t.recovery;
    && (x.lastAcked == None || !s.path.full ==> u.state == r.state && u.endAt == r.endAt)
    && (x.lastAcked.Some? && s.path.full ==>
          && u.endAt == (if x.hasLosses then s.path.lastSent else r.endAt)
          && (r.state == NOT_IN_RECOVERY ==> u.state == if x.hasLosses then CONSERVATION else NOT_IN_RECOVERY)
          && (r.state != NOT_IN_RECOVERY ==>
                && (u.state == NOT_IN_RECOVERY <==>
                      !x.hasLosses && r.endAt.Some? && r.endAt.value < x.lastAcked.value)
                && (u.state == CONSERVATION ==> r.state == CONSERVATION && !EndsRound(s, x))
                && (u.state == GROWTH ==> r.state == GROWTH || EndsRound(s, x))))
    && (u.state == NOT_IN_RECOVERY ==> u.window == r.window)
    && (u.state != NOT_IN_RECOVERY ==>
          var kept := if r.state == NOT_IN_RECOVERY then 0 else if r.window < x.lost then 1460 else r.window - x.lost;
          var budget := if u.state == GROWTH then kept + x.acked else kept;
          LargestOf(u.window, 5840, budget, x.inFlight + x.acked))
  }

  // ---------------------------------------------------------------- bandwidth and round-trip time

  /** A sample is taken for every event that acks bytes, except for an app-limited one that is no larger than the
      estimate. */
  predicate SampleLaw(s: Sender, x: Input, t: Sender) {
    && t.path.appLimited == (if x.sample.last.isValid then x.sample.last.appLimited else s.path.appLimited)
    && (if x.acked > 0 && (x.sample.appLimited ==> Estimate(s.path) < x.sample.maxBandwidth)
        then t.history.samples == s.history.samples + [Sample(x.sample.maxBandwidth, t.path.roundCount)]
        else t.history.samples == s.history.samples && t.path.bandwidth == s.path.bandwidth)
    && t.history.trips == (if x.sample.rtt == INT64_MAX then s.history.trips else s.history.trips + [x.sample.rtt])
  }

  predicate HasExpired(s: Sender, x: Input) {
    x.sample.rtt != INT64_MAX && s.path.minRtt != 0 && x.time - s.path.minRttTime > 10_000_000
  }

  predicate LeavesProbeRtt(s: Sender, x: Input) {
    && s.mode == PROBE_RTT && s.probeRtt.exitAt != 0 && s.probeRtt.exitAt <= x.time
    && (s.probeRtt.roundPassed || EndsRound(s, x))
  }

  /** The minimum follows a smaller sample, or any when there was none or it has expired after ten seconds; its time is
      that of the sample, or that of leaving PROBE_RTT. */
  predicate MinRttLaw(s: Sender, x: Input, t: Sender) {
    var replaced := x.sample.rtt != INT64_MAX
                    && (s.path.minRtt == 0 || HasExpired(s, x) || x.sample.rtt < s.path.minRtt);
    && t.path.minRtt == (if replaced then x.sample.rtt else s.path.minRtt)
    && t.path.minRttTime == (if replaced || LeavesProbeRtt(s, x) then x.time else s.path.minRttTime)
  }

  // ---------------------------------------------------------------- full bandwidth

  /** Losses of the round, this event's included, end STARTUP. */
  predicate TooManyLosses(s: Sender, x: Input) {
    var events := if x.hasLosses then s.path.lossEvents + 1 else s.path.lossEvents;
    var lost := if x.hasLosses then s.path.lostInRound + x.lost else s.path.lostInRound;
    events >= 3 && x.sample.last.isValid && x.sample.last.bytesInFlight > 0 && lost > 3 * x.sample.last.bytesInFlight
  }

  /** Full bandwidth is reached at the end of a round that is not app limited, when bandwidth has not grown by a
      quarter for three such rounds or losses were too many. */
  predicate FullBandwidthLaw(s: Sender, x: Input, t: Sender) {
    var checked := EndsRound(s, x) && !s.path.full && !t.path.appLimited;
    var grown := 4 * Estimate(t.path) + 2 > 5 * s.path.baseline;
    && (t.path.full <==> s.path.full
                         || (checked && !grown && (s.path.roundsWithoutGain >= 2 || TooManyLosses(s, x))))
    && t.path.baseline == (if checked && grown then Estimate(t.path) else s.path.baseline)
    && t.path.roundsWithoutGain == (if !checked then s.path.roundsWithoutGain
                                    else if grown then 0 else s.path.roundsWithoutGain + 1)
  }

  // ---------------------------------------------------------------- modes

  /** The mode that the event ends in, `bdp` being the target of one bandwidth-delay product. */
  predicate ModeLaw(s: Sender, x: Input, t: Sender, bdp: int) {
    && (t.mode == PROBE_RTT <==> if s.mode == PROBE_RTT then !LeavesProbeRtt(s, x)
                                 else HasExpired(s, x) && !s.probeRtt.exitingQuiescence)
    && (t.mode != PROBE_RTT ==>
          && (t.mode == STARTUP <==> !t.path.full)
          && (t.mode == DRAIN <==> (s.mode == DRAIN || (s.mode == STARTUP && t.path.full)) && x.inFlight > bdp))
  }

  /** PROBE_RTT ends 200 ms after little enough was in flight, and not before a round has passed since. */
  predicate ProbeRttLaw(s: Sender, x: Input, t: Sender) {
    && !t.probeRtt.exitingQuiescence
    && (s.mode != PROBE_RTT && t.mode == PROBE_RTT ==> t.history.probeRttSince == x.time)
    && (t.mode == PROBE_RTT ==>
          if s.mode == PROBE_RTT && s.probeRtt.exitAt != 0
          then t.probeRtt.exitAt == s.probeRtt.exitAt
              && t.probeRtt.roundPassed == (s.probeRtt.roundPassed || EndsRound(s, x))
          else if x.inFlight < 5840 + 1452 then t.probeRtt.exitAt == x.time + 200_000 && !t.probeRtt.roundPassed
          else t.probeRtt.exitAt == 0)
  }

  // ---------------------------------------------------------------- gains

  /** The gains that go with each mode; in PROBE_BW eight phases, one probing, one draining, six even. */
  predicate Geared(s: Sender) {
    var pacing, window := s.cycle.pacingGain, s.cycle.cwndGain;
    match s.mode
    case STARTUP => pacing == Ratio(2885, 1000) && window == Ratio(2, 1)
    case DRAIN => pacing == Ratio(1000, 2885) && window == Ratio(2, 1)
    case PROBE_BW => window == Ratio(2, 1) && s.cycle.offset < 8 && (AtOffset(s) || (s.params.drainToTarget && Held(s)))
    case PROBE_RTT => pacing == Ratio(1, 1)
  }

  predicate AtOffset(s: Sender) {
    s.cycle.pacingGain == match s.cycle.offset case 0 => Ratio(5, 4) case 1 => Ratio(3, 4) case _ => Ratio(1, 1)
  }

  /** Still draining in an even phase. */
  predicate Held(s: Sender) {
    s.cycle.pacingGain == Ratio(3, 4) && s.cycle.offset >= 2
  }

  /** Whether the gain cycle moves on: a draining phase ends when inflight is down to one bandwidth-delay product, a
      probing one not before losses or its own target, and otherwise each lasts a round trip. */
  predicate MovesOn(s: Sender, x: Input, minRtt: int, bdp: int, probe: int) {
    if s.cycle.pacingGain == Ratio(3, 4) && x.inFlight <= bdp then true
    else if s.cycle.pacingGain == Ratio(5, 4) && !x.hasLosses && x.priorInFlight < probe then false
    else x.time - s.cycle.start > minRtt
  }

  predicate CycleLaw(s: Sender, x: Input, t: Sender, bdp: int, probe: int) {
    t.mode == PROBE_BW ==>
      if s.mode != PROBE_BW then
        && t.cycle.start == x.time && AtOffset(t)
        && t.cycle.offset == (if x.random % 7 == 0 then 0 else 1 + x.random % 7)
      else
        var minRtt := if t.path.minRtt == 0 then x.fallbackRtt else t.path.minRtt;
        if !MovesOn(s, x, minRtt, bdp, probe) then t.cycle == s.cycle else
          && t.cycle.start == x.time && t.cycle.offset == (if s.cycle.offset == 7 then 0 else s.cycle.offset + 1)
          && (if s.params.drainToTarget && s.cycle.pacingGain == Ratio(3, 4) && t.cycle.offset >= 2 && x.inFlight > bdp
              then Held(t) else AtOffset(t))
  }

  // ---------------------------------------------------------------- rate and window

  /** At full bandwidth the rate is the estimate times the gain; before it never falls, and starts at 800 kbit/s. */
  predicate RateLaw(s: Sender, x: Input, t: Sender) {
    var estimate, gain := Estimate(t.path), t.cycle.pacingGain;
    if estimate == 0 then t.pacingRate == s.pacingRate
    else if t.path.full then IsNearest(t.pacingRate, estimate, gain.num, gain.den)
    else if s.pacingRate == 0 && x.connectionMinRtt != 0 then t.pacingRate == 800_000
    else
      && t.pacingRate >= s.pacingRate
      && 2 * gain.num * estimate - gain.den < 2 * gain.den * t.pacingRate
      && (t.pacingRate == s.pacingRate || IsNearest(t.pacingRate, estimate, gain.num, gain.den))
  }

  /** The window grows by the bytes acked: at full bandwidth up to two bandwidth-delay products, before for as long as
      it is below them or less than the initial window has been acked. PROBE_RTT leaves it alone. */
  predicate CwndLaw(s: Sender, x: Input, t: Sender, target: int) {
    if t.mode == PROBE_RTT then t.cwnd == s.cwnd
    else if t.path.full then Clamped(t.cwnd, Min(s.cwnd + x.acked, target), 5840, s.params.maxCwnd)
    else if s.cwnd < target || t.path.totalAcked < s.params.initialCwnd
    then Clamped(t.cwnd, s.cwnd + x.acked, 5840, s.params.maxCwnd)
    else Clamped(t.cwnd, s.cwnd, 5840, s.params.maxCwnd)
  }

  // ---------------------------------------------------------------- the stages of an event

  function AfterAcks(s: Sender, x: Input): Sender { Acknowledged(s, x) }
  function AfterSample(s: Sender, x: Input): Sender { Sampled(Acknowledged(s, x), x) }
  function AfterModes(s: Sender, x: Input): Sender {
    Moded(AfterSample(s, x), x, StartsRound(s.path, x.lastAcked), MinRttExpires(AfterAcks(s, x).path, x))
  }

  lemma EventIs(s: Sender, x: Input)
    ensures OnEvent(s, x) == Windowed(AfterModes(s, x), x, StartsRound(s.path, x.lastAcked))
  {
    hide Windowed; hide Moded; hide Sampled; hide Acknowledged;
  }

  lemma AckStage(s: Sender, x: Input)
    ensures var t := AfterAcks(s, x);
            && t == s.(path := t.path, recovery := t.recovery)
            && t.path == s.path.(roundEnd := t.path.roundEnd, roundCount := t.path.roundCount)
  {
  }

  lemma SampleStage(s: Sender, x: Input)
    ensures var t := Sampled(s, x);
            && t == s.(path := t.path, history := s.history.(samples := t.history.samples, trips := t.history.trips))
            && t.path == s.path.(appLimited := t.path.appLimited, totalAcked := t.path.totalAcked,
                                 bandwidth := t.path.bandwidth, minRtt := t.path.minRtt,
                                     minRttTime := t.path.minRttTime,
                                 lossEvents := t.path.lossEvents, lostInRound := t.path.lostInRound)
  {
    hide Update;
  }

  lemma CycleStage(s: Sender, x: Input)
    ensures UpdateGainCycle(s, x) == s.(cycle := UpdateGainCycle(s, x).cycle)
    ensures UpdateGainCycle(s, x).cycle.cwndGain == s.cycle.cwndGain
  {
    hide AdvancesCycle; hide Target; hide CycleGain;
  }

  lemma CheckStage(p: Path, last: SendState)
    ensures var q := CheckFullBandwidth(p, last);
            q == p.(full := q.full, baseline := q.baseline, roundsWithoutGain := q.roundsWithoutGain)
  {
    hide ScaleRate; hide LossEndsStartup; hide Estimate;
  }

  lemma ExitStage(s: Sender, x: Input)
    ensures var t := ExitStartupOrDrain(s, x);
            t == s.(mode := t.mode, cycle := t.cycle)
  {
    hide Target; hide CycleGain;
  }

  lemma ProbeStage(s: Sender, x: Input, roundStart: bool, expired: bool)
    ensures var t := EnterOrExitProbeRtt(s, x, roundStart, expired);
            && t == s.(mode := t.mode, path := t.path, cycle := t.cycle, probeRtt := t.probeRtt,
                       history := s.history.(probeRttSince := t.history.probeRttSince))
            && t.path == s.path.(minRttTime := t.path.minRttTime)
  {
    hide CycleGain;
  }

  /** What the mode changes find: the gain cycle moved on, and full bandwidth checked. */
  function Cycled(s: Sender, x: Input): Sender {
    if s.mode == PROBE_BW then UpdateGainCycle(s, x) else s
  }

  function Checked(s: Sender, x: Input, roundStart: bool): Sender {
    var s1 := Cycled(s, x);
    if roundStart && !s1.path.full then s1.(path := CheckFullBandwidth(s1.path, x.sample.last)) else s1
  }

  lemma ModedIs(s: Sender, x: Input, roundStart: bool, expired: bool)
    ensures Moded(s, x, roundStart, expired)
         == EnterOrExitProbeRtt(ExitStartupOrDrain(Checked(s, x, roundStart), x), x, roundStart, expired)
    ensures var c := Checked(s, x, roundStart);
            && c == s.(path := c.path, cycle := c.cycle)
            && c.path == s.path.(full := c.path.full, baseline := c.path.baseline,
               roundsWithoutGain := c.path.roundsWithoutGain)
            && c.cycle == (if s.mode == PROBE_BW then UpdateGainCycle(s, x).cycle else s.cycle)
            && c.path == (if roundStart && !s.path.full then CheckFullBandwidth(s.path, x.sample.last) else s.path)
  {
    hide UpdateGainCycle; hide CheckFullBandwidth; hide ExitStartupOrDrain; hide EnterOrExitProbeRtt;
    CycleStage(s, x);
    CheckStage(s.path, x.sample.last);
  }

  lemma ModeStage(s: Sender, x: Input, roundStart: bool, expired: bool)
    ensures var t := Moded(s, x, roundStart, expired);
            && t == s.(mode := t.mode, path := t.path, cycle := t.cycle, probeRtt := t.probeRtt,
                       history := s.history.(probeRttSince := t.history.probeRttSince))
            && t.path == s.path.(full := t.path.full, baseline := t.path.baseline,
                                 roundsWithoutGain := t.path.roundsWithoutGain, minRttTime := t.path.minRttTime)
            && t.path.full == Checked(s, x, roundStart).path.full
            && t.path.baseline == Checked(s, x, roundStart).path.baseline
            && t.path.roundsWithoutGain == Checked(s, x, roundStart).path.roundsWithoutGain
  {
    hide Moded; hide Checked; hide ExitStartupOrDrain; hide EnterOrExitProbeRtt; hide UpdateGainCycle;
    hide CheckFullBandwidth;
    ModedIs(s, x, roundStart, expired);
    var c := Checked(s, x, roundStart);
    ExitStage(c, x);
    ProbeStage(ExitStartupOrDrain(c, x), x, roundStart, expired);
  }

  lemma WindowStage(s: Sender, x: Input, roundStart: bool)
    ensures var t := Windowed(s, x, roundStart);
            && t == s.(pacingRate := t.pacingRate, cwnd := t.cwnd, recovery := t.recovery, path := t.path,
               history := t.history)
            && t.path == s.path.(lossEvents := t.path.lossEvents, lostInRound := t.path.lostInRound)
            && t.recovery == s.recovery.(window := t.recovery.window)
            && t.history.samples == s.history.samples && t.history.trips == s.history.trips
            && t.history.events == s.history.events + 1
  {
    hide NewPacingRate; hide NewCwnd; hide NewRecoveryWindow;
  }

  /** The frames of all four stages. */
  lemma StageFrames(s: Sender, x: Input)
    ensures var roundStart := StartsRound(s.path, x.lastAcked);
            && OnEvent(s, x) == Windowed(AfterModes(s, x), x, roundStart)
            && AfterModes(s, x) == Moded(AfterSample(s, x), x, roundStart, MinRttExpires(AfterAcks(s, x).path, x))
    ensures AfterAcks(s, x).path == s.path.(roundEnd := AfterAcks(s, x).path.roundEnd,
                                            roundCount := AfterAcks(s, x).path.roundCount)
    ensures AfterAcks(s, x) == s.(path := AfterAcks(s, x).path, recovery := AfterAcks(s, x).recovery)
  {
    hide Windowed; hide Moded; hide Sampled; hide Acknowledged;
    EventIs(s, x);
    AckStage(s, x);
  }

  // ---------------------------------------------------------------- the laws hold

  lemma AckLaws(s: Sender, x: Input)
    requires s.recovery.state != NOT_IN_RECOVERY ==> s.path.full
    ensures var t := AfterAcks(s, x);
            && t.path.roundCount == (if EndsRound(s, x) then s.path.roundCount + 1 else s.path.roundCount)
            && t.path.roundEnd == (if EndsRound(s, x) || BeginsRecovery(s, x) then s.path.lastSent else s.path.roundEnd)
            && t.recovery
               == s.recovery.(state := t.recovery.state, endAt := t.recovery.endAt, window := t.recovery.window)
            && t.recovery.window == (if BeginsRecovery(s, x) then 0 else s.recovery.window)
            && (s.recovery.state == NOT_IN_RECOVERY && t.recovery.state != NOT_IN_RECOVERY <==> BeginsRecovery(s, x))
  {
  }

  lemma SampleCounts(s: Sender, x: Input)
    ensures var t := Sampled(s, x);
            && t.path.totalAcked == s.path.totalAcked + x.acked
            && t.path.lossEvents == (if x.hasLosses then s.path.lossEvents + 1 else s.path.lossEvents)
            && t.path.lostInRound == (if x.hasLosses then s.path.lostInRound + x.lost else s.path.lostInRound)
  {
    hide Update;
  }

  lemma WindowCounts(s: Sender, x: Input, roundStart: bool)
    ensures var t := Windowed(s, x, roundStart);
            && t.path.lossEvents == (if roundStart then 0 else s.path.lossEvents)
            && t.path.lostInRound == (if roundStart then 0 else s.path.lostInRound)
  {
    hide NewPacingRate; hide NewCwnd; hide NewRecoveryWindow;
  }

  lemma RoundsObey(s: Sender, x: Input)
    requires Bbr1Runs.Inv(s)
    ensures RoundLaw(s, x, OnEvent(s, x))
  {
    hide OnEvent; hide AfterAcks; hide Sampled; hide Moded; hide Windowed; hide Bbr1Runs.Inv;
    StageFrames(s, x);
    RecoveryNeedsFull(s);
    AckLaws(s, x);
    SampleStage(AfterAcks(s, x), x);
    SampleCounts(AfterAcks(s, x), x);
    AfterSampleIs(s, x);
    ModeStage(AfterSample(s, x), x, StartsRound(s.path, x.lastAcked), MinRttExpires(AfterAcks(s, x).path, x));
    WindowStage(AfterModes(s, x), x, StartsRound(s.path, x.lastAcked));
    WindowCounts(AfterModes(s, x), x, StartsRound(s.path, x.lastAcked));
  }

  lemma AfterSampleIs(s: Sender, x: Input)
    ensures AfterSample(s, x) == Sampled(AfterAcks(s, x), x)
  {
    hide Sampled; hide Acknowledged;
  }

  lemma RecoveryNeedsFull(s: Sender)
    requires Bbr1Runs.Inv(s)
    ensures s.recovery.state != NOT_IN_RECOVERY ==> s.path.full && s.recovery.window >= 5840
    ensures s.mode == STARTUP ==> !s.path.full
    ensures s.mode == DRAIN || s.mode == PROBE_BW ==> s.path.full
    ensures s.history.now > 0
  {
  }

  lemma AckRecoveryLaw(s: Sender, x: Input)
    requires s.recovery.state != NOT_IN_RECOVERY ==> s.path.full
    ensures var r, u := s.recovery, AfterAcks(s, x).recovery;
            && (x.lastAcked == None || !s.path.full ==> u.state == r.state && u.endAt == r.endAt)
            && (x.lastAcked.Some? && s.path.full ==>
                  && u.endAt == (if x.hasLosses then s.path.lastSent else r.endAt)
                  && (r.state == NOT_IN_RECOVERY ==> u.state == if x.hasLosses then CONSERVATION else NOT_IN_RECOVERY)
                  && (r.state != NOT_IN_RECOVERY ==>
                        && (u.state == NOT_IN_RECOVERY <==>
                              !x.hasLosses && r.endAt.Some? && r.endAt.value < x.lastAcked.value)
                        && (u.state == CONSERVATION ==> r.state == CONSERVATION && !EndsRound(s, x))
                        && (u.state == GROWTH ==> r.state == GROWTH || EndsRound(s, x))))
  {
  }

  lemma RecoveryWindowLaw(r: Recovery, x: Input)
    ensures var w := NewRecoveryWindow(r, x);
            if r.state == NOT_IN_RECOVERY then w == r.window else
              var kept := if r.window == 0 then 0 else if r.window < x.lost then 1460 else r.window - x.lost;
              var budget := if r.state == GROWTH && r.window != 0 then kept + x.acked else kept;
              LargestOf(w, 5840, budget, x.inFlight + x.acked)
  {
  }

  lemma RecoveryObeys(s: Sender, x: Input)
    requires Bbr1Runs.Inv(s)
    ensures RecoveryLaw(s, x, OnEvent(s, x))
  {
    hide OnEvent; hide AfterAcks; hide Sampled; hide Moded; hide Bbr1Runs.Inv; hide NewRecoveryWindow;
    hide NewPacingRate; hide NewCwnd;
    hide LargestOf;
    StageFrames(s, x);
    RecoveryNeedsFull(s);
    AckLaws(s, x);
    AckRecoveryLaw(s, x);
    SampleStage(AfterAcks(s, x), x);
    AfterSampleIs(s, x);
    ModeStage(AfterSample(s, x), x, StartsRound(s.path, x.lastAcked), MinRttExpires(AfterAcks(s, x).path, x));
    RecoveryWindowLaw(AfterAcks(s, x).recovery, x);
  }

  lemma SampleValues(s: Sender, x: Input)
    ensures var t := Sampled(s, x);
            && t.path.appLimited == (if x.sample.last.isValid then x.sample.last.appLimited else s.path.appLimited)
            && t.path.roundCount == s.path.roundCount
            && (if x.acked > 0 && (x.sample.appLimited ==> Estimate(s.path) < x.sample.maxBandwidth)
                then t.history.samples == s.history.samples + [Sample(x.sample.maxBandwidth, s.path.roundCount)]
                else t.history.samples == s.history.samples && t.path.bandwidth == s.path.bandwidth)
            && t.history.trips
               == (if x.sample.rtt == INT64_MAX then s.history.trips else s.history.trips + [x.sample.rtt])
  {
    hide Update; hide Estimate;
  }

  lemma SampleMinimum(s: Sender, x: Input)
    ensures var t := Sampled(s, x);
            var replaced := x.sample.rtt != INT64_MAX
                            && (s.path.minRtt == 0 || HasExpired(s, x) || x.sample.rtt < s.path.minRtt);
            && t.path.minRtt == (if replaced then x.sample.rtt else s.path.minRtt)
            && t.path.minRttTime == (if replaced then x.time else s.path.minRttTime)
  {
    hide Update; hide Estimate;
  }

  lemma SamplesObey(s: Sender, x: Input)
    requires Bbr1Runs.Inv(s)
    ensures SampleLaw(s, x, OnEvent(s, x)) && MinRttLaw(s, x, OnEvent(s, x))
  {
    hide OnEvent; hide AfterAcks; hide Sampled; hide Moded; hide Windowed; hide Bbr1Runs.Inv; hide Estimate;
    hide MinRttExpires;
    StageFrames(s, x);
    RecoveryNeedsFull(s);
    AckLaws(s, x);
    AfterSampleIs(s, x);
    SampleValues(AfterAcks(s, x), x);
    SampleMinimum(AfterAcks(s, x), x);
    EstimateApart(s.path, AfterAcks(s, x).path);
    ModeStage(AfterSample(s, x), x, StartsRound(s.path, x.lastAcked), MinRttExpires(AfterAcks(s, x).path, x));
    MinRttTimeStage(AfterSample(s, x), x, StartsRound(s.path, x.lastAcked), MinRttExpires(AfterAcks(s, x).path, x));
    SampleStage(AfterAcks(s, x), x);
    WindowStage(AfterModes(s, x), x, StartsRound(s.path, x.lastAcked));
  }

  lemma EstimateApart(p: Path, q: Path)
    ensures p.bandwidth == q.bandwidth ==> Estimate(p) == Estimate(q)
  {
  }

  lemma MinRttTimeStage(s: Sender, x: Input, roundStart: bool, expired: bool)
    ensures Moded(s, x, roundStart, expired).path.minRttTime
         == if s.mode == PROBE_RTT && s.probeRtt.exitAt != 0 && s.probeRtt.exitAt <= x.time
               && (s.probeRtt.roundPassed || roundStart)
            then x.time else s.path.minRttTime
  {
    hide Moded; hide Checked; hide ExitStartupOrDrain; hide EnterOrExitProbeRtt; hide UpdateGainCycle;
    hide CheckFullBandwidth;
    ModedIs(s, x, roundStart, expired);
    var c := Checked(s, x, roundStart);
    ExitStage(c, x);
    ExitModes(c, x);
    ProbeRttTime(ExitStartupOrDrain(c, x), x, roundStart, expired);
  }

  lemma ExitModes(s: Sender, x: Input)
    ensures var t := ExitStartupOrDrain(s, x);
            && (t.mode == PROBE_RTT <==> s.mode == PROBE_RTT)
            && (s.mode == PROBE_BW || s.mode == PROBE_RTT ==> t.mode == s.mode && t.cycle == s.cycle)
            && (s.mode == STARTUP || s.mode == DRAIN ==>
                  && (t.mode == STARTUP <==> s.mode == STARTUP && !s.path.full)
                  && (t.mode == DRAIN <==>
                     (s.mode == DRAIN || s.path.full) && x.inFlight > Target(s, UNIT, x.fallbackRtt)))
  {
    hide Target; hide CycleGain;
    TargetApart(s, s.(mode := DRAIN, cycle := s.cycle.(pacingGain := DRAIN_GAIN, cwndGain := HIGH_CWND_GAIN)));
  }

  /** The target looks at the path and the initial window only. */
  lemma TargetApart(s: Sender, t: Sender)
    ensures s.path.minRtt == t.path.minRtt && s.path.bandwidth == t.path.bandwidth && s.params == t.params ==>
              forall gain: Gain, rtt: int :: Target(s, gain, rtt) == Target(t, gain, rtt)
  {
    hide Scale;
  }

  lemma ProbeRttTime(s: Sender, x: Input, roundStart: bool, expired: bool)
    ensures EnterOrExitProbeRtt(s, x, roundStart, expired).path.minRttTime
         == if s.mode == PROBE_RTT && s.probeRtt.exitAt != 0 && s.probeRtt.exitAt <= x.time
               && (s.probeRtt.roundPassed || roundStart)
            then x.time else s.path.minRttTime
  {
    hide CycleGain;
  }

  // ---------------------------------------------------------------- full bandwidth

  lemma GrownIff(estimate: nat, baseline: nat)
    ensures estimate >= ScaleRate(baseline, PROBE_UP) <==> 4 * estimate + 2 > 5 * baseline
  {
  }

  lemma CheckValues(p: Path, last: SendState)
    requires !p.full
    ensures var q := CheckFullBandwidth(p, last);
            var grown := 4 * Estimate(p) + 2 > 5 * p.baseline;
            && (q.full <==> !p.appLimited && !grown && (p.roundsWithoutGain >= 2 || LossEndsStartup(p, last)))
            && q.baseline == (if !p.appLimited && grown then Estimate(p) else p.baseline)
            && q.roundsWithoutGain == (if p.appLimited then p.roundsWithoutGain
                                       else if grown then 0 else p.roundsWithoutGain + 1)
  {
    hide ScaleRate; hide Estimate; hide LossEndsStartup;
    GrownIff(Estimate(p), p.baseline);
  }

  lemma FullBandwidthObeys(s: Sender, x: Input)
    requires Bbr1Runs.Inv(s)
    ensures FullBandwidthLaw(s, x, OnEvent(s, x))
  {
    hide OnEvent; hide AfterAcks; hide Sampled; hide Moded; hide Windowed; hide Bbr1Runs.Inv; hide Estimate;
    hide Checked;
    hide CheckFullBandwidth; hide UpdateGainCycle;
    StageFrames(s, x);
    RecoveryNeedsFull(s);
    AckLaws(s, x);
    AfterSampleIs(s, x);
    SampleStage(AfterAcks(s, x), x);
    SampleCounts(AfterAcks(s, x), x);
    var u := AfterSample(s, x);
    var roundStart := StartsRound(s.path, x.lastAcked);
    ModedIs(u, x, roundStart, MinRttExpires(AfterAcks(s, x).path, x));
    ModeStage(u, x, roundStart, MinRttExpires(AfterAcks(s, x).path, x));
    if !u.path.full {
      CheckValues(u.path, x.sample.last);
    }
    WindowStage(AfterModes(s, x), x, roundStart);
    EstimateApart(u.path, OnEvent(s, x).path);
  }

  // ---------------------------------------------------------------- modes

  lemma ProbeModes(s: Sender, x: Input, roundStart: bool, expired: bool)
    ensures var t := EnterOrExitProbeRtt(s, x, roundStart, expired);
            var leaves := s.mode == PROBE_RTT && s.probeRtt.exitAt != 0 && s.probeRtt.exitAt <= x.time
                          && (s.probeRtt.roundPassed || roundStart);
            && !t.probeRtt.exitingQuiescence
            && (s.mode != PROBE_RTT && t.mode == PROBE_RTT ==> t.history.probeRttSince == x.time)
            && (t.mode == PROBE_RTT <==>
               if s.mode == PROBE_RTT then !leaves else expired && !s.probeRtt.exitingQuiescence)
            && (leaves ==> t.mode == (if s.path.full then PROBE_BW else STARTUP))
            && (s.mode != PROBE_RTT && t.mode != PROBE_RTT ==> t.mode == s.mode && t.cycle == s.cycle)
            && (t.mode == PROBE_RTT ==>
                  if s.mode == PROBE_RTT && s.probeRtt.exitAt != 0
                  then t.probeRtt.exitAt == s.probeRtt.exitAt
                      && t.probeRtt.roundPassed == (s.probeRtt.roundPassed || roundStart)
                  else if x.inFlight < 5840 + 1452 then t.probeRtt.exitAt == x.time + 200_000 && !t.probeRtt.roundPassed
                  else t.probeRtt.exitAt == 0)
  {
    hide CycleGain;
  }

  lemma ExpiryIs(s: Sender, x: Input)
    ensures MinRttExpires(AfterAcks(s, x).path, x) <==> HasExpired(s, x)
  {
    hide Acknowledged;
    AckStage(s, x);
  }

  lemma ModesObey(s: Sender, x: Input)
    requires Bbr1Runs.Inv(s)
    ensures ModeLaw(s, x, OnEvent(s, x), Target(AfterSample(s, x), UNIT, x.fallbackRtt))
    ensures ProbeRttLaw(s, x, OnEvent(s, x))
  {
    hide OnEvent; hide AfterAcks; hide Sampled; hide Moded; hide Bbr1Runs.Inv; hide Checked; hide Target;
    hide CheckFullBandwidth; hide UpdateGainCycle; hide ExitStartupOrDrain; hide EnterOrExitProbeRtt;
    hide NewPacingRate; hide NewCwnd; hide NewRecoveryWindow; hide MinRttExpires;
    StageFrames(s, x);
    RecoveryNeedsFull(s);
    AfterSampleIs(s, x);
    SampleStage(AfterAcks(s, x), x);
    ExpiryIs(s, x);
    var u := AfterSample(s, x);
    var roundStart, expired := StartsRound(s.path, x.lastAcked), MinRttExpires(AfterAcks(s, x).path, x);
    ModedIs(u, x, roundStart, expired);
    var c := Checked(u, x, roundStart);
    ModeStage(u, x, roundStart, expired);
    ExitModes(c, x);
    ExitStage(c, x);
    TargetApart(u, c);
    ProbeModes(ExitStartupOrDrain(c, x), x, roundStart, expired);
    CheckKeepsFull(u.path, x.sample.last);
  }

  lemma CheckKeepsFull(p: Path, last: SendState)
    ensures p.full ==> CheckFullBandwidth(p, last).full
  {
    hide ScaleRate; hide Estimate; hide LossEndsStartup;
  }

  // ---------------------------------------------------------------- gains

  lemma CycleGeared(s: Sender, x: Input)
    requires s.mode == PROBE_BW && Geared(s)
    ensures Geared(UpdateGainCycle(s, x)) && UpdateGainCycle(s, x).mode == PROBE_BW
  {
    hide AdvancesCycle; hide Target;
  }

  lemma EnterGeared(s: Sender, now: int, random: nat)
    ensures var t := EnterProbeBw(s, now, random);
            && Geared(t) && t.mode == PROBE_BW && AtOffset(t) && t.cycle.start == now
            && t.cycle.offset == (if random % 7 == 0 then 0 else 1 + random % 7)
  {
  }

  lemma ExitGeared(s: Sender, x: Input)
    requires Geared(s)
    ensures var t := ExitStartupOrDrain(s, x);
            && Geared(t)
            && (s.mode != PROBE_BW && t.mode == PROBE_BW ==>
                  AtOffset(t) && t.cycle.start == x.time
                  && t.cycle.offset == (if x.random % 7 == 0 then 0 else 1 + x.random % 7))
  {
    hide Target; hide EnterProbeBw;
    EnterGeared(s, x.time, x.random);
    EnterGeared(s.(mode := DRAIN, cycle := s.cycle.(pacingGain := DRAIN_GAIN, cwndGain := HIGH_CWND_GAIN)), x.time,
        x.random);
  }

  lemma ProbeGeared(s: Sender, x: Input, roundStart: bool, expired: bool)
    requires Geared(s)
    ensures var t := EnterOrExitProbeRtt(s, x, roundStart, expired);
            && Geared(t)
            && (s.mode != PROBE_BW && t.mode == PROBE_BW ==>
                  AtOffset(t) && t.cycle.start == x.time
                  && t.cycle.offset == (if x.random % 7 == 0 then 0 else 1 + x.random % 7))
  {
    hide EnterProbeBw;
    var s1 := s.(path := s.path.(minRttTime := x.time),
                 probeRtt := s.probeRtt.(roundPassed := s.probeRtt.roundPassed || roundStart));
    EnterGeared(s1, x.time, x.random);
  }

  lemma CycleMoves(s: Sender, x: Input)
    requires s.mode == PROBE_BW && Geared(s)
    ensures var c := UpdateGainCycle(s, x).cycle;
            var minRtt := if s.path.minRtt == 0 then x.fallbackRtt else s.path.minRtt;
            var bdp, probe := Target(s, UNIT, x.fallbackRtt), Target(s, PROBE_UP, x.fallbackRtt);
            if !MovesOn(s, x, minRtt, bdp, probe) then c == s.cycle else
              && c.start == x.time && c.offset == (if s.cycle.offset == 7 then 0 else s.cycle.offset + 1)
              && (if s.params.drainToTarget && s.cycle.pacingGain == Ratio(3, 4) && c.offset >= 2 && x.inFlight > bdp
                  then Held(s.(cycle := c)) else AtOffset(s.(cycle := c)))
  {
    hide Target;
  }

  lemma GainsObey(s: Sender, x: Input)
    requires Bbr1Runs.Inv(s) && Geared(s)
    ensures Geared(OnEvent(s, x))
    ensures CycleLaw(s, x, OnEvent(s, x), Target(AfterSample(s, x), UNIT, x.fallbackRtt),
                     Target(AfterSample(s, x), PROBE_UP, x.fallbackRtt))
  {
    hide OnEvent; hide AfterAcks; hide Sampled; hide Moded; hide Bbr1Runs.Inv; hide Checked; hide Target; hide Geared;
    hide CheckFullBandwidth; hide UpdateGainCycle; hide ExitStartupOrDrain; hide EnterOrExitProbeRtt; hide AtOffset;
    hide Held;
    hide NewPacingRate; hide NewCwnd; hide NewRecoveryWindow; hide MinRttExpires; hide MovesOn;
    StageFrames(s, x);
    AfterSampleIs(s, x);
    SampleStage(AfterAcks(s, x), x);
    var u := AfterSample(s, x);
    var roundStart, expired := StartsRound(s.path, x.lastAcked), MinRttExpires(AfterAcks(s, x).path, x);
    GearedApart(s, u);
    ModedIs(u, x, roundStart, expired);
    ModeStage(u, x, roundStart, expired);
    var c := Checked(u, x, roundStart);
    if s.mode == PROBE_BW {
      CycleGeared(u, x);
      CycleStage(u, x);
      CycleMoves(u, x);
      MovesApart(s, u, x);
    }
    GearedApart(if s.mode == PROBE_BW then UpdateGainCycle(u, x) else u, c);
    ExitGeared(c, x);
    ExitModes(c, x);
    ExitStage(c, x);
    ProbeModes(ExitStartupOrDrain(c, x), x, roundStart, expired);
    ProbeGeared(ExitStartupOrDrain(c, x), x, roundStart, expired);
    WindowStage(AfterModes(s, x), x, roundStart);
    GearedApart(ExitStartupOrDrain(c, x), OnEvent(s, x));
    GearedApart(AfterModes(s, x), OnEvent(s, x));
    GearedApart(u.(cycle := OnEvent(s, x).cycle), OnEvent(s, x));
  }

  lemma GearedApart(s: Sender, t: Sender)
    requires s.params == t.params
    ensures s.cycle == t.cycle ==> (AtOffset(s) <==> AtOffset(t)) && (Held(s) <==> Held(t))
    ensures s.cycle == t.cycle && s.mode == t.mode ==> (Geared(s) <==> Geared(t))
  {
  }

  lemma MovesApart(s: Sender, t: Sender, x: Input)
    ensures s.cycle == t.cycle ==>
              forall rtt: int, bdp: int, probe: int :: MovesOn(s, x, rtt, bdp, probe) <==>
                  MovesOn(t, x, rtt, bdp, probe)
  {
  }

  // ---------------------------------------------------------------- rate and window

  lemma RateValues(s: Sender, x: Input)
    ensures RateLaw(s, x, s.(pacingRate := NewPacingRate(s, x)))
  {
    hide ScaleRate; hide Estimate;
    ScaleRateIs(Estimate(s.path), s.cycle.pacingGain);
  }

  lemma CwndValues(s: Sender, x: Input)
    requires s.mode != PROBE_RTT ==> s.cycle.cwndGain == Ratio(2, 1)
    requires 5840 <= s.params.maxCwnd
    ensures CwndLaw(s, x, s.(cwnd := NewCwnd(s, x)), Target(s, CWND_GAIN, x.fallbackRtt))
  {
    hide Target;
  }

  lemma ControlsObey(s: Sender, x: Input)
    requires Bbr1Runs.Inv(s) && Geared(s)
    ensures RateLaw(s, x, OnEvent(s, x))
    ensures CwndLaw(s, x, OnEvent(s, x), Target(AfterSample(s, x), CWND_GAIN, x.fallbackRtt))
  {
    hide OnEvent; hide AfterAcks; hide Sampled; hide Moded; hide Bbr1Runs.Inv; hide Checked; hide Target;
    hide NewPacingRate; hide NewCwnd; hide NewRecoveryWindow; hide MinRttExpires; hide Estimate; hide IsNearest;
    hide AtOffset;
    hide Held;
    GainsObey(s, x);
    StageFrames(s, x);
    AfterSampleIs(s, x);
    SampleStage(AfterAcks(s, x), x);
    var u, m := AfterSample(s, x), AfterModes(s, x);
    var roundStart, expired := StartsRound(s.path, x.lastAcked), MinRttExpires(AfterAcks(s, x).path, x);
    ModeStage(u, x, roundStart, expired);
    WindowStage(m, x, roundStart);
    MaximumLargeEnough(s);
    RateValues(m, x);
    CwndValues(m, x);
    TargetApart(u, m);
    EstimateApart(m.path, OnEvent(s, x).path);
  }

  lemma MaximumLargeEnough(s: Sender)
    requires Bbr1Runs.Inv(s)
    ensures 5840 <= s.params.maxCwnd
  {
  }

  // ---------------------------------------------------------------- all of it, in every run

  /** The three targets that an event compares with: one and two bandwidth-delay products, and one and a quarter. */
  ghost predicate TargetsObey(s: Sender, x: Input, t: Sender, one: int, two: int, probe: int) {
    && IsTarget(one, t, 1, 1, x.fallbackRtt) && IsTarget(two, t, 2, 1, x.fallbackRtt)
       && IsTarget(probe, t, 5, 4, x.fallbackRtt)
    && ModeLaw(s, x, t, one) && CycleLaw(s, x, t, one, probe) && CwndLaw(s, x, t, two)
  }

  ghost predicate Obeys(s: Sender, x: Input, t: Sender) {
    && RoundLaw(s, x, t) && RecoveryLaw(s, x, t) && SampleLaw(s, x, t) && MinRttLaw(s, x, t)
       && FullBandwidthLaw(s, x, t)
    && ProbeRttLaw(s, x, t) && Geared(t) && RateLaw(s, x, t)
    && exists one: int, two: int, probe: int :: TargetsObey(s, x, t, one, two, probe)
  }

  lemma TargetsAre(s: Sender, t: Sender, gain: Gain, fallbackRtt: int)
    requires s.path.minRtt == t.path.minRtt && s.path.bandwidth == t.path.bandwidth && s.params == t.params
    ensures IsTarget(Target(s, gain, fallbackRtt), t, gain.num, gain.den, fallbackRtt)
  {
    hide Target; hide IsTarget;
    TargetApart(s, t);
    TargetIs(t, gain, fallbackRtt);
  }

  lemma EventObeys(s: Sender, x: Input)
    requires Bbr1Runs.Inv(s) && Geared(s)
    ensures Obeys(s, x, OnEvent(s, x)) && Geared(OnEvent(s, x))
  {
    hide OnEvent; hide AfterAcks; hide Sampled; hide Moded; hide Windowed; hide Bbr1Runs.Inv; hide Target;
    hide IsTarget;
    hide RoundLaw; hide RecoveryLaw; hide SampleLaw; hide MinRttLaw; hide FullBandwidthLaw; hide ProbeRttLaw;
    hide Geared;
    hide RateLaw; hide ModeLaw; hide CycleLaw; hide CwndLaw; hide AfterSample; hide AfterModes;
    RoundsObey(s, x);
    RecoveryObeys(s, x);
    SamplesObey(s, x);
    FullBandwidthObeys(s, x);
    ModesObey(s, x);
    GainsObey(s, x);
    ControlsObey(s, x);
    var u, t := AfterSample(s, x), OnEvent(s, x);
    EndKeepsPath(s, x);
    TargetsAre(u, t, UNIT, x.fallbackRtt);
    TargetsAre(u, t, CWND_GAIN, x.fallbackRtt);
    TargetsAre(u, t, PROBE_UP, x.fallbackRtt);
    assert TargetsObey(s, x, t, Target(u, UNIT, x.fallbackRtt), Target(u, CWND_GAIN, x.fallbackRtt),
                       Target(u, PROBE_UP, x.fallbackRtt));
  }

  lemma EndKeepsPath(s: Sender, x: Input)
    ensures var u, t := AfterSample(s, x), OnEvent(s, x);
            u.path.minRtt == t.path.minRtt && u.path.bandwidth == t.path.bandwidth && u.params == t.params
  {
    hide OnEvent; hide AfterAcks; hide Sampled; hide Moded; hide Windowed;
    StageFrames(s, x);
    var roundStart := StartsRound(s.path, x.lastAcked);
    ModeStage(AfterSample(s, x), x, roundStart, MinRttExpires(AfterAcks(s, x).path, x));
    WindowStage(AfterModes(s, x), x, roundStart);
  }

  /** The minimum round trip is one of the samples, and none from that one on is smaller. */
  ghost predicate TripsInv(s: Sender) {
    if s.history.trips == [] then s.path.minRtt == 0 else exists i: nat :: LeastSince(s.history.trips, i, s.path.minRtt)
  }

  ghost predicate LeastSince(trips: seq<int>, i: nat, least: int) {
    i < |trips| && trips[i] == least && forall j: nat :: i <= j < |trips| ==> least <= trips[j]
  }

  lemma EventKeepsTrips(s: Sender, x: Input, t: Sender)
    requires TripsInv(s) && SampleLaw(s, x, t) && MinRttLaw(s, x, t)
    ensures TripsInv(t)
  {
    var trips := s.history.trips;
    if x.sample.rtt != INT64_MAX {
      var n := |trips|;
      assert t.history.trips[n] == x.sample.rtt;
      if t.path.minRtt == x.sample.rtt {
        assert LeastSince(t.history.trips, n, x.sample.rtt);
      } else if trips != [] {
        var i: nat :| LeastSince(trips, i, s.path.minRtt);
        assert LeastSince(t.history.trips, i, t.path.minRtt);
      }
    }
  }

  /** What a sent packet changes. */
  predicate SentLaw(s: Sender, packetNumber: nat, bytesInFlight: nat, samplerAppLimited: bool, t: Sender) {
    && t.path == s.path.(lastSent := Some(packetNumber))
    && t.probeRtt.exitingQuiescence == (s.probeRtt.exitingQuiescence || (bytesInFlight == 0 && samplerAppLimited))
    && t == s.(path := t.path, probeRtt := s.probeRtt.(exitingQuiescence := t.probeRtt.exitingQuiescence))
  }

  ghost predicate StepObeys(s: Sender, step: Step, t: Sender) {
    match step
    case Congestion(x) => Obeys(s, x, t)
    case SentPacket(n, inFlight, limited) => SentLaw(s, n, inFlight, limited, t)
  }

  lemma StepObeysLaws(s: Sender, step: Step)
    requires Bbr1Runs.Inv(s) && Geared(s) && TripsInv(s)
    ensures StepObeys(s, step, Next(s, step)) && Geared(Next(s, step)) && TripsInv(Next(s, step))
  {
    hide OnEvent; hide Bbr1Runs.Inv; hide RoundLaw; hide RecoveryLaw; hide SampleLaw; hide MinRttLaw;
    hide FullBandwidthLaw;
    hide ProbeRttLaw; hide RateLaw; hide TargetsObey;
    match step {
      case Congestion(x) =>
        EventObeys(s, x);
        EventKeepsTrips(s, x, OnEvent(s, x));
      case SentPacket(_, _, _) =>
    }
  }

  lemma {:induction false} RunKeepsLaws(s: Sender, steps: seq<Step>)
    requires Bbr1Runs.Inv(s) && Geared(s) && TripsInv(s) && Possible(s, steps)
    ensures Bbr1Runs.Inv(Bbr1Runs.Run(s, steps)) && Geared(Bbr1Runs.Run(s, steps)) && TripsInv(Bbr1Runs.Run(s, steps))
    decreases |steps|
  {
    hide Next; hide Bbr1Runs.Inv; hide Geared; hide TripsInv; hide StepObeys; hide WindowAndRateGrow;
    if steps != [] {
      StepKeepsInv(s, steps[0]);
      StepObeysLaws(s, steps[0]);
      RunKeepsLaws(Next(s, steps[0]), steps[1..]);
    }
  }

  /** The sender as constructed: no bandwidth, no round trip, no packet yet, and the gains of STARTUP. */
  lemma StartLaw(p: Params, now: int)
    ensures var s := NewSender(p, now);
            && s.mode == STARTUP && Geared(s) && TripsInv(s)
            && s.params == p && s.cwnd == p.initialCwnd && s.pacingRate == 0 && Estimate(s.path) == 0
               && s.path.minRtt == 0
            && s.path.lastSent == None && s.path.roundEnd == None && s.path.roundCount == 0 && s.path.totalAcked == 0
            && s.path.lossEvents == 0 && s.path.lostInRound == 0 && !s.path.appLimited && !s.path.full
            && s.path.baseline == 0 && s.path.roundsWithoutGain == 0 && s.path.bandwidth.window == 10
            && s.recovery == Recovery(NOT_IN_RECOVERY, None, p.maxCwnd) && s.probeRtt == ProbeRtt(0, false, false)
            && s.cycle.start == 0 && s.cycle.offset == 0 && s.history.now == now && s.history.probeRttSince == 0
  {
  }

  /** In every run every step obeys the laws, and the minimum round trip is a sample that no later one undercuts. */
  lemma EveryStepObeys(p: Params, now: int, steps: seq<Step>, step: Step)
    requires now > 0 && MIN_CWND <= p.maxCwnd
    requires Possible(NewSender(p, now), steps) && Enabled(Bbr1Runs.Run(NewSender(p, now), steps), step)
    ensures var s := Bbr1Runs.Run(NewSender(p, now), steps); StepObeys(s, step, Next(s, step)) && TripsInv(s)
  {
    hide Bbr1Runs.Inv; hide Geared; hide TripsInv; hide StepObeys; hide Next;
    NewSenderInv(p, now);
    StartLaw(p, now);
    RunKeepsLaws(NewSender(p, now), steps);
    StepObeysLaws(Bbr1Runs.Run(NewSender(p, now), steps), step);
  }
}
