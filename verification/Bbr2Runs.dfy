/** Whole events and whole runs of the BBRv2 sender. */
module Bbr2Runs {
  import opened Base
  import opened Samples
  import opened Gains
  import opened Bbr2Model
  import opened Bbr2Modes
  import opened Bbr2Invariants

  // ---------------------------------------------------------------- the mode loop

  /** How the mode loop of one event ended: `settled` when the mode proposed itself, not when
      the limit on mode changes cut the loop off. */
  datatype Settling = Settling(sender: Sender, changes: nat, settled: bool)

  const MAX_MODE_CHANGES: nat := 4

  /** The loop of `Bbr2Sender::OnCongestionEvent`; `allowed` is what is left of the limit. */
  ghost function Settle(s: Sender, ev: Event, priorInFlight: nat, allowed: nat): Settling
    requires LoopInv(s) && Timely(s, ev) && CreditPending(s, ev)
    decreases allowed
  {
    var (s1, next) := Dispatch(s, ev, priorInFlight);
    if next == s.mode then Settling(s1, 0, true) else
      var s2 := Switch(s1, next, ev.time, ev.randomRounds, ev.randomWait);
      if allowed == 0 then Settling(s2, 1, false) else
        TurnKeeps(s, ev, priorInFlight);
        var r := Settle(s2, ev, priorInFlight, allowed - 1);
        r.(changes := r.changes + 1)
  }

  /** From any reachable state the loop ends because a mode proposes itself, after at most
      `ChangesLeft` and so at most three mode changes; the limit of four is never reached. */
  lemma {:induction false} ModeLoopSettles(s: Sender, ev: Event, priorInFlight: nat, allowed: nat)
    requires LoopInv(s) && Timely(s, ev) && CreditPending(s, ev) && ChangesLeft(s) <= allowed
    ensures var r := Settle(s, ev, priorInFlight, allowed);
            && r.settled && r.changes <= ChangesLeft(s) <= 3
            && LoopInv(r.sender) && Frame(s, r.sender)
            && (r.sender.mode == STARTUP ==> r.changes == 0 && s.mode == STARTUP)
    decreases allowed
  {
    hide LoopInv; hide Dispatch; hide Switch;
    TurnKeeps(s, ev, priorInFlight);
    var (s1, next) := Dispatch(s, ev, priorInFlight);
    if next != s.mode {
      ModeLoopSettles(Switch(s1, next, ev.time, ev.randomRounds, ev.randomWait), ev, priorInFlight, allowed - 1);
    }
  }

  // ---------------------------------------------------------------- one event

  ghost predicate Inv(s: Sender) {
    LoopInv(s) && 0 < s.params.minCwnd <= s.cwnd <= s.params.maxCwnd <= UNSET
  }

  datatype Occurrence =
    | Congestion(x: Input)
    | SentPacket(time: int, number: nat, inFlight: nat)

  /** A clock that does not run backwards, positive round-trip samples, random picks below
      their limits. */
  ghost predicate Enabled(s: Sender, o: Occurrence) {
    match o
    case Congestion(x) =>
      s.history.now <= x.time && x.sample.rtt > 0 && x.randomRounds < PROBE_RAND_ROUNDS
          && x.randomWait < PROBE_RAND_DURATION
    case SentPacket(time, _, _) => s.history.now <= time
  }

  /** The model at the start of the event: what the modes rely on is still there. */
  lemma EventStartFacts(m: Model, x: Input, priorCwnd: nat, probing: bool)
    requires m.minRtt > 0 && x.sample.rtt > 0
    ensures var r := EventStart(m, x, priorCwnd, probing);
            && r.minRtt > 0 && r.fullBandwidthReached == m.fullBandwidthReached
            && r.baseline == m.baseline && r.roundsWithoutGrowth == m.roundsWithoutGrowth
            && MaxBandwidth(m) <= MaxBandwidth(r) && r.totalAcked == m.totalAcked + x.acked
            && (probing ==> r.bandwidthLo == m.bandwidthLo && r.inflightLo == m.inflightLo)
  {
    hide Scale; hide ScaleRate;
  }

  lemma StartKeeps(s: Sender, x: Input)
    requires LoopInv(s) && Enabled(s, Congestion(x))
    ensures LoopInv(Started(s, x)) && Timely(Started(s, x), EventFor(s, x))
            && CreditPending(Started(s, x), EventFor(s, x))
    ensures Started(s, x).mode == s.mode && Started(s, x).cwnd == s.cwnd && Started(s, x).pacingRate == s.pacingRate
    ensures Started(s, x).params == s.params && Started(s, x).model.totalAcked == s.model.totalAcked + x.acked
    ensures MaxBandwidth(s.model) <= MaxBandwidth(Started(s, x).model)
    ensures Started(s, x).model.baseline == s.model.baseline
    ensures Started(s, x).model.roundsWithoutGrowth == s.model.roundsWithoutGrowth
  {
    hide EventStart; hide MaxBandwidth;
    EventStartFacts(s.model, x, s.cwnd, Probing(s));
  }

  lemma AtMostThreeAllowed(s: Sender)
    ensures ChangesLeft(s) <= 3
  {}

  lemma FinishedKeeps(s: Sender, ev: Event)
    requires LoopInv(s) && 0 < s.params.minCwnd <= s.params.maxCwnd <= UNSET
    ensures Inv(Finished(s, ev)) && Finished(s, ev).mode == s.mode && Finished(s, ev).history == s.history
    ensures Finished(s, ev).params == s.params && Finished(s, ev).model.totalAcked == s.model.totalAcked
    ensures MaxBandwidth(Finished(s, ev).model) == MaxBandwidth(s.model)
    ensures Finished(s, ev).model.baseline == s.model.baseline
    ensures Finished(s, ev).model.roundsWithoutGrowth == s.model.roundsWithoutGrowth
  {
    hide Scale; hide Bdp; hide ScaleRate; hide Rate; hide ModeLimit; hide TargetCwnd; hide NewPacingRate;
  }

  /** `Bbr2Sender::OnCongestionEvent`. */
  ghost function OnEvent(s: Sender, x: Input): Sender
    requires Inv(s) && Enabled(s, Congestion(x))
  {
    hide LoopInv;
    StartKeeps(s, x);
    AtMostThreeAllowed(Started(s, x));
    ModeLoopSettles(Started(s, x), EventFor(s, x), x.priorInFlight, MAX_MODE_CHANGES);
    var r := Settle(Started(s, x), EventFor(s, x), x.priorInFlight, MAX_MODE_CHANGES).sender;
    MinRttPositive(r);
    Finished(r, EventFor(s, x))
  }

  lemma MinRttPositive(s: Sender)
    requires LoopInv(s)
    ensures s.model.minRtt > 0
  {}

  lemma EventKeepsInv(s: Sender, x: Input)
    requires Inv(s) && Enabled(s, Congestion(x))
    ensures Inv(OnEvent(s, x))
    ensures OnEvent(s, x).mode == STARTUP ==> s.mode == STARTUP
    ensures OnEvent(s, x).history.now == x.time && OnEvent(s, x).params == s.params
    ensures OnEvent(s, x).model.totalAcked == s.model.totalAcked + x.acked
  {
    hide LoopInv; hide Settle; hide Started; hide Finished; hide Timely; hide CreditPending; hide EventFor;
    StartKeeps(s, x);
    var start, ev := Started(s, x), EventFor(s, x);
    AtMostThreeAllowed(start);
    ModeLoopSettles(start, ev, x.priorInFlight, MAX_MODE_CHANGES);
    StartedNow(s, x);
    FinishedKeeps(Settle(start, ev, x.priorInFlight, MAX_MODE_CHANGES).sender, ev);
  }

  lemma StartedNow(s: Sender, x: Input)
    ensures Started(s, x).history.now == x.time
  {}

  lemma SentKeepsInv(s: Sender, time: int, number: nat, inFlight: nat)
    requires Inv(s) && Enabled(s, SentPacket(time, number, inFlight))
    ensures var r := OnSent(s, time, number, inFlight);
            && Inv(r) && r.history.now == time && r.params == s.params
            && (r.mode == STARTUP <==> s.mode == STARTUP) && r.cwnd == s.cwnd && r.pacingRate == s.pacingRate
            && r.model.totalAcked == s.model.totalAcked
            && (s.mode == STARTUP ==> r.model == s.model.(lastSent := Some(number)))
  {
    hide ExitQuiescence;
    QuiescenceKeeps(s.(history := s.history.(now := time)), time);
  }

  lemma LaterKeeps(s: Sender, time: int)
    requires LoopInv(s) && s.history.now <= time
    ensures LoopInv(s.(history := s.history.(now := time)))
  {}

  lemma QuiescenceKeeps(s: Sender, now: int)
    requires LoopInv(s) && now == s.history.now
    ensures var r := ExitQuiescence(s, now);
            && LoopInv(r) && Frame(s, r.(quiescenceStart := s.quiescenceStart))
            && (r.mode == STARTUP <==> s.mode == STARTUP) && (s.mode == STARTUP ==> r.model == s.model)
  {
    hide Switch;
    if s.mode == PROBE_RTT && now > s.exitTime {
      SwitchFromProbeRtt(s, now, 0, 0);
      SwitchSetsMode(s, PROBE_BW, now, 0, 0);
    }
  }

  // ---------------------------------------------------------------- runs

  ghost function Next(s: Sender, o: Occurrence): (r: Sender)
    requires Inv(s) && Enabled(s, o)
    ensures Inv(r)
  {
    match o
    case Congestion(x) => EventKeepsInv(s, x); OnEvent(s, x)
    case SentPacket(time, number, inFlight) =>
      SentKeepsInv(s, time, number, inFlight); OnSent(s, time, number, inFlight)
  }

  ghost predicate Possible(s: Sender, os: seq<Occurrence>)
    requires Inv(s)
    decreases |os|
  {
    os == [] || (Enabled(s, os[0]) && Possible(Next(s, os[0]), os[1..]))
  }

  ghost function Run(s: Sender, os: seq<Occurrence>): Sender
    requires Inv(s) && Possible(s, os)
    decreases |os|
  {
    if os == [] then s else Run(Next(s, os[0]), os[1..])
  }

  lemma {:induction false} RunKeepsInv(s: Sender, os: seq<Occurrence>)
    requires Inv(s) && Possible(s, os)
    ensures Inv(Run(s, os))
    decreases |os|
  {
    hide Inv; hide Next; hide Enabled;
    if os != [] {
      RunKeepsInv(Next(s, os[0]), os[1..]);
    }
  }

  /** A new sender; the round-trip time is the smoothed or the initial one. */
  function NewSender(params: Params, now: int, rtt: int, rttTime: int): Sender
    requires rtt > 0
  {
    var cwnd := ApplyLimits(params.initialCwnd, params.minCwnd, params.maxCwnd);
    Sender(params.(initialCwnd := cwnd), STARTUP,
           Model(None, None, 0, 0, (0, 0), rtt, rttTime, 0, 0, 0, 0, INFINITE_BANDWIDTH, 0, UNSET, UNSET,
                 STARTUP_CWND_GAIN, STARTUP_PACING_GAIN, false, 0, 0),
           NEW_CYCLE, false, false, 0, cwnd, ScaleRate(Rate(cwnd, rtt), STARTUP_PACING_GAIN), 0,
           History(now, 0, 0, 0, 0, [rtt]))
  }

  lemma NewSenderInv(params: Params, now: int, rtt: int, rttTime: int)
    requires 0 < params.minCwnd <= params.maxCwnd <= UNSET && now > 0 && rtt > 0
    ensures Inv(NewSender(params, now, rtt, rttTime))
  {
    hide ScaleRate; hide Rate;
  }

  /** The limits that a connection sets up: a smallest window above zero, a largest that is a real window, a running
      clock and a round-trip time. */
  predicate Configured(params: Params, now: int, rtt: int) {
    0 < params.minCwnd <= params.maxCwnd <= UNSET && now > 0 && rtt > 0
  }

  /** Where every run begins. */
  ghost function Begin(params: Params, now: int, rtt: int, rttTime: int): (s: Sender)
    requires Configured(params, now, rtt)
    ensures Inv(s)
  {
    NewSenderInv(params, now, rtt, rttTime);
    NewSender(params, now, rtt, rttTime)
  }

  // ---------------------------------------------------------------- what every run guarantees

  /** In every run: no lower bounds while probing for bandwidth; the window within its limits;
      upward steps paid for by acks, at no less than one segment each and with a shift of at
      most 30; one `Advance` for every visit to PROBE_DOWN that has ended; STARTUP exactly as
      long as full bandwidth has not been reached. */
  lemma EveryRunGuarantees(params: Params, now: int, rtt: int, rttTime: int, os: seq<Occurrence>)
    requires Configured(params, now, rtt) && Possible(Begin(params, now, rtt, rttTime), os)
    ensures var s := Run(Begin(params, now, rtt, rttTime), os);
            && (s.mode == STARTUP || (s.mode == PROBE_BW && s.cycle.phase in {REFILL, UP}) ==>
                  s.model.bandwidthLo == INFINITE_BANDWIDTH && s.model.inflightLo == UNSET)
            && s.params.minCwnd <= s.cwnd <= s.params.maxCwnd
            && s.history.raised + s.cycle.probeUpAcked <= s.history.credit
            && s.cycle.probeUpBytes >= MSS && s.cycle.probeUpRounds <= 30
            && (s.cycle.phase != DOWN ==> s.history.advances == s.history.downs)
            && (s.cycle.phase == DOWN ==> s.history.downs - 1 <= s.history.advances <= s.history.downs)
            && (s.mode == STARTUP <==> !s.model.fullBandwidthReached)
            && (s.mode == PROBE_RTT ==> s.cycle.phase in {CRUISE, REFILL})
  {
    hide Possible; hide Run; hide Begin;
    RunKeepsInv(Begin(params, now, rtt, rttTime), os);
  }

  /** In every run, every congestion event: the mode loop ends because the mode it has reached proposes itself, after at
      most three mode changes, so the limit of four never cuts it off. */
  lemma EveryEventSettles(params: Params, now: int, rtt: int, rttTime: int, os: seq<Occurrence>, x: Input)
    requires Configured(params, now, rtt) && Possible(Begin(params, now, rtt, rttTime), os)
    requires Enabled(Run(Begin(params, now, rtt, rttTime), os), Congestion(x))
    ensures var s := Run(Begin(params, now, rtt, rttTime), os);
            && LoopInv(Started(s, x)) && Timely(Started(s, x), EventFor(s, x))
               && CreditPending(Started(s, x), EventFor(s, x))
            && (var r := Settle(Started(s, x), EventFor(s, x), x.priorInFlight, MAX_MODE_CHANGES);
                r.settled && r.changes <= 3)
  {
    hide Possible; hide Run; hide Begin; hide LoopInv; hide Started; hide EventFor; hide Settle; hide Timely;
    hide CreditPending;
    hide Enabled; hide ChangesLeft;
    var s := Run(Begin(params, now, rtt, rttTime), os);
    RunKeepsInv(Begin(params, now, rtt, rttTime), os);
    StartKeeps(s, x);
    AtMostThreeAllowed(Started(s, x));
    ModeLoopSettles(Started(s, x), EventFor(s, x), x.priorInFlight, MAX_MODE_CHANGES);
  }

  // ---------------------------------------------------------------- the window

  lemma FinishedWindow(s: Sender, ev: Event)
    requires LoopInv(s)
    ensures var r := Finished(s, ev);
            r.cwnd <= Max(s.cwnd + ev.acked, s.params.minCwnd)
                && r.cwnd <= Max(ModeLimit(r.mode, r.cycle.phase, r.model), s.params.minCwnd)
  {
    hide NewPacingRate; hide LoopInv; hide NewCwnd; hide ModeLimit;
    MinRttPositive(s);
    LimitApart(s, NewPacingRate(s, ev.acked), ev);
    NewCwndWithin(s, ev.acked, ev.ackHeight);
  }

  lemma LimitApart(s: Sender, rate: nat, ev: Event)
    ensures NewCwnd(s.(pacingRate := rate), ev.acked, ev.ackHeight) == NewCwnd(s, ev.acked, ev.ackHeight)
    ensures ModeLimit(s.mode, s.cycle.phase, NewRound(s.model)) == ModeLimit(s.mode, s.cycle.phase, s.model)
  {
    hide Scale; hide TargetCwnd;
  }

  /** What the window may become: at most the bytes acked above the old one, and at most the limit of the mode, unless
      the smallest window is larger than these; and always within its own limits. */
  lemma NewCwndWithin(s: Sender, acked: nat, ackHeight: nat)
    ensures var cwnd := NewCwnd(s, acked, ackHeight);
            && cwnd <= Max(s.cwnd + acked, s.params.minCwnd)
            && cwnd <= Max(ModeLimit(s.mode, s.cycle.phase, s.model), s.params.minCwnd)
            && (s.params.minCwnd <= s.params.maxCwnd ==> s.params.minCwnd <= cwnd <= s.params.maxCwnd)
  {
    hide TargetCwnd; hide ModeLimit;
  }

  /** After every congestion event the window has grown by no more than the bytes acked, and obeys the limit of the mode
      the event ended in, the smallest window apart. */
  lemma EventPaysForItsWindow(s: Sender, x: Input)
    requires Inv(s) && Enabled(s, Congestion(x))
    ensures var r := OnEvent(s, x);
            && r.cwnd <= Max(s.cwnd + x.acked, s.params.minCwnd)
            && r.cwnd <= Max(ModeLimit(r.mode, r.cycle.phase, r.model), r.params.minCwnd)
  {
    hide LoopInv; hide Settle; hide Finished; hide Timely; hide CreditPending; hide ModeLimit; hide EventStart;
    StartKeeps(s, x);
    var start, ev := Started(s, x), EventFor(s, x);
    AtMostThreeAllowed(start);
    ModeLoopSettles(start, ev, x.priorInFlight, MAX_MODE_CHANGES);
    var settled := Settle(start, ev, x.priorInFlight, MAX_MODE_CHANGES).sender;
    FinishedKeeps(settled, ev);
    FinishedWindow(settled, ev);
  }

  lemma {:induction false} RunPaysForItsWindow(s: Sender, os: seq<Occurrence>)
    requires Inv(s) && Possible(s, os) && s.params.minCwnd <= s.params.initialCwnd
    requires s.cwnd <= s.params.initialCwnd + s.model.totalAcked
    ensures var r := Run(s, os);
            r.params == s.params && r.cwnd <= r.params.initialCwnd + r.model.totalAcked
    decreases |os|
  {
    hide Inv; hide OnEvent; hide OnSent; hide Enabled; hide ModeLimit;
    if os != [] {
      match os[0] {
        case Congestion(x) =>
          EventPaysForItsWindow(s, x);
          EventKeepsInv(s, x);
        case SentPacket(time, number, inFlight) => SentKeepsInv(s, time, number, inFlight);
      }
      RunPaysForItsWindow(Next(s, os[0]), os[1..]);
    }
  }

  /** In every run the window never exceeds the initial one by more than all the bytes acked so far. */
  lemma WindowGrowsByAcksOnly(params: Params, now: int, rtt: int, rttTime: int, os: seq<Occurrence>)
    requires Configured(params, now, rtt) && Possible(Begin(params, now, rtt, rttTime), os)
    ensures var s := Run(Begin(params, now, rtt, rttTime), os);
            s.cwnd <= ApplyLimits(params.initialCwnd, params.minCwnd, params.maxCwnd) + s.model.totalAcked
  {
    hide Possible; hide Run; hide ScaleRate; hide Rate; hide Inv;
    RunPaysForItsWindow(Begin(params, now, rtt, rttTime), os);
  }

  // ---------------------------------------------------------------- probing in time

  /** Between two probes fewer than 63 rounds go by. */
  predicate ProbesInTime(s: Sender) {
    s.cycle.phase == DOWN || s.cycle.phase == CRUISE ==> s.cycle.roundsSinceProbe < PROBE_MAX_ROUNDS
  }

  lemma DrainDownProbesInTime(s: Sender, ev: Event)
    ensures ProbesInTime(DrainDown(s, ev))
  {
    hide AdaptUpperBounds; hide TargetInflight; hide HiWithHeadroom; hide Bdp; hide AdvancedFilter;
    AdaptUpperBoundsChanges(s, ev);
    LeftDownKeepsRounds(AdaptUpperBounds(s, ev));
  }

  lemma LeftDownKeepsRounds(s: Sender)
    ensures LeftDown(s).cycle == s.cycle.(hasAdvancedMaxBw := LeftDown(s).cycle.hasAdvancedMaxBw)
  {}

  /** Whatever the phase, after its update the next probe is due in time: in PROBE_DOWN and PROBE_CRUISE because it
      would have begun otherwise, and a new PROBE_DOWN starts its count below 2. */
  lemma PhaseProbesInTime(s: Sender, ev: Event, priorInFlight: nat)
    requires Slopes(s) && s.cycle.phase != NOT_STARTED && ev.randomRounds < PROBE_RAND_ROUNDS
    ensures ProbesInTime(PhaseStep(s, ev, priorInFlight))
  {
    hide AdaptUpperBounds; hide TargetInflight; hide DrainDown; hide ProbeUpward; hide ProbedTooHigh; hide LeftDown;
    AdaptUpperBoundsChanges(s, ev);
    match s.cycle.phase {
      case UP => ProbeUpwardStaysUp(AdaptUpperBounds(s, ev), ev);
      case DOWN =>
        DrainDownProbesInTime(s, ev);
        DrainDownProbesInTime(FirstRound(s, ev), ev);
      case CRUISE =>
      case REFILL =>
    }
  }

  lemma ProbeUpwardStaysUp(s: Sender, ev: Event)
    requires Slopes(s)
    ensures ProbeUpward(s, ev).cycle.phase == s.cycle.phase
  {}

  lemma DispatchProbesInTime(s: Sender, ev: Event, priorInFlight: nat)
    requires LoopInv(s) && ProbesInTime(s) && ev.randomRounds < PROBE_RAND_ROUNDS
    ensures ProbesInTime(Dispatch(s, ev, priorInFlight).0)
  {
    hide PhaseStep; hide CheckLosses; hide CheckGrowth; hide GrowthOf; hide InflightTarget; hide DrainTarget;
    CheckLossesKeepsCycle(s.(model := CheckGrowth(s.model, ev)), ev);
    if s.mode == PROBE_BW {
      PhaseProbesInTime(CountedRounds(s, ev), ev, priorInFlight);
    }
  }

  lemma CheckLossesKeepsCycle(s: Sender, ev: Event)
    ensures CheckLosses(s, ev).cycle == s.cycle
  {}

  lemma SwitchProbesInTime(s: Sender, next: Mode, now: int, randomRounds: nat, randomWait: nat)
    requires ProbesInTime(s) && randomRounds < PROBE_RAND_ROUNDS
    ensures ProbesInTime(Switch(s, next, now, randomRounds, randomWait))
  {
    hide AdvancedFilter; hide CapInflightLo;
  }

  lemma {:induction false} SettleProbesInTime(s: Sender, ev: Event, priorInFlight: nat, allowed: nat)
    requires LoopInv(s) && Timely(s, ev) && CreditPending(s, ev) && ProbesInTime(s)
             && ev.randomRounds < PROBE_RAND_ROUNDS
    ensures ProbesInTime(Settle(s, ev, priorInFlight, allowed).sender)
    decreases allowed
  {
    hide LoopInv; hide Dispatch; hide Switch; hide ProbesInTime;
    TurnKeeps(s, ev, priorInFlight);
    DispatchProbesInTime(s, ev, priorInFlight);
    var (s1, next) := Dispatch(s, ev, priorInFlight);
    if next != s.mode {
      SwitchProbesInTime(s1, next, ev.time, ev.randomRounds, ev.randomWait);
      if allowed > 0 {
        SettleProbesInTime(Switch(s1, next, ev.time, ev.randomRounds, ev.randomWait), ev, priorInFlight, allowed - 1);
      }
    }
  }

  lemma NextProbesInTime(s: Sender, o: Occurrence)
    requires Inv(s) && Enabled(s, o) && ProbesInTime(s)
    ensures ProbesInTime(Next(s, o))
  {
    hide LoopInv; hide Settle; hide EventStart; hide Switch; hide Timely; hide CreditPending; hide NewCwnd;
    hide NewPacingRate;
    match o {
      case Congestion(x) =>
        StartKeeps(s, x);
        SettleProbesInTime(Started(s, x), EventFor(s, x), x.priorInFlight, MAX_MODE_CHANGES);
      case SentPacket(time, number, inFlight) =>
        SwitchProbesInTime(s.(history := s.history.(now := time)), PROBE_BW, time, 0, 0);
    }
  }

  lemma {:induction false} RunProbesInTime(s: Sender, os: seq<Occurrence>)
    requires Inv(s) && Possible(s, os) && ProbesInTime(s)
    ensures ProbesInTime(Run(s, os))
    decreases |os|
  {
    hide Inv; hide Next; hide Enabled; hide ProbesInTime;
    if os != [] {
      NextProbesInTime(s, os[0]);
      RunProbesInTime(Next(s, os[0]), os[1..]);
    }
  }

  /** In every run the next probe for bandwidth is never put off to the 63rd round. */
  lemma EveryRunProbesInTime(params: Params, now: int, rtt: int, rttTime: int, os: seq<Occurrence>)
    requires Configured(params, now, rtt) && Possible(Begin(params, now, rtt, rttTime), os)
    ensures ProbesInTime(Run(Begin(params, now, rtt, rttTime), os))
  {
    hide Possible; hide Run; hide ScaleRate; hide Rate; hide Inv;
    RunProbesInTime(Begin(params, now, rtt, rttTime), os);
  }

  // ---------------------------------------------------------------- STARTUP

  /** An event that ends in STARTUP did nothing but check bandwidth growth. */
  lemma StartupEventOnlyChecksGrowth(s: Sender, ev: Event, priorInFlight: nat)
    requires LoopInv(s) && Timely(s, ev) && CreditPending(s, ev) && s.mode == STARTUP
    requires Settle(s, ev, priorInFlight, MAX_MODE_CHANGES).sender.mode == STARTUP
    ensures var r := Settle(s, ev, priorInFlight, MAX_MODE_CHANGES).sender;
            && r == StartupEvent(s, ev).0 && !r.model.fullBandwidthReached
            && r == s.(model := if ev.endOfRound then CheckGrowth(s.model, ev) else s.model)
  {
    hide LoopInv; hide StartupEvent; hide Switch;
    AtMostThreeAllowed(s);
    ModeLoopSettles(s, ev, priorInFlight, MAX_MODE_CHANGES);
    StartupStays(s, ev);
  }

  lemma StartupStays(s: Sender, ev: Event)
    requires LoopInv(s) && s.mode == STARTUP && StartupEvent(s, ev).1 == STARTUP
    ensures StartupEvent(s, ev).0 == s.(model := if ev.endOfRound then CheckGrowth(s.model, ev) else s.model)
    ensures !StartupEvent(s, ev).0.model.fullBandwidthReached
  {
    hide IsInflightTooHigh; hide Bdp; hide GrowthTarget;
  }

  lemma StartupWindow(s: Sender, ev: Event)
    requires LoopInv(s) && s.mode == STARTUP && 0 < s.params.minCwnd <= s.cwnd <= s.params.maxCwnd <= UNSET
    ensures s.cwnd <= Finished(s, ev).cwnd
    ensures s.model.totalAcked != ev.acked ==> s.pacingRate <= Finished(s, ev).pacingRate
  {
    hide Scale; hide Bdp; hide ScaleRate; hide Rate;
  }

  /** One event in STARTUP: the window does not shrink, nor does the pacing rate once
      anything had been acked before. */
  lemma StartupEventNeverShrinks(s: Sender, x: Input)
    requires Inv(s) && Enabled(s, Congestion(x))
    ensures OnEvent(s, x).mode == STARTUP ==> NotShrunk(s, OnEvent(s, x))
  {
    hide LoopInv; hide Started; hide Finished; hide Settle; hide MaxBandwidth; hide Timely; hide CreditPending;
    EventKeepsInv(s, x);
    StartKeeps(s, x);
    var start, ev := Started(s, x), EventFor(s, x);
    AtMostThreeAllowed(start);
    ModeLoopSettles(start, ev, x.priorInFlight, MAX_MODE_CHANGES);
    var r := Settle(start, ev, x.priorInFlight, MAX_MODE_CHANGES).sender;
    FinishedKeeps(r, ev);
    if OnEvent(s, x).mode == STARTUP {
      StartupEventOnlyChecksGrowth(start, ev, x.priorInFlight);
      GrowthKeepsBandwidth(start.model, ev);
      StartupWindow(r, ev);
    }
  }

  /** Both states are in STARTUP, with the window and the bandwidth no smaller in the second, nor the pacing rate unless
      nothing had been acked in the first. */
  predicate NotShrunk(s: Sender, t: Sender) {
    && s.mode == STARTUP && t.mode == STARTUP && s.cwnd <= t.cwnd
    && (s.model.totalAcked > 0 ==> s.pacingRate <= t.pacingRate)
    && MaxBandwidth(s.model) <= MaxBandwidth(t.model) && s.model.totalAcked <= t.model.totalAcked
  }

  lemma GrowthKeepsBandwidth(m: Model, ev: Event)
    ensures MaxBandwidth(CheckGrowth(m, ev)) == MaxBandwidth(m)
  {}

  /** Along every run that is still in STARTUP the window never shrank, and the pacing rate
      never fell after the first ack. */
  lemma {:induction false} StartupNeverShrinks(s: Sender, os: seq<Occurrence>)
    requires Inv(s) && Possible(s, os)
    ensures Run(s, os).mode == STARTUP ==> NotShrunk(s, Run(s, os))
    decreases |os|
  {
    hide Inv; hide OnEvent; hide OnSent; hide Enabled; hide MaxBandwidth;
    if os != [] {
      StartupNeverShrinks(Next(s, os[0]), os[1..]);
      match os[0]
      case Congestion(x) =>
        StartupEventNeverShrinks(s, x);
        EventKeepsInv(s, x);
      case SentPacket(time, number, inFlight) =>
        SentKeepsInv(s, time, number, inFlight);
        SentKeepsBandwidth(s, number);
    }
  }

  lemma SentKeepsBandwidth(s: Sender, number: nat)
    ensures MaxBandwidth(s.model.(lastSent := Some(number))) == MaxBandwidth(s.model)
    ensures forall bound: nat :: RoundsLeft(s.model.(lastSent := Some(number)), bound) == RoundsLeft(s.model, bound)
  {}

  /** Whether an occurrence ends a round whose last sample was not app limited. */
  ghost predicate FullRound(s: Sender, o: Occurrence) {
    o.Congestion? && EventFor(s, o.x).endOfRound && !EventFor(s, o.x).appLimited
  }

  ghost function FullRounds(s: Sender, os: seq<Occurrence>): nat
    requires Inv(s) && Possible(s, os)
    decreases |os|
  {
    if os == [] then 0 else (if FullRound(s, os[0]) then 1 else 0) + FullRounds(Next(s, os[0]), os[1..])
  }

  lemma StartupEventUsesUpRounds(s: Sender, x: Input, bound: nat)
    requires Inv(s) && Enabled(s, Congestion(x)) && s.model.baseline >= 2
    ensures var t := OnEvent(s, x);
            t.mode == STARTUP && MaxBandwidth(t.model) <= bound ==>
              && RoundsLeft(t.model, bound)
                 <= RoundsLeft(s.model, bound) - (if FullRound(s, Congestion(x)) then 1 else 0)
              && t.model.baseline >= 2
  {
    hide LoopInv; hide Started; hide Finished; hide Settle; hide MaxBandwidth; hide Timely; hide CreditPending;
    hide EventFor;
    EventKeepsInv(s, x);
    StartKeeps(s, x);
    var start, ev := Started(s, x), EventFor(s, x);
    AtMostThreeAllowed(start);
    ModeLoopSettles(start, ev, x.priorInFlight, MAX_MODE_CHANGES);
    FinishedKeeps(Settle(start, ev, x.priorInFlight, MAX_MODE_CHANGES).sender, ev);
    if OnEvent(s, x).mode == STARTUP && MaxBandwidth(OnEvent(s, x).model) <= bound {
      StartupEventOnlyChecksGrowth(start, ev, x.priorInFlight);
      GrowthKeepsBandwidth(start.model, ev);
      StartupFacts(start);
      GrowthFacts(start.model, ev);
      if !ev.appLimited {
        GrowthUsesUpRounds(start.model, ev, bound);
      }
      AppLimitedKeeps(start.model, ev);
    }
  }

  lemma StartupFacts(s: Sender)
    requires LoopInv(s) && s.mode == STARTUP
    ensures s.model.roundsWithoutGrowth < STARTUP_FULL_BW_ROUNDS && s.model.baseline <= MaxBandwidth(s.model)
    ensures !s.model.fullBandwidthReached
  {}

  lemma AppLimitedKeeps(m: Model, ev: Event)
    ensures ev.appLimited ==> CheckGrowth(m, ev) == m
  {}

  /** STARTUP ends: once the baseline is at least two bits per second and as long as bandwidth
      stays within `bound`, only boundedly many rounds that are not app limited fit into it. */
  lemma {:induction false} StartupIsFinite(s: Sender, os: seq<Occurrence>, bound: nat)
    requires Inv(s) && Possible(s, os) && Run(s, os).mode == STARTUP
    requires s.model.baseline >= 2 && MaxBandwidth(Run(s, os).model) <= bound
    ensures FullRounds(s, os) <= RoundsLeft(s.model, bound)
    decreases |os|
  {
    hide Inv; hide OnEvent; hide OnSent; hide Enabled; hide MaxBandwidth; hide RoundsLeft; hide FullRound;
    if os == [] {
      RoundsRemain(s, bound);
    } else {
      var t := Next(s, os[0]);
      StartupNeverShrinks(t, os[1..]);
      match os[0] {
        case Congestion(x) =>
          StartupEventUsesUpRounds(s, x, bound);
        case SentPacket(time, number, inFlight) =>
          StartupNeverShrinks(s, os);
          SentKeepsInv(s, time, number, inFlight);
          SentKeepsBandwidth(s, number);
          NotAFullRound(s, os[0]);
      }
      StartupIsFinite(t, os[1..], bound);
    }
  }

  lemma NotAFullRound(s: Sender, o: Occurrence)
    requires o.SentPacket?
    ensures !FullRound(s, o)
  {}

  lemma RoundsRemain(s: Sender, bound: nat)
    requires Inv(s) && s.mode == STARTUP && MaxBandwidth(s.model) <= bound
    ensures 0 <= RoundsLeft(s.model, bound)
  {}
}
