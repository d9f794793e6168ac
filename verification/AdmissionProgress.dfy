/** How the recovery episode moves on, and the one way in which it stops for ever. */
module AdmissionProgress {
  import opened Options
  import opened AdmissionCore
  import opened AdmissionMachine
  import opened AdmissionProtocol
  import opened AdmissionBooks
  import opened AdmissionRuns
  import RateWindow

  // ----- The lost probe -----

  /** The probe of `e` is active, yet `e` neither holds it nor has its abandonment pending. */
  predicate Wedged(s: State, e: ExecId) {
    && Known(s, e)
    && Leads(s.core.episode, e) && s.core.episode.value.probeActive
    && Held(s.pcs[e]) != Some(Probe(s.core.episode.value.generation))
    && (e, s.core.episode.value.generation) !in s.orphans
  }

  /** The clean-up that should give the probe back is itself cancelled. */
  predicate LosesProbe(s: State, step: Step, e: ExecId) {
    step == Admit(e, CleanupCancelled) && e in s.pcs && s.pcs[e].Unwinding? && s.pcs[e].permit.Probe?
  }

  /** Exactly that step wedges the episode. */
  lemma OnlyLosingTheProbeWedges(cfg: Config, s: State, step: Step, e: ExecId)
    requires cfg.Accepted() && Reachable(cfg, s) && Enabled(cfg, s, step) && !Wedged(s, e)
    ensures Wedged(Do(cfg, s, step), e) <==> LosesProbe(s, step, e)
  {
    match step
    case Gate(f, move) => ReachableTask(cfg, s, f); GateNeverWedges(cfg, s, f, move, e);
    case Admit(f, move) => ReachableTask(cfg, s, f); AdmitWedges(cfg, s, f, move, e);
    case Own(f, move) => ReachableTask(cfg, s, f); OwnNeverWedges(cfg, s, f, move, e);
    case OrphanAbandons(f, g) => ReachableProtocol(cfg, s);
    case StartExecution(f) => ReachableProtocol(cfg, s);
    case _ =>
  }

  lemma GateNeverWedges(cfg: Config, s: State, f: ExecId, move: GateMove, e: ExecId)
    requires ReadyToMove(s, f) && GateEnabled(s.pcs[f], s.clock, move) && !Wedged(s, e)
    ensures !Wedged(DoGate(cfg, s, f, move), e)
  {
  }

  lemma AdmitWedges(cfg: Config, s: State, f: ExecId, move: AdmitMove, e: ExecId)
    requires 0 < cfg.rateLimit && ReadyToMove(s, f) && AdmitEnabled(s.pcs[f], s.clock, s.free, move) && !Wedged(s, e)
    ensures Wedged(DoAdmit(cfg, s, f, move), e) <==> LosesProbe(s, Admit(f, move), e)
  {
  }

  lemma OwnNeverWedges(cfg: Config, s: State, f: ExecId, move: AttemptMove, e: ExecId)
    requires ReadyToMove(s, f) && s.pcs[f].InAttempt? && OwnEnabled(cfg, s.pcs[f].attempt, move) && !Wedged(s, e)
    ensures !Wedged(DoOwn(cfg, s, f, move), e)
  {
  }

  /** While wedged, not even the leader's own steps help: at the gate it waits for its own probe. */
  lemma WedgedStep(cfg: Config, s: State, step: Step, e: ExecId)
    requires cfg.Accepted() && ProtocolInv(s) && Enabled(cfg, s, step) && Wedged(s, e)
    ensures Wedged(Do(cfg, s, step), e) && Do(cfg, s, step).claims == s.claims
    ensures Do(cfg, s, step).core.episode.value.generation == s.core.episode.value.generation
  {
    assert TaskOk(s.core.episode, e, s.pcs[e], s.orphans);
    if Actor(step) != Some(e) {
      LedStep(cfg, s, step, e);
      OthersStay(cfg, s, step, e);
    } else {
      match step
      case Gate(_, move) => WedgedGate(cfg, s, e, move);
      case Admit(_, move) => assert false;
      case Own(_, move) => WedgedOwn(cfg, s, e, move);
      case _ =>
    }
  }

  lemma OthersStay(cfg: Config, s: State, step: Step, e: ExecId)
    requires cfg.Accepted() && Enabled(cfg, s, step) && Known(s, e) && Actor(step) != Some(e)
    ensures Known(Do(cfg, s, step), e) && Do(cfg, s, step).pcs[e] == s.pcs[e]
    ensures forall g: nat :: (e, g) in Do(cfg, s, step).orphans <==> (e, g) in s.orphans
  {
    match step
    case Gate(f, move) => GateStays(cfg, s, f, move, e);
    case Admit(f, move) => AdmitStays(cfg, s, f, move, e);
    case Own(f, move) => OwnStays(cfg, s, f, move, e);
    case _ =>
  }

  lemma GateStays(cfg: Config, s: State, f: ExecId, move: GateMove, e: ExecId)
    requires Known(s, f) && GateEnabled(s.pcs[f], s.clock, move) && Known(s, e) && e != f
    ensures var s' := DoGate(cfg, s, f, move); Known(s', e) && s'.pcs[e] == s.pcs[e] && s'.orphans == s.orphans
  {
  }

  lemma AdmitStays(cfg: Config, s: State, f: ExecId, move: AdmitMove, e: ExecId)
    requires 0 < cfg.rateLimit && Known(s, f) && AdmitEnabled(s.pcs[f], s.clock, s.free, move) && Known(s, e) && e != f
    ensures var s' := DoAdmit(cfg, s, f, move); Known(s', e) && s'.pcs[e] == s.pcs[e] && s'.orphans == s.orphans
  {
  }

  lemma OwnStays(cfg: Config, s: State, f: ExecId, move: AttemptMove, e: ExecId)
    requires Known(s, f) && s.pcs[f].InAttempt? && OwnEnabled(cfg, s.pcs[f].attempt, move) && Known(s, e) && e != f
    ensures var s' := DoOwn(cfg, s, f, move); Known(s', e) && s'.pcs[e] == s.pcs[e]
    ensures forall g: nat :: (e, g) in DoOwn(cfg, s, f, move).orphans <==> (e, g) in s.orphans
  {
  }

  lemma WedgedGate(cfg: Config, s: State, e: ExecId, move: GateMove)
    requires ReadyToMove(s, e) && GateEnabled(s.pcs[e], s.clock, move) && Wedged(s, e)
    ensures Wedged(DoGate(cfg, s, e, move), e) && DoGate(cfg, s, e, move).claims == s.claims
    ensures DoGate(cfg, s, e, move).core.episode.value.generation == s.core.episode.value.generation
  {
  }

  lemma WedgedOwn(cfg: Config, s: State, e: ExecId, move: AttemptMove)
    requires ReadyToMove(s, e) && s.pcs[e].InAttempt? && OwnEnabled(cfg, s.pcs[e].attempt, move) && Wedged(s, e)
    ensures Wedged(DoOwn(cfg, s, e, move), e) && DoOwn(cfg, s, e, move).claims == s.claims
    ensures DoOwn(cfg, s, e, move).core.episode == s.core.episode
  {
  }

  /** A lost probe stalls the provider for ever: over every run the episode stays as it is, under the same leader,
      and no attempt of any execution ever starts. */
  lemma {:induction false} LostProbeStallsForEver(cfg: Config, s: State, steps: seq<Step>, e: ExecId)
    requires cfg.Accepted() && Reachable(cfg, s) && CanRun(cfg, s, steps) && Wedged(s, e)
    ensures var s' := Run(cfg, s, steps);
            && Wedged(s', e) && s'.claims == s.claims && Reachable(cfg, s')
            && s'.core.episode.value.generation == s.core.episode.value.generation
    decreases |steps|
  {
    if steps != [] {
      ReachableProtocol(cfg, s);
      WedgedStep(cfg, s, steps[0], e);
      ReachableStep(cfg, s, steps[0]);
      LostProbeStallsForEver(cfg, Do(cfg, s, steps[0]), steps[1..], e);
    }
  }

  /** No step of the run loses a probe. */
  ghost predicate KeepsProbes(cfg: Config, s: State, steps: seq<Step>)
    requires cfg.Accepted() && CanRun(cfg, s, steps)
    decreases |steps|
  {
    steps == [] || ((forall e :: !LosesProbe(s, steps[0], e)) && KeepsProbes(cfg, Do(cfg, s, steps[0]), steps[1..]))
  }

  lemma {:induction false} KeptProbesNeverWedge(cfg: Config, s: State, steps: seq<Step>, e: ExecId)
    requires cfg.Accepted() && Reachable(cfg, s) && CanRun(cfg, s, steps) && KeepsProbes(cfg, s, steps) && !Wedged(s, e)
    ensures !Wedged(Run(cfg, s, steps), e)
    decreases |steps|
  {
    if steps != [] {
      OnlyLosingTheProbeWedges(cfg, s, steps[0], e);
      ReachableStep(cfg, s, steps[0]);
      KeptProbesNeverWedge(cfg, Do(cfg, s, steps[0]), steps[1..], e);
    }
  }

  lemma InitIsReachable(cfg: Config)
    requires cfg.Accepted()
    ensures Reachable(cfg, Init(cfg))
  {
    assert CanRun(cfg, Init(cfg), []) && Run(cfg, Init(cfg), []) == Init(cfg);
  }

  /** Over every run that loses no probe, an active probe is always in somebody's hands: the leader holds it, or
      its abandonment is on the way. */
  lemma ActiveProbeIsInHand(cfg: Config, steps: seq<Step>)
    requires cfg.Accepted() && CanRun(cfg, Init(cfg), steps) && KeepsProbes(cfg, Init(cfg), steps)
    ensures var s := Run(cfg, Init(cfg), steps);
            s.core.episode.Some? && s.core.episode.value.probeActive ==>
              && s.core.episode.value.leader.Some? && s.core.episode.value.leader.value in s.pcs
              && var e, g := s.core.episode.value.leader.value, s.core.episode.value.generation;
                 Held(s.pcs[e]) == Some(Probe(g)) || (e, g) in s.orphans
  {
    var s := Run(cfg, Init(cfg), steps);
    InitIsReachable(cfg);
    RunReaches(cfg, Init(cfg), steps);
    ReachableProtocol(cfg, s);
    if s.core.episode.Some? && s.core.episode.value.probeActive {
      KeptProbesNeverWedge(cfg, Init(cfg), steps, s.core.episode.value.leader.value);
    }
  }

  // ----- Back at the gate -----

  /** What a task at the gate does to get its probe: check, enter, and sleep if it is early. */
  function ProbeSchedule(s: State, e: ExecId): seq<Step>
    requires s.core.episode.Some?
  {
    var readyAt := s.core.episode.value.readyAt;
    if readyAt <= s.clock then [Gate(e, Check), Gate(e, Enter)]
    else [Gate(e, Check), Gate(e, Enter), Tick(readyAt), Gate(e, SleepOver), Gate(e, ClaimProbe)]
  }

  /** At the gate of an open episode that nobody else leads. */
  predicate AtGate(s: State, e: ExecId) {
    && Known(s, e) && s.pcs[e].GateTop? && s.core.execs[e].state.Active?
    && s.core.episode.Some? && s.core.episode.value.terminalUntil.None?
    && (s.core.episode.value.leader.None? || s.core.episode.value.leader == Some(e))
  }

  /** At the gate of an open episode that nobody probes. */
  predicate MayProbe(s: State, e: ExecId) {
    AtGate(s, e) && !s.core.episode.value.probeActive
  }

  lemma FreeGateProbes(cfg: Config, s: State, e: ExecId)
    requires cfg.Accepted() && MayProbe(s, e)
    ensures CanRun(cfg, s, ProbeSchedule(s, e))
    ensures var s' := Run(cfg, s, ProbeSchedule(s, e));
            && e in s'.pcs && s'.pcs[e] == Limiting(Probe(s.core.episode.value.generation))
            && s'.clock == Max(s.clock, s.core.episode.value.readyAt)
  {
    if s.core.episode.value.readyAt <= s.clock {
      RunTwo(cfg, s, Gate(e, Check), Gate(e, Enter));
    } else {
      EarlyReentry(cfg, s, e);
    }
  }

  lemma EarlyReentry(cfg: Config, s: State, e: ExecId)
    requires cfg.Accepted() && MayProbe(s, e) && s.clock < s.core.episode.value.readyAt
    ensures CanRun(cfg, s, ProbeSchedule(s, e))
    ensures var s' := Run(cfg, s, ProbeSchedule(s, e));
            && e in s'.pcs && s'.pcs[e] == Limiting(Probe(s.core.episode.value.generation))
            && s'.clock == s.core.episode.value.readyAt
  {
    var ep := s.core.episode.value;
    var s1 := Do(cfg, s, Gate(e, Check));
    var s2 := Do(cfg, s1, Gate(e, Enter));
    assert s2.pcs[e] == GateSleep(ep.generation, ep.readyAt);
    var s3 := Do(cfg, s2, Tick(ep.readyAt));
    SleepThenProbe(cfg, s3, e, ep.generation);
    RunOn(cfg, s2, Tick(ep.readyAt), [Gate(e, SleepOver), Gate(e, ClaimProbe)]);
    RunOn(cfg, s1, Gate(e, Enter), [Tick(ep.readyAt)] + [Gate(e, SleepOver), Gate(e, ClaimProbe)]);
    var last := [Gate(e, Enter)] + ([Tick(ep.readyAt)] + [Gate(e, SleepOver), Gate(e, ClaimProbe)]);
    RunOn(cfg, s, Gate(e, Check), last);
    assert [Gate(e, Check)] + last == ProbeSchedule(s, e);
  }

  lemma SleepThenProbe(cfg: Config, s: State, e: ExecId, g: nat)
    requires cfg.Accepted() && Known(s, e) && s.pcs[e].GateSleep? && s.pcs[e].generation == g
    requires s.pcs[e].until <= s.clock && StillLeads(s.core.episode, e, g)
    ensures CanRun(cfg, s, [Gate(e, SleepOver), Gate(e, ClaimProbe)])
    ensures var s' := Run(cfg, s, [Gate(e, SleepOver), Gate(e, ClaimProbe)]);
            e in s'.pcs && s'.pcs[e] == Limiting(Probe(g)) && s'.clock == s.clock
  {
    RunTwo(cfg, s, Gate(e, SleepOver), Gate(e, ClaimProbe));
  }

  /** If the abandonment of the own probe is still pending, that first. */
  function ReentrySchedule(cfg: Config, s: State, e: ExecId): seq<Step>
    requires cfg.Accepted() && s.core.episode.Some?
  {
    var g := s.core.episode.value.generation;
    if s.core.episode.value.probeActive && (e, g) in s.orphans && Matches(s.core.episode, e, Probe(g))
    then [OrphanAbandons(e, g)] + ProbeSchedule(Do(cfg, s, OrphanAbandons(e, g)), e)
    else ProbeSchedule(s, e)
  }

  predicate GetsProbe(cfg: Config, s: State, steps: seq<Step>, e: ExecId)
    requires cfg.Accepted()
  {
    CanRun(cfg, s, steps) &&
    var s' := Run(cfg, s, steps);
    e in s'.pcs && s'.pcs[e].Limiting? && s'.pcs[e].permit.Probe?
  }

  lemma ReentryWorks(cfg: Config, s: State, e: ExecId)
    requires cfg.Accepted() && Reachable(cfg, s) && AtGate(s, e) && !Wedged(s, e)
    ensures GetsProbe(cfg, s, ReentrySchedule(cfg, s, e), e)
    ensures var s' := Run(cfg, s, ReentrySchedule(cfg, s, e));
            s'.pcs[e] == Limiting(Probe(s.core.episode.value.generation)) &&
            s'.clock <= Max(s.clock, s.core.episode.value.readyAt)
  {
    ReachableTask(cfg, s, e);
    var g := s.core.episode.value.generation;
    if s.core.episode.value.probeActive {
      assert (e, g) in s.orphans;
      var s1 := Do(cfg, s, OrphanAbandons(e, g));
      FreeGateProbes(cfg, s1, e);
      RunOn(cfg, s, OrphanAbandons(e, g), ProbeSchedule(s1, e));
    } else {
      FreeGateProbes(cfg, s, e);
    }
  }

  lemma WedgedGetsNoProbe(cfg: Config, s: State, steps: seq<Step>, e: ExecId)
    requires cfg.Accepted() && Reachable(cfg, s) && Wedged(s, e)
    ensures !GetsProbe(cfg, s, steps, e)
  {
    if CanRun(cfg, s, steps) {
      LostProbeStallsForEver(cfg, s, steps, e);
      ReachableProtocol(cfg, Run(cfg, s, steps));
      WedgedHoldsNoProbe(Run(cfg, s, steps), e);
    }
  }

  lemma WedgedHoldsNoProbe(s: State, e: ExecId)
    requires ProtocolInv(s) && Wedged(s, e)
    ensures !(s.pcs[e].Limiting? && s.pcs[e].permit.Probe?)
  {
    assert TaskOk(s.core.episode, e, s.pcs[e], s.orphans);
  }

  /** The leader of an open episode, or anyone while the lead is free, that is back at the gate gets the next
      probe if and only if the last one was not lost; and then nothing but time, and its own pending
      abandonment, stands in the way. */
  lemma GateReentryProbes(cfg: Config, s: State, e: ExecId)
    requires cfg.Accepted() && Reachable(cfg, s) && AtGate(s, e)
    ensures (exists steps: seq<Step> :: GetsProbe(cfg, s, steps, e)) <==> !Wedged(s, e)
    ensures !Wedged(s, e) ==>
              GetsProbe(cfg, s, ReentrySchedule(cfg, s, e), e) &&
              Run(cfg, s, ReentrySchedule(cfg, s, e)).clock <= Max(s.clock, s.core.episode.value.readyAt)
  {
    if Wedged(s, e) {
      forall steps: seq<Step> ensures !GetsProbe(cfg, s, steps, e) { WedgedGetsNoProbe(cfg, s, steps, e); }
    } else {
      ReentryWorks(cfg, s, e);
    }
  }

  /** Any probe permit can be lost: a cancellation in the admission loop, and a second one in its clean-up. */
  lemma AnyPermitCanBeLost(cfg: Config, s: State, e: ExecId, g: nat)
    requires cfg.Accepted() && Reachable(cfg, s) && Known(s, e) && s.pcs[e] == Limiting(Probe(g))
    ensures exists s' :: Reachable(cfg, s') && Wedged(s', e)
  {
    ReachableTask(cfg, s, e);
    var s1 := Do(cfg, s, Admit(e, AdmissionCancelled));
    ReachableStep(cfg, s, Admit(e, AdmissionCancelled));
    assert s1.pcs[e] == Unwinding(Probe(g)) && !Wedged(s1, e);
    OnlyLosingTheProbeWedges(cfg, s1, Admit(e, CleanupCancelled), e);
    ReachableStep(cfg, s1, Admit(e, CleanupCancelled));
  }

  /** And there are such runs: a first attempt that fails retryably, its owner back at the gate, two cancellations. */
  lemma ProbesGetLost(cfg: Config, error: Failure)
    requires cfg.Accepted() && 2 <= cfg.maxAttempts
    ensures exists s, e :: Reachable(cfg, s) && Wedged(s, e)
  {
    InitIsReachable(cfg);
    var s0 := Do(cfg, Init(cfg), StartExecution(0));
    ReachableStep(cfg, Init(cfg), StartExecution(0));
    var s1 := Admitted(cfg, s0);
    var s2 := FailedOnce(cfg, s1, error);
    ReachableStep(cfg, s2, Own(0, StartClose));
    var s3 := Do(cfg, s2, Own(0, StartClose));
    ReachableStep(cfg, s3, Gate(0, Open));
    var s4 := Do(cfg, s3, Gate(0, Open));
    assert AtGate(s4, 0) && !s4.core.episode.value.probeActive;
    FreeGateProbes(cfg, s4, 0);
    RunReaches(cfg, s4, ProbeSchedule(s4, 0));
    var s5 := Run(cfg, s4, ProbeSchedule(s4, 0));
    ReachableProtocol(cfg, s5);
    AnyPermitCanBeLost(cfg, s5, 0, s4.core.episode.value.generation);
  }

  lemma Admitted(cfg: Config, s: State) returns (s': State)
    requires cfg.Accepted() && Reachable(cfg, s) && s == Do(cfg, Init(cfg), StartExecution(0))
    ensures Reachable(cfg, s') && Known(s', 0)
    ensures s'.pcs[0] == InAttempt(Attempt(Ordinary, 1, 0, false, false, Resting))
    ensures s'.core.episode.None? && s'.core.execs[0] == Exec(1, Some(1), None, Active)
  {
    var s3 := ThroughTheGate(cfg, s);
    s' := ThroughTheWindow(cfg, s3);
  }

  lemma ThroughTheGate(cfg: Config, s: State) returns (s3: State)
    requires cfg.Accepted() && Reachable(cfg, s) && s == Do(cfg, Init(cfg), StartExecution(0))
    ensures Reachable(cfg, s3) && s3 == s.(pcs := s.pcs[0 := Limiting(Ordinary)])
  {
    var s1 := Do(cfg, s, Gate(0, Open));
    ReachableStep(cfg, s, Gate(0, Open));
    var s2 := Do(cfg, s1, Gate(0, Check));
    ReachableStep(cfg, s1, Gate(0, Check));
    s3 := Do(cfg, s2, Gate(0, Enter));
    ReachableStep(cfg, s2, Gate(0, Enter));
    assert s3.pcs == s.pcs[0 := Limiting(Ordinary)];
  }

  lemma ThroughTheWindow(cfg: Config, s: State) returns (s': State)
    requires cfg.Accepted() && Reachable(cfg, s) && Known(s, 0) && s.pcs[0] == Limiting(Ordinary)
    requires s.times == [] && s.records == [] && s.free == cfg.maxConcurrency
    requires s.core.episode.None? && s.core.execs[0] == NEW_EXEC
    ensures Reachable(cfg, s') && Known(s', 0)
    ensures s'.pcs[0] == InAttempt(Attempt(Ordinary, 1, 0, false, false, Resting))
    ensures s'.core.episode.None? && s'.core.execs[0] == Exec(1, Some(1), None, Active)
  {
    var s4 := Do(cfg, s, Admit(0, LimiterPass(s.clock)));
    ReachableStep(cfg, s, Admit(0, LimiterPass(s.clock)));
    assert s4.pcs[0] == Queued(Ordinary, 0);
    var s5 := Do(cfg, s4, Admit(0, SlotGranted));
    ReachableStep(cfg, s4, Admit(0, SlotGranted));
    s' := Do(cfg, s5, Admit(0, SlotUsed));
    ReachableStep(cfg, s5, Admit(0, SlotUsed));
  }

  lemma FailedOnce(cfg: Config, s: State, error: Failure) returns (s': State)
    requires cfg.Accepted() && 2 <= cfg.maxAttempts && Reachable(cfg, s) && Known(s, 0)
    requires s.pcs[0] == InAttempt(Attempt(Ordinary, 1, 0, false, false, Resting))
    requires s.core.episode.None? && s.core.execs[0] == Exec(1, Some(1), None, Active)
    ensures Reachable(cfg, s') && Known(s', 0)
    ensures s'.pcs[0].InAttempt? && s'.pcs[0].attempt.resolved && s'.pcs[0].attempt.op.Resting?
    ensures s'.core.execs[0] == Exec(1, Some(1), Some(error), Active)
    ensures s'.core.episode.Some? && s'.core.episode.value.leader == Some(0)
    ensures !s'.core.episode.value.probeActive && s'.core.episode.value.terminalUntil.None?
  {
    var s1 := Do(cfg, s, Own(0, StartFail(error, true, 0.0)));
    ReachableStep(cfg, s, Own(0, StartFail(error, true, 0.0)));
    s' := Do(cfg, s1, Own(0, FinishOp(0.0)));
    ReachableStep(cfg, s1, Own(0, FinishOp(0.0)));
  }

  lemma {:induction false} RunReaches(cfg: Config, s: State, steps: seq<Step>)
    requires cfg.Accepted() && Reachable(cfg, s) && CanRun(cfg, s, steps)
    ensures Reachable(cfg, Run(cfg, s, steps))
    decreases |steps|
  {
    if steps != [] {
      ReachableStep(cfg, s, steps[0]);
      RunReaches(cfg, Do(cfg, s, steps[0]), steps[1..]);
    }
  }

  /** So over every run that loses no probe, re-entry is all that progress takes. */
  lemma ReentryIsEnough(cfg: Config, steps: seq<Step>, e: ExecId)
    requires cfg.Accepted() && CanRun(cfg, Init(cfg), steps) && KeepsProbes(cfg, Init(cfg), steps)
    requires AtGate(Run(cfg, Init(cfg), steps), e)
    ensures var s := Run(cfg, Init(cfg), steps); GetsProbe(cfg, s, ReentrySchedule(cfg, s, e), e)
  {
    InitIsReachable(cfg);
    KeptProbesNeverWedge(cfg, Init(cfg), steps, e);
    ReentryWorks(cfg, Run(cfg, Init(cfg), steps), e);
  }

  /** The moves from a probe permit to its attempt, once the window has passed. */
  function ClaimSchedule(e: ExecId, t: real): seq<Step> {
    [Tick(t)] + ([Admit(e, LimiterPass(t))] + [Admit(e, SlotGranted), Admit(e, SlotUsed)])
  }

  /** A probe permit becomes an attempt as soon as the window has passed and a slot is free. */
  lemma ProbePermitClaims(cfg: Config, s: State, e: ExecId, g: nat)
    requires cfg.Accepted() && Reachable(cfg, s) && Known(s, e) && s.pcs[e] == Limiting(Probe(g))
    requires 0 < s.free && CanAttempt(cfg, s.core.execs[e])
    ensures CanRun(cfg, s, ClaimSchedule(e, s.clock + cfg.rateWindow))
    ensures var claims := Run(cfg, s, ClaimSchedule(e, s.clock + cfg.rateWindow)).claims;
            && |claims| == |s.claims| + 1
            && claims[|s.claims|].exec == e && claims[|s.claims|].permit == Probe(g)
  {
    var t := s.clock + cfg.rateWindow;
    ProbeHolderIsReady(cfg, s, e, g);
    WindowEmpties(cfg, s, e, Probe(g), t);
    var s1 := Do(cfg, s, Tick(t));
    SlotThenClaim(cfg, Do(cfg, s1, Admit(e, LimiterPass(t))), e, Probe(g), |s.records|);
    RunOn(cfg, s1, Admit(e, LimiterPass(t)), [Admit(e, SlotGranted), Admit(e, SlotUsed)]);
    RunOn(cfg, s, Tick(t), [Admit(e, LimiterPass(t))] + [Admit(e, SlotGranted), Admit(e, SlotUsed)]);
  }

  lemma ProbeHolderIsReady(cfg: Config, s: State, e: ExecId, g: nat)
    requires cfg.Accepted() && Reachable(cfg, s) && Known(s, e) && s.pcs[e] == Limiting(Probe(g))
    ensures PermitCurrent(s.core.episode, e, Probe(g)) && s.core.execs[e].claim.None? && LimiterInv(cfg, s)
  {
    ReachableTask(cfg, s, e);
    ReachableRecords(cfg, s);
  }

  lemma WindowEmpties(cfg: Config, s: State, e: ExecId, permit: Permit, t: real)
    requires LimiterInv(cfg, s) && t == s.clock + cfg.rateWindow && PermitCurrent(s.core.episode, e, permit)
    ensures var s' := DoLimiterPass(cfg, s.(clock := t), e, permit, t);
            && s'.pcs == s.pcs[e := Queued(permit, |s.records|)] && s'.core == s.core
            && s'.free == s.free && s'.claims == s.claims
  {
    RateWindow.PruneKeepsTail(s.times, t - cfg.rateWindow);
    forall i | 0 <= i < |s.times| ensures s.times[i] <= s.clock {
      assert s.times[i] == s.records[|s.records| - |s.times| + i];
    }
    if RateWindow.Prune(s.times, t - cfg.rateWindow) != [] {
      assert false;
    }
  }

  lemma SlotThenClaim(cfg: Config, s: State, e: ExecId, permit: Permit, rec: nat)
    requires cfg.Accepted() && Known(s, e) && s.pcs[e] == Queued(permit, rec) && 0 < s.free
    requires PermitCurrent(s.core.episode, e, permit)
    requires CanAttempt(cfg, s.core.execs[e]) && s.core.execs[e].claim.None?
    ensures CanRun(cfg, s, [Admit(e, SlotGranted), Admit(e, SlotUsed)])
    ensures var claims := Run(cfg, s, [Admit(e, SlotGranted), Admit(e, SlotUsed)]).claims;
            && |claims| == |s.claims| + 1
            && claims[|s.claims|].exec == e && claims[|s.claims|].permit == permit
  {
    RunTwo(cfg, s, Admit(e, SlotGranted), Admit(e, SlotUsed));
  }

  lemma RunOn(cfg: Config, s: State, a: Step, rest: seq<Step>)
    requires cfg.Accepted() && Enabled(cfg, s, a) && CanRun(cfg, Do(cfg, s, a), rest)
    ensures CanRun(cfg, s, [a] + rest) && Run(cfg, s, [a] + rest) == Run(cfg, Do(cfg, s, a), rest)
  {
    assert ([a] + rest)[1..] == rest;
  }

  lemma RunTwo(cfg: Config, s: State, a: Step, b: Step)
    requires cfg.Accepted() && Enabled(cfg, s, a) && Enabled(cfg, Do(cfg, s, a), b)
    ensures CanRun(cfg, s, [a, b]) && Run(cfg, s, [a, b]) == Do(cfg, Do(cfg, s, a), b)
  {
    var next := Do(cfg, s, a);
    RunSnoc(cfg, next, [], b);
    assert [] + [b] == [b];
    RunOn(cfg, s, a, [b]);
    assert [a] + [b] == [a, b];
  }
}
