/** No wake-up is lost: the protocol again, now with the condition's own list of sleeping waiters.

    Waiters sleep until some body notifies them all. The machine alone lets any waiter wake at any time, so its
    results hold here too; what is new is that nobody has to. */
module AdmissionWakeups {
  import opened Options
  import opened AdmissionCore
  import opened AdmissionMachine
  import opened AdmissionProtocol

  /** `asleep` are the tasks waiting on the condition that nobody has notified. */
  datatype Full = Full(base: State, asleep: set<ExecId>)

  /** Whether the body of a step runs `notify_all`. */
  predicate Notifies(s: State, step: Step)
  {
    match step
    case Gate(e, LeadReturned) =>
      && e in s.pcs && s.pcs[e].ReturningLead?
      && Leads(s.core.episode, e) && s.core.episode.value.generation == s.pcs[e].generation
      && !s.core.episode.value.probeActive
    case Admit(e, RefusalHandled) => e in s.pcs && s.pcs[e].Refused? && Matches(s.core.episode, e, s.pcs[e].permit)
    case Admit(e, Unwound) => e in s.pcs && s.pcs[e].Unwinding? && Matches(s.core.episode, e, s.pcs[e].permit)
    case Own(e, FinishOp(_)) =>
      && e in s.pcs && s.pcs[e].InAttempt?
      && var a := s.pcs[e].attempt;
         var matching := Matches(s.core.episode, e, a.permit);
         if a.op.Failing? then a.op.canRetry || s.core.episode.None? || matching else matching
    case Own(e, FinishClose) => e in s.pcs && s.pcs[e].InAttempt? && Matches(s.core.episode, e, s.pcs[e].attempt.permit)
    case OrphanAbandons(e, generation) => Matches(s.core.episode, e, Probe(generation))
    case _ => false
  }

  predicate FullEnabled(cfg: Config, f: Full, step: Step) {
    Enabled(cfg, f.base, step) && (step.Gate? && step.gate.Woken? ==> step.e !in f.asleep)
  }

  function FullDo(cfg: Config, f: Full, step: Step): Full
    requires cfg.Accepted() && FullEnabled(cfg, f, step)
  {
    var next := Do(cfg, f.base, step);
    Full(next,
         if Notifies(f.base, step) then {}
         else if step.Gate? && step.gate.Enter? && next.pcs[step.e].GateWait? then f.asleep + {step.e}
         else if step.Gate? && step.gate.WaitCancelled? then f.asleep - {step.e}
         else f.asleep)
  }

  predicate FullCanRun(cfg: Config, f: Full, steps: seq<Step>)
    requires cfg.Accepted()
    decreases |steps|
  {
    steps == [] || (FullEnabled(cfg, f, steps[0]) && FullCanRun(cfg, FullDo(cfg, f, steps[0]), steps[1..]))
  }

  function FullRun(cfg: Config, f: Full, steps: seq<Step>): Full
    requires cfg.Accepted() && FullCanRun(cfg, f, steps)
    decreases |steps|
  {
    if steps == [] then f else FullRun(cfg, FullDo(cfg, f, steps[0]), steps[1..])
  }

  /** Every run here is a run of the machine. */
  lemma {:induction false} FullRunIsARun(cfg: Config, f: Full, steps: seq<Step>)
    requires cfg.Accepted() && FullCanRun(cfg, f, steps)
    ensures CanRun(cfg, f.base, steps) && FullRun(cfg, f, steps).base == Run(cfg, f.base, steps)
    decreases |steps|
  {
    if steps != [] { FullRunIsARun(cfg, FullDo(cfg, f, steps[0]), steps[1..]); }
  }

  /** There is somebody to wait for. */
  predicate HasToWait(ep: Option<Episode>, e: ExecId) {
    && ep.Some? && ep.value.terminalUntil.None? && ep.value.leader.Some?
    && (ep.value.leader == Some(e) ==> ep.value.probeActive)
  }

  predicate Asleep(s: State, e: ExecId) {
    e in s.pcs && s.pcs[e].GateWait? && HasToWait(s.core.episode, e)
  }

  ghost predicate SleepersWait(f: Full) {
    forall e :: e in f.asleep ==> Asleep(f.base, e)
  }

  lemma EnterSleeps(s: State, e: ExecId, t: ExecId)
    requires Known(s, e) && s.pcs[e].GateLock?
    ensures t != e && Asleep(s, t) ==> Asleep(DoGateEnter(s, e), t)
    ensures DoGateEnter(s, e).pcs[e].GateWait? ==> Asleep(DoGateEnter(s, e), e)
  {
  }

  lemma QuietGateLetsSleep(cfg: Config, s: State, e: ExecId, move: GateMove, t: ExecId)
    requires Known(s, e) && GateEnabled(s.pcs[e], s.clock, move) && !Notifies(s, Gate(e, move))
    requires Asleep(s, t) && t != e
    ensures Asleep(DoGate(cfg, s, e, move), t)
  {
  }

  lemma QuietAdmitLetsSleep(cfg: Config, s: State, e: ExecId, move: AdmitMove, t: ExecId)
    requires 0 < cfg.rateLimit && Known(s, e) && AdmitEnabled(s.pcs[e], s.clock, s.free, move)
    requires !Notifies(s, Admit(e, move)) && Asleep(s, t)
    ensures Asleep(DoAdmit(cfg, s, e, move), t)
  {
  }

  lemma QuietOwnLetsSleep(cfg: Config, s: State, e: ExecId, move: AttemptMove, t: ExecId)
    requires Known(s, e) && s.pcs[e].InAttempt? && OwnEnabled(cfg, s.pcs[e].attempt, move)
    requires !Notifies(s, Own(e, move)) && Asleep(s, t)
    ensures Asleep(DoOwn(cfg, s, e, move), t)
  {
  }

  /** A step that notifies nobody gives no sleeper a reason to wake. */
  lemma QuietStepsLetSleep(cfg: Config, f: Full, step: Step, t: ExecId)
    requires cfg.Accepted() && FullEnabled(cfg, f, step) && !Notifies(f.base, step)
    requires t in f.asleep && Asleep(f.base, t) && !(step.Gate? && step.e == t)
    ensures Asleep(Do(cfg, f.base, step), t)
  {
    match step
    case Gate(e, move) => QuietGateLetsSleep(cfg, f.base, e, move, t);
    case Admit(e, move) => QuietAdmitLetsSleep(cfg, f.base, e, move, t);
    case Own(e, move) => QuietOwnLetsSleep(cfg, f.base, e, move, t);
    case _ =>
  }

  lemma StepKeepsSleepers(cfg: Config, f: Full, step: Step)
    requires cfg.Accepted() && FullEnabled(cfg, f, step) && SleepersWait(f)
    ensures SleepersWait(FullDo(cfg, f, step))
  {
    if !Notifies(f.base, step) {
      forall t | t in FullDo(cfg, f, step).asleep ensures Asleep(Do(cfg, f.base, step), t) {
        if step.Gate? && step.e == t {
          if step.gate.Enter? { EnterSleeps(f.base, t, t); }
        } else {
          QuietStepsLetSleep(cfg, f, step, t);
        }
      }
    }
  }

  lemma {:induction false} RunKeepsSleepers(cfg: Config, f: Full, steps: seq<Step>)
    requires cfg.Accepted() && FullCanRun(cfg, f, steps) && SleepersWait(f)
    ensures SleepersWait(FullRun(cfg, f, steps))
    decreases |steps|
  {
    if steps != [] {
      StepKeepsSleepers(cfg, f, steps[0]);
      RunKeepsSleepers(cfg, FullDo(cfg, f, steps[0]), steps[1..]);
    }
  }

  /** In every reachable state, a waiter that has not been notified would only wait again, whenever it looked. */
  lemma NoWakeUpIsLost(cfg: Config, steps: seq<Step>, e: ExecId, now: real)
    requires cfg.Accepted() && FullCanRun(cfg, Full(Init(cfg), {}), steps)
    requires e in FullRun(cfg, Full(Init(cfg), {}), steps).asleep
    ensures CanRun(cfg, Init(cfg), steps)
    ensures var s := Run(cfg, Init(cfg), steps);
            && e in s.pcs && s.pcs[e].GateWait?
            && var outcome := EnterGate(s.core, e, now).outcome; outcome.AwaitProbe? || outcome.AwaitLeader?
  {
    FullRunIsARun(cfg, Full(Init(cfg), {}), steps);
    RunKeepsSleepers(cfg, Full(Init(cfg), {}), steps);
    assert Asleep(FullRun(cfg, Full(Init(cfg), {}), steps).base, e);
  }
}
