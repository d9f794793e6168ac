/** The admission protocol as a state machine: any number of executions, each driven by one task,
    interleaved at every await and cancellable at every await. */
module AdmissionMachine {
  import opened Options
  import opened AdmissionCore
  import RateWindow

  /** What the owner of an attempt is doing with it. `Closing` is `aclose` waiting for its shielded
      abandonment. */
  datatype Op =
    | Resting
    | Accepting
    | Correcting(error: Failure)
    | Rejecting(error: Failure)
    | Failing(error: Failure, canRetry: bool, delay: real)
    | Closing

  datatype Attempt = Attempt(permit: Permit, ordinal: nat, rec: nat, resolved: bool, accepted: bool, op: Op)

  /** Where the task driving one execution stands. `rec` numbers the admission record it owns. */
  datatype Pc =
    | Idle
    | GateTop
    | GateLock
    | GateWait(asLeader: bool, generation: nat)
    | GateSleep(generation: nat, until: real)
    | GateRelock(generation: nat, until: real)
    | ReturningLead(generation: nat)
    | Limiting(permit: Permit)
    | Refused(permit: Permit)
    | Queued(permit: Permit, rec: nat)
    | Granted(permit: Permit, rec: nat)
    | Unwinding(permit: Permit)
    | InAttempt(attempt: Attempt)

  /** One physical attempt that was started. */
  datatype Claim = Claim(exec: ExecId, ordinal: nat, permit: Permit, rec: nat, at: real)

  /** `times` is the limiter's deque, `free` the semaphore's value, `orphans` the detached abandonments
      whose `aclose` was cancelled; `records` and `claims` are the whole history. */
  datatype State = State(core: Core, pcs: map<ExecId, Pc>, clock: real, times: seq<real>, free: int,
                         orphans: set<(ExecId, nat)>, records: seq<real>, claims: seq<Claim>)

  function Init(cfg: Config): State {
    State(Core(map[], None, 1), map[], 0.0, [], cfg.maxConcurrency, {}, [], [])
  }

  /** The owner's verdict on the whole execution. */
  datatype Mark = Succeed | Fail(error: Failure) | Abandon

  /** Moves inside `open_attempt` up to the permit, and leaving it by cancellation. */
  datatype GateMove =
    | Open
    | Check
    | Enter
    | Woken
    | WaitCancelled
    | SleepOver
    | ClaimProbe
    | SleepCancelled
    | LeadReturned
    | EnterCancelled

  /** Moves from the permit to the claim. `CleanupCancelled` loses the permit: a second cancellation hits the
      clean-up of the first. */
  datatype AdmitMove =
    | LimiterPass(stamp: real)
    | RefusalHandled
    | SlotGranted
    | SlotUsed
    | AdmissionCancelled
    | Unwound
    | CleanupCancelled

  /** Moves of the owner of an open attempt. */
  datatype AttemptMove =
    | StartAccept
    | StartCorrect(error: Failure)
    | StartFail(error: Failure, retryable: bool, roll: real)
    | FinishOp(terminalRoll: real)
    | OpCancelled
    | StartClose
    | FinishClose
    | CloseCancelled

  datatype Step =
    | Tick(t: real)
    | StartExecution(e: ExecId)
    | Marked(e: ExecId, mark: Mark)
    | Gate(e: ExecId, gate: GateMove)
    | Admit(e: ExecId, admit: AdmitMove)
    | Own(e: ExecId, own: AttemptMove)
    | OrphanAbandons(e: ExecId, generation: nat)

  // ----- Small updates -----

  function Goto(s: State, e: ExecId, pc: Pc): State {
    s.(pcs := s.pcs[e := pc])
  }

  function SetEpisode(s: State, ep: Option<Episode>): State {
    s.(core := s.core.(episode := ep))
  }

  function SetExec(s: State, e: ExecId, x: Exec): State {
    s.(core := s.core.(execs := s.core.execs[e := x]))
  }

  predicate Known(s: State, e: ExecId) {
    e in s.pcs && e in s.core.execs
  }

  /** A refused or stale admission goes back to the gate, by way of the lock if it held a probe. */
  function AfterRefusal(permit: Permit): Pc {
    if permit.Probe? then Refused(permit) else GateTop
  }

  /** An exception leaves `_open_attempt`, by way of the lock if it held a probe. */
  function AfterError(permit: Permit): Pc {
    if permit.Probe? then Unwinding(permit) else Idle
  }

  // ----- The gate -----

  /** The checks before the admission loop; the caller gets an exception unless all pass. */
  function DoOpen(cfg: Config, s: State, e: ExecId): State
    requires Known(s, e)
  {
    var x := s.core.execs[e];
    if TerminalFailure(x).None? && CanAttempt(cfg, x) && x.claim.None? then Goto(s, e, GateTop) else s
  }

  function DoGateCheck(s: State, e: ExecId): State
    requires Known(s, e)
  {
    Goto(s, e, if TerminalFailure(s.core.execs[e]).Some? then Idle else GateLock)
  }

  function GatePc(result: GateResult, now: real): Pc {
    match result.outcome
    case Through(permit) => Limiting(permit)
    case Exhausted(_) => Idle
    case AwaitProbe => GateWait(true, result.generation)
    case AwaitLeader => GateWait(false, result.generation)
    case Sleep(delay) => GateSleep(result.generation, now + delay)
  }

  function DoGateEnter(s: State, e: ExecId): State {
    var result := EnterGate(s.core, e, s.clock);
    Goto(s.(core := result.core), e, GatePc(result, s.clock))
  }

  function DoGateWaitCancelled(s: State, e: ExecId, asLeader: bool, generation: nat): State {
    Goto(if asLeader then s else SetEpisode(s, LeaveWaiters(s.core.episode, e, generation)), e, Idle)
  }

  function DoGateClaim(s: State, e: ExecId, generation: nat): State {
    if StillLeads(s.core.episode, e, generation) then
      Goto(SetEpisode(s, Some(s.core.episode.value.(probeActive := true))), e, Limiting(Probe(generation)))
    else Goto(s, e, GateTop)
  }

  // ----- The limiter and the semaphore -----

  function DoLimiterPass(cfg: Config, s: State, e: ExecId, permit: Permit, stamp: real): State
    requires 0 < cfg.rateLimit
  {
    var pass := RateWindow.TryAcquire(cfg.rateLimit, cfg.rateWindow, s.times, s.clock, stamp,
                                      PermitCurrent(s.core.episode, e, permit));
    var s' := s.(times := pass.times, clock := stamp);
    match pass.outcome
    case Admitted => Goto(s'.(records := s.records + [stamp]), e, Queued(permit, |s.records|))
    case Refused => Goto(s', e, AfterRefusal(permit))
    case Wait(_) => s'
  }

  /** Re-check the permit and claim, without an await in between. */
  function DoSlotUsed(cfg: Config, s: State, e: ExecId, permit: Permit, rec: nat): State
    requires Known(s, e)
  {
    var x := s.core.execs[e];
    if !PermitCurrent(s.core.episode, e, permit) then
      Goto(s.(free := s.free + 1), e, AfterRefusal(permit))
    else if !CanAttempt(cfg, x) || x.claim.Some? then
      Goto(s.(free := s.free + 1), e, AfterError(permit))
    else
      var ordinal := x.started + 1;
      Goto(SetExec(s, e, x.(started := ordinal, claim := Some(ordinal)))
           .(claims := s.claims + [Claim(e, ordinal, permit, rec, s.clock)]),
           e, InAttempt(Attempt(permit, ordinal, rec, false, false, Resting)))
  }

  function PermitOf(pc: Pc): Permit
    requires pc.Limiting? || pc.Refused? || pc.Queued? || pc.Granted? || pc.Unwinding?
  {
    match pc
    case Limiting(p) => p
    case Refused(p) => p
    case Queued(p, _) => p
    case Granted(p, _) => p
    case Unwinding(p) => p
  }

  /** The lock was taken: give a held probe back and go on. */
  function DoHandBack(s: State, e: ExecId, permit: Permit, next: Pc): State {
    Goto(SetEpisode(s, HandBack(s.core.episode, e, permit, s.clock)), e, next)
  }

  // ----- An open attempt -----

  function SetOp(s: State, e: ExecId, a: Attempt, op: Op): State {
    Goto(s, e, InAttempt(a.(op := op)))
  }

  /** The part of `correct` before the lock. */
  function DoStartCorrect(cfg: Config, s: State, e: ExecId, a: Attempt, error: Failure): State
    requires Known(s, e)
  {
    var x := RecordFailure(s.core.execs[e], error);
    SetOp(SetExec(s, e, x), e, a, if CanAttempt(cfg, x) then Correcting(error) else Rejecting(error))
  }

  /** The part of `fail` before the lock, with `_attempt_failed`'s first two lines. */
  function DoStartFail(cfg: Config, s: State, e: ExecId, a: Attempt, error: Failure, retryable: bool, roll: real): State
    requires Known(s, e)
  {
    var x := RecordFailure(s.core.execs[e], error);
    SetOp(SetExec(s, e, x), e, a,
          if retryable then Failing(error, CanAttempt(cfg, x), RetryDelay(cfg, error, x.started, roll))
          else Rejecting(error))
  }

  /** `execution.fail(error)` unless another attempt is still allowed. */
  function SettleExec(cfg: Config, c: Core, e: ExecId, error: Failure): Core
    requires e in c.execs
  {
    if CanAttempt(cfg, c.execs[e]) then c else c.(execs := c.execs[e := MarkFailed(c.execs[e], error)])
  }

  /** The locked body of the operation in flight, and the resolution that follows it without an await. */
  function OpEffect(cfg: Config, s: State, e: ExecId, a: Attempt, terminalRoll: real): Core
    requires Known(s, e) && !a.op.Resting? && !a.op.Closing?
  {
    match a.op
    case Accepting => s.core.(episode := CloseEpisode(s.core.episode, e, a.permit))
    case Correcting(_) => s.core.(episode := ProbeCorrected(s.core.episode, e, a.permit, s.clock))
    case Rejecting(error) =>
      s.core.(episode := CloseEpisode(s.core.episode, e, a.permit),
              execs := s.core.execs[e := MarkFailed(s.core.execs[e], error)])
    case Failing(error, canRetry, delay) =>
      var terminalDelay := RetryDelay(cfg, error, s.core.execs[e].started, terminalRoll);
      SettleExec(cfg, FailAttempt(s.core, e, a.permit, error, canRetry, delay, terminalDelay, s.clock), e, error)
  }

  function DoFinishOp(cfg: Config, s: State, e: ExecId, a: Attempt, terminalRoll: real): State
    requires Known(s, e) && !a.op.Resting? && !a.op.Closing?
  {
    Goto(s.(core := OpEffect(cfg, s, e, a, terminalRoll)), e,
         InAttempt(a.(op := Resting, resolved := true, accepted := a.op.Accepting?)))
  }

  /** Release the claim and the slot. */
  function Release(s: State, e: ExecId): State
    requires Known(s, e)
  {
    Goto(SetExec(s, e, s.core.execs[e].(claim := None)).(free := s.free + 1), e, Idle)
  }

  function DoStartClose(s: State, e: ExecId, a: Attempt): State
    requires Known(s, e)
  {
    if a.resolved then Release(s, e) else SetOp(s, e, a, Closing)
  }

  function DoFinishClose(s: State, e: ExecId, a: Attempt): State
    requires Known(s, e)
  {
    Release(SetEpisode(s, HandBack(s.core.episode, e, a.permit, s.clock)), e)
  }

  /** `aclose` is cancelled while shielding: the slot is released, the abandonment goes on alone. */
  function DoCloseCancelled(s: State, e: ExecId, a: Attempt): State
    requires Known(s, e)
  {
    Release(if a.permit.Probe? then s.(orphans := s.orphans + {(e, a.permit.generation)}) else s, e)
  }

  // ----- Steps -----

  predicate GateEnabled(pc: Pc, clock: real, move: GateMove) {
    match move
    case Open => pc.Idle?
    case Check => pc.GateTop?
    case Enter => pc.GateLock?
    case Woken => pc.GateWait?
    case WaitCancelled => pc.GateWait?
    case SleepOver => pc.GateSleep? && pc.until <= clock
    case ClaimProbe => pc.GateRelock?
    case SleepCancelled => pc.GateSleep? || pc.GateRelock?
    case LeadReturned => pc.ReturningLead?
    case EnterCancelled => pc.GateLock? || pc.ReturningLead?
  }

  function DoGate(cfg: Config, s: State, e: ExecId, move: GateMove): State
    requires Known(s, e) && GateEnabled(s.pcs[e], s.clock, move)
  {
    var pc := s.pcs[e];
    match move
    case Open => DoOpen(cfg, s, e)
    case Check => DoGateCheck(s, e)
    case Enter => DoGateEnter(s, e)
    case Woken => Goto(s, e, GateTop)
    case WaitCancelled => DoGateWaitCancelled(s, e, pc.asLeader, pc.generation)
    case SleepOver => Goto(s, e, GateRelock(pc.generation, pc.until))
    case ClaimProbe => DoGateClaim(s, e, pc.generation)
    case SleepCancelled => Goto(s, e, ReturningLead(pc.generation))
    case LeadReturned => Goto(SetEpisode(s, ReturnLead(s.core.episode, e, pc.generation)), e, Idle)
    case EnterCancelled => Goto(s, e, Idle)
  }

  predicate AdmitEnabled(pc: Pc, clock: real, free: int, move: AdmitMove) {
    match move
    case LimiterPass(stamp) => pc.Limiting? && clock <= stamp
    case RefusalHandled => pc.Refused?
    case SlotGranted => pc.Queued? && 0 < free
    case SlotUsed => pc.Granted?
    case AdmissionCancelled => pc.Limiting? || pc.Refused? || pc.Queued? || pc.Granted?
    case Unwound => pc.Unwinding?
    case CleanupCancelled => pc.Unwinding?
  }

  function DoAdmit(cfg: Config, s: State, e: ExecId, move: AdmitMove): State
    requires 0 < cfg.rateLimit && Known(s, e) && AdmitEnabled(s.pcs[e], s.clock, s.free, move)
  {
    var pc := s.pcs[e];
    match move
    case LimiterPass(stamp) => DoLimiterPass(cfg, s, e, pc.permit, stamp)
    case RefusalHandled => DoHandBack(s, e, pc.permit, GateTop)
    case SlotGranted => Goto(s.(free := s.free - 1), e, Granted(pc.permit, pc.rec))
    case SlotUsed => DoSlotUsed(cfg, s, e, pc.permit, pc.rec)
    case AdmissionCancelled =>
      Goto(if pc.Granted? then s.(free := s.free + 1) else s, e, AfterError(PermitOf(pc)))
    case Unwound => DoHandBack(s, e, pc.permit, Idle)
    case CleanupCancelled => Goto(s, e, Idle)
  }

  predicate OwnEnabled(cfg: Config, a: Attempt, move: AttemptMove) {
    match move
    case StartAccept => a.op.Resting? && !a.resolved
    case StartCorrect(_) => a.op.Resting? && !a.resolved
    case StartFail(_, _, roll) => a.op.Resting? && !a.resolved && 0.0 <= roll <= cfg.jitter
    case FinishOp(roll) => !a.op.Resting? && !a.op.Closing? && 0.0 <= roll <= cfg.jitter
    case OpCancelled => !a.op.Resting? && !a.op.Closing?
    case StartClose => a.op.Resting?
    case FinishClose => a.op.Closing?
    case CloseCancelled => a.op.Closing?
  }

  function DoOwn(cfg: Config, s: State, e: ExecId, move: AttemptMove): State
    requires Known(s, e) && s.pcs[e].InAttempt? && OwnEnabled(cfg, s.pcs[e].attempt, move)
  {
    var a := s.pcs[e].attempt;
    match move
    case StartAccept => SetOp(s, e, a, Accepting)
    case StartCorrect(error) => DoStartCorrect(cfg, s, e, a, error)
    case StartFail(error, retryable, roll) => DoStartFail(cfg, s, e, a, error, retryable, roll)
    case FinishOp(roll) => DoFinishOp(cfg, s, e, a, roll)
    case OpCancelled => SetOp(s, e, a, Resting)
    case StartClose => DoStartClose(s, e, a)
    case FinishClose => DoFinishClose(s, e, a)
    case CloseCancelled => DoCloseCancelled(s, e, a)
  }

  function ApplyMark(x: Exec, mark: Mark): Exec {
    match mark
    case Succeed => MarkSucceeded(x)
    case Fail(error) => MarkFailed(x, error)
    case Abandon => MarkAbandoned(x)
  }

  predicate Enabled(cfg: Config, s: State, step: Step) {
    match step
    case Tick(t) => s.clock <= t
    case StartExecution(e) => e !in s.pcs && e !in s.core.execs
    case Marked(e, _) => Known(s, e)
    case Gate(e, move) => Known(s, e) && GateEnabled(s.pcs[e], s.clock, move)
    case Admit(e, move) => Known(s, e) && AdmitEnabled(s.pcs[e], s.clock, s.free, move)
    case Own(e, move) => Known(s, e) && s.pcs[e].InAttempt? && OwnEnabled(cfg, s.pcs[e].attempt, move)
    case OrphanAbandons(e, generation) => (e, generation) in s.orphans
  }

  /** One atomic step of the protocol. */
  function Do(cfg: Config, s: State, step: Step): State
    requires cfg.Accepted() && Enabled(cfg, s, step)
  {
    match step
    case Tick(t) => s.(clock := t)
    case StartExecution(e) => Goto(SetExec(s, e, NEW_EXEC), e, Idle)
    case Marked(e, mark) => SetExec(s, e, ApplyMark(s.core.execs[e], mark))
    case Gate(e, move) => DoGate(cfg, s, e, move)
    case Admit(e, move) => DoAdmit(cfg, s, e, move)
    case Own(e, move) => DoOwn(cfg, s, e, move)
    case OrphanAbandons(e, generation) =>
      SetEpisode(s.(orphans := s.orphans - {(e, generation)}),
                 HandBack(s.core.episode, e, Probe(generation), s.clock))
  }

  // ----- Runs -----

  /** The steps can be taken one after the other from `s`. */
  predicate CanRun(cfg: Config, s: State, steps: seq<Step>)
    requires cfg.Accepted()
    decreases |steps|
  {
    steps == [] || (Enabled(cfg, s, steps[0]) && CanRun(cfg, Do(cfg, s, steps[0]), steps[1..]))
  }

  /** Where they lead. */
  function Run(cfg: Config, s: State, steps: seq<Step>): State
    requires cfg.Accepted() && CanRun(cfg, s, steps)
    decreases |steps|
  {
    if steps == [] then s else Run(cfg, Do(cfg, s, steps[0]), steps[1..])
  }
}
