/** The books the admission protocol keeps: concurrency slots, attempt budgets, admission records. */
module AdmissionBooks {
  import opened Options
  import opened AdmissionCore
  import opened AdmissionMachine
  import RateWindow

  predicate TakesSlot(pc: Pc) {
    pc.Granted? || pc.InAttempt?
  }

  /** Tasks between semaphore acquire and claim, and unclosed attempts. */
  function SlotHolders(pcs: map<ExecId, Pc>): set<ExecId> {
    set e | e in pcs && TakesSlot(pcs[e])
  }

  /** The admission record a task owns but has not yet claimed an attempt with. */
  function Owned(pc: Pc): Option<nat> {
    match pc
    case Queued(_, rec) => Some(rec)
    case Granted(_, rec) => Some(rec)
    case _ => None
  }

  function UpTo(n: nat): seq<nat> {
    if n == 0 then [] else UpTo(n - 1) + [n]
  }

  /** The ordinals claimed by one execution, in order. */
  function OrdinalsOf(claims: seq<Claim>, e: ExecId): seq<nat> {
    if claims == [] then []
    else
      var last := claims[|claims| - 1];
      OrdinalsOf(claims[..|claims| - 1], e) + if last.exec == e then [last.ordinal] else []
  }

  ghost predicate SlotInv(cfg: Config, s: State) {
    0 <= s.free && s.free + |SlotHolders(s.pcs)| == cfg.maxConcurrency
  }

  /** Budget and claim of one execution against where its task stands. */
  ghost predicate BudgetOk(cfg: Config, x: Exec, pc: Pc, claims: seq<Claim>, e: ExecId) {
    && x.started <= cfg.maxAttempts
    && x.claim == (if pc.InAttempt? then Some(pc.attempt.ordinal) else None)
    && (pc.InAttempt? ==> pc.attempt.ordinal == x.started)
    && (x.state.Failed? ==> x.lastFailure.Some?)
    && (pc.InAttempt? && pc.attempt.op.Failing? ==>
          DelayWithin(cfg, pc.attempt.op.error, x.started, pc.attempt.op.delay))
    && (pc.InAttempt? && pc.attempt.op.Failing? ==>
          if pc.attempt.op.canRetry then x.started < cfg.maxAttempts else !CanAttempt(cfg, x))
    && OrdinalsOf(claims, e) == UpTo(x.started)
  }

  ghost predicate BudgetInv(cfg: Config, s: State) {
    && s.pcs.Keys == s.core.execs.Keys
    && (forall e :: e in s.pcs ==> BudgetOk(cfg, s.core.execs[e], s.pcs[e], s.claims, e))
    && (forall e :: e !in s.pcs ==> OrdinalsOf(s.claims, e) == [])
  }

  /** Every claim was paid for by its own, earlier record; so will every claim to come. */
  ghost predicate RecordInv(s: State) {
    && (forall e :: e in s.pcs && Owned(s.pcs[e]).Some? ==> Owned(s.pcs[e]).value < |s.records|)
    && (forall e, f :: e in s.pcs && f in s.pcs && e != f && Owned(s.pcs[e]).Some? ==>
          Owned(s.pcs[e]) != Owned(s.pcs[f]))
    && (forall i :: 0 <= i < |s.claims| ==>
          s.claims[i].rec < |s.records| && s.records[s.claims[i].rec] <= s.claims[i].at <= s.clock)
    && (forall i, j :: 0 <= i < j < |s.claims| ==> s.claims[i].rec != s.claims[j].rec)
    && (forall e, i :: e in s.pcs && 0 <= i < |s.claims| ==> Owned(s.pcs[e]) != Some(s.claims[i].rec))
  }

  ghost predicate LimiterInv(cfg: Config, s: State) {
    cfg.Accepted() && RateWindow.WindowInv(cfg.rateLimit, cfg.rateWindow, s.records, s.times, s.clock)
  }

  // ----- Slots -----

  lemma HoldersAfter(pcs: map<ExecId, Pc>, e: ExecId, pc: Pc)
    ensures var before := |SlotHolders(pcs)| - (if e in pcs && TakesSlot(pcs[e]) then 1 else 0);
            |SlotHolders(pcs[e := pc])| == before + if TakesSlot(pc) then 1 else 0
  {
    var rest := SlotHolders(pcs) - {e};
    assert SlotHolders(pcs[e := pc]) == if TakesSlot(pc) then rest + {e} else rest;
  }

  /** Every step moves `free` by exactly what its task gives back or takes. */
  lemma StepKeepsSlots(cfg: Config, s: State, step: Step)
    requires cfg.Accepted() && SlotInv(cfg, s) && Enabled(cfg, s, step)
    ensures SlotInv(cfg, Do(cfg, s, step))
  {
    match step
    case Tick(_) =>
    case StartExecution(e) => HoldersAfter(s.pcs, e, Idle);
    case Marked(e, mark) =>
    case Gate(e, move) => GateKeepsSlots(cfg, s, e, move);
    case Admit(e, move) => AdmitKeepsSlots(cfg, s, e, move);
    case Own(e, move) => OwnKeepsSlots(cfg, s, e, move);
    case OrphanAbandons(e, g) =>
  }

  lemma GateKeepsSlots(cfg: Config, s: State, e: ExecId, move: GateMove)
    requires SlotInv(cfg, s) && Known(s, e) && GateEnabled(s.pcs[e], s.clock, move)
    ensures SlotInv(cfg, DoGate(cfg, s, e, move))
  {
    var s' := DoGate(cfg, s, e, move);
    assert s'.pcs == s.pcs[e := s'.pcs[e]];
    HoldersAfter(s.pcs, e, s'.pcs[e]);
  }

  lemma AdmitKeepsSlots(cfg: Config, s: State, e: ExecId, move: AdmitMove)
    requires SlotInv(cfg, s) && 0 < cfg.rateLimit && Known(s, e) && AdmitEnabled(s.pcs[e], s.clock, s.free, move)
    ensures SlotInv(cfg, DoAdmit(cfg, s, e, move))
  {
    var s' := DoAdmit(cfg, s, e, move);
    assert s'.pcs == s.pcs[e := s'.pcs[e]];
    HoldersAfter(s.pcs, e, s'.pcs[e]);
  }

  lemma OwnKeepsSlots(cfg: Config, s: State, e: ExecId, move: AttemptMove)
    requires SlotInv(cfg, s) && Known(s, e) && s.pcs[e].InAttempt? && OwnEnabled(cfg, s.pcs[e].attempt, move)
    ensures SlotInv(cfg, DoOwn(cfg, s, e, move))
  {
    var s' := DoOwn(cfg, s, e, move);
    assert s'.pcs == s.pcs[e := s'.pcs[e]];
    HoldersAfter(s.pcs, e, s'.pcs[e]);
  }

  // ----- Budgets -----

  /** No execution's budget or claim moves, and no attempt starts or ends; a failure may be marked. */
  predicate SameBudget(x: Exec, x': Exec) {
    && x'.started == x.started
    && x'.claim == x.claim
    && (x'.state.Active? ==> x.state.Active?)
    && (x'.state.Failed? ==> x'.lastFailure.Some? || (x.state.Failed? && x'.lastFailure == x.lastFailure))
  }

  ghost predicate BudgetsStand(cfg: Config, s: State, s': State, e: ExecId) {
    && e in s.pcs && e in s'.pcs && e in s'.core.execs && s'.pcs == s.pcs[e := s'.pcs[e]]
    && s'.claims == s.claims
    && s'.core.execs.Keys == s.core.execs.Keys
    && (forall f :: f in s.core.execs ==> SameBudget(s.core.execs[f], s'.core.execs[f]))
    && s'.pcs[e].InAttempt? == s.pcs[e].InAttempt?
    && (s'.pcs[e].InAttempt? ==> s'.pcs[e].attempt.ordinal == s.pcs[e].attempt.ordinal)
    && (s'.pcs[e].InAttempt? && s'.pcs[e].attempt.op.Failing? ==>
          s'.pcs[e] == s.pcs[e] || (
            var x := s'.core.execs[e]; var op := s'.pcs[e].attempt.op;
            && DelayWithin(cfg, op.error, x.started, op.delay)
            && (if op.canRetry then x.started < cfg.maxAttempts else !CanAttempt(cfg, x))))
  }

  lemma StandingKeepsBudgets(cfg: Config, s: State, s': State, e: ExecId)
    requires BudgetInv(cfg, s) && BudgetsStand(cfg, s, s', e)
    ensures BudgetInv(cfg, s')
  {
    forall f | f in s'.pcs ensures BudgetOk(cfg, s'.core.execs[f], s'.pcs[f], s'.claims, f) {
      assert BudgetOk(cfg, s.core.execs[f], s.pcs[f], s.claims, f);
      assert SameBudget(s.core.execs[f], s'.core.execs[f]);
    }
  }

  lemma GateKeepsBudgets(cfg: Config, s: State, e: ExecId, move: GateMove)
    requires Known(s, e) && GateEnabled(s.pcs[e], s.clock, move)
    requires forall f :: f in s.core.execs && s.core.execs[f].state.Failed? ==> s.core.execs[f].lastFailure.Some?
    ensures BudgetsStand(cfg, s, DoGate(cfg, s, e, move), e)
  {
  }

  lemma FailingKeepsBudgets(cfg: Config, s: State, e: ExecId, a: Attempt, terminalRoll: real)
    requires Known(s, e) && s.pcs[e] == InAttempt(a) && a.op.Failing?
    requires forall f :: f in s.core.execs && s.core.execs[f].state.Failed? ==> s.core.execs[f].lastFailure.Some?
    ensures BudgetsStand(cfg, s, DoFinishOp(cfg, s, e, a, terminalRoll), e)
  {
  }

  predicate Closes(a: Attempt, move: AttemptMove) {
    move.FinishClose? || move.CloseCancelled? || (move.StartClose? && a.resolved)
  }

  lemma UnclosedKeepsBudgets(cfg: Config, s: State, e: ExecId, move: AttemptMove)
    requires cfg.Accepted() && Known(s, e) && s.pcs[e].InAttempt? && OwnEnabled(cfg, s.pcs[e].attempt, move)
    requires forall f :: f in s.core.execs && s.core.execs[f].state.Failed? ==> s.core.execs[f].lastFailure.Some?
    requires !Closes(s.pcs[e].attempt, move)
    ensures BudgetsStand(cfg, s, DoOwn(cfg, s, e, move), e)
  {
    if move.FinishOp? && s.pcs[e].attempt.op.Failing? {
      FailingKeepsBudgets(cfg, s, e, s.pcs[e].attempt, move.terminalRoll);
    } else if move.StartFail? {
      RetryDelayBounds(cfg, move.error, s.core.execs[e].started, move.roll);
    }
  }

  lemma ReleaseKeepsBudgets(cfg: Config, s: State, s': State, e: ExecId)
    requires BudgetInv(cfg, s) && Known(s, e)
    requires s'.pcs == s.pcs[e := Idle] && s'.claims == s.claims
    requires s'.core.execs == s.core.execs[e := s.core.execs[e].(claim := None)]
    ensures BudgetInv(cfg, s')
  {
    forall f | f in s'.pcs ensures BudgetOk(cfg, s'.core.execs[f], s'.pcs[f], s'.claims, f) {
      assert BudgetOk(cfg, s.core.execs[f], s.pcs[f], s.claims, f);
    }
  }

  lemma OrdinalsAfter(claims: seq<Claim>, claim: Claim, f: ExecId)
    ensures OrdinalsOf(claims + [claim], f) == OrdinalsOf(claims, f) + if claim.exec == f then [claim.ordinal] else []
  {
    assert (claims + [claim])[..|claims|] == claims;
  }

  /** A claim takes the next ordinal of its execution, within the budget. */
  lemma ClaimKeepsBudgets(cfg: Config, s: State, e: ExecId, permit: Permit, rec: nat)
    requires BudgetInv(cfg, s) && Known(s, e) && s.pcs[e] == Granted(permit, rec)
    ensures BudgetInv(cfg, DoSlotUsed(cfg, s, e, permit, rec))
  {
    var x := s.core.execs[e];
    assert BudgetOk(cfg, x, s.pcs[e], s.claims, e);
    if DoSlotUsed(cfg, s, e, permit, rec).claims == s.claims {
      MovingKeepsBudgets(cfg, s, DoSlotUsed(cfg, s, e, permit, rec), e);
    } else {
      NextOrdinalKeepsBudgets(cfg, s, DoSlotUsed(cfg, s, e, permit, rec), e,
                              Claim(e, x.started + 1, permit, rec, s.clock));
    }
  }

  lemma NextOrdinalKeepsBudgets(cfg: Config, s: State, s': State, e: ExecId, claim: Claim)
    requires BudgetInv(cfg, s) && Known(s, e) && CanAttempt(cfg, s.core.execs[e])
    requires claim.exec == e && claim.ordinal == s.core.execs[e].started + 1
    requires s'.core.execs ==
               s.core.execs[e := s.core.execs[e].(started := claim.ordinal, claim := Some(claim.ordinal))]
    requires e in s'.pcs && s'.pcs == s.pcs[e := s'.pcs[e]] && s'.claims == s.claims + [claim]
    requires s'.pcs[e].InAttempt? && s'.pcs[e].attempt.op.Resting? && s'.pcs[e].attempt.ordinal == claim.ordinal
    ensures BudgetInv(cfg, s')
  {
    forall f | f in s'.pcs ensures BudgetOk(cfg, s'.core.execs[f], s'.pcs[f], s'.claims, f) {
      assert BudgetOk(cfg, s.core.execs[f], s.pcs[f], s.claims, f);
      OrdinalsAfter(s.claims, claim, f);
    }
    forall f | f !in s'.pcs ensures OrdinalsOf(s'.claims, f) == [] {
      OrdinalsAfter(s.claims, claim, f);
    }
  }

  /** With executions and claims untouched, moving a task that is in no attempt keeps every budget. */
  lemma MovingKeepsBudgets(cfg: Config, s: State, s': State, e: ExecId)
    requires BudgetInv(cfg, s) && e in s.pcs && e in s'.pcs && s'.pcs == s.pcs[e := s'.pcs[e]]
    requires s'.core.execs == s.core.execs && s'.claims == s.claims
    requires !s.pcs[e].InAttempt? && !s'.pcs[e].InAttempt?
    ensures BudgetInv(cfg, s')
  {
    forall f | f in s'.pcs ensures BudgetOk(cfg, s'.core.execs[f], s'.pcs[f], s'.claims, f) {
      assert BudgetOk(cfg, s.core.execs[f], s.pcs[f], s.claims, f);
    }
  }

  lemma AdmitKeepsBudgets(cfg: Config, s: State, e: ExecId, move: AdmitMove)
    requires BudgetInv(cfg, s) && 0 < cfg.rateLimit && Known(s, e) && AdmitEnabled(s.pcs[e], s.clock, s.free, move)
    ensures BudgetInv(cfg, DoAdmit(cfg, s, e, move))
  {
    if move.SlotUsed? {
      ClaimKeepsBudgets(cfg, s, e, s.pcs[e].permit, s.pcs[e].rec);
    } else {
      MovingKeepsBudgets(cfg, s, DoAdmit(cfg, s, e, move), e);
    }
  }

  lemma MarkKeepsBudgets(cfg: Config, s: State, e: ExecId, x: Exec)
    requires BudgetInv(cfg, s) && Known(s, e) && SameBudget(s.core.execs[e], x)
    ensures BudgetInv(cfg, SetExec(s, e, x))
  {
    forall f | f in s.pcs ensures BudgetOk(cfg, SetExec(s, e, x).core.execs[f], s.pcs[f], s.claims, f) {
      assert BudgetOk(cfg, s.core.execs[f], s.pcs[f], s.claims, f);
    }
  }

  lemma StartKeepsBudgets(cfg: Config, s: State, e: ExecId)
    requires cfg.Accepted() && BudgetInv(cfg, s) && e !in s.pcs
    ensures BudgetInv(cfg, Goto(SetExec(s, e, NEW_EXEC), e, Idle))
  {
    var s' := Goto(SetExec(s, e, NEW_EXEC), e, Idle);
    forall f | f in s'.pcs ensures BudgetOk(cfg, s'.core.execs[f], s'.pcs[f], s'.claims, f) {
      if f != e { assert BudgetOk(cfg, s.core.execs[f], s.pcs[f], s.claims, f); }
    }
  }

  lemma FailedHaveErrors(cfg: Config, s: State)
    requires BudgetInv(cfg, s)
    ensures forall f :: f in s.core.execs && s.core.execs[f].state.Failed? ==> s.core.execs[f].lastFailure.Some?
  {
    forall f | f in s.core.execs && s.core.execs[f].state.Failed? ensures s.core.execs[f].lastFailure.Some? {
      assert BudgetOk(cfg, s.core.execs[f], s.pcs[f], s.claims, f);
    }
  }

  lemma OwnMoveKeepsBudgets(cfg: Config, s: State, e: ExecId, move: AttemptMove)
    requires cfg.Accepted() && BudgetInv(cfg, s)
    requires Known(s, e) && s.pcs[e].InAttempt? && OwnEnabled(cfg, s.pcs[e].attempt, move)
    ensures BudgetInv(cfg, DoOwn(cfg, s, e, move))
  {
    if Closes(s.pcs[e].attempt, move) {
      ReleaseKeepsBudgets(cfg, s, DoOwn(cfg, s, e, move), e);
    } else {
      FailedHaveErrors(cfg, s);
      UnclosedKeepsBudgets(cfg, s, e, move);
      StandingKeepsBudgets(cfg, s, DoOwn(cfg, s, e, move), e);
    }
  }

  /** Every step keeps every execution within its budget, with at most one active claim. */
  lemma StepKeepsBudgets(cfg: Config, s: State, step: Step)
    requires cfg.Accepted() && BudgetInv(cfg, s) && Enabled(cfg, s, step)
    ensures BudgetInv(cfg, Do(cfg, s, step))
  {
    match step
    case Tick(_) =>
    case StartExecution(e) => StartKeepsBudgets(cfg, s, e);
    case Marked(e, mark) => MarkKeepsBudgets(cfg, s, e, ApplyMark(s.core.execs[e], mark));
    case Gate(e, move) =>
      FailedHaveErrors(cfg, s);
      GateKeepsBudgets(cfg, s, e, move);
      StandingKeepsBudgets(cfg, s, Do(cfg, s, step), e);
    case Admit(e, move) => AdmitKeepsBudgets(cfg, s, e, move);
    case Own(e, move) => OwnMoveKeepsBudgets(cfg, s, e, move);
    case OrphanAbandons(e, g) =>
  }

  // ----- Records -----

  /** Nothing is recorded or claimed, and the task keeps its record or lets go of it. */
  predicate RecordsStand(s: State, s': State, e: ExecId) {
    && e in s'.pcs && s'.pcs == s.pcs[e := s'.pcs[e]]
    && s'.claims == s.claims && s'.records == s.records && s'.times == s.times && s'.clock == s.clock
    && (Owned(s'.pcs[e]) == None || (e in s.pcs && Owned(s'.pcs[e]) == Owned(s.pcs[e])))
  }

  lemma StandingKeepsRecords(s: State, s': State, e: ExecId)
    requires RecordInv(s) && RecordsStand(s, s', e)
    ensures RecordInv(s')
  {
  }

  lemma GateKeepsRecords(cfg: Config, s: State, e: ExecId, move: GateMove)
    requires Known(s, e) && GateEnabled(s.pcs[e], s.clock, move)
    ensures RecordsStand(s, DoGate(cfg, s, e, move), e)
  {
  }

  lemma OwnKeepsRecords(cfg: Config, s: State, e: ExecId, move: AttemptMove)
    requires Known(s, e) && s.pcs[e].InAttempt? && OwnEnabled(cfg, s.pcs[e].attempt, move)
    ensures RecordsStand(s, DoOwn(cfg, s, e, move), e)
  {
  }

  lemma AdmissionAddsRecord(s: State, e: ExecId, permit: Permit, times: seq<real>, stamp: real)
    requires RecordInv(s) && e in s.pcs && s.clock <= stamp
    ensures RecordInv(Goto(s.(times := times, clock := stamp, records := s.records + [stamp]), e,
                           Queued(permit, |s.records|)))
  {
  }

  /** A claim uses up the record its task owned. */
  lemma ClaimUsesRecord(cfg: Config, s: State, e: ExecId, permit: Permit, rec: nat)
    requires RecordInv(s) && Known(s, e) && s.pcs[e] == Granted(permit, rec)
    requires rec < |s.records| && s.records[rec] <= s.clock
    ensures RecordInv(DoSlotUsed(cfg, s, e, permit, rec))
  {
    var s' := DoSlotUsed(cfg, s, e, permit, rec);
    if |s'.claims| == |s.claims| {
      StandingKeepsRecords(s, s', e);
    } else {
      assert s'.claims[..|s.claims|] == s.claims;
      assert Owned(s.pcs[e]) == Some(rec);
      forall f, i | f in s'.pcs && 0 <= i < |s'.claims| ensures Owned(s'.pcs[f]) != Some(s'.claims[i].rec) {
        if i < |s.claims| { assert s'.claims[i] == s.claims[i]; }
      }
    }
  }

  lemma PassKeepsRecords(cfg: Config, s: State, e: ExecId, permit: Permit, stamp: real)
    requires 0 < cfg.rateLimit && RecordInv(s) && Known(s, e) && s.pcs[e] == Limiting(permit) && s.clock <= stamp
    ensures RecordInv(DoLimiterPass(cfg, s, e, permit, stamp))
  {
    var s' := DoLimiterPass(cfg, s, e, permit, stamp);
    if s'.records != s.records {
      AdmissionAddsRecord(s, e, permit, s'.times, stamp);
    } else {
      StandingKeepsRecords(s, s'.(times := s.times, clock := s.clock), e);
    }
  }

  lemma AdmitKeepsRecords(cfg: Config, s: State, e: ExecId, move: AdmitMove)
    requires cfg.Accepted() && RecordInv(s) && LimiterInv(cfg, s)
    requires Known(s, e) && AdmitEnabled(s.pcs[e], s.clock, s.free, move)
    ensures RecordInv(DoAdmit(cfg, s, e, move))
  {
    var s' := DoAdmit(cfg, s, e, move);
    match move
    case LimiterPass(stamp) => PassKeepsRecords(cfg, s, e, s.pcs[e].permit, stamp);
    case SlotUsed =>
      assert Owned(s.pcs[e]).Some?;
      ClaimUsesRecord(cfg, s, e, s.pcs[e].permit, s.pcs[e].rec);
    case _ => StandingKeepsRecords(s, s', e);
  }

  lemma StepKeepsRecords(cfg: Config, s: State, step: Step)
    requires cfg.Accepted() && RecordInv(s) && LimiterInv(cfg, s) && Enabled(cfg, s, step)
    ensures RecordInv(Do(cfg, s, step))
  {
    var s' := Do(cfg, s, step);
    match step
    case Tick(_) =>
    case StartExecution(e) => StandingKeepsRecords(s, s', e);
    case Marked(e, mark) => StandingKeepsRecords(s, s', e);
    case Gate(e, move) => GateKeepsRecords(cfg, s, e, move); StandingKeepsRecords(s, s', e);
    case Admit(e, move) => AdmitKeepsRecords(cfg, s, e, move);
    case Own(e, move) => OwnKeepsRecords(cfg, s, e, move); StandingKeepsRecords(s, s', e);
    case OrphanAbandons(e, g) =>
  }

  lemma LimiterPassKeepsWindow(cfg: Config, s: State, e: ExecId, permit: Permit, stamp: real)
    requires cfg.Accepted() && LimiterInv(cfg, s) && s.clock <= stamp
    ensures LimiterInv(cfg, DoLimiterPass(cfg, s, e, permit, stamp))
  {
    RateWindow.PassKeepsWindow(cfg.rateLimit, cfg.rateWindow, s.records, s.times, s.clock, s.clock, stamp,
                               PermitCurrent(s.core.episode, e, permit));
  }

  lemma StepKeepsLimiter(cfg: Config, s: State, step: Step)
    requires cfg.Accepted() && LimiterInv(cfg, s) && Enabled(cfg, s, step)
    ensures LimiterInv(cfg, Do(cfg, s, step))
  {
    var s' := Do(cfg, s, step);
    match step
    case Tick(t) => RateWindow.WindowGoesOn(cfg.rateLimit, cfg.rateWindow, s.records, s.times, s.clock, t);
    case Gate(e, move) => GateKeepsRecords(cfg, s, e, move);
    case Admit(e, move) =>
      if move.LimiterPass? {
        LimiterPassKeepsWindow(cfg, s, e, s.pcs[e].permit, move.stamp);
      } else {
        assert s'.records == s.records && s'.times == s.times && s'.clock == s.clock;
      }
    case Own(e, move) => OwnKeepsRecords(cfg, s, e, move);
    case _ =>
  }
}
