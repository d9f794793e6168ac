/** What holds in every reachable state and over every run of the admission protocol. */
module AdmissionRuns {
  import opened Options
  import opened AdmissionCore
  import opened AdmissionMachine
  import opened AdmissionProtocol
  import opened AdmissionBooks
  import RateWindow

  ghost predicate Reachable(cfg: Config, s: State)
    requires cfg.Accepted()
  {
    exists steps: seq<Step> :: CanRun(cfg, Init(cfg), steps) && s == Run(cfg, Init(cfg), steps)
  }

  // ----- Two facts about where tasks stand -----

  lemma AdmitMovesOwner(cfg: Config, s: State, e: ExecId, move: AdmitMove, g: nat)
    requires 0 < cfg.rateLimit && Known(s, e) && AdmitEnabled(s.pcs[e], s.clock, s.free, move)
    ensures var s' := DoAdmit(cfg, s, e, move);
            s'.pcs == s.pcs[e := s'.pcs[e]] && (s'.pcs[e] == Limiting(Probe(g)) ==> s.pcs[e] == s'.pcs[e])
  {
  }

  lemma OwnMovesOwner(cfg: Config, s: State, e: ExecId, move: AttemptMove)
    requires Known(s, e) && s.pcs[e].InAttempt? && OwnEnabled(cfg, s.pcs[e].attempt, move)
    ensures var s' := DoOwn(cfg, s, e, move);
            s'.pcs == s.pcs[e := s'.pcs[e]] && (s'.pcs[e].InAttempt? || s'.pcs[e].Idle?)
  {
  }

  ghost predicate NoRefused(s: State) {
    forall e :: e in s.pcs ==> !s.pcs[e].Refused?
  }

  lemma NoRefusedStep(cfg: Config, s: State, step: Step)
    requires cfg.Accepted() && ProtocolInv(s) && NoRefused(s) && Enabled(cfg, s, step)
    ensures NoRefused(Do(cfg, s, step))
  {
    match step
    case Admit(e, move) =>
      assert TaskOk(s.core.episode, e, s.pcs[e], s.orphans);
      AdmitNeverRefuses(cfg, s, e, move);
    case Gate(e, move) =>
      GateKeepsRecords(cfg, s, e, move);
      GateNeverRefuses(cfg, s, e, move);
    case Own(e, move) =>
      OwnKeepsRecords(cfg, s, e, move);
      OwnMovesOwner(cfg, s, e, move);
    case _ =>
  }

  lemma AdmitNeverRefuses(cfg: Config, s: State, e: ExecId, move: AdmitMove)
    requires 0 < cfg.rateLimit && Known(s, e) && AdmitEnabled(s.pcs[e], s.clock, s.free, move)
    requires TaskOk(s.core.episode, e, s.pcs[e], s.orphans) && !s.pcs[e].Refused?
    ensures var s' := DoAdmit(cfg, s, e, move); s'.pcs == s.pcs[e := s'.pcs[e]] && !s'.pcs[e].Refused?
  {
  }

  lemma GateNeverRefuses(cfg: Config, s: State, e: ExecId, move: GateMove)
    requires Known(s, e) && GateEnabled(s.pcs[e], s.clock, move)
    ensures e in DoGate(cfg, s, e, move).pcs && !DoGate(cfg, s, e, move).pcs[e].Refused?
  {
  }

  /** A task past its sleep really slept: its wake-up time has come. */
  ghost predicate WakeUps(s: State) {
    forall e :: e in s.pcs && s.pcs[e].GateRelock? ==> s.pcs[e].until <= s.clock
  }

  lemma WakeUpsStep(cfg: Config, s: State, step: Step)
    requires cfg.Accepted() && WakeUps(s) && Enabled(cfg, s, step)
    ensures WakeUps(Do(cfg, s, step))
  {
    match step
    case Gate(e, move) =>
      GateKeepsRecords(cfg, s, e, move);
      WakeUpsGate(cfg, s, e, move);
    case Admit(e, move) => AdmitMovesOwner(cfg, s, e, move, 0); AdmitNeverRelocks(cfg, s, e, move);
    case Own(e, move) => OwnKeepsRecords(cfg, s, e, move); OwnMovesOwner(cfg, s, e, move);
    case _ =>
  }

  lemma WakeUpsGate(cfg: Config, s: State, e: ExecId, move: GateMove)
    requires Known(s, e) && GateEnabled(s.pcs[e], s.clock, move)
    ensures var s' := DoGate(cfg, s, e, move);
            && s'.pcs == s.pcs[e := s'.pcs[e]] && s'.clock == s.clock
            && (s'.pcs[e].GateRelock? ==> s'.pcs[e].until <= s'.clock || s'.pcs[e] == s.pcs[e])
  {
  }

  lemma AdmitNeverRelocks(cfg: Config, s: State, e: ExecId, move: AdmitMove)
    requires 0 < cfg.rateLimit && Known(s, e) && AdmitEnabled(s.pcs[e], s.clock, s.free, move)
    ensures !DoAdmit(cfg, s, e, move).pcs[e].GateRelock? && s.clock <= DoAdmit(cfg, s, e, move).clock
  {
  }

  // ----- The whole invariant -----

  ghost predicate Inv(cfg: Config, s: State) {
    cfg.Accepted() && ProtocolInv(s) && SlotInv(cfg, s) && BudgetInv(cfg, s) && RecordInv(s) && LimiterInv(cfg, s)
    && NoRefused(s) && WakeUps(s)
  }

  lemma InitInv(cfg: Config)
    requires cfg.Accepted()
    ensures Inv(cfg, Init(cfg))
  {
    assert SlotHolders(Init(cfg).pcs) == {};
  }

  lemma {:induction false} RunInv(cfg: Config, s: State, steps: seq<Step>)
    requires Inv(cfg, s) && CanRun(cfg, s, steps)
    ensures Inv(cfg, Run(cfg, s, steps))
    decreases |steps|
  {
    if steps != [] {
      StepKeepsProtocol(cfg, s, steps[0]);
      StepKeepsSlots(cfg, s, steps[0]);
      StepKeepsBudgets(cfg, s, steps[0]);
      StepKeepsRecords(cfg, s, steps[0]);
      StepKeepsLimiter(cfg, s, steps[0]);
      NoRefusedStep(cfg, s, steps[0]);
      WakeUpsStep(cfg, s, steps[0]);
      RunInv(cfg, Do(cfg, s, steps[0]), steps[1..]);
    }
  }

  lemma ReachableInv(cfg: Config, s: State)
    requires cfg.Accepted() && Reachable(cfg, s)
    ensures Inv(cfg, s)
  {
    var steps: seq<Step> :| CanRun(cfg, Init(cfg), steps) && s == Run(cfg, Init(cfg), steps);
    InitInv(cfg);
    RunInv(cfg, Init(cfg), steps);
  }

  lemma ReachableProtocol(cfg: Config, s: State)
    requires cfg.Accepted() && Reachable(cfg, s)
    ensures ProtocolInv(s)
  {
    ReachableInv(cfg, s);
  }

  /** What a single task may count on in a reachable state. */
  lemma ReachableTask(cfg: Config, s: State, e: ExecId)
    requires cfg.Accepted() && Reachable(cfg, s) && (e in s.pcs || e in s.core.execs)
    ensures ReadyToMove(s, e) && BudgetOk(cfg, s.core.execs[e], s.pcs[e], s.claims, e)
  {
    ReachableInv(cfg, s);
  }

  lemma ReachableNoRefused(cfg: Config, s: State)
    requires cfg.Accepted() && Reachable(cfg, s)
    ensures NoRefused(s) && WakeUps(s)
  {
    ReachableInv(cfg, s);
  }

  lemma ReachableRecords(cfg: Config, s: State)
    requires cfg.Accepted() && Reachable(cfg, s)
    ensures RecordInv(s) && LimiterInv(cfg, s)
  {
    ReachableInv(cfg, s);
  }

  lemma {:induction false} RunSnoc(cfg: Config, s: State, steps: seq<Step>, step: Step)
    requires cfg.Accepted() && CanRun(cfg, s, steps) && Enabled(cfg, Run(cfg, s, steps), step)
    ensures CanRun(cfg, s, steps + [step])
    ensures Run(cfg, s, steps + [step]) == Do(cfg, Run(cfg, s, steps), step)
    decreases |steps|
  {
    if steps == [] {
      var next := Do(cfg, s, step);
      assert CanRun(cfg, next, []) && Run(cfg, next, []) == next;
      assert [] + [step] == [step] && [step][1..] == [];
    } else {
      RunSnoc(cfg, Do(cfg, s, steps[0]), steps[1..], step);
      assert (steps + [step])[1..] == steps[1..] + [step];
    }
  }

  lemma ReachableStep(cfg: Config, s: State, step: Step)
    requires cfg.Accepted() && Reachable(cfg, s) && Enabled(cfg, s, step)
    ensures Reachable(cfg, Do(cfg, s, step))
  {
    var steps: seq<Step> :| CanRun(cfg, Init(cfg), steps) && s == Run(cfg, Init(cfg), steps);
    RunSnoc(cfg, Init(cfg), steps, step);
  }

  // ----- Probes -----

  /** At most one task holds a probe permit or an unresolved probe attempt, or leaves an abandonment of one
      pending; it is the leader of the current, non-terminal episode, and the permit is of that generation. */
  lemma OneProbeHolder(cfg: Config, s: State)
    requires cfg.Accepted() && Reachable(cfg, s)
    ensures forall e, g :: e in s.pcs && Held(s.pcs[e]) == Some(Probe(g)) ==>
              && s.core.episode.Some?
              && s.core.episode.value.generation == g
              && s.core.episode.value.leader == Some(e)
              && s.core.episode.value.probeActive
              && s.core.episode.value.terminalUntil.None?
              && (forall f, h :: f in s.pcs && Held(s.pcs[f]) == Some(Probe(h)) ==> f == e && h == g)
              && (forall f, h: nat :: (f, h) !in s.orphans)
    ensures forall p, q :: p in s.orphans && q in s.orphans ==> p == q
  {
    ReachableProtocol(cfg, s);
    forall e, g | e in s.pcs && Held(s.pcs[e]) == Some(Probe(g))
      ensures PermitCurrent(s.core.episode, e, Probe(g)) && (forall f, h: nat :: (f, h) !in s.orphans)
    {
      HolderHasNoOrphan(s, e);
      forall f, h: nat ensures (f, h) !in s.orphans {
        if (f, h) in s.orphans {
          assert false;
        }
      }
    }
    forall p, q | p in s.orphans && q in s.orphans ensures p == q {
      assert (p.0, p.1) in s.orphans && (q.0, q.1) in s.orphans;
      assert PermitCurrent(s.core.episode, p.0, Probe(p.1)) && PermitCurrent(s.core.episode, q.0, Probe(q.1));
    }
  }

  /** A held probe permit is always current, so neither re-check ever refuses a probe: only ordinary
      permits are sent back to the gate. */
  lemma ProbesAreNeverRefused(cfg: Config, s: State, e: ExecId, move: AdmitMove)
    requires cfg.Accepted() && Reachable(cfg, s) && Enabled(cfg, s, Admit(e, move))
    ensures !s.pcs[e].Refused?
    ensures !Do(cfg, s, Admit(e, move)).pcs[e].Refused?
  {
    ReachableTask(cfg, s, e);
    ReachableNoRefused(cfg, s);
    AdmitNeverRefuses(cfg, s, e, move);
  }

  // ----- Claims -----

  /** An attempt starts only at the claim step: ordinary exactly when no episode exists, as a probe only for
      the leader of the current non-terminal episode. It pays with its own earlier record. */
  lemma ClaimsRespectTheEpisode(cfg: Config, s: State, step: Step)
    requires cfg.Accepted() && Reachable(cfg, s) && Enabled(cfg, s, step)
    requires Do(cfg, s, step).claims != s.claims
    ensures step.Admit? && step.admit.SlotUsed?
    ensures var s' := Do(cfg, s, step);
            && |s'.claims| == |s.claims| + 1
            && s'.claims[..|s.claims|] == s.claims
            && var c := s'.claims[|s.claims|];
               && c.exec == step.e && c.at == s.clock
               && (c.permit.Ordinary? <==> s.core.episode.None?)
               && (c.permit.Probe? ==>
                     && s.core.episode.value.generation == c.permit.generation
                     && s.core.episode.value.leader == Some(c.exec)
                     && s.core.episode.value.probeActive
                     && s.core.episode.value.terminalUntil.None?)
               && c.ordinal == s.core.execs[c.exec].started + 1 <= cfg.maxAttempts
               && s.core.execs[c.exec].state.Active? && s.core.execs[c.exec].claim.None?
               && c.rec < |s.records| && s.records[c.rec] <= c.at
               && (forall i :: 0 <= i < |s.claims| ==> s.claims[i].rec != c.rec)
  {
    ClaimsOnlyAtSlotUsed(cfg, s, step);
    ReachableTask(cfg, s, step.e);
    ClaimIsFromTheEpisode(cfg, s, step.e, s.pcs[step.e].permit, s.pcs[step.e].rec);
    ReachableRecords(cfg, s);
    OwnedRecordIsFresh(s, step.e, s.pcs[step.e].rec);
  }

  lemma ClaimIsFromTheEpisode(cfg: Config, s: State, e: ExecId, permit: Permit, rec: nat)
    requires ReadyToMove(s, e) && s.pcs[e] == Granted(permit, rec)
    requires DoSlotUsed(cfg, s, e, permit, rec).claims != s.claims
    ensures var claims := DoSlotUsed(cfg, s, e, permit, rec).claims;
            && claims == s.claims + [Claim(e, s.core.execs[e].started + 1, permit, rec, s.clock)]
            && claims[..|s.claims|] == s.claims
            && PermitCurrent(s.core.episode, e, permit)
            && CanAttempt(cfg, s.core.execs[e]) && s.core.execs[e].claim.None?
  {
  }

  lemma OwnedRecordIsFresh(s: State, e: ExecId, rec: nat)
    requires RecordInv(s) && e in s.pcs && Owned(s.pcs[e]) == Some(rec)
    ensures rec < |s.records| && forall i :: 0 <= i < |s.claims| ==> s.claims[i].rec != rec
  {
  }

  lemma ClaimsOnlyAtSlotUsed(cfg: Config, s: State, step: Step)
    requires cfg.Accepted() && Enabled(cfg, s, step)
    ensures Do(cfg, s, step).claims == s.claims || (step.Admit? && step.admit.SlotUsed?)
  {
    match step
    case Gate(e, move) => GateKeepsRecords(cfg, s, e, move);
    case Own(e, move) => OwnKeepsRecords(cfg, s, e, move);
    case _ =>
  }

  // ----- The window, the slots and the budget -----

  /** At most `rate_limit` recorded admissions in every half-open interval of the window's length, and every
      started attempt owns a distinct earlier record. */
  lemma AdmissionsStayInWindow(cfg: Config, s: State, from: real)
    requires cfg.Accepted() && Reachable(cfg, s)
    ensures RateWindow.CountIn(s.records, from, from + cfg.rateWindow) <= cfg.rateLimit
    ensures forall i :: 0 <= i < |s.claims| ==>
              s.claims[i].rec < |s.records| && s.records[s.claims[i].rec] <= s.claims[i].at
    ensures forall i, j :: 0 <= i < j < |s.claims| ==> s.claims[i].rec != s.claims[j].rec
  {
    ReachableRecords(cfg, s);
    RateWindow.HalfOpenBound(s.records, cfg.rateLimit, cfg.rateWindow, from, from + cfg.rateWindow);
  }

  /** Free slots, unclosed attempts and admissions between acquire and claim always add up to the limit;
      so no more attempts are ever open than the limit. */
  lemma SlotsAreConserved(cfg: Config, s: State)
    requires cfg.Accepted() && Reachable(cfg, s)
    ensures 0 <= s.free
    ensures s.free + |set e | e in s.pcs && s.pcs[e].InAttempt?| + |set e | e in s.pcs && s.pcs[e].Granted?|
            == cfg.maxConcurrency
  {
    ReachableInv(cfg, s);
    HoldersSplit(s.pcs);
  }

  lemma HoldersSplit(pcs: map<ExecId, Pc>)
    ensures |SlotHolders(pcs)|
            == |set e | e in pcs && pcs[e].InAttempt?| + |set e | e in pcs && pcs[e].Granted?|
  {
    var open := set e | e in pcs && pcs[e].InAttempt?;
    var admitting := set e | e in pcs && pcs[e].Granted?;
    assert SlotHolders(pcs) == open + admitting;
    assert open !! admitting;
  }

  /** Claim ordinals of one execution are 1, 2, ... in order, within its budget; it has an active claim
      exactly while its attempt is unclosed. */
  lemma OrdinalsCountUp(cfg: Config, s: State, e: ExecId)
    requires cfg.Accepted() && Reachable(cfg, s) && e in s.core.execs
    ensures e in s.pcs
    ensures OrdinalsOf(s.claims, e) == UpTo(s.core.execs[e].started)
    ensures s.core.execs[e].started <= cfg.maxAttempts
    ensures s.core.execs[e].claim.Some? <==> s.pcs[e].InAttempt?
    ensures s.core.execs[e].claim.Some? ==> s.core.execs[e].claim.value == s.core.execs[e].started
  {
    ReachableTask(cfg, s, e);
    assert BudgetOk(cfg, s.core.execs[e], s.pcs[e], s.claims, e);
  }

  lemma SettledStep(cfg: Config, s: State, step: Step, e: ExecId)
    requires cfg.Accepted() && Enabled(cfg, s, step) && e in s.core.execs && !s.core.execs[e].state.Active?
    ensures var s' := Do(cfg, s, step);
            && e in s'.core.execs
            && s'.core.execs[e].state == s.core.execs[e].state
            && s'.core.execs[e].lastFailure == s.core.execs[e].lastFailure
            && s'.core.execs[e].started == s.core.execs[e].started
  {
    match step
    case Gate(f, move) => SettledGate(cfg, s, f, move, e);
    case Admit(f, move) => SettledAdmit(cfg, s, f, move, e);
    case Own(f, move) => SettledOwn(cfg, s, f, move, e);
    case _ =>
  }

  lemma SettledAdmit(cfg: Config, s: State, f: ExecId, move: AdmitMove, e: ExecId)
    requires 0 < cfg.rateLimit && Known(s, f) && AdmitEnabled(s.pcs[f], s.clock, s.free, move)
    requires e in s.core.execs && !s.core.execs[e].state.Active?
    ensures e in DoAdmit(cfg, s, f, move).core.execs
    ensures SameVerdict(s.core.execs[e], DoAdmit(cfg, s, f, move).core.execs[e])
  {
  }

  predicate SameVerdict(x: Exec, x': Exec) {
    x'.state == x.state && x'.lastFailure == x.lastFailure && x'.started == x.started
  }

  lemma SettledGate(cfg: Config, s: State, f: ExecId, move: GateMove, e: ExecId)
    requires Known(s, f) && GateEnabled(s.pcs[f], s.clock, move) && e in s.core.execs
    ensures e in DoGate(cfg, s, f, move).core.execs
    ensures SameVerdict(s.core.execs[e], DoGate(cfg, s, f, move).core.execs[e])
  {
  }

  lemma SettledOwn(cfg: Config, s: State, f: ExecId, move: AttemptMove, e: ExecId)
    requires Known(s, f) && s.pcs[f].InAttempt? && OwnEnabled(cfg, s.pcs[f].attempt, move)
    requires e in s.core.execs && !s.core.execs[e].state.Active?
    ensures e in DoOwn(cfg, s, f, move).core.execs
    ensures SameVerdict(s.core.execs[e], DoOwn(cfg, s, f, move).core.execs[e])
  {
  }

  /** Succeeded, failed and abandoned are for ever: the verdict, its error and the attempt count stay. */
  lemma {:induction false} VerdictsAreFinal(cfg: Config, s: State, steps: seq<Step>, e: ExecId)
    requires cfg.Accepted() && CanRun(cfg, s, steps)
    requires e in s.core.execs && !s.core.execs[e].state.Active?
    ensures var s' := Run(cfg, s, steps);
            && e in s'.core.execs
            && s'.core.execs[e].state == s.core.execs[e].state
            && s'.core.execs[e].lastFailure == s.core.execs[e].lastFailure
            && s'.core.execs[e].started == s.core.execs[e].started
    decreases |steps|
  {
    if steps != [] {
      SettledStep(cfg, s, steps[0], e);
      VerdictsAreFinal(cfg, Do(cfg, s, steps[0]), steps[1..], e);
    }
  }

  // ----- Generations -----

  /** How far the episode may move in one step: it stays, ends, or is replaced by the next generation. */
  predicate GenerationMoves(c: Core, c': Core) {
    && c.nextGeneration <= c'.nextGeneration
    && (c'.episode.Some? ==>
          || (c.episode.Some? && c'.episode.value.generation == c.episode.value.generation)
          || (c'.episode.value.generation == c.nextGeneration && c'.nextGeneration == c.nextGeneration + 1))
  }

  lemma StepMovesGeneration(cfg: Config, s: State, step: Step)
    requires cfg.Accepted() && Enabled(cfg, s, step)
    ensures GenerationMoves(s.core, Do(cfg, s, step).core)
    ensures s.clock <= Do(cfg, s, step).clock
  {
    match step
    case Gate(e, move) => GateMovesGeneration(cfg, s, e, move);
    case Own(e, move) => OwnMovesGeneration(cfg, s, e, move);
    case _ =>
  }

  lemma GateMovesGeneration(cfg: Config, s: State, e: ExecId, move: GateMove)
    requires Known(s, e) && GateEnabled(s.pcs[e], s.clock, move)
    ensures GenerationMoves(s.core, DoGate(cfg, s, e, move).core)
    ensures DoGate(cfg, s, e, move).clock == s.clock
  {
  }

  lemma OwnMovesGeneration(cfg: Config, s: State, e: ExecId, move: AttemptMove)
    requires Known(s, e) && s.pcs[e].InAttempt? && OwnEnabled(cfg, s.pcs[e].attempt, move)
    ensures GenerationMoves(s.core, DoOwn(cfg, s, e, move).core)
    ensures DoOwn(cfg, s, e, move).clock == s.clock
  {
  }

  predicate Closed(c: Core, generation: nat) {
    generation < c.nextGeneration && (c.episode.Some? ==> c.episode.value.generation != generation)
  }

  /** Generations never recur: once closed, a generation is closed in every later state. */
  lemma {:induction false} ClosedGenerationsStayClosed(cfg: Config, s: State, steps: seq<Step>, generation: nat)
    requires cfg.Accepted() && CanRun(cfg, s, steps) && Closed(s.core, generation)
    ensures Closed(Run(cfg, s, steps).core, generation)
    decreases |steps|
  {
    if steps != [] {
      StepMovesGeneration(cfg, s, steps[0]);
      ClosedGenerationsStayClosed(cfg, Do(cfg, s, steps[0]), steps[1..], generation);
    }
  }

  /** The attempt was admitted without a probe, or as a probe of a generation that has ended. */
  predicate Outdated(c: Core, permit: Permit) {
    permit.Ordinary? || Closed(c, permit.generation)
  }

  /** The locked body of an operation that settles an outdated permit. */
  predicate SettlesOutdated(s: State, step: Step)
  {
    match step
    case Own(e, move) =>
      && e in s.pcs && s.pcs[e].InAttempt? && (move.FinishOp? || move.FinishClose?)
      && Outdated(s.core, s.pcs[e].attempt.permit)
    case OrphanAbandons(e, generation) => Closed(s.core, generation)
    case _ => false
  }

  /** In every state, whatever settles an outdated permit leaves the episode as it is, unless it is a
      failure: a retryable one joins the waiters of an open episode or opens the next; one that exhausts opens a
      terminal one if there is none. */
  lemma OutdatedStepsAreInert(cfg: Config, s: State, step: Step)
    requires cfg.Accepted() && Enabled(cfg, s, step) && SettlesOutdated(s, step)
    ensures var ep, s' := s.core.episode, Do(cfg, s, step);
            if !(step.Own? && step.own.FinishOp? && s.pcs[step.e].attempt.op.Failing?)
            then s'.core.episode == ep && s'.core.nextGeneration == s.core.nextGeneration
            else
              var op := s.pcs[step.e].attempt.op;
              if ep.Some? then
                && s'.core.nextGeneration == s.core.nextGeneration
                && s'.core.episode == if op.canRetry && ep.value.terminalUntil.None?
                                      then Some(ep.value.(waiters := ep.value.waiters + {step.e})) else ep
              else
                && s'.core.nextGeneration == s.core.nextGeneration + 1
                && s'.core.episode.Some?
                && s'.core.episode.value.generation == s.core.nextGeneration
                && s'.core.episode.value.lastError == op.error
                && s'.core.episode.value.leader == (if op.canRetry then Some(step.e) else None)
                && s'.core.episode.value.terminalUntil.Some? == !op.canRetry
  {
    if step.Own? { OutdatedOwn(cfg, s, step.e, step.own); }
  }

  lemma OutdatedOwn(cfg: Config, s: State, e: ExecId, move: AttemptMove)
    requires Known(s, e) && s.pcs[e].InAttempt? && OwnEnabled(cfg, s.pcs[e].attempt, move)
    requires (move.FinishOp? || move.FinishClose?) && Outdated(s.core, s.pcs[e].attempt.permit)
    ensures var s' := DoOwn(cfg, s, e, move);
            var op := s.pcs[e].attempt.op;
            if !op.Failing? then s'.core.episode == s.core.episode && s'.core.nextGeneration == s.core.nextGeneration
            else
              var terminalDelay := RetryDelay(cfg, op.error, s.core.execs[e].started, move.terminalRoll);
              var failed := FailAttempt(s.core, e, Ordinary, op.error, op.canRetry, op.delay, terminalDelay, s.clock);
              s'.core.episode == failed.episode && s'.core.nextGeneration == failed.nextGeneration
  {
  }

  /** An unsettled probe is never outdated: its generation lasts as long as it does. */
  lemma UnsettledProbesAreCurrent(cfg: Config, s: State, e: ExecId, g: nat)
    requires cfg.Accepted() && Reachable(cfg, s)
    requires (e in s.pcs && Held(s.pcs[e]) == Some(Probe(g))) || (e, g) in s.orphans
    ensures !Closed(s.core, g) && PermitCurrent(s.core.episode, e, Probe(g))
  {
    ReachableProtocol(cfg, s);
    ReachableTask(cfg, s, e);
  }

  // ----- Exhaustion -----

  /** A terminal episode has no leader, no active probe, no waiters and no holder of any probe. */
  lemma TerminalEpisodesAreEmpty(cfg: Config, s: State)
    requires cfg.Accepted() && Reachable(cfg, s)
    requires s.core.episode.Some? && s.core.episode.value.terminalUntil.Some?
    ensures s.core.episode.value.leader.None? && !s.core.episode.value.probeActive
    ensures s.core.episode.value.waiters == {} && s.orphans == {}
    ensures forall e, g :: e in s.pcs ==> Held(s.pcs[e]) != Some(Probe(g))
  {
    ReachableProtocol(cfg, s);
    forall e, g | e in s.pcs ensures Held(s.pcs[e]) != Some(Probe(g)) {
      assert TaskOk(s.core.episode, e, s.pcs[e], s.orphans);
    }
    if p :| p in s.orphans {
      NoOrphanWithoutProbe(s, p.0, p.1);
    }
  }

  lemma NoOrphanWithoutProbe(s: State, e: ExecId, g: nat)
    requires ProtocolInv(s) && s.core.episode.Some? && !s.core.episode.value.probeActive
    ensures (e, g) !in s.orphans
  {
    if (e, g) in s.orphans {
      assert false;
    }
  }

  /** The exhausting failure closes the door for its own delay and fails every waiter still active with the
      very same error; nobody else's verdict moves but its own. */
  lemma ExhaustionFailsTheWaiters(cfg: Config, s: State, e: ExecId, terminalRoll: real)
    requires cfg.Accepted() && Reachable(cfg, s) && Enabled(cfg, s, Own(e, FinishOp(terminalRoll)))
    requires s.pcs[e].attempt.op.Failing? && !s.pcs[e].attempt.op.canRetry
    requires s.core.episode.None? || Matches(s.core.episode, e, s.pcs[e].attempt.permit)
    ensures var error := s.pcs[e].attempt.op.error;
            var waiters := if s.core.episode.None? then {} else s.core.episode.value.waiters;
            var s' := Do(cfg, s, Own(e, FinishOp(terminalRoll)));
            && s'.core.episode.Some?
            && s'.core.episode.value.lastError == error
            && s'.core.episode.value.terminalUntil.Some?
            && IsDelay(cfg, error, s.core.execs[e].started, terminalRoll,
                       s'.core.episode.value.terminalUntil.value - s.clock)
            && s'.core.execs.Keys == s.core.execs.Keys
            && (forall f :: f in waiters && f in s.core.execs && s.core.execs[f].state.Active? ==>
                  s'.core.execs[f].state.Failed? && s'.core.execs[f].lastFailure == Some(error))
            && (forall f :: f in s.core.execs && f != e && (f !in waiters || !s.core.execs[f].state.Active?) ==>
                  s'.core.execs[f] == s.core.execs[f])
            && !s'.core.execs[e].state.Active?
  {
    ReachableTask(cfg, s, e);
    RetryDelayBounds(cfg, s.pcs[e].attempt.op.error, s.core.execs[e].started, terminalRoll);
  }

  /** While the episode is terminal a step neither claims nor touches it, unless its time has passed and the
      gate opens the next generation. */
  lemma TerminalStep(cfg: Config, s: State, step: Step, ep: Episode)
    requires cfg.Accepted() && ProtocolInv(s) && Enabled(cfg, s, step)
    requires s.core.episode == Some(ep) && ep.terminalUntil.Some?
    ensures var s' := Do(cfg, s, step);
            && s'.claims == s.claims
            && (s'.core.episode == Some(ep)
                || (ep.terminalUntil.value <= s.clock && s.core.nextGeneration < s'.core.nextGeneration))
  {
    match step
    case Gate(e, move) => TerminalGate(cfg, s, e, move, ep);
    case Admit(e, move) =>
      assert TaskOk(s.core.episode, e, s.pcs[e], s.orphans);
      TerminalAdmit(cfg, s, e, move, ep);
    case Own(e, move) =>
      OwnKeepsRecords(cfg, s, e, move);
      TerminalOwn(cfg, s, e, move, ep);
    case _ =>
  }

  lemma TerminalGate(cfg: Config, s: State, e: ExecId, move: GateMove, ep: Episode)
    requires Known(s, e) && GateEnabled(s.pcs[e], s.clock, move)
    requires s.core.episode == Some(ep) && ep.terminalUntil.Some? && ep.leader.None? && ep.waiters == {}
    ensures var s' := DoGate(cfg, s, e, move);
            && s'.claims == s.claims
            && (s'.core.episode == Some(ep)
                || (ep.terminalUntil.value <= s.clock && s.core.nextGeneration < s'.core.nextGeneration))
  {
    assert {} - {e} == ep.waiters;
  }

  lemma TerminalAdmit(cfg: Config, s: State, e: ExecId, move: AdmitMove, ep: Episode)
    requires 0 < cfg.rateLimit && Known(s, e) && AdmitEnabled(s.pcs[e], s.clock, s.free, move)
    requires s.core.episode == Some(ep) && ep.terminalUntil.Some? && ep.leader.None?
    ensures DoAdmit(cfg, s, e, move).claims == s.claims
    ensures DoAdmit(cfg, s, e, move).core.episode == Some(ep)
  {
  }

  lemma TerminalOwn(cfg: Config, s: State, e: ExecId, move: AttemptMove, ep: Episode)
    requires Known(s, e) && s.pcs[e].InAttempt? && OwnEnabled(cfg, s.pcs[e].attempt, move)
    requires s.core.episode == Some(ep) && ep.terminalUntil.Some? && ep.leader.None?
    ensures DoOwn(cfg, s, e, move).core.episode == Some(ep)
  {
  }

  lemma {:induction false} RunMovesForward(cfg: Config, s: State, steps: seq<Step>)
    requires cfg.Accepted() && CanRun(cfg, s, steps)
    ensures s.clock <= Run(cfg, s, steps).clock
    ensures s.core.nextGeneration <= Run(cfg, s, steps).core.nextGeneration
    decreases |steps|
  {
    if steps != [] {
      StepMovesGeneration(cfg, s, steps[0]);
      RunMovesForward(cfg, Do(cfg, s, steps[0]), steps[1..]);
    }
  }

  /** From a terminal state on, no attempt at all starts before its time has passed and a fresh generation
      has opened. */
  lemma {:induction false} NoClaimUntilCooldownEnds(cfg: Config, s: State, steps: seq<Step>, ep: Episode)
    requires cfg.Accepted() && Reachable(cfg, s) && CanRun(cfg, s, steps)
    requires s.core.episode == Some(ep) && ep.terminalUntil.Some?
    ensures var s' := Run(cfg, s, steps);
            (s'.claims == s.claims && s'.core.episode == Some(ep))
            || (ep.terminalUntil.value <= s'.clock && s.core.nextGeneration < s'.core.nextGeneration)
    decreases |steps|
  {
    if steps != [] {
      var next := Do(cfg, s, steps[0]);
      ReachableInv(cfg, s);
      ReachableStep(cfg, s, steps[0]);
      TerminalStep(cfg, s, steps[0], ep);
      StepMovesGeneration(cfg, s, steps[0]);
      if next.core.episode == Some(ep) {
        NoClaimUntilCooldownEnds(cfg, next, steps[1..], ep);
      } else {
        RunMovesForward(cfg, next, steps[1..]);
      }
    }
  }

  // ----- Waiting for the probe -----

  /** A step that hands `e` a probe permit does so no earlier than the episode's `readyAt`. */
  lemma NoEarlyProbe(cfg: Config, s: State, step: Step, e: ExecId, g: nat)
    requires cfg.Accepted() && Reachable(cfg, s) && Enabled(cfg, s, step)
    requires e in Do(cfg, s, step).pcs && Do(cfg, s, step).pcs[e] == Limiting(Probe(g))
    requires e !in s.pcs || s.pcs[e] != Limiting(Probe(g))
    ensures var s' := Do(cfg, s, step);
            && s'.core.episode.Some? && s'.core.episode.value.generation == g
            && s'.core.episode.value.readyAt <= s.clock
            && (s.core.episode.Some? && s.core.episode.value.generation == g ==>
                  s.core.episode.value.readyAt == s'.core.episode.value.readyAt)
  {
    if step.Gate? {
      ReachableTask(cfg, s, step.e);
      ReachableNoRefused(cfg, s);
      NoEarlyProbeAtGate(cfg, s, step.e, step.gate, e, g);
    } else if step.Own? {
      OwnMovesOwner(cfg, s, step.e, step.own);
    } else if step.Admit? {
      AdmitMovesOwner(cfg, s, step.e, step.admit, g);
    }
  }

  lemma NoEarlyProbeAtGate(cfg: Config, s: State, f: ExecId, move: GateMove, e: ExecId, g: nat)
    requires Known(s, f) && GateEnabled(s.pcs[f], s.clock, move)
    requires TaskOk(s.core.episode, f, s.pcs[f], s.orphans)
    requires EpisodeOk(s.core.episode, s.core.nextGeneration, s.pcs.Keys)
    requires s.pcs[f].GateRelock? ==> s.pcs[f].until <= s.clock
    requires var s' := DoGate(cfg, s, f, move); e in s'.pcs && s'.pcs[e] == Limiting(Probe(g))
    requires e !in s.pcs || s.pcs[e] != Limiting(Probe(g))
    ensures var s' := DoGate(cfg, s, f, move);
            && s'.core.episode.Some? && s'.core.episode.value.generation == g
            && s'.core.episode.value.readyAt <= s.clock
            && (s.core.episode.Some? && s.core.episode.value.generation == g ==>
                  s.core.episode.value.readyAt == s'.core.episode.value.readyAt)
  {
  }

  /** After a retryable failure of the probe, or one that opens the episode, its owner leads, no probe is
      active, and the next probe waits within the two bounds. */
  lemma WaitAfterFailure(cfg: Config, s: State, e: ExecId, terminalRoll: real)
    requires cfg.Accepted() && Reachable(cfg, s) && Enabled(cfg, s, Own(e, FinishOp(terminalRoll)))
    requires s.pcs[e].attempt.op.Failing? && s.pcs[e].attempt.op.canRetry
    requires s.core.episode.None? || Matches(s.core.episode, e, s.pcs[e].attempt.permit)
    ensures var error := s.pcs[e].attempt.op.error;
            var s' := Do(cfg, s, Own(e, FinishOp(terminalRoll)));
            && s'.core.episode.Some?
            && s'.core.episode.value.leader == Some(e) && !s'.core.episode.value.probeActive
            && s'.core.episode.value.terminalUntil.None? && s'.core.episode.value.lastError == error
            && DelayWithin(cfg, error, s.core.execs[e].started, s'.core.episode.value.readyAt - s.clock)
  {
    ReachableTask(cfg, s, e);
  }

  // ----- Leadership: what moves on, and what does not -----

  /** The task whose move a step is, if it is a task's move at all. */
  function Actor(step: Step): Option<ExecId> {
    match step
    case Tick(_) => None
    case StartExecution(e) => Some(e)
    case Marked(e, _) => None
    case Gate(e, _) => Some(e)
    case Admit(e, _) => Some(e)
    case Own(e, _) => Some(e)
    case OrphanAbandons(e, _) => Some(e)
  }

  /** Only waiters and the last error may differ. */
  predicate SameFooting(ep: Option<Episode>, ep': Option<Episode>) {
    && ep.Some? && ep'.Some?
    && ep'.value == ep.value.(waiters := ep'.value.waiters, lastError := ep'.value.lastError)
  }

  lemma LedGate(cfg: Config, s: State, f: ExecId, move: GateMove, e: ExecId)
    requires Known(s, f) && GateEnabled(s.pcs[f], s.clock, move) && f != e && Leads(s.core.episode, e)
    requires s.core.episode.value.terminalUntil.None?
    ensures SameFooting(s.core.episode, DoGate(cfg, s, f, move).core.episode)
    ensures DoGate(cfg, s, f, move).claims == s.claims
  {
  }

  lemma LedAdmit(cfg: Config, s: State, f: ExecId, move: AdmitMove, e: ExecId)
    requires 0 < cfg.rateLimit && Known(s, f) && AdmitEnabled(s.pcs[f], s.clock, s.free, move)
    requires f != e && Leads(s.core.episode, e)
    ensures DoAdmit(cfg, s, f, move).core.episode == s.core.episode
    ensures DoAdmit(cfg, s, f, move).claims == s.claims
  {
  }

  lemma LedOwn(cfg: Config, s: State, f: ExecId, move: AttemptMove, e: ExecId)
    requires Known(s, f) && s.pcs[f].InAttempt? && OwnEnabled(cfg, s.pcs[f].attempt, move)
    requires f != e && Leads(s.core.episode, e)
    ensures SameFooting(s.core.episode, DoOwn(cfg, s, f, move).core.episode)
    ensures DoOwn(cfg, s, f, move).claims == s.claims
  {
  }

  lemma LedStep(cfg: Config, s: State, step: Step, e: ExecId)
    requires cfg.Accepted() && ProtocolInv(s) && Enabled(cfg, s, step)
    requires Leads(s.core.episode, e) && Actor(step) != Some(e)
    ensures SameFooting(s.core.episode, Do(cfg, s, step).core.episode)
    ensures Do(cfg, s, step).claims == s.claims
  {
    match step
    case Gate(f, move) => LedGate(cfg, s, f, move, e);
    case Admit(f, move) => LedAdmit(cfg, s, f, move, e);
    case Own(f, move) => LedOwn(cfg, s, f, move, e);
    case _ =>
  }

  /** As long as the leader itself does nothing, nobody else can end the episode, move its `readyAt`, take its
      lead or start any attempt, however long the others run. So `readyAt` is fixed while the leader sleeps,
      and an owner that never comes back to the gate keeps everyone waiting. */
  lemma {:induction false} OnlyTheLeaderMovesOn(cfg: Config, s: State, steps: seq<Step>, e: ExecId)
    requires cfg.Accepted() && Reachable(cfg, s) && CanRun(cfg, s, steps) && Leads(s.core.episode, e)
    requires forall i :: 0 <= i < |steps| ==> Actor(steps[i]) != Some(e)
    ensures SameFooting(s.core.episode, Run(cfg, s, steps).core.episode)
    ensures Run(cfg, s, steps).claims == s.claims
    decreases |steps|
  {
    if steps != [] {
      ReachableProtocol(cfg, s);
      LedStep(cfg, s, steps[0], e);
      ReachableStep(cfg, s, steps[0]);
      OnlyTheLeaderMovesOn(cfg, Do(cfg, s, steps[0]), steps[1..], e);
    }
  }
}
