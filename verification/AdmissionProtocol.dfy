/** The recovery protocol's invariant: who may hold a probe, who leads, who waits. */
module AdmissionProtocol {
  import opened Options
  import opened AdmissionCore
  import opened AdmissionMachine

  /** The unsettled permit a task stands for: held in the admission loop, or in an unresolved attempt. */
  function Held(pc: Pc): Option<Permit> {
    match pc
    case Limiting(p) => Some(p)
    case Refused(p) => Some(p)
    case Queued(p, _) => Some(p)
    case Granted(p, _) => Some(p)
    case Unwinding(p) => Some(p)
    case InAttempt(a) => if a.resolved then None else Some(a.permit)
    case _ => None
  }

  predicate Sleeps(pc: Pc) {
    pc.GateSleep? || pc.GateRelock?
  }

  predicate Leads(ep: Option<Episode>, e: ExecId) {
    ep.Some? && ep.value.leader == Some(e)
  }

  /** One task against the shared episode. A probe permit, held or orphaned, is always current; a leader
      never sits on an ordinary permit; a sleeping leader's wake-up time covers `readyAt`. */
  ghost predicate TaskOk(ep: Option<Episode>, e: ExecId, pc: Pc, orphans: set<(ExecId, nat)>) {
    && (Held(pc).Some? && Held(pc).value.Probe? ==> PermitCurrent(ep, e, Held(pc).value))
    && (forall g: nat :: (e, g) in orphans ==> PermitCurrent(ep, e, Probe(g)) && Held(pc) != Some(Probe(g)))
    && (Leads(ep, e) ==> Held(pc) != Some(Ordinary))
    && (Leads(ep, e) && Sleeps(pc) && pc.generation == ep.value.generation
        ==> !ep.value.probeActive && ep.value.readyAt <= pc.until)
    && (pc.InAttempt? && !pc.attempt.op.Resting? ==> !pc.attempt.resolved)
  }

  /** The episode by itself. A terminal one has no leader, no probe and no waiters. */
  predicate EpisodeOk(ep: Option<Episode>, next: nat, known: set<ExecId>) {
    ep.Some? ==>
      && ep.value.generation < next
      && ep.value.waiters <= known
      && (ep.value.leader.Some? ==> ep.value.leader.value in known && ep.value.leader.value !in ep.value.waiters)
      && (ep.value.probeActive ==> ep.value.leader.Some?)
      && (ep.value.terminalUntil.Some? ==>
            ep.value.leader.None? && !ep.value.probeActive && ep.value.waiters == {})
  }

  ghost predicate ProtocolInv(s: State) {
    && s.pcs.Keys == s.core.execs.Keys
    && EpisodeOk(s.core.episode, s.core.nextGeneration, s.pcs.Keys)
    && (forall e :: e in s.pcs ==> TaskOk(s.core.episode, e, s.pcs[e], s.orphans))
    && (forall e, g :: (e, g) in s.orphans ==> e in s.pcs)
  }

  /** How the task of `e` may change the episode: either only waiters and the last error move, or no other
      task leads it before or after. */
  predicate EpisodeMoves(ep: Option<Episode>, ep': Option<Episode>, e: ExecId) {
    || ep == ep'
    || (ep.Some? && ep'.Some? && ep'.value == ep.value.(waiters := ep'.value.waiters, lastError := ep'.value.lastError))
    || ((ep.None? || ep.value.leader == None || ep.value.leader == Some(e))
        && (ep'.None? || ep'.value.leader == None || ep'.value.leader == Some(e)))
  }

  lemma OthersUndisturbed(ep: Option<Episode>, ep': Option<Episode>, e: ExecId, f: ExecId, pc: Pc,
                          orphans: set<(ExecId, nat)>, orphans': set<(ExecId, nat)>)
    requires e != f && TaskOk(ep, f, pc, orphans) && EpisodeMoves(ep, ep', e)
    requires forall g: nat :: (f, g) in orphans' <==> (f, g) in orphans
    ensures TaskOk(ep', f, pc, orphans')
  {
  }

  /** The step from `s` to `s'` touches only the task of `e`, and leaves that task and the episode in order. */
  ghost predicate OnlyTouches(s: State, s': State, e: ExecId) {
    && e in s.pcs && e in s'.pcs
    && s'.pcs == s.pcs[e := s'.pcs[e]]
    && s'.core.execs.Keys == s.core.execs.Keys
    && EpisodeMoves(s.core.episode, s'.core.episode, e)
    && EpisodeOk(s'.core.episode, s'.core.nextGeneration, s.pcs.Keys)
    && TaskOk(s'.core.episode, e, s'.pcs[e], s'.orphans)
    && (forall f, g :: f != e ==> ((f, g) in s'.orphans <==> (f, g) in s.orphans))
  }

  lemma KeptBy(s: State, s': State, e: ExecId)
    requires ProtocolInv(s) && OnlyTouches(s, s', e)
    ensures ProtocolInv(s')
  {
    forall f | f in s'.pcs ensures TaskOk(s'.core.episode, f, s'.pcs[f], s'.orphans) {
      if f != e {
        OthersUndisturbed(s.core.episode, s'.core.episode, e, f, s.pcs[f], s.orphans, s'.orphans);
      }
    }
  }

  /** The actor's own part of the invariant: all that its step lemmas need. */
  ghost predicate ReadyToMove(s: State, e: ExecId) {
    && Known(s, e)
    && EpisodeOk(s.core.episode, s.core.nextGeneration, s.pcs.Keys)
    && TaskOk(s.core.episode, e, s.pcs[e], s.orphans)
  }

  lemma EnterOk(s: State, e: ExecId)
    requires ReadyToMove(s, e) && s.pcs[e].GateLock?
    ensures OnlyTouches(s, DoGateEnter(s, e), e)
  {
  }

  lemma GateMoveOk(cfg: Config, s: State, e: ExecId, move: GateMove)
    requires ReadyToMove(s, e) && GateEnabled(s.pcs[e], s.clock, move)
    ensures OnlyTouches(s, DoGate(cfg, s, e, move), e)
  {
    if move.Enter? {
      EnterOk(s, e);
    } else if move.Open? || move.Check? || move.Woken? || move.SleepOver? {
      QuietGateMoveOk(cfg, s, e, move);
    } else {
      LeavingGateMoveOk(cfg, s, e, move);
    }
  }

  lemma QuietGateMoveOk(cfg: Config, s: State, e: ExecId, move: GateMove)
    requires ReadyToMove(s, e) && GateEnabled(s.pcs[e], s.clock, move)
    requires move.Open? || move.Check? || move.Woken? || move.SleepOver?
    ensures OnlyTouches(s, DoGate(cfg, s, e, move), e)
  {
  }

  lemma LeavingGateMoveOk(cfg: Config, s: State, e: ExecId, move: GateMove)
    requires ReadyToMove(s, e) && GateEnabled(s.pcs[e], s.clock, move)
    requires !move.Enter? && !move.Open? && !move.Check? && !move.Woken? && !move.SleepOver?
    ensures OnlyTouches(s, DoGate(cfg, s, e, move), e)
  {
  }

  /** Giving a held probe back leaves no leader, and `e` was the only holder. */
  lemma HandBackOk(s: State, e: ExecId, permit: Permit, next: Pc)
    requires ReadyToMove(s, e) && Held(s.pcs[e]) == Some(permit) && Held(next) == None
    requires !Sleeps(next) && !next.InAttempt?
    ensures OnlyTouches(s, DoHandBack(s, e, permit, next), e)
  {
  }

  lemma LimiterPassOk(cfg: Config, s: State, e: ExecId, permit: Permit, stamp: real)
    requires 0 < cfg.rateLimit && ReadyToMove(s, e) && s.pcs[e] == Limiting(permit)
    ensures OnlyTouches(s, DoLimiterPass(cfg, s, e, permit, stamp), e)
  {
  }

  lemma SlotUsedOk(cfg: Config, s: State, e: ExecId, permit: Permit, rec: nat)
    requires ReadyToMove(s, e) && s.pcs[e] == Granted(permit, rec)
    ensures OnlyTouches(s, DoSlotUsed(cfg, s, e, permit, rec), e)
  {
  }

  lemma AdmitMoveOk(cfg: Config, s: State, e: ExecId, move: AdmitMove)
    requires 0 < cfg.rateLimit && ReadyToMove(s, e) && AdmitEnabled(s.pcs[e], s.clock, s.free, move)
    ensures OnlyTouches(s, DoAdmit(cfg, s, e, move), e)
  {
    match move
    case LimiterPass(stamp) => LimiterPassOk(cfg, s, e, s.pcs[e].permit, stamp);
    case RefusalHandled => HandBackOk(s, e, s.pcs[e].permit, GateTop);
    case SlotUsed => SlotUsedOk(cfg, s, e, s.pcs[e].permit, s.pcs[e].rec);
    case Unwound => HandBackOk(s, e, s.pcs[e].permit, Idle);
    case _ =>
  }

  /** No abandonment of `e` is pending while `e` still holds a permit. */
  lemma HolderHasNoOrphan(s: State, e: ExecId)
    requires ReadyToMove(s, e) && Held(s.pcs[e]).Some?
    ensures forall g: nat :: (e, g) !in s.orphans
  {
    forall g: nat ensures (e, g) !in s.orphans {
      if (e, g) in s.orphans {
        assert false;
      }
    }
  }

  lemma FinishFailOk(cfg: Config, s: State, e: ExecId, a: Attempt, terminalRoll: real)
    requires ReadyToMove(s, e) && s.pcs[e] == InAttempt(a) && a.op.Failing?
    ensures OnlyTouches(s, DoFinishOp(cfg, s, e, a, terminalRoll), e)
  {
    HolderHasNoOrphan(s, e);
  }

  lemma FinishOpOk(cfg: Config, s: State, e: ExecId, a: Attempt, terminalRoll: real)
    requires ReadyToMove(s, e) && s.pcs[e] == InAttempt(a) && !a.op.Resting? && !a.op.Closing? && !a.op.Failing?
    ensures OnlyTouches(s, DoFinishOp(cfg, s, e, a, terminalRoll), e)
  {
    HolderHasNoOrphan(s, e);
  }

  lemma CloseOk(cfg: Config, s: State, e: ExecId, move: AttemptMove)
    requires ReadyToMove(s, e) && s.pcs[e].InAttempt? && OwnEnabled(cfg, s.pcs[e].attempt, move)
    requires move.StartClose? || move.FinishClose? || move.CloseCancelled?
    ensures OnlyTouches(s, DoOwn(cfg, s, e, move), e)
  {
    if Held(s.pcs[e]).Some? {
      HolderHasNoOrphan(s, e);
    }
  }

  lemma OwnMoveOk(cfg: Config, s: State, e: ExecId, move: AttemptMove)
    requires ReadyToMove(s, e) && s.pcs[e].InAttempt? && OwnEnabled(cfg, s.pcs[e].attempt, move)
    ensures OnlyTouches(s, DoOwn(cfg, s, e, move), e)
  {
    if move.FinishOp? {
      if s.pcs[e].attempt.op.Failing? {
        FinishFailOk(cfg, s, e, s.pcs[e].attempt, move.terminalRoll);
      } else {
        FinishOpOk(cfg, s, e, s.pcs[e].attempt, move.terminalRoll);
      }
    } else if move.StartClose? || move.FinishClose? || move.CloseCancelled? {
      CloseOk(cfg, s, e, move);
    } else {
      StartOpOk(cfg, s, e, move);
    }
  }

  lemma StartOpOk(cfg: Config, s: State, e: ExecId, move: AttemptMove)
    requires ReadyToMove(s, e) && s.pcs[e].InAttempt? && OwnEnabled(cfg, s.pcs[e].attempt, move)
    requires move.StartAccept? || move.StartCorrect? || move.StartFail? || move.OpCancelled?
    ensures OnlyTouches(s, DoOwn(cfg, s, e, move), e)
  {
  }

  lemma OrphanOk(s: State, e: ExecId, g: nat)
    requires ReadyToMove(s, e) && (e, g) in s.orphans
    ensures OnlyTouches(s, SetEpisode(s.(orphans := s.orphans - {(e, g)}),
                                      HandBack(s.core.episode, e, Probe(g), s.clock)), e)
  {
  }

  lemma StartOk(s: State, e: ExecId)
    requires ProtocolInv(s) && e !in s.pcs
    ensures ProtocolInv(Goto(SetExec(s, e, NEW_EXEC), e, Idle))
  {
    forall g: nat ensures (e, g) !in s.orphans {}
    assert !Leads(s.core.episode, e);
  }

  /** Every step of every task, cancellations included, keeps the protocol invariant. */
  lemma StepKeepsProtocol(cfg: Config, s: State, step: Step)
    requires cfg.Accepted() && ProtocolInv(s) && Enabled(cfg, s, step)
    ensures ProtocolInv(Do(cfg, s, step))
  {
    match step
    case Tick(_) =>
    case StartExecution(e) => StartOk(s, e);
    case Marked(e, mark) => KeptBy(s, Do(cfg, s, step), e);
    case Gate(e, move) => GateMoveOk(cfg, s, e, move); KeptBy(s, Do(cfg, s, step), e);
    case Admit(e, move) => AdmitMoveOk(cfg, s, e, move); KeptBy(s, Do(cfg, s, step), e);
    case Own(e, move) => OwnMoveOk(cfg, s, e, move); KeptBy(s, Do(cfg, s, step), e);
    case OrphanAbandons(e, g) => OrphanOk(s, e, g); KeptBy(s, Do(cfg, s, step), e);
  }
}
