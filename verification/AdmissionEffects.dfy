/** What the operations of the admission protocol bring about, told by who leads, who probes and who waits
    afterwards. */
module AdmissionEffects {
  import opened Options
  import opened AdmissionCore
  import opened AdmissionMachine
  import opened AdmissionProtocol
  import opened AdmissionBooks
  import opened AdmissionRuns
  import RateWindow

  // ----- Settling an attempt -----

  /** An answered probe, accepted or rejected, ends the recovery: there is no episode any more, and whoever
      reaches the gate next goes through as an ordinary one. */
  lemma AnsweredProbeEndsRecovery(cfg: Config, s: State, e: ExecId, roll: real, f: ExecId)
    requires cfg.Accepted() && Reachable(cfg, s) && Enabled(cfg, s, Own(e, FinishOp(roll)))
    requires s.pcs[e].attempt.permit.Probe?
    requires s.pcs[e].attempt.op.Accepting? || s.pcs[e].attempt.op.Rejecting?
    ensures var s' := Do(cfg, s, Own(e, FinishOp(roll)));
            && s'.core.episode.None? && s'.core.nextGeneration == s.core.nextGeneration
            && (Known(s', f) && s'.pcs[f].GateLock? ==>
                  Enabled(cfg, s', Gate(f, Enter)) && Do(cfg, s', Gate(f, Enter)).pcs[f] == Limiting(Ordinary))
  {
    ReachableTask(cfg, s, e);
  }

  /** A corrected probe stays with its leader, who may probe again at once; nobody else notices. */
  lemma CorrectedProbeIsReady(cfg: Config, s: State, e: ExecId, roll: real)
    requires cfg.Accepted() && Reachable(cfg, s) && Enabled(cfg, s, Own(e, FinishOp(roll)))
    requires s.pcs[e].attempt.permit.Probe? && s.pcs[e].attempt.op.Correcting?
    ensures var s' := Do(cfg, s, Own(e, FinishOp(roll)));
            && s.core.episode.Some? && s.core.episode.value.leader == Some(e) && s.core.episode.value.probeActive
            && s'.core == s.core.(episode := Some(s.core.episode.value.(probeActive := false, readyAt := s.clock)))
  {
    ReachableTask(cfg, s, e);
  }

  /** Steps that give the probe of generation `g` back without an answer. */
  predicate GivesBack(s: State, step: Step, e: ExecId, g: nat) {
    || (step == Own(e, FinishClose) && e in s.pcs && s.pcs[e].InAttempt? && !s.pcs[e].attempt.resolved
        && s.pcs[e].attempt.permit == Probe(g))
    || (step == Admit(e, Unwound) && e in s.pcs && s.pcs[e] == Unwinding(Probe(g)))
    || step == OrphanAbandons(e, g)
  }

  lemma GivenBack(cfg: Config, s: State, step: Step, e: ExecId, g: nat)
    requires cfg.Accepted() && Reachable(cfg, s) && Enabled(cfg, s, step) && GivesBack(s, step, e, g)
    ensures var s' := Do(cfg, s, step);
            && s.core.episode.Some? && s.core.episode.value.generation == g
            && s.core.episode.value.terminalUntil.None? && s'.clock == s.clock
            && s'.core.episode ==
                 Some(s.core.episode.value.(leader := None, probeActive := false, readyAt := s.clock))
            && s'.pcs == (if step.OrphanAbandons? then s.pcs else s.pcs[e := Idle])
            && s'.orphans == (if step.OrphanAbandons? then s.orphans - {(e, g)} else s.orphans)
  {
    ReachableProtocol(cfg, s);
    if !step.OrphanAbandons? { GivenBackByItsTask(cfg, s, step, e, g); }
  }

  lemma GivenBackByItsTask(cfg: Config, s: State, step: Step, e: ExecId, g: nat)
    requires cfg.Accepted() && ReadyToMove(s, e) && Enabled(cfg, s, step) && GivesBack(s, step, e, g)
    requires !step.OrphanAbandons?
    ensures var s' := Do(cfg, s, step);
            && s.core.episode.Some? && s.core.episode.value.generation == g
            && s.core.episode.value.terminalUntil.None? && s'.clock == s.clock
            && s'.core.episode ==
                 Some(s.core.episode.value.(leader := None, probeActive := false, readyAt := s.clock))
            && s'.pcs == s.pcs[e := Idle] && s'.orphans == s.orphans
  {
  }

  lemma FirstComerProbes(cfg: Config, s: State, f: ExecId)
    requires cfg.Accepted() && Known(s, f) && s.pcs[f].GateLock?
    requires s.core.episode.Some? && s.core.episode.value.terminalUntil.None?
    requires s.core.episode.value.leader.None? && !s.core.episode.value.probeActive
    requires s.core.episode.value.readyAt == s.clock
    ensures var ep, s' := s.core.episode.value, DoGateEnter(s, f);
            && s'.pcs == s.pcs[f := Limiting(Probe(ep.generation))]
            && s'.core.episode == Some(ep.(leader := Some(f), probeActive := true, waiters := ep.waiters - {f}))
  {
  }

  /** A probe given back leaves the episode open, without a leader and ready: the next one at the gate, whoever it
      is, takes the lead and gets the probe. */
  lemma AbandonedProbePassesOn(cfg: Config, s: State, step: Step, e: ExecId, g: nat, f: ExecId)
    requires cfg.Accepted() && Reachable(cfg, s) && Enabled(cfg, s, step) && GivesBack(s, step, e, g)
    ensures var s' := Do(cfg, s, step);
            && s.core.episode.Some? && s.core.episode.value.generation == g
            && s'.core.episode ==
                 Some(s.core.episode.value.(leader := None, probeActive := false, readyAt := s.clock))
            && s'.pcs == (if step.OrphanAbandons? then s.pcs else s.pcs[e := Idle])
            && s'.orphans == (if step.OrphanAbandons? then s.orphans - {(e, g)} else s.orphans)
            && (Known(s', f) && s'.pcs[f].GateLock? ==>
                  && Enabled(cfg, s', Gate(f, Enter))
                  && var s'' := Do(cfg, s', Gate(f, Enter));
                     && s''.pcs[f] == Limiting(Probe(g))
                     && s''.core.episode ==
                          Some(s.core.episode.value.(leader := Some(f), probeActive := true, readyAt := s.clock,
                                                     waiters := s.core.episode.value.waiters - {f})))
  {
    GivenBack(cfg, s, step, e, g);
    var s' := Do(cfg, s, step);
    if Known(s', f) && s'.pcs[f].GateLock? { FirstComerProbes(cfg, s', f); }
  }

  /** What finishing does to the verdicts. Accepting and correcting leave them alone, rejecting fails the execution
      with its own error. A retryable failure with budget left fails it only if the provider is closed, with the
      error that closed it; one without budget fails it with its own. */
  lemma FinishingSettles(cfg: Config, s: State, e: ExecId, roll: real)
    requires cfg.Accepted() && Reachable(cfg, s) && Enabled(cfg, s, Own(e, FinishOp(roll)))
    ensures var a, ep, x := s.pcs[e].attempt, s.core.episode, s.core.execs[e];
            var s' := Do(cfg, s, Own(e, FinishOp(roll)));
            && s'.pcs == s.pcs[e := InAttempt(a.(op := Resting, resolved := true, accepted := a.op.Accepting?))]
            && s'.core.execs.Keys == s.core.execs.Keys
            && var closed := ep.Some? && ep.value.terminalUntil.Some?;
               var failure := match a.op
                              case Rejecting(error) => Some(error)
                              case Failing(error, canRetry, _) =>
                                if !canRetry then Some(error) else if closed then Some(ep.value.lastError) else None
                              case _ => None;
               s'.core.execs[e] ==
                 if x.state.Active? && failure.Some? then x.(state := Failed, lastFailure := failure) else x
  {
    ReachableTask(cfg, s, e);
    if s.pcs[e].attempt.op.Failing? { FailureSettles(cfg, s, e, s.pcs[e].attempt, roll); }
  }

  lemma FailureSettles(cfg: Config, s: State, e: ExecId, a: Attempt, roll: real)
    requires ReadyToMove(s, e) && s.pcs[e] == InAttempt(a) && a.op.Failing? && !a.resolved
    requires if a.op.canRetry then s.core.execs[e].started < cfg.maxAttempts else !CanAttempt(cfg, s.core.execs[e])
    ensures var ep, x, c := s.core.episode, s.core.execs[e], OpEffect(cfg, s, e, a, roll);
            && c.execs.Keys == s.core.execs.Keys
            && var closed := ep.Some? && ep.value.terminalUntil.Some?;
               var failure := if !a.op.canRetry then Some(a.op.error)
                              else if closed then Some(ep.value.lastError) else None;
               c.execs[e] == if x.state.Active? && failure.Some? then x.(state := Failed, lastFailure := failure) else x
  {
  }

  /** A failure that neither opens nor exhausts an episode is nobody else's business: no other execution's verdict
      moves, and a retryable one waits with the others for the probe in progress. */
  lemma OthersKeepTheirVerdict(cfg: Config, s: State, e: ExecId, roll: real, f: ExecId)
    requires cfg.Accepted() && Reachable(cfg, s) && Enabled(cfg, s, Own(e, FinishOp(roll)))
    requires f in s.core.execs && f != e
    requires s.pcs[e].attempt.op.Failing? && !s.pcs[e].attempt.op.canRetry ==>
               s.core.episode.Some? && s.pcs[e].attempt.permit.Ordinary?
    ensures Do(cfg, s, Own(e, FinishOp(roll))).core.execs[f] == s.core.execs[f]
  {
    ReachableTask(cfg, s, e);
  }

  /** Where a retryable failure leaves the episode: a probe keeps its generation and its waiters; the first failure
      opens the next generation; during somebody else's recovery it joins the waiters. */
  lemma RetryableFailureRecovers(cfg: Config, s: State, e: ExecId, roll: real)
    requires cfg.Accepted() && Reachable(cfg, s) && Enabled(cfg, s, Own(e, FinishOp(roll)))
    requires s.pcs[e].attempt.op.Failing? && s.pcs[e].attempt.op.canRetry
    ensures var a, ep := s.pcs[e].attempt, s.core.episode;
            var s' := Do(cfg, s, Own(e, FinishOp(roll)));
            && s'.core.episode.Some?
            && var ep' := s'.core.episode.value;
               if a.permit.Probe? then
                 && ep.Some? && s'.core.nextGeneration == s.core.nextGeneration
                 && ep' == ep.value.(probeActive := false, lastError := a.op.error, readyAt := s.clock + a.op.delay)
               else if ep.None? then
                 && s'.core.nextGeneration == s.core.nextGeneration + 1
                 && ep' == Episode(s.core.nextGeneration, Some(e), s.clock + a.op.delay, a.op.error, {}, false, None)
               else
                 && s'.core.nextGeneration == s.core.nextGeneration
                 && ep' == ep.value.(waiters := if ep.value.terminalUntil.Some? then {} else ep.value.waiters + {e})
  {
    ReachableTask(cfg, s, e);
  }

  // ----- Starting and closing an attempt's operations -----

  /** A failure is on record before anything is decided about it. A correction is sent again if the budget allows
      one more attempt, and is final otherwise; a failure that may be retried takes its delay from the number of
      attempts so far, one that may not is a rejection. */
  lemma OperationsStart(cfg: Config, s: State, e: ExecId, move: AttemptMove)
    requires cfg.Accepted() && Reachable(cfg, s) && Enabled(cfg, s, Own(e, move))
    requires move.StartAccept? || move.StartCorrect? || move.StartFail?
    ensures var a, x := s.pcs[e].attempt, s.core.execs[e];
            var s' := Do(cfg, s, Own(e, move));
            var left := x.state.Active? && x.started < cfg.maxAttempts;
            && Known(s', e) && s'.core.episode == s.core.episode && s'.pcs[e].InAttempt?
            && s'.pcs == s.pcs[e := InAttempt(a.(op := s'.pcs[e].attempt.op))]
            && s'.core.execs == s.core.execs[e :=
                 if move.StartAccept? || !x.state.Active? then x else x.(lastFailure := Some(move.error))]
            && match s'.pcs[e].attempt.op
               case Accepting => move.StartAccept?
               case Correcting(error) => move == StartCorrect(error) && left
               case Rejecting(error) =>
                 (move == StartCorrect(error) && !left) || (move.StartFail? && move.error == error && !move.retryable)
               case Failing(error, canRetry, delay) =>
                 && move.StartFail? && move.error == error && move.retryable && canRetry == left
                 && IsDelay(cfg, error, x.started, move.roll, delay)
               case _ => false
  {
    ReachableTask(cfg, s, e);
    if move.StartFail? { RetryDelayBounds(cfg, move.error, s.core.execs[e].started, move.roll); }
  }

  /** A cancelled operation settles nothing: the attempt is as unresolved as before. Closing a resolved attempt ends
      it at once, and closing any other one ends it with the abandonment, which goes on alone if closing is
      cancelled; either way the claim and the slot are given back exactly once. */
  lemma AttemptsClose(cfg: Config, s: State, e: ExecId, move: AttemptMove)
    requires cfg.Accepted() && Reachable(cfg, s) && Enabled(cfg, s, Own(e, move))
    requires move.OpCancelled? || move.StartClose? || move.FinishClose? || move.CloseCancelled?
    ensures var a, x := s.pcs[e].attempt, s.core.execs[e];
            var s' := Do(cfg, s, Own(e, move));
            var ended := !move.OpCancelled? && (move.StartClose? ==> a.resolved);
            && s'.claims == s.claims && s'.records == s.records
            && s'.free == s.free + (if ended then 1 else 0)
            && s'.core.execs == s.core.execs[e := if ended then x.(claim := None) else x]
            && s'.pcs == s.pcs[e := if ended then Idle
                                    else InAttempt(a.(op := if move.OpCancelled? then Resting else Closing))]
            && (move.OpCancelled? ==> !a.resolved)
            && s'.orphans == s.orphans + (if move.CloseCancelled? && a.permit.Probe?
                                          then {(e, a.permit.generation)} else {})
  {
    ReachableTask(cfg, s, e);
  }

  // ----- The gate -----

  /** `open_attempt` lets exactly an active execution with budget left to the gate, and the gate turns exactly the
      failed ones away. */
  lemma OpeningChecks(cfg: Config, s: State, e: ExecId)
    requires cfg.Accepted() && Reachable(cfg, s) && Known(s, e)
    ensures s.pcs[e].Idle? ==>
              var x := s.core.execs[e];
              Do(cfg, s, Gate(e, Open)) ==
                s.(pcs := s.pcs[e := if x.state.Active? && x.started < cfg.maxAttempts then GateTop else Idle])
    ensures s.pcs[e].GateTop? ==>
              Do(cfg, s, Gate(e, Check)) ==
                s.(pcs := s.pcs[e := if s.core.execs[e].state.Failed? then Idle else GateLock])
  {
    ReachableTask(cfg, s, e);
    if s.pcs[e].Idle? { assert s.pcs[e := Idle] == s.pcs; }
  }

  /** With no episode everyone goes through; a closed provider turns everyone away until its time has come, and
      then whoever comes first leads the next generation and probes at once. */
  lemma GateWithoutLeaders(cfg: Config, s: State, e: ExecId)
    requires cfg.Accepted() && Reachable(cfg, s) && Known(s, e) && s.pcs[e].GateLock?
    requires s.core.episode.None? || s.core.episode.value.terminalUntil.Some?
    ensures var s', ep := Do(cfg, s, Gate(e, Enter)), s.core.episode;
            if ep.None? then s' == s.(pcs := s.pcs[e := Limiting(Ordinary)])
            else if s.clock < ep.value.terminalUntil.value then
              && s' == s.(pcs := s.pcs[e := Idle])
              && EnterGate(s.core, e, s.clock).outcome == Exhausted(ep.value.lastError)
            else
              && s'.pcs == s.pcs[e := Limiting(Probe(s.core.nextGeneration))]
              && s'.core.execs == s.core.execs && s'.core.nextGeneration == s.core.nextGeneration + 1
              && s'.core.episode ==
                   Some(Episode(s.core.nextGeneration, Some(e), s.clock, ep.value.lastError, {}, true, None))
  {
    ReachableTask(cfg, s, e);
  }

  /** In an open episode the first one to come while nobody leads takes the lead; the leader probes as soon as
      `ready_at` has come, sleeps until exactly then, or waits for the end of its own probe; everyone else waits. */
  lemma GateOfAnEpisode(cfg: Config, s: State, e: ExecId)
    requires cfg.Accepted() && Reachable(cfg, s) && Known(s, e) && s.pcs[e].GateLock?
    requires s.core.episode.Some? && s.core.episode.value.terminalUntil.None?
    ensures var s', ep := Do(cfg, s, Gate(e, Enter)), s.core.episode.value;
            var g := ep.generation;
            var led := ep.(leader := Some(e), waiters := ep.waiters - {e});
            && s'.core.execs == s.core.execs && s'.core.nextGeneration == s.core.nextGeneration
            && s'.core.episode.Some? && e in s'.pcs
            && (ep.leader.Some? && ep.leader != Some(e) ==>
                  s'.core.episode.value == ep.(waiters := ep.waiters + {e})
                  && s'.pcs == s.pcs[e := GateWait(false, g)])
            && ((ep.leader.None? || ep.leader == Some(e)) && ep.probeActive ==>
                  s'.core.episode.value == led && s'.pcs == s.pcs[e := GateWait(true, g)])
            && ((ep.leader.None? || ep.leader == Some(e)) && !ep.probeActive && ep.readyAt <= s.clock ==>
                  s'.core.episode.value == led.(probeActive := true) && s'.pcs == s.pcs[e := Limiting(Probe(g))])
            && ((ep.leader.None? || ep.leader == Some(e)) && !ep.probeActive && s.clock < ep.readyAt ==>
                  s'.core.episode.value == led && s'.pcs == s.pcs[e := GateSleep(g, ep.readyAt)])
  {
    ReachableTask(cfg, s, e);
    var ep := s.core.episode.value;
    if ep.leader == Some(e) { assert ep.waiters - {e} == ep.waiters; }
  }

  /** A leader that slept gets the probe if it still leads its generation, and goes back to the gate otherwise. */
  lemma SleeperClaims(cfg: Config, s: State, e: ExecId)
    requires cfg.Accepted() && Reachable(cfg, s) && Known(s, e) && s.pcs[e].GateRelock?
    ensures var s', ep, g := Do(cfg, s, Gate(e, ClaimProbe)), s.core.episode, s.pcs[e].generation;
            if ep.Some? && ep.value.generation == g && ep.value.leader == Some(e) then
              && ep.value.readyAt <= s.clock
              && s' == s.(core := s.core.(episode := Some(ep.value.(probeActive := true))),
                          pcs := s.pcs[e := Limiting(Probe(g))])
            else s' == s.(pcs := s.pcs[e := GateTop])
  {
    ReachableTask(cfg, s, e);
    ReachableNoRefused(cfg, s);
  }

  /** Whoever wakes looks again: a notified waiter from the top of the gate, a sleeper at its own episode. */
  lemma WakingLooksAgain(cfg: Config, s: State, e: ExecId, move: GateMove)
    requires cfg.Accepted() && Reachable(cfg, s) && Enabled(cfg, s, Gate(e, move))
    requires move.Woken? || move.SleepOver?
    ensures move.SleepOver? ==> s.pcs[e].until <= s.clock
    ensures Do(cfg, s, Gate(e, move)) ==
              s.(pcs := s.pcs[e := if move.Woken? then GateTop else GateRelock(s.pcs[e].generation, s.pcs[e].until)])
  {
    ReachableTask(cfg, s, e);
  }

  /** A cancelled waiter leaves no trace: it is no longer among the waiters of its generation, and nobody else's place
      changes; nor does one that is cancelled before it has the lock. */
  lemma CancelledWaiterLeaves(cfg: Config, s: State, e: ExecId, move: GateMove)
    requires cfg.Accepted() && Reachable(cfg, s) && Enabled(cfg, s, Gate(e, move))
    requires move.WaitCancelled? || move.EnterCancelled?
    ensures var s', ep := Do(cfg, s, Gate(e, move)), s.core.episode;
            && s'.pcs == s.pcs[e := Idle] && s'.core.execs == s.core.execs
            && s'.core.episode ==
                 if move.WaitCancelled? && !s.pcs[e].asLeader && ep.Some? && ep.value.generation == s.pcs[e].generation
                 then Some(ep.value.(waiters := ep.value.waiters - {e})) else ep
  {
    ReachableTask(cfg, s, e);
  }

  /** A leader cancelled in its sleep gives the lead back, if it still has it, as soon as it has the lock; then it is
      gone. */
  lemma CancelledSleeperReturnsTheLead(cfg: Config, s: State, e: ExecId)
    requires cfg.Accepted() && Reachable(cfg, s) && Known(s, e) && (s.pcs[e].GateSleep? || s.pcs[e].GateRelock?)
    ensures var s1, ep, g := Do(cfg, s, Gate(e, SleepCancelled)), s.core.episode, s.pcs[e].generation;
            && s1.core == s.core && Enabled(cfg, s1, Gate(e, LeadReturned))
            && var s2 := Do(cfg, s1, Gate(e, LeadReturned));
               && s2.pcs == s.pcs[e := Idle] && s2.core.execs == s.core.execs
               && s2.core.episode ==
                    if ep.Some? && ep.value.generation == g && ep.value.leader == Some(e)
                    then Some(ep.value.(leader := None)) else ep
  {
    ReachableTask(cfg, s, e);
  }

  /** While it waits for the lock the lead may have changed hands: only what is still its own is given back. */
  lemma LeadIsReturned(cfg: Config, s: State, e: ExecId)
    requires cfg.Accepted() && Reachable(cfg, s) && Known(s, e) && s.pcs[e].ReturningLead?
    ensures var s', ep := Do(cfg, s, Gate(e, LeadReturned)), s.core.episode;
            && s'.pcs == s.pcs[e := Idle] && s'.core.execs == s.core.execs
            && s'.core.episode ==
                 if ep.Some? && ep.value.generation == s.pcs[e].generation && ep.value.leader == Some(e)
                    && !ep.value.probeActive
                 then Some(ep.value.(leader := None)) else ep
  {
    ReachableTask(cfg, s, e);
  }

  // ----- From the permit to the claim -----

  /** The window has room when the record `rate_limit` places back is at least one window old. */
  predicate HasRoom(cfg: Config, s: State)
    requires cfg.Accepted()
  {
    |s.records| < cfg.rateLimit || s.records[|s.records| - cfg.rateLimit] <= s.clock - cfg.rateWindow
  }

  /** With room, an admission is recorded exactly if it is still wanted: a probe always is, an ordinary one only
      without an episode, and goes back to the gate otherwise. Without room nothing happens. */
  lemma WindowDecides(cfg: Config, s: State, e: ExecId, stamp: real)
    requires cfg.Accepted() && Reachable(cfg, s) && Enabled(cfg, s, Admit(e, LimiterPass(stamp)))
    ensures var s', permit := Do(cfg, s, Admit(e, LimiterPass(stamp))), s.pcs[e].permit;
            && s'.core == s.core && s'.free == s.free
            && if !HasRoom(cfg, s) then s'.pcs == s.pcs && s'.records == s.records
               else if permit.Probe? || s.core.episode.None? then
                 s'.pcs == s.pcs[e := Queued(permit, |s.records|)] && s'.records == s.records + [stamp]
               else s'.pcs == s.pcs[e := GateTop] && s'.records == s.records
  {
    ReachableTask(cfg, s, e);
    ReachableRecords(cfg, s);
    RateWindow.PassAdmitsIff(cfg.rateLimit, cfg.rateWindow, s.records, s.times, s.clock, stamp,
                             PermitCurrent(s.core.episode, e, s.pcs[e].permit));
  }

  /** With its slot, an admission that is still wanted becomes the next attempt of an active execution with budget
      left; anything else gives the slot back. */
  lemma SlotDecides(cfg: Config, s: State, e: ExecId)
    requires cfg.Accepted() && Reachable(cfg, s) && Enabled(cfg, s, Admit(e, SlotUsed))
    ensures var s', x, permit := Do(cfg, s, Admit(e, SlotUsed)), s.core.execs[e], s.pcs[e].permit;
            && s'.core.episode == s.core.episode
            && if permit.Ordinary? && s.core.episode.Some? then
                 s' == s.(free := s.free + 1, pcs := s.pcs[e := GateTop])
               else if !x.state.Active? || cfg.maxAttempts <= x.started then
                 s' == s.(free := s.free + 1, pcs := s.pcs[e := if permit.Probe? then Unwinding(permit) else Idle])
               else
                 && s'.free == s.free && |s'.claims| == |s.claims| + 1
                 && s'.core.execs == s.core.execs[e := x.(started := x.started + 1, claim := Some(x.started + 1))]
                 && s'.pcs == s.pcs[e := InAttempt(Attempt(permit, x.started + 1, s.pcs[e].rec, false, false, Resting))]
  {
    ReachableTask(cfg, s, e);
  }

  /** A cancelled admission keeps neither slot nor permit: a held probe is given back next, unless that is cancelled
      as well. */
  lemma CancelledAdmission(cfg: Config, s: State, e: ExecId, move: AdmitMove)
    requires cfg.Accepted() && Reachable(cfg, s) && Enabled(cfg, s, Admit(e, move))
    requires move.AdmissionCancelled? || move.CleanupCancelled?
    ensures var s', held := Do(cfg, s, Admit(e, move)), Held(s.pcs[e]);
            && held.Some?
            && (move.CleanupCancelled? ==> s' == s.(pcs := s.pcs[e := Idle]))
            && (move.AdmissionCancelled? ==> s' == s.(free := s.free + (if s.pcs[e].Granted? then 1 else 0),
                        pcs := s.pcs[e := if held.value.Probe? then Unwinding(held.value) else Idle]))
  {
    ReachableTask(cfg, s, e);
  }

  /** A verdict is given to an active execution only, and only its own state moves. */
  lemma MarksSettle(cfg: Config, s: State, e: ExecId, mark: Mark)
    requires cfg.Accepted() && Reachable(cfg, s) && Enabled(cfg, s, Marked(e, mark))
    ensures var s', x := Do(cfg, s, Marked(e, mark)), s.core.execs[e];
            && s'.pcs == s.pcs && s'.core.episode == s.core.episode
            && s'.core.execs == s.core.execs[e :=
                 if !x.state.Active? then x
                 else match mark
                      case Succeed => x.(state := Succeeded)
                      case Fail(error) => x.(state := Failed, lastFailure := Some(error))
                      case Abandon => x.(state := Abandoned)]
  {
    ReachableTask(cfg, s, e);
  }
}
