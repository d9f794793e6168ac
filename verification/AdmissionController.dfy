/** The objects of providers/admission.py. Each method is one locked body, changing fields in place, and is
    tied to the transition function of the same body in AdmissionCore. */
module AdmissionController {
  import opened Options
  import opened AdmissionCore
  import AdmissionMachine

  /** How `open_attempt` ends in one round of `run_call`. Whatever `escapes` here and below is an exception that is
      neither an Exception nor a CancelledError, which `run_call` does not catch. */
  datatype Opening = Opens | RefusedWith(error: Failure) | OpeningCancelled | OpeningEscaped

  /** How one provider call made by `run_call` ends. */
  datatype CallOutcome = Returned | FailedWith(error: Failure, retryable: bool) | Cancelled | CallEscaped

  /** How `accept` or `fail` ends; only `fail` runs a caller's function that may raise. */
  datatype Reporting = Reported | ReportingCancelled | ReportingEscaped | ReportingRaised(error: Failure)

  datatype Closing = Closes | ClosingCancelled | ClosingEscaped

  /** What one round of `run_call` meets; the last three are the recovery errors others mark the execution with
      while it waits at the gate, reports a failure or closes. `closing` matters while the attempt is unresolved:
      only then does `aclose` wait. */
  datatype Round = Round(opening: Opening, outcome: CallOutcome, reporting: Reporting, closing: Closing,
                         failedWhileOpening: Option<Failure>, failedWhileReporting: Option<Failure>,
                         failedWhileClosing: Option<Failure>)

  /** The report on the call, if there was one, did not resolve the attempt. */
  predicate Unresolved(round: Round) {
    || round.outcome.Cancelled? || round.outcome.CallEscaped?
    || round.reporting.ReportingCancelled? || round.reporting.ReportingEscaped?
    || (round.outcome.FailedWith? && round.reporting.ReportingRaised?)
  }

  /** The call was cancelled, or the report on it, or closing the unresolved attempt. */
  predicate Interrupts(round: Round) {
    && Unresolved(round)
    && (|| round.closing.ClosingCancelled?
        || (round.closing.Closes? && round.outcome.Cancelled?)
        || (round.closing.Closes? && !round.outcome.CallEscaped? && round.reporting.ReportingCancelled?))
  }

  /** What leaves the round passes by both handlers of `run_call`. */
  predicate Escapes(round: Round) {
    && Unresolved(round)
    && (|| round.closing.ClosingEscaped?
        || (round.closing.Closes? && round.outcome.CallEscaped?)
        || (round.closing.Closes? && !round.outcome.Cancelled? && round.reporting.ReportingEscaped?))
  }

  /** The round let the loop go on. */
  predicate RetriedRound(round: Round) {
    round.opening.Opens? && round.outcome.FailedWith? && round.outcome.retryable && round.reporting.Reported?
  }

  /** `Nothing` is the RuntimeError of an execution that never made a call. */
  datatype CallResult = Value | Raised(error: Failure) | Interrupted | Escaped | Nothing

  class ProviderExecution {
    const id: ExecId
    var attemptsStarted: nat
    var activeClaim: Option<nat>
    var lastFailure: Option<Failure>
    var state: ExecState

    constructor (id: ExecId)
      ensures this.id == id && View() == NEW_EXEC
    {
      this.id := id;
      attemptsStarted := 0;
      activeClaim := None;
      lastFailure := None;
      state := Active;
    }

    ghost function View(): Exec
      reads this
    {
      Exec(attemptsStarted, activeClaim, lastFailure, state)
    }

    method MarkSuccess()
      modifies this
      ensures View() == MarkSucceeded(old(View()))
    {
      if state.Active? { state := Succeeded; }
    }

    method MarkFailure(error: Failure)
      modifies this
      ensures View() == MarkFailed(old(View()), error)
    {
      if state.Active? {
        lastFailure := Some(error);
        state := Failed;
      }
    }

    method MarkAbandonment()
      modifies this
      ensures View() == MarkAbandoned(old(View()))
    {
      if state.Active? { state := Abandoned; }
    }

    method Record(error: Failure)
      modifies this
      ensures View() == RecordFailure(old(View()), error)
    {
      if state.Active? { lastFailure := Some(error); }
    }

    /** None stands for the RuntimeError of a terminal, exhausted or already active execution. */
    method ClaimAttempt(cfg: Config) returns (ordinal: Option<nat>)
      modifies this
      ensures ordinal.Some? <==> CanAttempt(cfg, old(View())) && old(activeClaim).None?
      ensures ordinal.Some? ==>
                && ordinal.value == old(attemptsStarted) + 1
                && View() == old(View()).(started := ordinal.value, claim := ordinal)
      ensures ordinal.None? ==> View() == old(View())
    {
      if !(state.Active? && attemptsStarted < cfg.maxAttempts) || activeClaim.Some? {
        return None;
      }
      attemptsStarted := attemptsStarted + 1;
      activeClaim := Some(attemptsStarted);
      ordinal := activeClaim;
    }

    method CloseAttempt(ordinal: nat)
      modifies this
      ensures View() == if old(activeClaim) == Some(ordinal) then old(View()).(claim := None) else old(View())
    {
      if activeClaim == Some(ordinal) { activeClaim := None; }
    }
  }

  /** The loop of `run_call`, whatever the rounds bring. It makes at most the remaining number of calls; only
      its last call may return, raise or be cancelled, every earlier one failed retryably and was reported; and
      it leaves no active claim and a settled execution, unless something escapes that it does not catch. It is
      interrupted by a cancellation of the opening, which makes no call, or of the last call and what follows it. */
  method RunCall(x: ProviderExecution, cfg: Config, rounds: nat -> Round) returns (result: CallResult, calls: nat)
    requires x.attemptsStarted <= cfg.maxAttempts && x.activeClaim.None?
    modifies x
    ensures x.attemptsStarted == old(x.attemptsStarted) + calls <= cfg.maxAttempts
    ensures x.activeClaim.None?
    ensures x.state.Active? ==> result.Escaped?
    ensures forall i :: 0 <= i < calls - 1 ==> RetriedRound(rounds(i))
    ensures result.Value? ==>
              && x.state.Succeeded? && 0 < calls && rounds(calls - 1).outcome.Returned?
              && !Unresolved(rounds(calls - 1))
    ensures !old(x.state).Active? ==> calls == 0 && x.View() == old(x.View()) && (result.Raised? || result.Nothing?)
    ensures old(x.state).Active? && result.Raised? ==> x.state.Failed?
    ensures result.Interrupted? ==>
              || rounds(calls).opening.OpeningCancelled?
              || (0 < calls && rounds(calls - 1).opening.Opens? && Interrupts(rounds(calls - 1)))
    ensures result.Interrupted? ==>
              x.state.Abandoned? || (rounds(calls).failedWhileOpening.Some? && x.state.Failed?
                                     && x.lastFailure == rounds(calls).failedWhileOpening)
    ensures result.Escaped? ==>
              || rounds(calls).opening.OpeningEscaped?
              || (0 < calls && rounds(calls - 1).opening.Opens? && Escapes(rounds(calls - 1)))
    ensures result.Escaped? ==>
              x.state.Active? || (rounds(calls).failedWhileOpening.Some? && x.state.Failed?
                                  && x.lastFailure == rounds(calls).failedWhileOpening)
    ensures result.Nothing? ==> calls == 0 && old(x.lastFailure).None?
    ensures old(x.state).Active? && result.Nothing? ==> x.state.Abandoned?
    ensures result.Raised? && 0 < calls && x.attemptsStarted == cfg.maxAttempts
            && rounds(calls - 1).failedWhileReporting.None? && rounds(calls - 1).failedWhileClosing.None?
            && rounds(calls - 1).reporting.Reported?
            ==> rounds(calls - 1).outcome.FailedWith?
                && result.error == rounds(calls - 1).outcome.error && x.lastFailure == Some(result.error)
  {
    calls := 0;
    while x.state.Active? && x.attemptsStarted < cfg.maxAttempts
      invariant x.attemptsStarted == old(x.attemptsStarted) + calls <= cfg.maxAttempts
      invariant x.activeClaim.None?
      invariant forall i :: 0 <= i < calls ==> RetriedRound(rounds(i))
      invariant !old(x.state).Active? ==> calls == 0 && x.View() == old(x.View())
      invariant old(x.state).Active? ==> x.state.Active? || (x.state.Failed? && x.lastFailure.Some? && 0 < calls)
      invariant 0 < calls && x.state.Failed? ==> rounds(calls - 1).failedWhileClosing.Some?
      invariant calls == 0 ==> x.lastFailure == old(x.lastFailure)
      invariant 0 < calls ==> x.lastFailure.Some?
      invariant 0 < calls && x.state.Active? ==> x.attemptsStarted < cfg.maxAttempts
      decreases cfg.maxAttempts - x.attemptsStarted
    {
      var round := rounds(calls);
      if !round.opening.Opens? {
        result := LeaveAtTheGate(x, round);
        return;
      }
      var ordinal := x.ClaimAttempt(cfg);
      calls := calls + 1;
      if !round.outcome.FailedWith? || !round.reporting.Reported? {
        result := LeaveAfterTheCall(x, round);
        x.CloseAttempt(ordinal.value);
        SettleLast(x, result);
        return;
      }
      var error := round.outcome.error;
      var retryAllowed := ReportFailure(x, cfg, error, round.outcome.retryable, round.failedWhileReporting);
      x.CloseAttempt(ordinal.value);
      if !retryAllowed {
        x.MarkFailure(error);
        return Raised(error), calls;
      }
      if round.failedWhileClosing.Some? {
        x.MarkFailure(round.failedWhileClosing.value);
      }
    }
    if x.lastFailure.Some? {
      var error := x.lastFailure.value;
      x.MarkFailure(error);
      return Raised(error), calls;
    }
    x.MarkAbandonment();
    result := Nothing;
  }

  /** `open_attempt` raised: others may have failed the execution while it waited. */
  method LeaveAtTheGate(x: ProviderExecution, round: Round) returns (result: CallResult)
    requires x.state.Active? && !round.opening.Opens?
    modifies x
    ensures x.attemptsStarted == old(x.attemptsStarted) && x.activeClaim == old(x.activeClaim)
    ensures result == match round.opening
                      case OpeningCancelled => Interrupted
                      case OpeningEscaped => Escaped
                      case RefusedWith(error) => Raised(error)
    ensures round.failedWhileOpening.Some? ==> x.state.Failed? && x.lastFailure == round.failedWhileOpening
    ensures round.failedWhileOpening.None? && round.opening.OpeningCancelled? ==> x.state.Abandoned?
    ensures round.failedWhileOpening.None? && round.opening.OpeningEscaped? ==> x.state.Active?
    ensures round.failedWhileOpening.None? && round.opening.RefusedWith? ==>
              x.state.Failed? && x.lastFailure == Some(round.opening.error)
  {
    if round.failedWhileOpening.Some? { x.MarkFailure(round.failedWhileOpening.value); }
    match round.opening {
      case OpeningCancelled =>
        x.MarkAbandonment();
        result := Interrupted;
      case OpeningEscaped =>
        result := Escaped;
      case RefusedWith(error) =>
        x.MarkFailure(error);
        result := Raised(error);
    }
  }

  /** What a call leaves with when it was not a reported failure; a failure is on record before its report. */
  method LeaveAfterTheCall(x: ProviderExecution, round: Round) returns (result: CallResult)
    requires x.state.Active? && !(round.outcome.FailedWith? && round.reporting.Reported?)
    modifies x
    ensures x.attemptsStarted == old(x.attemptsStarted) && x.activeClaim == old(x.activeClaim)
    ensures x.state == (if result.Value? then Succeeded else Active) && !result.Nothing?
    ensures result.Value? <==> round.outcome.Returned? && !Unresolved(round)
    ensures result.Interrupted? <==> Interrupts(round)
    ensures result.Escaped? <==> Escapes(round)
    ensures result.Raised? ==> round.outcome.FailedWith? && round.reporting.ReportingRaised? &&
                               result.error == round.reporting.error
  {
    if round.outcome.FailedWith? && (round.reporting.ReportingCancelled? || round.reporting.ReportingEscaped?) {
      x.Record(round.outcome.error);
    }
    if Interrupts(round) { return Interrupted; }
    if Escapes(round) { return Escaped; }
    if round.outcome.FailedWith? { return Raised(round.reporting.error); }
    x.MarkSuccess();
    result := Value;
  }

  /** The handlers around the loop. */
  method SettleLast(x: ProviderExecution, result: CallResult)
    requires !result.Nothing? && (x.state.Active? || result.Value?)
    modifies x
    ensures x.attemptsStarted == old(x.attemptsStarted) && x.activeClaim == old(x.activeClaim)
    ensures result.Value? ==> x.View() == old(x.View())
    ensures result.Interrupted? ==> x.state.Abandoned?
    ensures result.Escaped? ==> x.state.Active?
    ensures result.Raised? ==> x.state.Failed? && x.lastFailure == Some(result.error)
  {
    match result {
      case Interrupted => x.MarkAbandonment();
      case Raised(error) => x.MarkFailure(error);
      case _ =>
    }
  }

  /** `ProviderAttempt.fail`, as its own execution sees it. */
  method ReportFailure(x: ProviderExecution, cfg: Config, error: Failure, retryable: bool, joined: Option<Failure>)
    returns (retryAllowed: bool)
    requires x.state.Active?
    modifies x
    ensures x.attemptsStarted == old(x.attemptsStarted) && x.activeClaim == old(x.activeClaim)
    ensures retryAllowed <==> retryable && joined.None? && x.attemptsStarted < cfg.maxAttempts
    ensures retryAllowed ==> x.state.Active? && x.lastFailure == Some(error)
    ensures !retryAllowed ==>
              x.state.Failed? && x.lastFailure == Some(if retryable && joined.Some? then joined.value else error)
  {
    x.Record(error);
    if !retryable {
      x.MarkFailure(error);
      return false;
    }
    if joined.Some? {
      x.MarkFailure(joined.value);
    }
    retryAllowed := x.state.Active? && x.attemptsStarted < cfg.maxAttempts;
    if !retryAllowed {
      x.MarkFailure(error);
    }
  }

  class RecoveryEpisode {
    const generation: nat
    var leader: ProviderExecution?
    var readyAt: real
    var lastError: Failure
    var waiters: set<ProviderExecution>
    var probeActive: bool
    var terminalUntil: Option<real>

    constructor (generation: nat, leader: ProviderExecution?, readyAt: real, lastError: Failure)
      ensures this.generation == generation && this.leader == leader && this.readyAt == readyAt
      ensures this.lastError == lastError && waiters == {} && !probeActive && terminalUntil == None
    {
      this.generation := generation;
      this.leader := leader;
      this.readyAt := readyAt;
      this.lastError := lastError;
      waiters := {};
      probeActive := false;
      terminalUntil := None;
    }

    ghost function View(): Episode
      reads this
    {
      Episode(generation, if leader == null then None else Some(leader.id), readyAt, lastError,
              Ids(waiters), probeActive, terminalUntil)
    }
  }

  ghost function Ids(executions: set<ProviderExecution>): set<ExecId> {
    set x | x in executions :: x.id
  }

  ghost function EpisodeView(episode: RecoveryEpisode?): Option<Episode>
    reads episode
  {
    if episode == null then None else Some(episode.View())
  }

  class ProviderAdmissionController {
    const cfg: Config
    var episode: RecoveryEpisode?
    var nextGeneration: nat
    var freeSlots: int
    ghost var executions: map<ExecId, ProviderExecution>

    ghost predicate Knows(x: ProviderExecution)
      reads this
    {
      x.id in executions && executions[x.id] == x
    }

    /** Every execution the episode refers to was started here, under its own id. */
    ghost predicate Valid()
      reads this, episode
    {
      && (forall id :: id in executions ==> executions[id].id == id)
      && (episode != null ==>
            && (episode.leader != null ==> Knows(episode.leader))
            && (forall w :: w in episode.waiters ==> Knows(w)))
    }

    ghost function View(): Core
      reads this, episode, executions.Values
    {
      Core(map id | id in executions :: executions[id].View(), EpisodeView(episode), nextGeneration)
    }

    /** Two known executions with one id are the same object, so ids identify waiters. */
    lemma KnownByIds(xs: set<ProviderExecution>, x: ProviderExecution)
      requires Valid() && Knows(x) && forall w :: w in xs ==> Knows(w)
      ensures Ids(xs + {x}) == Ids(xs) + {x.id}
      ensures Ids(xs - {x}) == Ids(xs) - {x.id}
      ensures x in xs <==> x.id in Ids(xs)
    {
      forall i | i in Ids(xs) - {x.id} ensures i in Ids(xs - {x}) {
        var w :| w in xs && w.id == i;
        assert w in xs - {x};
      }
      forall i | i in Ids(xs) + {x.id} ensures i in Ids(xs + {x}) {
        if i == x.id {
          assert x in xs + {x};
        } else {
          var w :| w in xs && w.id == i;
          assert w in xs + {x};
        }
      }
    }

    constructor (cfg: Config)
      requires cfg.Accepted()
      ensures Valid() && this.cfg == cfg && executions == map[] && freeSlots == cfg.maxConcurrency
      ensures View() == Core(map[], None, 1)
    {
      this.cfg := cfg;
      episode := null;
      nextGeneration := 1;
      freeSlots := cfg.maxConcurrency;
      executions := map[];
    }

    /** A configuration out of range is refused. */
    static method Make(cfg: Config) returns (r: Option<ProviderAdmissionController>)
      ensures r.Some? <==> cfg.Accepted()
      ensures r.Some? ==> fresh(r.value) && r.value.Valid() && r.value.View() == Core(map[], None, 1)
      ensures r.Some? ==> r.value.cfg == cfg && r.value.freeSlots == cfg.maxConcurrency
    {
      if !cfg.Accepted() { return None; }
      var controller := new ProviderAdmissionController(cfg);
      r := Some(controller);
    }

    method StartExecution(id: ExecId) returns (x: ProviderExecution)
      requires Valid() && id !in executions
      modifies this
      ensures freeSlots == old(freeSlots)
      ensures Valid() && fresh(x) && Knows(x) && x.id == id && episode == old(episode)
      ensures View() == old(View()).(execs := old(View()).execs[id := NEW_EXEC])
    {
      x := new ProviderExecution(id);
      executions := executions[id := x];
    }

    /** `execution._record_failure`, seen from the controller. */
    method RecordFailureOf(x: ProviderExecution, error: Failure)
      requires Valid() && Knows(x)
      modifies x
      ensures Valid()
      ensures View() == old(View()).(execs := old(View()).execs[x.id := RecordFailure(old(View()).execs[x.id], error)])
    {
      x.Record(error);
    }

    /** `execution._close_attempt`, and the slot's release. */
    method ReleaseAttempt(x: ProviderExecution, ordinal: nat)
      requires Valid() && Knows(x)
      modifies this`freeSlots, x
      ensures Valid() && freeSlots == old(freeSlots) + 1
      ensures var y := old(View()).execs[x.id];
              View() == old(View()).(execs := old(View()).execs[x.id :=
                                       if y.claim == Some(ordinal) then y.(claim := None) else y])
    {
      x.CloseAttempt(ordinal);
      freeSlots := freeSlots + 1;
    }

    /** `execution.fail(error)` unless another attempt is allowed. */
    method SettleExecution(x: ProviderExecution, error: Failure) returns (retryAllowed: bool)
      requires Valid() && Knows(x)
      modifies x
      ensures Valid()
      ensures View() == AdmissionMachine.SettleExec(cfg, old(View()), x.id, error)
      ensures retryAllowed == CanAttempt(cfg, View().execs[x.id])
    {
      retryAllowed := x.state.Active? && x.attemptsStarted < cfg.maxAttempts;
      if !retryAllowed {
        x.MarkFailure(error);
      }
    }

    predicate MatchingProbe(x: ProviderExecution, permit: Permit)
      requires Valid() && Knows(x)
      reads this, episode
      ensures MatchingProbe(x, permit) <==> Matches(EpisodeView(episode), x.id, permit)
    {
      && permit.Probe?
      && episode != null
      && episode.generation == permit.generation
      && episode.leader == x
      && episode.probeActive
    }

    /** `_attempt_accepted`, `_attempt_rejected`. */
    method CloseProbedEpisode(x: ProviderExecution, permit: Permit)
      requires Valid() && Knows(x)
      modifies this`episode
      ensures Valid()
      ensures View() == old(View()).(episode := CloseEpisode(old(View()).episode, x.id, permit))
      ensures if old(MatchingProbe(x, permit)) then episode == null else episode == old(episode)
    {
      if MatchingProbe(x, permit) {
        episode := null;
      }
    }

    /** `_attempt_rejected`, then `execution.fail`. */
    method AttemptRejected(x: ProviderExecution, permit: Permit, error: Failure)
      requires Valid() && Knows(x)
      modifies this`episode, x
      ensures Valid()
      ensures View() == old(View()).(episode := CloseEpisode(old(View()).episode, x.id, permit),
                                     execs := old(View()).execs[x.id := MarkFailed(old(View()).execs[x.id], error)])
    {
      CloseProbedEpisode(x, permit);
      x.MarkFailure(error);
    }

    /** `_attempt_corrected`. */
    method AttemptCorrected(x: ProviderExecution, permit: Permit, now: real)
      requires Valid() && Knows(x)
      modifies episode
      ensures Valid()
      ensures View() == old(View()).(episode := ProbeCorrected(old(View()).episode, x.id, permit, now))
    {
      if MatchingProbe(x, permit) {
        episode.probeActive := false;
        episode.readyAt := now;
      }
    }

    /** `_attempt_abandoned`, `_abandon_probe_permit`. */
    method AbandonProbe(x: ProviderExecution, permit: Permit, now: real)
      requires Valid() && Knows(x)
      modifies episode
      ensures Valid()
      ensures View() == old(View()).(episode := HandBack(old(View()).episode, x.id, permit, now))
    {
      if MatchingProbe(x, permit) {
        episode.leader := null;
        episode.probeActive := false;
        episode.readyAt := now;
      }
    }

    /** `_abandon_waiting_leader`. */
    method AbandonWaitingLeader(x: ProviderExecution, generation: nat)
      requires Valid() && Knows(x)
      modifies episode
      ensures Valid()
      ensures View() == old(View()).(episode := ReturnLead(old(View()).episode, x.id, generation))
    {
      if episode != null && episode.generation == generation && episode.leader == x && !episode.probeActive {
        episode.leader := null;
      }
    }

    /** A waiter was cancelled. */
    method WaitCancelled(x: ProviderExecution, generation: nat)
      requires Valid() && Knows(x)
      modifies episode
      ensures Valid()
      ensures View() == old(View()).(episode := LeaveWaiters(old(View()).episode, x.id, generation))
    {
      if episode != null && episode.generation == generation {
        KnownByIds(episode.waiters, x);
        episode.waiters := episode.waiters - {x};
      }
    }

    /** After the sleep: take the probe if `x` still leads. */
    method ClaimProbeAfterSleep(x: ProviderExecution, generation: nat) returns (permit: Option<Permit>)
      requires Valid() && Knows(x)
      modifies episode
      ensures Valid()
      ensures var ep := old(View()).episode;
              if StillLeads(ep, x.id, generation)
              then permit == Some(Probe(generation))
                   && View() == old(View()).(episode := Some(ep.value.(probeActive := true)))
              else permit == None && View() == old(View())
    {
      if episode != null && episode.generation == generation && episode.terminalUntil.None?
         && episode.leader == x && !episode.probeActive
      {
        episode.probeActive := true;
        return Some(Probe(generation));
      }
      permit := None;
    }

    /** `_start_recovery_episode`. */
    method StartRecoveryEpisode(leader: ProviderExecution?, readyAt: real, lastError: Failure)
      requires Valid() && (leader != null ==> Knows(leader))
      modifies this
      ensures freeSlots == old(freeSlots)
      ensures Valid() && executions == old(executions)
      ensures fresh(episode) && episode.leader == leader && episode.waiters == {}
      ensures View() == Core(old(View()).execs,
                             Some(FreshEpisode(old(View()), if leader == null then None else Some(leader.id),
                                               readyAt, lastError)),
                             old(nextGeneration) + 1)
    {
      episode := new RecoveryEpisode(nextGeneration, leader, readyAt, lastError);
      nextGeneration := nextGeneration + 1;
      assert Ids(episode.waiters) == {};
      assert View().execs == old(View().execs);
    }

    /** The locked body of `_wait_for_gate`. */
    method WaitForGateBody(x: ProviderExecution, now: real) returns (outcome: GateOutcome, ghost result: GateResult)
      requires Valid() && Knows(x)
      modifies this, episode
      ensures freeSlots == old(freeSlots)
      ensures Valid() && executions == old(executions)
      ensures result == EnterGate(old(View()), x.id, now)
      ensures View() == result.core && outcome == result.outcome
    {
      result := EnterGate(View(), x.id, now);
      if episode == null {
        return Through(Ordinary), result;
      }
      if episode.terminalUntil.Some? {
        if now < episode.terminalUntil.value {
          return Exhausted(episode.lastError), result;
        }
        StartRecoveryEpisode(x, now, episode.lastError);
      }
      outcome := PassGate(x, now);
    }

    /** The rest of that body, for an episode that is not terminal. */
    method PassGate(x: ProviderExecution, now: real) returns (outcome: GateOutcome)
      requires Valid() && Knows(x) && episode != null
      modifies episode
      ensures Valid()
      ensures var result := GatePast(old(View()), x.id, now);
              View() == result.core && outcome == result.outcome
    {
      KnownByIds(episode.waiters, x);
      if episode.leader == null {
        episode.leader := x;
        episode.waiters := episode.waiters - {x};
      }
      if episode.leader == x {
        if episode.probeActive {
          return AwaitProbe;
        }
        var sleepDelay := if 0.0 < episode.readyAt - now then episode.readyAt - now else 0.0;
        if sleepDelay == 0.0 {
          episode.probeActive := true;
          return Through(Probe(episode.generation));
        }
        return Sleep(sleepDelay);
      }
      episode.waiters := episode.waiters + {x};
      outcome := AwaitLeader;
    }

    /** Mark every waiter failed, one by one. */
    method FailWaiters(waiters: set<ProviderExecution>, error: Failure)
      requires Valid() && forall w :: w in waiters ==> Knows(w)
      modifies executions.Values
      ensures Valid()
      ensures View() == old(View()).(execs := FailAll(old(View()).execs, Ids(waiters), error))
    {
      var rest := waiters;
      while rest != {}
        invariant rest <= waiters
        invariant forall id :: id in executions ==>
                    executions[id].View() ==
                      if executions[id] in waiters - rest then MarkFailed(old(executions[id].View()), error)
                      else old(executions[id].View())
        decreases rest
      {
        var w :| w in rest;
        w.MarkFailure(error);
        rest := rest - {w};
      }
      forall id | id in executions ensures executions[id] in waiters <==> id in Ids(waiters) {
        KnownByIds(waiters, executions[id]);
      }
    }

    /** `_attempt_failed`. */
    method AttemptFailed(x: ProviderExecution, permit: Permit, error: Failure,
                         canRetry: bool, delay: real, terminalDelay: real, now: real)
      requires Valid() && Knows(x)
      modifies this, episode, executions.Values
      ensures freeSlots == old(freeSlots)
      ensures Valid() && executions == old(executions)
      ensures View() == FailAttempt(old(View()), x.id, permit, error, canRetry, delay, terminalDelay, now)
    {
      var matching := MatchingProbe(x, permit);
      if canRetry {
        if episode == null {
          StartRecoveryEpisode(x, now + delay, error);
        } else if matching {
          episode.lastError := error;
          episode.probeActive := false;
          episode.readyAt := now + delay;
        } else if episode.terminalUntil.Some? {
          x.MarkFailure(episode.lastError);
        } else {
          KnownByIds(episode.waiters, x);
          episode.waiters := episode.waiters + {x};
        }
      } else if episode == null || matching {
        ExhaustEpisode(error, terminalDelay, now);
      }
    }

    /** The exhausting branch: close the door and fail the waiters. */
    method ExhaustEpisode(error: Failure, terminalDelay: real, now: real)
      requires Valid()
      modifies this, episode, executions.Values
      ensures freeSlots == old(freeSlots)
      ensures Valid() && executions == old(executions)
      ensures var c := old(View());
              var ep := if c.episode.None? then FreshEpisode(c, None, now, error) else c.episode.value;
              View() == Core(FailAll(c.execs, ep.waiters, error),
                             Some(ep.(lastError := error, leader := None, probeActive := false, waiters := {},
                                      terminalUntil := Some(now + terminalDelay))),
                             if c.episode.None? then c.nextGeneration + 1 else c.nextGeneration)
    {
      if episode == null {
        StartRecoveryEpisode(null, now, error);
      }
      CloseTheDoor(error, now + terminalDelay);
    }

    /** Fail the waiters, then leave the episode terminal and empty. */
    method CloseTheDoor(error: Failure, until: real)
      requires Valid() && episode != null
      modifies episode, executions.Values
      ensures Valid()
      ensures var c := old(View());
              View() == Core(FailAll(c.execs, c.episode.value.waiters, error),
                             Some(c.episode.value.(lastError := error, leader := None, probeActive := false,
                                                   waiters := {}, terminalUntil := Some(until))),
                             c.nextGeneration)
    {
      FailWaiters(episode.waiters, error);
      label failed:
      episode.lastError := error;
      episode.leader := null;
      episode.probeActive := false;
      episode.terminalUntil := Some(until);
      episode.waiters := {};
      assert Ids(episode.waiters) == {};
      assert View().execs == old@failed(View()).execs;
    }
  }

  /** One admitted attempt. Its outcome is recorded once, and closing gives its slot back once. */
  class ProviderAttempt {
    const controller: ProviderAdmissionController
    const execution: ProviderExecution
    const permit: Permit
    const ordinal: nat
    var resolved: bool
    var accepted: bool
    var closed: bool

    constructor (controller: ProviderAdmissionController, execution: ProviderExecution, permit: Permit, ordinal: nat)
      ensures this.controller == controller && this.execution == execution
      ensures this.permit == permit && this.ordinal == ordinal
      ensures !resolved && !accepted && !closed
    {
      this.controller := controller;
      this.execution := execution;
      this.permit := permit;
      this.ordinal := ordinal;
      resolved, accepted, closed := false, false, false;
    }

    ghost predicate Ready()
      reads this, controller, controller.episode
    {
      controller.Valid() && controller.Knows(execution)
    }

    method Accept()
      requires Ready()
      modifies this, controller
      ensures Ready() && closed == old(closed) && controller.freeSlots == old(controller.freeSlots)
      ensures var c := old(controller.View());
              if old(resolved || closed)
              then controller.View() == c && resolved == old(resolved) && accepted == old(accepted)
              else controller.View() == c.(episode := CloseEpisode(c.episode, execution.id, permit))
                   && resolved && accepted
      ensures !old(resolved || closed) && old(controller.MatchingProbe(execution, permit)) ==>
                controller.episode == null
    {
      if resolved || closed {
        return;
      }
      controller.CloseProbedEpisode(execution, permit);
      resolved, accepted := true, true;
    }

    /** True for RETRY, false for FINAL. */
    method Correct(error: Failure, now: real) returns (retry: bool)
      requires Ready()
      modifies this, controller, controller.episode, execution
      ensures Ready() && closed == old(closed) && controller.freeSlots == old(controller.freeSlots)
      ensures var c := old(controller.View());
              var x := RecordFailure(c.execs[execution.id], error);
              var recorded := c.(execs := c.execs[execution.id := x]);
              if old(resolved || closed) then !retry && controller.View() == c && resolved == old(resolved)
              else
                && resolved && accepted == old(accepted)
                && retry == CanAttempt(controller.cfg, x)
                && controller.View() ==
                     if retry
                     then recorded.(episode := ProbeCorrected(c.episode, execution.id, permit, now))
                     else recorded.(episode := CloseEpisode(c.episode, execution.id, permit),
                                    execs := recorded.execs[execution.id := MarkFailed(x, error)])
    {
      if resolved || closed {
        return false;
      }
      controller.RecordFailureOf(execution, error);
      assert execution.View() == controller.View().execs[execution.id];
      retry := execution.state.Active? && execution.attemptsStarted < controller.cfg.maxAttempts;
      if retry {
        controller.AttemptCorrected(execution, permit, now);
      } else {
        controller.AttemptRejected(execution, permit, error);
      }
      resolved := true;
    }

    /** Returns whether the failure was retryable and whether another attempt is allowed. */
    method Fail(error: Failure, isRetryable: bool, roll: real, terminalRoll: real, now: real)
      returns (retryable: bool, retryAllowed: bool)
      requires Ready()
      modifies this, controller, controller.episode, controller.executions.Values
      ensures Ready() && closed == old(closed) && controller.freeSlots == old(controller.freeSlots)
      ensures var cfg := controller.cfg;
              var id := execution.id;
              var c := old(controller.View());
              var x := RecordFailure(c.execs[id], error);
              var recorded := c.(execs := c.execs[id := x]);
              if old(resolved || closed)
              then controller.View() == c && resolved == old(resolved) && !retryable && !retryAllowed
              else
                && resolved && accepted == old(accepted) && retryable == isRetryable
                && id in controller.View().execs
                && retryAllowed == (retryable && CanAttempt(cfg, controller.View().execs[id]))
                && controller.View() ==
                     if retryable
                     then AdmissionMachine.SettleExec(cfg,
                            FailAttempt(recorded, id, permit, error, CanAttempt(cfg, x),
                                        RetryDelay(cfg, error, x.started, roll),
                                        RetryDelay(cfg, error, x.started, terminalRoll), now), id, error)
                     else recorded.(episode := CloseEpisode(c.episode, id, permit),
                                    execs := recorded.execs[id := MarkFailed(x, error)])
    {
      if resolved || closed {
        return false, false;
      }
      var cfg := controller.cfg;
      controller.RecordFailureOf(execution, error);
      resolved := true;
      if !isRetryable {
        controller.AttemptRejected(execution, permit, error);
        return false, false;
      }
      var canRetry := execution.state.Active? && execution.attemptsStarted < cfg.maxAttempts;
      controller.AttemptFailed(execution, permit, error, canRetry,
                               RetryDelay(cfg, error, execution.attemptsStarted, roll),
                               RetryDelay(cfg, error, execution.attemptsStarted, terminalRoll), now);
      retryable := true;
      retryAllowed := controller.SettleExecution(execution, error);
    }

    method Aclose(now: real)
      requires Ready()
      modifies this, controller, controller.episode, execution
      ensures Ready() && closed
      ensures controller.freeSlots == old(controller.freeSlots) + if old(closed) then 0 else 1
      ensures var c := old(controller.View());
              if old(closed) then controller.View() == c && resolved == old(resolved)
              else
                && resolved
                && controller.View().episode ==
                     (if old(resolved) then c.episode else HandBack(c.episode, execution.id, permit, now))
                && controller.View().nextGeneration == c.nextGeneration
                && controller.View().execs ==
                     c.execs[execution.id :=
                       if c.execs[execution.id].claim == Some(ordinal)
                       then c.execs[execution.id].(claim := None) else c.execs[execution.id]]
    {
      if closed {
        return;
      }
      closed := true;
      AbandonUnresolved(now);
      controller.ReleaseAttempt(execution, ordinal);
    }

    method AbandonUnresolved(now: real)
      requires Ready()
      modifies this`resolved, controller.episode
      ensures Ready() && resolved
      ensures var c := old(controller.View());
              controller.View() ==
                if old(resolved) then c else c.(episode := HandBack(c.episode, execution.id, permit, now))
    {
      if !resolved {
        controller.AbandonProbe(execution, permit, now);
        resolved := true;
      }
    }
  }
}
