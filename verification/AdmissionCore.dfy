/** The shared data of providers/admission.py and what each locked body does to it.

    Every function here is one `async with self._condition` body, or one stretch without an await,
    as a function from the old shared state to the new one. */
module AdmissionCore {
  import opened Options

  type ExecId = nat

  /** What a failure's Retry-After header says when the delay is computed. */
  datatype RetryAfter = Missing | Malformed | NotFinite | Seconds(value: real) | Date(fromNow: real)

  /** One exception object. */
  datatype Failure = Failure(id: nat, retryAfter: RetryAfter)

  datatype Config = Config(rateLimit: int, rateWindow: real, maxConcurrency: int, maxAttempts: int,
                           baseDelay: real, maxDelay: real, jitter: real)
  {
    /** The constructor raises ValueError on anything else. */
    predicate Accepted() {
      && 0 < rateLimit
      && 0.0 < rateWindow
      && 0 < maxConcurrency
      && 0 < maxAttempts
      && 0.0 <= baseDelay <= maxDelay
      && 0.0 <= jitter
    }
  }

  datatype ExecState = Active | Succeeded | Failed | Abandoned

  datatype Exec = Exec(started: nat, claim: Option<nat>, lastFailure: Option<Failure>, state: ExecState)

  datatype Permit = Ordinary | Probe(generation: nat)

  datatype Episode = Episode(generation: nat, leader: Option<ExecId>, readyAt: real, lastError: Failure,
                             waiters: set<ExecId>, probeActive: bool, terminalUntil: Option<real>)

  datatype Core = Core(execs: map<ExecId, Exec>, episode: Option<Episode>, nextGeneration: nat)

  const NEW_EXEC := Exec(0, None, None, Active)

  // ----- One logical execution -----

  predicate CanAttempt(cfg: Config, x: Exec) {
    x.state.Active? && x.started < cfg.maxAttempts
  }

  function MarkFailed(x: Exec, error: Failure): Exec {
    if x.state.Active? then x.(lastFailure := Some(error), state := Failed) else x
  }

  function MarkSucceeded(x: Exec): Exec {
    if x.state.Active? then x.(state := Succeeded) else x
  }

  function MarkAbandoned(x: Exec): Exec {
    if x.state.Active? then x.(state := Abandoned) else x
  }

  function RecordFailure(x: Exec, error: Failure): Exec {
    if x.state.Active? then x.(lastFailure := Some(error)) else x
  }

  /** The error a FAILED execution keeps; `_terminal_failure`. */
  function TerminalFailure(x: Exec): Option<Failure> {
    if x.state.Failed? then x.lastFailure else None
  }

  function FailAll(execs: map<ExecId, Exec>, waiters: set<ExecId>, error: Failure): map<ExecId, Exec> {
    map e | e in execs :: if e in waiters then MarkFailed(execs[e], error) else execs[e]
  }

  // ----- Delays -----

  function Pow2(n: nat): nat {
    if n == 0 then 1 else 2 * Pow2(n - 1)
  }

  function Max(a: real, b: real): real {
    if a < b then b else a
  }

  function Min(a: real, b: real): real {
    if a < b then a else b
  }

  function RetryAfterSeconds(header: RetryAfter): Option<real> {
    match header
    case Seconds(value) => Some(Max(0.0, value))
    case Date(fromNow) => Some(Max(0.0, fromNow))
    case _ => None
  }

  /** The capped exponential part, before jitter. */
  function Backoff(cfg: Config, attempt: nat): real {
    Min(cfg.baseDelay * (Pow2(if attempt == 0 then 0 else attempt - 1) as real), cfg.maxDelay)
  }

  function RetryDelay(cfg: Config, error: Failure, attempt: nat, roll: real): real {
    var backoff := Backoff(cfg, attempt) + roll;
    match RetryAfterSeconds(error.retryAfter)
    case Some(seconds) => Max(backoff, seconds)
    case None => Max(backoff, 0.0)
  }

  // What a delay should be, told without the formula.

  /** The base, doubled for every further attempt, cut off at the cap. */
  function Doubled(base: real, cap: real, attempt: nat): real {
    if attempt <= 1 then base
    else if cap < 2.0 * Doubled(base, cap, attempt - 1) then cap
    else 2.0 * Doubled(base, cap, attempt - 1)
  }

  /** The server named this wait, or a date this far away. */
  predicate AsksFor(error: Failure, wait: real) {
    error.retryAfter == Seconds(wait) || error.retryAfter == Date(wait)
  }

  /** The doubled base plus the jitter, unless the server asked for longer. */
  ghost predicate IsDelay(cfg: Config, error: Failure, attempt: nat, roll: real, delay: real) {
    var own := Doubled(cfg.baseDelay, cfg.maxDelay, attempt) + roll;
    && own <= delay
    && (forall wait :: AsksFor(error, wait) ==> wait <= delay)
    && (delay == own || AsksFor(error, delay))
  }

  /** The same for whatever jitter. */
  ghost predicate DelayWithin(cfg: Config, error: Failure, attempt: nat, delay: real) {
    && Doubled(cfg.baseDelay, cfg.maxDelay, attempt) <= delay
    && (forall wait :: AsksFor(error, wait) ==> wait <= delay)
    && (delay <= cfg.maxDelay + cfg.jitter || AsksFor(error, delay))
  }

  // ----- The recovery episode -----

  /** `_matching_probe`. */
  predicate Matches(ep: Option<Episode>, e: ExecId, permit: Permit) {
    && permit.Probe?
    && ep.Some?
    && ep.value.generation == permit.generation
    && ep.value.leader == Some(e)
    && ep.value.probeActive
  }

  /** `_permit_is_current`. */
  predicate PermitCurrent(ep: Option<Episode>, e: ExecId, permit: Permit) {
    if permit.Ordinary? then ep.None?
    else Matches(ep, e, permit) && ep.value.terminalUntil.None?
  }

  /** `_attempt_accepted` and `_attempt_rejected`: an answered probe closes the episode. */
  function CloseEpisode(ep: Option<Episode>, e: ExecId, permit: Permit): Option<Episode> {
    if Matches(ep, e, permit) then None else ep
  }

  /** `_attempt_corrected`: the leader may probe again at once. */
  function ProbeCorrected(ep: Option<Episode>, e: ExecId, permit: Permit, now: real): Option<Episode> {
    if Matches(ep, e, permit) then Some(ep.value.(probeActive := false, readyAt := now)) else ep
  }

  /** `_attempt_abandoned` and `_abandon_probe_permit`: give up probe and leadership. */
  function HandBack(ep: Option<Episode>, e: ExecId, permit: Permit, now: real): Option<Episode> {
    if Matches(ep, e, permit) then Some(ep.value.(leader := None, probeActive := false, readyAt := now)) else ep
  }

  /** `_abandon_waiting_leader`: a cancelled sleeper gives up leadership. */
  function ReturnLead(ep: Option<Episode>, e: ExecId, generation: nat): Option<Episode> {
    if ep.Some? && ep.value.generation == generation && ep.value.leader == Some(e) && !ep.value.probeActive
    then Some(ep.value.(leader := None)) else ep
  }

  /** A cancelled waiter leaves the waiter set of the generation it waited for. */
  function LeaveWaiters(ep: Option<Episode>, e: ExecId, generation: nat): Option<Episode> {
    if ep.Some? && ep.value.generation == generation
    then Some(ep.value.(waiters := ep.value.waiters - {e})) else ep
  }

  function FreshEpisode(c: Core, leader: Option<ExecId>, readyAt: real, error: Failure): Episode {
    Episode(c.nextGeneration, leader, readyAt, error, {}, false, None)
  }

  /** `_attempt_failed`, after `canRetry` and `delay` were read. */
  function FailAttempt(c: Core, e: ExecId, permit: Permit, error: Failure,
                       canRetry: bool, delay: real, terminalDelay: real, now: real): Core
    requires e in c.execs
  {
    var matched := Matches(c.episode, e, permit);
    if canRetry then
      if c.episode.None? then
        Core(c.execs, Some(FreshEpisode(c, Some(e), now + delay, error)), c.nextGeneration + 1)
      else if matched then
        c.(episode := Some(c.episode.value.(lastError := error, probeActive := false, readyAt := now + delay)))
      else if c.episode.value.terminalUntil.Some? then
        c.(execs := c.execs[e := MarkFailed(c.execs[e], c.episode.value.lastError)])
      else
        c.(episode := Some(c.episode.value.(waiters := c.episode.value.waiters + {e})))
    else if c.episode.None? || matched then
      var ep := if c.episode.None? then FreshEpisode(c, None, now, error) else c.episode.value;
      Core(FailAll(c.execs, ep.waiters, error),
           Some(ep.(lastError := error, leader := None, probeActive := false, waiters := {},
                    terminalUntil := Some(now + terminalDelay))),
           if c.episode.None? then c.nextGeneration + 1 else c.nextGeneration)
    else c
  }

  datatype GateOutcome =
    | Through(permit: Permit)
    | Exhausted(error: Failure)
    | AwaitProbe
    | AwaitLeader
    | Sleep(delay: real)

  datatype GateResult = GateResult(core: Core, generation: nat, outcome: GateOutcome)

  /** The locked body of `_wait_for_gate`. */
  function EnterGate(c: Core, e: ExecId, now: real): GateResult {
    if c.episode.None? then GateResult(c, 0, Through(Ordinary))
    else if c.episode.value.terminalUntil.Some? && now < c.episode.value.terminalUntil.value then
      GateResult(c, c.episode.value.generation, Exhausted(c.episode.value.lastError))
    else
      var reopened :=
        if c.episode.value.terminalUntil.Some? then
          Core(c.execs, Some(FreshEpisode(c, Some(e), now, c.episode.value.lastError)), c.nextGeneration + 1)
        else c;
      GatePast(reopened, e, now)
  }

  /** The rest of that body, once the episode is known not to be terminal. */
  function GatePast(c: Core, e: ExecId, now: real): GateResult
    requires c.episode.Some?
  {
    var ep0 := c.episode.value;
    var ep := if ep0.leader.None? then ep0.(leader := Some(e), waiters := ep0.waiters - {e}) else ep0;
    if ep.leader == Some(e) then
      if ep.probeActive then
        GateResult(c.(episode := Some(ep)), ep.generation, AwaitProbe)
      else
        var delay := Max(0.0, ep.readyAt - now);
        if delay == 0.0 then
          GateResult(c.(episode := Some(ep.(probeActive := true))), ep.generation, Through(Probe(ep.generation)))
        else
          GateResult(c.(episode := Some(ep)), ep.generation, Sleep(delay))
    else
      GateResult(c.(episode := Some(ep.(waiters := ep.waiters + {e}))), ep.generation, AwaitLeader)
  }

  /** After the sleep: does the sleeper still lead a probe-free episode of its generation? */
  predicate StillLeads(ep: Option<Episode>, e: ExecId, generation: nat) {
    && ep.Some?
    && ep.value.generation == generation
    && ep.value.terminalUntil.None?
    && ep.value.leader == Some(e)
    && !ep.value.probeActive
  }

  // ----- What the delay is -----

  /** The backoff starts at the base and doubles until it is the cap. */
  lemma {:induction false} BackoffDoubles(cfg: Config, attempt: nat)
    requires cfg.Accepted() && 1 <= attempt
    ensures attempt == 1 ==> Backoff(cfg, attempt) == cfg.baseDelay
    ensures Backoff(cfg, attempt) <= Backoff(cfg, attempt + 1) <= cfg.maxDelay
    ensures Backoff(cfg, attempt) < cfg.maxDelay
            ==> Backoff(cfg, attempt + 1) == Min(2.0 * Backoff(cfg, attempt), cfg.maxDelay)
  {
    var p := Pow2(attempt - 1) as real;
    assert Pow2(attempt) as real == 2.0 * p;
    assert cfg.baseDelay * (2.0 * p) == 2.0 * (cfg.baseDelay * p);
    assert 0.0 <= cfg.baseDelay * p;
  }

  /** So the capped power is the base doubled over and over. */
  lemma {:induction false} BackoffIsDoubled(cfg: Config, attempt: nat)
    requires cfg.Accepted()
    ensures Backoff(cfg, attempt) == Doubled(cfg.baseDelay, cfg.maxDelay, attempt)
    ensures cfg.baseDelay <= Doubled(cfg.baseDelay, cfg.maxDelay, attempt) <= cfg.maxDelay
  {
    if 1 < attempt {
      BackoffIsDoubled(cfg, attempt - 1);
      BackoffDoubles(cfg, attempt - 1);
    } else {
      BackoffDoubles(cfg, 1);
      assert Backoff(cfg, 0) == Backoff(cfg, 1);
    }
  }

  /** The delay is the doubled base plus the jitter, or longer exactly if the server asked for longer; so it lies
      between the two bounds whatever the jitter. */
  lemma RetryDelayBounds(cfg: Config, error: Failure, attempt: nat, roll: real)
    requires cfg.Accepted() && 0.0 <= roll <= cfg.jitter
    ensures IsDelay(cfg, error, attempt, roll, RetryDelay(cfg, error, attempt, roll))
    ensures DelayWithin(cfg, error, attempt, RetryDelay(cfg, error, attempt, roll))
  {
    BackoffIsDoubled(cfg, attempt);
  }
}
