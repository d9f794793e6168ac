/** The tables of runtime/code_sessions_sqlite.py as maps, and each transaction as a function.

    A transaction that raises changes nothing: its error stands for the rollback. */
module SessionRows {
  import opened Options
  import opened Ordering

  datatype SessionStatus = Ready | Deleting | DeleteUncertain

  datatype Session = Session(id: string, cwd: string, model: string, effort: Option<string>, title: string,
                             autoTitle: bool, nativeThread: Option<string>, mayHaveInput: bool, revision: int,
                             status: SessionStatus, error: Option<string>, createdAt: int, updatedAt: int)

  datatype RunStatus = Preparing | Running | Stopping | Completed | Interrupted | Failed

  datatype Run = Run(id: string, session: string, text: string, model: string, effort: Option<string>, ordinal: int,
                     status: RunStatus, submissionStarted: bool, nativeTurn: Option<string>, stopRequested: bool,
                     error: Option<string>, details: string, createdAt: int, finishedAt: Option<int>)

  datatype Item = Item(id: string, session: string, sequence: int, run: string, nativeTurn: Option<string>,
                       nativeItem: Option<string>, kind: string, title: string, text: string, detail: string,
                       complete: bool, raw: string)

  datatype PromptStatus = Pending | Answering | Resolved | Expired

  datatype Prompt = Prompt(id: string, session: string, generation: string, request: string,
                           nativeTurn: Option<string>, nativeItem: Option<string>, kind: string, form: string,
                           raw: string, status: PromptStatus, response: Option<string>, error: Option<string>)

  type Key = (string, string)

  datatype Tables = Tables(sessions: map<string, Session>, runs: map<Key, Run>, items: map<Key, Item>,
                           prompts: map<Key, Prompt>, deleted: set<string>)

  const NO_ROWS := Tables(map[], map[], map[], map[], {})

  datatype Error = NotFound | Conflict

  const RESTARTED := "FCC restarted before this turn finished. Its input was not resent."

  // ----- Status graphs -----

  predicate ActiveRun(status: RunStatus) {
    status.Preparing? || status.Running? || status.Stopping?
  }

  predicate RunMayBecome(from: RunStatus, to: RunStatus) {
    match from
    case Preparing => true
    case Running => !to.Preparing?
    case Stopping => !to.Preparing? && !to.Running?
    case _ => to == from
  }

  predicate OpenPrompt(status: PromptStatus) {
    status.Pending? || status.Answering?
  }

  predicate PromptMayBecome(from: PromptStatus, to: PromptStatus) {
    match from
    case Pending => true
    case Answering => !to.Pending?
    case _ => to == from
  }

  // ----- Constraints -----

  predicate Busy(db: Tables, sid: string) {
    || (exists k :: k in db.runs && k.0 == sid && ActiveRun(db.runs[k].status))
    || (exists k :: k in db.prompts && k.0 == sid && OpenPrompt(db.prompts[k].status))
  }

  /** The partial unique index `code_one_active_run`. */
  predicate ActiveFits(db: Tables, run: Run) {
    ActiveRun(run.status) ==>
      forall k :: k in db.runs && k.0 == run.session && k.1 != run.id ==> !ActiveRun(db.runs[k].status)
  }

  predicate OrdinalFits(db: Tables, run: Run) {
    && 0 < run.ordinal
    && forall k :: k in db.runs && k.0 == run.session && k.1 != run.id ==> db.runs[k].ordinal != run.ordinal
  }

  predicate TurnFits(db: Tables, run: Run) {
    run.nativeTurn.Some? ==>
      forall k :: k in db.runs && k.0 == run.session && k.1 != run.id ==> db.runs[k].nativeTurn != run.nativeTurn
  }

  predicate RunFits(db: Tables, run: Run) {
    run.session in db.sessions && ActiveFits(db, run) && OrdinalFits(db, run) && TurnFits(db, run)
  }

  predicate ItemFits(db: Tables, item: Item) {
    && item.session in db.sessions
    && (item.session, item.run) in db.runs
    && 0 < item.sequence
    && (forall k :: k in db.items && k.0 == item.session && k.1 != item.id ==> db.items[k].sequence != item.sequence)
    && (item.nativeTurn.Some? && item.nativeItem.Some? ==>
          forall k :: k in db.items && k.0 == item.session && k.1 != item.id ==>
            db.items[k].nativeTurn != item.nativeTurn || db.items[k].nativeItem != item.nativeItem)
  }

  predicate PromptFits(db: Tables, prompt: Prompt) {
    && prompt.session in db.sessions
    && (forall k :: k in db.prompts && k.0 == prompt.session && k.1 != prompt.id ==>
          db.prompts[k].generation != prompt.generation || db.prompts[k].request != prompt.request)
    && (prompt.response.Some? ==>
          forall k :: k in db.prompts && k.0 == prompt.session && k.1 != prompt.id ==>
            db.prompts[k].response != prompt.response)
  }

  // ----- Row writes -----

  function PutSession(db: Tables, row: Session): Tables {
    db.(sessions := db.sessions[row.id := row])
  }

  function PutRun(db: Tables, row: Run): Tables {
    db.(runs := db.runs[(row.session, row.id) := row])
  }

  function PutItem(db: Tables, row: Item): Tables {
    db.(items := db.items[(row.session, row.id) := row])
  }

  function PutPrompt(db: Tables, row: Prompt): Tables {
    db.(prompts := db.prompts[(row.session, row.id) := row])
  }

  function MergedSession(current: Session, session: Session, settings: bool): Session {
    if settings then
      current.(title := session.title, autoTitle := session.autoTitle, model := session.model,
               effort := session.effort, revision := session.revision, updatedAt := session.updatedAt)
    else
      current.(nativeThread := session.nativeThread, mayHaveInput := session.mayHaveInput,
               revision := session.revision, updatedAt := session.updatedAt, status := session.status,
               error := session.error)
  }

  function WriteSession(db: Tables, session: Session, expected: int, settings: bool): Result<Tables, Error> {
    if session.id !in db.sessions then Err(NotFound)
    else
      var current := db.sessions[session.id];
      if current.revision != expected || (session.revision != expected && session.revision != expected + 1) then
        Err(Conflict)
      else Ok(db.(sessions := db.sessions[session.id := MergedSession(current, session, settings)]))
  }

  predicate Finished(status: RunStatus) {
    status.Completed? || status.Failed? || status.Interrupted?
  }

  predicate RunAccepts(previous: Run, run: Run) {
    && RunMayBecome(previous.status, run.status)
    && (Finished(previous.status) ==>
          run.finishedAt == previous.finishedAt && (previous.error.Some? ==> run.error == previous.error))
    && (previous.stopRequested ==> run.stopRequested)
    && (previous.submissionStarted ==> run.submissionStarted)
    && previous.ordinal == run.ordinal && previous.text == run.text
    && previous.model == run.model && previous.effort == run.effort
    && (previous.nativeTurn.Some? ==> previous.nativeTurn == run.nativeTurn)
  }

  /** The columns `_write_run` never touches keep their old values. */
  function MergedRun(previous: Run, run: Run): Run {
    run.(ordinal := previous.ordinal, text := previous.text, model := previous.model, effort := previous.effort,
         createdAt := previous.createdAt)
  }

  function WriteRun(db: Tables, run: Run): Result<Tables, Error> {
    if (run.session, run.id) !in db.runs then Err(NotFound)
    else
      var previous := db.runs[(run.session, run.id)];
      var merged := MergedRun(previous, run);
      if !RunAccepts(previous, run) || !RunFits(db, merged) then Err(Conflict)
      else Ok(PutRun(db, merged))
  }

  predicate ItemAccepts(previous: Item, item: Item) {
    && previous.run == item.run && previous.sequence == item.sequence && previous.kind == item.kind
    && (previous.complete ==> item.complete)
    && (previous.nativeTurn.Some? ==> previous.nativeTurn == item.nativeTurn)
    && (previous.nativeItem.Some? ==> previous.nativeItem == item.nativeItem)
  }

  function WriteItem(db: Tables, item: Item): Result<Tables, Error> {
    if ((item.session, item.id) in db.items && !ItemAccepts(db.items[(item.session, item.id)], item))
       || !ItemFits(db, item)
    then Err(Conflict)
    else Ok(PutItem(db, item))
  }

  predicate PromptAccepts(previous: Prompt, prompt: Prompt) {
    && PromptMayBecome(previous.status, prompt.status)
    && previous.generation == prompt.generation && previous.request == prompt.request
    && previous.nativeTurn == prompt.nativeTurn && previous.nativeItem == prompt.nativeItem
    && previous.kind == prompt.kind
    && (previous.response.Some? ==> previous.response == prompt.response)
  }

  function WritePrompt(db: Tables, prompt: Prompt): Result<Tables, Error> {
    if ((prompt.session, prompt.id) in db.prompts && !PromptAccepts(db.prompts[(prompt.session, prompt.id)], prompt))
       || !PromptFits(db, prompt)
    then Err(Conflict)
    else Ok(PutPrompt(db, prompt))
  }

  function WriteItems(db: Tables, sid: string, items: seq<Item>): Result<Tables, Error>
    decreases |items|
  {
    if items == [] then Ok(db)
    else if items[0].session != sid then Err(Conflict)
    else
      match WriteItem(db, items[0])
      case Err(e) => Err(e)
      case Ok(next) => WriteItems(next, sid, items[1..])
  }

  function WritePrompts(db: Tables, sid: string, prompts: seq<Prompt>): Result<Tables, Error>
    decreases |prompts|
  {
    if prompts == [] then Ok(db)
    else if prompts[0].session != sid then Err(Conflict)
    else
      match WritePrompt(db, prompts[0])
      case Err(e) => Err(e)
      case Ok(next) => WritePrompts(next, sid, prompts[1..])
  }

  // ----- Transactions -----

  /** `Tables` after the transaction, and what it returns. */
  datatype Done<T> = Done(db: Tables, value: T)

  function Create(db: Tables, session: Session): Result<Done<Session>, Error> {
    if session.id in db.deleted then Err(Conflict)
    else if session.id in db.sessions then
      if db.sessions[session.id].cwd != session.cwd then Err(Conflict) else Ok(Done(db, db.sessions[session.id]))
    else if session.revision <= 0 then Err(Conflict)
    else Ok(Done(PutSession(db, session), session))
  }

  function UpdateSettings(db: Tables, session: Session, expected: int): Result<Done<Session>, Error> {
    if session.id !in db.sessions then Err(NotFound)
    else
      var previous := db.sessions[session.id];
      if !previous.status.Ready? then Err(Conflict)
      else if (previous.model != session.model || previous.effort != session.effort) && Busy(db, session.id) then
        Err(Conflict)
      else
        match WriteSession(db, session, expected, true)
        case Err(e) => Err(e)
        case Ok(next) => Ok(Done(next, next.sessions[session.id]))
  }

  ghost function Ordinals(runs: map<Key, Run>, sid: string): set<int> {
    set k | k in runs && k.0 == sid :: runs[k].ordinal
  }

  /** `coalesce(max(ordinal), 0) + 1`. */
  ghost function NextOrdinal(db: Tables, sid: string): int {
    if exists o :: o in Ordinals(db.runs, sid) then MaxOf(Ordinals(db.runs, sid)) + 1 else 1
  }

  /** `admit_run`. The receipt is the run row; the session row comes with it. */
  ghost function AdmitRun(db: Tables, session: Session, run: Run, item: Item, expected: int)
    : Result<Done<(Session, Run)>, Error>
  {
    if session.id !in db.sessions then Err(NotFound)
    else
      var previous := db.sessions[session.id];
      if (session.id, run.id) in db.runs then
        var receipt := db.runs[(session.id, run.id)];
        if receipt.text != run.text then Err(Conflict) else Ok(Done(db, (previous, receipt)))
      else if !previous.status.Ready? || previous.model != run.model || run.session != session.id then Err(Conflict)
      else if Busy(db, session.id) then Err(Conflict)
      else
        match WriteSession(db, session, expected, true)
        case Err(e) => Err(e)
        case Ok(next) =>
          var admitted := run.(ordinal := NextOrdinal(next, session.id));
          if item.session != session.id || item.run != run.id || item.id != run.id || item.kind != "user" then
            Err(Conflict)
          else if !RunFits(next, admitted) then Err(Conflict)
          else
            var withRun := PutRun(next, admitted);
            if (item.session, item.id) in withRun.items || !ItemFits(withRun, item) then Err(Conflict)
            else Ok(Done(PutItem(withRun, item), (next.sessions[session.id], admitted)))
  }

  function ClaimPrompt(db: Tables, sid: string, pid: string, response: string, generation: string)
    : Result<Done<Prompt>, Error>
  {
    if (sid, pid) !in db.prompts then Err(NotFound)
    else
      var prompt := db.prompts[(sid, pid)];
      if prompt.response == Some(response) then Ok(Done(db, prompt))
      else if !prompt.status.Pending? || prompt.generation != generation then Err(Conflict)
      else
        var claimed := prompt.(status := Answering, response := Some(response));
        match WritePrompt(db, claimed)
        case Err(e) => Err(e)
        case Ok(next) => Ok(Done(next, claimed))
  }

  /** The run, the items and the prompts of a save. */
  function SaveRows(db: Tables, sid: string, run: Option<Run>, items: seq<Item>, prompts: seq<Prompt>)
    : Result<Tables, Error>
  {
    if run.Some? && run.value.session != sid then Err(Conflict)
    else
      match (if run.Some? then WriteRun(db, run.value) else Ok(db))
      case Err(e) => Err(e)
      case Ok(db2) =>
        match WriteItems(db2, sid, items)
        case Err(e) => Err(e)
        case Ok(db3) => WritePrompts(db3, sid, prompts)
  }

  function SaveProgress(db: Tables, session: Session, expected: int, run: Option<Run>,
                        items: seq<Item>, prompts: seq<Prompt>): Result<Tables, Error>
  {
    match WriteSession(db, session, expected, false)
    case Err(e) => Err(e)
    case Ok(next) => SaveRows(next, session.id, run, items, prompts)
  }

  /** The tombstone, and the cascade. */
  function Delete(db: Tables, sid: string): Tables {
    Tables(db.sessions - {sid},
           map k | k in db.runs && k.0 != sid :: db.runs[k],
           map k | k in db.items && k.0 != sid :: db.items[k],
           map k | k in db.prompts && k.0 != sid :: db.prompts[k],
           db.deleted + {sid})
  }

  function RestartedRun(run: Run, now: int): Run {
    if ActiveRun(run.status) then run.(status := Interrupted, finishedAt := Some(now), error := Some(RESTARTED))
    else run
  }

  function RestartedPrompt(prompt: Prompt): Prompt {
    if OpenPrompt(prompt.status) then prompt.(status := Expired) else prompt
  }

  /** The rows a new process finds after `_initialize_schema`. */
  function Restart(db: Tables, now: int): Tables {
    db.(runs := map k | k in db.runs :: RestartedRun(db.runs[k], now),
        prompts := map k | k in db.prompts :: RestartedPrompt(db.prompts[k]))
  }
}
