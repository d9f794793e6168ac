/** The store object of runtime/code_sessions_sqlite.py: tables changed row by row inside a transaction that is
    rolled back when any step raises. */
module SessionStore {
  import opened Options
  import opened Ordering
  import opened SessionRows

  class SQLiteCodeStore {
    var sessions: map<string, Session>
    var runs: map<Key, Run>
    var items: map<Key, Item>
    var prompts: map<Key, Prompt>
    var deleted: set<string>

    function View(): Tables
      reads this
    {
      Tables(sessions, runs, items, prompts, deleted)
    }

    constructor ()
      ensures View() == NO_ROWS
    {
      sessions, runs, items, prompts, deleted := map[], map[], map[], map[], {};
    }

    /** What `with connection:` does when the body raises. */
    method Rollback(saved: Tables)
      modifies this
      ensures View() == saved
    {
      sessions, runs, items, prompts, deleted := saved.sessions, saved.runs, saved.items, saved.prompts, saved.deleted;
    }

    // ----- Rows -----

    method UpdateSessionRow(session: Session, expected: int, settings: bool) returns (error: Option<Error>)
      modifies this
      ensures match WriteSession(old(View()), session, expected, settings)
              case Ok(after) => error.None? && View() == after
              case Err(e) => error == Some(e) && View() == old(View())
    {
      if session.id !in sessions {
        return Some(NotFound);
      }
      var row := sessions[session.id];
      if row.revision != expected || (session.revision != expected && session.revision != expected + 1) {
        return Some(Conflict);
      }
      if settings {
        row := row.(title := session.title, autoTitle := session.autoTitle, model := session.model,
                    effort := session.effort);
      } else {
        row := row.(nativeThread := session.nativeThread, mayHaveInput := session.mayHaveInput,
                    status := session.status, error := session.error);
      }
      sessions := sessions[session.id := row.(revision := session.revision, updatedAt := session.updatedAt)];
      error := None;
    }

    method UpdateRunRow(run: Run) returns (error: Option<Error>)
      modifies this
      ensures match WriteRun(old(View()), run)
              case Ok(after) => error.None? && View() == after
              case Err(e) => error == Some(e) && View() == old(View())
    {
      var key := (run.session, run.id);
      if key !in runs {
        return Some(NotFound);
      }
      var previous := runs[key];
      if !RunAccepts(previous, run) {
        return Some(Conflict);
      }
      var row := run.(createdAt := previous.createdAt);
      if !RunFits(View(), row) {
        return Some(Conflict);
      }
      runs := runs[key := row];
      error := None;
    }

    /** Insert or update. */
    method PutItemRow(item: Item) returns (error: Option<Error>)
      modifies this
      ensures match WriteItem(old(View()), item)
              case Ok(after) => error.None? && View() == after
              case Err(e) => error == Some(e) && View() == old(View())
    {
      var key := (item.session, item.id);
      if key in items && !ItemAccepts(items[key], item) {
        return Some(Conflict);
      }
      if !ItemFits(View(), item) {
        return Some(Conflict);
      }
      items := items[key := item];
      error := None;
    }

    /** Insert or update. */
    method PutPromptRow(prompt: Prompt) returns (error: Option<Error>)
      modifies this
      ensures match WritePrompt(old(View()), prompt)
              case Ok(after) => error.None? && View() == after
              case Err(e) => error == Some(e) && View() == old(View())
    {
      var key := (prompt.session, prompt.id);
      if key in prompts && !PromptAccepts(prompts[key], prompt) {
        return Some(Conflict);
      }
      if !PromptFits(View(), prompt) {
        return Some(Conflict);
      }
      prompts := prompts[key := prompt];
      error := None;
    }

    method PutItemRows(sid: string, rows: seq<Item>) returns (error: Option<Error>)
      modifies this
      ensures match WriteItems(old(View()), sid, rows)
              case Ok(after) => error.None? && View() == after
              case Err(e) => error == Some(e)
    {
      var i := 0;
      while i < |rows|
        invariant 0 <= i <= |rows|
        invariant WriteItems(View(), sid, rows[i..]) == WriteItems(old(View()), sid, rows)
      {
        assert rows[i..][0] == rows[i] && rows[i..][1..] == rows[i + 1..];
        if rows[i].session != sid {
          return Some(Conflict);
        }
        error := PutItemRow(rows[i]);
        if error.Some? {
          return;
        }
        i := i + 1;
      }
      error := None;
    }

    method PutPromptRows(sid: string, rows: seq<Prompt>) returns (error: Option<Error>)
      modifies this
      ensures match WritePrompts(old(View()), sid, rows)
              case Ok(after) => error.None? && View() == after
              case Err(e) => error == Some(e)
    {
      var i := 0;
      while i < |rows|
        invariant 0 <= i <= |rows|
        invariant WritePrompts(View(), sid, rows[i..]) == WritePrompts(old(View()), sid, rows)
      {
        assert rows[i..][0] == rows[i] && rows[i..][1..] == rows[i + 1..];
        if rows[i].session != sid {
          return Some(Conflict);
        }
        error := PutPromptRow(rows[i]);
        if error.Some? {
          return;
        }
        i := i + 1;
      }
      error := None;
    }

    // ----- Transactions -----

    method CreateSession(session: Session) returns (result: Result<Session, Error>)
      modifies this
      ensures match Create(old(View()), session)
              case Ok(done) => result == Ok(done.value) && View() == done.db
              case Err(e) => result == Err(e) && View() == old(View())
    {
      if session.id in deleted {
        return Err(Conflict);
      }
      if session.id in sessions {
        if sessions[session.id].cwd != session.cwd {
          return Err(Conflict);
        }
        return Ok(sessions[session.id]);
      }
      if session.revision <= 0 {
        return Err(Conflict);
      }
      sessions := sessions[session.id := session];
      result := Ok(session);
    }

    method ChangeSettings(session: Session, expected: int) returns (result: Result<Session, Error>)
      modifies this
      ensures match UpdateSettings(old(View()), session, expected)
              case Ok(done) => result == Ok(done.value) && View() == done.db
              case Err(e) => result == Err(e) && View() == old(View())
    {
      if session.id !in sessions {
        return Err(NotFound);
      }
      var previous := sessions[session.id];
      if !previous.status.Ready? {
        return Err(Conflict);
      }
      if (previous.model != session.model || previous.effort != session.effort) && Busy(View(), session.id) {
        return Err(Conflict);
      }
      var error := UpdateSessionRow(session, expected, true);
      if error.Some? {
        return Err(error.value);
      }
      result := Ok(sessions[session.id]);
    }

    /** `SELECT coalesce(max(ordinal), 0) + 1`, by looking at every run. */
    method FindNextOrdinal(sid: string) returns (ordinal: int)
      ensures ordinal == NextOrdinal(View(), sid)
    {
      ghost var used := Ordinals(runs, sid);
      var greatest := None;
      var rest := runs.Keys;
      while rest != {}
        invariant rest <= runs.Keys
        invariant greatest.None? ==> forall k :: k in runs && k !in rest ==> k.0 != sid
        invariant greatest.Some? ==> greatest.value in used
        invariant greatest.Some? ==>
                    forall k :: k in runs && k !in rest && k.0 == sid ==> runs[k].ordinal <= greatest.value
        decreases rest
      {
        var k :| k in rest;
        if k.0 == sid && (greatest.None? || greatest.value < runs[k].ordinal) {
          greatest := Some(runs[k].ordinal);
        }
        rest := rest - {k};
      }
      if greatest.Some? {
        assert Greatest(used, greatest.value);
        ordinal := greatest.value + 1;
      } else {
        ordinal := 1;
      }
    }

    method Admit(session: Session, run: Run, item: Item, expected: int) returns (result: Result<(Session, Run), Error>)
      modifies this
      ensures match AdmitRun(old(View()), session, run, item, expected)
              case Ok(done) => result == Ok(done.value) && View() == done.db
              case Err(e) => result == Err(e) && View() == old(View())
    {
      var saved := View();
      result := AdmitBody(session, run, item, expected);
      if result.Err? {
        Rollback(saved);
      }
    }

    /** The body of the transaction; when it raises, rows may be half written. */
    method AdmitBody(session: Session, run: Run, item: Item, expected: int)
      returns (result: Result<(Session, Run), Error>)
      modifies this
      ensures match AdmitRun(old(View()), session, run, item, expected)
              case Ok(done) => result == Ok(done.value) && View() == done.db
              case Err(e) => result == Err(e)
    {
      if session.id !in sessions {
        return Err(NotFound);
      }
      var previous := sessions[session.id];
      var key := (session.id, run.id);
      if key in runs {
        if runs[key].text != run.text {
          return Err(Conflict);
        }
        return Ok((previous, runs[key]));
      }
      if !previous.status.Ready? || previous.model != run.model || run.session != session.id
         || Busy(View(), session.id) {
        return Err(Conflict);
      }
      var error := UpdateSessionRow(session, expected, true);
      if error.Some? {
        return Err(error.value);
      }
      var ordinal := FindNextOrdinal(session.id);
      var admitted := run.(ordinal := ordinal);
      if item.session != session.id || item.run != run.id || item.id != run.id || item.kind != "user" {
        return Err(Conflict);
      }
      if !RunFits(View(), admitted) {
        return Err(Conflict);
      }
      runs := runs[key := admitted];
      if (item.session, item.id) in items || !ItemFits(View(), item) {
        return Err(Conflict);
      }
      items := items[(item.session, item.id) := item];
      result := Ok((sessions[session.id], admitted));
    }

    method Claim(sid: string, pid: string, response: string, generation: string) returns (result: Result<Prompt, Error>)
      modifies this
      ensures match ClaimPrompt(old(View()), sid, pid, response, generation)
              case Ok(done) => result == Ok(done.value) && View() == done.db
              case Err(e) => result == Err(e) && View() == old(View())
    {
      if (sid, pid) !in prompts {
        return Err(NotFound);
      }
      var prompt := prompts[(sid, pid)];
      if prompt.response == Some(response) {
        return Ok(prompt);
      }
      if !prompt.status.Pending? || prompt.generation != generation {
        return Err(Conflict);
      }
      var claimed := prompt.(status := Answering, response := Some(response));
      var error := PutPromptRow(claimed);
      if error.Some? {
        return Err(error.value);
      }
      result := Ok(claimed);
    }

    /** All of it or nothing. */
    method Save(session: Session, expected: int, run: Option<Run>, newItems: seq<Item>, newPrompts: seq<Prompt>)
      returns (error: Option<Error>)
      modifies this
      ensures match SaveProgress(old(View()), session, expected, run, newItems, newPrompts)
              case Ok(after) => error.None? && View() == after
              case Err(e) => error == Some(e) && View() == old(View())
    {
      var saved := View();
      error := SaveBody(session, expected, run, newItems, newPrompts);
      if error.Some? {
        Rollback(saved);
      }
    }

    method SaveBody(session: Session, expected: int, run: Option<Run>, newItems: seq<Item>, newPrompts: seq<Prompt>)
      returns (error: Option<Error>)
      modifies this
      ensures match SaveProgress(old(View()), session, expected, run, newItems, newPrompts)
              case Ok(after) => error.None? && View() == after
              case Err(e) => error == Some(e)
    {
      error := UpdateSessionRow(session, expected, false);
      if error.Some? {
        return;
      }
      if run.Some? {
        if run.value.session != session.id {
          return Some(Conflict);
        }
        error := UpdateRunRow(run.value);
        if error.Some? {
          return;
        }
      }
      error := PutItemRows(session.id, newItems);
      if error.Some? {
        return;
      }
      error := PutPromptRows(session.id, newPrompts);
    }

    /** Leave a tombstone and delete the session with everything under it. */
    method DeleteSession(sid: string)
      modifies this
      ensures View() == Delete(old(View()), sid)
    {
      deleted := deleted + {sid};
      sessions := sessions - {sid};
      runs := map k | k in runs && k.0 != sid :: runs[k];
      items := map k | k in items && k.0 != sid :: items[k];
      prompts := map k | k in prompts && k.0 != sid :: prompts[k];
    }

    /** The two UPDATE statements of `_initialize_schema`, row by row. */
    method InitializeSchema(now: int)
      modifies this
      ensures View() == Restart(old(View()), now)
    {
      InterruptRuns(now);
      ExpirePrompts();
    }

    method InterruptRuns(now: int)
      modifies this`runs
      ensures runs == map k | k in old(runs) :: RestartedRun(old(runs)[k], now)
    {
      var rest := runs.Keys;
      while rest != {}
        invariant runs.Keys == old(runs).Keys && rest <= runs.Keys
        invariant forall k :: k in runs ==>
                    runs[k] == if k in rest then old(runs)[k] else RestartedRun(old(runs)[k], now)
        decreases rest
      {
        var k :| k in rest;
        if ActiveRun(runs[k].status) {
          runs := runs[k := runs[k].(status := Interrupted, finishedAt := Some(now), error := Some(RESTARTED))];
        }
        rest := rest - {k};
      }
    }

    method ExpirePrompts()
      modifies this`prompts
      ensures prompts == map k | k in old(prompts) :: RestartedPrompt(old(prompts)[k])
    {
      var rest := prompts.Keys;
      while rest != {}
        invariant prompts.Keys == old(prompts).Keys && rest <= prompts.Keys
        invariant forall k :: k in prompts ==>
                    prompts[k] == if k in rest then old(prompts)[k] else RestartedPrompt(old(prompts)[k])
        decreases rest
      {
        var k :| k in rest;
        if OpenPrompt(prompts[k].status) {
          prompts := prompts[k := prompts[k].(status := Expired)];
        }
        rest := rest - {k};
      }
    }
  }
}
