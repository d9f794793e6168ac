/** The session store over whole histories: transactions and restarts in any order, with any arguments. */
module SessionTheorems {
  import opened Options
  import opened SessionRows
  import opened SessionHistory

  datatype Call =
    | CreateCall(created: Session)
    | SettingsCall(settings: Session, expected: int)
    | AdmitCall(session: Session, admitted: Run, item: Item, expected: int)
    | ClaimCall(sid: string, pid: string, response: string, generation: string)
    | SaveCall(session: Session, expected: int, progress: Option<Run>, items: seq<Item>, prompts: seq<Prompt>)
    | DeleteCall(sid: string)
    | RestartCall(now: int)

  function TablesOf<T>(db: Tables, result: Result<Done<T>, Error>): Tables {
    if result.Ok? then result.value.db else db
  }

  /** The tables after a call; an error leaves them as they were. */
  ghost function After(db: Tables, call: Call): Tables {
    match call
    case CreateCall(session) => TablesOf(db, Create(db, session))
    case SettingsCall(session, expected) => TablesOf(db, UpdateSettings(db, session, expected))
    case AdmitCall(session, run, item, expected) => TablesOf(db, AdmitRun(db, session, run, item, expected))
    case ClaimCall(sid, pid, response, generation) => TablesOf(db, ClaimPrompt(db, sid, pid, response, generation))
    case SaveCall(session, expected, run, items, prompts) =>
      var result := SaveProgress(db, session, expected, run, items, prompts);
      if result.Ok? then result.value else db
    case DeleteCall(sid) => Delete(db, sid)
    case RestartCall(now) => Restart(db, now)
  }

  ghost function Play(db: Tables, calls: seq<Call>): Tables
    decreases |calls|
  {
    if calls == [] then db else Play(After(db, calls[0]), calls[1..])
  }

  // ----- Each call is good -----

  lemma SettingsAreGood(db: Tables, session: Session, expected: int)
    requires StoreInv(db)
    ensures Good(db, TablesOf(db, UpdateSettings(db, session, expected)))
  {
    if UpdateSettings(db, session, expected).Ok? {
      SessionWriteIsGood(db, session, expected, true);
    } else {
      Same(db);
    }
  }

  /** With `_idle` passed, the partial unique index and the ordinal index never refuse the new run. */
  lemma IndexesNeverFire(db: Tables, run: Run)
    requires StoreInv(db) && !Busy(db, run.session)
    ensures ActiveFits(db, run.(ordinal := NextOrdinal(db, run.session)))
    ensures OrdinalFits(db, run.(ordinal := NextOrdinal(db, run.session)))
  {
    NextOrdinalCounts(db, run.session);
    forall k | k in db.runs && k.0 == run.session ensures db.runs[k].ordinal != NextOrdinal(db, run.session) {
      OrdinalInRange(db.runs, k);
    }
  }

  lemma AdmitIsGood(db: Tables, session: Session, run: Run, item: Item, expected: int)
    requires StoreInv(db)
    ensures Good(db, TablesOf(db, AdmitRun(db, session, run, item, expected)))
  {
    var result := AdmitRun(db, session, run, item, expected);
    if result.Ok? && (session.id, run.id) !in db.runs {
      var next := WriteSession(db, session, expected, true).value;
      SessionWriteIsGood(db, session, expected, true);
      NextOrdinalCounts(next, session.id);
      var admitted := run.(ordinal := NextOrdinal(next, session.id));
      NewRunIsGood(next, admitted);
      GoodChain(db, next, PutRun(next, admitted));
      NewItemIsGood(PutRun(next, admitted), item);
      GoodChain(db, PutRun(next, admitted), result.value.db);
    } else {
      Same(db);
    }
  }

  lemma NewItemIsGood(db: Tables, item: Item)
    requires StoreInv(db) && ItemFits(db, item) && (item.session, item.id) !in db.items
    ensures Good(db, PutItem(db, item))
  {
    ItemWriteIsGood(db, item);
  }

  lemma ClaimIsGood(db: Tables, sid: string, pid: string, response: string, generation: string)
    requires StoreInv(db)
    ensures Good(db, TablesOf(db, ClaimPrompt(db, sid, pid, response, generation)))
  {
    var result := ClaimPrompt(db, sid, pid, response, generation);
    if result.Ok? && result.value.db != db {
      PromptWriteIsGood(db, result.value.value);
    } else {
      Same(db);
    }
  }

  lemma SaveIsGood(db: Tables, session: Session, expected: int, run: Option<Run>, items: seq<Item>,
                   prompts: seq<Prompt>)
    requires StoreInv(db) && SaveProgress(db, session, expected, run, items, prompts).Ok?
    ensures Good(db, SaveProgress(db, session, expected, run, items, prompts).value)
    ensures SaveProgress(db, session, expected, run, items, prompts).value.sessions
            == WriteSession(db, session, expected, false).value.sessions
  {
    var db1 := WriteSession(db, session, expected, false).value;
    SessionWriteIsGood(db, session, expected, false);
    var db2 := if run.Some? then WriteRun(db1, run.value).value else db1;
    if run.Some? {
      RunWriteIsGood(db1, run.value);
    } else {
      Same(db1);
    }
    GoodChain(db, db1, db2);
    var db3 := WriteItems(db2, session.id, items).value;
    ItemWritesAreGood(db2, session.id, items);
    GoodChain(db, db2, db3);
    PromptWritesAreGood(db3, session.id, prompts);
    GoodChain(db, db3, WritePrompts(db3, session.id, prompts).value);
  }

  lemma DeleteIsGood(db: Tables, sid: string)
    requires StoreInv(db)
    ensures Good(db, Delete(db, sid))
  {
    DeleteKeepsOrdinals(db, sid);
    DeleteKeepsOneActive(db, sid);
    DeleteKeepsRows(db, sid);
    DeleteKeepsRequests(db, sid);
    DeleteEvolves(db, sid);
  }

  lemma DeleteEvolves(db: Tables, sid: string)
    requires SessionsOk(db.sessions, db.deleted)
    ensures Evolves(db, Delete(db, sid))
  {
  }

  lemma DeleteKeepsRows(db: Tables, sid: string)
    requires SessionsOk(db.sessions, db.deleted) && RunsOk(db.runs, db.sessions.Keys)
    requires ItemsOk(db.items, db.runs.Keys, db.sessions.Keys) && PromptsOk(db.prompts, db.sessions.Keys)
    requires SequencesOk(db.items)
    ensures var after := Delete(db, sid);
            && SessionsOk(after.sessions, after.deleted) && RunsOk(after.runs, after.sessions.Keys)
            && ItemsOk(after.items, after.runs.Keys, after.sessions.Keys)
            && PromptsOk(after.prompts, after.sessions.Keys) && SequencesOk(after.items)
  {
  }

  lemma DeleteKeepsRequests(db: Tables, sid: string)
    requires RequestsOk(db.prompts)
    ensures RequestsOk(Delete(db, sid).prompts)
  {
    forall k, l | SameRequest(Delete(db, sid).prompts, k, l) ensures k == l {
      assert SameRequest(db.prompts, k, l);
    }
  }

  lemma DeleteKeepsOrdinals(db: Tables, sid: string)
    requires OrdinalsOk(db.runs)
    ensures OrdinalsOk(Delete(db, sid).runs)
  {
    var after := Delete(db, sid).runs;
    forall other ensures OrdinalsExact(after, other) {
      if other == sid {
        assert RunKeys(after, sid) == {};
        assert Ordinals(after, sid) == {};
      } else {
        assert OrdinalsExact(db.runs, other);
        assert RunKeys(after, other) == RunKeys(db.runs, other);
        SameOrdinals(db.runs, after, other);
      }
    }
  }

  lemma DeleteKeepsOneActive(db: Tables, sid: string)
    requires OneActive(db.runs)
    ensures OneActive(Delete(db, sid).runs)
  {
    forall k, l | BothActive(Delete(db, sid).runs, k, l) ensures k == l {
      assert BothActive(db.runs, k, l);
    }
  }

  lemma RestartIsGood(db: Tables, now: int)
    requires StoreInv(db)
    ensures Good(db, Restart(db, now))
  {
    RestartKeepsRuns(db, now);
    RestartEvolves(db, now);
    assert Restart(db, now).runs.Keys == db.runs.Keys;
    RestartKeepsRequests(db, now);
  }

  lemma RestartKeepsRuns(db: Tables, now: int)
    requires OrdinalsOk(db.runs) && OneActive(db.runs) && RunsOk(db.runs, db.sessions.Keys)
    ensures OrdinalsOk(Restart(db, now).runs) && OneActive(Restart(db, now).runs)
    ensures RunsOk(Restart(db, now).runs, db.sessions.Keys)
  {
    var after := Restart(db, now).runs;
    assert after.Keys == db.runs.Keys;
    OrdinalsSurvive(db.runs, after);
    forall k, l ensures !BothActive(after, k, l) {}
  }

  lemma RestartKeepsRequests(db: Tables, now: int)
    requires RequestsOk(db.prompts)
    ensures RequestsOk(Restart(db, now).prompts)
  {
    var after := Restart(db, now).prompts;
    forall k, l | SameRequest(after, k, l) ensures k == l { assert SameRequest(db.prompts, k, l); }
  }

  lemma RestartEvolves(db: Tables, now: int)
    ensures RunsEvolve(db.runs, Restart(db, now).runs, db.sessions.Keys)
    ensures PromptsEvolve(db.prompts, Restart(db, now).prompts, db.sessions.Keys)
    ensures PromptsOk(db.prompts, db.sessions.Keys) ==> PromptsOk(Restart(db, now).prompts, db.sessions.Keys)
  {
  }

  /** Every call keeps the store's invariant and only lets rows evolve. */
  lemma CallIsGood(db: Tables, call: Call)
    requires StoreInv(db)
    ensures Good(db, After(db, call))
  {
    match call
    case CreateCall(session) =>
      if session.id in db.sessions || session.id in db.deleted || session.revision <= 0 {
        Same(db);
      } else {
        NewSessionIsGood(db, session);
      }
    case SettingsCall(session, expected) => SettingsAreGood(db, session, expected);
    case AdmitCall(session, run, item, expected) => AdmitIsGood(db, session, run, item, expected);
    case ClaimCall(sid, pid, response, generation) => ClaimIsGood(db, sid, pid, response, generation);
    case SaveCall(session, expected, run, items, prompts) =>
      if SaveProgress(db, session, expected, run, items, prompts).Ok? {
        SaveIsGood(db, session, expected, run, items, prompts);
      } else {
        Same(db);
      }
    case DeleteCall(sid) => DeleteIsGood(db, sid);
    case RestartCall(now) => RestartIsGood(db, now);
  }

  lemma {:induction false} HistoryIsGood(db: Tables, calls: seq<Call>)
    requires StoreInv(db)
    ensures Good(db, Play(db, calls))
    decreases |calls|
  {
    if calls == [] {
      Same(db);
    } else {
      CallIsGood(db, calls[0]);
      HistoryIsGood(After(db, calls[0]), calls[1..]);
      GoodChain(db, After(db, calls[0]), Play(db, calls));
    }
  }

  lemma EmptyIsGood()
    ensures StoreInv(NO_ROWS)
  {
    forall sid ensures OrdinalsExact(NO_ROWS.runs, sid) {
      assert RunKeys(NO_ROWS.runs, sid) == {} && Ordinals(NO_ROWS.runs, sid) == {};
    }
  }

  // ----- Over any history from the empty database -----

  /** Each session has at most one active run, and its run ordinals are exactly 1..n for n runs. */
  lemma OneActiveRunAndExactOrdinals(calls: seq<Call>, sid: string)
    ensures var runs := Play(NO_ROWS, calls).runs;
            && (forall k, l :: BothActive(runs, k, l) ==> k == l)
            && (forall k, l :: k in runs && l in runs && k.0 == l.0 && runs[k].ordinal == runs[l].ordinal ==> k == l)
            && (forall i :: i in Ordinals(runs, sid) <==> 1 <= i <= |RunKeys(runs, sid)|)
  {
    EmptyIsGood();
    HistoryIsGood(NO_ROWS, calls);
    var runs := Play(NO_ROWS, calls).runs;
    assert OrdinalsExact(runs, sid);
    UptoIs(|RunKeys(runs, sid)|);
  }

  /** A run row, as long as its session exists, keeps its identity; its write-once columns stay written; once
      finished, its status, finish time and error stay. */
  lemma RunsOnlyEvolve(db: Tables, calls: seq<Call>, k: Key)
    requires StoreInv(db) && k in db.runs && k.0 in Play(db, calls).sessions
    ensures var later := Play(db, calls).runs;
            && k in later
            && RunEvolves(db.runs[k], later[k])
            && (RunStage(db.runs[k].status) == 3 ==>
                  later[k].status == db.runs[k].status && later[k].finishedAt == db.runs[k].finishedAt)
  {
    HistoryIsGood(db, calls);
  }

  // ----- Revisions -----

  /** One call moves the revision of a session that stays by at most one. */
  lemma RevisionStep(db: Tables, call: Call, sid: string)
    requires StoreInv(db) && sid in db.sessions && sid in After(db, call).sessions
    ensures db.sessions[sid].revision <= After(db, call).sessions[sid].revision <= db.sessions[sid].revision + 1
  {
    match call
    case SettingsCall(session, expected) =>
      if UpdateSettings(db, session, expected).Ok? { SessionWriteIsGood(db, session, expected, true); }
    case AdmitCall(session, run, item, expected) => AdmitSessions(db, session, run, item, expected);
    case ClaimCall(s, p, response, generation) => ClaimSessions(db, s, p, response, generation);
    case SaveCall(session, expected, run, items, prompts) =>
      if SaveProgress(db, session, expected, run, items, prompts).Ok? {
        SessionWriteIsGood(db, session, expected, false);
        SaveIsGood(db, session, expected, run, items, prompts);
      }
    case _ =>
  }

  lemma AdmitSessions(db: Tables, session: Session, run: Run, item: Item, expected: int)
    requires StoreInv(db)
    ensures var after := TablesOf(db, AdmitRun(db, session, run, item, expected));
            after.sessions == db.sessions
            || (WriteSession(db, session, expected, true).Ok?
                && after.sessions == WriteSession(db, session, expected, true).value.sessions)
    ensures WriteSession(db, session, expected, true).Ok? ==>
              var next := WriteSession(db, session, expected, true).value;
              forall sid :: sid in db.sessions ==>
                sid in next.sessions
                && db.sessions[sid].revision <= next.sessions[sid].revision <= db.sessions[sid].revision + 1
  {
    if WriteSession(db, session, expected, true).Ok? {
      SessionWriteIsGood(db, session, expected, true);
    }
  }

  lemma ClaimSessions(db: Tables, sid: string, pid: string, response: string, generation: string)
    ensures TablesOf(db, ClaimPrompt(db, sid, pid, response, generation)).sessions == db.sessions
  {
  }

  /** Once the revision a writer read has been passed, none of its writes is ever accepted again, whatever
      happens in between, restarts included; a run it admitted before is only ever answered by its receipt. */
  lemma StaleWritersAreRefused(db: Tables, calls: seq<Call>, session: Session, expected: int,
                               run: Run, item: Item, progress: Option<Run>, items: seq<Item>, prompts: seq<Prompt>)
    requires StoreInv(db) && session.id in db.sessions && expected < db.sessions[session.id].revision
    ensures var later := Play(db, calls);
            && UpdateSettings(later, session, expected).Err?
            && SaveProgress(later, session, expected, progress, items, prompts).Err?
            && (AdmitRun(later, session, run, item, expected).Ok? ==>
                  AdmitRun(later, session, run, item, expected).value.db == later
                  && (session.id, run.id) in later.runs)
  {
    HistoryIsGood(db, calls);
  }

  // ----- What accepted writes leave behind -----

  /** No later row of the list has the id of this one. */
  predicate ItemIsLast(items: seq<Item>, i: int) {
    0 <= i < |items| && forall j :: i < j < |items| ==> items[j].id != items[i].id
  }

  predicate ItemUnnamed(items: seq<Item>, sid: string, key: Key) {
    forall i :: 0 <= i < |items| ==> key != (sid, items[i].id)
  }

  lemma {:induction false} OtherItemsStay(db: Tables, sid: string, items: seq<Item>, key: Key)
    requires WriteItems(db, sid, items).Ok?
    requires ItemUnnamed(items, sid, key)
    ensures var after := WriteItems(db, sid, items).value.items;
            (key in after <==> key in db.items) && (key in after ==> after[key] == db.items[key])
    decreases |items|
  {
    if items != [] {
      assert key != (sid, items[0].id);
      forall i | 0 <= i < |items[1..]| ensures key != (sid, items[1..][i].id) {
        assert items[1..][i] == items[i + 1];
      }
      OtherItemsStay(WriteItem(db, items[0]).value, sid, items[1..], key);
    }
  }

  lemma {:induction false} LastItemStays(db: Tables, sid: string, items: seq<Item>, i: nat)
    requires WriteItems(db, sid, items).Ok? && ItemIsLast(items, i)
    ensures var after := WriteItems(db, sid, items).value.items;
            (sid, items[i].id) in after && after[(sid, items[i].id)] == items[i]
    decreases |items|
  {
    var next := WriteItem(db, items[0]).value;
    if i == 0 {
      forall j | 0 <= j < |items[1..]| ensures (sid, items[0].id) != (sid, items[1..][j].id) {
        assert items[1..][j] == items[j + 1];
      }
      OtherItemsStay(next, sid, items[1..], (sid, items[0].id));
    } else {
      LastItemStays(next, sid, items[1..], i - 1);
    }
  }

  /** No later row of the list has the id of this one. */
  predicate PromptIsLast(prompts: seq<Prompt>, i: int) {
    0 <= i < |prompts| && forall j :: i < j < |prompts| ==> prompts[j].id != prompts[i].id
  }

  predicate PromptUnnamed(prompts: seq<Prompt>, sid: string, key: Key) {
    forall i :: 0 <= i < |prompts| ==> key != (sid, prompts[i].id)
  }

  lemma {:induction false} OtherPromptsStay(db: Tables, sid: string, prompts: seq<Prompt>, key: Key)
    requires WritePrompts(db, sid, prompts).Ok?
    requires PromptUnnamed(prompts, sid, key)
    ensures var after := WritePrompts(db, sid, prompts).value.prompts;
            (key in after <==> key in db.prompts) && (key in after ==> after[key] == db.prompts[key])
    decreases |prompts|
  {
    if prompts != [] {
      assert key != (sid, prompts[0].id);
      forall i | 0 <= i < |prompts[1..]| ensures key != (sid, prompts[1..][i].id) {
        assert prompts[1..][i] == prompts[i + 1];
      }
      OtherPromptsStay(WritePrompt(db, prompts[0]).value, sid, prompts[1..], key);
    }
  }

  lemma {:induction false} LastPromptStays(db: Tables, sid: string, prompts: seq<Prompt>, i: nat)
    requires WritePrompts(db, sid, prompts).Ok? && PromptIsLast(prompts, i)
    ensures var after := WritePrompts(db, sid, prompts).value.prompts;
            (sid, prompts[i].id) in after && after[(sid, prompts[i].id)] == prompts[i]
    decreases |prompts|
  {
    var next := WritePrompt(db, prompts[0]).value;
    if i == 0 {
      forall j | 0 <= j < |prompts[1..]| ensures (sid, prompts[0].id) != (sid, prompts[1..][j].id) {
        assert prompts[1..][j] == prompts[j + 1];
      }
      OtherPromptsStay(next, sid, prompts[1..], (sid, prompts[0].id));
    } else {
      LastPromptStays(next, sid, prompts[1..], i - 1);
    }
  }

  lemma {:induction false} PromptsLeaveTheRest(db: Tables, sid: string, prompts: seq<Prompt>)
    requires WritePrompts(db, sid, prompts).Ok?
    ensures WritePrompts(db, sid, prompts).value == db.(prompts := WritePrompts(db, sid, prompts).value.prompts)
    decreases |prompts|
  {
    if prompts != [] { PromptsLeaveTheRest(WritePrompt(db, prompts[0]).value, sid, prompts[1..]); }
  }

  lemma {:induction false} ItemsLeaveTheRest(db: Tables, sid: string, items: seq<Item>)
    requires WriteItems(db, sid, items).Ok?
    ensures WriteItems(db, sid, items).value == db.(items := WriteItems(db, sid, items).value.items)
    decreases |items|
  {
    if items != [] { ItemsLeaveTheRest(WriteItem(db, items[0]).value, sid, items[1..]); }
  }

  /** Of each item the last version is stored; items that are not named stay. */
  ghost predicate ItemsStored(before: map<Key, Item>, after: map<Key, Item>, sid: string, items: seq<Item>) {
    && (forall i :: ItemIsLast(items, i) ==> (sid, items[i].id) in after && after[(sid, items[i].id)] == items[i])
    && (forall key :: ItemUnnamed(items, sid, key) ==>
          (key in after <==> key in before) && (key in after ==> after[key] == before[key]))
  }

  ghost predicate PromptsStored(before: map<Key, Prompt>, after: map<Key, Prompt>, sid: string, prompts: seq<Prompt>) {
    && (forall i :: PromptIsLast(prompts, i) ==>
          (sid, prompts[i].id) in after && after[(sid, prompts[i].id)] == prompts[i])
    && (forall key :: PromptUnnamed(prompts, sid, key) ==>
          (key in after <==> key in before) && (key in after ==> after[key] == before[key]))
  }

  lemma SavedItems(db: Tables, sid: string, items: seq<Item>)
    requires WriteItems(db, sid, items).Ok?
    ensures ItemsStored(db.items, WriteItems(db, sid, items).value.items, sid, items)
  {
    var after := WriteItems(db, sid, items).value.items;
    forall i | ItemIsLast(items, i)
      ensures (sid, items[i].id) in after && after[(sid, items[i].id)] == items[i]
    {
      LastItemStays(db, sid, items, i);
    }
    forall key | ItemUnnamed(items, sid, key)
      ensures (key in after <==> key in db.items) && (key in after ==> after[key] == db.items[key])
    {
      OtherItemsStay(db, sid, items, key);
    }
  }

  lemma SavedPrompts(db: Tables, sid: string, prompts: seq<Prompt>)
    requires WritePrompts(db, sid, prompts).Ok?
    ensures PromptsStored(db.prompts, WritePrompts(db, sid, prompts).value.prompts, sid, prompts)
  {
    var after := WritePrompts(db, sid, prompts).value.prompts;
    forall i | PromptIsLast(prompts, i)
      ensures (sid, prompts[i].id) in after && after[(sid, prompts[i].id)] == prompts[i]
    {
      LastPromptStays(db, sid, prompts, i);
    }
    forall key | PromptUnnamed(prompts, sid, key)
      ensures (key in after <==> key in db.prompts) && (key in after ==> after[key] == db.prompts[key])
    {
      OtherPromptsStay(db, sid, prompts, key);
    }
  }

  /** An accepted save stores all it was given: the last version of each item and prompt, the run as sent but
      for its creation time, the session's new state under its own title and model. Rows it does not name stay. */
  lemma SaveStoresEverything(db: Tables, session: Session, expected: int, run: Option<Run>, items: seq<Item>,
                             prompts: seq<Prompt>)
    requires SaveProgress(db, session, expected, run, items, prompts).Ok?
    ensures session.id in db.sessions && (run.Some? ==> (session.id, run.value.id) in db.runs)
    ensures var after := SaveProgress(db, session, expected, run, items, prompts).value;
            var was := db.sessions[session.id];
            && after.sessions == db.sessions[session.id :=
                 was.(nativeThread := session.nativeThread, mayHaveInput := session.mayHaveInput,
                      revision := session.revision, updatedAt := session.updatedAt, status := session.status,
                      error := session.error)]
            && (run.None? ==> after.runs == db.runs)
            && (run.Some? ==> var key := (session.id, run.value.id);
                  after.runs == db.runs[key := run.value.(createdAt := db.runs[key].createdAt)])
            && ItemsStored(db.items, after.items, session.id, items)
            && PromptsStored(db.prompts, after.prompts, session.id, prompts)
            && after.deleted == db.deleted
  {
    var db1 := WriteSession(db, session, expected, false).value;
    var db2 := if run.Some? then WriteRun(db1, run.value).value else db1;
    var db3 := WriteItems(db2, session.id, items).value;
    ItemsLeaveTheRest(db2, session.id, items);
    PromptsLeaveTheRest(db3, session.id, prompts);
    SavedItems(db2, session.id, items);
    SavedPrompts(db3, session.id, prompts);
  }

  /** The session under its new settings: nothing else of its row moves. */
  function Resettled(was: Session, session: Session): Session {
    was.(title := session.title, autoTitle := session.autoTitle, model := session.model, effort := session.effort,
         revision := session.revision, updatedAt := session.updatedAt)
  }

  /** An admission adds exactly the run, under the next ordinal, and its item; nothing else but the session's
      settings changes. */
  lemma AdmissionAddsTheRun(db: Tables, session: Session, run: Run, item: Item, expected: int)
    requires StoreInv(db) && AdmitRun(db, session, run, item, expected).Ok? && (session.id, run.id) !in db.runs
    ensures var after := AdmitRun(db, session, run, item, expected).value.db;
            && after.runs == db.runs[(session.id, run.id) := run.(ordinal := |RunKeys(db.runs, session.id)| + 1)]
            && (session.id, item.id) !in db.items
            && after.items == db.items[(session.id, item.id) := item]
            && after.prompts == db.prompts && after.deleted == db.deleted
            && after.sessions == db.sessions[session.id := Resettled(db.sessions[session.id], session)]
  {
    NextOrdinalCounts(db, session.id);
  }

  // ----- Replays -----

  /** Sending the same `create` again answers with the stored session and changes nothing. */
  lemma CreateReplays(db: Tables, session: Session, calls: seq<Call>)
    requires StoreInv(db) && Create(db, session).Ok?
    requires session.id in Play(Create(db, session).value.db, calls).sessions
    ensures var later := Play(Create(db, session).value.db, calls);
            Create(later, session) == Ok(Done(later, later.sessions[session.id]))
            && SessionEvolves(Create(db, session).value.value, later.sessions[session.id])
  {
    SessionsAfter(db, CreateCall(session), calls);
  }

  /** What later calls leave of the sessions a call leaves. */
  lemma SessionsAfter(db: Tables, call: Call, calls: seq<Call>)
    requires StoreInv(db)
    ensures var mid := After(db, call);
            var later := Play(mid, calls);
            && SessionsOk(mid.sessions, mid.deleted) && SessionsOk(later.sessions, later.deleted)
            && SessionsEvolve(mid.sessions, later.sessions, later.deleted)
            && mid.deleted <= later.deleted
  {
    CallIsGood(db, call);
    HistoryIsGood(After(db, call), calls);
  }

  /** Sending the same `admit_run` again, at any later time while the session exists, answers with the row of
      the very run admitted first and changes nothing. */
  lemma AdmitReplays(db: Tables, session: Session, run: Run, item: Item, expected: int, calls: seq<Call>)
    requires StoreInv(db) && AdmitRun(db, session, run, item, expected).Ok?
    requires session.id in Play(AdmitRun(db, session, run, item, expected).value.db, calls).sessions
    ensures var first := AdmitRun(db, session, run, item, expected).value;
            var later := Play(first.db, calls);
            && (session.id, run.id) in later.runs
            && AdmitRun(later, session, run, item, expected)
               == Ok(Done(later, (later.sessions[session.id], later.runs[(session.id, run.id)])))
            && RunEvolves(first.value.1, later.runs[(session.id, run.id)])
  {
    CallIsGood(db, AdmitCall(session, run, item, expected));
    HistoryIsGood(AdmitRun(db, session, run, item, expected).value.db, calls);
  }

  /** Answering a prompt again with the same response id succeeds and changes nothing; with another one it is
      refused for ever, whatever generation it claims. */
  lemma ClaimReplays(db: Tables, sid: string, pid: string, response: string, generation: string, calls: seq<Call>,
                     other: string, otherGeneration: string)
    requires StoreInv(db) && ClaimPrompt(db, sid, pid, response, generation).Ok?
    requires sid in Play(ClaimPrompt(db, sid, pid, response, generation).value.db, calls).sessions
    ensures var later := Play(ClaimPrompt(db, sid, pid, response, generation).value.db, calls);
            && (sid, pid) in later.prompts
            && later.prompts[(sid, pid)].response == Some(response)
            && ClaimPrompt(later, sid, pid, response, generation) == Ok(Done(later, later.prompts[(sid, pid)]))
            && (other != response ==> ClaimPrompt(later, sid, pid, other, otherGeneration).Err?)
  {
    var first := ClaimPrompt(db, sid, pid, response, generation).value;
    CallIsGood(db, ClaimCall(sid, pid, response, generation));
    HistoryIsGood(first.db, calls);
    assert (sid, pid) in first.db.prompts && first.db.prompts[(sid, pid)].response == Some(response);
    if other != response && ClaimPrompt(Play(first.db, calls), sid, pid, other, otherGeneration).Ok? {
      assert !PromptAccepts(Play(first.db, calls).prompts[(sid, pid)],
                            Play(first.db, calls).prompts[(sid, pid)].(status := Answering, response := Some(other)));
    }
  }

  /** After `delete` no later history brings any row of the session back, and its id is refused for ever;
      deleting again changes nothing. */
  lemma DeletedStaysDeleted(db: Tables, sid: string, calls: seq<Call>, session: Session)
    requires StoreInv(db) && session.id == sid
    ensures var later := Play(Delete(db, sid), calls);
            && sid !in later.sessions
            && (forall k :: k in later.runs || k in later.items || k in later.prompts ==> k.0 != sid)
            && Create(later, session) == Err(Conflict)
            && Delete(later, sid) == later
  {
    DeleteIsGood(db, sid);
    HistoryIsGood(Delete(db, sid), calls);
    var later := Play(Delete(db, sid), calls);
    assert sid in later.deleted;
    assert later.deleted + {sid} == later.deleted;
    assert Delete(later, sid).runs == later.runs;
    assert Delete(later, sid).items == later.items;
    assert Delete(later, sid).prompts == later.prompts;
    assert Delete(later, sid).sessions == later.sessions;
  }

  /** After a restart nothing is in flight. */
  lemma NothingInFlightAfterRestart(db: Tables, now: int, sid: string)
    ensures !InFlight(Restart(db, now), sid)
  {
    var after := Restart(db, now);
    forall l | l in after.runs ensures RunStage(after.runs[l].status) == 3 {}
    forall l | l in after.prompts ensures PromptStage(after.prompts[l].status) == 2 {}
  }

  /** After a restart nothing is in flight: every run that was unfinished is interrupted with the restart's error,
      every prompt that still waited has expired, and all else is untouched. */
  lemma RestartSettlesEverything(db: Tables, now: int, sid: string, k: Key)
    requires StoreInv(db)
    ensures !InFlight(Restart(db, now), sid)
    ensures var after := Restart(db, now);
            && after.sessions == db.sessions && after.items == db.items && after.deleted == db.deleted
            && after.runs.Keys == db.runs.Keys && after.prompts.Keys == db.prompts.Keys
            && (k in db.runs ==>
                  after.runs[k] == if RunStage(db.runs[k].status) == 3 then db.runs[k]
                                   else db.runs[k].(status := Interrupted, finishedAt := Some(now),
                                                    error := Some(RESTARTED)))
            && (k in db.prompts ==>
                  after.prompts[k] == if PromptStage(db.prompts[k].status) == 2 then db.prompts[k]
                                      else db.prompts[k].(status := Expired))
  {
    NothingInFlightAfterRestart(db, now, sid);
  }

  /** The sequence number and the native ids of a new item are still unused in its session. */
  predicate ItemIsFree(db: Tables, item: Item) {
    && 0 < item.sequence
    && (forall k :: k in db.items && k.0 == item.session ==> db.items[k].sequence != item.sequence)
    && (item.nativeTurn.Some? && item.nativeItem.Some? ==>
          forall k :: k in db.items && k.0 == item.session ==>
            db.items[k].nativeTurn != item.nativeTurn || db.items[k].nativeItem != item.nativeItem)
  }

  predicate CarriesRun(session: Session, run: Run, item: Item) {
    && run.session == session.id
    && item.session == session.id && item.run == run.id && item.id == run.id && item.kind == "user"
  }

  /** An admission that is not a replay goes through exactly when the session is ready and idle on the run's
      model, the writer read the current revision, the item carries the run, and its id, native ids and sequence
      number and the run's native turn are unused. No index on ordinals or active runs has a say. */
  lemma AdmissionIff(db: Tables, session: Session, run: Run, item: Item, expected: int)
    requires StoreInv(db) && session.id in db.sessions && (session.id, run.id) !in db.runs
    ensures AdmitRun(db, session, run, item, expected).Ok? <==>
              && db.sessions[session.id].status.Ready? && db.sessions[session.id].model == run.model
              && !InFlight(db, session.id)
              && db.sessions[session.id].revision == expected
              && (session.revision == expected || session.revision == expected + 1)
              && CarriesRun(session, run, item)
              && (run.nativeTurn.Some? ==>
                    forall k :: k in db.runs && k.0 == session.id ==> db.runs[k].nativeTurn != run.nativeTurn)
              && (session.id, item.id) !in db.items && ItemIsFree(db, item)
  {
    BusyIsInFlight(db, session.id);
    NewTurnFits(db, session.id, run);
    if !Busy(db, session.id) && WriteSession(db, session, expected, true).Ok? && CarriesRun(session, run, item)
       && (session.id, item.id) !in db.items {
      SessionWriteIsGood(db, session, expected, true);
      AdmissionFits(db, WriteSession(db, session, expected, true).value, run, item);
    }
  }

  lemma NewTurnFits(db: Tables, sid: string, run: Run)
    requires (sid, run.id) !in db.runs
    ensures run.session == sid ==>
              (TurnFits(db, run) <==>
                (run.nativeTurn.Some? ==>
                   forall k :: k in db.runs && k.0 == sid ==> db.runs[k].nativeTurn != run.nativeTurn))
  {
    forall k | k in db.runs && k.0 == sid ensures k.1 != run.id {
      assert k == (k.0, k.1);
    }
  }

  lemma AdmissionFits(db: Tables, next: Tables, run: Run, item: Item)
    requires StoreInv(next) && next == db.(sessions := next.sessions) && !Busy(db, run.session)
    requires run.session in next.sessions && (run.session, item.id) !in db.items
    requires item.session == run.session && item.run == run.id
    ensures var admitted := run.(ordinal := NextOrdinal(next, run.session));
            && (RunFits(next, admitted) <==> TurnFits(db, run))
            && (ItemFits(PutRun(next, admitted), item) <==> ItemIsFree(db, item))
  {
    IndexesNeverFire(next, run);
    forall k | k in db.items && k.0 == item.session ensures k.1 != item.id {
      assert k == (k.0, k.1);
    }
  }
}
