/** What every sequence of store transactions and restarts keeps. */
module SessionHistory {
  import opened SessionRows

  // ----- How far along a row is -----

  /** Preparing, running, stopping, finished; a finished run is finished for good, in one of three ways. */
  function RunStage(status: RunStatus): nat {
    match status
    case Preparing => 0
    case Running => 1
    case Stopping => 2
    case _ => 3
  }

  predicate RunGoesOn(from: RunStatus, to: RunStatus) {
    RunStage(from) <= RunStage(to) && (RunStage(from) == 3 ==> to == from)
  }

  function PromptStage(status: PromptStatus): nat {
    match status
    case Pending => 0
    case Answering => 1
    case _ => 2
  }

  predicate PromptGoesOn(from: PromptStatus, to: PromptStatus) {
    PromptStage(from) <= PromptStage(to) && (PromptStage(from) == 2 ==> to == from)
  }

  /** The session has an unfinished run, or a prompt that still waits. */
  predicate InFlight(db: Tables, sid: string) {
    || (exists k :: k in db.runs && k.0 == sid && RunStage(db.runs[k].status) < 3)
    || (exists k :: k in db.prompts && k.0 == sid && PromptStage(db.prompts[k].status) < 2)
  }

  lemma BusyIsInFlight(db: Tables, sid: string)
    ensures Busy(db, sid) <==> InFlight(db, sid)
  {
  }

  // ----- The invariant -----

  ghost function RunKeys(runs: map<Key, Run>, sid: string): set<Key> {
    set k | k in runs && k.0 == sid
  }

  ghost function Upto(n: nat): set<int> {
    if n == 0 then {} else Upto(n - 1) + {n}
  }

  lemma {:induction false} UptoIs(n: nat)
    ensures forall i :: i in Upto(n) <==> 1 <= i <= n
    ensures |Upto(n)| == n
  {
    if n > 0 {
      UptoIs(n - 1);
    }
  }

  ghost predicate SessionsOk(sessions: map<string, Session>, deleted: set<string>) {
    forall sid :: sid in sessions ==> sessions[sid].id == sid && 0 < sessions[sid].revision && sid !in deleted
  }

  /** Rows sit under their own keys, and under sessions and runs that exist. */
  ghost predicate RunsOk(runs: map<Key, Run>, sessions: set<string>) {
    forall k :: k in runs ==> runs[k].session == k.0 && runs[k].id == k.1 && k.0 in sessions
  }

  ghost predicate ItemsOk(items: map<Key, Item>, runs: set<Key>, sessions: set<string>) {
    forall k :: k in items ==>
      items[k].session == k.0 && items[k].id == k.1 && k.0 in sessions && (k.0, items[k].run) in runs
  }

  ghost predicate PromptsOk(prompts: map<Key, Prompt>, sessions: set<string>) {
    forall k :: k in prompts ==> prompts[k].session == k.0 && prompts[k].id == k.1 && k.0 in sessions
  }

  ghost predicate OrdinalsExact(runs: map<Key, Run>, sid: string) {
    Ordinals(runs, sid) == Upto(|RunKeys(runs, sid)|)
  }

  /** Run ordinals of a session are exactly 1..n, each used once. */
  ghost predicate OrdinalsOk(runs: map<Key, Run>) {
    && (forall sid :: OrdinalsExact(runs, sid))
    && (forall k, l :: k in runs && l in runs && k.0 == l.0 && runs[k].ordinal == runs[l].ordinal ==> k == l)
  }

  predicate BothActive(runs: map<Key, Run>, k: Key, l: Key) {
    k in runs && l in runs && k.0 == l.0 && RunStage(runs[k].status) < 3 && RunStage(runs[l].status) < 3
  }

  ghost predicate OneActive(runs: map<Key, Run>) {
    forall k, l :: BothActive(runs, k, l) ==> k == l
  }

  ghost predicate SequencesOk(items: map<Key, Item>) {
    forall k, l :: k in items && l in items && k.0 == l.0 && items[k].sequence == items[l].sequence ==> k == l
  }

  predicate SameRequest(prompts: map<Key, Prompt>, k: Key, l: Key) {
    && k in prompts && l in prompts && k.0 == l.0
    && prompts[k].generation == prompts[l].generation && prompts[k].request == prompts[l].request
  }

  /** No two prompts of a session ask for the same request of the same generation. */
  ghost predicate RequestsOk(prompts: map<Key, Prompt>) {
    forall k, l :: SameRequest(prompts, k, l) ==> k == l
  }

  ghost predicate StoreInv(db: Tables) {
    && SessionsOk(db.sessions, db.deleted)
    && RunsOk(db.runs, db.sessions.Keys)
    && ItemsOk(db.items, db.runs.Keys, db.sessions.Keys)
    && PromptsOk(db.prompts, db.sessions.Keys)
    && OrdinalsOk(db.runs)
    && OneActive(db.runs)
    && SequencesOk(db.items)
    && RequestsOk(db.prompts)
  }

  // ----- How rows may change -----

  predicate SessionEvolves(a: Session, b: Session) {
    b.id == a.id && b.cwd == a.cwd && b.createdAt == a.createdAt && a.revision <= b.revision
  }

  /** Identity never changes; the stop and submission flags and the native turn id are written once; a finished
      run keeps its status, finish time and error. */
  predicate RunEvolves(a: Run, b: Run) {
    && b.id == a.id && b.session == a.session && b.ordinal == a.ordinal && b.text == a.text
    && b.model == a.model && b.effort == a.effort && b.createdAt == a.createdAt
    && RunGoesOn(a.status, b.status)
    && (a.stopRequested ==> b.stopRequested)
    && (a.submissionStarted ==> b.submissionStarted)
    && (a.nativeTurn.Some? ==> b.nativeTurn == a.nativeTurn)
    && (RunStage(a.status) == 3 ==> b.finishedAt == a.finishedAt && (a.error.Some? ==> b.error == a.error))
  }

  predicate ItemEvolves(a: Item, b: Item) {
    && b.run == a.run && b.sequence == a.sequence && b.kind == a.kind
    && (a.complete ==> b.complete)
    && (a.nativeTurn.Some? ==> b.nativeTurn == a.nativeTurn)
    && (a.nativeItem.Some? ==> b.nativeItem == a.nativeItem)
  }

  predicate PromptEvolves(a: Prompt, b: Prompt) {
    && PromptGoesOn(a.status, b.status)
    && b.generation == a.generation && b.request == a.request && b.kind == a.kind
    && b.nativeTurn == a.nativeTurn && b.nativeItem == a.nativeItem
    && (a.response.Some? ==> b.response == a.response)
  }

  ghost predicate SessionsEvolve(a: map<string, Session>, b: map<string, Session>, deleted: set<string>) {
    forall sid :: sid in a ==> if sid in b then SessionEvolves(a[sid], b[sid]) else sid in deleted
  }

  ghost predicate RunsEvolve(a: map<Key, Run>, b: map<Key, Run>, sessions: set<string>) {
    forall k :: k in a && k.0 in sessions ==> k in b && RunEvolves(a[k], b[k])
  }

  ghost predicate ItemsEvolve(a: map<Key, Item>, b: map<Key, Item>, sessions: set<string>) {
    forall k :: k in a && k.0 in sessions ==> k in b && ItemEvolves(a[k], b[k])
  }

  ghost predicate PromptsEvolve(a: map<Key, Prompt>, b: map<Key, Prompt>, sessions: set<string>) {
    forall k :: k in a && k.0 in sessions ==> k in b && PromptEvolves(a[k], b[k])
  }

  /** From `a` to `b`: a session goes only by way of a tombstone, and while it stays, its rows stay and evolve. */
  ghost predicate Evolves(a: Tables, b: Tables) {
    && a.deleted <= b.deleted
    && SessionsEvolve(a.sessions, b.sessions, b.deleted)
    && RunsEvolve(a.runs, b.runs, b.sessions.Keys)
    && ItemsEvolve(a.items, b.items, b.sessions.Keys)
    && PromptsEvolve(a.prompts, b.prompts, b.sessions.Keys)
  }

  ghost predicate Good(a: Tables, b: Tables) {
    StoreInv(b) && Evolves(a, b)
  }

  lemma RunEvolvesOn(a: Run, b: Run, c: Run)
    requires RunEvolves(a, b) && RunEvolves(b, c)
    ensures RunEvolves(a, c)
  {
  }

  /** A session present at both ends was there in between: it could not outlive its own tombstone. */
  lemma SessionsStayOn(a: Tables, b: Tables, c: Tables)
    requires SessionsEvolve(a.sessions, b.sessions, b.deleted) && SessionsEvolve(b.sessions, c.sessions, c.deleted)
    requires SessionsOk(c.sessions, c.deleted) && b.deleted <= c.deleted
    ensures SessionsEvolve(a.sessions, c.sessions, c.deleted)
    ensures forall sid :: sid in a.sessions && sid in c.sessions ==> sid in b.sessions
  {
  }

  lemma RunsEvolveOn(a: map<Key, Run>, b: map<Key, Run>, c: map<Key, Run>, atB: set<string>, atC: set<string>)
    requires RunsEvolve(a, b, atB) && RunsEvolve(b, c, atC)
    requires forall k :: k in a && k.0 in atC ==> k.0 in atB
    ensures RunsEvolve(a, c, atC)
  {
    forall k | k in a && k.0 in atC ensures k in c && RunEvolves(a[k], c[k]) {
      RunEvolvesOn(a[k], b[k], c[k]);
    }
  }

  lemma ItemsEvolveOn(a: map<Key, Item>, b: map<Key, Item>, c: map<Key, Item>, atB: set<string>, atC: set<string>)
    requires ItemsEvolve(a, b, atB) && ItemsEvolve(b, c, atC)
    requires forall k :: k in a && k.0 in atC ==> k.0 in atB
    ensures ItemsEvolve(a, c, atC)
  {
    forall k | k in a && k.0 in atC ensures k in c && ItemEvolves(a[k], c[k]) {
      assert ItemEvolves(a[k], b[k]) && ItemEvolves(b[k], c[k]);
    }
  }

  lemma PromptsEvolveOn(a: map<Key, Prompt>, b: map<Key, Prompt>, c: map<Key, Prompt>,
                        atB: set<string>, atC: set<string>)
    requires PromptsEvolve(a, b, atB) && PromptsEvolve(b, c, atC)
    requires forall k :: k in a && k.0 in atC ==> k.0 in atB
    ensures PromptsEvolve(a, c, atC)
  {
    forall k | k in a && k.0 in atC ensures k in c && PromptEvolves(a[k], c[k]) {
      assert PromptEvolves(a[k], b[k]) && PromptEvolves(b[k], c[k]);
    }
  }

  /** Evolution is transitive. */
  lemma GoodChain(a: Tables, b: Tables, c: Tables)
    requires StoreInv(a) && Good(a, b) && Good(b, c)
    ensures Good(a, c)
  {
    SessionsStayOn(a, b, c);
    RunsEvolveOn(a.runs, b.runs, c.runs, b.sessions.Keys, c.sessions.Keys);
    ItemsEvolveOn(a.items, b.items, c.items, b.sessions.Keys, c.sessions.Keys);
    PromptsEvolveOn(a.prompts, b.prompts, c.prompts, b.sessions.Keys, c.sessions.Keys);
  }

  lemma RunsStay(runs: map<Key, Run>, sessions: set<string>)
    ensures RunsEvolve(runs, runs, sessions)
  {
  }

  lemma ItemsStay(items: map<Key, Item>, sessions: set<string>)
    ensures ItemsEvolve(items, items, sessions)
  {
  }

  lemma PromptsStay(prompts: map<Key, Prompt>, sessions: set<string>)
    ensures PromptsEvolve(prompts, prompts, sessions)
  {
  }

  lemma SessionsStay(sessions: map<string, Session>, deleted: set<string>)
    ensures SessionsEvolve(sessions, sessions, deleted)
  {
  }

  lemma Same(db: Tables)
    requires StoreInv(db)
    ensures Good(db, db)
  {
    SessionsStay(db.sessions, db.deleted);
    RunsStay(db.runs, db.sessions.Keys);
    ItemsStay(db.items, db.sessions.Keys);
    PromptsStay(db.prompts, db.sessions.Keys);
  }

  // ----- Ordinals -----

  /** The next ordinal is one more than the number of runs. */
  lemma NextOrdinalCounts(db: Tables, sid: string)
    requires OrdinalsOk(db.runs)
    ensures NextOrdinal(db, sid) == |RunKeys(db.runs, sid)| + 1
  {
    var n := |RunKeys(db.runs, sid)|;
    assert OrdinalsExact(db.runs, sid);
    UptoIs(n);
    if n > 0 {
      assert n in Upto(n);
    }
  }

  lemma OrdinalsWithNew(runs: map<Key, Run>, key: Key, run: Run)
    requires key !in runs
    ensures Ordinals(runs[key := run], key.0) == Ordinals(runs, key.0) + {run.ordinal}
    ensures RunKeys(runs[key := run], key.0) == RunKeys(runs, key.0) + {key}
  {
    var after := runs[key := run];
    forall o ensures o in Ordinals(after, key.0) <==> o in Ordinals(runs, key.0) || o == run.ordinal {
      if o in Ordinals(runs, key.0) {
        var k :| k in runs && k.0 == key.0 && runs[k].ordinal == o;
        assert k in after && after[k].ordinal == o;
      }
      if o == run.ordinal {
        assert key in after && after[key].ordinal == o;
      }
    }
  }

  lemma OrdinalsGrow(runs: map<Key, Run>, key: Key, run: Run)
    requires key !in runs && run.ordinal == |RunKeys(runs, key.0)| + 1
    requires OrdinalsExact(runs, key.0)
    ensures OrdinalsExact(runs[key := run], key.0)
  {
    OrdinalsWithNew(runs, key, run);
    assert key !in RunKeys(runs, key.0);
    assert |RunKeys(runs[key := run], key.0)| == |RunKeys(runs, key.0)| + 1;
  }

  lemma OtherOrdinalsStay(runs: map<Key, Run>, key: Key, run: Run, sid: string)
    requires sid != key.0
    ensures RunKeys(runs[key := run], sid) == RunKeys(runs, sid)
    ensures Ordinals(runs[key := run], sid) == Ordinals(runs, sid)
  {
    assert RunKeys(runs[key := run], sid) == RunKeys(runs, sid);
    SameOrdinals(runs, runs[key := run], sid);
  }

  lemma NewRunKeepsOrdinals(runs: map<Key, Run>, key: Key, run: Run)
    requires OrdinalsOk(runs) && key !in runs && run.ordinal == |RunKeys(runs, key.0)| + 1
    ensures OrdinalsOk(runs[key := run])
  {
    var after := runs[key := run];
    forall sid ensures OrdinalsExact(after, sid) {
      if sid == key.0 {
        OrdinalsGrow(runs, key, run);
      } else {
        assert OrdinalsExact(runs, sid);
        OtherOrdinalsStay(runs, key, run, sid);
      }
    }
    NewOrdinalIsUnused(runs, key, run);
  }

  lemma NewOrdinalIsUnused(runs: map<Key, Run>, key: Key, run: Run)
    requires OrdinalsOk(runs) && run.ordinal == |RunKeys(runs, key.0)| + 1
    ensures forall k :: k in runs && k.0 == key.0 ==> runs[k].ordinal != run.ordinal
  {
    forall k | k in runs && k.0 == key.0 ensures runs[k].ordinal != run.ordinal {
      OrdinalInRange(runs, k);
    }
  }

  lemma OrdinalInRange(runs: map<Key, Run>, k: Key)
    requires OrdinalsOk(runs) && k in runs
    ensures 1 <= runs[k].ordinal <= |RunKeys(runs, k.0)|
  {
    UptoIs(|RunKeys(runs, k.0)|);
    assert OrdinalsExact(runs, k.0);
    assert runs[k].ordinal in Ordinals(runs, k.0);
  }

  /** Runs with the same keys and ordinals have the same set of ordinals. */
  lemma SameOrdinals(a: map<Key, Run>, b: map<Key, Run>, sid: string)
    requires RunKeys(a, sid) == RunKeys(b, sid)
    requires forall k :: k in RunKeys(a, sid) ==> a[k].ordinal == b[k].ordinal
    ensures Ordinals(a, sid) == Ordinals(b, sid)
  {
    forall o ensures o in Ordinals(a, sid) <==> o in Ordinals(b, sid) {
      if o in Ordinals(a, sid) {
        var k :| k in a && k.0 == sid && a[k].ordinal == o;
        assert k in RunKeys(a, sid) && b[k].ordinal == o;
      }
      if o in Ordinals(b, sid) {
        var k :| k in b && k.0 == sid && b[k].ordinal == o;
        assert k in RunKeys(b, sid) && a[k].ordinal == o;
      }
    }
  }

  /** Changing runs without their keys and ordinals keeps the ordinals in order. */
  lemma OrdinalsSurvive(a: map<Key, Run>, b: map<Key, Run>)
    requires OrdinalsOk(a) && a.Keys == b.Keys
    requires forall k :: k in a ==> a[k].ordinal == b[k].ordinal
    ensures OrdinalsOk(b)
  {
    forall sid ensures OrdinalsExact(b, sid) {
      assert OrdinalsExact(a, sid);
      assert RunKeys(a, sid) == RunKeys(b, sid);
      SameOrdinals(a, b, sid);
    }
  }

  // ----- Row writes -----

  lemma SessionWriteIsGood(db: Tables, session: Session, expected: int, settings: bool)
    requires StoreInv(db) && WriteSession(db, session, expected, settings).Ok?
    ensures var after := WriteSession(db, session, expected, settings).value;
            && Good(db, after)
            && after == db.(sessions := after.sessions)
            && after.sessions.Keys == db.sessions.Keys
            && session.id in db.sessions && db.sessions[session.id].revision == expected
            && expected <= after.sessions[session.id].revision <= expected + 1
            && (forall sid :: sid in db.sessions && sid != session.id ==> after.sessions[sid] == db.sessions[sid])
  {
    var after := WriteSession(db, session, expected, settings).value;
    assert after.sessions.Keys == db.sessions.Keys;
    RunsStay(db.runs, db.sessions.Keys);
    ItemsStay(db.items, db.sessions.Keys);
    PromptsStay(db.prompts, db.sessions.Keys);
  }

  lemma NewSessionIsGood(db: Tables, session: Session)
    requires StoreInv(db) && session.id !in db.sessions && session.id !in db.deleted && 0 < session.revision
    ensures Good(db, PutSession(db, session))
  {
    var after := PutSession(db, session);
    NewSessionFits(db, session);
    RunsStay(db.runs, after.sessions.Keys);
    ItemsStay(db.items, after.sessions.Keys);
    PromptsStay(db.prompts, after.sessions.Keys);
  }

  lemma NewSessionFits(db: Tables, session: Session)
    requires session.id !in db.sessions && session.id !in db.deleted && 0 < session.revision
    requires SessionsOk(db.sessions, db.deleted) && RunsOk(db.runs, db.sessions.Keys)
    requires ItemsOk(db.items, db.runs.Keys, db.sessions.Keys) && PromptsOk(db.prompts, db.sessions.Keys)
    ensures var sessions := PutSession(db, session).sessions;
            && SessionsOk(sessions, db.deleted) && SessionsEvolve(db.sessions, sessions, db.deleted)
            && RunsOk(db.runs, sessions.Keys)
            && ItemsOk(db.items, db.runs.Keys, sessions.Keys)
            && PromptsOk(db.prompts, sessions.Keys)
  {
  }

  lemma NewRunIsGood(db: Tables, run: Run)
    requires StoreInv(db) && (run.session, run.id) !in db.runs && run.session in db.sessions
    requires run.ordinal == |RunKeys(db.runs, run.session)| + 1 && ActiveFits(db, run)
    ensures Good(db, PutRun(db, run))
  {
    NewRunKeepsOrdinals(db.runs, (run.session, run.id), run);
    NewRunKeepsOneActive(db, run);
    NewRunEvolves(db, run);
  }

  lemma NewRunEvolves(db: Tables, run: Run)
    requires (run.session, run.id) !in db.runs && SessionsOk(db.sessions, db.deleted)
    ensures Evolves(db, PutRun(db, run))
  {
    SessionsStay(db.sessions, db.deleted);
    ItemsStay(db.items, db.sessions.Keys);
    PromptsStay(db.prompts, db.sessions.Keys);
  }

  lemma NewRunKeepsOneActive(db: Tables, run: Run)
    requires OneActive(db.runs) && RunsOk(db.runs, db.sessions.Keys) && ActiveFits(db, run)
    ensures OneActive(PutRun(db, run).runs)
  {
    var key := (run.session, run.id);
    var after := PutRun(db, run).runs;
    forall k, l | BothActive(after, k, l) ensures k == l {
      if k != key && l != key {
        assert BothActive(db.runs, k, l);
      }
    }
  }

  /** What the transition table means for the index: a write it allows never makes a second active run, nor a
      second use of an ordinal. */
  lemma TransitionsKeepOneActive(db: Tables, run: Run)
    requires StoreInv(db) && (run.session, run.id) in db.runs
    requires RunAccepts(db.runs[(run.session, run.id)], run)
    ensures ActiveFits(db, MergedRun(db.runs[(run.session, run.id)], run))
    ensures OrdinalFits(db, MergedRun(db.runs[(run.session, run.id)], run))
  {
    var key := (run.session, run.id);
    OrdinalInRange(db.runs, key);
    forall k | k in db.runs && k.0 == run.session && k.1 != run.id
      ensures db.runs[k].ordinal != run.ordinal
      ensures ActiveRun(run.status) ==> !ActiveRun(db.runs[k].status)
    {
      assert k != key;
      assert !BothActive(db.runs, k, key);
    }
  }

  lemma RunWriteIsGood(db: Tables, run: Run)
    requires StoreInv(db) && WriteRun(db, run).Ok?
    ensures Good(db, WriteRun(db, run).value)
    ensures WriteRun(db, run).value == db.(runs := WriteRun(db, run).value.runs)
  {
    var previous := db.runs[(run.session, run.id)];
    NewRunKeepsOneActive(db, MergedRun(previous, run));
    OverwriteIsGood(db, MergedRun(previous, run));
  }

  lemma OverwriteIsGood(db: Tables, run: Run)
    requires StoreInv(db) && (run.session, run.id) in db.runs && OneActive(PutRun(db, run).runs)
    requires RunEvolves(db.runs[(run.session, run.id)], run)
    ensures Good(db, PutRun(db, run))
  {
    assert PutRun(db, run).runs.Keys == db.runs.Keys;
    OrdinalsSurvive(db.runs, PutRun(db, run).runs);
    OverwriteFits(db, run);
    SessionsStay(db.sessions, db.deleted);
    ItemsStay(db.items, db.sessions.Keys);
    PromptsStay(db.prompts, db.sessions.Keys);
  }

  lemma OverwriteFits(db: Tables, run: Run)
    requires RunsOk(db.runs, db.sessions.Keys) && (run.session, run.id) in db.runs
    requires RunEvolves(db.runs[(run.session, run.id)], run)
    ensures RunsOk(PutRun(db, run).runs, db.sessions.Keys)
    ensures RunsEvolve(db.runs, PutRun(db, run).runs, db.sessions.Keys)
  {
  }

  lemma ItemWriteKeepsSequences(db: Tables, item: Item)
    requires SequencesOk(db.items) && ItemFits(db, item)
    ensures SequencesOk(PutItem(db, item).items)
  {
    var after := PutItem(db, item).items;
    forall k, l | k in after && l in after && k.0 == l.0 && after[k].sequence == after[l].sequence ensures k == l {
      if k != (item.session, item.id) && l != (item.session, item.id) { assert k in db.items && l in db.items; }
    }
  }

  lemma ItemWriteIsGood(db: Tables, item: Item)
    requires StoreInv(db) && WriteItem(db, item).Ok?
    ensures Good(db, WriteItem(db, item).value)
    ensures WriteItem(db, item).value == db.(items := WriteItem(db, item).value.items)
  {
    ItemWriteKeepsSequences(db, item);
    ItemWriteFits(db, item);
    SessionsStay(db.sessions, db.deleted);
    RunsStay(db.runs, db.sessions.Keys);
    PromptsStay(db.prompts, db.sessions.Keys);
  }

  lemma ItemWriteFits(db: Tables, item: Item)
    requires ItemsOk(db.items, db.runs.Keys, db.sessions.Keys) && WriteItem(db, item).Ok?
    ensures ItemsOk(PutItem(db, item).items, db.runs.Keys, db.sessions.Keys)
    ensures ItemsEvolve(db.items, PutItem(db, item).items, db.sessions.Keys)
  {
  }

  lemma PromptWriteIsGood(db: Tables, prompt: Prompt)
    requires StoreInv(db) && WritePrompt(db, prompt).Ok?
    ensures Good(db, WritePrompt(db, prompt).value)
    ensures WritePrompt(db, prompt).value == db.(prompts := WritePrompt(db, prompt).value.prompts)
  {
    PromptWriteKeepsRequests(db, prompt);
    PromptWriteFits(db, prompt);
    SessionsStay(db.sessions, db.deleted);
    RunsStay(db.runs, db.sessions.Keys);
    ItemsStay(db.items, db.sessions.Keys);
  }

  lemma PromptWriteKeepsRequests(db: Tables, prompt: Prompt)
    requires RequestsOk(db.prompts) && PromptFits(db, prompt)
    ensures RequestsOk(PutPrompt(db, prompt).prompts)
  {
    var key, after := (prompt.session, prompt.id), PutPrompt(db, prompt).prompts;
    forall k, l | SameRequest(after, k, l) ensures k == l {
      if k != key && l != key { assert SameRequest(db.prompts, k, l); }
    }
  }

  lemma PromptWriteFits(db: Tables, prompt: Prompt)
    requires PromptsOk(db.prompts, db.sessions.Keys) && WritePrompt(db, prompt).Ok?
    ensures PromptsOk(PutPrompt(db, prompt).prompts, db.sessions.Keys)
    ensures PromptsEvolve(db.prompts, PutPrompt(db, prompt).prompts, db.sessions.Keys)
  {
  }

  lemma {:induction false} ItemWritesAreGood(db: Tables, sid: string, items: seq<Item>)
    requires StoreInv(db) && WriteItems(db, sid, items).Ok?
    ensures Good(db, WriteItems(db, sid, items).value)
    ensures WriteItems(db, sid, items).value.sessions == db.sessions
    decreases |items|
  {
    if items == [] {
      Same(db);
    } else {
      var next := WriteItem(db, items[0]).value;
      ItemWriteIsGood(db, items[0]);
      ItemWritesAreGood(next, sid, items[1..]);
      GoodChain(db, next, WriteItems(next, sid, items[1..]).value);
    }
  }

  lemma {:induction false} PromptWritesAreGood(db: Tables, sid: string, prompts: seq<Prompt>)
    requires StoreInv(db) && WritePrompts(db, sid, prompts).Ok?
    ensures Good(db, WritePrompts(db, sid, prompts).value)
    ensures WritePrompts(db, sid, prompts).value.sessions == db.sessions
    decreases |prompts|
  {
    if prompts == [] {
      Same(db);
    } else {
      var next := WritePrompt(db, prompts[0]).value;
      PromptWriteIsGood(db, prompts[0]);
      PromptWritesAreGood(next, sid, prompts[1..]);
      GoodChain(db, next, WritePrompts(next, sid, prompts[1..]).value);
    }
  }
}
