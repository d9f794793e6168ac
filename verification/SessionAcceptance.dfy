/** Which calls the session store accepts, and what the accepted ones store. A refused call changes nothing. */
module SessionAcceptance {
  import opened Options
  import opened SessionRows
  import opened SessionHistory
  import opened SessionTheorems

  /** The writer read the current revision, and moves it by at most one. */
  predicate ReadCurrent(db: Tables, session: Session, expected: int) {
    && session.id in db.sessions && db.sessions[session.id].revision == expected
    && (session.revision == expected || session.revision == expected + 1)
  }

  // ----- Creating a session -----

  /** A deleted id is refused for ever; a known one is answered with what is stored, if the directory agrees; a new
      one is stored as sent, if its revision is positive. */
  lemma CreateIff(db: Tables, session: Session)
    requires StoreInv(db)
    ensures var result, known := Create(db, session), session.id in db.sessions;
            && (result.Ok? <==>
                  && session.id !in db.deleted
                  && (if known then db.sessions[session.id].cwd == session.cwd else 0 < session.revision))
            && (result.Ok? && known ==> result.value == Done(db, db.sessions[session.id]))
            && (result.Ok? && !known ==>
                  result.value == Done(db.(sessions := db.sessions[session.id := session]), session))
  {
  }

  // ----- Settings -----

  /** Title and automatic title may change whenever the session is ready and the writer read its current revision;
      model and effort only while nothing is in flight. The answer is the row as stored. */
  lemma SettingsIff(db: Tables, session: Session, expected: int)
    requires StoreInv(db)
    ensures var result := UpdateSettings(db, session, expected);
            && (result == Err(NotFound) <==> session.id !in db.sessions)
            && (result.Ok? <==>
                  && ReadCurrent(db, session, expected) && db.sessions[session.id].status.Ready?
                  && (!InFlight(db, session.id) || (db.sessions[session.id].model == session.model
                                                    && db.sessions[session.id].effort == session.effort)))
            && (result.Ok? ==>
                  && result.value.value == Resettled(db.sessions[session.id], session)
                  && result.value.db == db.(sessions := db.sessions[session.id := result.value.value]))
  {
    BusyIsInFlight(db, session.id);
  }

  // ----- Runs that were admitted before -----

  /** A run id that is known is never admitted a second time: the same text is answered with its row as it is now,
      another one is refused; a session that does not exist is not found. */
  lemma KnownRunsAreReplayed(db: Tables, session: Session, run: Run, item: Item, expected: int)
    requires StoreInv(db)
    ensures var result, k := AdmitRun(db, session, run, item, expected), (session.id, run.id);
            && (result == Err(NotFound) <==> session.id !in db.sessions)
            && (k in db.runs ==>
                  result == if db.runs[k].text == run.text then Ok(Done(db, (db.sessions[session.id], db.runs[k])))
                            else Err(Conflict))
  {
  }

  // ----- Answering a prompt -----

  /** No other prompt of the session was answered with this response id. */
  predicate ResponseIsFree(db: Tables, sid: string, pid: string, response: string) {
    forall k :: k in db.prompts && k.0 == sid && k.1 != pid ==> db.prompts[k].response != Some(response)
  }

  /** A prompt may be answered once, while it is pending, in its own generation, with a fresh response id; the same
      id again is answered with the row. It is then being answered, with that response, and nothing else moves. */
  lemma ClaimIff(db: Tables, sid: string, pid: string, response: string, generation: string)
    requires StoreInv(db)
    ensures var result, k := ClaimPrompt(db, sid, pid, response, generation), (sid, pid);
            && (result == Err(NotFound) <==> k !in db.prompts)
            && (result.Ok? <==>
                  k in db.prompts &&
                  (|| db.prompts[k].response == Some(response)
                   || (&& db.prompts[k].status.Pending? && db.prompts[k].generation == generation
                       && db.prompts[k].response.None? && ResponseIsFree(db, sid, pid, response))))
            && (result.Ok? ==>
                  result.value == if db.prompts[k].response == Some(response) then Done(db, db.prompts[k])
                                  else
                                    var row := db.prompts[k].(status := Answering, response := Some(response));
                                    Done(db.(prompts := db.prompts[k := row]), row))
  {
    if (sid, pid) in db.prompts {
      RequestIsOwn(db, (sid, pid));
    }
  }

  lemma RequestIsOwn(db: Tables, key: Key)
    requires StoreInv(db) && key in db.prompts
    ensures forall k :: k in db.prompts && k.0 == key.0 && k.1 != key.1 ==>
              db.prompts[k].generation != db.prompts[key].generation
              || db.prompts[k].request != db.prompts[key].request
  {
    forall k | k in db.prompts && k.0 == key.0 && k.1 != key.1
      ensures db.prompts[k].generation != db.prompts[key].generation
              || db.prompts[k].request != db.prompts[key].request
    {
      assert !SameRequest(db.prompts, k, key);
    }
  }

  // ----- Saving progress -----

  /** The run exists and goes on from what is stored; no other run has its native turn. */
  predicate RunGoes(db: Tables, sid: string, run: Run) {
    && run.session == sid && (sid, run.id) in db.runs
    && RunEvolves(db.runs[(sid, run.id)], run.(createdAt := db.runs[(sid, run.id)].createdAt))
    && (run.nativeTurn.Some? ==>
          forall k :: k in db.runs && k.0 == sid && k.1 != run.id ==> db.runs[k].nativeTurn != run.nativeTurn)
  }

  /** `w` may be stored after `v`: as its later version, or as another item beside it. */
  predicate ItemAfter(v: Item, w: Item) {
    if v.id == w.id then ItemEvolves(v, w)
    else
      && v.sequence != w.sequence
      && !(w.nativeTurn.Some? && w.nativeItem.Some? && v.nativeTurn == w.nativeTurn && v.nativeItem == w.nativeItem)
  }

  predicate ItemStands(db: Tables, sid: string, item: Item) {
    && item.session == sid && (sid, item.run) in db.runs && 0 < item.sequence
    && forall k :: k in db.items && k.0 == sid ==> ItemAfter(db.items[k], item)
  }

  /** Each item may follow everything stored and everything ahead of it in the list. */
  ghost predicate ItemsGo(db: Tables, sid: string, items: seq<Item>) {
    && (forall i :: 0 <= i < |items| ==> ItemStands(db, sid, items[i]))
    && (forall i, j :: 0 <= i < j < |items| ==> ItemAfter(items[i], items[j]))
  }

  predicate PromptAfter(v: Prompt, w: Prompt) {
    if v.id == w.id then PromptEvolves(v, w)
    else
      && !(v.generation == w.generation && v.request == w.request)
      && !(w.response.Some? && v.response == w.response)
  }

  predicate PromptStands(db: Tables, sid: string, prompt: Prompt) {
    prompt.session == sid && forall k :: k in db.prompts && k.0 == sid ==> PromptAfter(db.prompts[k], prompt)
  }

  ghost predicate PromptsGo(db: Tables, sid: string, prompts: seq<Prompt>) {
    && (forall i :: 0 <= i < |prompts| ==> PromptStands(db, sid, prompts[i]))
    && (forall i, j :: 0 <= i < j < |prompts| ==> PromptAfter(prompts[i], prompts[j]))
  }

  lemma RunWriteIff(db: Tables, sid: string, run: Run)
    requires StoreInv(db)
    ensures run.session == sid && WriteRun(db, run).Ok? <==> RunGoes(db, sid, run)
  {
    if run.session == sid && (sid, run.id) in db.runs && RunAccepts(db.runs[(sid, run.id)], run) {
      TransitionsKeepOneActive(db, run);
    }
  }

  lemma ItemWriteIff(db: Tables, item: Item)
    requires ItemsOk(db.items, db.runs.Keys, db.sessions.Keys) && item.session in db.sessions
    ensures WriteItem(db, item).Ok? <==> ItemStands(db, item.session, item)
  {
    var key := (item.session, item.id);
    forall k | k in db.items && k.0 == item.session ensures db.items[k].id == item.id <==> k == key {}
    if ItemStands(db, item.session, item) {
      forall k | k in db.items && k.0 == item.session ensures ItemAfter(db.items[k], item) {}
    }
  }

  /** What may follow the later version may follow the earlier one. */
  lemma ItemAfterBoth(v: Item, w: Item, later: Item)
    requires v.id == w.id && ItemAfter(v, w) && ItemAfter(w, later)
    ensures ItemAfter(v, later)
  {
  }

  lemma {:induction false} ItemWritesIff(db: Tables, sid: string, items: seq<Item>)
    requires ItemsOk(db.items, db.runs.Keys, db.sessions.Keys) && sid in db.sessions
    ensures WriteItems(db, sid, items).Ok? <==> ItemsGo(db, sid, items)
    decreases |items|
  {
    if items != [] && items[0].session == sid {
      ItemWriteIff(db, items[0]);
      if WriteItem(db, items[0]).Ok? {
        ItemWriteFits(db, items[0]);
        ItemWritesIff(PutItem(db, items[0]), sid, items[1..]);
        ItemsGoOn(db, sid, items);
      }
    }
  }

  lemma ItemsGoOn(db: Tables, sid: string, items: seq<Item>)
    requires ItemsOk(db.items, db.runs.Keys, db.sessions.Keys)
    requires items != [] && ItemStands(db, sid, items[0])
    ensures ItemsGo(db, sid, items) <==> ItemsGo(PutItem(db, items[0]), sid, items[1..])
  {
    var next := PutItem(db, items[0]);
    forall i | 1 <= i < |items|
      ensures ItemStands(next, sid, items[i]) <==> ItemStands(db, sid, items[i]) && ItemAfter(items[0], items[i])
    {
      ItemStandsOn(db, sid, items[0], items[i]);
    }
    if ItemsGo(next, sid, items[1..]) {
      forall i | 0 <= i < |items| ensures ItemStands(db, sid, items[i]) {
        if 0 < i { assert ItemStands(next, sid, items[1..][i - 1]); }
      }
      forall i, j | 0 <= i < j < |items| ensures ItemAfter(items[i], items[j]) {
        assert ItemStands(next, sid, items[1..][j - 1]);
        if 0 < i { assert ItemAfter(items[1..][i - 1], items[1..][j - 1]); }
      }
    }
  }

  lemma ItemStandsOn(db: Tables, sid: string, item: Item, later: Item)
    requires ItemsOk(db.items, db.runs.Keys, db.sessions.Keys) && ItemStands(db, sid, item)
    ensures ItemStands(PutItem(db, item), sid, later) <==> ItemStands(db, sid, later) && ItemAfter(item, later)
  {
    var key, next := (sid, item.id), PutItem(db, item);
    assert next.items[key] == item;
    if ItemStands(next, sid, later) {
      forall k | k in db.items && k.0 == sid ensures ItemAfter(db.items[k], later) {
        if k == key {
          ItemAfterBoth(db.items[k], item, later);
        } else {
          assert k in next.items && next.items[k] == db.items[k];
        }
      }
    }
  }

  lemma PromptWriteIff(db: Tables, prompt: Prompt)
    requires PromptsOk(db.prompts, db.sessions.Keys) && prompt.session in db.sessions
    ensures WritePrompt(db, prompt).Ok? <==> PromptStands(db, prompt.session, prompt)
  {
    var key := (prompt.session, prompt.id);
    forall k | k in db.prompts && k.0 == prompt.session ensures db.prompts[k].id == prompt.id <==> k == key {}
    if PromptStands(db, prompt.session, prompt) {
      forall k | k in db.prompts && k.0 == prompt.session ensures PromptAfter(db.prompts[k], prompt) {}
    }
  }

  lemma PromptAfterBoth(v: Prompt, w: Prompt, later: Prompt)
    requires v.id == w.id && PromptAfter(v, w) && PromptAfter(w, later)
    ensures PromptAfter(v, later)
  {
  }

  lemma {:induction false} PromptWritesIff(db: Tables, sid: string, prompts: seq<Prompt>)
    requires PromptsOk(db.prompts, db.sessions.Keys) && sid in db.sessions
    ensures WritePrompts(db, sid, prompts).Ok? <==> PromptsGo(db, sid, prompts)
    decreases |prompts|
  {
    if prompts != [] && prompts[0].session == sid {
      PromptWriteIff(db, prompts[0]);
      if WritePrompt(db, prompts[0]).Ok? {
        PromptWriteFits(db, prompts[0]);
        PromptWritesIff(PutPrompt(db, prompts[0]), sid, prompts[1..]);
        PromptsGoOn(db, sid, prompts);
      }
    }
  }

  lemma PromptsGoOn(db: Tables, sid: string, prompts: seq<Prompt>)
    requires PromptsOk(db.prompts, db.sessions.Keys)
    requires prompts != [] && PromptStands(db, sid, prompts[0])
    ensures PromptsGo(db, sid, prompts) <==> PromptsGo(PutPrompt(db, prompts[0]), sid, prompts[1..])
  {
    var next := PutPrompt(db, prompts[0]);
    forall i | 1 <= i < |prompts|
      ensures PromptStands(next, sid, prompts[i]) <==>
                PromptStands(db, sid, prompts[i]) && PromptAfter(prompts[0], prompts[i])
    {
      PromptStandsOn(db, sid, prompts[0], prompts[i]);
    }
    if PromptsGo(next, sid, prompts[1..]) {
      forall i | 0 <= i < |prompts| ensures PromptStands(db, sid, prompts[i]) {
        if 0 < i { assert PromptStands(next, sid, prompts[1..][i - 1]); }
      }
      forall i, j | 0 <= i < j < |prompts| ensures PromptAfter(prompts[i], prompts[j]) {
        assert PromptStands(next, sid, prompts[1..][j - 1]);
        if 0 < i { assert PromptAfter(prompts[1..][i - 1], prompts[1..][j - 1]); }
      }
    }
  }

  lemma PromptStandsOn(db: Tables, sid: string, prompt: Prompt, later: Prompt)
    requires PromptsOk(db.prompts, db.sessions.Keys) && PromptStands(db, sid, prompt)
    ensures PromptStands(PutPrompt(db, prompt), sid, later) <==>
              PromptStands(db, sid, later) && PromptAfter(prompt, later)
  {
    var key, next := (sid, prompt.id), PutPrompt(db, prompt);
    assert next.prompts[key] == prompt;
    if PromptStands(next, sid, later) {
      forall k | k in db.prompts && k.0 == sid ensures PromptAfter(db.prompts[k], later) {
        if k == key {
          PromptAfterBoth(db.prompts[k], prompt, later);
        } else {
          assert k in next.prompts && next.prompts[k] == db.prompts[k];
        }
      }
    }
  }

  /** A save is accepted exactly if the writer read the current revision, the run goes on from where it was, and
      every item and prompt may follow all that is stored and all that comes ahead of it in the same save. The order
      of the list matters no further, and no index on ordinals or active runs has a say. */
  lemma SaveIff(db: Tables, session: Session, expected: int, run: Option<Run>, items: seq<Item>, prompts: seq<Prompt>)
    requires StoreInv(db)
    ensures SaveProgress(db, session, expected, run, items, prompts).Ok? <==>
              && ReadCurrent(db, session, expected)
              && (run.Some? ==> RunGoes(db, session.id, run.value))
              && ItemsGo(db, session.id, items)
              && PromptsGo(db, session.id, prompts)
    ensures session.id !in db.sessions ==>
              SaveProgress(db, session, expected, run, items, prompts) == Err(NotFound)
  {
    if ReadCurrent(db, session, expected) {
      var db1 := WriteSession(db, session, expected, false).value;
      SessionWriteIsGood(db, session, expected, false);
      SaveRowsIff(db, db1, session.id, run, items, prompts);
    }
  }

  /** What comes after the session row. */
  lemma SaveRowsIff(db: Tables, db1: Tables, sid: string, run: Option<Run>, items: seq<Item>, prompts: seq<Prompt>)
    requires StoreInv(db1) && sid in db1.sessions && db1 == db.(sessions := db1.sessions)
    ensures var rest := SaveRows(db1, sid, run, items, prompts);
            rest.Ok? <==>
              && (run.Some? ==> RunGoes(db, sid, run.value)) && ItemsGo(db, sid, items) && PromptsGo(db, sid, prompts)
  {
    if run.Some? { RunWriteIff(db1, sid, run.value); }
    if run.Some? ==> RunGoes(db1, sid, run.value) {
      var db2 := if run.Some? then WriteRun(db1, run.value).value else db1;
      if run.Some? { RunWriteIsGood(db1, run.value); }
      assert db2.runs.Keys == db1.runs.Keys;
      ItemWritesIff(db2, sid, items);
      SameItemsGo(db, db2, sid, items);
      if ItemsGo(db, sid, items) {
        var db3 := WriteItems(db2, sid, items).value;
        ItemsLeaveTheRest(db2, sid, items);
        PromptWritesIff(db3, sid, prompts);
        SamePromptsGo(db, db3, sid, prompts);
      }
    }
  }

  lemma SameItemsGo(a: Tables, b: Tables, sid: string, items: seq<Item>)
    requires a.items == b.items && a.runs.Keys == b.runs.Keys
    ensures ItemsGo(a, sid, items) <==> ItemsGo(b, sid, items)
  {
    forall i | 0 <= i < |items| ensures ItemStands(a, sid, items[i]) <==> ItemStands(b, sid, items[i]) {}
  }

  lemma SamePromptsGo(a: Tables, b: Tables, sid: string, prompts: seq<Prompt>)
    requires a.prompts == b.prompts
    ensures PromptsGo(a, sid, prompts) <==> PromptsGo(b, sid, prompts)
  {
    forall i | 0 <= i < |prompts| ensures PromptStands(a, sid, prompts[i]) <==> PromptStands(b, sid, prompts[i]) {}
  }

  // ----- Deleting -----

  /** Deleting takes the rows of the one session and leaves all others. */
  lemma DeleteTakesOneSession(db: Tables, sid: string, other: string, k: Key)
    requires StoreInv(db)
    ensures var after := Delete(db, sid);
            && after.deleted == db.deleted + {sid}
            && (other in after.sessions <==> other in db.sessions && other != sid)
            && (other in after.sessions ==> after.sessions[other] == db.sessions[other])
            && (k in after.runs <==> k in db.runs && k.0 != sid)
            && (k in after.runs ==> after.runs[k] == db.runs[k])
            && (k in after.items <==> k in db.items && k.0 != sid)
            && (k in after.items ==> after.items[k] == db.items[k])
            && (k in after.prompts <==> k in db.prompts && k.0 != sid)
            && (k in after.prompts ==> after.prompts[k] == db.prompts[k])
  {
  }
}
