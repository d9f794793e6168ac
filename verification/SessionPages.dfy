/** list_sessions and item_page of runtime/code_sessions_sqlite.py on a fixed state of the tables. */
module SessionPages {
  import opened Options
  import opened KeyOrder
  import opened Paging
  import opened SessionRows
  import opened SessionHistory

  type PageKey = KeyOrder.Key

  // ----- Sessions, newest first -----

  function SessionKey(row: Session): PageKey {
    [row.updatedAt] + Codes(row.id)
  }

  /** The rows a query matches; the text search is the caller's `matches`. */
  ghost function Matching(db: Tables, matches: Session -> bool): set<Session> {
    set sid | sid in db.sessions && matches(db.sessions[sid]) :: db.sessions[sid]
  }

  lemma SessionsDiffer(db: Tables, matches: Session -> bool)
    requires SessionsOk(db.sessions, db.deleted)
    ensures Distinct(Matching(db, matches), SessionKey)
  {
    forall a, b | a in Matching(db, matches) && b in Matching(db, matches) && SessionKey(a) == SessionKey(b)
      ensures a == b
    {
      assert Codes(a.id) == SessionKey(a)[1..] == SessionKey(b)[1..] == Codes(b.id);
      CodesDiffer(a.id, b.id);
    }
  }

  ghost function ListSessions(db: Tables, matches: Session -> bool, cursor: Option<PageKey>, limit: nat): Page<Session>
    requires SessionsOk(db.sessions, db.deleted)
  {
    SessionsDiffer(db, matches);
    PageOf(Matching(db, matches), SessionKey, cursor, limit)
  }

  ghost function SessionsLeft(db: Tables, matches: Session -> bool, cursor: Option<PageKey>): nat
    requires SessionsOk(db.sessions, db.deleted)
  {
    SessionsDiffer(db, matches);
    |Descending(Below(Matching(db, matches), SessionKey, cursor), SessionKey)|
  }

  /** What a reader collects who asks for the next page while there is one. */
  ghost function Browse(db: Tables, matches: Session -> bool, cursor: Option<PageKey>, limit: nat): seq<Session>
    requires SessionsOk(db.sessions, db.deleted) && 0 < limit
    decreases SessionsLeft(db, matches, cursor)
  {
    var page := ListSessions(db, matches, cursor, limit);
    SessionsDiffer(db, matches);
    PageShowsAHead(Matching(db, matches), SessionKey, cursor, limit);
    page.rows + if page.next.Some? then Browse(db, matches, page.next, limit) else []
  }

  lemma {:induction false} BrowseIsDescending(db: Tables, matches: Session -> bool, cursor: Option<PageKey>, limit: nat)
    requires SessionsOk(db.sessions, db.deleted) && 0 < limit
    ensures Distinct(Matching(db, matches), SessionKey)
    ensures Browse(db, matches, cursor, limit)
            == Descending(Below(Matching(db, matches), SessionKey, cursor), SessionKey)
    decreases SessionsLeft(db, matches, cursor)
  {
    SessionsDiffer(db, matches);
    var list := Descending(Below(Matching(db, matches), SessionKey, cursor), SessionKey);
    PageShowsAHead(Matching(db, matches), SessionKey, cursor, limit);
    var page := ListSessions(db, matches, cursor, limit);
    if page.next.Some? {
      BrowseIsDescending(db, matches, page.next, limit);
      assert list == list[..limit] + list[limit..];
    }
  }

  ghost predicate ListsOnce<T(!new)>(list: seq<T>, rows: set<T>) {
    (forall x :: x in rows <==> x in list) && |list| == |rows|
  }

  /** Following the cursors ends, whatever the limit, and shows every matching session once, latest update
      first and the greater id first among equals. */
  lemma BrowsingShowsEverySession(db: Tables, matches: Session -> bool, limit: nat)
    requires StoreInv(db) && 0 < limit
    ensures ListsOnce(Browse(db, matches, None, limit), Matching(db, matches))
    ensures var list := Browse(db, matches, None, limit);
            forall i, j :: 0 <= i < j < |list| ==>
              list[j].updatedAt < list[i].updatedAt ||
              (list[j].updatedAt == list[i].updatedAt && Less(Codes(list[j].id), Codes(list[i].id)))
  {
    var rows := Matching(db, matches);
    BrowseIsDescending(db, matches, None, limit);
    assert Below(rows, SessionKey, None) == rows;
    DescendingLists(rows, SessionKey);
    var list := Browse(db, matches, None, limit);
    forall i, j | 0 <= i < j < |list|
      ensures list[j].updatedAt < list[i].updatedAt ||
              (list[j].updatedAt == list[i].updatedAt && Less(Codes(list[j].id), Codes(list[i].id)))
    {
      assert Less(SessionKey(list[j]), SessionKey(list[i]));
      assert SessionKey(list[j])[1..] == Codes(list[j].id);
      assert SessionKey(list[i])[1..] == Codes(list[i].id);
    }
  }

  // ----- A transcript, oldest first -----

  function ItemKey(runs: map<SessionRows.Key, Run>, row: Item): PageKey {
    if (row.session, row.run) in runs then [runs[(row.session, row.run)].ordinal, row.sequence] else []
  }

  /** The join of a session's items with their runs. */
  ghost function ItemsOf(db: Tables, sid: string): set<Item> {
    set k | k in db.items && k.0 == sid && (k.0, db.items[k].run) in db.runs :: db.items[k]
  }

  lemma ItemsDiffer(db: Tables, sid: string)
    requires StoreInv(db)
    ensures Distinct(ItemsOf(db, sid), row => ItemKey(db.runs, row))
  {
    forall a, b | a in ItemsOf(db, sid) && b in ItemsOf(db, sid) && ItemKey(db.runs, a) == ItemKey(db.runs, b)
      ensures a == b
    {
      assert ItemKey(db.runs, a)[1] == ItemKey(db.runs, b)[1];
      assert (a.session, a.id) == (b.session, b.id);
    }
  }

  function RunOrder(run: Run): PageKey {
    [run.ordinal]
  }

  ghost function Owners(db: Tables, sid: string, items: seq<Item>): set<Run> {
    set k | k in db.runs && k.0 == sid && (exists i :: i in items && i.run == k.1) :: db.runs[k]
  }

  lemma OwnersDiffer(db: Tables, sid: string, items: seq<Item>)
    requires StoreInv(db)
    ensures Distinct(Owners(db, sid, items), RunOrder)
  {
    forall a, b | a in Owners(db, sid, items) && b in Owners(db, sid, items) && RunOrder(a) == RunOrder(b)
      ensures a == b
    {
      assert RunOrder(a)[0] == RunOrder(b)[0];
      assert (a.session, a.id) == (b.session, b.id);
    }
  }

  ghost function OwnersInOrder(db: Tables, sid: string, items: seq<Item>): seq<Run>
    requires StoreInv(db)
  {
    OwnersDiffer(db, sid, items);
    Reverse(Descending(Owners(db, sid, items), RunOrder))
  }

  ghost function PageRows(db: Tables, sid: string, before: Option<PageKey>, limit: Option<nat>): Page<Item>
    requires StoreInv(db)
  {
    ItemsDiffer(db, sid);
    var key := row => ItemKey(db.runs, row);
    if limit.None? then Page(Descending(Below(ItemsOf(db, sid), key, before), key), None)
    else PageOf(ItemsOf(db, sid), key, before, limit.value)
  }

  datatype ItemPage = ItemPage(items: seq<Item>, runs: seq<Run>, next: Option<PageKey>)

  /** The page before a cursor, turned around so that it reads oldest first, and the runs it belongs to. */
  ghost function ItemPageOf(db: Tables, sid: string, before: Option<PageKey>, limit: Option<nat>): ItemPage
    requires StoreInv(db)
  {
    var page := PageRows(db, sid, before, limit);
    var items := Reverse(page.rows);
    ItemPage(items, OwnersInOrder(db, sid, items), page.next)
  }

  ghost function ItemsLeft(db: Tables, sid: string, before: Option<PageKey>): seq<Item>
    requires StoreInv(db)
  {
    ItemsDiffer(db, sid);
    var key := row => ItemKey(db.runs, row);
    Descending(Below(ItemsOf(db, sid), key, before), key)
  }

  lemma ItemPageIsATail(db: Tables, sid: string, before: Option<PageKey>, limit: nat)
    requires StoreInv(db) && 0 < limit
    ensures var page := ItemPageOf(db, sid, before, Some(limit));
            var list := ItemsLeft(db, sid, before);
            && page.items == Reverse(Take(list, limit))
            && (page.next.None? <==> |list| <= limit)
            && (page.next.Some? ==> ItemsLeft(db, sid, page.next) == list[limit..])
  {
    ItemsDiffer(db, sid);
    PageShowsAHead(ItemsOf(db, sid), row => ItemKey(db.runs, row), before, limit);
  }

  /** What a reader has who puts each older page before the newer ones. */
  ghost function Transcript(db: Tables, sid: string, before: Option<PageKey>, limit: nat): seq<Item>
    requires StoreInv(db) && 0 < limit
    decreases |ItemsLeft(db, sid, before)|
  {
    var page := ItemPageOf(db, sid, before, Some(limit));
    ItemPageIsATail(db, sid, before, limit);
    (if page.next.Some? then Transcript(db, sid, page.next, limit) else []) + page.items
  }

  /** Following the cursors ends, and whatever the limit the reader has what one unlimited page shows. */
  lemma {:induction false} TranscriptIsOnePage(db: Tables, sid: string, before: Option<PageKey>, limit: nat)
    requires StoreInv(db) && 0 < limit
    ensures Transcript(db, sid, before, limit) == ItemPageOf(db, sid, before, None).items
    decreases |ItemsLeft(db, sid, before)|
  {
    var page := ItemPageOf(db, sid, before, Some(limit));
    ItemPageIsATail(db, sid, before, limit);
    var list := ItemsLeft(db, sid, before);
    if page.next.Some? {
      TranscriptIsOnePage(db, sid, page.next, limit);
      ReverseInTwo(list, limit);
    }
  }

  predicate OwnedBy(runs: map<SessionRows.Key, Run>, row: Item) {
    (row.session, row.run) in runs
  }

  predicate Earlier(runs: map<SessionRows.Key, Run>, a: Item, b: Item) {
    OwnedBy(runs, a) && OwnedBy(runs, b) &&
    var ra, rb := runs[(a.session, a.run)].ordinal, runs[(b.session, b.run)].ordinal;
    ra < rb || (ra == rb && a.sequence < b.sequence)
  }

  /** The transcript holds every item of the session once, by run ordinal and then by sequence. */
  lemma TranscriptShowsEveryItem(db: Tables, sid: string, limit: nat)
    requires StoreInv(db) && 0 < limit
    ensures ListsOnce(Transcript(db, sid, None, limit), set k | k in db.items && k.0 == sid :: db.items[k])
    ensures var list := Transcript(db, sid, None, limit);
            forall i, j :: 0 <= i < j < |list| ==> Earlier(db.runs, list[i], list[j])
  {
    TranscriptIsOnePage(db, sid, None, limit);
    ItemsLeftListsAll(db, sid);
    var list := ItemsLeft(db, sid, None);
    ReverseLists(list);
    ReversedAscends(db.runs, list);
    assert ItemsOf(db, sid) == set k | k in db.items && k.0 == sid :: db.items[k];
  }

  lemma ReversedAscends(runs: map<SessionRows.Key, Run>, list: seq<Item>)
    requires forall i, j :: 0 <= i < j < |list| ==> Earlier(runs, list[j], list[i])
    ensures |Reverse(list)| == |list|
    ensures forall i, j :: 0 <= i < j < |list| ==> Earlier(runs, Reverse(list)[i], Reverse(list)[j])
  {
    ReverseLists(list);
    forall i, j | 0 <= i < j < |list| ensures Earlier(runs, Reverse(list)[i], Reverse(list)[j]) {
      ReverseAt(list, i);
      ReverseAt(list, j);
    }
  }

  lemma ItemsLeftListsAll(db: Tables, sid: string)
    requires StoreInv(db)
    ensures ListsOnce(ItemsLeft(db, sid, None), ItemsOf(db, sid))
    ensures var list := ItemsLeft(db, sid, None);
            forall i, j :: 0 <= i < j < |list| ==> Earlier(db.runs, list[j], list[i])
  {
    var key := row => ItemKey(db.runs, row);
    var rows := ItemsOf(db, sid);
    ItemsDiffer(db, sid);
    assert Below(rows, key, None) == rows;
    DescendingLists(rows, key);
    var list := ItemsLeft(db, sid, None);
    forall i, j | 0 <= i < j < |list| ensures Earlier(db.runs, list[j], list[i]) {
      assert list[i] in rows && list[j] in rows;
      PairsCompare(key(list[j]), key(list[i]));
    }
  }

  lemma PairsCompare(a: PageKey, b: PageKey)
    requires |a| == |b| == 2 && Less(a, b)
    ensures a[0] < b[0] || (a[0] == b[0] && a[1] < b[1])
  {
    assert Less(a[1..], b[1..]) ==> a[1] < b[1] || Less(a[1..][1..], b[1..][1..]);
  }

  /** Each page comes with exactly the runs its items belong to, in ordinal order. */
  lemma PageRunsOwnItsItems(db: Tables, sid: string, before: Option<PageKey>, limit: Option<nat>)
    requires StoreInv(db)
    ensures var page := ItemPageOf(db, sid, before, limit);
            && (forall run :: run in page.runs <==>
                  (sid, run.id) in db.runs && run == db.runs[(sid, run.id)]
                  && exists item :: item in page.items && item.run == run.id)
            && (forall i, j :: 0 <= i < j < |page.runs| ==> page.runs[i].ordinal < page.runs[j].ordinal)
  {
    var items := ItemPageOf(db, sid, before, limit).items;
    OwnersAscend(db, sid, items);
    forall run ensures run in Owners(db, sid, items) <==>
                         (sid, run.id) in db.runs && run == db.runs[(sid, run.id)]
                         && exists item :: item in items && item.run == run.id
    {
      OwnersAre(db, sid, items, run);
    }
  }

  lemma OwnersAre(db: Tables, sid: string, items: seq<Item>, run: Run)
    requires StoreInv(db)
    ensures run in Owners(db, sid, items) <==>
              (sid, run.id) in db.runs && run == db.runs[(sid, run.id)]
              && exists item :: item in items && item.run == run.id
  {
    if run in Owners(db, sid, items) {
      var k :| k in db.runs && k.0 == sid && (exists i :: i in items && i.run == k.1) && db.runs[k] == run;
      assert k == (sid, run.id);
    }
  }

  lemma OrdinalsCompare(a: Run, b: Run)
    requires Less(RunOrder(a), RunOrder(b))
    ensures a.ordinal < b.ordinal
  {
    assert RunOrder(b)[1..] == [];
  }

  lemma OwnersAscend(db: Tables, sid: string, items: seq<Item>)
    requires StoreInv(db)
    ensures var runs := OwnersInOrder(db, sid, items);
            && (forall run :: run in runs <==> run in Owners(db, sid, items))
            && (forall i, j :: 0 <= i < j < |runs| ==> runs[i].ordinal < runs[j].ordinal)
  {
    OwnersDiffer(db, sid, items);
    var list := Descending(Owners(db, sid, items), RunOrder);
    DescendingLists(Owners(db, sid, items), RunOrder);
    ReverseLists(list);
    var runs := Reverse(list);
    forall i, j | 0 <= i < j < |runs| ensures runs[i].ordinal < runs[j].ordinal {
      ReverseAt(list, i);
      ReverseAt(list, j);
      OrdinalsCompare(runs[i], runs[j]);
    }
  }
}
