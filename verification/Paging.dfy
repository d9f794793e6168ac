/** Keyset pagination: `WHERE key < cursor ORDER BY key DESC LIMIT n + 1`, as the session list and the
    transcript use it. */
module Paging {
  import opened Options
  import opened KeyOrder

  ghost function Below<T(!new)>(rows: set<T>, key: T -> Key, cursor: Option<Key>): set<T> {
    set x | x in rows && (cursor.None? || Less(key(x), cursor.value))
  }

  function Take<T>(s: seq<T>, n: nat): seq<T> {
    if n < |s| then s[..n] else s
  }

  datatype Page<T> = Page(rows: seq<T>, next: Option<Key>)

  /** One page: fetch one row more than asked, show `limit`, and name the last shown row if there was more. */
  ghost function PageOf<T(!new)>(rows: set<T>, key: T -> Key, cursor: Option<Key>, limit: nat): Page<T>
    requires Distinct(rows, key)
  {
    var fetched := Take(Descending(Below(rows, key, cursor), key), limit + 1);
    var shown := Take(fetched, limit);
    Page(shown, if shown != [] && limit < |fetched| then Some(key(shown[|shown| - 1])) else None)
  }

  /** Cutting the list at one of its rows leaves the list of what is below it. */
  lemma BelowIsTail<T(!new)>(rows: set<T>, key: T -> Key, cursor: Option<Key>, i: nat)
    requires Distinct(rows, key) && i < |Descending(Below(rows, key, cursor), key)|
    ensures var list := Descending(Below(rows, key, cursor), key);
            Descending(Below(rows, key, Some(key(list[i]))), key) == list[i + 1..]
  {
    var list := Descending(Below(rows, key, cursor), key);
    var pivot := key(list[i]);
    DescendingLists(Below(rows, key, cursor), key);
    assert list[i] in list;
    forall x ensures x in Below(rows, key, Some(pivot)) <==> x in list[i + 1..] {
      if x in Below(rows, key, Some(pivot)) {
        if cursor.Some? { LessChains(key(x), pivot, cursor.value); }
        assert x in list;
        var j :| 0 <= j < |list| && list[j] == x;
        if j < i { LessChains(key(x), pivot, key(x)); }
        LessIsStrict(key(x));
        assert list[i + 1..][j - i - 1] == x;
      }
      if x in list[i + 1..] {
        var j :| i + 1 <= j < |list| && list[j] == x;
        assert x in list;
      }
    }
    DescendingIsUnique(Below(rows, key, Some(pivot)), key, list[i + 1..]);
  }

  /** The pages a client gets by following the cursors. */
  ghost function Pages<T(!new)>(rows: set<T>, key: T -> Key, cursor: Option<Key>, limit: nat): seq<seq<T>>
    requires Distinct(rows, key) && 0 < limit
    decreases |Descending(Below(rows, key, cursor), key)|
  {
    var page := PageOf(rows, key, cursor, limit);
    if page.next.None? then [page.rows]
    else
      BelowIsTail(rows, key, cursor, limit - 1);
      [page.rows] + Pages(rows, key, page.next, limit)
  }

  function Concat<T>(pages: seq<seq<T>>): seq<T> {
    if pages == [] then [] else pages[0] + Concat(pages[1..])
  }

  /** A page shows the first rows of the list, and names a cursor exactly when it leaves some out. */
  lemma PageShowsAHead<T(!new)>(rows: set<T>, key: T -> Key, cursor: Option<Key>, limit: nat)
    requires Distinct(rows, key) && 0 < limit
    ensures var list := Descending(Below(rows, key, cursor), key);
            var page := PageOf(rows, key, cursor, limit);
            && (page.next.None? <==> |list| <= limit)
            && page.rows == Take(list, limit)
            && (page.next.Some? ==> Descending(Below(rows, key, page.next), key) == list[limit..])
  {
    if limit < |Descending(Below(rows, key, cursor), key)| {
      BelowIsTail(rows, key, cursor, limit - 1);
    }
  }

  predicate FullPages<T>(pages: seq<seq<T>>, limit: nat) {
    pages == [] || (|pages[0]| <= limit && (1 < |pages| ==> |pages[0]| == limit) && FullPages(pages[1..], limit))
  }

  /** From any cursor, following the cursors ends, and the pages together are exactly the rows below it;
      every page but the last is full. */
  lemma {:induction false} PagesCover<T(!new)>(rows: set<T>, key: T -> Key, cursor: Option<Key>, limit: nat)
    requires Distinct(rows, key) && 0 < limit
    ensures Concat(Pages(rows, key, cursor, limit)) == Descending(Below(rows, key, cursor), key)
    ensures FullPages(Pages(rows, key, cursor, limit), limit)
    decreases |Descending(Below(rows, key, cursor), key)|
  {
    var list := Descending(Below(rows, key, cursor), key);
    var page := PageOf(rows, key, cursor, limit);
    PageShowsAHead(rows, key, cursor, limit);
    if page.next.None? {
      assert Concat([page.rows]) == page.rows + Concat([]);
    } else {
      PagesCover(rows, key, page.next, limit);
      var rest := Pages(rows, key, page.next, limit);
      assert Pages(rows, key, cursor, limit) == [page.rows] + rest;
      HeadThenRest(page.rows, rest, limit);
      assert list == list[..limit] + list[limit..];
    }
  }

  lemma HeadThenRest<T>(head: seq<T>, rest: seq<seq<T>>, limit: nat)
    requires |head| == limit && FullPages(rest, limit)
    ensures Concat([head] + rest) == head + Concat(rest)
    ensures FullPages([head] + rest, limit)
  {
    assert ([head] + rest)[1..] == rest;
  }
}
