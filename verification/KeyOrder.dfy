/** Rows and names in the order of their keys: tuples of integers, compared column by column. Text contributes
    its code points. */
module KeyOrder {
  type Key = seq<int>

  /** SQL's row-value comparison, and Python's order of strings. */
  predicate Less(a: Key, b: Key) {
    b != [] && (a == [] || a[0] < b[0] || (a[0] == b[0] && Less(a[1..], b[1..])))
  }

  lemma {:induction false} LessIsStrict(a: Key)
    ensures !Less(a, a)
  {
    if a != [] { LessIsStrict(a[1..]); }
  }

  lemma {:induction false} LessChains(a: Key, b: Key, c: Key)
    requires Less(a, b) && Less(b, c)
    ensures Less(a, c)
  {
    if a != [] && a[0] == b[0] && b[0] == c[0] {
      LessChains(a[1..], b[1..], c[1..]);
    }
  }

  lemma {:induction false} LessIsTotal(a: Key, b: Key)
    ensures a == b || Less(a, b) || Less(b, a)
  {
    if a != [] && b != [] && a[0] == b[0] {
      LessIsTotal(a[1..], b[1..]);
      if a[1..] == b[1..] {
        assert a == [a[0]] + a[1..] && b == [b[0]] + b[1..];
      }
    }
  }

  // ----- Rows in descending key order -----

  ghost predicate Distinct<T(!new)>(rows: set<T>, key: T -> Key) {
    forall a, b :: a in rows && b in rows && key(a) == key(b) ==> a == b
  }

  ghost predicate Top<T(!new)>(rows: set<T>, key: T -> Key, m: T) {
    m in rows && forall x :: x in rows && x != m ==> Less(key(x), key(m))
  }

  lemma {:induction false} TopExists<T(!new)>(rows: set<T>, key: T -> Key, x: T)
    requires x in rows && Distinct(rows, key)
    ensures exists m :: Top(rows, key, m)
    decreases rows
  {
    if y :| y in rows && Less(key(x), key(y)) {
      var above := set z | z in rows && Less(key(x), key(z));
      LessIsStrict(key(x));
      assert above < rows by { assert x in rows && x !in above; }
      TopExists(above, key, y);
      var m :| Top(above, key, m);
      forall z | z in rows && z != m ensures Less(key(z), key(m)) {
        if z !in above {
          LessIsTotal(key(z), key(x));
          if key(z) != key(x) { LessChains(key(z), key(x), key(m)); }
        }
      }
      assert Top(rows, key, m);
    } else {
      forall z | z in rows && z != x ensures Less(key(z), key(x)) {
        LessIsTotal(key(z), key(x));
      }
      assert Top(rows, key, x);
    }
  }

  ghost function TopOf<T(!new)>(rows: set<T>, key: T -> Key): (m: T)
    requires Distinct(rows, key) && exists x :: x in rows
    ensures Top(rows, key, m)
  {
    var x :| x in rows;
    TopExists(rows, key, x);
    var m :| Top(rows, key, m);
    m
  }

  /** `ORDER BY key DESC`. */
  ghost function Descending<T(!new)>(rows: set<T>, key: T -> Key): seq<T>
    requires Distinct(rows, key)
    decreases rows
  {
    if exists x :: x in rows then
      var m := TopOf(rows, key);
      [m] + Descending(rows - {m}, key)
    else []
  }

  /** It lists every row once, in strictly falling key order. */
  lemma {:induction false} DescendingLists<T(!new)>(rows: set<T>, key: T -> Key)
    requires Distinct(rows, key)
    ensures forall x :: x in rows <==> x in Descending(rows, key)
    ensures forall i, j :: 0 <= i < j < |Descending(rows, key)| ==>
              Less(key(Descending(rows, key)[j]), key(Descending(rows, key)[i]))
    ensures |Descending(rows, key)| == |rows|
    decreases rows
  {
    if exists x :: x in rows {
      var m := TopOf(rows, key);
      DescendingLists(rows - {m}, key);
      var rest := Descending(rows - {m}, key);
      assert Descending(rows, key) == [m] + rest;
      forall j | 0 <= j < |rest| ensures Less(key(rest[j]), key(m)) {
        assert rest[j] in rest;
      }
    } else {
      assert rows == {};
    }
  }

  /** There is only one such list. */
  lemma {:induction false} DescendingIsUnique<T(!new)>(rows: set<T>, key: T -> Key, list: seq<T>)
    requires Distinct(rows, key)
    requires forall x :: x in rows <==> x in list
    requires forall i, j :: 0 <= i < j < |list| ==> Less(key(list[j]), key(list[i]))
    ensures list == Descending(rows, key)
    decreases rows
  {
    if list == [] {
      assert rows == {};
    } else {
      assert list[0] in list && list[0] in rows;
      var m := TopOf(rows, key);
      if m != list[0] {
        var i :| 0 < i < |list| && list[i] == m;
        LessChains(key(m), key(list[0]), key(m));
        LessIsStrict(key(m));
      }
      forall x ensures x in rows - {m} <==> x in list[1..] {
        if x in list[1..] {
          var i :| 1 <= i < |list| && list[i] == x;
          LessIsStrict(key(m));
          assert Less(key(list[i]), key(list[0]));
        }
      }
      DescendingIsUnique(rows - {m}, key, list[1..]);
      assert list == [list[0]] + list[1..];
    }
  }

  function Codes(text: string): Key {
    seq(|text|, i requires 0 <= i < |text| => text[i] as int)
  }

  lemma CodesDiffer(a: string, b: string)
    requires Codes(a) == Codes(b)
    ensures a == b
  {
    assert |a| == |Codes(a)| == |Codes(b)| == |b|;
    forall i | 0 <= i < |a| ensures a[i] == b[i] {
      assert Codes(a)[i] == Codes(b)[i];
    }
  }

  // ----- Reversal -----

  function Reverse<T>(s: seq<T>): seq<T> {
    if s == [] then [] else Reverse(s[1..]) + [s[0]]
  }

  lemma {:induction false} ReverseConcat<T>(a: seq<T>, b: seq<T>)
    ensures Reverse(a + b) == Reverse(b) + Reverse(a)
  {
    if a == [] {
      assert a + b == b;
    } else {
      ReverseConcat(a[1..], b);
      assert (a + b)[1..] == a[1..] + b;
    }
  }

  lemma {:induction false} ReverseInTwo<T>(list: seq<T>, n: nat)
    requires n <= |list|
    ensures Reverse(list) == Reverse(list[n..]) + Reverse(list[..n])
  {
    var head, tail := list[..n], list[n..];
    assert list == head + tail;
    ReverseConcat(head, tail);
  }

  lemma {:induction false} ReverseAt<T>(s: seq<T>, i: nat)
    requires i < |s|
    ensures |Reverse(s)| == |s| && Reverse(s)[i] == s[|s| - 1 - i]
  {
    if |s| > 1 {
      ReverseAt(s[1..], if i < |s| - 1 then i else 0);
    }
  }

  lemma {:induction false} ReverseLists<T>(list: seq<T>)
    ensures |Reverse(list)| == |list|
    ensures forall x :: x in Reverse(list) <==> x in list
  {
    if list != [] {
      ReverseLists(list[1..]);
      assert list == [list[0]] + list[1..];
    }
  }
}
