/** The strict sliding window of core/rate_limit.py.

    `history` is every admission time ever recorded, oldest first. `times` is what the limiter
    still remembers of it. One locked pass of the retry loop is one atomic step. */
module RateWindow {
  import opened Options

  ghost predicate Sorted(history: seq<real>) {
    forall i, j :: 0 <= i <= j < |history| ==> history[i] <= history[j]
  }

  /** Record i + limit is at least one window after record i. */
  ghost predicate Spaced(history: seq<real>, limit: nat, window: real) {
    forall i, j :: 0 <= i && j == i + limit && j < |history| ==> history[i] + window <= history[j]
  }

  /** As Spaced, but never exactly one window apart. */
  ghost predicate StrictlySpaced(history: seq<real>, limit: nat, window: real) {
    forall i, j :: 0 <= i && j == i + limit && j < |history| ==> history[i] + window < history[j]
  }

  /** How many records fall in the half-open interval [from, to). */
  ghost function CountIn(history: seq<real>, from: real, to: real): nat {
    if history == [] then 0
    else (if from <= history[0] < to then 1 else 0) + CountIn(history[1..], from, to)
  }

  /** How many records fall in the closed interval [from, to]. */
  ghost function CountWithin(history: seq<real>, from: real, to: real): nat {
    if history == [] then 0
    else (if from <= history[0] <= to then 1 else 0) + CountWithin(history[1..], from, to)
  }

  /** The limit holds on closed intervals of the window's length too. */
  ghost predicate ClosedBounded(history: seq<real>, limit: nat, window: real) {
    forall from, to {:trigger CountWithin(history, from, to)} ::
      to == from + window ==> CountWithin(history, from, to) <= limit
  }

  // ----- One pass of the loop -----

  datatype Outcome = Admitted | Refused | Wait(delay: real)

  datatype Pass = Pass(outcome: Outcome, times: seq<real>)

  /** Forget the leading records at or before the cutoff. */
  function Prune(times: seq<real>, cutoff: real): seq<real> {
    if times != [] && times[0] <= cutoff then Prune(times[1..], cutoff) else times
  }

  /** What is kept is a tail; everything before it is at or before the cutoff, its head is after. */
  lemma {:induction false} PruneKeepsTail(times: seq<real>, cutoff: real)
    ensures var kept := Prune(times, cutoff);
            && |kept| <= |times|
            && kept == times[|times| - |kept|..]
            && (forall i :: 0 <= i < |times| - |kept| ==> times[i] <= cutoff)
            && (kept != [] ==> cutoff < kept[0])
  {
    if times != [] && times[0] <= cutoff {
      PruneKeepsTail(times[1..], cutoff);
      var kept := Prune(times[1..], cutoff);
      assert times[1..][|times[1..]| - |kept|..] == times[|times| - |kept|..];
      forall i | 0 <= i < |times| - |kept| ensures times[i] <= cutoff {
        if i > 0 { assert times[i] == times[1..][i - 1]; }
      }
    }
  }

  /** The clock is read as `now` for the cutoff and again as `stamp` for the record. */
  function TryAcquire(limit: nat, window: real, times: seq<real>, now: real, stamp: real, allowed: bool): Pass
    requires 0 < limit
  {
    var kept := Prune(times, now - window);
    if |kept| < limit then
      if allowed then Pass(Admitted, kept + [stamp]) else Pass(Refused, kept)
    else
      Pass(Wait(if kept[0] + window - now < 0.0 then 0.0 else kept[0] + window - now), kept)
  }

  /** What the limiter's memory means, given everything recorded so far and the last clock reading. */
  ghost predicate WindowInv(limit: nat, window: real, history: seq<real>, times: seq<real>, clock: real) {
    && 0 < limit
    && 0.0 < window
    && |times| <= limit
    && |times| <= |history|
    && times == history[|history| - |times|..]
    && Sorted(history)
    && Spaced(history, limit, window)
    && (forall i :: 0 <= i < |history| ==> history[i] <= clock)
    && (forall i :: 0 <= i < |history| - |times| ==> history[i] + window <= clock)
  }

  /** Whether the window has room can be told from the history alone, and decides with `allowed` what a pass does. */
  lemma PassAdmitsIff(limit: nat, window: real, history: seq<real>, times: seq<real>, now: real, stamp: real,
                      allowed: bool)
    requires WindowInv(limit, window, history, times, now)
    ensures var room := |history| < limit || history[|history| - limit] <= now - window;
            var outcome := TryAcquire(limit, window, times, now, stamp, allowed).outcome;
            && (outcome.Wait? <==> !room)
            && (outcome.Admitted? <==> room && allowed)
            && (outcome.Refused? <==> room && !allowed)
  {
    PruneKeepsTail(times, now - window);
    var kept := Prune(times, now - window);
    assert kept == history[|history| - |kept|..];
    if |kept| == limit {
      assert kept[0] == history[|history| - limit];
    } else if limit <= |history| {
      var i := |history| - limit;
      if |history| - |times| <= i {
        assert times[i - (|history| - |times|)] == history[i];
      }
    }
  }

  ghost function Recorded(history: seq<real>, outcome: Outcome, stamp: real): seq<real> {
    if outcome.Admitted? then history + [stamp] else history
  }

  /** Everything ahead of the remembered tail left the window long enough ago. */
  ghost predicate Bygone(window: real, history: seq<real>, times: seq<real>, clock: real) {
    && |times| <= |history|
    && times == history[|history| - |times|..]
    && (forall i :: 0 <= i < |history| - |times| ==> history[i] + window <= clock)
  }

  lemma PruneKeepsBygone(window: real, history: seq<real>, times: seq<real>, now: real)
    requires Bygone(window, history, times, now)
    ensures Bygone(window, history, Prune(times, now - window), now)
  {
    PruneKeepsTail(times, now - window);
    var kept := Prune(times, now - window);
    var gone := |history| - |times|;
    assert kept == history[|history| - |kept|..];
    forall i | 0 <= i < |history| - |kept| ensures history[i] + window <= now {
      if gone <= i {
        assert times[i - gone] == history[i];
      }
    }
  }

  /** Forgetting what left the window keeps the invariant, at the time of the cutoff. */
  lemma PruneKeepsWindow(limit: nat, window: real, history: seq<real>, times: seq<real>, clock: real, now: real)
    requires WindowInv(limit, window, history, times, clock)
    requires clock <= now
    ensures WindowInv(limit, window, history, Prune(times, now - window), now)
  {
    PruneKeepsTail(times, now - window);
    PruneKeepsBygone(window, history, times, now);
  }

  /** With room left, one more record keeps the invariant: the record it is measured against is forgotten. */
  lemma AppendKeepsWindow(limit: nat, window: real, history: seq<real>, times: seq<real>, now: real, stamp: real)
    requires WindowInv(limit, window, history, times, now)
    requires now <= stamp && |times| < limit
    ensures WindowInv(limit, window, history + [stamp], times + [stamp], stamp)
  {
    var after := history + [stamp];
    assert (times + [stamp]) == after[|after| - |times| - 1..];
    forall i, j | 0 <= i && j == i + limit && j < |after| ensures after[i] + window <= after[j] {
      if j == |history| {
        assert history[i] + window <= now;
      } else {
        assert history[i] + window <= history[j];
      }
    }
    assert Spaced(after, limit, window);
  }

  /** A pass keeps the invariant; only an admission adds a record, and it adds exactly one. */
  lemma PassKeepsWindow(limit: nat, window: real, history: seq<real>, times: seq<real>, clock: real,
                        now: real, stamp: real, allowed: bool)
    requires WindowInv(limit, window, history, times, clock)
    requires clock <= now <= stamp
    ensures var pass := TryAcquire(limit, window, times, now, stamp, allowed);
            && WindowInv(limit, window, Recorded(history, pass.outcome, stamp), pass.times, stamp)
            && (pass.outcome.Admitted? ==> allowed)
  {
    var kept := Prune(times, now - window);
    PruneKeepsWindow(limit, window, history, times, clock, now);
    if |kept| < limit && allowed {
      AppendKeepsWindow(limit, window, history, kept, now, stamp);
    } else {
      WindowGoesOn(limit, window, history, kept, now, stamp);
    }
  }

  lemma WindowGoesOn(limit: nat, window: real, history: seq<real>, times: seq<real>, now: real, stamp: real)
    requires WindowInv(limit, window, history, times, now) && now <= stamp
    ensures WindowInv(limit, window, history, times, stamp)
  {
  }

  /** The oldest remembered record is inside the window, and in the past. */
  lemma OldestIsRecent(limit: nat, window: real, history: seq<real>, times: seq<real>, clock: real, now: real)
    requires WindowInv(limit, window, history, times, clock) && clock <= now
    ensures var kept := Prune(times, now - window);
            |kept| <= limit && (kept != [] ==> now - window < kept[0] <= now)
  {
    PruneKeepsTail(times, now - window);
    var kept := Prune(times, now - window);
    if kept != [] {
      assert kept[0] == times[|times| - |kept|] == history[|history| - |kept|];
    }
  }

  /** A later pass forgets the oldest record exactly when its time has come. */
  lemma PruneOnceMore(kept: seq<real>, cutoff: real)
    requires kept != []
    ensures |Prune(kept, cutoff)| < |kept| <==> kept[0] <= cutoff
    ensures |Prune(kept, cutoff)| <= |kept|
  {
    PruneKeepsTail(kept, cutoff);
    if kept[0] <= cutoff { PruneKeepsTail(kept[1..], cutoff); }
  }

  /** A full window always names a positive wait, and that wait is exactly enough: if nobody else is
      admitted meanwhile, a pass any earlier waits again and a pass at its end finds capacity. */
  lemma WaitIsExact(limit: nat, window: real, history: seq<real>, times: seq<real>, clock: real,
                    now: real, allowed: bool, later: real, stamp: real)
    requires WindowInv(limit, window, history, times, clock)
    requires clock <= now <= later <= stamp
    requires TryAcquire(limit, window, times, now, now, allowed).outcome.Wait?
    ensures var first := TryAcquire(limit, window, times, now, now, allowed);
            var second := TryAcquire(limit, window, first.times, later, stamp, allowed);
            && 0.0 < first.outcome.delay <= window
            && (second.outcome.Wait? <==> later < now + first.outcome.delay)
  {
    OldestIsRecent(limit, window, history, times, clock, now);
    PruneOnceMore(Prune(times, now - window), later - window);
  }

  // ----- The bound on intervals -----

  lemma {:induction false} CountEndsAt(history: seq<real>, from: real, to: real, k: nat)
    requires forall i :: k <= i < |history| ==> to <= history[i]
    ensures CountIn(history, from, to) <= k
  {
    if history != [] {
      CountEndsAt(history[1..], from, to, if k == 0 then 0 else k - 1);
    }
  }

  /** At most `limit` recorded admissions in every half-open interval of the window's length. */
  lemma {:induction false} HalfOpenBound(history: seq<real>, limit: nat, window: real, from: real, to: real)
    requires Sorted(history) && Spaced(history, limit, window)
    requires to <= from + window
    ensures CountIn(history, from, to) <= limit
  {
    if history == [] {
    } else if history[0] < from {
      assert Spaced(history[1..], limit, window) by {
        forall i, j | 0 <= i && j == i + limit && j < |history[1..]|
          ensures history[1..][i] + window <= history[1..][j]
        {
          assert history[i + 1] + window <= history[j + 1];
        }
      }
      HalfOpenBound(history[1..], limit, window, from, to);
    } else {
      if limit < |history| {
        assert history[0] + window <= history[limit];
      }
      CountEndsAt(history, from, to, limit);
    }
  }

  lemma {:induction false} CountWithinSplits(history: seq<real>, from: real, mid: real, to: real, beyond: real)
    requires from <= mid <= to < beyond
    ensures CountWithin(history, from, to) <= CountIn(history, from, mid) + CountIn(history, mid, beyond)
  {
    if history != [] {
      CountWithinSplits(history[1..], from, mid, to, beyond);
    }
  }

  /** A closed interval of exactly the window's length can hold more, but never more than twice the limit. */
  lemma ClosedBound(history: seq<real>, limit: nat, window: real, from: real)
    requires 0.0 < window && Sorted(history) && Spaced(history, limit, window)
    ensures CountWithin(history, from, from + window) <= 2 * limit
  {
    CountWithinSplits(history, from, from + window, from + window, from + 2.0 * window);
    HalfOpenBound(history, limit, window, from, from + window);
    HalfOpenBound(history, limit, window, from + window, from + 2.0 * window);
  }

  /** Twice the limit is reached: two admissions at 0 and two more exactly one window later. */
  lemma ClosedBoundIsReached()
    ensures var p0 := TryAcquire(2, 1.0, [], 0.0, 0.0, true);
            var p1 := TryAcquire(2, 1.0, p0.times, 0.0, 0.0, true);
            var p2 := TryAcquire(2, 1.0, p1.times, 1.0, 1.0, true);
            var p3 := TryAcquire(2, 1.0, p2.times, 1.0, 1.0, true);
            && p0.outcome == p1.outcome == p2.outcome == p3.outcome == Admitted
            && CountWithin([0.0, 0.0, 1.0, 1.0], 0.0, 1.0) == 4
  {
    var p0 := TryAcquire(2, 1.0, [], 0.0, 0.0, true);
    var p1 := TryAcquire(2, 1.0, p0.times, 0.0, 0.0, true);
    assert p1.times == [0.0, 0.0];
    assert p1.times[1..] == [0.0] && Prune([0.0], 0.0) == [];
    var p2 := TryAcquire(2, 1.0, p1.times, 1.0, 1.0, true);
    assert p2.times == [1.0];
    assert CountWithin([1.0], 0.0, 1.0) == 1;
    assert [1.0, 1.0][1..] == [1.0];
    assert CountWithin([1.0, 1.0], 0.0, 1.0) == 2;
    assert [0.0, 1.0, 1.0][1..] == [1.0, 1.0];
    assert CountWithin([0.0, 1.0, 1.0], 0.0, 1.0) == 3;
    assert [0.0, 0.0, 1.0, 1.0][1..] == [0.0, 1.0, 1.0];
  }

  lemma {:induction false} CountWithinEndsAt(history: seq<real>, from: real, to: real, k: nat)
    requires forall i :: k <= i < |history| ==> to < history[i]
    ensures CountWithin(history, from, to) <= k
  {
    if history != [] {
      CountWithinEndsAt(history[1..], from, to, if k == 0 then 0 else k - 1);
    }
  }

  lemma {:induction false} StrictSpacingBoundsClosed(history: seq<real>, limit: nat, window: real, from: real)
    requires Sorted(history) && StrictlySpaced(history, limit, window)
    ensures CountWithin(history, from, from + window) <= limit
  {
    if history == [] {
    } else if history[0] < from {
      assert StrictlySpaced(history[1..], limit, window) by {
        forall i, j | 0 <= i && j == i + limit && j < |history[1..]|
          ensures history[1..][i] + window < history[1..][j]
        {
          assert history[i + 1] + window < history[j + 1];
        }
      }
      StrictSpacingBoundsClosed(history[1..], limit, window, from);
    } else {
      if limit < |history| {
        assert history[0] + window < history[limit];
      }
      CountWithinEndsAt(history, from, from + window, limit);
    }
  }

  lemma {:induction false} CountWithinAtLeast(history: seq<real>, from: real, to: real, lo: nat, hi: nat)
    requires lo <= hi <= |history|
    requires forall i :: lo <= i < hi ==> from <= history[i] <= to
    ensures hi - lo <= CountWithin(history, from, to)
  {
    if lo < hi {
      CountWithinAtLeast(history[1..], from, to, if lo == 0 then 0 else lo - 1, hi - 1);
    }
  }

  /** Exactly when the limit also holds on closed intervals: no record is made exactly one window
      after the record `limit` places before it. */
  lemma ClosedIntervalsBoundedIff(history: seq<real>, limit: nat, window: real)
    requires Sorted(history) && Spaced(history, limit, window)
    ensures ClosedBounded(history, limit, window) <==> StrictlySpaced(history, limit, window)
  {
    if StrictlySpaced(history, limit, window) {
      forall from, to | to == from + window ensures CountWithin(history, from, to) <= limit {
        StrictSpacingBoundsClosed(history, limit, window, from);
      }
    } else {
      var i, j :| 0 <= i && j == i + limit && j < |history| && !(history[i] + window < history[j]);
      assert history[i] + window == history[j];
      CountWithinAtLeast(history, history[i], history[i] + window, i, j + 1);
      assert CountWithin(history, history[i], history[i] + window) > limit;
    }
  }

  /** The same, per admission: the next record breaks the closed bound just when the record `limit`
      places back lies exactly one window before it. */
  lemma ClosedBoundBreaksAtCutoff(history: seq<real>, limit: nat, window: real, stamp: real)
    requires 0 < limit
    requires Sorted(history + [stamp]) && Spaced(history + [stamp], limit, window)
    requires StrictlySpaced(history, limit, window)
    ensures ClosedBounded(history + [stamp], limit, window)
            <==> (|history| < limit || history[|history| - limit] != stamp - window)
  {
    var after := history + [stamp];
    ClosedIntervalsBoundedIff(after, limit, window);
    if |history| < limit || history[|history| - limit] != stamp - window {
      forall i, j | 0 <= i && j == i + limit && j < |after| ensures after[i] + window < after[j] {
        assert after[i] + window <= after[j];
        if j < |history| {
          assert history[i] + window < history[j];
        }
      }
    } else {
      var i := |history| - limit;
      assert after[i] + window == after[|history|];
    }
  }

  // ----- The limiter object -----

  class StrictSlidingWindowLimiter {
    const rateLimit: nat
    const rateWindow: real
    var times: seq<real>
    ghost var history: seq<real>
    ghost var clock: real

    ghost predicate Valid()
      reads this
    {
      WindowInv(rateLimit, rateWindow, history, times, clock)
    }

    constructor (rateLimit: nat, rateWindow: real)
      requires 0 < rateLimit && 0.0 < rateWindow
      ensures Valid() && history == [] && times == [] && clock == 0.0
      ensures this.rateLimit == rateLimit && this.rateWindow == rateWindow
    {
      this.rateLimit := rateLimit;
      this.rateWindow := rateWindow;
      times := [];
      history := [];
      clock := 0.0;
    }

    /** Limits that are not positive are refused. */
    static method Make(rateLimit: int, rateWindow: real) returns (r: Option<StrictSlidingWindowLimiter>)
      ensures r.Some? <==> 0 < rateLimit && 0.0 < rateWindow
      ensures r.Some? ==> fresh(r.value) && r.value.Valid() && r.value.times == []
      ensures r.Some? ==> r.value.rateLimit == rateLimit && r.value.rateWindow == rateWindow
    {
      if rateLimit <= 0 || rateWindow <= 0.0 { return None; }
      var limiter := new StrictSlidingWindowLimiter(rateLimit, rateWindow);
      r := Some(limiter);
    }

    /** Pop expired times off the front, in place. */
    method Forget(cutoff: real)
      modifies this`times
      ensures times == Prune(old(times), cutoff)
    {
      while times != [] && times[0] <= cutoff
        invariant Prune(times, cutoff) == Prune(old(times), cutoff)
        decreases |times|
      {
        times := times[1..];
      }
    }

    /** One locked pass: forget expired records, then admit, refuse, or say how long to wait. */
    method TryAcquirePass(now: real, stamp: real, allowed: bool) returns (outcome: Outcome)
      requires Valid() && clock <= now <= stamp
      modifies this
      ensures Valid() && clock == stamp
      ensures Pass(outcome, times) == TryAcquire(rateLimit, rateWindow, old(times), now, stamp, allowed)
      ensures history == Recorded(old(history), outcome, stamp)
      ensures outcome == Refused ==> !allowed && history == old(history)
    {
      Forget(now - rateWindow);
      if |times| < rateLimit {
        if !allowed {
          outcome := Refused;
        } else {
          times := times + [stamp];
          outcome := Admitted;
        }
      } else {
        var oldest := times[0];
        outcome := Wait(if oldest + rateWindow - now < 0.0 then 0.0 else oldest + rateWindow - now);
      }
      assert Pass(outcome, times) == TryAcquire(rateLimit, rateWindow, old(times), now, stamp, allowed);
      history := Recorded(history, outcome, stamp);
      clock := stamp;
      PassKeepsWindow(rateLimit, rateWindow, old(history), old(times), old(clock), now, stamp, allowed);
    }
  }
}
