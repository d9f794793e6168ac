/** Who waits for whom among the handoff tasks, with `discard` counted in: exactly when waiting closes into a circle. */
module VoiceWaits {
  import opened Options
  import opened VoiceRegistry
  import opened VoiceMachine

  type Edge = (Claim, Claim)

  // ----- Graphs -----

  ghost predicate IsPath(g: set<Edge>, p: seq<Claim>) {
    p != [] && forall i :: 0 <= i < |p| - 1 ==> (p[i], p[i + 1]) in g
  }

  predicate Joins(p: seq<Claim>, x: Claim, y: Claim) {
    p != [] && p[0] == x && p[|p| - 1] == y
  }

  /** By no edge at all, or along some. */
  ghost predicate Reach(g: set<Edge>, x: Claim, y: Claim) {
    exists p: seq<Claim> :: IsPath(g, p) && Joins(p, x, y)
  }

  ghost predicate Acyclic(g: set<Edge>) {
    forall x, y :: (x, y) in g ==> !Reach(g, y, x)
  }

  lemma ReachSelf(g: set<Edge>, x: Claim)
    ensures Reach(g, x, x)
  {
    assert IsPath(g, [x]) && Joins([x], x, x);
  }

  lemma ReachOn(g: set<Edge>, x: Claim, y: Claim, z: Claim)
    requires Reach(g, x, y) && Reach(g, y, z)
    ensures Reach(g, x, z)
  {
    var p :| IsPath(g, p) && Joins(p, x, y);
    var q :| IsPath(g, q) && Joins(q, y, z);
    var r := p + q[1..];
    assert p[|p| - 1] == q[0];
    forall i | 0 <= i < |r| - 1 ensures (r[i], r[i + 1]) in g {
      if i >= |p| - 1 { assert (q[i - |p| + 1], q[i - |p| + 2]) in g; }
    }
    assert IsPath(g, r) && Joins(r, x, z);
  }

  lemma ReachByEdge(g: set<Edge>, x: Claim, y: Claim)
    requires (x, y) in g
    ensures Reach(g, x, y)
  {
    assert IsPath(g, [x, y]) && Joins([x, y], x, y);
  }

  lemma ReachMore(g: set<Edge>, h: set<Edge>, x: Claim, y: Claim)
    requires g <= h && Reach(g, x, y)
    ensures Reach(h, x, y)
  {
    var p :| IsPath(g, p) && Joins(p, x, y);
    assert IsPath(h, p);
  }

  lemma FewerEdgesStayAcyclic(g: set<Edge>, h: set<Edge>)
    requires h <= g && Acyclic(g)
    ensures Acyclic(h)
  {
    forall x, y | (x, y) in h ensures !Reach(h, y, x) {
      if Reach(h, y, x) { ReachMore(h, g, y, x); }
    }
  }

  function From(c: Claim, ds: set<Claim>): set<Edge> {
    set d | d in ds :: (c, d)
  }

  /** A path that may use new edges out of `c` does without them, or leads to `c` and on from some new target. */
  lemma {:induction false} PathSplits(g: set<Edge>, c: Claim, ds: set<Claim>, p: seq<Claim>)
    requires IsPath(g + From(c, ds), p)
    ensures var x, y := p[0], p[|p| - 1];
            Reach(g, x, y) || (Reach(g, x, c) && exists d :: d in ds && Reach(g, d, y))
    decreases |p|
  {
    var x, y := p[0], p[|p| - 1];
    if |p| == 1 {
      ReachSelf(g, x);
    } else {
      var z := p[1];
      assert (p[0], p[1]) in g + From(c, ds);
      assert IsPath(g + From(c, ds), p[1..]) by {
        forall i | 0 <= i < |p[1..]| - 1 ensures (p[1..][i], p[1..][i + 1]) in g + From(c, ds) {
          assert (p[i + 1], p[i + 2]) in g + From(c, ds);
        }
      }
      PathSplits(g, c, ds, p[1..]);
      if (x, z) in g {
        ReachByEdge(g, x, z);
        if Reach(g, z, y) { ReachOn(g, x, z, y); } else { ReachOn(g, x, z, c); }
      } else {
        ReachSelf(g, c);
        assert x == c && z in ds;
      }
    }
  }

  /** New edges out of one node close a circle if and only if one of the targets already leads back to it. */
  lemma NewEdgesCloseACircleIff(g: set<Edge>, c: Claim, ds: set<Claim>)
    requires Acyclic(g)
    ensures Acyclic(g + From(c, ds)) <==> forall d :: d in ds ==> !Reach(g, d, c)
  {
    var h := g + From(c, ds);
    if d :| d in ds && Reach(g, d, c) {
      ReachMore(g, h, d, c);
      assert (c, d) in h;
    } else {
      forall x, y | (x, y) in h ensures !Reach(h, y, x) {
        if Reach(h, y, x) { NoWayBack(g, c, ds, x, y); }
      }
    }
  }

  lemma NoWayBack(g: set<Edge>, c: Claim, ds: set<Claim>, x: Claim, y: Claim)
    requires Acyclic(g) && forall d :: d in ds ==> !Reach(g, d, c)
    requires (x, y) in g + From(c, ds)
    ensures !Reach(g + From(c, ds), y, x)
  {
    var h := g + From(c, ds);
    if Reach(h, y, x) {
      var p :| IsPath(h, p) && Joins(p, y, x);
      PathSplits(g, c, ds, p);
      if (x, y) in g {
        assert !Reach(g, y, x);
        var d :| d in ds && Reach(g, d, x);
        ReachByEdge(g, x, y);
        ReachOn(g, d, x, y);
        ReachOn(g, d, y, c);
      }
    }
  }

  // ----- The tasks -----

  /** The handoff task of `c` may be held up by that of `d`: something running inside it waits for `d`. */
  function HoldsUp(s: State): set<Edge> {
    set o, d | o in s.ops && s.ops[o].caller.Some? && d in s.ops[o].targets && d !in s.done ::
      (s.ops[o].caller.value, d)
  }

  /** The unfinished tasks of the picked claims. */
  function Awaited(s: State, picks: set<Claim>): set<Claim> {
    WithTasks(s.r, picks) - s.done
  }

  /** A cancellation that has not selected waits for nobody. */
  ghost predicate SelectingWaitsForNone(s: State) {
    forall o :: Selecting(s, o) ==> s.ops[o].targets == {}
  }

  /** What a step makes its caller's task wait for. */
  function NewWaits(s: State, step: Step): set<Edge>
    requires Enabled(s, step)
  {
    match step
    case Discard(o, caller, d) =>
      if caller.Some? && caller != Some(d) && Live(s.r, d) then From(caller.value, Awaited(s, {d})) else {}
    case CancelOne(o, key) =>
      var caller := s.ops[o].caller;
      if caller.Some? then From(caller.value, Awaited(s, PickOne(s.r, caller, key))) else {}
    case CancelMany(o, scope) =>
      var caller := s.ops[o].caller;
      if caller.Some? then From(caller.value, Awaited(s, PickMany(s.r, caller, scope))) else {}
    case _ => {}
  }

  /** `c` waits for `d` through `o`. */
  predicate Through(s: State, o: nat, c: Claim, d: Claim) {
    o in s.ops && s.ops[o].caller == Some(c) && d in s.ops[o].targets && d !in s.done
  }

  lemma Waits(s: State, c: Claim, d: Claim)
    ensures (c, d) in HoldsUp(s) <==> exists o :: Through(s, o, c, d)
  {
    if o :| Through(s, o, c, d) {
      assert (s.ops[o].caller.value, d) in HoldsUp(s);
    }
    if (c, d) in HoldsUp(s) {
      var o :| o in s.ops && s.ops[o].caller.Some? && d in s.ops[o].targets && d !in s.done
               && s.ops[o].caller.value == c;
      assert Through(s, o, c, d);
    }
  }

  /** Starting to wait through `o`, which waited for nobody, adds exactly the unfinished tasks. */
  lemma OpAddsWaits(s: State, s': State, o: nat, ts: set<Claim>)
    requires s'.done == s.done && o in s'.ops && s'.ops == s.ops[o := s'.ops[o]]
    requires o in s.ops ==> s.ops[o].targets == {}
    requires s'.ops[o].targets - s.done == ts
    ensures HoldsUp(s') == HoldsUp(s) + if s'.ops[o].caller.Some? then From(s'.ops[o].caller.value, ts) else {}
  {
    var added := if s'.ops[o].caller.Some? then From(s'.ops[o].caller.value, ts) else {};
    forall c, d ensures (c, d) in HoldsUp(s') <==> (c, d) in HoldsUp(s) + added {
      Waits(s, c, d);
      Waits(s', c, d);
      if p :| Through(s, p, c, d) { assert Through(s', p, c, d); }
      if p :| Through(s', p, c, d) && p != o { assert Through(s, p, c, d); }
      if (c, d) in added { assert Through(s', o, c, d); }
    }
  }

  /** Ending operations or tasks leaves fewer waits. */
  lemma FewerWaits(s: State, s': State)
    requires s.done <= s'.done
    requires forall o :: o in s'.ops && s'.ops[o].targets != {} ==> o in s.ops && s.ops[o] == s'.ops[o]
    ensures HoldsUp(s') <= HoldsUp(s)
  {
    forall c, d | (c, d) in HoldsUp(s') ensures (c, d) in HoldsUp(s) {
      Waits(s, c, d);
      Waits(s', c, d);
      var o :| Through(s', o, c, d);
      assert Through(s, o, c, d);
    }
  }

  predicate StartsWaiting(step: Step) {
    step.Discard? || step.CancelOne? || step.CancelMany?
  }

  /** A discard or a selection adds exactly its new waits, every other step adds none. */
  lemma StepAddsItsWaits(s: State, step: Step)
    requires Enabled(s, step) && SelectingWaitsForNone(s)
    ensures if StartsWaiting(step) then HoldsUp(Do(s, step)) == HoldsUp(s) + NewWaits(s, step)
            else HoldsUp(Do(s, step)) <= HoldsUp(s)
  {
    var s' := Do(s, step);
    match step
    case Discard(o, caller, d) =>
      if Live(s.r, d) {
        OpAddsWaits(s, s', o, if caller == Some(d) then {} else Awaited(s, {d}));
        if caller == Some(d) { assert From(d, {}) == {}; }
      }
    case CancelOne(o, key) => OpAddsWaits(s, s', o, Awaited(s, PickOne(s.r, s.ops[o].caller, key)));
    case CancelMany(o, scope) => OpAddsWaits(s, s', o, Awaited(s, PickMany(s.r, s.ops[o].caller, scope)));
    case _ => FewerWaits(s, s');
  }

  lemma StepKeepsSelecting(s: State, step: Step)
    requires Enabled(s, step) && SelectingWaitsForNone(s)
    ensures SelectingWaitsForNone(Do(s, step))
  {
  }

  /** The step makes some task wait for one that already leads back to it. */
  ghost predicate ClosesACircle(s: State, step: Step)
    requires Enabled(s, step)
  {
    exists c, d :: (c, d) in NewWaits(s, step) && Reach(HoldsUp(s), d, c)
  }

  // ----- The exact condition -----

  /** One step, from a state without circles: it closes one if and only if it is a discard or a selection, running
      inside a handoff task, of an unfinished task that already waits, perhaps through others, for that one. */
  lemma StepClosesACircleIff(s: State, step: Step)
    requires Enabled(s, step) && SelectingWaitsForNone(s) && Acyclic(HoldsUp(s))
    ensures Acyclic(HoldsUp(Do(s, step))) <==> !ClosesACircle(s, step)
  {
    StepAddsItsWaits(s, step);
    if StartsWaiting(step) {
      var caller := if step.Discard? then step.caller else s.ops[step.o].caller;
      if caller.Some? && !(step.Discard? && (caller == Some(step.c) || !Live(s.r, step.c))) {
        var picks := if step.Discard? then {step.c}
                     else if step.CancelOne? then PickOne(s.r, caller, step.key) else PickMany(s.r, caller, step.scope);
        CircleFrom(s, step, caller.value, Awaited(s, picks));
      } else {
        assert HoldsUp(Do(s, step)) == HoldsUp(s);
      }
    } else {
      FewerEdgesStayAcyclic(HoldsUp(s), HoldsUp(Do(s, step)));
    }
  }

  lemma CircleFrom(s: State, step: Step, c: Claim, ds: set<Claim>)
    requires Enabled(s, step) && Acyclic(HoldsUp(s)) && NewWaits(s, step) == From(c, ds)
    ensures Acyclic(HoldsUp(s) + From(c, ds)) <==> !ClosesACircle(s, step)
  {
    NewEdgesCloseACircleIff(HoldsUp(s), c, ds);
    if d :| d in ds && Reach(HoldsUp(s), d, c) { assert (c, d) in NewWaits(s, step); }
  }

  /** For `discard`: a live claim other than the caller's, its handoff published and unfinished, that already leads
      back to the caller. */
  lemma DiscardClosesACircleIff(s: State, o: nat, c: Claim, d: Claim)
    requires Enabled(s, Discard(o, Some(c), d)) && SelectingWaitsForNone(s) && Acyclic(HoldsUp(s))
    ensures !Acyclic(HoldsUp(Do(s, Discard(o, Some(c), d)))) <==>
            d != c && Live(s.r, d) && s.r.entries[d].task && d !in s.done && Reach(HoldsUp(s), d, c)
  {
    var step := Discard(o, Some(c), d);
    StepClosesACircleIff(s, step);
    if d != c && Live(s.r, d) && s.r.entries[d].task && d !in s.done && Reach(HoldsUp(s), d, c) {
      assert (c, d) in NewWaits(s, step);
    }
  }

  /** For the cancellations: a picked claim that leads back to the caller. What is picked has no cancellation in its
      task, so the way back starts with a discard. */
  lemma SelectionClosesACircleIff(s: State, step: Step)
    requires Enabled(s, step) && Inv(s) && SelectingWaitsForNone(s) && Acyclic(HoldsUp(s))
    requires step.CancelOne? || step.CancelMany?
    ensures var caller := s.ops[step.o].caller;
            var picks := if step.CancelOne? then PickOne(s.r, caller, step.key) else PickMany(s.r, caller, step.scope);
            && (!Acyclic(HoldsUp(Do(s, step))) <==>
                  caller.Some? && exists d :: d in Awaited(s, picks) && Reach(HoldsUp(s), d, caller.value))
            && (forall d, e, p :: d in picks && Through(s, p, d, e) ==> s.ops[p].Discarding?)
  {
    StepClosesACircleIff(s, step);
    var caller := s.ops[step.o].caller;
    var picks := if step.CancelOne? then PickOne(s.r, caller, step.key) else PickMany(s.r, caller, step.scope);
    PicksAreIdle(s, caller, picks);
    if caller.Some? {
      if d :| d in Awaited(s, picks) && Reach(HoldsUp(s), d, caller.value) {
        assert (caller.value, d) in NewWaits(s, step);
      }
    }
  }

  // ----- Over runs -----

  lemma InitWaits()
    ensures SelectingWaitsForNone(INIT) && Acyclic(HoldsUp(INIT)) && DiscardsWaitForNone(INIT)
  {
    assert HoldsUp(INIT) == {};
  }

  /** No step of the run closes a circle. */
  ghost predicate ClosesNone(s: State, steps: seq<Step>)
    requires CanRun(s, steps)
    decreases |steps|
  {
    steps == [] || (!ClosesACircle(s, steps[0]) && ClosesNone(Do(s, steps[0]), steps[1..]))
  }

  /** There is no circle in any state of the run. */
  ghost predicate NeverCircles(s: State, steps: seq<Step>)
    requires CanRun(s, steps)
    decreases |steps|
  {
    Acyclic(HoldsUp(s)) && (steps == [] || NeverCircles(Do(s, steps[0]), steps[1..]))
  }

  /** A run without a circle anywhere is exactly one in which no step closes one. */
  lemma {:induction false} NoCirclesIffNoneClosed(s: State, steps: seq<Step>)
    requires CanRun(s, steps) && SelectingWaitsForNone(s) && Acyclic(HoldsUp(s))
    ensures NeverCircles(s, steps) <==> ClosesNone(s, steps)
    decreases |steps|
  {
    if steps != [] {
      StepClosesACircleIff(s, steps[0]);
      StepKeepsSelecting(s, steps[0]);
      var next := Do(s, steps[0]);
      if Acyclic(HoldsUp(next)) {
        NoCirclesIffNoneClosed(next, steps[1..]);
      } else if steps[1..] != [] {
        assert !NeverCircles(next, steps[1..]);
      }
    }
  }

  // ----- The guard -----

  /** What a caller of `discard` can check: it runs in no handoff task, or in the claim's own, or the claim's
      handoff is not published. */
  predicate Guarded(s: State, step: Step) {
    step.Discard? ==>
      step.caller.None? || step.caller == Some(step.c) || step.c !in s.r.entries || !s.r.entries[step.c].task
  }

  predicate AllGuarded(s: State, steps: seq<Step>)
    requires CanRun(s, steps)
    decreases |steps|
  {
    steps == [] || (Guarded(s, steps[0]) && AllGuarded(Do(s, steps[0]), steps[1..]))
  }

  ghost predicate DiscardsWaitForNone(s: State) {
    forall o :: o in s.ops && s.ops[o].Discarding? && s.ops[o].caller.Some? ==> s.ops[o].targets == {}
  }

  lemma GuardedStepWaitsForNone(s: State, step: Step)
    requires Enabled(s, step) && Guarded(s, step) && DiscardsWaitForNone(s)
    ensures DiscardsWaitForNone(Do(s, step))
  {
  }

  /** Then a selection never finds a way back: nothing that waits runs in a picked task. */
  lemma GuardedStepClosesNone(s: State, step: Step)
    requires Inv(s) && Enabled(s, step) && Guarded(s, step) && DiscardsWaitForNone(s)
    ensures !ClosesACircle(s, step)
  {
    if c, d :| (c, d) in NewWaits(s, step) && Reach(HoldsUp(s), d, c) {
      if step.CancelOne? || step.CancelMany? {
        var caller := s.ops[step.o].caller;
        var picks := if step.CancelOne? then PickOne(s.r, caller, step.key) else PickMany(s.r, caller, step.scope);
        PicksAreIdle(s, caller, picks);
        DeadEnd(s, d, c);
      }
    }
  }

  lemma DeadEnd(s: State, d: Claim, c: Claim)
    requires DiscardsWaitForNone(s) && Reach(HoldsUp(s), d, c)
    requires forall p :: p in s.ops && s.ops[p].Cancelling? ==> s.ops[p].caller != Some(d)
    ensures d == c
  {
    var p :| IsPath(HoldsUp(s), p) && Joins(p, d, c);
    if 1 < |p| {
      assert (p[0], p[1]) in HoldsUp(s);
      Waits(s, d, p[1]);
    }
  }

  /** With every discard guarded, waiting never closes into a circle, over any run. */
  lemma {:induction false} GuardedRunsNeverCircle(s: State, steps: seq<Step>)
    requires Inv(s) && CanRun(s, steps) && AllGuarded(s, steps)
    requires SelectingWaitsForNone(s) && DiscardsWaitForNone(s) && Acyclic(HoldsUp(s))
    ensures NeverCircles(s, steps) && Acyclic(HoldsUp(Run(s, steps)))
    decreases |steps|
  {
    if steps != [] {
      GuardedStepClosesNone(s, steps[0]);
      StepClosesACircleIff(s, steps[0]);
      StepInv(s, steps[0]);
      StepKeepsSelecting(s, steps[0]);
      GuardedStepWaitsForNone(s, steps[0]);
      GuardedRunsNeverCircle(Do(s, steps[0]), steps[1..]);
    }
  }

  /** From the empty registry: no circle if no step closes one, and none at all if every discard is guarded. */
  lemma WaitingCirclesIff(steps: seq<Step>)
    requires CanRun(INIT, steps)
    ensures NeverCircles(INIT, steps) <==> ClosesNone(INIT, steps)
    ensures AllGuarded(INIT, steps) ==> NeverCircles(INIT, steps)
  {
    InitInv();
    InitWaits();
    NoCirclesIffNoneClosed(INIT, steps);
    if AllGuarded(INIT, steps) { GuardedRunsNeverCircle(INIT, steps); }
  }

  // ----- Circles that can be reached -----

  ghost predicate Reached(s: State) {
    exists steps: seq<Step> :: CanRun(INIT, steps) && Run(INIT, steps) == s
  }

  lemma {:induction false} RunSnoc(s: State, steps: seq<Step>, step: Step)
    requires CanRun(s, steps) && Enabled(Run(s, steps), step)
    ensures CanRun(s, steps + [step]) && Run(s, steps + [step]) == Do(Run(s, steps), step)
    decreases |steps|
  {
    if steps == [] {
      var next := Do(s, step);
      assert CanRun(next, []) && Run(next, []) == next;
      assert [] + [step] == [step] && [step][1..] == [];
    } else {
      RunSnoc(Do(s, steps[0]), steps[1..], step);
      assert (steps + [step])[1..] == steps[1..] + [step];
    }
  }

  lemma ReachedStep(s: State, step: Step)
    requires Reached(s) && Enabled(s, step)
    ensures Reached(Do(s, step))
  {
    var steps: seq<Step> :| CanRun(INIT, steps) && Run(INIT, steps) == s;
    RunSnoc(INIT, steps, step);
  }

  /** Reserve, bind and publish `c`, leaving the entry of `other` alone. */
  function Published(s: State, c: Claim, status: string): State
    requires c !in s.r.entries
  {
    var r1 := Reserve(s.r, c);
    var r2 := BindStatus(r1, c, status).0;
    s.(r := PublishHandoff(r2, c).0)
  }

  lemma PublishedIsReached(s: State, c: Claim, status: string)
    requires Reached(s) && c !in s.r.entries
    ensures Reached(Published(s, c, status))
  {
    ReachedStep(s, ReserveNote(c));
    ReachedStep(Do(s, ReserveNote(c)), Bind(c, status));
    ReachedStep(Do(Do(s, ReserveNote(c)), Bind(c, status)), Publish(c));
  }

  lemma PublishedIsLive(s: State, c: Claim, status: string, other: Claim)
    requires c !in s.r.entries && c.voice != status
    requires VoiceKey(c) !in s.r.pending && (c.scope, status) !in s.r.pending
    ensures var r := Published(s, c, status).r;
            && Live(r, c) && r.entries[c].task
            && (Live(s.r, other) ==> Live(r, other) && r.entries[other] == s.r.entries[other])
            && r.pending == s.r.pending[VoiceKey(c) := c][(c.scope, status) := c]
            && r.entries.Keys == s.r.entries.Keys + {c}
  {
  }

  ghost predicate WaitForEachOther(s: State, a: Claim, b: Claim) {
    a != b && Reached(s) && (a, b) in HoldsUp(s) && (b, a) in HoldsUp(s)
  }

  lemma TwoHandoffs() returns (s: State, a: Claim, b: Claim)
    ensures Reached(s) && s.ops == map[] && s.done == {} && a != b && s.r.protection == map[]
    ensures Live(s.r, a) && Live(s.r, b) && s.r.entries[a].task && s.r.entries[b].task
  {
    var chat := Scope("telegram", "1");
    a := Claim(chat, "10", 0);
    b := Claim(chat, "20", 1);
    assert CanRun(INIT, []) && Run(INIT, []) == INIT;
    PublishedIsReached(INIT, a, "11");
    PublishedIsLive(INIT, a, "11", a);
    var s1 := Published(INIT, a, "11");
    PublishedIsReached(s1, b, "21");
    PublishedIsLive(s1, b, "21", a);
    s := Published(s1, b, "21");
  }

  lemma ReachedInv(s: State)
    requires Reached(s)
    ensures Inv(s)
  {
    var steps: seq<Step> :| CanRun(INIT, steps) && Run(INIT, steps) == s;
    InitInv();
    RunInv(INIT, steps);
  }

  /** Two handoffs that discard each other's claims wait for each other. */
  lemma MutualDiscardsDeadlock()
    ensures exists s, a, b :: WaitForEachOther(s, a, b)
  {
    var s, a, b := TwoHandoffs();
    ReachedInv(s);
    ReachedStep(s, Discard(0, Some(a), b));
    var s1 := Do(s, Discard(0, Some(a), b));
    RemoveAllKeepsIndex(s.r, {b});
    ReachedStep(s1, Discard(1, Some(b), a));
    var s2 := Do(s1, Discard(1, Some(b), a));
    assert Through(s2, 0, a, b) && Through(s2, 1, b, a);
    Waits(s2, a, b);
    Waits(s2, b, a);
    assert WaitForEachOther(s2, a, b);
  }

  /** `a` waits by a discard, `b` by a cancellation. */
  ghost predicate OneDiscards(s: State, a: Claim, b: Claim) {
    exists o, p :: Through(s, o, a, b) && s.ops[o].Discarding? && Through(s, p, b, a) && Draining(s, p)
  }

  /** One discard is enough: a handoff that discards the claim of another one that cancels its claim. */
  lemma DiscardAndCancelDeadlock()
    ensures exists s, a, b :: WaitForEachOther(s, a, b) && OneDiscards(s, a, b)
  {
    var s, a, b := TwoHandoffs();
    var s1 := HalfWay(s, a, b);
    CancelCloses(s1, a, b);
  }

  /** `b` has begun to cancel, then `a` discards `b`. */
  lemma HalfWay(s: State, a: Claim, b: Claim) returns (s2: State)
    requires Reached(s) && s.ops == map[] && s.done == {} && a != b && s.r.protection == map[]
    requires Live(s.r, a) && Live(s.r, b) && s.r.entries[a].task && s.r.entries[b].task
    ensures Reached(s2) && s2.done == {} && Live(s2.r, a) && s2.r.entries[a].task && s2.r.protection == map[b := 1]
    ensures s2.ops == map[1 := Cancelling(Some(b), false, {}, 0), 0 := Discarding(Some(a), {b})]
  {
    ReachedStep(s, CancelBegins(1, Some(b)));
    var s1 := Do(s, CancelBegins(1, Some(b)));
    assert s1.r == s.r.(protection := map[b := 1]) && Live(s1.r, a) && Live(s1.r, b);
    ReachedStep(s1, Discard(0, Some(a), b));
    s2 := Do(s1, Discard(0, Some(a), b));
    assert WithTasks(s1.r, {b}) == {b};
  }

  lemma CancelCloses(s: State, a: Claim, b: Claim)
    requires Reached(s) && s.done == {} && Live(s.r, a) && s.r.entries[a].task
    requires s.r.protection == map[b := 1] && a != b
    requires s.ops == map[1 := Cancelling(Some(b), false, {}, 0), 0 := Discarding(Some(a), {b})]
    ensures exists s' :: WaitForEachOther(s', a, b) && OneDiscards(s', a, b)
  {
    assert PickOne(s.r, Some(b), VoiceKey(a)) == {a} && WithTasks(s.r, {a}) == {a};
    ReachedStep(s, CancelOne(1, VoiceKey(a)));
    var s' := Do(s, CancelOne(1, VoiceKey(a)));
    assert Through(s', 0, a, b) && Through(s', 1, b, a);
    Waits(s', a, b);
    Waits(s', b, a);
    assert WaitForEachOther(s', a, b) && OneDiscards(s', a, b);
  }
}
