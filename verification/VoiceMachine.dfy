/** Voice cancellation as a state machine: reservations, handoff tasks and any number of concurrent
    cancellations, each of which may itself run inside a handoff task. */
module VoiceMachine {
  import opened Options
  import opened VoiceRegistry

  /** A `cancel`, `cancel_scope` or `cancel_all` in flight, or a `discard` in flight. `caller` is the claim whose
      handoff task it runs in, if any; `targets` are the claims whose tasks it waits for; `stamp` numbers the
      selections in the order they happened. */
  datatype Op =
    | Cancelling(caller: Option<Claim>, draining: bool, targets: set<Claim>, stamp: nat)
    | Discarding(caller: Option<Claim>, targets: set<Claim>)

  /** `done` are the handoff tasks that ended; the three multisets count how each claim was released. */
  datatype State = State(r: Registry, done: set<Claim>, ops: map<nat, Op>, stamp: nat,
                         finished: multiset<Claim>, discarded: multiset<Claim>, cancelled: multiset<Claim>)

  const INIT := State(EMPTY, {}, map[], 0, multiset{}, multiset{}, multiset{})

  datatype Step =
    | ReserveNote(c: Claim)
    | Bind(c: Claim, status: string)
    | Publish(c: Claim)
    | TaskEnds(c: Claim)
    | Finish(c: Claim)
    | Discard(o: nat, caller: Option<Claim>, c: Claim)
    | DiscardEnds(o: nat)
    | CancelBegins(o: nat, caller: Option<Claim>)
    | CancelOne(o: nat, key: Key)
    | CancelMany(o: nat, scope: Option<Scope>)
    | CancelEnds(o: nat)
    | CancelAborted(o: nat)

  function WithTasks(r: Registry, cs: set<Claim>): set<Claim> {
    set c | c in cs && c in r.entries && r.entries[c].task
  }

  predicate Selecting(s: State, o: nat) {
    o in s.ops && s.ops[o].Cancelling? && !s.ops[o].draining
  }

  predicate Draining(s: State, o: nat) {
    o in s.ops && s.ops[o].Cancelling? && s.ops[o].draining
  }

  predicate Enabled(s: State, step: Step) {
    match step
    case ReserveNote(c) => c !in s.r.entries
    case Bind(_, _) => true
    case Publish(_) => true
    case TaskEnds(c) => c in s.r.entries && s.r.entries[c].task
    case Finish(c) => c in s.r.entries && s.r.entries[c].task && c in s.done
    case Discard(o, _, _) => o !in s.ops
    case DiscardEnds(o) => o in s.ops && s.ops[o].Discarding? && s.ops[o].targets <= s.done
    case CancelBegins(o, _) => o !in s.ops
    case CancelOne(o, _) => Selecting(s, o)
    case CancelMany(o, _) => Selecting(s, o)
    case CancelEnds(o) => Draining(s, o) && s.ops[o].targets <= s.done
    case CancelAborted(o) => Selecting(s, o)
  }

  /** The locked body of a cancellation that picked `picks`. */
  function DoSelect(s: State, o: nat, picks: set<Claim>): State
    requires o in s.ops
  {
    s.(r := RemoveAll(s.r, picks),
       ops := s.ops[o := Cancelling(s.ops[o].caller, true, WithTasks(s.r, picks), s.stamp)],
       stamp := s.stamp + 1,
       cancelled := s.cancelled + multiset(picks))
  }

  function DoEnd(s: State, o: nat): State
    requires o in s.ops
  {
    s.(r := Unprotect(s.r, s.ops[o].caller), ops := s.ops - {o})
  }

  function Do(s: State, step: Step): State
    requires Enabled(s, step)
  {
    match step
    case ReserveNote(c) => s.(r := Reserve(s.r, c))
    case Bind(c, status) => s.(r := BindStatus(s.r, c, status).0)
    case Publish(c) => s.(r := PublishHandoff(s.r, c).0)
    case TaskEnds(c) => s.(done := s.done + {c})
    case Finish(c) =>
      if Live(s.r, c) then s.(r := RemoveAll(s.r, {c}), finished := s.finished + multiset{c}) else s
    case Discard(o, caller, c) =>
      if Live(s.r, c) then
        s.(r := RemoveAll(s.r, {c}), discarded := s.discarded + multiset{c},
           ops := s.ops[o := Discarding(caller, if caller == Some(c) then {} else WithTasks(s.r, {c}))])
      else s
    case DiscardEnds(o) => s.(ops := s.ops - {o})
    case CancelBegins(o, caller) =>
      s.(r := Protect(s.r, caller), ops := s.ops[o := Cancelling(caller, false, {}, 0)])
    case CancelOne(o, key) => DoSelect(s, o, PickOne(s.r, s.ops[o].caller, key))
    case CancelMany(o, scope) => DoSelect(s, o, PickMany(s.r, s.ops[o].caller, scope))
    case CancelEnds(o) => DoEnd(s, o)
    case CancelAborted(o) => DoEnd(s, o)
  }

  predicate CanRun(s: State, steps: seq<Step>)
    decreases |steps|
  {
    steps == [] || (Enabled(s, steps[0]) && CanRun(Do(s, steps[0]), steps[1..]))
  }

  function Run(s: State, steps: seq<Step>): State
    requires CanRun(s, steps)
    decreases |steps|
  {
    if steps == [] then s else Run(Do(s, steps[0]), steps[1..])
  }

  // ----- The invariant -----

  /** Cancellations in flight that run inside the handoff task of `c`. */
  function CancelsBy(ops: map<nat, Op>, c: Claim): set<nat> {
    set o | o in ops && ops[o].Cancelling? && ops[o].caller == Some(c)
  }

  ghost predicate ProtectionInv(s: State) {
    && (forall c :: ProtectionOf(s.r, c) == |CancelsBy(s.ops, c)|)
    && (forall c :: c in s.r.protection ==> 0 < s.r.protection[c])
  }

  predicate InTaskOfTarget(inner: Op, outer: Op) {
    inner.caller.Some? && inner.caller.value in outer.targets
  }

  /** A cancellation running inside the task of a claim that another one drains was selected later. */
  ghost predicate StampInv(s: State) {
    && (forall o :: Draining(s, o) ==> s.ops[o].stamp < s.stamp)
    && (forall o, p :: Draining(s, o) && Draining(s, p) && InTaskOfTarget(s.ops[p], s.ops[o]) ==>
          s.ops[o].stamp < s.ops[p].stamp)
  }

  /** A reserved claim is live, or it was released exactly once, by exactly one winner. */
  ghost predicate ReleaseInv(s: State) {
    forall c :: s.finished[c] + s.discarded[c] + s.cancelled[c]
                == if c in s.r.entries && !Live(s.r, c) then 1 else 0
  }

  ghost predicate Inv(s: State) {
    IndexInv(s.r) && ProtectionInv(s) && StampInv(s) && ReleaseInv(s)
  }

  lemma OpAdded(ops: map<nat, Op>, o: nat, op: Op, c: Claim)
    requires o !in ops
    ensures |CancelsBy(ops[o := op], c)|
            == |CancelsBy(ops, c)| + if op.Cancelling? && op.caller == Some(c) then 1 else 0
  {
    assert CancelsBy(ops[o := op], c)
        == CancelsBy(ops, c) + if op.Cancelling? && op.caller == Some(c) then {o} else {};
  }

  lemma OpRemoved(ops: map<nat, Op>, o: nat, c: Claim)
    requires o in ops
    ensures |CancelsBy(ops - {o}, c)|
            == |CancelsBy(ops, c)| - if ops[o].Cancelling? && ops[o].caller == Some(c) then 1 else 0
  {
    assert CancelsBy(ops - {o}, c) == CancelsBy(ops, c) - {o};
  }

  lemma OpReplaced(ops: map<nat, Op>, o: nat, op: Op, c: Claim)
    requires o in ops && ops[o].Cancelling? && op.Cancelling? && op.caller == ops[o].caller
    ensures CancelsBy(ops[o := op], c) == CancelsBy(ops, c)
  {
  }

  /** Nobody protected, and not the caller itself: no cancellation runs inside a picked claim's task. */
  lemma PicksAreIdle(s: State, caller: Option<Claim>, picks: set<Claim>)
    requires Inv(s)
    requires forall c :: c in picks ==> !Excluded(s.r, c, caller)
    ensures forall c, p :: c in picks && p in s.ops && s.ops[p].Cancelling? ==> s.ops[p].caller != Some(c)
  {
    forall c, p | c in picks && p in s.ops && s.ops[p].Cancelling? ensures s.ops[p].caller != Some(c) {
      assert ProtectionOf(s.r, c) == |CancelsBy(s.ops, c)|;
      assert CancelsBy(s.ops, c) == {};
      assert p !in CancelsBy(s.ops, c);
    }
  }

  lemma SelectKeepsInv(s: State, o: nat, picks: set<Claim>)
    requires Inv(s) && Selecting(s, o)
    requires forall c :: c in picks ==> Live(s.r, c) && !Excluded(s.r, c, s.ops[o].caller)
    ensures Inv(DoSelect(s, o, picks))
  {
    var s' := DoSelect(s, o, picks);
    RemoveAllKeepsIndex(s.r, picks);
    PicksAreIdle(s, s.ops[o].caller, picks);
    forall c ensures ProtectionOf(s'.r, c) == |CancelsBy(s'.ops, c)| {
      OpReplaced(s.ops, o, s'.ops[o], c);
      assert ProtectionOf(s'.r, c) == ProtectionOf(s.r, c);
    }
    forall p, q | Draining(s', p) && Draining(s', q) && InTaskOfTarget(s'.ops[q], s'.ops[p])
      ensures s'.ops[p].stamp < s'.ops[q].stamp
    {
      if p != o {
        assert Draining(s, p);
        if q != o { assert Draining(s, q); }
      }
    }
    forall c ensures s'.finished[c] + s'.discarded[c] + s'.cancelled[c]
                     == if c in s'.r.entries && !Live(s'.r, c) then 1 else 0
    {
      assert s.finished[c] + s.discarded[c] + s.cancelled[c] == if c in s.r.entries && !Live(s.r, c) then 1 else 0;
    }
  }

  lemma PicksAreFree(r: Registry, caller: Option<Claim>, key: Key, scope: Option<Scope>)
    requires IndexInv(r)
    ensures forall c :: c in PickOne(r, caller, key) ==> Live(r, c) && !Excluded(r, c, caller)
    ensures forall c :: c in PickMany(r, caller, scope) ==> Live(r, c) && !Excluded(r, c, caller)
  {
  }

  lemma EndKeepsInv(s: State, o: nat)
    requires Inv(s) && o in s.ops && s.ops[o].Cancelling?
    ensures Inv(DoEnd(s, o))
  {
    var s' := DoEnd(s, o);
    assert s'.r.pending == s.r.pending && s'.r.entries == s.r.entries;
    IndexSurvives(s.r, s'.r);
    EndKeepsProtection(s, o);
    StampsSurvive(s, s');
    ReleasesSurvive(s, s');
  }

  lemma EndKeepsProtection(s: State, o: nat)
    requires ProtectionInv(s) && o in s.ops && s.ops[o].Cancelling?
    ensures ProtectionInv(DoEnd(s, o))
  {
    var s' := DoEnd(s, o);
    var caller := s.ops[o].caller;
    if caller.Some? {
      assert o in CancelsBy(s.ops, caller.value);
      assert ProtectionOf(s.r, caller.value) > 0;
    }
    forall c ensures ProtectionOf(s'.r, c) == |CancelsBy(s'.ops, c)| {
      OpRemoved(s.ops, o, c);
      assert ProtectionOf(s.r, c) == |CancelsBy(s.ops, c)|;
    }
  }

  lemma IndexSurvives(r: Registry, r': Registry)
    requires IndexInv(r) && r'.pending == r.pending && r'.entries == r.entries
    ensures IndexInv(r') && forall c :: Live(r', c) <==> Live(r, c)
  {
    forall c ensures Live(r', c) <==> Live(r, c) {}
    forall k | k in r'.pending ensures Live(r', r'.pending[k]) && Names(r', r'.pending[k], k) {
      assert Live(r, r.pending[k]) && Names(r, r.pending[k], k);
    }
  }

  lemma StampsSurvive(s: State, s': State)
    requires StampInv(s) && s'.stamp == s.stamp
    requires forall o :: Draining(s', o) ==> Draining(s, o) && s'.ops[o] == s.ops[o]
    ensures StampInv(s')
  {
  }

  lemma ReleasesSurvive(s: State, s': State)
    requires ReleaseInv(s)
    requires s'.finished == s.finished && s'.discarded == s.discarded && s'.cancelled == s.cancelled
    requires forall c :: (c in s'.r.entries && !Live(s'.r, c)) <==> (c in s.r.entries && !Live(s.r, c))
    ensures ReleaseInv(s')
  {
    forall c ensures s'.finished[c] + s'.discarded[c] + s'.cancelled[c]
                     == if c in s'.r.entries && !Live(s'.r, c) then 1 else 0
    {
      assert s.finished[c] + s.discarded[c] + s.cancelled[c] == if c in s.r.entries && !Live(s.r, c) then 1 else 0;
    }
  }

  /** Releasing one live claim keeps the books, whoever wins. */
  lemma ReleaseOneKeepsInv(s: State, c: Claim, s': State)
    requires Inv(s) && Live(s.r, c)
    requires s'.r == RemoveAll(s.r, {c}) && s'.stamp == s.stamp
    requires s' == s.(r := s'.r, ops := s'.ops, finished := s'.finished, discarded := s'.discarded)
    requires (s'.finished == s.finished + multiset{c} && s'.discarded == s.discarded)
             || (s'.discarded == s.discarded + multiset{c} && s'.finished == s.finished)
    requires forall d :: CancelsBy(s'.ops, d) == CancelsBy(s.ops, d)
    requires forall o :: Draining(s', o) ==> Draining(s, o) && s'.ops[o] == s.ops[o]
    ensures Inv(s')
  {
    RemoveAllKeepsIndex(s.r, {c});
    forall d ensures ProtectionOf(s'.r, d) == |CancelsBy(s'.ops, d)| {
      assert ProtectionOf(s.r, d) == |CancelsBy(s.ops, d)|;
    }
    StampsSurvive(s, s');
    forall d ensures s'.finished[d] + s'.discarded[d] + s'.cancelled[d]
                     == if d in s'.r.entries && !Live(s'.r, d) then 1 else 0
    {
      assert s.finished[d] + s.discarded[d] + s.cancelled[d] == if d in s.r.entries && !Live(s.r, d) then 1 else 0;
    }
  }

  lemma BeginKeepsInv(s: State, o: nat, caller: Option<Claim>)
    requires Inv(s) && o !in s.ops
    ensures Inv(Do(s, CancelBegins(o, caller)))
  {
    var s' := Do(s, CancelBegins(o, caller));
    IndexSurvives(s.r, s'.r);
    forall c ensures ProtectionOf(s'.r, c) == |CancelsBy(s'.ops, c)| {
      OpAdded(s.ops, o, s'.ops[o], c);
      assert ProtectionOf(s.r, c) == |CancelsBy(s.ops, c)|;
    }
    StampsSurvive(s, s');
    ReleasesSurvive(s, s');
  }

  /** Steps that move neither operations nor releases. */
  lemma EntryKeepsInv(s: State, step: Step)
    requires Inv(s) && Enabled(s, step)
    requires step.ReserveNote? || step.Bind? || step.Publish? || step.TaskEnds?
    ensures Inv(Do(s, step))
  {
    var s' := Do(s, step);
    match step
    case ReserveNote(c) => ReserveKeepsIndex(s.r, c);
    case Bind(c, status) => BindKeepsIndex(s.r, c, status);
    case Publish(c) => PublishKeepsIndex(s.r, c);
    case TaskEnds(_) =>
    forall c ensures ProtectionOf(s'.r, c) == |CancelsBy(s'.ops, c)| {
      assert ProtectionOf(s.r, c) == |CancelsBy(s.ops, c)|;
    }
    StampsSurvive(s, s');
    ReleasesSurvive(s, s');
  }

  /** Every step keeps the whole invariant. */
  lemma StepInv(s: State, step: Step)
    requires Inv(s) && Enabled(s, step)
    ensures Inv(Do(s, step))
  {
    match step
    case Finish(c) =>
      if Live(s.r, c) { ReleaseOneKeepsInv(s, c, Do(s, step)); }
    case Discard(o, caller, c) =>
      if Live(s.r, c) {
        forall d ensures CancelsBy(Do(s, step).ops, d) == CancelsBy(s.ops, d) {}
        ReleaseOneKeepsInv(s, c, Do(s, step));
      }
    case DiscardEnds(o) => DiscardEndKeepsInv(s, o);
    case CancelBegins(o, caller) => BeginKeepsInv(s, o, caller);
    case CancelOne(o, key) =>
      PicksAreFree(s.r, s.ops[o].caller, key, None);
      SelectKeepsInv(s, o, PickOne(s.r, s.ops[o].caller, key));
    case CancelMany(o, scope) =>
      PicksAreFree(s.r, s.ops[o].caller, (Scope("", ""), ""), scope);
      SelectKeepsInv(s, o, PickMany(s.r, s.ops[o].caller, scope));
    case CancelEnds(o) => EndKeepsInv(s, o);
    case CancelAborted(o) => EndKeepsInv(s, o);
    case _ => EntryKeepsInv(s, step);
  }

  lemma DiscardEndKeepsInv(s: State, o: nat)
    requires Inv(s) && o in s.ops && s.ops[o].Discarding?
    ensures Inv(s.(ops := s.ops - {o}))
  {
    var s' := s.(ops := s.ops - {o});
    forall c ensures ProtectionOf(s'.r, c) == |CancelsBy(s'.ops, c)| {
      OpRemoved(s.ops, o, c);
      assert ProtectionOf(s.r, c) == |CancelsBy(s.ops, c)|;
    }
    StampsSurvive(s, s');
    ReleasesSurvive(s, s');
  }

  lemma {:induction false} RunInv(s: State, steps: seq<Step>)
    requires Inv(s) && CanRun(s, steps)
    ensures Inv(Run(s, steps))
    decreases |steps|
  {
    if steps != [] {
      StepInv(s, steps[0]);
      RunInv(Do(s, steps[0]), steps[1..]);
    }
  }

  lemma InitInv()
    ensures Inv(INIT)
  {
    forall c ensures ProtectionOf(INIT.r, c) == |CancelsBy(INIT.ops, c)| {
      assert CancelsBy(INIT.ops, c) == {};
    }
  }

  // ----- What it means -----

  /** Over every run, each reserved claim is released at most once among finished handoff, discard and
      cancellation, and never while it is still live. */
  lemma ReleasedAtMostOnce(steps: seq<Step>, c: Claim)
    requires CanRun(INIT, steps)
    ensures var s := Run(INIT, steps);
            && s.finished[c] + s.discarded[c] + s.cancelled[c] <= 1
            && (s.finished[c] + s.discarded[c] + s.cancelled[c] == 1 <==> c in s.r.entries && !Live(s.r, c))
  {
    InitInv();
    RunInv(INIT, steps);
    var s := Run(INIT, steps);
    assert s.finished[c] + s.discarded[c] + s.cancelled[c] == if c in s.r.entries && !Live(s.r, c) then 1 else 0;
  }

  /** Over every run, live entries and keys agree: an entry is reachable under its voice key and, once bound,
      its status key; a key never leads to a foreign or half-removed entry. */
  lemma KeysAndEntriesAgree(steps: seq<Step>, k: Key, c: Claim)
    requires CanRun(INIT, steps)
    ensures var r := Run(INIT, steps).r;
            && (k in r.pending && r.pending[k] == c <==> Live(r, c) && Names(r, c, k))
  {
    InitInv();
    RunInv(INIT, steps);
  }

  lemma DeadStep(s: State, step: Step, c: Claim)
    requires Inv(s) && Enabled(s, step) && c in s.r.entries && !Live(s.r, c)
    ensures c in Do(s, step).r.entries && !Live(Do(s, step).r, c)
  {
    match step
    case ReserveNote(d) =>
    case Bind(d, status) => BindKeepsIndex(s.r, d, status);
    case Publish(d) => PublishKeepsIndex(s.r, d);
    case _ =>
  }

  /** A released claim is released for good: however its message id is reserved again, everything done later
      with the old claim finds nothing, changes nothing and picks nothing. */
  lemma {:induction false} OldClaimsNeverAct(s: State, steps: seq<Step>, c: Claim, status: string)
    requires Inv(s) && CanRun(s, steps) && c in s.r.entries && !Live(s.r, c)
    ensures var r := Run(s, steps).r;
            && !Live(r, c)
            && BindStatus(r, c, status) == (r, false) && PublishHandoff(r, c) == (r, false)
            && c in r.entries && Remove(r, c) == r
            && (forall k, caller :: c !in PickOne(r, caller, k))
            && (forall caller, scope :: c !in PickMany(r, caller, scope))
    decreases |steps|
  {
    if steps == [] {
      DeadClaimsAreInert(s.r, c, status);
    } else {
      StepInv(s, steps[0]);
      DeadStep(s, steps[0], c);
      OldClaimsNeverAct(Do(s, steps[0]), steps[1..], c, status);
    }
  }

  /** The handoff task of `c` may be waiting for that of `d`: a cancellation running inside it drains `d`. */
  ghost predicate WaitsFor(s: State, c: Claim, d: Claim) {
    exists o :: Draining(s, o) && s.ops[o].caller == Some(c) && d in s.ops[o].targets && d !in s.done
  }

  ghost predicate WaitingPath(s: State, path: seq<Claim>) {
    2 <= |path| && forall i :: 0 <= i < |path| - 1 ==> WaitsFor(s, path[i], path[i + 1])
  }

  /** Along a path of waits the selections happened one after the other. */
  lemma {:induction false} PathsAscend(s: State, path: seq<Claim>, first: nat, last: nat)
    requires Inv(s) && WaitingPath(s, path) && 3 <= |path|
    requires Draining(s, first) && s.ops[first].caller == Some(path[0]) && path[1] in s.ops[first].targets
    requires Draining(s, last) && s.ops[last].caller == Some(path[|path| - 2])
    requires path[|path| - 1] in s.ops[last].targets
    ensures s.ops[first].stamp < s.ops[last].stamp
    decreases |path|
  {
    if |path| > 3 {
      assert WaitsFor(s, path[1], path[2]);
      var next :| Draining(s, next) && s.ops[next].caller == Some(path[1]) && path[2] in s.ops[next].targets
                  && path[2] !in s.done;
      assert WaitingPath(s, path[1..]) by {
        forall i | 0 <= i < |path[1..]| - 1 ensures WaitsFor(s, path[1..][i], path[1..][i + 1]) {
          assert WaitsFor(s, path[i + 1], path[i + 2]);
        }
      }
      PathsAscend(s, path[1..], next, last);
    }
  }

  /** Over every run, no chain of handoffs cancelling each other ever closes into a cycle. */
  lemma WaitsAreAcyclic(steps: seq<Step>, path: seq<Claim>)
    requires CanRun(INIT, steps) && WaitingPath(Run(INIT, steps), path)
    ensures path[0] != path[|path| - 1]
  {
    InitInv();
    RunInv(INIT, steps);
    var s := Run(INIT, steps);
    assert WaitsFor(s, path[0], path[1]);
    var first :| Draining(s, first) && s.ops[first].caller == Some(path[0]) && path[1] in s.ops[first].targets
                 && path[1] !in s.done;
    var n := |path|;
    assert WaitsFor(s, path[n - 2], path[n - 2 + 1]);
    var last :| Draining(s, last) && s.ops[last].caller == Some(path[n - 2]) && path[n - 1] in s.ops[last].targets
                && path[n - 1] !in s.done;
    if n == 2 {
      assert InTaskOfTarget(s.ops[first], s.ops[first]) <==> path[0] == path[1];
    } else {
      PathsAscend(s, path, first, last);
      assert InTaskOfTarget(s.ops[first], s.ops[last]) <==> path[0] in s.ops[last].targets;
    }
  }

  /** An unfinished drain always waits, perhaps through others, for a task that no unfinished drain holds up. */
  lemma {:induction false} DrainsCanProceed(s: State, o: nat)
    requires Inv(s) && Draining(s, o) && !(s.ops[o].targets <= s.done)
    ensures exists p, d :: Draining(s, p) && d in s.ops[p].targets && d !in s.done
              && forall q :: Draining(s, q) && s.ops[q].caller == Some(d) ==> s.ops[q].targets <= s.done
    decreases s.stamp - s.ops[o].stamp
  {
    var d :| d in s.ops[o].targets && d !in s.done;
    if p :| Draining(s, p) && s.ops[p].caller == Some(d) && !(s.ops[p].targets <= s.done) {
      assert InTaskOfTarget(s.ops[p], s.ops[o]);
      DrainsCanProceed(s, p);
    }
  }
}
