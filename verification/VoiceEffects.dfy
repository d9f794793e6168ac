/** What the operations of the voice registry bring about, told by which claims are live and which keys lead to them. */
module VoiceEffects {
  import opened Options
  import opened VoiceRegistry
  import opened VoiceMachine

  /** A cancellation runs inside the handoff task of `c`. */
  predicate Cancels(s: State, c: Claim) {
    exists p :: p in s.ops && s.ops[p].Cancelling? && s.ops[p].caller == Some(c)
  }

  lemma ProtectedIffCancels(s: State, c: Claim)
    requires Inv(s)
    ensures 0 < ProtectionOf(s.r, c) <==> Cancels(s, c)
  {
    assert ProtectionOf(s.r, c) == |CancelsBy(s.ops, c)|;
    if Cancels(s, c) {
      var p :| p in s.ops && s.ops[p].Cancelling? && s.ops[p].caller == Some(c);
      assert p in CancelsBy(s.ops, c);
    } else {
      assert CancelsBy(s.ops, c) == {};
    }
  }

  predicate InScope(c: Claim, scope: Option<Scope>) {
    scope.None? || c.scope == scope.value
  }

  /** A selection may take a claim that is not the caller's own and whose handoff cancels nothing itself. */
  predicate Takeable(s: State, caller: Option<Claim>, c: Claim) {
    Live(s.r, c) && caller != Some(c) && !Cancels(s, c)
  }

  lemma PickedIff(s: State, caller: Option<Claim>, scope: Option<Scope>, key: Key, c: Claim)
    requires Inv(s)
    ensures c in PickMany(s.r, caller, scope) <==> Takeable(s, caller, c) && InScope(c, scope)
    ensures c in PickOne(s.r, caller, key) <==> Takeable(s, caller, c) && Names(s.r, c, key)
  {
    ProtectedIffCancels(s, c);
    PicksExactly(s.r, caller, scope, key, c);
  }

  /** What a selection leaves: the claims it took are no longer live, were released by it, and those with a
      published handoff are what it waits for; every other claim is as live as before. */
  ghost predicate Takes(s: State, s': State, o: nat, c: Claim, taken: bool) {
    && Draining(s', o) && Selecting(s, o) && s'.ops[o].caller == s.ops[o].caller
    && (Live(s'.r, c) <==> Live(s.r, c) && !taken)
    && s'.cancelled[c] == s.cancelled[c] + (if taken then 1 else 0)
    && s'.finished == s.finished && s'.discarded == s.discarded
    && (c in s'.ops[o].targets <==> taken && c in s.r.entries && s.r.entries[c].task)
    && s'.r.entries == s.r.entries && s'.r.protection == s.r.protection && s'.done == s.done
    && (forall p :: p in s.ops && p != o ==> p in s'.ops && s'.ops[p] == s.ops[p])
  }

  /** `cancel_scope` and `cancel_all` take exactly the live claims of the scope that are not the caller's own and
      whose handoff cancels nothing itself; `cancel` takes the one that the message names, under the same terms. */
  lemma SelectionsTakeExactly(s: State, step: Step, c: Claim)
    requires Inv(s) && Enabled(s, step) && (step.CancelOne? || step.CancelMany?)
    ensures Takes(s, Do(s, step), step.o, c,
                  Takeable(s, s.ops[step.o].caller, c) &&
                  (if step.CancelMany? then InScope(c, step.scope) else Names(s.r, c, step.key)))
  {
    var caller := s.ops[step.o].caller;
    match step
    case CancelOne(o, key) =>
      PickedIff(s, caller, None, key, c);
      RemoveAllKeepsIndex(s.r, PickOne(s.r, caller, key));
    case CancelMany(o, scope) =>
      PickedIff(s, caller, scope, VoiceKey(c), c);
      RemoveAllKeepsIndex(s.r, PickMany(s.r, caller, scope));
  }

  /** A finished handoff releases its own claim, and a discard the one it names, if it is still live; no other claim
      is touched. A discard then waits for that handoff, unless it runs in it. */
  lemma ReleasesTakeExactly(s: State, step: Step, d: Claim)
    requires Inv(s) && Enabled(s, step) && (step.Finish? || step.Discard?)
    ensures var s', took := Do(s, step), Live(s.r, step.c) && d == step.c;
            && (Live(s'.r, d) <==> Live(s.r, d) && d != step.c)
            && s'.finished[d] == s.finished[d] + (if took && step.Finish? then 1 else 0)
            && s'.discarded[d] == s.discarded[d] + (if took && step.Discard? then 1 else 0)
            && s'.cancelled == s.cancelled && s'.r.entries == s.r.entries && s'.done == s.done
            && (step.Finish? || !Live(s.r, step.c) ==> s'.ops == s.ops)
            && (step.Discard? && Live(s.r, step.c) ==>
                  && step.o in s'.ops && s'.ops - {step.o} == s.ops && s'.ops[step.o].Discarding?
                  && s'.ops[step.o].caller == step.caller
                  && (d in s'.ops[step.o].targets <==> took && step.caller != Some(d) && s.r.entries[d].task))
  {
    RemoveAllKeepsIndex(s.r, {step.c});
  }

  /** A reservation is refused exactly if its message id is taken, by a voice note or as somebody's status; one that
      is not makes the claim live, under that id alone and with no handoff. */
  lemma ReservingTakesTheId(s: State, c: Claim, k: Key)
    requires Inv(s) && Enabled(s, ReserveNote(c))
    ensures var r' := Do(s, ReserveNote(c)).r;
            && (Live(r', c) <==> VoiceKey(c) !in s.r.pending)
            && (VoiceKey(c) in s.r.pending ==> r' == s.r)
            && (VoiceKey(c) !in s.r.pending ==>
                  && r'.entries == s.r.entries[c := Entry(None, false)]
                  && (k in r'.pending && r'.pending[k] == c <==> k == VoiceKey(c))
                  && (k != VoiceKey(c) ==> (k in r'.pending <==> k in s.r.pending)
                                           && (k in r'.pending ==> r'.pending[k] == s.r.pending[k])))
  {
    forall l | l in s.r.pending ensures s.r.pending[l] != c {
      assert Live(s.r, s.r.pending[l]);
    }
  }

  /** Binding succeeds exactly for a live claim, with a status that is its own already, or with its first one if no
      other claim has that id; then the status leads to it, and else nothing changes. */
  lemma BindingTakesTheStatus(s: State, c: Claim, status: string, k: Key)
    requires Inv(s)
    ensures var (r', bound) := BindStatus(s.r, c, status);
            && Do(s, Bind(c, status)) == s.(r := r')
            && (bound <==>
                  && Live(s.r, c)
                  && (s.r.entries[c].status == Some(status)
                      || (s.r.entries[c].status.None? &&
                          ((c.scope, status) in s.r.pending ==> s.r.pending[(c.scope, status)] == c))))
            && (bound ==>
                  && Live(r', c) && r'.entries == s.r.entries[c := s.r.entries[c].(status := Some(status))]
                  && (c.scope, status) in r'.pending && r'.pending[(c.scope, status)] == c
                  && (k != (c.scope, status) ==> (k in r'.pending <==> k in s.r.pending)
                                                 && (k in r'.pending ==> r'.pending[k] == s.r.pending[k])))
            && (!bound ==> r' == s.r)
  {
    var (r', bound) := BindStatus(s.r, c, status);
    if bound && s.r.entries[c].status.Some? {
      assert s.r.entries[c := s.r.entries[c].(status := Some(status))] == s.r.entries;
      assert Names(s.r, c, (c.scope, status));
    }
  }

  /** The handoff is published once, for a live claim that has a status. */
  lemma PublishingIsOnce(s: State, c: Claim)
    requires Inv(s)
    ensures var (r', published) := PublishHandoff(s.r, c);
            && Do(s, Publish(c)) == s.(r := r')
            && (published <==> Live(s.r, c) && s.r.entries[c].status.Some? && !s.r.entries[c].task)
            && r'.pending == s.r.pending && r'.protection == s.r.protection
            && (if published then r'.entries == s.r.entries[c := s.r.entries[c].(task := true)] else r' == s.r)
            && !PublishHandoff(r', c).1
  {
  }

  /** A cancellation protects the handoff it runs in from its start to its end: each one counts for one. */
  lemma CancellationsProtect(s: State, step: Step, c: Claim)
    requires Inv(s) && Enabled(s, step)
    requires step.CancelBegins? || step.CancelEnds? || step.CancelAborted?
    ensures var s', mine := Do(s, step), if step.CancelBegins? then step.caller == Some(c)
                                         else s.ops[step.o].caller == Some(c);
            && s'.r.pending == s.r.pending && s'.r.entries == s.r.entries
            && (if step.CancelBegins? then s'.ops == s.ops[step.o := Cancelling(step.caller, false, {}, 0)]
                else s'.ops == s.ops - {step.o})
            && ProtectionOf(s'.r, c) ==
                 ProtectionOf(s.r, c) + (if !mine then 0 else if step.CancelBegins? then 1 else -1)
  {
    if !step.CancelBegins? && s.ops[step.o].caller == Some(c) {
      assert ProtectionOf(s.r, c) == |CancelsBy(s.ops, c)|;
      assert step.o in CancelsBy(s.ops, c);
    }
  }

  /** A wait ends exactly when every handoff it waits for has ended, and then leaves nothing behind. */
  lemma WaitsEndWithTheirTasks(s: State, o: nat, c: Claim)
    requires Inv(s) && o in s.ops
    ensures var over := forall d :: d in s.ops[o].targets ==> d in s.done;
            && (Enabled(s, CancelEnds(o)) <==> Draining(s, o) && over)
            && (Enabled(s, DiscardEnds(o)) <==> s.ops[o].Discarding? && over)
            && (Enabled(s, DiscardEnds(o)) ==> Do(s, DiscardEnds(o)) == s.(ops := s.ops - {o}))
    ensures Enabled(s, TaskEnds(c)) <==> c in s.r.entries && s.r.entries[c].task
    ensures Enabled(s, TaskEnds(c)) ==> Do(s, TaskEnds(c)) == s.(done := s.done + {c})
    ensures Enabled(s, Finish(c)) <==> Enabled(s, TaskEnds(c)) && c in s.done
  {
  }
}
