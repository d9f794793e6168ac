/** The registry object of messaging/voice.py: entries shared between two dictionary keys, changed in place. */
module VoiceObjects {
  import opened Options
  import opened VoiceRegistry

  /** What a successful cancellation hands back. */
  datatype CancellationResult =
    CancellationResult(scope: Scope, voice: string, status: Option<string>, delete: set<string>)

  class PendingVoice {
    const claim: Claim
    var status: Option<string>
    var task: bool

    constructor (claim: Claim)
      ensures this.claim == claim && status == None && !task
    {
      this.claim := claim;
      status := None;
      task := false;
    }
  }

  class PendingVoiceRegistry {
    var pending: map<Key, PendingVoice>
    var activeCancellations: map<Claim, nat>
    ghost var entries: map<Claim, PendingVoice>

    ghost predicate Knows(entry: PendingVoice)
      reads this
    {
      entry.claim in entries && entries[entry.claim] == entry
    }

    ghost function Keys(): map<Key, Claim>
      reads this`pending
    {
      map k | k in pending :: pending[k].claim
    }

    ghost function Entries(): map<Claim, Entry>
      reads this`entries, entries.Values
    {
      map c | c in entries :: Entry(entries[c].status, entries[c].task)
    }

    ghost function View(): Registry
      reads this, entries.Values
    {
      Registry(Keys(), Entries(), activeCancellations)
    }

    /** Every key leads to an entry made here, under its own claim. That the keys are the right ones is
        IndexInv of the view, which every operation keeps. */
    ghost predicate Valid()
      reads this
    {
      && (forall c :: c in entries ==> entries[c].claim == c)
      && (forall k :: k in pending ==> Knows(pending[k]))
    }

    constructor ()
      ensures Valid() && View() == EMPTY && entries == map[]
    {
      pending := map[];
      activeCancellations := map[];
      entries := map[];
    }

    /** `id` stands for the fresh uuid. */
    method ReserveNote(scope: Scope, voice: string, id: nat) returns (claim: Option<Claim>)
      requires Valid() && Claim(scope, voice, id) !in entries
      modifies this
      ensures Valid() && View() == Reserve(old(View()), Claim(scope, voice, id))
      ensures claim == if (scope, voice) in old(pending) then None else Some(Claim(scope, voice, id))
    {
      if (scope, voice) in pending {
        return None;
      }
      claim := Some(Claim(scope, voice, id));
      var entry := new PendingVoice(claim.value);
      Insert(entry);
    }

    method Insert(entry: PendingVoice)
      requires Valid() && entry.claim !in entries && entry.status == None && !entry.task
      modifies this
      ensures Valid() && activeCancellations == old(activeCancellations)
      ensures View().pending == old(View()).pending[VoiceKey(entry.claim) := entry.claim]
      ensures View().entries == old(View()).entries[entry.claim := Entry(None, false)]
    {
      ghost var keys, values := Keys(), Entries();
      pending := pending[(entry.claim.scope, entry.claim.voice) := entry];
      assert Keys() == keys[VoiceKey(entry.claim) := entry.claim];
      entries := entries[entry.claim := entry];
      assert Entries() == values[entry.claim := Entry(None, false)];
    }

    method EntryForClaim(claim: Claim) returns (entry: PendingVoice?)
      requires Valid()
      ensures entry == null <==> !Live(View(), claim)
      ensures entry != null ==> Knows(entry) && entry.claim == claim
    {
      if (claim.scope, claim.voice) !in pending || pending[(claim.scope, claim.voice)].claim != claim {
        return null;
      }
      entry := pending[(claim.scope, claim.voice)];
    }

    method AddKey(key: Key, entry: PendingVoice)
      requires Valid() && Knows(entry)
      modifies this`pending
      ensures Valid() && Keys() == old(Keys())[key := entry.claim]
    {
      pending := pending[key := entry];
    }

    method SetStatus(entry: PendingVoice, status: string)
      requires Valid() && Knows(entry)
      modifies entry`status
      ensures Valid() && entry.status == Some(status)
      ensures Entries() == old(Entries())[entry.claim := old(Entries())[entry.claim].(status := Some(status))]
    {
      entry.status := Some(status);
      assert forall c :: c in entries && c != entry.claim ==> entries[c] != entry;
    }

    method Bind(claim: Claim, status: string) returns (bound: bool)
      requires Valid()
      modifies this, entries.Values
      ensures Valid() && (View(), bound) == BindStatus(old(View()), claim, status)
      ensures entries == old(entries)
    {
      var entry := EntryForClaim(claim);
      if entry == null {
        return false;
      }
      assert View().entries[claim] == Entry(entry.status, entry.task);
      if entry.status.Some? {
        return entry.status.value == status;
      }
      var key := (claim.scope, status);
      if key in pending && pending[key] != entry {
        return false;
      }
      SetStatus(entry, status);
      AddKey(key, entry);
      bound := true;
    }

    /** The locked part of `handoff`. */
    method StartHandoff(claim: Claim) returns (entry: PendingVoice?)
      requires Valid()
      modifies entries.Values
      ensures Valid() && (View(), entry != null) == PublishHandoff(old(View()), claim)
      ensures entry != null ==> Knows(entry) && entry.claim == claim
    {
      entry := EntryForClaim(claim);
      if entry == null {
        return;
      }
      assert View().entries[claim] == Entry(entry.status, entry.task);
      if entry.status.None? || entry.task {
        return null;
      }
      entry.task := true;
      assert View() == PublishHandoff(old(View()), claim).0;
    }

    /** Drop a key that leads to this entry. */
    method PopKey(key: Key, entry: PendingVoice)
      requires Valid() && Knows(entry)
      modifies this`pending
      ensures Valid() && Keys() == Pop(old(Keys()), key, entry.claim)
    {
      assert key in pending ==> Knows(pending[key]);
      if key in pending && pending[key] == entry {
        pending := pending - {key};
      }
    }

    /** `_remove`. */
    method RemoveEntry(entry: PendingVoice)
      requires Valid() && Knows(entry)
      modifies this`pending
      ensures Valid() && View() == Remove(old(View()), entry.claim)
    {
      assert Entries()[entry.claim] == Entry(entry.status, entry.task);
      PopKey((entry.claim.scope, entry.claim.voice), entry);
      if entry.status.Some? {
        PopKey((entry.claim.scope, entry.status.value), entry);
      }
    }

    /** `_complete_if_owned`: the handoff finished, if nobody took the entry away meanwhile. */
    method CompleteIfOwned(entry: PendingVoice) returns (owned: bool)
      requires Valid() && Knows(entry) && IndexInv(View())
      modifies this`pending
      ensures Valid() && owned == Live(old(View()), entry.claim)
      ensures View() == if owned then RemoveAll(old(View()), {entry.claim}) else old(View())
    {
      var current := EntryForClaim(entry.claim);
      owned := current == entry;
      if owned {
        RemoveDropsExactly(View(), entry.claim);
        RemoveEntry(entry);
      }
    }

    /** The locked part of `discard`; the entry it returns still carries its task. */
    method TakeForDiscard(claim: Claim) returns (entry: PendingVoice?)
      requires Valid() && IndexInv(View())
      modifies this`pending
      ensures Valid() && (entry != null <==> Live(old(View()), claim))
      ensures entry != null ==> Knows(entry) && entry.claim == claim
      ensures View() == if entry != null then RemoveAll(old(View()), {claim}) else old(View())
    {
      entry := EntryForClaim(claim);
      if entry != null {
        RemoveDropsExactly(View(), claim);
        RemoveEntry(entry);
      }
    }

    predicate IsExcluded(entry: PendingVoice, caller: Option<Claim>)
      reads this
      ensures IsExcluded(entry, caller) <==>
                caller == Some(entry.claim)
                || (entry.claim in activeCancellations && 0 < activeCancellations[entry.claim])
    {
      caller == Some(entry.claim) || (entry.claim in activeCancellations && activeCancellations[entry.claim] > 0)
    }

    /** The locked part of `cancel`. The ids it allows to be deleted always include the one it was asked
        about, the status whenever one is bound, and the voice message only if it was asked about itself. */
    method TakeForCancel(caller: Option<Claim>, scope: Scope, reference: string)
      returns (entry: PendingVoice?, result: Option<CancellationResult>)
      requires Valid() && IndexInv(View())
      modifies this`pending
      ensures Valid() && View() == RemoveAll(old(View()), PickOne(old(View()), caller, (scope, reference)))
      ensures PickOne(old(View()), caller, (scope, reference)) == if entry == null then {} else {entry.claim}
      ensures result.Some? <==> entry != null
      ensures entry != null ==>
                && result.value.scope == scope && result.value.voice == entry.claim.voice
                && result.value.status == entry.status
                && reference in result.value.delete
                && (entry.status.Some? ==> entry.status.value in result.value.delete)
                && (entry.claim.voice in result.value.delete ==>
                      reference == entry.claim.voice || entry.status == Some(entry.claim.voice))
                && (forall id :: id in result.value.delete ==> Names(old(View()), entry.claim, (scope, id)))
    {
      var key := (scope, reference);
      if key !in pending || IsExcluded(pending[key], caller) {
        assert PickOne(View(), caller, key) == {};
        NoneRemoved(View());
        return null, None;
      }
      entry := pending[key];
      assert View().pending[key] == entry.claim && Names(View(), entry.claim, key);
      assert View().entries[entry.claim] == Entry(entry.status, entry.task);
      RemoveDropsExactly(View(), entry.claim);
      RemoveEntry(entry);
      var delete := if reference != entry.claim.voice then {} else {entry.claim.voice};
      if entry.status.Some? {
        delete := delete + {entry.status.value};
      }
      result := Some(CancellationResult(entry.claim.scope, entry.claim.voice, entry.status, delete));
    }

    /** The locked part of `cancel_scope` and `cancel_all`: collect the owners of matching keys, each once
        however many keys it has, then remove them one by one. */
    method TakeMatching(caller: Option<Claim>, scope: Option<Scope>) returns (taken: map<Claim, PendingVoice>)
      requires Valid() && IndexInv(View())
      modifies this`pending
      ensures Valid() && View() == RemoveAll(old(View()), PickMany(old(View()), caller, scope))
      ensures taken.Keys == PickMany(old(View()), caller, scope)
      ensures forall c :: c in taken ==> taken[c].claim == c && Knows(taken[c])
      ensures forall c :: c in taken <==>
                && Live(old(View()), c) && (scope.None? || c.scope == scope.value)
                && caller != Some(c) && !(c in activeCancellations && 0 < activeCancellations[c])
      ensures forall c :: Live(View(), c) <==> Live(old(View()), c) && c !in taken
    {
      PicksAreExact(View(), caller, scope);
      taken := Collect(caller, scope);
      RemoveEach(taken);
    }

    /** Remove the collected entries one by one. */
    method RemoveEach(taken: map<Claim, PendingVoice>)
      requires Valid() && IndexInv(View())
      requires forall c :: c in taken ==> taken[c].claim == c && Knows(taken[c]) && Live(View(), c)
      modifies this`pending
      ensures Valid() && View() == RemoveAll(old(View()), taken.Keys)
    {
      ghost var start := View();
      var rest := taken.Keys;
      assert taken.Keys - rest == {};
      NoneRemoved(start);
      while rest != {}
        invariant rest <= taken.Keys
        invariant Valid() && View() == RemoveAll(start, taken.Keys - rest)
        invariant forall c :: c in rest ==> Knows(taken[c])
        decreases rest
      {
        var c :| c in rest;
        RemoveNext(taken[c], start, taken.Keys - rest);
        OneFewer(taken.Keys, rest, c);
        rest := rest - {c};
      }
      assert taken.Keys - rest == taken.Keys;
    }

    lemma OneFewer(all: set<Claim>, rest: set<Claim>, c: Claim)
      requires c in rest && rest <= all
      ensures all - (rest - {c}) == (all - rest) + {c}
    {
    }

    lemma NoneRemoved(r: Registry)
      ensures RemoveAll(r, {}) == r
    {
    }

    method RemoveNext(entry: PendingVoice, ghost start: Registry, ghost gone: set<Claim>)
      requires Valid() && Knows(entry) && View() == RemoveAll(start, gone)
      requires IndexInv(start) && Live(start, entry.claim) && entry.claim !in gone
      modifies this`pending
      ensures Valid() && View() == RemoveAll(start, gone + {entry.claim})
    {
      RemoveLater(start, gone, entry.claim);
      RemoveEntry(entry);
    }

    /** Removing one more live claim after others is removing them together. */
    lemma RemoveLater(r: Registry, gone: set<Claim>, c: Claim)
      requires IndexInv(r) && Live(r, c) && c !in gone
      ensures Remove(RemoveAll(r, gone), c) == RemoveAll(r, gone + {c})
    {
      RemoveAllKeepsIndex(r, gone);
      RemoveDropsExactly(RemoveAll(r, gone), c);
      RemoveAllTwice(r, gone, c);
    }

    lemma RemoveAllTwice(r: Registry, cs: set<Claim>, c: Claim)
      ensures RemoveAll(RemoveAll(r, cs), {c}) == RemoveAll(r, cs + {c})
    {
    }

    lemma PicksAreExact(r: Registry, caller: Option<Claim>, scope: Option<Scope>)
      requires IndexInv(r)
      ensures forall c :: c in PickMany(r, caller, scope) <==>
                && Live(r, c) && (scope.None? || c.scope == scope.value)
                && caller != Some(c) && !(c in r.protection && 0 < r.protection[c])
      ensures forall c :: Live(RemoveAll(r, PickMany(r, caller, scope)), c) <==>
                            Live(r, c) && c !in PickMany(r, caller, scope)
    {
      forall c ensures c in PickMany(r, caller, scope) <==>
                         && Live(r, c) && (scope.None? || c.scope == scope.value)
                         && caller != Some(c) && !(c in r.protection && 0 < r.protection[c])
      {
        PicksExactly(r, caller, scope, VoiceKey(c), c);
      }
      RemoveAllKeepsIndex(r, PickMany(r, caller, scope));
    }

    /** Deduplicate the entries behind the matching keys by claim. */
    method Collect(caller: Option<Claim>, scope: Option<Scope>) returns (taken: map<Claim, PendingVoice>)
      requires Valid()
      ensures taken.Keys == PickMany(View(), caller, scope)
      ensures forall c :: c in taken ==> taken[c].claim == c && Knows(taken[c])
    {
      taken := map[];
      var keys := pending.Keys;
      while keys != {}
        invariant keys <= pending.Keys
        invariant forall c :: c in taken ==> taken[c].claim == c && Knows(taken[c])
        invariant forall c :: c in taken <==>
                    exists k :: k in pending && k !in keys && (scope.None? || k.0 == scope.value)
                                && !IsExcluded(pending[k], caller) && pending[k].claim == c
        decreases keys
      {
        var k :| k in keys;
        if (scope.None? || k.0 == scope.value) && !IsExcluded(pending[k], caller) {
          taken := taken[pending[k].claim := pending[k]];
        }
        keys := keys - {k};
      }
      forall c ensures c in taken <==> c in PickMany(View(), caller, scope) {
        if c in taken {
          var k :| k in pending && (scope.None? || k.0 == scope.value)
                   && !IsExcluded(pending[k], caller) && pending[k].claim == c;
          assert k in View().pending && View().pending[k] == c;
        }
      }
    }

    method ProtectClaim(claim: Option<Claim>)
      requires Valid()
      modifies this`activeCancellations
      ensures Valid() && View() == Protect(old(View()), claim)
    {
      if claim.Some? {
        var count := if claim.value in activeCancellations then activeCancellations[claim.value] else 0;
        activeCancellations := activeCancellations[claim.value := count + 1];
      }
    }

    /** The caller protected the claim before, so its count is there. */
    method UnprotectClaim(claim: Option<Claim>)
      requires Valid()
      requires claim.Some? ==> claim.value in activeCancellations && 0 < activeCancellations[claim.value]
      modifies this`activeCancellations
      ensures Valid() && View() == Unprotect(old(View()), claim)
    {
      if claim.Some? {
        var remaining := activeCancellations[claim.value] - 1;
        if remaining > 0 {
          activeCancellations := activeCancellations[claim.value := remaining];
        } else {
          activeCancellations := activeCancellations - {claim.value};
        }
      }
    }
  }
}
