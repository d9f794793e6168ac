/** The shared data of messaging/voice.py: pending voice notes under two keys, and protection counts.

    Every function is one body under the registry's lock. A claim identifies its entry, since every
    reservation makes a fresh claim. */
module VoiceRegistry {
  import opened Options

  datatype Scope = Scope(platform: string, chat: string)

  /** The opaque ownership token of one reservation. */
  datatype Claim = Claim(scope: Scope, voice: string, id: nat)

  type Key = (Scope, string)

  /** `task` says whether the handoff of this entry was published. */
  datatype Entry = Entry(status: Option<string>, task: bool)

  /** `pending` maps message ids to the owner; `entries` remembers every entry ever made. */
  datatype Registry = Registry(pending: map<Key, Claim>, entries: map<Claim, Entry>, protection: map<Claim, nat>)

  const EMPTY := Registry(map[], map[], map[])

  function VoiceKey(c: Claim): Key {
    (c.scope, c.voice)
  }

  /** `_entry_for_claim` finds it. */
  predicate Live(r: Registry, c: Claim) {
    c in r.entries && VoiceKey(c) in r.pending && r.pending[VoiceKey(c)] == c
  }

  /** `k` is one of the names of the entry of `c`. */
  predicate Names(r: Registry, c: Claim, k: Key) {
    c in r.entries &&
    (k == VoiceKey(c) || (r.entries[c].status.Some? && k == (c.scope, r.entries[c].status.value)))
  }

  function Reserve(r: Registry, c: Claim): Registry {
    if VoiceKey(c) in r.pending then r
    else r.(pending := r.pending[VoiceKey(c) := c], entries := r.entries[c := Entry(None, false)])
  }

  function BindStatus(r: Registry, c: Claim, status: string): (Registry, bool) {
    if !Live(r, c) then (r, false)
    else if r.entries[c].status.Some? then (r, r.entries[c].status.value == status)
    else
      var key := (c.scope, status);
      if key in r.pending && r.pending[key] != c then (r, false)
      else (r.(pending := r.pending[key := c], entries := r.entries[c := r.entries[c].(status := Some(status))]), true)
  }

  /** The locked part of `handoff`: publish the task once. */
  function PublishHandoff(r: Registry, c: Claim): (Registry, bool) {
    if !Live(r, c) || r.entries[c].status.None? || r.entries[c].task then (r, false)
    else (r.(entries := r.entries[c := r.entries[c].(task := true)]), true)
  }

  function Pop(pending: map<Key, Claim>, k: Key, c: Claim): map<Key, Claim> {
    if k in pending && pending[k] == c then pending - {k} else pending
  }

  /** `_remove`: drop the voice key and the status key, each only if it is this entry's. */
  function Remove(r: Registry, c: Claim): Registry
    requires c in r.entries
  {
    var pending := Pop(r.pending, VoiceKey(c), c);
    r.(pending := if r.entries[c].status.None? then pending else Pop(pending, (c.scope, r.entries[c].status.value), c))
  }

  /** Drop every key of every claim in `cs`. */
  function RemoveAll(r: Registry, cs: set<Claim>): Registry {
    r.(pending := map k | k in r.pending && r.pending[k] !in cs :: r.pending[k])
  }

  function ProtectionOf(r: Registry, c: Claim): nat {
    if c in r.protection then r.protection[c] else 0
  }

  function Protect(r: Registry, caller: Option<Claim>): Registry {
    if caller.None? then r else r.(protection := r.protection[caller.value := ProtectionOf(r, caller.value) + 1])
  }

  function Unprotect(r: Registry, caller: Option<Claim>): Registry {
    if caller.None? || caller.value !in r.protection then r
    else if r.protection[caller.value] <= 1 then r.(protection := r.protection - {caller.value})
    else r.(protection := r.protection[caller.value := r.protection[caller.value] - 1])
  }

  /** `_is_excluded`. */
  predicate Excluded(r: Registry, c: Claim, caller: Option<Claim>) {
    caller == Some(c) || 0 < ProtectionOf(r, c)
  }

  /** Whom `cancel` picks: the owner of the message id, unless excluded. */
  function PickOne(r: Registry, caller: Option<Claim>, key: Key): set<Claim> {
    if key in r.pending && !Excluded(r, r.pending[key], caller) then {r.pending[key]} else {}
  }

  /** Whom `cancel_scope` (or, without a scope, `cancel_all`) picks. */
  function PickMany(r: Registry, caller: Option<Claim>, scope: Option<Scope>): set<Claim> {
    set k | k in r.pending && (scope.None? || k.0 == scope.value) && !Excluded(r, r.pending[k], caller) :: r.pending[k]
  }

  // ----- The two-key index -----

  /** Every live entry is found under its voice key and, once bound, its status key; every key leads to a live
      entry it names. */
  ghost predicate IndexInv(r: Registry) {
    && (forall c :: Live(r, c) && r.entries[c].status.Some? ==>
          (c.scope, r.entries[c].status.value) in r.pending
          && r.pending[(c.scope, r.entries[c].status.value)] == c)
    && (forall k :: k in r.pending ==> Live(r, r.pending[k]) && Names(r, r.pending[k], k))
  }

  lemma ReserveKeepsIndex(r: Registry, c: Claim)
    requires IndexInv(r) && c !in r.entries
    ensures IndexInv(Reserve(r, c))
    ensures VoiceKey(c) !in r.pending ==> Live(Reserve(r, c), c)
    ensures forall d :: Live(r, d) ==> Live(Reserve(r, c), d) && Reserve(r, c).entries[d] == r.entries[d]
  {
  }

  lemma BindKeepsIndex(r: Registry, c: Claim, status: string)
    requires IndexInv(r)
    ensures IndexInv(BindStatus(r, c, status).0)
    ensures forall d :: Live(BindStatus(r, c, status).0, d) <==> Live(r, d)
    ensures forall d :: d in r.entries && d != c ==>
              d in BindStatus(r, c, status).0.entries && BindStatus(r, c, status).0.entries[d] == r.entries[d]
    ensures BindStatus(r, c, status).1 ==>
              c in BindStatus(r, c, status).0.entries && BindStatus(r, c, status).0.entries[c].status == Some(status)
  {
  }

  lemma PublishKeepsIndex(r: Registry, c: Claim)
    requires IndexInv(r)
    ensures IndexInv(PublishHandoff(r, c).0)
    ensures forall d :: Live(PublishHandoff(r, c).0, d) <==> Live(r, d)
  {
  }

  /** Dropping its two keys drops every key of an entry, so nothing of it stays behind. */
  lemma RemoveDropsExactly(r: Registry, c: Claim)
    requires IndexInv(r) && Live(r, c)
    ensures Remove(r, c) == RemoveAll(r, {c})
  {
    var removed := Remove(r, c);
    forall k ensures k in removed.pending <==> k in r.pending && r.pending[k] != c {
      if k in r.pending && r.pending[k] == c {
        assert Names(r, c, k);
      }
    }
  }

  /** Removing claims keeps the index, ends exactly those claims, and touches no other entry. */
  lemma RemoveAllKeepsIndex(r: Registry, cs: set<Claim>)
    requires IndexInv(r)
    ensures IndexInv(RemoveAll(r, cs))
    ensures forall d :: Live(RemoveAll(r, cs), d) <==> Live(r, d) && d !in cs
    ensures RemoveAll(r, cs).entries == r.entries
  {
    var after := RemoveAll(r, cs);
    forall d ensures Live(after, d) <==> Live(r, d) && d !in cs {}
    forall k | k in after.pending ensures Live(after, after.pending[k]) && Names(after, after.pending[k], k) {
      assert k in r.pending && Names(r, r.pending[k], k);
    }
    forall c | Live(after, c) && after.entries[c].status.Some?
      ensures (c.scope, after.entries[c].status.value) in after.pending
           && after.pending[(c.scope, after.entries[c].status.value)] == c
    {
      assert Live(r, c);
    }
  }

  /** A selection picks exactly the live claims it is about, but for the caller's own and the protected ones. */
  lemma PicksExactly(r: Registry, caller: Option<Claim>, scope: Option<Scope>, key: Key, c: Claim)
    requires IndexInv(r)
    ensures c in PickMany(r, caller, scope) <==>
              && Live(r, c) && (scope.None? || c.scope == scope.value)
              && caller != Some(c) && !(c in r.protection && 0 < r.protection[c])
    ensures c in PickOne(r, caller, key) <==>
              Live(r, c) && Names(r, c, key) && caller != Some(c) && !(c in r.protection && 0 < r.protection[c])
  {
    if Live(r, c) {
      assert r.pending[VoiceKey(c)] == c;
      if Names(r, c, key) { assert r.pending[key] == c; }
    }
  }

  /** A claim that is no longer live changes nothing, whoever owns its message id now. */
  lemma DeadClaimsAreInert(r: Registry, c: Claim, status: string)
    requires IndexInv(r) && !Live(r, c)
    ensures BindStatus(r, c, status) == (r, false)
    ensures PublishHandoff(r, c) == (r, false)
    ensures c in r.entries ==> Remove(r, c) == r
    ensures forall k, caller :: c !in PickOne(r, caller, k)
    ensures forall caller, scope :: c !in PickMany(r, caller, scope)
  {
    forall k | k in r.pending ensures r.pending[k] != c {
      assert Live(r, r.pending[k]);
    }
  }
}
