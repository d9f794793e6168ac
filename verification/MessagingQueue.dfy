/** messaging/limiter.py: a compacting work queue with one worker.

    A step is one await-free stretch: a body under the condition, or what the worker does between two awaits. A
    step whose guard fails leaves the state alone. The log says what happened, and the queue is proved to be what
    the log says it should be. */
module MessagingQueue {
  import opened Options

  type Key = string
  type FutureId = nat

  datatype Outcome = Value(value: nat) | Error(error: nat) | Cancelled

  /** The submitted function and the futures waiting for it. */
  datatype Group = Group(func: nat, futures: seq<FutureId>)

  datatype Worker = Off | Idle | Holding(key: Key, group: Group, running: bool)

  datatype Event =
    | Submitted(key: Key, group: Group, front: bool)
    | Taken(key: Key, group: Group)
    | Started(func: nat, at: int)
    | Answered(futures: seq<FutureId>, outcome: Outcome, pause: Option<int>)
    | Dropped            // the worker was cancelled
    | Cleared

  datatype State = State(queue: seq<Key>, table: map<Key, Group>, worker: Worker, done: map<FutureId, Outcome>,
                         accepted: set<FutureId>, closed: bool, cleared: bool, pausedUntil: int, log: seq<Event>)

  const IDLE := State([], map[], Off, map[], {}, false, false, 0, [])

  datatype Step =
    | Start
    | Enqueue(key: Key, group: Group, front: bool)
    | WaiterCancels(future: FutureId)
    | Take
    | Begin(now: int)
    | Finish(outcome: Outcome, pause: Option<int>)
    | WorkerCancelled
    | WorkerLeaves
    | ShutdownBegins
    | ShutdownClears

  // ----- Pieces -----

  predicate NoDup<T(==)>(s: seq<T>) {
    s == [] || (s[|s| - 1] !in s[..|s| - 1] && NoDup(s[..|s| - 1]))
  }

  /** The futures of a list that are still open, in order. */
  function Pending(done: map<FutureId, Outcome>, list: seq<FutureId>): seq<FutureId> {
    if list == [] then []
    else
      var last := list[|list| - 1];
      Pending(done, list[..|list| - 1]) + if last in done then [] else [last]
  }

  /** `if not f.done(): f.set…` over a list: a settled future keeps its outcome. */
  function Settle(done: map<FutureId, Outcome>, list: seq<FutureId>, outcome: Outcome): map<FutureId, Outcome> {
    map f | f in done.Keys + (set g | g in list) :: if f in done then done[f] else outcome
  }

  function Waiting(table: map<Key, Group>): set<FutureId> {
    set k, f | k in table && f in table[k].futures :: f
  }

  function Held(worker: Worker): seq<FutureId> {
    if worker.Holding? then worker.group.futures else []
  }

  function CancelAll(done: map<FutureId, Outcome>, gone: set<FutureId>): map<FutureId, Outcome> {
    map f | f in done.Keys + gone :: if f in done then done[f] else Cancelled
  }

  function Merged(table: map<Key, Group>, key: Key, group: Group): Group {
    if key in table then Group(group.func, table[key].futures + group.futures) else group
  }

  // ----- Steps -----

  predicate Fresh(st: State, futures: seq<FutureId>) {
    NoDup(futures) && forall f :: f in futures ==> f !in st.accepted
  }

  predicate CanStep(st: State, step: Step) {
    match step
    case Start => !st.closed && st.worker.Off?
    case Enqueue(key, group, front) => !st.closed && !st.worker.Off? && Fresh(st, group.futures)
    case WaiterCancels(f) => f in st.accepted && f !in st.done
    case Take => st.worker.Idle? && !st.closed && st.queue != []
    case Begin(now) => st.worker.Holding? && !st.worker.running && st.pausedUntil <= now
    case Finish(outcome, pause) => st.worker.Holding? && st.worker.running && (pause.Some? ==> outcome.Error?)
    case WorkerCancelled => !st.worker.Off?
    case WorkerLeaves => st.worker.Idle? && st.closed
    case ShutdownBegins => true
    case ShutdownClears => st.closed
  }

  function Log(st: State, event: Event): State {
    st.(log := st.log + [event])
  }

  function Enqueued(st: State, key: Key, group: Group, front: bool): State {
    Log(st.(table := st.table[key := Merged(st.table, key, group)],
            queue := if key in st.table then st.queue else if front then [key] + st.queue else st.queue + [key],
            accepted := st.accepted + set f | f in group.futures),
        Submitted(key, group, front))
  }

  function AfterClear(st: State): State {
    Log(st.(queue := [], table := map[], cleared := true,
            done := CancelAll(st.done, Waiting(st.table) + set f | f in Held(st.worker))),
        Cleared)
  }

  function Next(st: State, step: Step): State {
    if !CanStep(st, step) then st
    else
      match step
      case Start => st.(worker := Idle)
      case Enqueue(key, group, front) => Enqueued(st, key, group, front)
      case WaiterCancels(f) => st.(done := st.done[f := Cancelled])
      case Take =>
        var key := st.queue[0];
        if key in st.table then
          Log(st.(queue := st.queue[1..], table := st.table - {key}, worker := Holding(key, st.table[key], false)),
              Taken(key, st.table[key]))
        else st
      case Begin(now) =>
        Log(st.(worker := st.worker.(running := true)), Started(st.worker.group.func, now))
      case Finish(outcome, pause) =>
        Log(st.(worker := Idle, done := Settle(st.done, st.worker.group.futures, outcome),
                pausedUntil := if pause.Some? then pause.value else st.pausedUntil),
            Answered(Pending(st.done, st.worker.group.futures), outcome, pause))
      case WorkerCancelled =>
        Log(st.(worker := Off, done := Settle(st.done, Held(st.worker), Cancelled)), Dropped)
      case WorkerLeaves => st.(worker := Off)
      case ShutdownBegins => st.(closed := true)
      case ShutdownClears => AfterClear(st)
  }

  function Play(steps: seq<Step>): State {
    if steps == [] then IDLE else Next(Play(steps[..|steps| - 1]), steps[|steps| - 1])
  }

  // ----- What the log asks for -----

  /** The submissions of a key that no worker has taken yet. */
  function Submissions(log: seq<Event>, key: Key): seq<Group> {
    if log == [] then []
    else
      var before := Submissions(log[..|log| - 1], key);
      match log[|log| - 1]
      case Submitted(k, group, front) => if k == key then before + [group] else before
      case Taken(k, group) => if k == key then [] else before
      case Cleared => []
      case _ => before
  }

  /** The last function, and all futures in the order they came. */
  function Compacted(submissions: seq<Group>): Group
    requires submissions != []
  {
    if |submissions| == 1 then submissions[0]
    else
      var last := submissions[|submissions| - 1];
      Group(last.func, Compacted(submissions[..|submissions| - 1]).futures + last.futures)
  }

  /** The keys with untaken submissions, by the time of their first one; one submitted to the front goes first. */
  function QueueOf(log: seq<Event>): seq<Key> {
    if log == [] then []
    else
      var before := QueueOf(log[..|log| - 1]);
      match log[|log| - 1]
      case Submitted(k, group, front) => if k in before then before else if front then [k] + before else before + [k]
      case Taken(k, group) => if before != [] then before[1..] else []
      case Cleared => []
      case _ => before
  }

  datatype Duty = Free | Has(group: Group, running: bool)

  /** The group the worker owes an answer for. */
  function DutyOf(log: seq<Event>): Duty {
    if log == [] then Free
    else
      match log[|log| - 1]
      case Taken(k, group) => Has(group, false)
      case Started(func, at) =>
        var before := DutyOf(log[..|log| - 1]);
        if before.Has? then Has(before.group, true) else Free
      case Answered(futures, outcome, pause) => Free
      case Dropped => Free
      case _ => DutyOf(log[..|log| - 1])
  }

  function PauseOf(log: seq<Event>): int {
    if log == [] then 0
    else
      var last := log[|log| - 1];
      if last.Answered? && last.pause.Some? then last.pause.value else PauseOf(log[..|log| - 1])
  }

  predicate Subsequence<T(==)>(a: seq<T>, b: seq<T>) {
    if b == [] then a == []
    else
      Subsequence(a, b[..|b| - 1]) ||
      (a != [] && a[|a| - 1] == b[|b| - 1] && Subsequence(a[..|a| - 1], b[..|b| - 1]))
  }

  /** What may happen after `before`. */
  predicate EventOk(before: seq<Event>, event: Event) {
    match event
    case Taken(key, group) =>
      && DutyOf(before).Free?
      && QueueOf(before) != [] && key == QueueOf(before)[0]
      && Submissions(before, key) != [] && group == Compacted(Submissions(before, key))
    case Started(func, at) =>
      DutyOf(before).Has? && !DutyOf(before).running && func == DutyOf(before).group.func && PauseOf(before) <= at
    case Answered(futures, outcome, pause) =>
      DutyOf(before).Has? && DutyOf(before).running && Subsequence(futures, DutyOf(before).group.futures)
    case _ => true
  }

  predicate LogOk(log: seq<Event>) {
    log == [] || (LogOk(log[..|log| - 1]) && EventOk(log[..|log| - 1], log[|log| - 1]))
  }

  // ----- Invariants -----

  ghost predicate QueueInv(queue: seq<Key>, table: map<Key, Group>) {
    NoDup(queue) && forall k :: k in table <==> k in queue
  }

  ghost predicate KeyInv(log: seq<Event>, table: map<Key, Group>, k: Key) {
    if k in table then Submissions(log, k) != [] && table[k] == Compacted(Submissions(log, k))
    else Submissions(log, k) == []
  }

  ghost predicate LogInv(st: State) {
    && LogOk(st.log)
    && QueueOf(st.log) == st.queue
    && PauseOf(st.log) == st.pausedUntil
    && (match st.worker
        case Holding(key, group, running) => DutyOf(st.log) == Has(group, running)
        case _ => DutyOf(st.log).Free?)
    && forall k :: KeyInv(st.log, st.table, k)
  }

  lemma Grown(log: seq<Event>, event: Event)
    ensures (log + [event])[..|log|] == log
    ensures LogOk(log) && EventOk(log, event) ==> LogOk(log + [event])
  {
    assert (log + [event])[..|log|] == log;
  }

  lemma {:induction false} PendingIsSub(done: map<FutureId, Outcome>, list: seq<FutureId>)
    ensures Subsequence(Pending(done, list), list)
  {
    if list != [] {
      var before := list[..|list| - 1];
      PendingIsSub(done, before);
      assert Pending(done, before) + [] == Pending(done, before);
      assert (Pending(done, before) + [list[|list| - 1]])[..|Pending(done, before)|] == Pending(done, before);
    }
  }

  lemma {:induction false} NoDupParts<T>(s: seq<T>)
    ensures NoDup(s) <==> forall i, j :: 0 <= i < j < |s| ==> s[i] != s[j]
  {
    if s != [] {
      var before := s[..|s| - 1];
      NoDupParts(before);
      assert forall x :: x in before <==> exists i :: 0 <= i < |s| - 1 && s[i] == x;
    }
  }

  lemma EnqueueKeepsQueue(queue: seq<Key>, table: map<Key, Group>, key: Key, group: Group, front: bool)
    requires QueueInv(queue, table)
    ensures QueueInv(if key in table then queue else if front then [key] + queue else queue + [key],
                     table[key := Merged(table, key, group)])
  {
    NoDupParts(queue);
    NoDupParts([key] + queue);
    NoDupParts(queue + [key]);
  }

  lemma TakeKeepsQueue(queue: seq<Key>, table: map<Key, Group>)
    requires QueueInv(queue, table) && queue != []
    ensures queue[0] in table && QueueInv(queue[1..], table - {queue[0]})
  {
    NoDupParts(queue);
    NoDupParts(queue[1..]);
    assert queue[0] in queue;
    assert queue == [queue[0]] + queue[1..];
    assert queue[0] !in queue[1..];
  }

  lemma StepKeepsQueue(st: State, step: Step)
    requires QueueInv(st.queue, st.table)
    ensures QueueInv(Next(st, step).queue, Next(st, step).table)
  {
    if CanStep(st, step) {
      match step
      case Enqueue(key, group, front) => EnqueueKeepsQueue(st.queue, st.table, key, group, front);
      case Take => TakeKeepsQueue(st.queue, st.table);
      case _ =>
    }
  }

  lemma EnqueueKeepsLog(st: State, key: Key, group: Group, front: bool)
    requires QueueInv(st.queue, st.table) && LogInv(st)
    ensures LogInv(Enqueued(st, key, group, front))
  {
    var after := Enqueued(st, key, group, front);
    Grown(st.log, Submitted(key, group, front));
    forall k ensures KeyInv(after.log, after.table, k) {
      assert KeyInv(st.log, st.table, k);
      if k == key {
        var before := Submissions(st.log, key);
        assert (before + [group])[..|before|] == before;
      }
    }
  }

  lemma TakeKeepsLog(st: State)
    requires QueueInv(st.queue, st.table) && LogInv(st) && CanStep(st, Take)
    ensures LogInv(Next(st, Take))
  {
    TakeKeepsQueue(st.queue, st.table);
    var key := st.queue[0];
    var after := Next(st, Take);
    Grown(st.log, Taken(key, st.table[key]));
    assert KeyInv(st.log, st.table, key);
    forall k ensures KeyInv(after.log, after.table, k) {
      assert KeyInv(st.log, st.table, k);
    }
  }

  lemma OthersKeepLog(st: State, step: Step)
    requires LogInv(st) && CanStep(st, step) && !step.Take? && !step.Enqueue?
    ensures LogInv(Next(st, step))
  {
    var after := Next(st, step);
    match step
    case Begin(now) => GrownBy(st, after, Started(st.worker.group.func, now));
    case Finish(outcome, pause) =>
      PendingIsSub(st.done, st.worker.group.futures);
      GrownBy(st, after, Answered(Pending(st.done, st.worker.group.futures), outcome, pause));
    case WorkerCancelled => GrownBy(st, after, Dropped);
    case ShutdownClears => GrownBy(st, after, Cleared);
    case _ =>
  }

  /** What an event that submits and takes nothing leaves in the worker's hands. */
  predicate HandsAfter(duty: Duty, event: Event, worker: Worker) {
    match worker
    case Holding(key, group, running) =>
      if event.Started? then duty.Has? && running && group == duty.group
      else event.Cleared? && duty == Has(group, running)
    case _ => !event.Started? && (event.Cleared? ==> duty.Free?)
  }

  /** One more event that submits and takes nothing. */
  lemma GrownBy(st: State, after: State, event: Event)
    requires LogInv(st) && after.log == st.log + [event] && EventOk(st.log, event)
    requires event.Started? || event.Answered? || event.Dropped? || event.Cleared?
    requires if event.Cleared? then after.queue == [] && after.table == map[]
             else after.queue == st.queue && after.table == st.table
    requires after.pausedUntil == if event.Answered? && event.pause.Some? then event.pause.value else st.pausedUntil
    requires HandsAfter(DutyOf(st.log), event, after.worker)
    ensures LogInv(after)
  {
    Grown(st.log, event);
    forall k ensures KeyInv(after.log, after.table, k) {
      assert KeyInv(st.log, st.table, k);
    }
  }

  lemma StepKeepsLog(st: State, step: Step)
    requires QueueInv(st.queue, st.table) && LogInv(st)
    ensures LogInv(Next(st, step))
  {
    if CanStep(st, step) {
      match step
      case Enqueue(key, group, front) => EnqueueKeepsLog(st, key, group, front);
      case Take => TakeKeepsLog(st);
      case _ => OthersKeepLog(st, step);
    }
  }

  // ----- Where each future is -----

  predicate InQueue(st: State, f: FutureId) {
    exists k :: k in st.table && f in st.table[k].futures
  }

  predicate InHands(st: State, f: FutureId) {
    f in Held(st.worker)
  }

  ghost predicate GroupsDiffer(table: map<Key, Group>) {
    forall k, l, f :: k in table && l in table && f in table[k].futures && f in table[l].futures ==> k == l
  }

  ghost predicate NoneTwice(table: map<Key, Group>, held: seq<FutureId>) {
    NoDup(held) && forall k :: k in table ==> NoDup(table[k].futures)
  }

  ghost predicate HeldApart(table: map<Key, Group>, held: seq<FutureId>) {
    forall k, f :: k in table && f in table[k].futures ==> f !in held
  }

  ghost predicate AllAccepted(st: State) {
    && (forall f :: InQueue(st, f) || InHands(st, f) || f in st.done ==> f in st.accepted)
    && (forall f :: f in st.accepted ==> f in st.done || InQueue(st, f) || InHands(st, f))
  }

  ghost predicate PlaceInv(st: State) {
    && GroupsDiffer(st.table)
    && NoneTwice(st.table, Held(st.worker))
    && HeldApart(st.table, Held(st.worker))
    && AllAccepted(st)
    && (st.cleared ==> st.closed && st.table == map[] && forall f :: f in Held(st.worker) ==> f in st.done)
  }

  lemma NoDupAppends(a: seq<FutureId>, b: seq<FutureId>)
    requires NoDup(a) && NoDup(b) && forall f :: f in a ==> f !in b
    ensures NoDup(a + b)
  {
    NoDupParts(a);
    NoDupParts(b);
    forall i, j | 0 <= i < j < |a + b| ensures (a + b)[i] != (a + b)[j] {
      if i < |a| <= j { assert (a + b)[i] in a && (a + b)[j] in b; }
    }
    NoDupParts(a + b);
  }

  lemma EnqueueKeepsPlaces(st: State, key: Key, group: Group, front: bool)
    requires PlaceInv(st) && CanStep(st, Enqueue(key, group, front))
    ensures PlaceInv(Enqueued(st, key, group, front))
  {
    var after := Enqueued(st, key, group, front);
    assert !st.cleared;
    forall k, l, f | k in after.table && l in after.table && f in after.table[k].futures && f in after.table[l].futures
      ensures k == l
    {
      if k in st.table && f in st.table[k].futures { assert InQueue(st, f); }
      if l in st.table && f in st.table[l].futures { assert InQueue(st, f); }
    }
    if key in st.table {
      forall f | f in st.table[key].futures ensures f !in group.futures { assert InQueue(st, f); }
      NoDupAppends(st.table[key].futures, group.futures);
    }
    forall k, f | k in after.table && f in after.table[k].futures ensures f !in Held(after.worker) {
      if f in group.futures { assert !InHands(st, f); }
    }
    EnqueueKeepsAccepted(st, key, group, front);
  }

  lemma EnqueueKeepsAccepted(st: State, key: Key, group: Group, front: bool)
    requires AllAccepted(st)
    ensures AllAccepted(Enqueued(st, key, group, front))
  {
    var after := Enqueued(st, key, group, front);
    forall f | InQueue(after, f) ensures f in after.accepted {
      var k :| k in after.table && f in after.table[k].futures;
      if f !in group.futures { assert k in st.table && f in st.table[k].futures; assert InQueue(st, f); }
    }
    forall f | f in after.accepted ensures f in after.done || InQueue(after, f) || InHands(after, f) {
      if f in group.futures {
        assert f in after.table[key].futures;
      } else if InQueue(st, f) {
        var k :| k in st.table && f in st.table[k].futures;
        assert f in after.table[k].futures;
      }
    }
  }

  lemma TakeKeepsPlaces(st: State)
    requires PlaceInv(st) && CanStep(st, Take)
    ensures PlaceInv(Next(st, Take))
  {
    var after := Next(st, Take);
    var key := st.queue[0];
    if key in st.table {
      forall f | InQueue(after, f) || InHands(after, f) ensures f in after.accepted {
        assert InQueue(st, f);
      }
      forall f | f in after.accepted ensures f in after.done || InQueue(after, f) || InHands(after, f) {
        if f !in st.done {
          var k :| k in st.table && f in st.table[k].futures;
          if k != key { assert k in after.table && f in after.table[k].futures; }
        }
      }
    }
  }

  lemma SettleKeepsPlaces(st: State, worker: Worker, outcome: Outcome)
    requires PlaceInv(st) && !worker.Holding?
    ensures PlaceInv(st.(worker := worker, done := Settle(st.done, Held(st.worker), outcome)))
  {
    var after := st.(worker := worker, done := Settle(st.done, Held(st.worker), outcome));
    forall f | f in after.accepted ensures f in after.done || InQueue(after, f) || InHands(after, f) {
      if f !in st.done && InQueue(st, f) {
        var k :| k in st.table && f in st.table[k].futures;
        assert InQueue(after, f);
      }
    }
    forall f | InQueue(after, f) ensures f in after.accepted { assert InQueue(st, f); }
    forall f | f in after.done ensures f in after.accepted {
      if f !in st.done { assert InHands(st, f); }
    }
  }

  lemma ClearKeepsPlaces(st: State)
    requires PlaceInv(st) && CanStep(st, ShutdownClears)
    ensures PlaceInv(Next(st, ShutdownClears))
  {
    var after := Next(st, ShutdownClears);
    forall f | f in after.accepted ensures f in after.done {
      if f !in st.done && InQueue(st, f) {
        var k :| k in st.table && f in st.table[k].futures;
        assert f in Waiting(st.table);
      }
    }
    forall f | f in after.done ensures f in after.accepted {
      if f in Waiting(st.table) {
        var k :| k in st.table && f in st.table[k].futures;
        assert InQueue(st, f);
      } else if f !in st.done {
        assert InHands(st, f);
      }
    }
    forall f | InHands(after, f) ensures f in after.accepted && f in after.done { assert InHands(st, f); }
  }

  lemma SamePlaces(st: State, after: State)
    requires PlaceInv(st)
    requires after.table == st.table && Held(after.worker) == Held(st.worker) && after.accepted == st.accepted
    requires after.done.Keys == st.done.Keys && after.cleared == st.cleared && (st.closed ==> after.closed)
    ensures PlaceInv(after)
  {
    forall f ensures InQueue(after, f) == InQueue(st, f) && InHands(after, f) == InHands(st, f) {
    }
  }

  lemma StepKeepsPlaces(st: State, step: Step)
    requires PlaceInv(st)
    ensures PlaceInv(Next(st, step))
  {
    var after := Next(st, step);
    if CanStep(st, step) {
      match step
      case Enqueue(key, group, front) => EnqueueKeepsPlaces(st, key, group, front);
      case Take => TakeKeepsPlaces(st);
      case Finish(outcome, pause) =>
        SettleKeepsPlaces(st, Idle, outcome);
        SamePlaces(st.(worker := Idle, done := Settle(st.done, Held(st.worker), outcome)), after);
      case WorkerCancelled =>
        SettleKeepsPlaces(st, Off, Cancelled);
        SamePlaces(st.(worker := Off, done := Settle(st.done, Held(st.worker), Cancelled)), after);
      case WaiterCancels(f) => WaiterKeepsPlaces(st, f);
      case ShutdownClears => ClearKeepsPlaces(st);
      case _ => SamePlaces(st, after);
    }
  }

  lemma WaiterKeepsPlaces(st: State, f: FutureId)
    requires PlaceInv(st) && CanStep(st, WaiterCancels(f))
    ensures PlaceInv(Next(st, WaiterCancels(f)))
  {
    var after := Next(st, WaiterCancels(f));
    forall g ensures InQueue(after, g) == InQueue(st, g) && InHands(after, g) == InHands(st, g) {
    }
  }

  // ----- Whole runs -----

  ghost predicate Inv(st: State) {
    QueueInv(st.queue, st.table) && LogInv(st) && PlaceInv(st)
  }

  lemma {:induction false} RunKeeps(steps: seq<Step>)
    ensures Inv(Play(steps))
  {
    if steps == [] {
      forall k ensures KeyInv(IDLE.log, IDLE.table, k) {
      }
    } else {
      var st := Play(steps[..|steps| - 1]);
      var step := steps[|steps| - 1];
      RunKeeps(steps[..|steps| - 1]);
      StepKeepsQueue(st, step);
      StepKeepsLog(st, step);
      StepKeepsPlaces(st, step);
    }
  }

  predicate Among(st: State, k: Key, f: FutureId) {
    k in st.table && f in st.table[k].futures
  }

  /** The list of keys has no repeats and names exactly the keys of the map; it is the order the log asks for, and
      each key's group is what was submitted for it since it was last taken: the newest function and every future
      in the order it came. */
  lemma QueueIsTheCompactedLog(steps: seq<Step>, k: Key)
    ensures var st := Play(steps);
            && NoDup(st.queue)
            && (k in st.table <==> k in st.queue)
            && st.queue == QueueOf(st.log)
            && (k in st.table <==> Submissions(st.log, k) != [])
            && (k in st.table ==> st.table[k] == Compacted(Submissions(st.log, k)))
  {
    RunKeeps(steps);
    assert KeyInv(Play(steps).log, Play(steps).table, k);
  }

  lemma {:induction false} LogAt(log: seq<Event>, i: nat)
    requires LogOk(log) && i < |log|
    ensures EventOk(log[..i], log[i])
  {
    if i < |log| - 1 {
      LogAt(log[..|log| - 1], i);
      assert log[..|log| - 1][..i] == log[..i];
    }
  }

  /** The worker takes the first key with everything submitted for it, runs the last submitted function, once and
      not before a flood pause ends, and only then answers; it has one group in hand at a time. */
  lemma WorkerRunsWhatWasTaken(steps: seq<Step>, i: nat)
    requires i < |Play(steps).log|
    ensures EventOk(Play(steps).log[..i], Play(steps).log[i])
  {
    RunKeeps(steps);
    LogAt(Play(steps).log, i);
  }

  /** A future that has no outcome yet is in exactly one place: one queued group, or the group in hand. */
  lemma OpenFutureIsInOnePlace(steps: seq<Step>, f: FutureId)
    requires f in Play(steps).accepted && f !in Play(steps).done
    ensures var st := Play(steps);
            && (InHands(st, f) <==> !InQueue(st, f))
            && (forall k, l :: Among(st, k, f) && Among(st, l, f) ==> k == l)
            && (forall k :: Among(st, k, f) ==> NoDup(st.table[k].futures))
            && NoDup(Held(st.worker))
  {
    RunKeeps(steps);
  }

  lemma SomeHead(queue: seq<Key>)
    ensures queue == [] || exists k :: k in queue
  {
    if queue != [] { assert queue[0] in queue; }
  }

  /** Once shutdown has gone through, no accepted future is open, nothing is queued, and that stays so. */
  lemma ShutdownLeavesNothingOpen(steps: seq<Step>)
    requires Play(steps).cleared
    ensures var st := Play(steps);
            st.closed && st.queue == [] && st.table == map[] && forall f :: f in st.accepted ==> f in st.done
  {
    RunKeeps(steps);
    var st := Play(steps);
    SomeHead(st.queue);
    forall f | f in st.accepted ensures f in st.done {
      assert f in st.done || InQueue(st, f) || InHands(st, f);
    }
  }

  lemma {:induction false} ClearedForGood(steps: seq<Step>, i: nat)
    requires i <= |steps| && Play(steps[..i]).cleared
    ensures Play(steps).cleared && Play(steps).accepted == Play(steps[..i]).accepted
  {
    if i < |steps| {
      assert steps[..|steps| - 1][..i] == steps[..i];
      ClearedForGood(steps[..|steps| - 1], i);
      RunKeeps(steps[..|steps| - 1]);
    } else {
      assert steps[..i] == steps;
    }
  }

  lemma StepKeepsOutcome(st: State, step: Step, f: FutureId)
    requires f in st.done
    ensures f in Next(st, step).done && Next(st, step).done[f] == st.done[f]
  {
  }

  /** An outcome is for good, whatever happens next. */
  lemma {:induction false} OutcomesAreFinal(steps: seq<Step>, i: nat, f: FutureId)
    requires i <= |steps| && f in Play(steps[..i]).done
    ensures f in Play(steps).done && Play(steps).done[f] == Play(steps[..i]).done[f]
  {
    if i < |steps| {
      assert steps[..|steps| - 1][..i] == steps[..i];
      OutcomesAreFinal(steps[..|steps| - 1], i, f);
      StepKeepsOutcome(Play(steps[..|steps| - 1]), steps[|steps| - 1], f);
    } else {
      assert steps[..i] == steps;
    }
  }

  /** When the function of a group ends, everyone still waiting for it gets that outcome, in the order they came;
      nobody else's future changes. */
  lemma FinishAnswersTheGroup(steps: seq<Step>, outcome: Outcome, pause: Option<int>)
    requires CanStep(Play(steps), Finish(outcome, pause))
    ensures var st, after := Play(steps), Next(Play(steps), Finish(outcome, pause));
            var group := st.worker.group;
            && (forall f :: f in group.futures && f !in st.done ==> f in after.done && after.done[f] == outcome)
            && (forall f :: f in after.done && f !in st.done ==> f in group.futures)
            && after.log == st.log + [Answered(Pending(st.done, group.futures), outcome, pause)]
            && (forall f :: f in Pending(st.done, group.futures) <==> f in group.futures && f !in st.done)
            && DutyOf(st.log) == Has(group, true)
  {
    RunKeeps(steps);
    PendingIsOpen(Play(steps).done, Play(steps).worker.group.futures);
  }

  lemma {:induction false} PendingIsOpen(done: map<FutureId, Outcome>, list: seq<FutureId>)
    ensures forall f :: f in Pending(done, list) <==> f in list && f !in done
  {
    if list != [] {
      PendingIsOpen(done, list[..|list| - 1]);
      assert list == list[..|list| - 1] + [list[|list| - 1]];
    }
  }

  // ----- What the other steps do -----

  /** An accepted submission joins what waits under its key: its function replaces the older one, its futures go
      behind theirs, and the key keeps its place; a key with nothing waiting gets a place at the back, or at the front
      if asked. No other key, no outcome and not the worker is touched, and the log has it as it came. */
  lemma EnqueueJoins(steps: seq<Step>, key: Key, group: Group, front: bool, k: Key)
    requires CanStep(Play(steps), Enqueue(key, group, front))
    ensures var st, after := Play(steps), Next(Play(steps), Enqueue(key, group, front));
            && after.accepted == st.accepted + (set f | f in group.futures)
            && key in after.table && after.table[key].func == group.func
            && after.table[key].futures == (if key in st.table then st.table[key].futures else []) + group.futures
            && (k != key ==> (k in after.table <==> k in st.table)
                             && (k in after.table ==> after.table[k] == st.table[k]))
            && (key in st.table <==> key in st.queue)
            && after.queue == (if key in st.queue then st.queue else if front then [key] + st.queue
                               else st.queue + [key])
            && after.worker == st.worker && after.done == st.done && after.pausedUntil == st.pausedUntil
            && after.log == st.log + [Submitted(key, group, front)]
  {
    RunKeeps(steps);
  }

  /** Submissions are accepted exactly while the limiter runs and is not shut down; an accepted one is an obligation:
      its futures wait, each in the group of its key, until they have an outcome. */
  lemma SubmissionsAreAccepted(steps: seq<Step>, key: Key, group: Group, front: bool)
    requires Fresh(Play(steps), group.futures)
    ensures var st, after := Play(steps), Next(Play(steps), Enqueue(key, group, front));
            if st.closed || st.worker.Off? then after == st
            else forall f :: f in group.futures ==> f in after.accepted && f !in after.done && Among(after, key, f)
  {
    RunKeeps(steps);
    forall f | f in group.futures ensures f !in Play(steps).done {
      assert f !in Play(steps).accepted;
    }
  }

  /** The worker takes the first key's group, whole; it runs its function no sooner than the pause ends; when that has
      ended the worker is free again, and a pause asked for holds from then on. */
  lemma WorkerSteps(steps: seq<Step>, step: Step)
    requires CanStep(Play(steps), step)
    requires step.Start? || step.Take? || step.Begin? || step.Finish? || step.WorkerLeaves?
    ensures var st, after := Play(steps), Next(Play(steps), step);
            && after.accepted == st.accepted && after.closed == st.closed && after.cleared == st.cleared
            && (step.Take? ==>
                  && st.queue[0] in st.table
                  && after.queue == st.queue[1..] && after.table == st.table - {st.queue[0]}
                  && after.worker == Holding(st.queue[0], st.table[st.queue[0]], false) && after.done == st.done
                  && after.log == st.log + [Taken(st.queue[0], st.table[st.queue[0]])])
            && (step.Begin? ==>
                  && st.pausedUntil <= step.now
                  && after.worker == Holding(st.worker.key, st.worker.group, true) && after.done == st.done
                  && after.log == st.log + [Started(st.worker.group.func, step.now)])
            && (step.Finish? ==>
                  && after.worker.Idle? && after.queue == st.queue && after.table == st.table
                  && after.pausedUntil == if step.pause.Some? then step.pause.value else st.pausedUntil)
            && (!step.Finish? ==> after.pausedUntil == st.pausedUntil)
            && (step.Start? ==> after == st.(worker := Idle))
            && (step.WorkerLeaves? ==> st.closed && after == st.(worker := Off))
  {
    RunKeeps(steps);
  }

  /** A cancelled waiter settles its own future. A cancelled worker cancels what it holds and is gone, and what is
      queued stays queued. Shutting down stops submissions at once; its second half cancels all that is still open,
      queued or held, and leaves the queue empty. No other future is touched. */
  lemma CancellationSteps(steps: seq<Step>, step: Step, f: FutureId)
    requires CanStep(Play(steps), step)
    requires step.WaiterCancels? || step.WorkerCancelled? || step.ShutdownBegins? || step.ShutdownClears?
    ensures var st, after := Play(steps), Next(Play(steps), step);
            var hit := f !in st.done &&
                       (|| step == WaiterCancels(f)
                        || (step.WorkerCancelled? && InHands(st, f))
                        || (step.ShutdownClears? && f in st.accepted));
            && (f in after.done <==> f in st.done || hit)
            && (hit ==> after.done[f] == Cancelled)
            && after.accepted == st.accepted
            && after.closed == (st.closed || step.ShutdownBegins?)
            && after.cleared == (st.cleared || step.ShutdownClears?)
            && after.worker == (if step.WorkerCancelled? then Off else st.worker)
            && after.queue == (if step.ShutdownClears? then [] else st.queue)
            && after.table == (if step.ShutdownClears? then map[] else st.table)
  {
    RunKeeps(steps);
    if step.ShutdownClears? { WaitingIsQueued(Play(steps), f); }
  }

  lemma WaitingIsQueued(st: State, f: FutureId)
    requires Inv(st)
    ensures f !in st.done ==> (f in st.accepted <==> f in Waiting(st.table) || f in Held(st.worker))
  {
    if InQueue(st, f) {
      var k :| k in st.table && f in st.table[k].futures;
    }
  }

  // ----- The worker left alone -----

  /** One turn of the worker loop: when it is ready, how the function ends, and the pause a flood error sets. */
  datatype Turn = Turn(ready: int, outcome: Outcome, pause: Option<int>)
  {
    predicate Sound() {
      pause.Some? ==> outcome.Error?
    }
  }

  function AfterTurn(st: State, turn: Turn): State {
    if !CanStep(st, Take) then st
    else
      var start := if turn.ready < st.pausedUntil then st.pausedUntil else turn.ready;
      Next(Next(Next(st, Take), Begin(start)), Finish(turn.outcome, turn.pause))
  }

  function AfterTurns(st: State, turns: seq<Turn>): State
    decreases |turns|
  {
    if turns == [] then st else AfterTurns(AfterTurn(st, turns[0]), turns[1..])
  }

  function Functions(log: seq<Event>): seq<nat> {
    if log == [] then []
    else
      var last := log[|log| - 1];
      Functions(log[..|log| - 1]) + if last.Started? then [last.func] else []
  }

  function QueuedFunctions(queue: seq<Key>, table: map<Key, Group>): seq<nat>
    requires forall k :: k in queue ==> k in table
  {
    if queue == [] then []
    else
      assert queue[0] in queue;
      [table[queue[0]].func] + QueuedFunctions(queue[1..], table)
  }

  lemma LogFunctions(log: seq<Event>, event: Event)
    ensures Functions(log + [event]) == Functions(log) + if event.Started? then [event.func] else []
  {
    assert (log + [event])[..|log|] == log;
  }

  /** A turn in one piece. */
  lemma TurnIs(st: State, turn: Turn)
    requires QueueInv(st.queue, st.table) && CanStep(st, Take) && turn.Sound()
    ensures st.queue[0] in st.table
    ensures var key, group := st.queue[0], st.table[st.queue[0]];
            var start := if turn.ready < st.pausedUntil then st.pausedUntil else turn.ready;
            AfterTurn(st, turn) ==
              st.(queue := st.queue[1..], table := st.table - {key}, worker := Idle,
                  done := Settle(st.done, group.futures, turn.outcome),
                  pausedUntil := if turn.pause.Some? then turn.pause.value else st.pausedUntil,
                  log := st.log + [Taken(key, group)] + [Started(group.func, start)]
                         + [Answered(Pending(st.done, group.futures), turn.outcome, turn.pause)])
  {
    TakeKeepsQueue(st.queue, st.table);
  }

  lemma TurnTakesTheFirst(st: State, turn: Turn)
    requires QueueInv(st.queue, st.table) && CanStep(st, Take) && turn.Sound()
    ensures st.queue[0] in st.table
    ensures var after := AfterTurn(st, turn);
            && after.queue == st.queue[1..] && after.table == st.table - {st.queue[0]}
            && after.worker.Idle? && after.closed == st.closed
            && Functions(after.log) == Functions(st.log) + [st.table[st.queue[0]].func]
  {
    TurnIs(st, turn);
    var group := st.table[st.queue[0]];
    var start := if turn.ready < st.pausedUntil then st.pausedUntil else turn.ready;
    LogFunctions(st.log, Taken(st.queue[0], group));
    LogFunctions(st.log + [Taken(st.queue[0], group)], Started(group.func, start));
    LogFunctions(st.log + [Taken(st.queue[0], group)] + [Started(group.func, start)],
                 Answered(Pending(st.done, group.futures), turn.outcome, turn.pause));
  }

  lemma {:induction false} QueuedFunctionsStay(queue: seq<Key>, table: map<Key, Group>, gone: Key)
    requires forall k :: k in queue ==> k in table && k != gone
    ensures QueuedFunctions(queue, table - {gone}) == QueuedFunctions(queue, table)
  {
    if queue != [] {
      assert queue[0] in queue;
      QueuedFunctionsStay(queue[1..], table, gone);
    }
  }

  lemma RestOfTheQueue(queue: seq<Key>, table: map<Key, Group>)
    requires QueueInv(queue, table) && queue != []
    ensures QueueInv(queue[1..], table - {queue[0]}) && queue[0] in table
    ensures QueuedFunctions(queue, table) == [table[queue[0]].func] + QueuedFunctions(queue[1..], table - {queue[0]})
  {
    TakeKeepsQueue(queue, table);
    forall k | k in queue[1..] ensures k in table && k != queue[0] {
      assert k in table - {queue[0]};
    }
    QueuedFunctionsStay(queue[1..], table, queue[0]);
  }

  /** The first queued group that holds a future; in a reachable state it is the only one. */
  predicate FirstHolds(queue: seq<Key>, table: map<Key, Group>, i: nat, f: FutureId) {
    && i < |queue| && queue[i] in table && f in table[queue[i]].futures
    && forall j :: 0 <= j < i && queue[j] in table ==> f !in table[queue[j]].futures
  }

  /** The turns answered the queued futures that were open, each with the outcome of its own group's turn, and
      no other. */
  ghost predicate AnsweredInTurn(st: State, turns: seq<Turn>, done: map<FutureId, Outcome>)
    requires |turns| == |st.queue|
  {
    && (forall f :: f in st.done ==> f in done && done[f] == st.done[f])
    && (forall i: nat, f :: FirstHolds(st.queue, st.table, i, f) && f !in st.done ==>
          f in done && done[f] == turns[i].outcome)
    && (forall f :: f in done ==> f in st.done || f in Waiting(st.table))
  }

  lemma {:induction false} TurnsAnswer(st: State, turns: seq<Turn>)
    requires QueueInv(st.queue, st.table) && st.worker.Idle? && !st.closed && |turns| == |st.queue|
    requires forall i :: 0 <= i < |turns| ==> turns[i].Sound()
    ensures AnsweredInTurn(st, turns, AfterTurns(st, turns).done)
    decreases |turns|
  {
    if turns != [] {
      TurnTakesTheFirst(st, turns[0]);
      TurnIs(st, turns[0]);
      RestOfTheQueue(st.queue, st.table);
      TurnsAnswer(AfterTurn(st, turns[0]), turns[1..]);
      AnswersAddUp(st, AfterTurn(st, turns[0]), turns, AfterTurns(st, turns).done);
    }
  }

  lemma AnswersAddUp(st: State, next: State, turns: seq<Turn>, done: map<FutureId, Outcome>)
    requires QueueInv(st.queue, st.table) && st.queue != [] && |turns| == |st.queue|
    requires next.queue == st.queue[1..] && st.queue[0] in st.table && next.table == st.table - {st.queue[0]}
    requires next.done == Settle(st.done, st.table[st.queue[0]].futures, turns[0].outcome)
    requires AnsweredInTurn(next, turns[1..], done)
    ensures AnsweredInTurn(st, turns, done)
  {
    forall i: nat, f | FirstHolds(st.queue, st.table, i, f) && f !in st.done
      ensures f in done && done[f] == turns[i].outcome
    {
      if 0 < i {
        LaterGroupsStay(st, next, i, f);
        assert turns[1..][i - 1] == turns[i];
      }
    }
  }

  /** After a turn the groups behind the first are where they were. */
  lemma LaterGroupsStay(st: State, next: State, i: nat, f: FutureId)
    requires QueueInv(st.queue, st.table) && st.queue != []
    requires next.queue == st.queue[1..] && next.table == st.table - {st.queue[0]}
    requires 0 < i && FirstHolds(st.queue, st.table, i, f)
    ensures FirstHolds(next.queue, next.table, i - 1, f) && f !in st.table[st.queue[0]].futures
  {
    TakeKeepsQueue(st.queue, st.table);
    assert next.queue[i - 1] == st.queue[i] && st.queue[i] in next.queue;
  }

  /** With as many turns as there are keys, the worker runs the function of each key once, in queue order, answers
      every future that was queued, each with the outcome of its own group, and leaves nothing queued. */
  lemma WorkerDrainsInOrder(st: State, turns: seq<Turn>)
    requires QueueInv(st.queue, st.table) && st.worker.Idle? && !st.closed && |turns| == |st.queue|
    requires forall i :: 0 <= i < |turns| ==> turns[i].Sound()
    ensures var after := AfterTurns(st, turns);
            && after.queue == [] && after.table == map[]
            && Functions(after.log) == Functions(st.log) + QueuedFunctions(st.queue, st.table)
            && AnsweredInTurn(st, turns, after.done)
            && (forall f :: f in Waiting(st.table) ==> f in after.done)
  {
    TurnsRunInOrder(st, turns);
    TurnsAnswer(st, turns);
    forall f | f in Waiting(st.table) ensures f in AfterTurns(st, turns).done {
      var k :| k in st.table && f in st.table[k].futures;
      var i :| 0 <= i < |st.queue| && st.queue[i] == k;
      SomeGroupIsFirst(st.queue, st.table, i, f);
    }
  }

  lemma {:induction false} SomeGroupIsFirst(queue: seq<Key>, table: map<Key, Group>, i: nat, f: FutureId)
    requires i < |queue| && queue[i] in table && f in table[queue[i]].futures
    ensures exists j: nat :: FirstHolds(queue, table, j, f)
  {
    if !FirstHolds(queue, table, i, f) {
      var j: nat :| j < i && queue[j] in table && f in table[queue[j]].futures;
      SomeGroupIsFirst(queue, table, j, f);
    }
  }

  lemma {:induction false} TurnsRunInOrder(st: State, turns: seq<Turn>)
    requires QueueInv(st.queue, st.table) && st.worker.Idle? && !st.closed && |turns| == |st.queue|
    requires forall i :: 0 <= i < |turns| ==> turns[i].Sound()
    ensures var after := AfterTurns(st, turns);
            && after.queue == [] && after.table == map[]
            && Functions(after.log) == Functions(st.log) + QueuedFunctions(st.queue, st.table)
    decreases |turns|, 0
  {
    if turns == [] {
      assert st.table == map[];
    } else {
      TurnTakesTheFirst(st, turns[0]);
      DrainsOn(st, AfterTurn(st, turns[0]), turns[1..]);
    }
  }

  lemma {:induction false} DrainsOn(st: State, next: State, turns: seq<Turn>)
    requires QueueInv(st.queue, st.table) && st.queue != [] && |turns| == |st.queue| - 1
    requires next.worker.Idle? && !next.closed
    requires next.queue == st.queue[1..] && st.queue[0] in st.table && next.table == st.table - {st.queue[0]}
    requires Functions(next.log) == Functions(st.log) + [st.table[st.queue[0]].func]
    requires forall i :: 0 <= i < |turns| ==> turns[i].Sound()
    ensures var after := AfterTurns(next, turns);
            && after.queue == [] && after.table == map[]
            && Functions(after.log) == Functions(st.log) + QueuedFunctions(st.queue, st.table)
    decreases |turns|, 1
  {
    RestOfTheQueue(st.queue, st.table);
    TurnsRunInOrder(next, turns);
    Associate(Functions(st.log), [st.table[st.queue[0]].func], QueuedFunctions(next.queue, next.table));
  }

  lemma Associate(a: seq<nat>, b: seq<nat>, c: seq<nat>)
    ensures a + b + c == a + (b + c)
  {
  }
}
