/** The limiter object of messaging/limiter.py, each method tied to the step it takes in MessagingQueue. */
module MessagingLimiter {
  import opened Options
  import opened MessagingQueue

  datatype Refusal = LimiterClosed | NotStarted

  /** What the text or the `seconds` of a failed function's error asks for. */
  datatype Flood = NoFlood | Seconds(wait: int) | NotANumber

  function PauseAfter(flood: Flood, now: int): Option<int> {
    if flood.Seconds? then Some(now + flood.wait) else None
  }

  datatype WorkerTurn = WorkerTurn(ready: int, outcome: Outcome, ended: int, flood: Flood)

  function AsTurn(turn: WorkerTurn): Turn {
    Turn(turn.ready, turn.outcome, PauseAfter(turn.flood, turn.ended))
  }

  function AsTurns(turns: seq<WorkerTurn>): seq<Turn> {
    seq(|turns|, i requires 0 <= i < |turns| => AsTurn(turns[i]))
  }

  lemma CancelledTogether(done: map<FutureId, Outcome>, queued: set<FutureId>, held: seq<FutureId>)
    ensures Settle(CancelAll(done, queued), held, Cancelled) == CancelAll(done, queued + set f | f in held)
  {
  }

  class MessagingRateLimiter {
    var queueList: seq<Key>
    var queueMap: map<Key, Group>
    var activeFutures: seq<FutureId>
    var worker: Worker                     // what the worker task holds between two awaits
    var futureOutcomes: map<FutureId, Outcome>
    var closed: bool
    var pausedUntil: int
    ghost var accepted: set<FutureId>
    ghost var cleared: bool
    ghost var log: seq<Event>

    ghost function View(): State
      reads this
    {
      State(queueList, queueMap, worker, futureOutcomes, accepted, closed, cleared, pausedUntil, log)
    }

    ghost predicate Valid()
      reads this
    {
      activeFutures == Held(worker) && QueueInv(queueList, queueMap)
    }

    constructor ()
      ensures Valid() && View() == IDLE
    {
      queueList, queueMap, activeFutures, worker := [], map[], [], Off;
      futureOutcomes, closed, pausedUntil := map[], false, 0;
      accepted, cleared, log := {}, false, [];
    }

    method Start() returns (r: Result<(), Refusal>)
      requires Valid()
      modifies this
      ensures Valid() && View() == Next(old(View()), MessagingQueue.Start)
      ensures r.Err? <==> old(closed)
    {
      if closed { return Err(LimiterClosed); }
      if worker.Off? { worker := Idle; }
      r := Ok(());
    }

    method Insert(func: nat, futures: seq<FutureId>, key: Key, front: bool)
      modifies this
      ensures View() == Enqueued(old(View()), key, Group(func, futures), front)
      ensures activeFutures == old(activeFutures)
    {
      if key in queueMap {
        var oldFutures := queueMap[key].futures;
        queueMap := queueMap[key := Group(func, oldFutures + futures)];
      } else {
        queueMap := queueMap[key := Group(func, futures)];
        if front { queueList := [key] + queueList; } else { queueList := queueList + [key]; }
      }
      accepted := accepted + set f | f in futures;
      log := log + [Submitted(key, Group(func, futures), front)];
    }

    /** `_enqueue_internal_multi`; the caller makes its futures anew. */
    method EnqueueInternalMulti(func: nat, futures: seq<FutureId>, key: Key, front: bool)
      returns (r: Result<(), Refusal>)
      requires Valid() && Fresh(View(), futures)
      modifies this
      ensures Valid()
      ensures View() == if r.Ok? then Enqueued(old(View()), key, Group(func, futures), front) else old(View())
      ensures r.Ok? <==> CanStep(old(View()), Enqueue(key, Group(func, futures), front))
      ensures r == if old(closed) then Err(LimiterClosed) else if old(worker).Off? then Err(NotStarted) else Ok(())
    {
      if closed { return Err(LimiterClosed); }
      if worker.Off? { return Err(NotStarted); }
      EnqueueKeepsQueue(queueList, queueMap, key, Group(func, futures), front);
      Insert(func, futures, key, front);
      r := Ok(());
    }

    /** The worker's turn under the condition; false when there is nothing to do. */
    method TakeGroup() returns (taken: bool)
      requires Valid() && worker.Idle?
      modifies this
      ensures Valid() && View() == Next(old(View()), Take)
      ensures taken <==> !old(closed) && old(queueList) != []
    {
      if closed || queueList == [] { return false; }
      TakeKeepsQueue(queueList, queueMap);
      var key := queueList[0];
      var group := queueMap[key];
      queueList := queueList[1..];
      queueMap := queueMap - {key};
      activeFutures := group.futures;
      worker := Holding(key, group, false);
      log := log + [Taken(key, group)];
      taken := true;
    }

    /** The pause is over and the window has room: the function runs. */
    method BeginRun(now: int)
      requires Valid() && worker.Holding? && !worker.running && pausedUntil <= now
      modifies this
      ensures Valid() && View() == Next(old(View()), Begin(now))
    {
      log := log + [Started(worker.group.func, now)];
      worker := worker.(running := true);
    }

    /** `for f in futures: if not f.done(): …`. */
    method SettleEach(futures: seq<FutureId>, outcome: Outcome)
      modifies this`futureOutcomes
      ensures futureOutcomes == Settle(old(futureOutcomes), futures, outcome)
    {
      var next := 0;
      while next < |futures|
        invariant next <= |futures|
        invariant futureOutcomes == Settle(old(futureOutcomes), futures[..next], outcome)
      {
        if futures[next] !in futureOutcomes {
          futureOutcomes := futureOutcomes[futures[next] := outcome];
        }
        assert futures[..next + 1] == futures[..next] + [futures[next]];
        next := next + 1;
      }
      assert futures[..next] == futures;
    }

    /** The function of the group in hand has ended. A flood error whose seconds are no number raises before the
        pause is set; the loop logs that and goes on. */
    method Finish(outcome: Outcome, now: int, flood: Flood)
      requires Valid() && worker.Holding? && worker.running && (!flood.NoFlood? ==> outcome.Error?)
      modifies this
      ensures Valid()
      ensures View() == Next(old(View()), MessagingQueue.Finish(outcome, PauseAfter(flood, now)))
      ensures pausedUntil == if flood.Seconds? then now + flood.wait else old(pausedUntil)
    {
      log := log + [Answered(Pending(futureOutcomes, worker.group.futures), outcome, PauseAfter(flood, now))];
      SettleEach(worker.group.futures, outcome);
      if flood.Seconds? { pausedUntil := now + flood.wait; }
      activeFutures := [];
      worker := Idle;
    }

    /** The worker loop, for as long as nobody else gets a turn. */
    method Work(turns: seq<WorkerTurn>)
      requires Valid() && worker.Idle?
      requires forall i :: 0 <= i < |turns| ==> turns[i].flood.NoFlood? || turns[i].outcome.Error?
      modifies this
      ensures Valid() && worker.Idle?
      ensures View() == AfterTurns(old(View()), AsTurns(turns))
    {
      var next := 0;
      while next < |turns|
        invariant next <= |turns| && Valid() && worker.Idle?
        invariant AfterTurns(View(), AsTurns(turns)[next..]) == AfterTurns(old(View()), AsTurns(turns))
      {
        ghost var was := View();
        var turn := turns[next];
        assert AsTurns(turns)[next] == AsTurn(turn) && AsTurns(turns)[next..][1..] == AsTurns(turns)[next + 1..];
        var taken := TakeGroup();
        if taken {
          BeginRun(if turn.ready < pausedUntil then pausedUntil else turn.ready);
          Finish(turn.outcome, turn.ended, turn.flood);
        }
        assert View() == AfterTurn(was, AsTurn(turn));
        next := next + 1;
      }
    }

    /** The worker task is cancelled, wherever it waits. */
    method CancelWorker()
      requires Valid() && !worker.Off?
      modifies this
      ensures Valid() && View() == Next(old(View()), WorkerCancelled)
    {
      SettleEach(activeFutures, Cancelled);
      activeFutures := [];
      worker := Off;
      log := log + [Dropped];
    }

    method QueuedFutures() returns (queued: set<FutureId>)
      ensures queued == Waiting(queueMap)
    {
      queued := {};
      var keys := queueMap.Keys;
      while exists k :: k in keys
        invariant keys <= queueMap.Keys
        invariant queued == set k, f | k in queueMap.Keys - keys && f in queueMap[k].futures :: f
        decreases |keys|
      {
        var k :| k in keys;
        assert queueMap.Keys - (keys - {k}) == (queueMap.Keys - keys) + {k};
        queued := queued + set f | f in queueMap[k].futures;
        keys := keys - {k};
      }
    }

    method CancelQueued(queued: set<FutureId>)
      modifies this`queueList, this`queueMap, this`futureOutcomes
      ensures queueList == [] && queueMap == map[]
      ensures futureOutcomes == CancelAll(old(futureOutcomes), queued)
    {
      queueList, queueMap := [], map[];
      futureOutcomes := CancelAll(futureOutcomes, queued);
    }

    /** The body of `shutdown` under the condition. */
    method ShutdownClear()
      requires Valid() && closed
      modifies this
      ensures Valid() && View() == AfterClear(old(View())) && CanStep(old(View()), ShutdownClears)
    {
      var queued := QueuedFutures();
      ghost var was := View();
      CancelQueued(queued);
      CancelledTogether(was.done, queued, activeFutures);
      SettleEach(activeFutures, Cancelled);
      cleared := true;
      log := log + [Cleared];
    }
  }
}
