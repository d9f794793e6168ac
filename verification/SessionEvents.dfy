/** application/session_events.py: fan-out of a numbered feed to bounded queues, where a slow reader is cut off
    instead of holding up the publisher. */
module SessionEvents {
  import opened Options

  datatype Event = Event(kind: string, id: nat, data: string)

  datatype Item = Told(event: Event) | Overflow(cursor: nat) | Shut

  type SubId = nat

  /** One subscription: `seen` and `ended` are what its reader got. */
  datatype Sub = Sub(cursor: nat, queue: seq<Item>, closed: bool, seen: seq<Event>, ended: Option<Item>)

  datatype State = State(size: nat, published: seq<Event>, subs: map<SubId, Sub>, registered: set<SubId>, closed: bool)

  datatype Step =
    | Subscribe(sub: SubId)
    | Publish(kind: string, data: string)
    | Read(sub: SubId)
    | CloseSub(sub: SubId)
    | Disconnect
    | ClosePublisher

  // ----- One queue -----

  /** `put_nowait`, or the overflow signal in place of everything when there is no room. */
  function Offered(queue: seq<Item>, size: nat, event: Event): seq<Item> {
    if |queue| < size then queue + [Told(event)] else [Overflow(event.id)]
  }

  /** `__anext__`, which needs an item to return. */
  function ReadOne(sub: Sub): Sub
    requires sub.queue != []
  {
    var rest := sub.(queue := sub.queue[1..]);
    match sub.queue[0]
    case Told(event) => rest.(seen := sub.seen + [event])
    case signal => rest.(ended := Some(signal))
  }

  // ----- Steps -----

  predicate CanStep(st: State, step: Step) {
    match step
    case Subscribe(s) => !st.closed && s !in st.subs
    case Publish(kind, data) => !st.closed
    case Read(s) => s in st.subs && st.subs[s].queue != [] && st.subs[s].ended.None?
    case CloseSub(s) => s in st.subs && !st.subs[s].closed
    case Disconnect => true
    case ClosePublisher => !st.closed
  }

  predicate Full(sub: Sub, size: nat) {
    size <= |sub.queue|
  }

  function Published(st: State, event: Event): State {
    st.(published := st.published + [event],
        subs := map s | s in st.subs ::
                  if s in st.registered then st.subs[s].(queue := Offered(st.subs[s].queue, st.size, event))
                  else st.subs[s],
        registered := set s | s in st.registered && !(s in st.subs && Full(st.subs[s], st.size)))
  }

  function Disconnected(st: State): State {
    st.(subs := map s | s in st.subs :: if s in st.registered then st.subs[s].(queue := [Shut]) else st.subs[s],
        registered := {})
  }

  function Next(st: State, step: Step): State {
    if !CanStep(st, step) then st
    else
      match step
      case Subscribe(s) =>
        st.(subs := st.subs[s := Sub(|st.published|, [], false, [], None)], registered := st.registered + {s})
      case Publish(kind, data) => Published(st, Event(kind, |st.published| + 1, data))
      case Read(s) => st.(subs := st.subs[s := ReadOne(st.subs[s])])
      case CloseSub(s) =>
        st.(subs := st.subs[s := st.subs[s].(closed := true, queue := [Shut])], registered := st.registered - {s})
      case Disconnect => Disconnected(st)
      case ClosePublisher => Disconnected(st).(closed := true)
  }

  function Play(size: nat, steps: seq<Step>): State {
    if steps == [] then State(size, [], map[], {}, false)
    else Next(Play(size, steps[..|steps| - 1]), steps[|steps| - 1])
  }

  // ----- Invariant -----

  function Events(queue: seq<Item>): seq<Event> {
    if queue == [] then []
    else
      var last := queue[|queue| - 1];
      Events(queue[..|queue| - 1]) + if last.Told? then [last.event] else []
  }

  predicate OnlyEvents(queue: seq<Item>) {
    forall i :: 0 <= i < |queue| ==> queue[i].Told?
  }

  predicate LiveOk(sub: Sub, published: seq<Event>, size: nat) {
    && OnlyEvents(sub.queue)
    && |sub.queue| <= size
    && sub.ended.None?
    && sub.cursor <= |published|
    && sub.seen + Events(sub.queue) == published[sub.cursor..]
  }

  /** A signal says the truth about what the reader has. */
  predicate SignalOk(sub: Sub, signal: Item, size: nat) {
    signal.Shut? || (signal.Overflow? && signal.cursor == sub.cursor + |sub.seen| + size + 1)
  }

  predicate GoneOk(sub: Sub, published: seq<Event>, size: nat) {
    && sub.cursor + |sub.seen| <= |published|
    && sub.seen == published[sub.cursor..sub.cursor + |sub.seen|]
    && (sub.ended.Some? ==> SignalOk(sub, sub.ended.value, size))
    && (sub.queue == [] ==> sub.ended.Some?)
    && |sub.queue| <= 1
    && (sub.queue != [] ==> SignalOk(sub, sub.queue[0], size))
    && (sub.queue != [] && sub.queue[0].Overflow? ==> sub.queue[0].cursor <= |published|)
  }

  ghost predicate Numbered(published: seq<Event>) {
    forall i :: 0 <= i < |published| ==> published[i].id == i + 1
  }

  ghost predicate Inv(st: State) {
    && 0 < st.size
    && Numbered(st.published)
    && st.registered <= st.subs.Keys
    && (forall s :: s in st.registered ==> LiveOk(st.subs[s], st.published, st.size))
    && (forall s :: s in st.subs && s !in st.registered ==> GoneOk(st.subs[s], st.published, st.size))
  }

  lemma {:induction false} EventsOf(queue: seq<Item>)
    requires OnlyEvents(queue)
    ensures |Events(queue)| == |queue|
    ensures forall i :: 0 <= i < |queue| ==> Events(queue)[i] == queue[i].event
  {
    if queue != [] { EventsOf(queue[..|queue| - 1]); }
  }

  lemma OfferKeepsLive(sub: Sub, published: seq<Event>, size: nat, event: Event)
    requires LiveOk(sub, published, size) && |sub.queue| < size
    ensures LiveOk(sub.(queue := Offered(sub.queue, size, event)), published + [event], size)
  {
    var queue := Offered(sub.queue, size, event);
    assert queue[..|sub.queue|] == sub.queue;
    assert (published + [event])[sub.cursor..] == published[sub.cursor..] + [event];
  }

  lemma CutOffTellsTheGap(sub: Sub, published: seq<Event>, size: nat, event: Event)
    requires LiveOk(sub, published, size) && size <= |sub.queue| && event.id == |published| + 1
    ensures GoneOk(sub.(queue := Offered(sub.queue, size, event)), published + [event], size)
  {
    LiveIsPrefix(sub, published, size);
    EventsOf(sub.queue);
    assert (published + [event])[sub.cursor..sub.cursor + |sub.seen|] == published[sub.cursor..sub.cursor + |sub.seen|];
  }

  lemma LiveIsPrefix(sub: Sub, published: seq<Event>, size: nat)
    requires LiveOk(sub, published, size)
    ensures sub.cursor + |sub.seen| + |Events(sub.queue)| == |published|
    ensures sub.seen == published[sub.cursor..sub.cursor + |sub.seen|]
  {
    var tail := published[sub.cursor..];
    assert sub.seen == (sub.seen + Events(sub.queue))[..|sub.seen|] == tail[..|sub.seen|];
  }

  lemma ShutKeeps(sub: Sub, published: seq<Event>, size: nat, live: bool)
    requires if live then LiveOk(sub, published, size) else GoneOk(sub, published, size)
    ensures forall closed :: GoneOk(sub.(queue := [Shut], closed := closed), published, size)
    ensures GoneOk(sub.(queue := [Shut]), published, size)
  {
    if live { LiveIsPrefix(sub, published, size); }
  }

  lemma ReadKeepsLive(sub: Sub, published: seq<Event>, size: nat)
    requires LiveOk(sub, published, size) && sub.queue != []
    ensures LiveOk(ReadOne(sub), published, size)
  {
    FirstEvent(sub.queue);
  }

  lemma FirstEvent(queue: seq<Item>)
    requires OnlyEvents(queue) && queue != []
    ensures OnlyEvents(queue[1..]) && Events(queue) == [queue[0].event] + Events(queue[1..])
  {
    EventsOf(queue);
    EventsOf(queue[1..]);
  }

  lemma PublishKeeps(st: State, kind: string, data: string)
    requires Inv(st)
    ensures Inv(Published(st, Event(kind, |st.published| + 1, data)))
  {
    var event := Event(kind, |st.published| + 1, data);
    var after := Published(st, event);
    forall s | s in after.registered ensures LiveOk(after.subs[s], after.published, st.size) {
      OfferKeepsLive(st.subs[s], st.published, st.size, event);
    }
    forall s | s in after.subs && s !in after.registered ensures GoneOk(after.subs[s], after.published, st.size) {
      if s in st.registered {
        CutOffTellsTheGap(st.subs[s], st.published, st.size, event);
      } else {
        var sub := st.subs[s];
        assert after.published[sub.cursor..sub.cursor + |sub.seen|]
               == st.published[sub.cursor..sub.cursor + |sub.seen|];
      }
    }
  }

  lemma DisconnectKeeps(st: State)
    requires Inv(st)
    ensures Inv(Disconnected(st))
  {
    forall s | s in st.registered ensures GoneOk(st.subs[s].(queue := [Shut]), st.published, st.size) {
      ShutKeeps(st.subs[s], st.published, st.size, true);
    }
  }

  lemma ReadKeeps(st: State, s: SubId)
    requires Inv(st) && CanStep(st, Read(s))
    ensures Inv(Next(st, Read(s)))
  {
    if s in st.registered {
      ReadKeepsLive(st.subs[s], st.published, st.size);
    } else {
      ReadKeepsGone(st.subs[s], st.published, st.size);
    }
  }

  lemma ReadKeepsGone(sub: Sub, published: seq<Event>, size: nat)
    requires GoneOk(sub, published, size) && sub.queue != [] && sub.ended.None?
    ensures GoneOk(ReadOne(sub), published, size)
  {
  }

  lemma CloseSubKeeps(st: State, s: SubId)
    requires Inv(st) && CanStep(st, CloseSub(s))
    ensures Inv(Next(st, CloseSub(s)))
  {
    ShutKeeps(st.subs[s], st.published, st.size, s in st.registered);
  }

  lemma SubscribeKeeps(st: State, s: SubId)
    requires Inv(st) && CanStep(st, Subscribe(s))
    ensures Inv(Next(st, Subscribe(s)))
  {
  }

  lemma StepKeeps(st: State, step: Step)
    requires Inv(st)
    ensures Inv(Next(st, step))
  {
    if CanStep(st, step) {
      match step
      case Subscribe(s) => SubscribeKeeps(st, s);
      case Publish(kind, data) => PublishKeeps(st, kind, data);
      case Read(s) => ReadKeeps(st, s);
      case CloseSub(s) => CloseSubKeeps(st, s);
      case Disconnect => DisconnectKeeps(st);
      case ClosePublisher => DisconnectKeeps(st);
    }
  }

  lemma {:induction false} RunKeeps(size: nat, steps: seq<Step>)
    requires 0 < size
    ensures Inv(Play(size, steps)) && Play(size, steps).size == size
  {
    if steps != [] {
      RunKeeps(size, steps[..|steps| - 1]);
      StepKeeps(Play(size, steps[..|steps| - 1]), steps[|steps| - 1]);
    }
  }

  // ----- What subscribers and the publisher can count on -----

  /** A registered subscriber misses nothing: what its reader saw, then what waits in its queue, is exactly what
      was published since it subscribed, and no queue outgrows its bound. */
  lemma {:induction false} RegisteredMissesNothing(size: nat, steps: seq<Step>, s: SubId)
    requires 0 < size && s in Play(size, steps).registered
    ensures var st := Play(size, steps);
            && s in st.subs
            && st.subs[s].cursor <= |st.published|
            && st.subs[s].seen + Events(st.subs[s].queue) == st.published[st.subs[s].cursor..]
            && |Events(st.subs[s].queue)| == |st.subs[s].queue| <= size
  {
    RunKeeps(size, steps);
    EventsOf(Play(size, steps).subs[s].queue);
  }

  lemma {:induction false} IdsHaveNoGap(size: nat, steps: seq<Step>, i: nat)
    requires 0 < size && i < |Play(size, steps).published|
    ensures Play(size, steps).published[i].id == i + 1
  {
    RunKeeps(size, steps);
  }

  /** Whatever became of it, every reader saw a gap-free stretch of the feed from its cursor on. It ends with a
      close, or with an overflow whose cursor lies a whole queue and one event past the last one seen. */
  lemma {:induction false} ReadersSeeAPrefix(size: nat, steps: seq<Step>, s: SubId)
    requires 0 < size && s in Play(size, steps).subs
    ensures var st := Play(size, steps);
            var sub := st.subs[s];
            && sub.cursor + |sub.seen| <= |st.published|
            && sub.seen == st.published[sub.cursor..sub.cursor + |sub.seen|]
            && (sub.ended.Some? ==>
                  s !in st.registered &&
                  (sub.ended.value.Shut? ||
                   (sub.ended.value.Overflow? && sub.ended.value.cursor == sub.cursor + |sub.seen| + size + 1)))
  {
    RunKeeps(size, steps);
    var st := Play(size, steps);
    if s in st.registered { LiveIsPrefix(st.subs[s], st.published, size); }
  }

  /** A subscriber is never left waiting for nothing: out of the feed, it has a signal to read, or has read one. */
  lemma {:induction false} TheCutOffAreTold(size: nat, steps: seq<Step>, s: SubId)
    requires 0 < size && s in Play(size, steps).subs && s !in Play(size, steps).registered
    ensures var sub := Play(size, steps).subs[s];
            sub.ended.Some? || (|sub.queue| == 1 && !sub.queue[0].Told?)
  {
    RunKeeps(size, steps);
  }

  // ----- What the steps do -----

  /** A published event reaches every registered subscriber that has room, behind what it has not read yet; one
      without room gets the overflow instead of all that, with the event's number, and leaves the feed. Nobody else
      notices; and a closed publisher publishes nothing. */
  lemma PublishingReaches(size: nat, steps: seq<Step>, kind: string, data: string, s: SubId)
    requires 0 < size
    ensures Play(size, steps).closed ==> Next(Play(size, steps), Publish(kind, data)) == Play(size, steps)
    ensures var st := Play(size, steps);
            !st.closed ==>
            var after, event := Next(st, Publish(kind, data)), Event(kind, |st.published| + 1, data);
            && after.published == st.published + [event] && after.closed == st.closed
            && after.subs.Keys == st.subs.Keys
            && (s in st.subs ==>
                  after.subs[s] == if s !in st.registered then st.subs[s]
                                   else if |st.subs[s].queue| < size then
                                     st.subs[s].(queue := st.subs[s].queue + [Told(event)])
                                   else st.subs[s].(queue := [Overflow(event.id)]))
            && (s in after.registered <==> s in st.registered && s in st.subs && |st.subs[s].queue| < size)
  {
    RunKeeps(size, steps);
    SizeStays(size, steps);
  }

  lemma {:induction false} SizeStays(size: nat, steps: seq<Step>)
    ensures Play(size, steps).size == size
  {
    if steps != [] { SizeStays(size, steps[..|steps| - 1]); }
  }

  /** A new subscriber starts behind what was published so far, with nothing to read; a closed publisher takes none. */
  lemma SubscribingStarts(size: nat, steps: seq<Step>, s: SubId)
    requires 0 < size && s !in Play(size, steps).subs
    ensures var st := Play(size, steps);
            var after := Next(st, Subscribe(s));
            && after.published == st.published
            && (s in after.registered <==> !st.closed)
            && (st.closed ==> after == st)
            && (!st.closed ==>
                  && after.registered == st.registered + {s}
                  && after.subs == st.subs[s := Sub(|st.published|, [], false, [], None)])
  {
    RunKeeps(size, steps);
  }

  /** A reader takes the oldest item, and after a signal no more. Closing, one subscription or all of them, leaves
      exactly the close to read, and takes the subscription out of the feed. */
  lemma ReadersAreTold(size: nat, steps: seq<Step>, step: Step, s: SubId)
    requires 0 < size && CanStep(Play(size, steps), step) && s in Play(size, steps).subs
    requires step.Read? || step.CloseSub? || step.Disconnect? || step.ClosePublisher?
    ensures var st, after := Play(size, steps), Next(Play(size, steps), step);
            var sub := st.subs[s];
            && s in after.subs && after.published == st.published
            && after.closed == (st.closed || step.ClosePublisher?)
            && (step == Read(s) ==>
                  && after.registered == st.registered && after.subs[s].queue == sub.queue[1..]
                  && (if sub.queue[0].Told?
                      then after.subs[s].seen == sub.seen + [sub.queue[0].event] && after.subs[s].ended.None?
                      else after.subs[s].seen == sub.seen && after.subs[s].ended == Some(sub.queue[0])))
            && (step == CloseSub(s) ==>
                  after.registered == st.registered - {s} && after.subs[s] == sub.(closed := true, queue := [Shut]))
            && ((step.Read? || step.CloseSub?) && step.sub != s ==>
                  after.subs[s] == sub && (s in after.registered <==> s in st.registered))
            && (step.Disconnect? || step.ClosePublisher? ==>
                  && after.registered == {}
                  && after.subs[s] == if s in st.registered then sub.(queue := [Shut]) else sub)
  {
    RunKeeps(size, steps);
  }

  // ----- The objects -----

  class EventSubscription {
    var queue: seq<Item>
    var closed: bool
    const cursor: nat

    constructor (cursor: nat)
      ensures this.cursor == cursor && queue == [] && !closed
    {
      this.cursor := cursor;
      queue, closed := [], false;
    }

    /** Empties the queue and leaves one item. */
    method Signal(item: Item)
      modifies this`queue
      ensures queue == [item]
    {
      while queue != []
        decreases |queue|
      {
        queue := queue[1..];
      }
      queue := queue + [item];
    }
  }

  class EventPublisher {
    const queueSize: nat
    var sequence: nat
    var subscriptions: set<EventSubscription>
    var closed: bool

    constructor (queueSize: nat)
      requires 0 < queueSize
      ensures this.queueSize == queueSize && sequence == 0 && subscriptions == {} && !closed
    {
      this.queueSize := queueSize;
      sequence, subscriptions, closed := 0, {}, false;
    }

    /** A size that is not positive is refused. */
    static method Make(queueSize: int) returns (r: Option<EventPublisher>)
      ensures r.Some? <==> 0 < queueSize
      ensures r.Some? ==> fresh(r.value) && r.value.queueSize == queueSize && r.value.subscriptions == {}
    {
      if queueSize <= 0 { return None; }
      var publisher := new EventPublisher(queueSize);
      r := Some(publisher);
    }

    method Subscribe() returns (r: Option<EventSubscription>)
      modifies this`subscriptions
      ensures r.None? <==> closed
      ensures r.None? ==> subscriptions == old(subscriptions)
      ensures r.Some? ==> fresh(r.value) && subscriptions == old(subscriptions) + {r.value}
      ensures r.Some? ==> r.value.cursor == sequence && r.value.queue == [] && !r.value.closed
    {
      if closed { return None; }
      var subscription := new EventSubscription(sequence);
      subscriptions := subscriptions + {subscription};
      r := Some(subscription);
    }

    method Offer(subscription: EventSubscription, event: Event)
      requires event.id == sequence
      modifies this`subscriptions, subscription`queue
      ensures subscription.queue == Offered(old(subscription.queue), queueSize, event)
      ensures subscriptions ==
              if old(|subscription.queue|) < queueSize then old(subscriptions) else old(subscriptions) - {subscription}
    {
      if |subscription.queue| < queueSize {
        subscription.queue := subscription.queue + [Told(event)];
      } else {
        subscriptions := subscriptions - {subscription};
        subscription.Signal(Overflow(sequence));
      }
    }

    /** Offers the event to every subscription once; the full ones leave the set with the overflow signal. */
    method Publish(kind: string, data: string) returns (r: Option<Event>)
      modifies this`sequence, this`subscriptions, subscriptions`queue
      ensures r.None? <==> closed
      ensures r.None? ==> sequence == old(sequence) && subscriptions == old(subscriptions)
      ensures r.None? ==> forall s :: s in old(subscriptions) ==> s.queue == old(s.queue)
      ensures r.Some? ==> sequence == old(sequence) + 1 && r.value == Event(kind, sequence, data)
      ensures r.Some? ==> forall s :: s in old(subscriptions) ==> s.queue == Offered(old(s.queue), queueSize, r.value)
      ensures r.Some? ==> subscriptions == set s | s in old(subscriptions) && old(|s.queue|) < queueSize
    {
      if closed { return None; }
      sequence := sequence + 1;
      r := Some(Event(kind, sequence, data));
      OfferAll(r.value);
    }

    /** Every subscriber is offered the event once; the full ones leave the set. */
    method OfferAll(event: Event)
      requires sequence == event.id
      modifies this`subscriptions, subscriptions`queue
      ensures forall s :: s in old(subscriptions) ==> s.queue == Offered(old(s.queue), queueSize, event)
      ensures subscriptions == set s | s in old(subscriptions) && old(|s.queue|) < queueSize
    {
      ghost var all := subscriptions;
      ghost var room := set s | s in all && |s.queue| < queueSize;
      var left := subscriptions;
      while exists s :: s in left
        invariant left <= all
        invariant forall s :: s in all ==>
                    s.queue == if s in left then old(s.queue) else Offered(old(s.queue), queueSize, event)
        invariant subscriptions == left + room
        decreases |left|
      {
        var s :| s in left;
        assert s in room <==> |s.queue| < queueSize;
        Offer(s, event);
        left := left - {s};
      }
      assert left == {};
    }

    method CloseSubscription(subscription: EventSubscription)
      modifies this`subscriptions, subscription
      ensures subscription.closed
      ensures subscription.queue == if old(subscription.closed) then old(subscription.queue) else [Shut]
      ensures subscriptions ==
                if old(subscription.closed) then old(subscriptions) else old(subscriptions) - {subscription}
    {
      if subscription.closed { return; }
      subscription.closed := true;
      subscriptions := subscriptions - {subscription};
      subscription.Signal(Shut);
    }

    method DisconnectSubscribers()
      modifies this`subscriptions, subscriptions`queue
      ensures subscriptions == {}
      ensures forall s :: s in old(subscriptions) ==> s.queue == [Shut]
    {
      var left := subscriptions;
      subscriptions := {};
      while exists s :: s in left
        invariant left <= old(subscriptions)
        invariant forall s :: s in old(subscriptions) - left ==> s.queue == [Shut]
        invariant subscriptions == {}
        decreases |left|
      {
        var s :| s in left;
        s.Signal(Shut);
        left := left - {s};
      }
    }

    method Close()
      modifies this`closed, this`subscriptions, subscriptions`queue
      ensures closed
      ensures subscriptions == if old(closed) then old(subscriptions) else {}
      ensures forall s :: s in old(subscriptions) ==> s.queue == if old(closed) then old(s.queue) else [Shut]
    {
      if closed { return; }
      closed := true;
      DisconnectSubscribers();
    }
  }
}
