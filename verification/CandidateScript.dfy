/** What the candidate loop does next, told event by event from the script alone.

    The events of a run carry their times, so that what has happened so far determines what comes next. */
module CandidateScript {
  import opened CandidateStream

  datatype Next = Then(event: Event) | Over(result: Result)

  /** The timer fires: the read comes back after the deadline, and the timer ran first. */
  predicate TimerFires(read: Read, at: int, deadline: int) {
    read.late && deadline <= at + read.took
  }

  /** The stream is asked again while the deadline is ahead, and closed once it has passed. */
  function AskNext(i: nat, n: nat, now: int, deadline: int, close: Close): Next {
    Then(if now < deadline then Asked(i, n, now, deadline) else Closed(i, now + close.took))
  }

  function AfterRead(i: nat, n: nat, read: Read, at: int, deadline: int, close: Close): Next {
    var back := at + read.took;
    if TimerFires(read, at, deadline) || !(read.outcome.Chunk? || read.outcome.Fails?) then
      Then(Closed(i, back + close.took))
    else if read.outcome.Fails? then Then(Failed(i, read.outcome.failure, back))
    else if read.outcome.data != "" then Then(Yielded(i, read.outcome.data, back + read.away))
    else if read.leaves then Then(Closed(i, back + read.away + close.took))
    else AskNext(i, n + 1, back + read.away, deadline, close)
  }

  /** A failure leads to the next candidate if nothing was shown and there is one. */
  function FallBack(history: seq<Event>, count: nat, i: nat, failure: Failure, at: int): Next {
    if NoneYielded(history) && i + 1 < count then Then(Tried(i + 1, at)) else Over(Raised(Provider(failure)))
  }

  /** Why a stream was closed, told from the event before. */
  function WhyClosed(i: nat, script: seq<Read>, last: Event, leaves: bool): End {
    match last
    case Failed(_, failure, _) => Gave(failure)
    case Asked(_, n, at, deadline) =>
      if |script| <= n || script[n].outcome.Ends? then Finished
      else if script[n].outcome.Breaks? then Stopped(Other)
      else if TimerFires(script[n], at, deadline) then Stopped(NoProgress(i))
      else if script[n].outcome.Chunk? && !script[n].leaves then Stopped(NoProgress(i))
      else Stopped(Other)
    case Yielded(_, _, _) => Stopped(if leaves then Other else NoProgress(i))
    case _ => Stopped(NoProgress(i))
  }

  /** The consumer left with the chunk that the last event showed. */
  predicate Left(history: seq<Event>, script: seq<Read>) {
    && 2 <= |history| && history[|history| - 1].Yielded? && history[|history| - 2].Asked?
    && history[|history| - 2].read < |script| && script[history[|history| - 2].read].leaves
  }

  /** After the stream of `i` was closed. */
  function AfterClose(history: seq<Event>, i: nat, stream: Opening, at: int, count: nat, start: int, limit: nat): Next
    requires stream.Stream? && history != []
  {
    var before := history[..|history| - 1];
    var why := if before == [] then Stopped(Other)
               else WhyClosed(i, stream.script, before[|before| - 1], Left(before, stream.script));
    var deadline := LastProgress(history, start) + limit;
    if stream.close.cancelled then
      Over(Raised(if !why.Stopped? && stream.close.late && deadline <= at then NoProgress(i) else Other))
    else
      match why
      case Finished => Over(Done)
      case Stopped(error) => Over(Raised(error))
      case Gave(failure) => FallBack(history, count, i, failure, at)
  }

  function AfterEvent(candidates: seq<Candidate>, history: seq<Event>, start: int, limit: nat): Next
    requires history != [] && history[|history| - 1].index < |candidates|
  {
    var last := history[|history| - 1];
    var i := last.index;
    var deadline := LastProgress(history, start) + limit;
    match candidates[i].opening
    case Refused(failure) =>
      if last.Failed? then FallBack(history, |candidates|, i, failure, last.at)
      else if last.Tried? then Then(Failed(i, failure, last.at + candidates[i].took))
      else Over(Done)
    case Nothing => Over(Raised(NotIterator))
    case Crashed => Over(Raised(Other))
    case Stream(script, close) =>
      match last
      case Tried(_, at) => Then(Got(i, at + candidates[i].took))
      case Got(_, at) => AskNext(i, 0, at, deadline, close)
      case Asked(_, n, at, due) =>
        if |script| <= n then Then(Closed(i, at + close.took)) else AfterRead(i, n, script[n], at, due, close)
      case Yielded(_, _, back) =>
        if Left(history, script) then Then(Closed(i, back + close.took))
        else if |history| < 2 || !history[|history| - 2].Asked? then Over(Done)
        else AskNext(i, history[|history| - 2].read + 1, back, deadline, close)
      case Failed(_, _, at) => Then(Closed(i, at + close.took))
      case Closed(_, at) => AfterClose(history, i, candidates[i].opening, at, |candidates|, start, limit)
  }

  /** Nothing happened yet: the first candidate is next. */
  function NextOf(candidates: seq<Candidate>, history: seq<Event>, start: int, limit: nat): Next {
    if history == [] then if candidates == [] then Over(Done) else Then(Tried(0, start))
    else if history[|history| - 1].index < |candidates| then AfterEvent(candidates, history, start, limit)
    else Over(Done)
  }

  /** Every event is the one the script asks for after those before it. */
  predicate Follows(candidates: seq<Candidate>, history: seq<Event>, start: int, limit: nat) {
    history == [] ||
    var before := history[..|history| - 1];
    Follows(candidates, before, start, limit)
    && NextOf(candidates, before, start, limit) == Then(history[|history| - 1])
  }

  // ----- The loop follows the script -----

  lemma OneMore(history: seq<Event>, event: Event, start: int)
    ensures (history + [event])[..|history|] == history && (history + [event])[|history|] == event
    ensures LastProgress(history + [event], start)
            == if event.Yielded? then event.back else LastProgress(history, start)
    ensures NoneYielded(history + [event]) <==> NoneYielded(history) && !event.Yielded?
  {
    var longer := history + [event];
    assert longer[..|history|] == history;
    if NoneYielded(longer) {
      assert !longer[|history|].Yielded?;
      forall k | 0 <= k < |history| ensures !history[k].Yielded? { assert !longer[k].Yielded?; }
    }
  }

  /** `st` has followed the script so far, and `next` is what it asks for now. */
  ghost predicate At(candidates: seq<Candidate>, st: State, next: Next, start: int, limit: nat) {
    && Follows(candidates, st.history, start, limit)
    && NextOf(candidates, st.history, start, limit) == next
    && (st.committed <==> !NoneYielded(st.history))
  }

  lemma Push(candidates: seq<Candidate>, st: State, after: State, event: Event, start: int, limit: nat)
    requires At(candidates, st, Then(event), start, limit) && event.index < |candidates|
    requires after.history == st.history + [event]
    requires after.committed <==> st.committed || event.Yielded?
    ensures At(candidates, after, AfterEvent(candidates, after.history, start, limit), start, limit)
    ensures OnTime(st, start, limit) && after.deadline == st.deadline && !event.Yielded? ==> OnTime(after, start, limit)
    ensures event.Yielded? && after.deadline == event.back + limit ==> OnTime(after, start, limit)
  {
    OneMore(st.history, event, start);
  }

  /** The stream is closed next, for the reason that reading ended. */
  ghost predicate ClosesNext(candidates: seq<Candidate>, i: nat, after: State, end: End, start: int, limit: nat)
    requires i < |candidates| && candidates[i].opening.Stream?
  {
    var stream := candidates[i].opening;
    && At(candidates, after, Then(Closed(i, after.now + stream.close.took)), start, limit)
    && after.history != []
    && WhyClosed(i, stream.script, after.history[|after.history| - 1], Left(after.history, stream.script)) == end
    && (end.Stopped? || OnTime(after, start, limit))
  }

  /** Ready to ask for read `n`. */
  ghost predicate Asks(candidates: seq<Candidate>, i: nat, n: nat, st: State, start: int, limit: nat)
    requires i < |candidates| && candidates[i].opening.Stream?
  {
    && n <= |candidates[i].opening.script|
    && At(candidates, st, AskNext(i, n, st.now, st.deadline, candidates[i].opening.close), start, limit)
    && OnTime(st, start, limit) && st.history != []
    && (st.deadline <= st.now ==>
          WhyClosed(i, candidates[i].opening.script, st.history[|st.history| - 1],
                    Left(st.history, candidates[i].opening.script)) == Stopped(NoProgress(i)))
  }

  lemma ReadFollows(candidates: seq<Candidate>, i: nat, n: nat, asked: State, start: int, limit: nat)
    requires i < |candidates| && candidates[i].opening.Stream? && n < |candidates[i].opening.script|
    requires asked.history != [] && asked.history[|asked.history| - 1] == Asked(i, n, asked.now, asked.deadline)
    requires var stream := candidates[i].opening;
             At(candidates, asked, AfterRead(i, n, stream.script[n], asked.now, asked.deadline, stream.close),
                start, limit)
    requires OnTime(asked, start, limit)
    ensures var (after, end) := ReadOnce(i, candidates[i].opening.script[n], asked, limit);
            && (end.Some? ==> ClosesNext(candidates, i, after, end.value, start, limit))
            && (end.None? ==> Asks(candidates, i, n + 1, after, start, limit))
  {
    var read := candidates[i].opening.script[n];
    if TimerFires(read, asked.now, asked.deadline) || !(read.outcome.Chunk? || read.outcome.Fails?) {
      LastReadFollows(candidates, i, n, asked, start, limit);
    } else if read.outcome.Fails? {
      ReadFailureFollows(candidates, i, n, asked, start, limit);
    } else if read.outcome.data != "" {
      ChunkFollows(candidates, i, n, asked, start, limit);
    } else {
      EmptyChunkFollows(candidates, i, n, asked, start, limit);
    }
  }

  lemma LastReadIs(i: nat, script: seq<Read>, n: nat, asked: State, limit: nat)
    requires n < |script|
    requires var read := script[n];
             TimerFires(read, asked.now, asked.deadline) || !(read.outcome.Chunk? || read.outcome.Fails?)
    ensures var (after, end) := ReadOnce(i, script[n], asked, limit);
            && after == asked.(now := asked.now + script[n].took)
            && end.Some? && end.value == WhyClosed(i, script, Asked(i, n, asked.now, asked.deadline), false)
  {
  }

  /** Only the clock moved. */
  lemma StaysAt(candidates: seq<Candidate>, st: State, now: int, next: Next, start: int, limit: nat)
    requires At(candidates, st, next, start, limit)
    ensures At(candidates, st.(now := now), next, start, limit)
    ensures OnTime(st, start, limit) ==> OnTime(st.(now := now), start, limit)
  {
  }

  lemma LastReadFollows(candidates: seq<Candidate>, i: nat, n: nat, asked: State, start: int, limit: nat)
    requires i < |candidates| && candidates[i].opening.Stream? && n < |candidates[i].opening.script|
    requires asked.history != [] && asked.history[|asked.history| - 1] == Asked(i, n, asked.now, asked.deadline)
    requires var read, close := candidates[i].opening.script[n], candidates[i].opening.close;
             && (TimerFires(read, asked.now, asked.deadline) || !(read.outcome.Chunk? || read.outcome.Fails?))
             && At(candidates, asked, Then(Closed(i, asked.now + read.took + close.took)), start, limit)
    requires OnTime(asked, start, limit)
    ensures var (after, end) := ReadOnce(i, candidates[i].opening.script[n], asked, limit);
            end.Some? && ClosesNext(candidates, i, after, end.value, start, limit)
  {
    var read := candidates[i].opening.script[n];
    LastReadIs(i, candidates[i].opening.script, n, asked, limit);
    StaysAt(candidates, asked, asked.now + read.took,
            Then(Closed(i, asked.now + read.took + candidates[i].opening.close.took)), start, limit);
  }

  lemma EmptyChunkFollows(candidates: seq<Candidate>, i: nat, n: nat, asked: State, start: int, limit: nat)
    requires i < |candidates| && candidates[i].opening.Stream? && n < |candidates[i].opening.script|
    requires asked.history != [] && asked.history[|asked.history| - 1] == Asked(i, n, asked.now, asked.deadline)
    requires var read, close := candidates[i].opening.script[n], candidates[i].opening.close;
             var back := asked.now + read.took + read.away;
             && read.outcome == Chunk("") && !TimerFires(read, asked.now, asked.deadline)
             && At(candidates, asked, if read.leaves then Then(Closed(i, back + close.took))
                                      else AskNext(i, n + 1, back, asked.deadline, close), start, limit)
    requires OnTime(asked, start, limit)
    ensures var (after, end) := ReadOnce(i, candidates[i].opening.script[n], asked, limit);
            && (end.Some? ==> ClosesNext(candidates, i, after, end.value, start, limit))
            && (end.None? ==> Asks(candidates, i, n + 1, after, start, limit))
  {
  }

  lemma ReadFailureFollows(candidates: seq<Candidate>, i: nat, n: nat, asked: State, start: int, limit: nat)
    requires i < |candidates| && candidates[i].opening.Stream? && n < |candidates[i].opening.script|
    requires var read := candidates[i].opening.script[n];
             && read.outcome.Fails? && !TimerFires(read, asked.now, asked.deadline) && OnTime(asked, start, limit)
             && At(candidates, asked, Then(Failed(i, read.outcome.failure, asked.now + read.took)), start, limit)
    ensures var (after, end) := ReadOnce(i, candidates[i].opening.script[n], asked, limit);
            end.Some? && ClosesNext(candidates, i, after, end.value, start, limit)
  {
    var read := candidates[i].opening.script[n];
    var (after, _) := ReadOnce(i, read, asked, limit);
    Push(candidates, asked, after, Failed(i, read.outcome.failure, asked.now + read.took), start, limit);
  }

  lemma ChunkFollows(candidates: seq<Candidate>, i: nat, n: nat, asked: State, start: int, limit: nat)
    requires i < |candidates| && candidates[i].opening.Stream? && n < |candidates[i].opening.script|
    requires asked.history != [] && asked.history[|asked.history| - 1] == Asked(i, n, asked.now, asked.deadline)
    requires var read := candidates[i].opening.script[n];
             && read.outcome.Chunk? && read.outcome.data != "" && !TimerFires(read, asked.now, asked.deadline)
             && At(candidates, asked, Then(Yielded(i, read.outcome.data, asked.now + read.took + read.away)),
                   start, limit)
    ensures var (after, end) := ReadOnce(i, candidates[i].opening.script[n], asked, limit);
            && (end.Some? ==> ClosesNext(candidates, i, after, end.value, start, limit))
            && (end.None? ==> Asks(candidates, i, n + 1, after, start, limit))
  {
    var read := candidates[i].opening.script[n];
    var (after, _) := ReadOnce(i, read, asked, limit);
    var event := Yielded(i, read.outcome.data, asked.now + read.took + read.away);
    OneMore(asked.history, event, start);
    Push(candidates, asked, after, event, start, limit);
  }

  lemma {:induction false} ReadingFollows(candidates: seq<Candidate>, i: nat, n: nat, st: State, start: int, limit: nat)
    requires i < |candidates| && candidates[i].opening.Stream? && n <= |candidates[i].opening.script|
    requires Asks(candidates, i, n, st, start, limit)
    ensures var (after, end) := Reading(i, n, candidates[i].opening.script[n..], st, limit);
            ClosesNext(candidates, i, after, end, start, limit)
    decreases |candidates[i].opening.script| - n
  {
    var script := candidates[i].opening.script;
    if st.now < st.deadline {
      var asked := Log(st, Asked(i, n, st.now, st.deadline));
      Push(candidates, st, asked, Asked(i, n, st.now, st.deadline), start, limit);
      if n < |script| {
        assert script[n..][0] == script[n] && script[n..][1..] == script[n + 1..];
        ReadFollows(candidates, i, n, asked, start, limit);
        var (after, end) := ReadOnce(i, script[n], asked, limit);
        if end.None? { ReadingFollows(candidates, i, n + 1, after, start, limit); }
      }
    }
  }

  /** What is next once candidate `i` is done with. */
  function AfterEnd(history: seq<Event>, count: nat, i: nat, end: End, at: int): Next {
    match end
    case Finished => Over(Done)
    case Stopped(error) => Over(Raised(error))
    case Gave(failure) => FallBack(history, count, i, failure, at)
  }

  lemma ClosingFollows(candidates: seq<Candidate>, i: nat, st: State, end: End, start: int, limit: nat)
    requires i < |candidates| && candidates[i].opening.Stream?
    requires ClosesNext(candidates, i, st, end, start, limit)
    ensures var (after, ended) := Closing(i, candidates[i].opening.close, st, end);
            && At(candidates, after, AfterEnd(after.history, |candidates|, i, ended, after.now), start, limit)
            && (ended.Gave? ==> OnTime(after, start, limit))
  {
    var (after, ended) := Closing(i, candidates[i].opening.close, st, end);
    Push(candidates, st, after, Closed(i, after.now), start, limit);
    assert after.history[..|after.history| - 1] == st.history;
  }

  lemma AttemptFollows(candidates: seq<Candidate>, i: nat, st: State, start: int, limit: nat)
    requires i < |candidates| && At(candidates, st, Then(Tried(i, st.now)), start, limit)
    requires OnTime(st, start, limit) && !st.committed
    ensures var (after, end) := Attempt(i, candidates[i], st, limit);
            && At(candidates, after, AfterEnd(after.history, |candidates|, i, end, after.now), start, limit)
            && (end.Gave? ==> OnTime(after, start, limit))
  {
    var tried := Log(st, Tried(i, st.now)).(now := st.now + candidates[i].took, committed := false);
    Push(candidates, st, tried, Tried(i, st.now), start, limit);
    match candidates[i].opening
    case Refused(failure) =>
      var failed := Log(tried, Failed(i, failure, tried.now));
      Push(candidates, tried, failed, Failed(i, failure, tried.now), start, limit);
    case Stream(script, close) =>
      var got := Log(tried, Got(i, tried.now));
      Push(candidates, tried, got, Got(i, tried.now), start, limit);
      assert script[0..] == script;
      ReadingFollows(candidates, i, 0, got, start, limit);
      var (read, end) := Reading(i, 0, script, got, limit);
      ClosingFollows(candidates, i, read, end, start, limit);
    case _ =>
  }

  lemma {:induction false} FromFollows(candidates: seq<Candidate>, i: nat, st: State, start: int, limit: nat)
    requires i < |candidates| && At(candidates, st, Then(Tried(i, st.now)), start, limit)
    requires OnTime(st, start, limit) && !st.committed
    ensures var (after, result) := From(candidates, i, st, limit);
            At(candidates, after, Over(result), start, limit)
    decreases |candidates| - i
  {
    AttemptFollows(candidates, i, st, start, limit);
    var (after, end) := Attempt(i, candidates[i], st, limit);
    if end.Gave? && !after.committed && i + 1 < |candidates| {
      FromFollows(candidates, i + 1, after, start, limit);
    }
  }

  /** For any candidates, streams, consumer and clock, the loop does what the script asks for: each event of the
      history is the one that those before it call for, and the outcome is the one that the whole history calls for. */
  lemma BodyFollowsTheScript(candidates: seq<Candidate>, start: int, limit: nat)
    ensures var (st, result) := Run(candidates, start, limit);
            Follows(candidates, st.history, start, limit)
            && NextOf(candidates, st.history, start, limit) == Over(result)
  {
    if candidates != [] {
      FromFollows(candidates, 0, State([], start, start + limit, false), start, limit);
    }
  }

  lemma {:induction false} FollowsAt(candidates: seq<Candidate>, history: seq<Event>, k: nat, start: int, limit: nat)
    requires Follows(candidates, history, start, limit) && k < |history|
    ensures NextOf(candidates, history[..k], start, limit) == Then(history[k])
    decreases |history|
  {
    if k < |history| - 1 {
      FollowsAt(candidates, history[..|history| - 1], k, start, limit);
      assert history[..|history| - 1][..k] == history[..k];
    }
  }

  /** The script of the stream that an event is about, once it was asked. */
  predicate ReadOf(candidates: seq<Candidate>, event: Event, read: Read) {
    && event.Asked? && event.index < |candidates| && candidates[event.index].opening.Stream?
    && event.read < |candidates[event.index].opening.script|
    && read == candidates[event.index].opening.script[event.read]
  }

  /** A read that outlives the deadline ends the run: whatever it came back with, the stream is closed, no other
      candidate is tried, and the deadline error is raised unless closing was cancelled. */
  lemma ExpiredReadEndsTheRun(candidates: seq<Candidate>, start: int, limit: nat, k: nat, read: Read)
    requires var history := Run(candidates, start, limit).0.history;
             k < |history| && ReadOf(candidates, history[k], read)
             && TimerFires(read, history[k].at, history[k].deadline) && !read.outcome.Ends? && !read.outcome.Breaks?
    ensures var (st, result) := Run(candidates, start, limit);
            var i := st.history[k].index;
            && |st.history| == k + 2 && st.history[k + 1].Closed?
            && result == Raised(if candidates[i].opening.close.cancelled then Other else NoProgress(i))
  {
    var (st, result) := Run(candidates, start, limit);
    BodyFollowsTheScript(candidates, start, limit);
    ClosedAfter(candidates, st.history, result, start, limit, k);
  }

  /** An event after which the stream is closed for an error ends the history with that. */
  lemma ClosedAfter(candidates: seq<Candidate>, history: seq<Event>, result: Result, start: int, limit: nat, k: nat)
    requires Follows(candidates, history, start, limit) && NextOf(candidates, history, start, limit) == Over(result)
    requires k < |history| && history[k].index < |candidates| && candidates[history[k].index].opening.Stream?
    requires var i, stream := history[k].index, candidates[history[k].index].opening;
             && WhyClosed(i, stream.script, history[k], Left(history[..k + 1], stream.script)).Stopped?
             && exists at :: NextOf(candidates, history[..k + 1], start, limit) == Then(Closed(i, at))
    ensures var i, stream := history[k].index, candidates[history[k].index].opening;
            && |history| == k + 2 && history[k + 1].Closed? && history[k + 1].index == i
            && var why := WhyClosed(i, stream.script, history[k], Left(history[..k + 1], stream.script));
               result == Raised(if stream.close.cancelled then Other else why.error)
  {
    FollowsAt(candidates, history, k + 1, start, limit);
    var until := history[..k + 2];
    assert until[..k + 1] == history[..k + 1];
    ClosedThenOver(candidates, until, start, limit);
    if k + 2 < |history| {
      FollowsAt(candidates, history, k + 2, start, limit);
    } else {
      assert until == history;
    }
  }

  lemma ClosedThenOver(candidates: seq<Candidate>, history: seq<Event>, start: int, limit: nat)
    requires 2 <= |history| && history[|history| - 1].Closed?
    requires history[|history| - 1].index < |candidates| && candidates[history[|history| - 1].index].opening.Stream?
    requires var i, before := history[|history| - 1].index, history[..|history| - 1];
             var script := candidates[i].opening.script;
             WhyClosed(i, script, before[|before| - 1], Left(before, script)).Stopped?
    ensures var i, before := history[|history| - 1].index, history[..|history| - 1];
            var stream := candidates[i].opening;
            var why := WhyClosed(i, stream.script, before[|before| - 1], Left(before, stream.script));
            NextOf(candidates, history, start, limit)
            == Over(Raised(if stream.close.cancelled then Other else why.error))
  {
  }

  /** A failure before any output is always answered by the next candidate, if there is one, once the failed stream
      is closed. */
  lemma SilentFailureFallsBack(candidates: seq<Candidate>, start: int, limit: nat, k: nat)
    requires var history := Run(candidates, start, limit).0.history;
             && k < |history| && history[k].Failed? && NoneYielded(history[..k])
             && history[k].index + 1 < |candidates|
             && var opening := candidates[history[k].index].opening; opening.Stream? ==> !opening.close.cancelled
    ensures var history := Run(candidates, start, limit).0.history;
            var j := if candidates[history[k].index].opening.Stream? then k + 2 else k + 1;
            j < |history| && history[j].Tried? && history[j].index == history[k].index + 1
  {
    var (st, result) := Run(candidates, start, limit);
    var history := st.history;
    BodyFollowsTheScript(candidates, start, limit);
    FollowsAt(candidates, history, k, start, limit);
    assert history[..k + 1] == history[..k] + [history[k]];
    OneMore(history[..k], history[k], start);
    FailureIsFollowed(candidates, history, result, start, limit, k);
  }

  lemma FailureIsFollowed(candidates: seq<Candidate>, history: seq<Event>, result: Result, start: int, limit: nat,
                          k: nat)
    requires Follows(candidates, history, start, limit) && NextOf(candidates, history, start, limit) == Over(result)
    requires k < |history| && history[k].Failed? && NoneYielded(history[..k + 1])
    requires history[k].index + 1 < |candidates|
    requires NextOf(candidates, history[..k], start, limit) == Then(history[k])
    requires var opening := candidates[history[k].index].opening; opening.Stream? ==> !opening.close.cancelled
    ensures var j := if candidates[history[k].index].opening.Stream? then k + 2 else k + 1;
            j < |history| && history[j].Tried? && history[j].index == history[k].index + 1
  {
    var failed := history[..k + 1];
    OnlyTheseFail(candidates, history[..k], history[k], start, limit);
    NextAfterFailure(candidates, failed, start, limit);
    FollowsAt(candidates, history, k + 1, start, limit);
    if candidates[history[k].index].opening.Stream? {
      var closed := history[..k + 2];
      assert closed[..k + 1] == failed;
      ClosedThenFollowed(candidates, closed, start, limit);
      FollowsAt(candidates, history, k + 2, start, limit);
    }
  }

  lemma OnlyTheseFail(candidates: seq<Candidate>, before: seq<Event>, event: Event, start: int, limit: nat)
    requires NextOf(candidates, before, start, limit) == Then(event) && event.Failed?
    ensures event.index < |candidates|
    ensures candidates[event.index].opening.Stream? || candidates[event.index].opening.Refused?
  {
  }

  lemma NextAfterFailure(candidates: seq<Candidate>, history: seq<Event>, start: int, limit: nat)
    requires history != [] && history[|history| - 1].Failed? && NoneYielded(history)
    requires var i := history[|history| - 1].index;
             i + 1 < |candidates| && (candidates[i].opening.Stream? || candidates[i].opening.Refused?)
    ensures var i, at := history[|history| - 1].index, history[|history| - 1].at;
            NextOf(candidates, history, start, limit)
            == Then(if candidates[i].opening.Stream? then Closed(i, at + candidates[i].opening.close.took)
                    else Tried(i + 1, at))
  {
  }

  lemma ClosedThenFollowed(candidates: seq<Candidate>, history: seq<Event>, start: int, limit: nat)
    requires 2 <= |history| && history[|history| - 2].Failed? && history[|history| - 1].Closed?
    requires history[|history| - 2].index == history[|history| - 1].index && NoneYielded(history[..|history| - 1])
    requires var i := history[|history| - 1].index;
             && i + 1 < |candidates| && candidates[i].opening.Stream? && !candidates[i].opening.close.cancelled
    ensures var i, at := history[|history| - 1].index, history[|history| - 1].at;
            NextOf(candidates, history, start, limit) == Then(Tried(i + 1, at))
  {
    var before := history[..|history| - 1];
    assert history == before + [history[|history| - 1]];
    OneMore(before, history[|history| - 1], start);
  }
}
