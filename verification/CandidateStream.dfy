/** The candidate fallback loop of application/execution.py (`provider_body`).

    Providers, the consumer and the clock are a script: what each read and close does, how long it takes, and
    whether the timer fired before it came back. The run is the history of what the loop did. */
module CandidateStream {
  import opened Options

  datatype Failure = Failure(id: nat)

  datatype Error =
    | NoProgress(candidate: nat)   // the 504 made when the progress deadline passes
    | Provider(failure: Failure)   // an ExecutionFailure handed on
    | NotIterator
    | Other                        // any other exception, cancellation and a consumer that leaves included

  datatype Outcome =
    | Chunk(data: string)
    | Fails(failure: Failure)
    | Ends
    | TimesOut                     // TimeoutError: the stream's own, or a cancelled read's
    | Breaks

  /** One `anext`: `late` says the timer got to run if the deadline passed meanwhile; `away` is the time until
      the loop runs again, and `leaves` that it never does. */
  datatype Read = Read(took: nat, late: bool, outcome: Outcome, away: nat, leaves: bool)

  /** `aclose`: ordinary errors are swallowed, a cancellation is not. */
  datatype Close = Close(took: nat, late: bool, cancelled: bool)

  datatype Opening = Stream(script: seq<Read>, close: Close) | Refused(failure: Failure) | Nothing | Crashed

  datatype Candidate = Candidate(took: nat, opening: Opening)

  datatype Event =
    | Tried(index: nat, at: int)
    | Got(index: nat, at: int)
    | Asked(index: nat, read: nat, at: int, deadline: int)
    | Yielded(index: nat, data: string, back: int)
    | Failed(index: nat, failure: Failure, at: int)
    | Closed(index: nat, at: int)

  datatype State = State(history: seq<Event>, now: int, deadline: int, committed: bool)

  /** How the inner `try` of one candidate ends. */
  datatype End = Finished | Gave(failure: Failure) | Stopped(error: Error)

  datatype Result = Done | Raised(error: Error)

  // ----- What the loop does -----

  function Expired(read: Read, st: State): bool {
    read.late && st.deadline <= st.now + read.took
  }

  function Log(st: State, event: Event): State {
    st.(history := st.history + [event])
  }

  /** One `anext` that has been started: where it leaves the loop, and whether it ends it. */
  function ReadOnce(i: nat, read: Read, asked: State, limit: nat): (State, Option<End>) {
    var later := asked.(now := asked.now + read.took);
    var back := later.now + read.away;
    match read.outcome
    case Ends => (later, Some(Finished))
    case Breaks => (later, Some(Stopped(Other)))
    case TimesOut => (later, Some(Stopped(if Expired(read, asked) then NoProgress(i) else Other)))
    case Fails(failure) =>
      if Expired(read, asked) then (later, Some(Stopped(NoProgress(i))))
      else (Log(later, Failed(i, failure, later.now)), Some(Gave(failure)))
    case Chunk(data) =>
      if Expired(read, asked) then (later, Some(Stopped(NoProgress(i))))
      else
        var shown := if data == "" then later.(now := back)
                     else Log(State(later.history, back, if read.leaves then later.deadline else back + limit, true),
                              Yielded(i, data, back));
        (shown, if read.leaves then Some(Stopped(Other)) else None)
  }

  /** The reads of a stream, `n` of which are behind. */
  function Reading(i: nat, n: nat, script: seq<Read>, st: State, limit: nat): (State, End)
    decreases |script|
  {
    if st.deadline <= st.now then (st, Stopped(NoProgress(i)))
    else
      var asked := Log(st, Asked(i, n, st.now, st.deadline));
      if script == [] then (asked, Finished)
      else
        var (after, end) := ReadOnce(i, script[0], asked, limit);
        if end.Some? then (after, end.value) else Reading(i, n + 1, script[1..], after, limit)
  }

  /** The `finally`: clean-up runs against the deadline only when no error is on its way. */
  function Closing(i: nat, close: Close, st: State, end: End): (State, End) {
    var closed := Log(st.(now := st.now + close.took), Closed(i, st.now + close.took));
    var expired := !end.Stopped? && close.late && st.deadline <= closed.now;
    (closed, if close.cancelled then Stopped(if expired then NoProgress(i) else Other) else end)
  }

  function Attempt(i: nat, candidate: Candidate, st: State, limit: nat): (State, End) {
    var tried := Log(st, Tried(i, st.now)).(now := st.now + candidate.took, committed := false);
    match candidate.opening
    case Refused(failure) => (Log(tried, Failed(i, failure, tried.now)), Gave(failure))
    case Nothing => (tried, Stopped(NotIterator))
    case Crashed => (tried, Stopped(Other))
    case Stream(script, close) =>
      var (read, end) := Reading(i, 0, script, Log(tried, Got(i, tried.now)), limit);
      Closing(i, close, read, end)
  }

  function From(candidates: seq<Candidate>, i: nat, st: State, limit: nat): (State, Result)
    requires i <= |candidates|
    decreases |candidates| - i
  {
    if i == |candidates| then (st, Done)
    else
      var (after, end) := Attempt(i, candidates[i], st, limit);
      match end
      case Finished => (after, Done)
      case Stopped(error) => (after, Raised(error))
      case Gave(failure) =>
        if after.committed || i + 1 >= |candidates| then (after, Raised(Provider(failure)))
        else From(candidates, i + 1, after, limit)
  }

  function Run(candidates: seq<Candidate>, start: int, limit: nat): (State, Result) {
    From(candidates, 0, State([], start, start + limit, false), limit)
  }

  /** The generator body, one candidate after another. */
  method ProviderBody(candidates: seq<Candidate>, start: int, limit: nat) returns (st: State, result: Result)
    ensures (st, result) == Run(candidates, start, limit)
  {
    st := State([], start, start + limit, false);
    var index := 0;
    while index < |candidates|
      invariant index <= |candidates|
      invariant From(candidates, index, st, limit) == Run(candidates, start, limit)
    {
      var end;
      st, end := TryCandidate(index, candidates[index], st, limit);
      match end {
        case Finished => return st, Done;
        case Stopped(error) => return st, Raised(error);
        case Gave(failure) =>
          if st.committed || index + 1 >= |candidates| {
            return st, Raised(Provider(failure));
          }
      }
      index := index + 1;
    }
    result := Done;
  }

  method TryCandidate(index: nat, candidate: Candidate, before: State, limit: nat) returns (st: State, end: End)
    ensures (st, end) == Attempt(index, candidate, before, limit)
  {
    var history := before.history + [Tried(index, before.now)];
    st := State(history, before.now + candidate.took, before.deadline, false);
    match candidate.opening {
      case Refused(failure) => return st.(history := history + [Failed(index, failure, st.now)]), Gave(failure);
      case Nothing => return st, Stopped(NotIterator);
      case Crashed => return st, Stopped(Other);
      case Stream(script, close) =>
        st, end := ReadStream(index, script, st.(history := history + [Got(index, st.now)]), limit);
        var expired := !end.Stopped? && close.late && st.deadline <= st.now + close.took;
        st := st.(now := st.now + close.took, history := st.history + [Closed(index, st.now + close.took)]);
        if close.cancelled { end := Stopped(if expired then NoProgress(index) else Other); }
    }
  }

  /** The inner `while`. */
  method ReadStream(index: nat, script: seq<Read>, before: State, limit: nat) returns (st: State, end: End)
    ensures (st, end) == Reading(index, 0, script, before, limit)
  {
    var history, now, deadline, committed := before.history, before.now, before.deadline, before.committed;
    end := Finished;
    var next := 0;
    while true
      invariant next <= |script|
      invariant Reading(index, next, script[next..], State(history, now, deadline, committed), limit) ==
                Reading(index, 0, script, before, limit)
      invariant end == Finished
      decreases |script| - next
    {
      if now >= deadline {
        end := Stopped(NoProgress(index));
        break;
      }
      history := history + [Asked(index, next, now, deadline)];
      if next == |script| { break; }
      var read := script[next];
      next := next + 1;
      assert script[next - 1..][1..] == script[next..];
      now := now + read.took;
      var expired := read.late && deadline <= now;
      if read.outcome.Ends? { break; }
      if read.outcome.Breaks? { end := Stopped(Other); break; }
      if read.outcome.TimesOut? && !expired { end := Stopped(Other); break; }
      if expired { end := Stopped(NoProgress(index)); break; }
      if read.outcome.Fails? {
        history := history + [Failed(index, read.outcome.failure, now)];
        end := Gave(read.outcome.failure);
        break;
      }
      now := now + read.away;
      if read.outcome.data != "" {
        committed := true;
        history := history + [Yielded(index, read.outcome.data, now)];
        if !read.leaves { deadline := now + limit; }
      }
      if read.leaves { end := Stopped(Other); break; }
    }
    st := State(history, now, deadline, committed);
  }

  // ----- What every history is like -----

  /** The stream that is open, if any. */
  function Open(history: seq<Event>): Option<nat> {
    if history == [] then None
    else
      var last := history[|history| - 1];
      if last.Got? then Some(last.index) else if last.Closed? then None else Open(history[..|history| - 1])
  }

  /** When the consumer last came back for more: the start, or the return from the last chunk. */
  function LastProgress(history: seq<Event>, start: int): int {
    if history == [] then start
    else
      var last := history[|history| - 1];
      if last.Yielded? then last.back else LastProgress(history[..|history| - 1], start)
  }

  predicate NoneYielded(history: seq<Event>) {
    forall k :: 0 <= k < |history| ==> !history[k].Yielded?
  }

  predicate YieldsFrom(history: seq<Event>, i: nat) {
    forall k :: 0 <= k < |history| && history[k].Yielded? ==> history[k].index == i
  }

  predicate HasFailed(history: seq<Event>, i: nat) {
    exists k :: 0 <= k < |history| && history[k].Failed? && history[k].index == i
  }

  predicate UpTo(history: seq<Event>, n: nat) {
    forall k :: 0 <= k < |history| ==> history[k].index < n
  }

  predicate AllFailed(history: seq<Event>, n: nat) {
    n == 0 || (AllFailed(history, n - 1) && HasFailed(history, n - 1))
  }

  /** What may happen after `before`. */
  predicate EventOk(before: seq<Event>, event: Event, start: int, limit: nat) {
    match event
    case Tried(i, at) => AllFailed(before, i) && NoneYielded(before) && Open(before).None? && !HasFailed(before, i)
    case Got(i, _) =>
      Open(before).None? && before != [] && before[|before| - 1].Tried? && before[|before| - 1].index == i
    case Asked(i, _, at, deadline) =>
      Open(before) == Some(i) && at < deadline == LastProgress(before, start) + limit && !HasFailed(before, i)
    case Yielded(i, data, back) =>
      && data != ""
      && Open(before) == Some(i)
      && YieldsFrom(before, i)
      && AllFailed(before, i)
      && !HasFailed(before, i)
      && before != [] && before[|before| - 1].Asked?
    case Failed(i, failure, _) =>
      !HasFailed(before, i) && before != [] && before[|before| - 1].index == i &&
      if Open(before).Some? then before[|before| - 1].Asked? else before[|before| - 1].Tried?
    case Closed(i, _) => Open(before) == Some(i)
  }

  predicate HistoryOk(history: seq<Event>, start: int, limit: nat) {
    history == [] ||
    var before := history[..|history| - 1];
    HistoryOk(before, start, limit) && EventOk(before, history[|history| - 1], start, limit)
  }

  lemma {:induction false} EventAt(history: seq<Event>, k: nat, start: int, limit: nat)
    requires HistoryOk(history, start, limit) && k < |history|
    ensures EventOk(history[..k], history[k], start, limit)
  {
    if k < |history| - 1 {
      EventAt(history[..|history| - 1], k, start, limit);
      assert history[..|history| - 1][..k] == history[..k];
    }
  }

  function Told(history: seq<Event>): Option<Failure> {
    if history == [] then None
    else
      var last := history[|history| - 1];
      if last.Failed? then Some(last.failure) else Told(history[..|history| - 1])
  }

  ghost predicate Common(st: State, i: nat, start: int, limit: nat) {
    && HistoryOk(st.history, start, limit)
    && AllFailed(st.history, i)
    && UpTo(st.history, i + 1)
    && YieldsFrom(st.history, i)
    && (st.committed <==> !NoneYielded(st.history))
  }

  predicate OnTime(st: State, start: int, limit: nat) {
    st.deadline == LastProgress(st.history, start) + limit
  }

  ghost predicate Streaming(st: State, i: nat, start: int, limit: nat) {
    Common(st, i, start, limit) && OnTime(st, start, limit) && Open(st.history) == Some(i) && !HasFailed(st.history, i)
  }

  /** How reading, or a whole attempt, may leave things. */
  ghost predicate Ended(st: State, end: End, i: nat, start: int, limit: nat) {
    && Common(st, i, start, limit)
    && match end
       case Finished => !HasFailed(st.history, i) && OnTime(st, start, limit)
       case Gave(failure) => HasFailed(st.history, i) && Told(st.history) == Some(failure) && OnTime(st, start, limit)
       case Stopped(NoProgress(j)) => j == i && st.deadline <= st.now && OnTime(st, start, limit)
       case Stopped(NotIterator) => !HasFailed(st.history, i)
       case Stopped(Other) => true
       case Stopped(Provider(failure)) => false
  }

  /** A new event about candidate `i` leaves what the older ones said. */
  lemma Grow(st: State, event: Event, i: nat, start: int, limit: nat)
    requires Common(st, i, start, limit) && EventOk(st.history, event, start, limit) && event.index == i
    ensures var longer := Log(st, event);
            && Common(longer.(committed := st.committed || event.Yielded?), i, start, limit)
            && (HasFailed(longer.history, i) <==> HasFailed(st.history, i) || event.Failed?)
            && Open(longer.history) ==
                 (if event.Got? then Some(i) else if event.Closed? then None else Open(st.history))
            && LastProgress(longer.history, start) ==
                 (if event.Yielded? then event.back else LastProgress(st.history, start))
            && Told(longer.history) == (if event.Failed? then Some(event.failure) else Told(st.history))
  {
    var longer := st.history + [event];
    assert longer[..|st.history|] == st.history;
    assert forall k :: 0 <= k < |st.history| ==> longer[k] == st.history[k];
    assert longer[|st.history|] == event;
    StillFailed(st.history, event, i);
    YieldsGrow(st.history, event, i);
    if HasFailed(st.history, i) { FailedGrows(st.history, event, i); }
  }

  lemma YieldsGrow(history: seq<Event>, event: Event, i: nat)
    requires YieldsFrom(history, i) && event.index == i
    ensures YieldsFrom(history + [event], i)
    ensures NoneYielded(history + [event]) <==> NoneYielded(history) && !event.Yielded?
  {
    var longer := history + [event];
    if NoneYielded(longer) {
      assert !longer[|history|].Yielded?;
      forall k | 0 <= k < |history| ensures !history[k].Yielded? { assert !longer[k].Yielded?; }
    }
  }

  lemma FailedGrows(history: seq<Event>, event: Event, i: nat)
    requires HasFailed(history, i)
    ensures HasFailed(history + [event], i)
  {
    var k :| 0 <= k < |history| && history[k].Failed? && history[k].index == i;
    assert (history + [event])[k].Failed?;
  }

  lemma {:induction false} StillFailed(history: seq<Event>, event: Event, n: nat)
    requires AllFailed(history, n)
    ensures AllFailed(history + [event], n)
  {
    if n > 0 {
      StillFailed(history, event, n - 1);
      FailedGrows(history, event, n - 1);
    }
  }

  lemma AskedKeeps(i: nat, n: nat, st: State, start: int, limit: nat)
    requires Streaming(st, i, start, limit) && st.now < st.deadline
    ensures Streaming(Log(st, Asked(i, n, st.now, st.deadline)), i, start, limit)
  {
    Grow(st, Asked(i, n, st.now, st.deadline), i, start, limit);
  }

  predicate JustAsked(history: seq<Event>, i: nat) {
    history != [] && history[|history| - 1].Asked? && history[|history| - 1].index == i
  }

  lemma ReadKeeps(i: nat, read: Read, asked: State, start: int, limit: nat)
    requires Streaming(asked, i, start, limit) && JustAsked(asked.history, i)
    ensures var (after, end) := ReadOnce(i, read, asked, limit);
            && Open(after.history) == Some(i)
            && (end.None? ==> Streaming(after, i, start, limit))
            && (end.Some? ==> Ended(after, end.value, i, start, limit) && end.value != Stopped(NotIterator))
  {
    if !Expired(read, asked) && read.outcome.Fails? {
      ReadFailureKeeps(i, read, asked, start, limit);
    } else if !Expired(read, asked) && read.outcome.Chunk? {
      ChunkKeeps(i, read, asked, start, limit);
    }
  }

  lemma ReadFailureKeeps(i: nat, read: Read, asked: State, start: int, limit: nat)
    requires read.outcome.Fails? && !Expired(read, asked)
    requires Streaming(asked, i, start, limit) && JustAsked(asked.history, i)
    ensures var (after, end) := ReadOnce(i, read, asked, limit);
            && Open(after.history) == Some(i)
            && (end.None? ==> Streaming(after, i, start, limit))
            && (end.Some? ==> Ended(after, end.value, i, start, limit) && end.value != Stopped(NotIterator))
  {
    Grow(asked.(now := asked.now + read.took), Failed(i, read.outcome.failure, asked.now + read.took), i, start, limit);
  }

  lemma ChunkKeeps(i: nat, read: Read, asked: State, start: int, limit: nat)
    requires read.outcome.Chunk? && !Expired(read, asked)
    requires Streaming(asked, i, start, limit) && JustAsked(asked.history, i)
    ensures var (after, end) := ReadOnce(i, read, asked, limit);
            && Open(after.history) == Some(i)
            && (end.None? ==> Streaming(after, i, start, limit))
            && (end.Some? ==> Ended(after, end.value, i, start, limit) && end.value != Stopped(NotIterator))
  {
    if read.outcome.data != "" { ShownKeeps(i, read, asked, start, limit); }
  }

  lemma ShownKeeps(i: nat, read: Read, asked: State, start: int, limit: nat)
    requires read.outcome.Chunk? && !Expired(read, asked) && read.outcome.data != ""
    requires Streaming(asked, i, start, limit) && JustAsked(asked.history, i)
    ensures var (after, end) := ReadOnce(i, read, asked, limit);
            && Open(after.history) == Some(i) && Common(after, i, start, limit)
            && (end.None? ==> Streaming(after, i, start, limit))
            && (end.Some? ==> end.value == Stopped(Other))
  {
    var back := asked.now + read.took + read.away;
    var deadline := if read.leaves then asked.deadline else back + limit;
    Grow(State(asked.history, back, deadline, asked.committed), Yielded(i, read.outcome.data, back), i, start, limit);
  }

  lemma {:induction false} ReadingEnds(i: nat, n: nat, script: seq<Read>, st: State, start: int, limit: nat)
    requires Streaming(st, i, start, limit)
    ensures var (after, end) := Reading(i, n, script, st, limit);
            Ended(after, end, i, start, limit) && Open(after.history) == Some(i) && end != Stopped(NotIterator)
    decreases |script|
  {
    if st.now < st.deadline {
      var asked := Log(st, Asked(i, n, st.now, st.deadline));
      AskedKeeps(i, n, st, start, limit);
      if script != [] {
        ReadKeeps(i, script[0], asked, start, limit);
        var (after, end) := ReadOnce(i, script[0], asked, limit);
        if end.None? { ReadingEnds(i, n + 1, script[1..], after, start, limit); }
      }
    }
  }

  lemma TriedKeeps(i: nat, st: State, took: nat, start: int, limit: nat)
    requires Waiting(st, i, start, limit)
    ensures var tried := Log(st, Tried(i, st.now)).(now := st.now + took, committed := false);
            && Common(tried, i, start, limit)
            && OnTime(tried, start, limit)
            && Open(tried.history).None?
            && !HasFailed(tried.history, i)
  {
    Grow(st.(committed := false), Tried(i, st.now), i, start, limit);
  }

  lemma RefusalKeeps(i: nat, failure: Failure, tried: State, start: int, limit: nat)
    requires Common(tried, i, start, limit) && OnTime(tried, start, limit) && Open(tried.history).None?
    requires !HasFailed(tried.history, i)
    requires tried.history != [] && var last := tried.history[|tried.history| - 1]; last.Tried? && last.index == i
    ensures var after := Log(tried, Failed(i, failure, tried.now));
            Ended(after, Gave(failure), i, start, limit) && Open(after.history).None?
  {
    Grow(tried, Failed(i, failure, tried.now), i, start, limit);
  }

  lemma GotKeeps(i: nat, tried: State, start: int, limit: nat)
    requires Common(tried, i, start, limit) && OnTime(tried, start, limit) && Open(tried.history).None?
    requires !HasFailed(tried.history, i)
    requires tried.history != [] && var last := tried.history[|tried.history| - 1]; last.Tried? && last.index == i
    ensures Streaming(Log(tried, Got(i, tried.now)), i, start, limit)
  {
    Grow(tried, Got(i, tried.now), i, start, limit);
  }

  lemma CloseKeeps(i: nat, close: Close, st: State, end: End, start: int, limit: nat)
    requires Ended(st, end, i, start, limit) && Open(st.history) == Some(i)
    ensures var (after, ended) := Closing(i, close, st, end);
            Ended(after, ended, i, start, limit) && Open(after.history).None?
  {
    Grow(st, Closed(i, st.now + close.took), i, start, limit);
  }

  /** Between candidates: everything before `i` failed, nothing was shown, nothing is open. */
  ghost predicate Waiting(st: State, i: nat, start: int, limit: nat) {
    && HistoryOk(st.history, start, limit) && AllFailed(st.history, i) && NoneYielded(st.history)
    && UpTo(st.history, i) && Open(st.history).None? && OnTime(st, start, limit)
  }

  lemma AttemptEnds(i: nat, candidate: Candidate, st: State, start: int, limit: nat)
    requires Waiting(st, i, start, limit)
    ensures var (after, end) := Attempt(i, candidate, st, limit);
            Ended(after, end, i, start, limit) && Open(after.history).None?
  {
    TriedKeeps(i, st, candidate.took, start, limit);
    var tried := Log(st, Tried(i, st.now)).(now := st.now + candidate.took, committed := false);
    if candidate.opening.Stream? {
      StreamAttemptEnds(i, candidate, st, start, limit);
    } else if candidate.opening.Refused? {
      RefusalKeeps(i, candidate.opening.failure, tried, start, limit);
    }
  }

  lemma StreamAttemptEnds(i: nat, candidate: Candidate, st: State, start: int, limit: nat)
    requires candidate.opening.Stream?
    requires var tried := Log(st, Tried(i, st.now)).(now := st.now + candidate.took, committed := false);
             Common(tried, i, start, limit) && OnTime(tried, start, limit) && Open(tried.history).None?
             && !HasFailed(tried.history, i)
    ensures var (after, end) := Attempt(i, candidate, st, limit);
            Ended(after, end, i, start, limit) && Open(after.history).None?
  {
    var tried := Log(st, Tried(i, st.now)).(now := st.now + candidate.took, committed := false);
    GotKeeps(i, tried, start, limit);
    StreamEnds(i, candidate.opening.script, candidate.opening.close, Log(tried, Got(i, tried.now)), start, limit);
  }

  lemma StreamEnds(i: nat, script: seq<Read>, close: Close, st: State, start: int, limit: nat)
    requires Streaming(st, i, start, limit)
    ensures var (read, stop) := Reading(i, 0, script, st, limit);
            var (after, end) := Closing(i, close, read, stop);
            Ended(after, end, i, start, limit) && Open(after.history).None?
  {
    ReadingEnds(i, 0, script, st, start, limit);
    var (read, stop) := Reading(i, 0, script, st, limit);
    CloseKeeps(i, close, read, stop, start, limit);
  }

  // ----- The whole body -----

  /** What the outcome says about the history it ends. */
  ghost predicate ResultOk(st: State, result: Result, n: nat, start: int, limit: nat) {
    match result
    case Done => n == 0 || exists i: nat :: i < n && AllFailed(st.history, i) && !HasFailed(st.history, i)
    case Raised(Provider(failure)) =>
      Told(st.history) == Some(failure) && (AllFailed(st.history, n) || !NoneYielded(st.history))
    case Raised(NoProgress(i)) => LastProgress(st.history, start) + limit <= st.now
    case Raised(NotIterator) => !AllFailed(st.history, n)
    case Raised(Other) => true
  }

  lemma {:induction false} FromKeeps(candidates: seq<Candidate>, i: nat, st: State, start: int, limit: nat)
    requires i < |candidates| && Waiting(st, i, start, limit)
    ensures var (after, result) := From(candidates, i, st, limit);
            && HistoryOk(after.history, start, limit)
            && Open(after.history).None?
            && (exists j: nat :: i <= j < |candidates| && YieldsFrom(after.history, j))
            && ResultOk(after, result, |candidates|, start, limit)
    decreases |candidates| - i
  {
    AttemptEnds(i, candidates[i], st, start, limit);
    var (after, end) := Attempt(i, candidates[i], st, limit);
    if end.Gave? {
      MoreFailed(after.history, i);
      if !after.committed && i + 1 < |candidates| {
        FromKeeps(candidates, i + 1, after, start, limit);
      }
    }
  }

  lemma {:induction false} FailedEach(history: seq<Event>, n: nat, i: nat)
    requires AllFailed(history, n) && i < n
    ensures HasFailed(history, i)
  {
    if i < n - 1 { FailedEach(history, n - 1, i); }
  }

  lemma MoreFailed(history: seq<Event>, i: nat)
    requires AllFailed(history, i) && HasFailed(history, i)
    ensures AllFailed(history, i + 1)
  {
  }

  /** For any candidates, streams, consumer and clock, the body keeps to the rules of `EventOk`: a candidate is
      tried once all earlier ones have failed and before any output; every read starts ahead of a deadline that
      counts from the last output; every chunk comes from the one open stream. */
  lemma BodyKeepsTheRules(candidates: seq<Candidate>, start: int, limit: nat)
    ensures var (st, result) := Run(candidates, start, limit);
            && HistoryOk(st.history, start, limit)
            && Open(st.history).None?
            && ResultOk(st, result, |candidates|, start, limit)
  {
    if candidates != [] {
      FromKeeps(candidates, 0, State([], start, start + limit, false), start, limit);
    }
  }

  /** No mixing: all output is from one candidate, and every candidate before it failed before it was opened. */
  lemma OneCandidateSpeaks(candidates: seq<Candidate>, start: int, limit: nat, k: nat, l: nat)
    requires var history := Run(candidates, start, limit).0.history;
             k <= l < |history| && history[k].Yielded? && history[l].Yielded?
    ensures var history := Run(candidates, start, limit).0.history;
            && history[k].index == history[l].index
            && AllFailed(history[..k], history[k].index)
            && history[k].data != ""
            && !HasFailed(history[..l], history[k].index)
  {
    BodyKeepsTheRules(candidates, start, limit);
    var history := Run(candidates, start, limit).0.history;
    EventAt(history, l, start, limit);
    EventAt(history, k, start, limit);
    if k < l { assert history[..l][k] == history[k]; }
  }

  /** Falling back is for failures ahead of any output: when a candidate is tried, all before it have failed,
      nothing has been shown, and every opened stream is closed again. */
  lemma FallbackOnlyAfterSilentFailures(candidates: seq<Candidate>, start: int, limit: nat, k: nat)
    requires var history := Run(candidates, start, limit).0.history; k < |history| && history[k].Tried?
    ensures var history := Run(candidates, start, limit).0.history;
            && AllFailed(history[..k], history[k].index)
            && NoneYielded(history[..k])
            && Open(history[..k]).None?
  {
    BodyKeepsTheRules(candidates, start, limit);
    var history := Run(candidates, start, limit).0.history;
    EventAt(history, k, start, limit);
  }

  /** Only output moves the deadline: each read, of whatever candidate, starts before the last output's return
      plus the limit. Empty chunks and fallbacks buy no time, and nothing is read once it has passed. */
  lemma ReadsKeepTheDeadline(candidates: seq<Candidate>, start: int, limit: nat, k: nat)
    requires var history := Run(candidates, start, limit).0.history; k < |history| && history[k].Asked?
    ensures var history := Run(candidates, start, limit).0.history;
            history[k].at < history[k].deadline == LastProgress(history[..k], start) + limit
  {
    BodyKeepsTheRules(candidates, start, limit);
    var history := Run(candidates, start, limit).0.history;
    EventAt(history, k, start, limit);
  }

  /** The error names what happened: a provider's failure is the last one told, and is raised only when no
      candidate is left or output was shown; the deadline error only after that long without output. When every
      candidate failed, nothing else can be raised but the deadline error or a foreign exception. */
  lemma TheErrorTellsTheStory(candidates: seq<Candidate>, start: int, limit: nat)
    requires candidates != []
    ensures var (st, result) := Run(candidates, start, limit);
            && (result.Raised? && result.error.Provider? ==>
                  Told(st.history) == Some(result.error.failure) &&
                  (AllFailed(st.history, |candidates|) || !NoneYielded(st.history)))
            && (result.Raised? && result.error.NoProgress? ==> LastProgress(st.history, start) + limit <= st.now)
            && (AllFailed(st.history, |candidates|) ==>
                  result.Raised? &&
                  (!result.error.NoProgress? && !result.error.Other? ==>
                     Told(st.history).Some? && result.error == Provider(Told(st.history).value)))
  {
    BodyKeepsTheRules(candidates, start, limit);
    var history := Run(candidates, start, limit).0.history;
    if AllFailed(history, |candidates|) {
      forall i: nat | i < |candidates| ensures HasFailed(history, i) { FailedEach(history, |candidates|, i); }
    }
  }

  lemma {:induction false} ExpiryNamesTheLast(candidates: seq<Candidate>, i: nat, st: State, start: int, limit: nat)
    requires i < |candidates| && Waiting(st, i, start, limit)
    requires var (after, result) := From(candidates, i, st, limit); result.Raised? && result.error.NoProgress?
    ensures var (after, result) := From(candidates, i, st, limit);
            i <= result.error.candidate < |candidates| && UpTo(after.history, result.error.candidate + 1)
    decreases |candidates| - i
  {
    AttemptEnds(i, candidates[i], st, start, limit);
    var (after, end) := Attempt(i, candidates[i], st, limit);
    if end.Gave? && !after.committed && i + 1 < |candidates| {
      MoreFailed(after.history, i);
      ExpiryNamesTheLast(candidates, i + 1, after, start, limit);
    }
  }

  /** An expired deadline is never answered by another candidate: nothing in the history is about a later
      candidate than the one it is reported for. */
  lemma ExpiryEndsTheRun(candidates: seq<Candidate>, start: int, limit: nat)
    requires var result := Run(candidates, start, limit).1; result.Raised? && result.error.NoProgress?
    ensures var (st, result) := Run(candidates, start, limit);
            result.error.candidate < |candidates| && UpTo(st.history, result.error.candidate + 1)
  {
    ExpiryNamesTheLast(candidates, 0, State([], start, start + limit, false), start, limit);
  }

  // ----- Output is what the stream gave -----

  function Shown(history: seq<Event>): seq<string> {
    if history == [] then []
    else
      var last := history[|history| - 1];
      Shown(history[..|history| - 1]) + if last.Yielded? then [last.data] else []
  }

  /** The output a stream's reads hold. */
  function Chunks(script: seq<Read>): seq<string> {
    if script == [] then []
    else
      var first := script[0].outcome;
      (if first.Chunk? && first.data != "" then [first.data] else []) + Chunks(script[1..])
  }

  lemma LogShows(st: State, event: Event)
    ensures Shown(Log(st, event).history) == Shown(st.history) + if event.Yielded? then [event.data] else []
  {
    assert Log(st, event).history[..|st.history|] == st.history;
  }

  /** How many reads gave a chunk the loop went on with, or showed last. */
  ghost predicate ShowsReads(script: seq<Read>, n: nat, before: State, after: State, end: End) {
    && n <= |script|
    && Shown(after.history) == Shown(before.history) + Chunks(script[..n])
    && (end.Finished? ==> n == |script| || script[n].outcome.Ends?)
    && (end.Gave? ==> n < |script| && script[n].outcome.Fails? && script[n].outcome.failure == end.failure)
  }

  lemma OneMoreRead(script: seq<Read>, more: nat)
    requires more + 1 <= |script|
    ensures Chunks(script[..more + 1]) == Chunks([script[0]]) + Chunks(script[1..][..more])
  {
    assert script[..more + 1][1..] == script[1..][..more];
    assert [script[0]][1..] == [];
  }

  lemma ThenMore(script: seq<Read>, more: nat, st: State, after: State, later: State, end: End)
    requires script != [] && ShowsReads(script[1..], more, after, later, end)
    requires Shown(after.history) == Shown(st.history) + Chunks([script[0]])
    ensures ShowsReads(script, more + 1, st, later, end)
  {
    OneMoreRead(script, more);
  }

  lemma {:induction false} ReadingShows(i: nat, behind: nat, script: seq<Read>, st: State, limit: nat)
    returns (n: nat)
    ensures var (after, end) := Reading(i, behind, script, st, limit); ShowsReads(script, n, st, after, end)
    decreases |script|
  {
    n := 0;
    if st.now < st.deadline {
      var asked := Log(st, Asked(i, behind, st.now, st.deadline));
      LogShows(st, Asked(i, behind, st.now, st.deadline));
      if script != [] {
        n := FirstReadShows(i, script, st, asked, limit);
        var (after, end) := ReadOnce(i, script[0], asked, limit);
        if end.None? {
          var more := ReadingShows(i, behind + 1, script[1..], after, limit);
          n := more + 1;
          var (later, last) := Reading(i, behind + 1, script[1..], after, limit);
          ThenMore(script, more, st, after, later, last);
        }
      }
    }
  }

  lemma FirstReadShows(i: nat, script: seq<Read>, st: State, asked: State, limit: nat) returns (n: nat)
    requires script != [] && Shown(asked.history) == Shown(st.history)
    ensures var (after, end) := ReadOnce(i, script[0], asked, limit);
            && (end.Some? ==> ShowsReads(script, n, st, after, end.value))
            && (end.None? ==> Shown(after.history) == Shown(st.history) + Chunks([script[0]]))
  {
    n := ReadShows(i, script[0], asked, limit);
    assert script[..n] == [script[0]][..n];
    assert [script[0]][..1] == [script[0]];
  }

  lemma ReadShows(i: nat, read: Read, asked: State, limit: nat) returns (n: nat)
    ensures n <= 1
    ensures var (after, end) := ReadOnce(i, read, asked, limit);
            && Shown(after.history) == Shown(asked.history) + Chunks([read][..n])
            && (end.None? ==> n == 1)
            && (end.Some? && end.value.Finished? ==> n == 0 && read.outcome.Ends?)
            && (end.Some? && end.value.Gave? ==>
                  n == 0 && read.outcome.Fails? && read.outcome.failure == end.value.failure)
  {
    var (after, end) := ReadOnce(i, read, asked, limit);
    n := if read.outcome.Chunk? && !Expired(read, asked) then 1 else 0;
    OneRead(read);
    if after.history != asked.history {
      LogShows(asked, after.history[|asked.history|]);
    }
  }

  lemma OneRead(read: Read)
    ensures Chunks([read][..0]) == []
    ensures Chunks([read][..1]) == if read.outcome.Chunk? && read.outcome.data != "" then [read.outcome.data] else []
  {
    assert [read][1..] == [];
    assert [read][..1] == [read] && [read][..0] == [];
  }

  lemma {:induction false} NothingShown(history: seq<Event>)
    requires NoneYielded(history)
    ensures Shown(history) == []
  {
    if history != [] { NothingShown(history[..|history| - 1]); }
  }

  /** What one candidate adds to the output, `n` reads into its stream. */
  ghost predicate FromStream(candidate: Candidate, n: nat, shown: seq<string>, whole: bool) {
    && candidate.opening.Stream?
    && n <= |candidate.opening.script|
    && shown == Chunks(candidate.opening.script[..n])
    && (whole ==> n == |candidate.opening.script| || candidate.opening.script[n].outcome.Ends?)
  }

  ghost predicate Output(candidate: Candidate, n: nat, shown: seq<string>, whole: bool) {
    (shown == [] && !whole) || FromStream(candidate, n, shown, whole)
  }

  lemma StreamShows(i: nat, candidate: Candidate, st: State, limit: nat) returns (n: nat)
    requires candidate.opening.Stream? && Shown(st.history) == []
    ensures var (read, stop) := Reading(i, 0, candidate.opening.script, st, limit);
            var (after, end) := Closing(i, candidate.opening.close, read, stop);
            FromStream(candidate, n, Shown(after.history), end.Finished?)
  {
    n := ReadingShows(i, 0, candidate.opening.script, st, limit);
    var (read, stop) := Reading(i, 0, candidate.opening.script, st, limit);
    var closed := read.now + candidate.opening.close.took;
    LogShows(read.(now := closed), Closed(i, closed));
  }

  lemma AttemptShows(i: nat, candidate: Candidate, st: State, limit: nat) returns (n: nat)
    requires Shown(st.history) == []
    ensures var (after, end) := Attempt(i, candidate, st, limit);
            Output(candidate, n, Shown(after.history), end.Finished?)
  {
    n := 0;
    LogShows(st, Tried(i, st.now));
    var tried := Log(st, Tried(i, st.now)).(now := st.now + candidate.took, committed := false);
    match candidate.opening
    case Refused(failure) => LogShows(tried, Failed(i, failure, tried.now));
    case Stream(script, close) =>
      LogShows(tried, Got(i, tried.now));
      n := StreamShows(i, candidate, Log(tried, Got(i, tried.now)), limit);
    case _ =>
  }

  lemma {:induction false} FromShows(candidates: seq<Candidate>, i: nat, st: State, start: int, limit: nat)
    returns (j: nat, n: nat)
    requires i < |candidates| && Waiting(st, i, start, limit)
    ensures var (after, result) := From(candidates, i, st, limit);
            && j < |candidates| && YieldsFrom(after.history, j)
            && Output(candidates[j], n, Shown(after.history), result.Done?)
    decreases |candidates| - i
  {
    NothingShown(st.history);
    j := i;
    n := AttemptShows(i, candidates[i], st, limit);
    AttemptEnds(i, candidates[i], st, start, limit);
    var (after, end) := Attempt(i, candidates[i], st, limit);
    if end.Gave? && !after.committed && i + 1 < |candidates| {
      MoreFailed(after.history, i);
      j, n := FromShows(candidates, i + 1, after, start, limit);
    }
  }

  /** Everything the consumer was given is the non-empty chunks of one candidate's stream, from its start, in
      order, without loss, repetition or change, and is recorded under that candidate; when the run ends well, it
      is all of them. */
  lemma OutputIsOneStreams(candidates: seq<Candidate>, start: int, limit: nat)
    requires candidates != []
    ensures var (st, result) := Run(candidates, start, limit);
            exists j: nat, n: nat ::
              j < |candidates| && YieldsFrom(st.history, j) && Output(candidates[j], n, Shown(st.history), result.Done?)
  {
    var j, n := FromShows(candidates, 0, State([], start, start + limit, false), start, limit);
    var (st, result) := Run(candidates, start, limit);
    assert YieldsFrom(st.history, j) && Output(candidates[j], n, Shown(st.history), result.Done?);
  }
}
