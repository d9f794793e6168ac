/** providers/stream_recovery.py: a short holdback lets an early upstream failure be retried unseen. */
module StreamRecovery {
  import opened Options

  const EARLY_HOLDBACK_SECONDS := 0.75
  const RECOVERY_BUFFER_MAX_BYTES := 65536

  newtype CodePoint = c: int | 0 <= c < 0x110000

  type Text = seq<CodePoint>

  /** UTF-8; a lone surrogate is replaced by a question mark. */
  function CharBytes(c: CodePoint): nat {
    if c < 0x80 || 0xD800 <= c < 0xE000 then 1 else if c < 0x800 then 2 else if c < 0x10000 then 3 else 4
  }

  function Bytes(text: Text): nat {
    if text == [] then 0 else Bytes(text[..|text| - 1]) + CharBytes(text[|text| - 1])
  }

  function TotalBytes(events: seq<Text>): nat {
    if events == [] then 0 else TotalBytes(events[..|events| - 1]) + Bytes(events[|events| - 1])
  }

  // ----- The buffer as a value -----

  datatype Buffer = Buffer(events: seq<Text>, bytes: nat, startedAt: Option<real>, committed: bool)

  const EMPTY := Buffer([], 0, None, false)

  function AfterFlush(b: Buffer): (Buffer, seq<Text>) {
    if b.committed then (b, []) else (Buffer([], 0, None, true), b.events)
  }

  /** `first` and `second` are the two clock readings of one push. */
  function AfterPush(b: Buffer, event: Text, first: real, second: real): (Buffer, seq<Text>) {
    if b.committed then (b, [event])
    else
      var began := if b.startedAt.Some? then b.startedAt.value else first;
      var held := Buffer(b.events + [event], b.bytes + Bytes(event), Some(began), false);
      if RECOVERY_BUFFER_MAX_BYTES <= held.bytes || EARLY_HOLDBACK_SECONDS <= second - began then AfterFlush(held)
      else (held, [])
  }

  function AfterDiscard(b: Buffer): Buffer {
    Buffer([], 0, None, b.committed)
  }

  datatype Action = EarlyRetry | MidstreamRecovery | FinalError

  datatype Decision = Decision(action: Action, retryable: bool, committed: bool, hasBuffered: bool)

  datatype Failure = Failure(retryable: bool, streamOpened: bool, generatedOutput: bool, toolSalvageable: bool,
                             attemptsRemaining: int)

  function Advance(b: Buffer, f: Failure): (Buffer, Decision) {
    var available := 0 < f.attemptsRemaining;
    if f.retryable && available && f.streamOpened && !b.committed && !f.toolSalvageable &&
       !(f.generatedOutput && f.attemptsRemaining == 1)
    then (EMPTY, Decision(EarlyRetry, true, false, b.events != []))
    else if f.retryable && f.generatedOutput && (available || f.toolSalvageable)
    then (b, Decision(MidstreamRecovery, true, b.committed, b.events != []))
    else (b, Decision(FinalError, f.retryable, b.committed, b.events != []))
  }

  function AfterSettle(b: Buffer, decision: Decision): (Buffer, seq<Text>) {
    if !decision.committed && decision.hasBuffered then AfterFlush(b) else (b, [])
  }

  // ----- Runs -----

  datatype Step =
    | Pushes(event: Text, first: real, second: real)
    | Flushes
    | Discards
    | Settles(decision: Decision)   // flush_uncommitted, with any decision
    | Fails(failure: Failure)

  function Apply(b: Buffer, step: Step): (Buffer, seq<Text>) {
    match step
    case Pushes(event, first, second) => AfterPush(b, event, first, second)
    case Flushes => AfterFlush(b)
    case Discards => (AfterDiscard(b), [])
    case Settles(decision) => AfterSettle(b, decision)
    case Fails(failure) => (Advance(b, failure).0, [])
  }

  /** The buffer after a run, and everything the client was sent. */
  function Play(steps: seq<Step>): (Buffer, seq<Text>) {
    if steps == [] then (EMPTY, [])
    else
      var (b, emitted) := Play(steps[..|steps| - 1]);
      var (after, sent) := Apply(b, steps[|steps| - 1]);
      (after, emitted + sent)
  }

  /** The steps that throw away what is held: an early retry, and a discard before the commit. */
  predicate Erases(b: Buffer, step: Step) {
    (step.Discards? && !b.committed) || (step.Fails? && Advance(b, step.failure).1.action.EarlyRetry?)
  }

  predicate ErasesAt(steps: seq<Step>, k: nat) {
    k < |steps| && Erases(Play(steps[..k]).0, steps[k])
  }

  function Pushed(steps: seq<Step>): seq<Text> {
    if steps == [] then []
    else
      var last := steps[|steps| - 1];
      Pushed(steps[..|steps| - 1]) + if last.Pushes? then [last.event] else []
  }

  ghost predicate BufferOk(b: Buffer, emitted: seq<Text>) {
    && (b.committed ==> b.events == [])
    && (!b.committed ==> emitted == [])
    && b.bytes == TotalBytes(b.events)
    && b.bytes < RECOVERY_BUFFER_MAX_BYTES
    && (b.startedAt.None? <==> b.events == [])
  }

  lemma TotalOfOneMore(events: seq<Text>, event: Text)
    ensures TotalBytes(events + [event]) == TotalBytes(events) + Bytes(event)
  {
    assert (events + [event])[..|events|] == events;
  }

  lemma StepKeepsBuffer(b: Buffer, emitted: seq<Text>, step: Step)
    requires BufferOk(b, emitted)
    ensures BufferOk(Apply(b, step).0, emitted + Apply(b, step).1)
  {
    if step.Pushes? { TotalOfOneMore(b.events, step.event); }
  }

  lemma {:induction false} RunKeepsBuffer(steps: seq<Step>)
    ensures BufferOk(Play(steps).0, Play(steps).1)
  {
    if steps != [] {
      var (b, emitted) := Play(steps[..|steps| - 1]);
      RunKeepsBuffer(steps[..|steps| - 1]);
      StepKeepsBuffer(b, emitted, steps[|steps| - 1]);
    }
  }

  /** Nothing is lost, doubled or reordered: what the client has, followed by what is held, is what was pushed
      since the last step that erased the buffer. */
  lemma {:induction false} OutputIsWhatWasPushed(steps: seq<Step>, since: nat)
    requires since <= |steps|
    requires since == 0 || ErasesAt(steps, since - 1)
    requires forall k :: since <= k < |steps| ==> !ErasesAt(steps, k)
    ensures Play(steps).1 + Play(steps).0.events == Pushed(steps[since..])
  {
    if steps != [] {
      var before := steps[..|steps| - 1];
      var last := steps[|steps| - 1];
      RunKeepsBuffer(before);
      if since == |steps| {
        EraseEmpties(Play(before).0, Play(before).1, last);
      } else {
        QuietBefore(steps, since);
        OutputIsWhatWasPushed(before, since);
        assert !ErasesAt(steps, |steps| - 1);
        assert steps[since..][..|steps| - 1 - since] == before[since..];
        LastStepAdds(Play(before).0, Play(before).1, last);
      }
    }
  }

  lemma QuietBefore(steps: seq<Step>, since: nat)
    requires since < |steps|
    requires since == 0 || ErasesAt(steps, since - 1)
    requires forall k :: since <= k < |steps| ==> !ErasesAt(steps, k)
    ensures var before := steps[..|steps| - 1];
            && (since == 0 || ErasesAt(before, since - 1))
            && (forall k :: since <= k < |before| ==> !ErasesAt(before, k))
  {
    var before := steps[..|steps| - 1];
    forall k | 0 <= k < |before| ensures ErasesAt(before, k) == ErasesAt(steps, k) {
      assert before[..k] == steps[..k];
    }
  }

  lemma EraseEmpties(b: Buffer, emitted: seq<Text>, step: Step)
    requires BufferOk(b, emitted) && Erases(b, step)
    ensures var (after, sent) := Apply(b, step); emitted + sent + after.events == []
  {
  }

  lemma LastStepAdds(b: Buffer, emitted: seq<Text>, step: Step)
    requires BufferOk(b, emitted) && !Erases(b, step)
    ensures var (after, sent) := Apply(b, step);
            emitted + sent + after.events == emitted + b.events + if step.Pushes? then [step.event] else []
  {
  }

  /** An early retry happens only while the client has seen nothing, and starts from an empty buffer; with output
      already generated upstream it leaves two attempts. */
  lemma {:induction false} EarlyRetryIsInvisible(steps: seq<Step>, f: Failure)
    requires Advance(Play(steps).0, f).1.action.EarlyRetry?
    ensures Play(steps).1 == [] && Advance(Play(steps).0, f).0 == EMPTY
    ensures f.generatedOutput ==> 2 <= f.attemptsRemaining
    ensures f.retryable && f.streamOpened && !f.toolSalvageable
  {
    RunKeepsBuffer(steps);
  }

  /** After a failure that is not retried unseen, settling sends all that is held, and nothing is left behind. */
  lemma {:induction false} SettlingSendsWhatIsHeld(steps: seq<Step>, f: Failure)
    requires !Advance(Play(steps).0, f).1.action.EarlyRetry?
    ensures var (b, decision) := Advance(Play(steps).0, f);
            var (after, sent) := AfterSettle(b, decision);
            sent == Play(steps).0.events && after.events == [] && (sent != [] ==> after.committed)
  {
    RunKeepsBuffer(steps);
  }

  /** Until the commit the held bytes, in UTF-8, are counted exactly and stay under the cap. */
  lemma {:induction false} HeldBytesStayUnderTheCap(steps: seq<Step>)
    ensures var b := Play(steps).0;
            b.bytes == TotalBytes(b.events) < RECOVERY_BUFFER_MAX_BYTES && (b.committed ==> b.events == [])
  {
    RunKeepsBuffer(steps);
  }

  predicate Commits(steps: seq<Step>) {
    Play(steps).0.committed
  }

  /** The commit is for good: from then on every push goes straight out, and no failure can erase anything. */
  lemma {:induction false} CommitIsFinal(steps: seq<Step>, k: nat)
    requires k <= |steps| && Commits(steps[..k])
    ensures Commits(steps)
    ensures Play(steps).1 == Play(steps[..k]).1 + Pushed(steps[k..])
    decreases |steps|
  {
    if k == |steps| {
      assert steps[..k] == steps;
    } else {
      var before := steps[..|steps| - 1];
      assert before[..k] == steps[..k];
      CommitIsFinal(before, k);
      assert steps[k..][..|steps| - 1 - k] == before[k..];
    }
  }

  /** A held event is never older than the holdback at the next push: that push sends everything out. */
  lemma {:induction false} HoldbackEnds(steps: seq<Step>, event: Text, first: real, second: real)
    requires var b := Play(steps).0; b.startedAt.Some? && b.startedAt.value + EARLY_HOLDBACK_SECONDS <= second
    ensures var (b, emitted) := Play(steps);
            var (after, sent) := AfterPush(b, event, first, second);
            after.committed && emitted == [] && sent == b.events + [event]
  {
    RunKeepsBuffer(steps);
  }

  // ----- What is decided, and what is held back -----

  /** Which action a failure leads to. It is retried unseen exactly if it is retryable, an attempt is left (two, if
      output was generated), the stream had opened, no tool call can be salvaged and the client was sent nothing;
      failing that, it is recovered from midstream exactly if it is retryable, output was generated, and an attempt or
      a salvageable tool call is left; and is final otherwise. */
  lemma ActionsAre(steps: seq<Step>, f: Failure)
    ensures var (b, decision) := Advance(Play(steps).0, f);
            var unseen := f.retryable && f.streamOpened && !f.toolSalvageable && !Commits(steps)
                          && (if f.generatedOutput then 2 else 1) <= f.attemptsRemaining;
            var midstream := f.retryable && f.generatedOutput && (1 <= f.attemptsRemaining || f.toolSalvageable);
            && (decision.action.EarlyRetry? <==> unseen)
            && (decision.action.MidstreamRecovery? <==> !unseen && midstream)
            && (decision.action.FinalError? <==> !unseen && !midstream)
            && decision.retryable == f.retryable
            && decision.committed == Commits(steps)
            && decision.hasBuffered == (Play(steps).0.events != [])
            && (!unseen ==> b == Play(steps).0)
            && (Play(steps).1 != [] ==> !unseen)
  {
    RunKeepsBuffer(steps);
  }

  /** A push before the commit is held back exactly while all that is held stays under 64 KiB and the first held event
      is less than three quarters of a second old; else everything goes out at once and the commit is made. */
  lemma HeldBackIff(steps: seq<Step>, event: Text, first: real, second: real)
    requires !Commits(steps)
    ensures var held := Play(steps).0;
            var (after, sent) := AfterPush(held, event, first, second);
            var began := if held.startedAt.Some? then held.startedAt.value else first;
            && (held.startedAt.Some? <==> held.events != [])
            && if TotalBytes(held.events) + Bytes(event) < 65536 && second - began < 0.75
               then sent == [] && after.events == held.events + [event] && after.startedAt == Some(began)
                    && !after.committed
               else sent == held.events + [event] && after.events == [] && after.committed
  {
    RunKeepsBuffer(steps);
  }

  /** UTF-8, section 3 of RFC 3629. */
  function Utf8(c: CodePoint): seq<int> {
    var n := c as int;
    if n < 0x80 then [n]
    else if 0xD800 <= n < 0xE000 then [0x3F]
    else if n < 0x800 then [0xC0 + n / 0x40, 0x80 + n % 0x40]
    else if n < 0x10000 then [0xE0 + n / 0x1000, 0x80 + n / 0x40 % 0x40, 0x80 + n % 0x40]
    else [0xF0 + n / 0x40000, 0x80 + n / 0x1000 % 0x40, 0x80 + n / 0x40 % 0x40, 0x80 + n % 0x40]
  }

  function Encoded(text: Text): seq<int> {
    if text == [] then [] else Encoded(text[..|text| - 1]) + Utf8(text[|text| - 1])
  }

  /** The cap counts encoded bytes. */
  lemma {:induction false} BytesAreUtf8(text: Text)
    ensures Bytes(text) == |Encoded(text)|
    ensures forall i :: 0 <= i < |Encoded(text)| ==> 0 <= Encoded(text)[i] < 0x100
  {
    if text != [] { BytesAreUtf8(text[..|text| - 1]); }
  }

  // ----- The objects -----

  class RecoveryHoldbackBuffer {
    var events: seq<Text>
    var bytes: nat
    var startedAt: Option<real>
    var committed: bool

    function View(): Buffer
      reads this
    {
      Buffer(events, bytes, startedAt, committed)
    }

    constructor ()
      ensures View() == EMPTY
    {
      events, bytes, startedAt, committed := [], 0, None, false;
    }

    method Push(event: Text, first: real, second: real) returns (sent: seq<Text>)
      modifies this
      ensures (View(), sent) == AfterPush(old(View()), event, first, second)
    {
      if committed { return [event]; }
      if startedAt.None? { startedAt := Some(first); }
      events := events + [event];
      bytes := bytes + Bytes(event);
      if bytes >= RECOVERY_BUFFER_MAX_BYTES || second - startedAt.value >= EARLY_HOLDBACK_SECONDS {
        sent := Flush();
      } else {
        sent := [];
      }
    }

    method Flush() returns (sent: seq<Text>)
      modifies this
      ensures (View(), sent) == AfterFlush(old(View()))
    {
      if committed { return []; }
      committed := true;
      sent := events;
      events, bytes, startedAt := [], 0, None;
    }

    method Discard()
      modifies this
      ensures View() == AfterDiscard(old(View()))
    {
      events, bytes, startedAt := [], 0, None;
    }
  }

  class RecoveryController {
    var holdback: RecoveryHoldbackBuffer

    function View(): Buffer
      reads this, holdback
    {
      holdback.View()
    }

    constructor ()
      ensures View() == EMPTY && fresh(holdback)
    {
      holdback := new RecoveryHoldbackBuffer();
    }

    method Push(event: Text, first: real, second: real) returns (sent: seq<Text>)
      modifies holdback
      ensures (View(), sent) == AfterPush(old(View()), event, first, second)
    {
      sent := holdback.Push(event, first, second);
    }

    method FlushUncommitted(decision: Decision) returns (sent: seq<Text>)
      modifies holdback
      ensures (View(), sent) == AfterSettle(old(View()), decision)
    {
      sent := [];
      if !decision.committed && decision.hasBuffered { sent := holdback.Flush(); }
    }

    /** On an early retry the old buffer is emptied and a new one takes its place. */
    method AdvanceFailure(f: Failure) returns (decision: Decision)
      modifies this, holdback
      ensures (View(), decision) == Advance(old(View()), f)
      ensures decision.action.EarlyRetry? ==> fresh(holdback) && old(holdback).events == []
      ensures !decision.action.EarlyRetry? ==> holdback == old(holdback)
    {
      var committed, hasBuffered := holdback.committed, holdback.events != [];
      var available := f.attemptsRemaining > 0;
      var reserveLast := f.generatedOutput && f.attemptsRemaining == 1;
      if f.retryable && available && f.streamOpened && !committed && !f.toolSalvageable && !reserveLast {
        holdback.Discard();
        holdback := new RecoveryHoldbackBuffer();
        return Decision(EarlyRetry, true, false, hasBuffered);
      }
      if f.retryable && f.generatedOutput && (available || f.toolSalvageable) {
        return Decision(MidstreamRecovery, true, committed, hasBuffered);
      }
      decision := Decision(FinalError, f.retryable, committed, hasBuffered);
    }
  }
}
