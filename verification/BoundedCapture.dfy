/**
 * Capturing the output of a child process up to a limit, and stopping the child
 * (packages/node-runtime/src/run-process.ts: monitorOutput, requestTermination, beginTermination,
 * recordIoFailure).
 *
 * The two streams, the abort signal, the timer, the input writer and the close of the child are events
 * that arrive in any order.
 */
module BoundedCapture {
  import opened Base

  datatype Stream = Stdout | Stderr

  datatype Reason = OutputLimit | Aborted | TimedOut

  datatype Phase = Reading(stream: Stream) | Writing

  datatype Event =
    | Chunk(stream: Stream, bytes: Bytes, handled: bool)   // handled: the caller's chunk handler did not throw
    | ReadFails(stream: Stream)                            // the stream itself failed
    | Abort
    | Timer
    | InputFails(closedPipe: bool)                         // the input writer failed; closedPipe: the peer is gone
    | Close

  datatype Request = Request(reason: Reason, stream: Option<Stream>)

  function First(b: Bytes, limit: nat): (r: Bytes)
    ensures |r| <= limit && r <= b
  {
    if |b| <= limit then b else b[..limit]
  }

  lemma FirstTwice(a: Bytes, b: Bytes, limit: nat)
    ensures First(First(a, limit) + b, limit) == First(a + b, limit)
  {
    assert (First(a, limit) + b)[..|First(First(a, limit) + b, limit)|] == First(a + b, limit);
  }

  function Front(events: seq<Event>): seq<Event>
    requires events != []
  {
    events[..|events| - 1]
  }

  function Last(events: seq<Event>): Event
    requires events != []
  {
    events[|events| - 1]
  }

  /** This event makes the reader of a stream give up. */
  predicate Breaks(e: Event, s: Stream) {
    (e.Chunk? && e.stream == s && !e.handled) || e == ReadFails(s)
  }

  /** The reader of a stream gave up: the caller's handler threw, or the stream failed. */
  predicate Broken(events: seq<Event>, s: Stream) {
    exists e :: e in events && Breaks(e, s)
  }

  predicate Delivers(events: seq<Event>, s: Stream)
    requires events != []
  {
    Last(events).Chunk? && Last(events).stream == s && Last(events).handled && !Broken(Front(events), s)
  }

  /** All bytes of a stream, up to the event that broke its reader. */
  function Delivered(events: seq<Event>, s: Stream): Bytes {
    if events == [] then []
    else Delivered(Front(events), s) + (if Delivers(events, s) then Last(events).bytes else [])
  }

  predicate Finished(events: seq<Event>) {
    Close in events
  }

  /** What the latest event calls for: a stop on abort, on timeout, or on excess output. */
  function Called(events: seq<Event>, limit: nat): Option<Request>
    requires events != []
  {
    match Last(events)
    case Abort => Some(Request(Aborted, None))
    case Timer => Some(Request(TimedOut, None))
    case Chunk(s, bytes, _) =>
      if Delivers(events, s) && bytes != [] && |Delivered(events, s)| > limit then Some(Request(OutputLimit, Some(s)))
      else None
    case _ => None
  }

  /** A call that is taken up: after the close only one for excess output is. */
  function Asked(events: seq<Event>, limit: nat): Option<Request>
    requires events != []
  {
    var c := Called(events, limit);
    if c.Some? && c.value.reason != OutputLimit && Finished(Front(events)) then None else c
  }

  /** Every call of `requestTermination`, in order. */
  function Calls(events: seq<Event>, limit: nat): seq<Request> {
    if events == [] then []
    else Calls(Front(events), limit) + (if Called(events, limit).Some? then [Called(events, limit).value] else [])
  }

  /** The first request made. */
  function FirstRequest(events: seq<Event>, limit: nat): Option<Request> {
    if events == [] then None
    else
      var earlier := FirstRequest(Front(events), limit);
      if earlier.Some? then earlier else Asked(events, limit)
  }

  /** What the latest event breaks: a throwing handler, or a writer that failed for no good reason. */
  function Failing(events: seq<Event>, limit: nat): Option<Phase>
    requires events != []
    decreases |events|, 0
  {
    match Last(events)
    case Chunk(s, _, handled) => if !handled && !Broken(Front(events), s) then Some(Reading(s)) else None
    case ReadFails(s) => if !Broken(Front(events), s) then Some(Reading(s)) else None
    case InputFails(closedPipe) =>
      if closedPipe && (Finished(Front(events)) || Stopped(Front(events), limit)) then None else Some(Writing)
    case _ => None
  }

  function FirstFailure(events: seq<Event>, limit: nat): Option<Phase> {
    if events == [] then None
    else
      var earlier := FirstFailure(Front(events), limit);
      if earlier.Some? then earlier else Failing(events, limit)
  }

  /** A request or a failure came while the child was running. */
  predicate Stopped(events: seq<Event>, limit: nat)
    decreases |events|, 1
  {
    events != [] &&
    (Stopped(Front(events), limit)
     || (!Finished(Front(events)) && (Asked(events, limit).Some? || Failing(events, limit).Some?)))
  }

  function Concat(chunks: seq<Bytes>): Bytes {
    if chunks == [] then [] else Concat(chunks[..|chunks| - 1]) + chunks[|chunks| - 1]
  }

  class CapturedOutput {
    var chunks: seq<Bytes>
    var byteLength: nat

    constructor ()
      ensures chunks == [] && byteLength == 0
    {
      chunks, byteLength := [], 0;
    }

    predicate Valid()
      reads this
    {
      byteLength == |Concat(chunks)|
    }

    method Push(chunk: Bytes)
      requires Valid()
      modifies this
      ensures Valid() && Concat(chunks) == old(Concat(chunks)) + chunk
    {
      chunks := chunks + [chunk];
      byteLength := byteLength + |chunk|;
      assert chunks[..|chunks| - 1] == old(chunks);
    }

    /** The part of `monitorOutput` after the handler: keep what fits, and say whether something did not. */
    method Accept(chunk: Bytes, limit: nat) returns (excess: bool)
      requires Valid() && byteLength <= limit
      modifies this
      ensures Valid() && Concat(chunks) == First(old(Concat(chunks)) + chunk, limit)
      ensures excess == (|old(Concat(chunks)) + chunk| > limit)
    {
      var remaining := limit - byteLength;
      if |chunk| <= remaining {
        Push(chunk);
        return false;
      }
      if remaining > 0 {
        Push(chunk[..remaining]);
      }
      excess := true;
    }
  }

  /** The variables shared by the closures of one run. */
  datatype Control = Control(
    finished: bool, requested: Option<Reason>, limitedStream: Option<Stream>, failure: Option<Phase>,
    terminationStarted: bool, softSignals: nat, calls: seq<Request>)

  /** One signal, and only to a running child. */
  function Begun(c: Control): Control {
    if c.terminationStarted || c.finished then c
    else c.(terminationStarted := true, softSignals := c.softSignals + 1)
  }

  /** The call is noted. The first request wins; after the close only excess output still counts. */
  function Requested(c: Control, r: Request): Control {
    var d := c.(calls := c.calls + [r]);
    if d.requested.Some? || (d.finished && r.reason != OutputLimit) then d
    else Begun(d.(requested := Some(r.reason), limitedStream := r.stream))
  }

  /** The first failure wins. */
  function Failed(c: Control, phase: Phase): Control {
    if c.failure.Some? then c else Begun(c.(failure := Some(phase)))
  }

  /** The shared variables, said in terms of the events so far. */
  predicate Tracks(c: Control, events: seq<Event>, limit: nat) {
    var r := FirstRequest(events, limit);
    && c.finished == Finished(events)
    && c.requested == (if r.Some? then Some(r.value.reason) else None)
    && c.limitedStream == (if r.Some? then r.value.stream else None)
    && c.failure == FirstFailure(events, limit)
    && c.terminationStarted == Stopped(events, limit)
    && c.softSignals == (if c.terminationStarted then 1 else 0)
    && c.calls == Calls(events, limit)
  }

  /** The whole state of one run. */
  datatype State = State(control: Control, stdout: Bytes, stderr: Bytes, readingStdout: bool, readingStderr: bool) {
    function Output(s: Stream): Bytes {
      if s == Stdout then stdout else stderr
    }

    predicate Reads(s: Stream) {
      if s == Stdout then readingStdout else readingStderr
    }

    function WithOutput(s: Stream, b: Bytes): State {
      if s == Stdout then this.(stdout := b) else this.(stderr := b)
    }

    function StopReading(s: Stream): State {
      if s == Stdout then this.(readingStdout := false) else this.(readingStderr := false)
    }

    function WithControl(c: Control): State {
      this.(control := c)
    }
  }

  /** A chunk whose handler returned: keep what fits, and ask for a stop when something did not. */
  function Monitored(v: State, s: Stream, bytes: Bytes, limit: nat): State {
    var kept := v.WithOutput(s, First(v.Output(s) + bytes, limit));
    if |v.Output(s) + bytes| > limit then kept.WithControl(Requested(v.control, Request(OutputLimit, Some(s))))
    else kept
  }

  function After(v: State, e: Event, limit: nat): State {
    match e
    case Chunk(s, bytes, handled) =>
      if !v.Reads(s) then v
      else if handled then Monitored(v, s, bytes, limit)
      else v.WithControl(Failed(v.control, Reading(s))).StopReading(s)
    case ReadFails(s) => if !v.Reads(s) then v else v.WithControl(Failed(v.control, Reading(s))).StopReading(s)
    case Abort => v.WithControl(Requested(v.control, Request(Aborted, None)))
    case Timer => v.WithControl(Requested(v.control, Request(TimedOut, None)))
    case Close => v.WithControl(v.control.(finished := true))
    case InputFails(closedPipe) =>
      if closedPipe && (v.control.finished || v.control.terminationStarted) then v
      else v.WithControl(Failed(v.control, Writing))
  }

  class ProcessRun {
    const limit: nat
    const stdout: CapturedOutput
    const stderr: CapturedOutput
    var readingStdout: bool
    var readingStderr: bool
    var finished: bool
    var requested: Option<Reason>
    var limitedStream: Option<Stream>
    var failure: Option<Phase>
    var terminationStarted: bool
    var softSignals: nat
    ghost var calls: seq<Request>   // every call of `RequestTermination`, taken up or not

    constructor (limit: nat)
      ensures Valid() && Seen() == Initial() && this.limit == limit && fresh(stdout) && fresh(stderr)
    {
      this.limit := limit;
      stdout := new CapturedOutput();
      stderr := new CapturedOutput();
      readingStdout, readingStderr, finished := true, true, false;
      requested, limitedStream, failure := None, None, None;
      terminationStarted, softSignals, calls := false, 0, [];
    }

    predicate Valid()
      reads this, stdout, stderr
    {
      stdout != stderr && stdout.Valid() && stderr.Valid() && stdout.byteLength <= limit && stderr.byteLength <= limit
    }

    ghost function Shared(): Control
      reads this
    {
      Control(finished, requested, limitedStream, failure, terminationStarted, softSignals, calls)
    }

    ghost function Seen(): State
      reads this, stdout, stderr
    {
      State(Shared(), Concat(stdout.chunks), Concat(stderr.chunks), readingStdout, readingStderr)
    }

    /** `beginTermination`. */
    method BeginTermination()
      modifies this`terminationStarted, this`softSignals
      ensures Shared() == Begun(old(Shared()))
    {
      if terminationStarted || finished {
        return;
      }
      terminationStarted := true;
      softSignals := softSignals + 1;
    }

    /** `requestTermination`. */
    method RequestTermination(reason: Reason, stream: Option<Stream>)
      modifies this`requested, this`limitedStream, this`terminationStarted, this`softSignals, this`calls
      ensures Shared() == Requested(old(Shared()), Request(reason, stream))
    {
      calls := calls + [Request(reason, stream)];
      if requested.Some? {
        return;
      }
      if finished && reason != OutputLimit {
        return;
      }
      requested, limitedStream := Some(reason), stream;
      BeginTermination();
    }

    /** `recordIoFailure`. */
    method RecordFailure(phase: Phase)
      modifies this`failure, this`terminationStarted, this`softSignals
      ensures Shared() == Failed(old(Shared()), phase)
    {
      if failure.Some? {
        return;
      }
      failure := Some(phase);
      BeginTermination();
    }

    /** One turn of the loop of `monitorOutput`, after the handler returned. */
    method Monitor(s: Stream, bytes: Bytes)
      requires Valid()
      modifies this, stdout, stderr
      ensures Valid() && Seen() == Monitored(old(Seen()), s, bytes, limit)
    {
      hide Requested, Concat, First;
      var output := if s == Stdout then stdout else stderr;
      var excess := output.Accept(bytes, limit);
      if excess {
        RequestTermination(OutputLimit, Some(s));
      }
    }

    /** Whatever happens to the run. */
    method Handle(e: Event)
      requires Valid()
      modifies this, stdout, stderr
      ensures Valid() && Seen() == After(old(Seen()), e, limit)
    {
      hide Monitored, Requested, Failed, Concat, First;
      match e
      case Chunk(s, bytes, handled) =>
        if (s == Stdout && readingStdout) || (s == Stderr && readingStderr) {
          if handled {
            Monitor(s, bytes);
          } else {
            RecordFailure(Reading(s));
            readingStdout := readingStdout && s != Stdout;
            readingStderr := readingStderr && s != Stderr;
          }
        }
      case ReadFails(s) =>
        if (s == Stdout && readingStdout) || (s == Stderr && readingStderr) {
          RecordFailure(Reading(s));
          readingStdout := readingStdout && s != Stdout;
          readingStderr := readingStderr && s != Stderr;
        }
      case Abort => RequestTermination(Aborted, None);
      case Timer => RequestTermination(TimedOut, None);
      case Close => finished := true;
      case InputFails(closedPipe) =>
        if !(closedPipe && (finished || terminationStarted)) {
          RecordFailure(Writing);
        }
    }
  }

  function Initial(): State {
    State(Control(false, None, None, None, false, 0, []), [], [], true, true)
  }

  /** The state, said in terms of the events so far. */
  predicate Describes(v: State, events: seq<Event>, limit: nat) {
    && Tracks(v.control, events, limit)
    && v.stdout == First(Delivered(events, Stdout), limit) && v.stderr == First(Delivered(events, Stderr), limit)
    && v.readingStdout == !Broken(events, Stdout) && v.readingStderr == !Broken(events, Stderr)
  }

  lemma AfterDescribes(v: State, events: seq<Event>, e: Event, limit: nat)
    requires Describes(v, events, limit)
    ensures Describes(After(v, e, limit), events + [e], limit)
  {
    hide Tracks, Delivered, Broken, Requested, Failed, Develops, First;
    match e
    case Chunk(s, bytes, handled) =>
      ChunkAdds(events, s, bytes, handled, limit);
      ChunkTracks(v.control, events, s, bytes, handled, limit);
      FirstTwice(Delivered(events, s), bytes, limit);
    case _ =>
      SignalAdds(events, e, limit);
      SignalTracks(v.control, events, e, limit);
  }

  lemma EventAdds(events: seq<Event>, e: Event, limit: nat)
    ensures var next := events + [e];
            && Front(next) == events && Last(next) == e
            && (Finished(next) <==> Finished(events) || e.Close?)
            && forall s :: Broken(next, s) <==> Broken(events, s) || Breaks(e, s)
  {
    var next := events + [e];
    assert Front(next) == events;
    forall s
      ensures Broken(next, s) <==> Broken(events, s) || Breaks(e, s)
    {
      assert e in next;
      assert forall x :: x in next <==> x in events || x == e;
      if Broken(events, s) {
        var x :| x in events && Breaks(x, s);
        assert x in next;
      }
    }
  }

  /** How requests, failures and the stop develop with one more event. */
  predicate Develops(events: seq<Event>, next: seq<Event>, called: Option<Request>, failing: Option<Phase>,
                     limit: nat) {
    var asked := if called.Some? && called.value.reason != OutputLimit && Finished(events) then None else called;
    && Calls(next, limit) == Calls(events, limit) + (if called.Some? then [called.value] else [])
    && FirstRequest(next, limit) == (if FirstRequest(events, limit).Some? then FirstRequest(events, limit) else asked)
    && FirstFailure(next, limit) == (if FirstFailure(events, limit).Some? then FirstFailure(events, limit) else failing)
    && Stopped(next, limit) == (Stopped(events, limit) || (!Finished(events) && (asked.Some? || failing.Some?)))
  }

  lemma ChunkAdds(events: seq<Event>, s: Stream, bytes: Bytes, handled: bool, limit: nat)
    ensures var next := events + [Chunk(s, bytes, handled)];
            var taken := handled && !Broken(events, s);
            var total := if taken then Delivered(events, s) + bytes else Delivered(events, s);
            && Delivered(next, s) == total
            && (forall t :: t != s ==> Delivered(next, t) == Delivered(events, t))
            && (forall t :: Broken(next, t) <==> Broken(events, t) || (t == s && !handled))
            && Finished(next) == Finished(events)
            && Develops(events, next,
                        if taken && bytes != [] && |total| > limit then Some(Request(OutputLimit, Some(s))) else None,
                        if !handled && !Broken(events, s) then Some(Reading(s)) else None, limit)
  {
    EventAdds(events, Chunk(s, bytes, handled), limit);
  }

  lemma SignalAdds(events: seq<Event>, e: Event, limit: nat)
    requires !e.Chunk?
    ensures var next := events + [e];
            && (forall t :: Delivered(next, t) == Delivered(events, t))
            && (forall t :: Broken(next, t) <==> Broken(events, t) || e == ReadFails(t))
            && Finished(next) == (Finished(events) || e.Close?)
            && Develops(events, next,
                        if e.Abort? then Some(Request(Aborted, None))
                        else if e.Timer? then Some(Request(TimedOut, None)) else None,
                        if e.ReadFails? then (if Broken(events, e.stream) then None else Some(Reading(e.stream)))
                        else if e.InputFails? && !(e.closedPipe && (Finished(events) || Stopped(events, limit)))
                        then Some(Writing)
                        else None, limit)
  {
    EventAdds(events, e, limit);
  }

  /** While the child runs, an admitted request or a recorded failure has already started its termination. */
  lemma {:induction false} StopsEarlier(events: seq<Event>, limit: nat)
    ensures !Finished(events) && (FirstRequest(events, limit).Some? || FirstFailure(events, limit).Some?) ==>
            Stopped(events, limit)
  {
    if events != [] {
      StopsEarlier(Front(events), limit);
      assert events == Front(events) + [Last(events)];
    }
  }

  lemma ChunkTracks(c: Control, events: seq<Event>, s: Stream, bytes: Bytes, handled: bool, limit: nat)
    requires Tracks(c, events, limit)
    ensures var next := events + [Chunk(s, bytes, handled)];
            Tracks(if Broken(events, s) then c
                   else if !handled then Failed(c, Reading(s))
                   else if |First(Delivered(events, s), limit) + bytes| > limit
                   then Requested(c, Request(OutputLimit, Some(s)))
                   else c, next, limit)
  {
    ChunkAdds(events, s, bytes, handled, limit);
    StopsEarlier(events, limit);
    hide FirstRequest, FirstFailure, Stopped, Delivered, Broken, Finished;
  }

  lemma SignalTracks(c: Control, events: seq<Event>, e: Event, limit: nat)
    requires Tracks(c, events, limit) && !e.Chunk?
    ensures Tracks(match e
                   case Abort => Requested(c, Request(Aborted, None))
                   case Timer => Requested(c, Request(TimedOut, None))
                   case Close => c.(finished := true)
                   case ReadFails(s) => if Broken(events, s) then c else Failed(c, Reading(s))
                   case InputFails(closedPipe) =>
                     if closedPipe && (c.finished || c.terminationStarted) then c else Failed(c, Writing),
                   events + [e], limit)
  {
    SignalAdds(events, e, limit);
    StopsEarlier(events, limit);
    hide FirstRequest, FirstFailure, Stopped, Broken, Finished;
  }

  /**
   * Whatever the chunking, `requestTermination` is called for excess output of a stream exactly when more than the
   * limit was delivered on it.
   */
  lemma {:induction false} ExcessIffOverLimit(events: seq<Event>, s: Stream, limit: nat)
    ensures Request(OutputLimit, Some(s)) in Calls(events, limit) <==> |Delivered(events, s)| > limit
  {
    if events != [] {
      ExcessIffOverLimit(Front(events), s, limit);
    }
  }

  /** The first request is for excess output only if the stream it names delivered more than the limit. */
  lemma {:induction false} LimitedStreamIsOver(events: seq<Event>, limit: nat)
    ensures var r := FirstRequest(events, limit);
            r.Some? ==> (r.value.reason == OutputLimit <==> r.value.stream.Some?)
                        && (r.value.stream.Some? ==> |Delivered(events, r.value.stream.value)| > limit)
    ensures (exists s :: |Delivered(events, s)| > limit) ==> FirstRequest(events, limit).Some?
  {
    if events != [] {
      LimitedStreamIsOver(Front(events), limit);
      if s :| |Delivered(events, s)| > limit && FirstRequest(Front(events), limit).None? {
        assert |Delivered(Front(events), s)| <= limit;
      }
    }
  }

  /** An abort or a timeout at this place came while the child was running. */
  predicate Interrupts(events: seq<Event>, i: nat) {
    i < |events| && (events[i].Abort? || events[i].Timer?) && Close !in events[..i]
  }

  /**
   * A run is asked to stop exactly when an abort or a timeout came before the close, or some stream delivered more
   * than the limit.
   */
  lemma {:induction false} RequestedIff(events: seq<Event>, limit: nat)
    ensures FirstRequest(events, limit).Some? <==>
            (exists i: nat :: Interrupts(events, i)) || (exists s :: |Delivered(events, s)| > limit)
  {
    if events != [] {
      var front, n := Front(events), |events| - 1;
      RequestedIff(front, limit);
      LimitedStreamIsOver(events, limit);
      assert events[..n] == front;
      forall i: nat
        ensures Interrupts(front, i) ==> Interrupts(events, i)
        ensures Interrupts(events, i) && i < n ==> Interrupts(front, i)
      {
        if i < n {
          assert events[..i] == front[..i];
        }
      }
      assert Interrupts(events, n) <==> (Last(events).Abort? || Last(events).Timer?) && !Finished(front);
      if FirstRequest(front, limit).Some? {
        if i: nat :| Interrupts(front, i) {
          assert Interrupts(events, i);
        } else {
          var s :| |Delivered(front, s)| > limit;
          assert |Delivered(events, s)| > limit;
        }
      } else if i: nat :| Interrupts(events, i) {
        assert i < n ==> Interrupts(front, i);
        assert i == n && Asked(events, limit).Some?;
      } else if Asked(events, limit).Some? {
        assert !Interrupts(events, n);
        assert |Delivered(events, Last(events).stream)| > limit;
      }
    }
  }

  /** All bytes sent on a stream, whatever became of them. */
  function Sent(events: seq<Event>, s: Stream): Bytes {
    if events == [] then []
    else Sent(Front(events), s) + (if Last(events).Chunk? && Last(events).stream == s then Last(events).bytes else [])
  }

  lemma {:induction false} NothingIsLost(events: seq<Event>, s: Stream)
    requires !Broken(events, s)
    ensures Delivered(events, s) == Sent(events, s)
  {
    if events != [] {
      EventAdds(Front(events), Last(events), 0);
      assert events == Front(events) + [Last(events)];
      NothingIsLost(Front(events), s);
    }
  }

  datatype Outcome =
    | Broke(phase: Phase)
    | Done(stdout: Bytes, stderr: Bytes, reason: Option<Reason>, limitedStream: Option<Stream>)

  /** The events, one after the other, on a real run. */
  method Play(events: seq<Event>, limit: nat) returns (run: ProcessRun)
    ensures fresh(run) && run.Valid() && Describes(run.Seen(), events, limit)
  {
    run := new ProcessRun(limit);
    hide Describes, After, Concat;
    NothingHappened(limit);
    for i := 0 to |events|
      invariant fresh(run) && fresh(run.stdout) && fresh(run.stderr)
      invariant run.Valid() && run.limit == limit && Describes(run.Seen(), events[..i], limit)
    {
      assert events[..i + 1] == events[..i] + [events[i]];
      AfterDescribes(run.Seen(), events[..i], events[i], limit);
      run.Handle(events[i]);
    }
    assert events[..|events|] == events;
  }

  lemma NothingHappened(limit: nat)
    ensures forall events: seq<Event> :: Describes(Initial(), events[..0], limit)
  {
    forall events: seq<Event>
      ensures Describes(Initial(), events[..0], limit)
    {
      assert events[..0] == [];
    }
  }

  /** The state at the end, in the words of the events. */
  lemma WhatItMeans(v: State, events: seq<Event>, limit: nat)
    requires Describes(v, events, limit)
    ensures v.control.failure == FirstFailure(events, limit)
    ensures v.control.failure.None? ==>
              v.stdout == First(Sent(events, Stdout), limit) && v.stderr == First(Sent(events, Stderr), limit)
    ensures v.control.requested.None? <==> FirstRequest(events, limit).None?
    ensures v.control.requested.Some? ==>
              FirstRequest(events, limit) == Some(Request(v.control.requested.value, v.control.limitedStream))
    ensures v.control.requested.None? ==> v.control.limitedStream == None
    ensures v.control.softSignals == if Stopped(events, limit) then 1 else 0
    ensures forall s :: Request(OutputLimit, Some(s)) in v.control.calls <==> |Delivered(events, s)| > limit
  {
    BrokenFails(events, limit);
    if FirstFailure(events, limit).None? {
      NothingIsLost(events, Stdout);
      NothingIsLost(events, Stderr);
    }
    ExcessIffOverLimit(events, Stdout, limit);
    ExcessIffOverLimit(events, Stderr, limit);
    hide FirstFailure, FirstRequest, Stopped, Delivered, Sent, Broken, Calls, First;
    forall s
      ensures Request(OutputLimit, Some(s)) in v.control.calls <==> |Delivered(events, s)| > limit
    {
      assert s == Stdout || s == Stderr;
    }
  }

  /**
   * A whole run. Without failures each captured stream is the first `limit` bytes sent on it, for any
   * chunking and interleaving; the reason and the limited stream are those of the first request; and the
   * child is signalled at most once.
   */
  method Observe(events: seq<Event>, limit: nat) returns (outcome: Outcome, signals: nat, ghost calls: seq<Request>)
    ensures outcome.Broke? <==> FirstFailure(events, limit).Some?
    ensures outcome.Broke? ==> FirstFailure(events, limit) == Some(outcome.phase)
    ensures outcome.Done? ==>
              && outcome.stdout == First(Sent(events, Stdout), limit)
              && outcome.stderr == First(Sent(events, Stderr), limit)
              && (outcome.reason.None? <==> FirstRequest(events, limit).None?)
              && (outcome.reason.Some? ==>
                    FirstRequest(events, limit) == Some(Request(outcome.reason.value, outcome.limitedStream)))
              && (outcome.reason.None? ==> outcome.limitedStream == None)
    ensures signals == if Stopped(events, limit) then 1 else 0
    ensures forall s :: Request(OutputLimit, Some(s)) in calls <==> |Delivered(events, s)| > limit
  {
    var run := Play(events, limit);
    WhatItMeans(run.Seen(), events, limit);
    hide *;
    signals, calls := run.softSignals, run.calls;
    if run.failure.Some? {
      return Broke(run.failure.value), signals, calls;
    }
    outcome := Done(Concat(run.stdout.chunks), Concat(run.stderr.chunks), run.requested, run.limitedStream);
  }

  lemma {:induction false} BrokenFails(events: seq<Event>, limit: nat)
    ensures FirstFailure(events, limit).None? ==> forall s :: !Broken(events, s)
  {
    if events != [] {
      BrokenFails(Front(events), limit);
      EventAdds(Front(events), Last(events), limit);
      assert events == Front(events) + [Last(events)];
    }
  }
}
