/** The semantics of StreamCopyingThread.run() on values: one turn of the copy loop (Step),
    the whole loop (Loop), and what happens after it (Conclude). */
module CopySpec {
  import opened Io

  const MaximumBufferSize: int := 1024 * 8
  const DefaultBufferSize: int := 1024 * 4
  const ReadFailure := "Failed to read from the input stream"
  const WriteFailure := "Failed to write to the output stream"

  /** What the listener is told. */
  datatype Event = Done | Error(message: string) | Progress(count: nat)

  /** The relay's settings for one run, and when a concurrent close() raises the stop flag:
      `stop == Some(k)` means just before the k-th (from 0) read of the flag; `None`, never. */
  datatype Config = Config(bufferSize: nat, notify: bool, stop: Option<nat>)

  /** Everything the copy loop reads or changes: the two stream scripts, the bytes the sink has
      accepted, the listener's log, numberOfBytesRead, the two byte counters, how many times the
      stop flag has been read, and the flag itself. */
  datatype Copy = Copy(
    pending: seq<ReadStep>,
    writes: seq<WriteStep>,
    sink: seq<byte>,
    events: seq<Event>,
    bytesRead: int,
    totalRead: nat,
    totalWritten: nat,
    polls: nat,
    doStop: bool)

  /** The state in which the loop was left, and the message of the IOException that ended it. */
  datatype Exit = Exit(state: Copy, failure: Option<string>)

  datatype Next = Continue(next: Copy) | Finished(exit: Exit)

  /** What run() decided after the loop: isDone, errorMessage, whether the stop flag was up
      when the outcome was decided, whether the final check closes the streams, and the flag
      as it stands when run() marks the thread exited. */
  datatype Ending = Ending(isDone: bool, errorMessage: Option<string>, stopped: bool, closesStreams: bool, stopFlag: bool)

  datatype Outcome = Outcome(exit: Exit, ending: Ending)

  predicate ValidBufferSize(n: int)
  {
    0 < n <= MaximumBufferSize
  }

  /** The value of the stop flag at its `poll`-th read. */
  predicate Seen(doStop: bool, stop: Option<nat>, poll: nat)
  {
    doStop || stop == Some(poll)
  }

  /** The state on entry to run(): numberOfBytesRead and both counters are 0. */
  function Start(pending: seq<ReadStep>, writes: seq<WriteStep>, sink: seq<byte>, events: seq<Event>, doStop: bool): Copy
  {
    Copy(pending, writes, sink, events, 0, 0, 0, 0, doStop)
  }

  /** One evaluation of the loop condition and, if it holds, one read, write and notification.
      What a step preserves is stated by StepContinues and StepFinishes below. */
  function Step(s: Copy, cfg: Config): (r: Next)
    requires cfg.bufferSize > 0 && s.bytesRead >= 0
    ensures r.Continue? ==> Size(r.next.pending) < Size(s.pending) && r.next.bytesRead >= 0
  {
    var seen := Seen(s.doStop, cfg.stop, s.polls);
    var s1 := s.(polls := s.polls + 1, doStop := seen);
    if seen then Finished(Exit(s1, None)) else Transfer(s1, cfg)
  }

  /** The body of the loop once the flag has been found down: read into the buffer, leave the
      loop at -1 or on an exception, otherwise write what was read and notify progress. */
  function Transfer(s: Copy, cfg: Config): (r: Next)
    requires cfg.bufferSize > 0
    ensures r.Continue? ==> Size(r.next.pending) < Size(s.pending) && r.next.bytesRead >= 0
  {
    var d := ReadOn(s.pending, cfg.bufferSize);
    var s2 := s.(pending := d.rest);
    match d.result
    case IOError(c) => Finished(Exit(s2, Some(c)))
    case Ok(n) =>
      if n == -1 then Finished(Exit(s2.(bytesRead := -1), None))
      else
        var s3 := s2.(bytesRead := n, totalRead := s.totalRead + n);
        var w := WriteOn(s.writes);
        match w.0
        case IOError(c) => Finished(Exit(s3.(writes := w.1), Some(c)))
        case Ok(_) =>
          Continue(s3.(
            writes := w.1,
            sink := s.sink + d.bytes,
            totalWritten := s.totalWritten + n,
            events := s.events + if cfg.notify then [Progress(n)] else []))
  }

  /** A step that goes on has moved one chunk, in order, from the source to the sink, counted
      it as read and as written, and logged it as progress if notifications are on. */
  lemma StepContinues(s: Copy, cfg: Config)
    requires cfg.bufferSize > 0 && s.bytesRead >= 0 && Step(s, cfg).Continue?
    ensures var n := Step(s, cfg).next;
      n.sink + Data(n.pending) == s.sink + Data(s.pending) && s.sink <= n.sink
      && (NoReadFail(s.pending) <==> NoReadFail(n.pending))
      && n.bytesRead == |n.sink| - |s.sink| <= cfg.bufferSize
      && n.totalWritten - s.totalWritten == n.totalRead - s.totalRead == |n.sink| - |s.sink|
      && n.events == s.events + (if cfg.notify then [Progress(|n.sink| - |s.sink|)] else [])
      && !Seen(s.doStop, cfg.stop, s.polls) && !n.doStop && n.polls == s.polls + 1
      && (NoWriteFail(s.writes) ==> NoWriteFail(n.writes))
  {
    ReadOnKeepsData(s.pending, cfg.bufferSize);
    ReadOnFailure(s.pending, cfg.bufferSize);
  }

  /** A step that leaves the loop adds nothing to the listener's log; it leaves at end-of-stream
      only on an exhausted script, on a raised flag only with the flag up, and on an exception
      only after a failing read or write, with a count that is not -1. */
  lemma StepFinishes(s: Copy, cfg: Config)
    requires cfg.bufferSize > 0 && s.bytesRead >= 0 && Step(s, cfg).Finished?
    ensures var x := Step(s, cfg).exit; var t := x.state;
      s.sink <= t.sink <= s.sink + Data(s.pending) && t.events == s.events
      && t.polls == s.polls + 1 && t.doStop == Seen(s.doStop, cfg.stop, s.polls)
      && t.totalWritten == s.totalWritten
      && (x.failure.None? ==> t.sink == s.sink && t.totalRead == s.totalRead)
      && (x.failure.None? && t.bytesRead == -1 ==> s.pending == [] && t.pending == [] && !t.doStop)
      && (x.failure.None? && t.bytesRead != -1 ==> t.doStop && t.bytesRead == s.bytesRead)
      && (x.failure.Some? ==> t.bytesRead >= 0 && !t.doStop)
      && (x.failure.Some? ==> !NoReadFail(s.pending) || !NoWriteFail(s.writes))
  {
    ReadOnKeepsData(s.pending, cfg.bufferSize);
    ReadOnFailure(s.pending, cfg.bufferSize);
  }

  /** The copy loop: `while (!mDoStop && (numberOfBytesRead = read(buffer)) != -1) { ... }`,
      together with the IOException that may leave it. */
  function Loop(s: Copy, cfg: Config): (r: Exit)
    requires cfg.bufferSize > 0 && s.bytesRead >= 0
    ensures s.polls < r.state.polls
    ensures s.doStop ==> r.state.doStop && r.failure.None? && r.state.sink == s.sink && r.state.events == s.events
    ensures r.failure.Some? ==> r.state.bytesRead >= 0 && !r.state.doStop
    decreases Size(s.pending)
  {
    match Step(s, cfg)
    case Continue(n) => StepContinues(s, cfg); Loop(n, cfg)
    case Finished(x) => StepFinishes(s, cfg); x
  }

  /** The message run() hands to onStreamCopyError: keyed on the last recorded read count. */
  function ErrorMessage(bytesRead: int, cause: string): (m: string)
    ensures (if bytesRead == -1 then ReadFailure else WriteFailure) + ": " <= m
    ensures |cause| <= |m| && m[|m| - |cause|..] == cause
  {
    (if bytesRead == -1 then ReadFailure else WriteFailure) + ": " + cause
  }

  /** Whether run() reads the flag once more after the loop to decide its outcome: at the
      end-of-stream check (only when the count is -1, as `&&` short-circuits) or in the catch
      block. A loop left on a raised flag has already decided. */
  predicate ReadsFlagToDecide(x: Exit)
  {
    x.failure.Some? || x.state.bytesRead == -1
  }

  /** The index of the flag read that decides whether run() closes the streams. */
  function ClosingPoll(x: Exit): nat
  {
    if ReadsFlagToDecide(x) then x.state.polls + 1 else x.state.polls
  }

  /** After the loop: the end-of-stream check or the catch block, the check that decides whether
      the streams are closed (one more read), and the window before the thread is marked exited,
      where a close() only raises the flag. */
  function Conclude(x: Exit, stop: Option<nat>): (e: Ending)
    ensures !(e.isDone && e.errorMessage.Some?)
    ensures e.stopped ==> !e.isDone && e.errorMessage.None? && e.closesStreams
    ensures e.isDone <==> x.failure.None? && x.state.bytesRead == -1 && !e.stopped
    ensures e.errorMessage.Some? <==> x.failure.Some? && !e.stopped
    ensures e.errorMessage.Some? ==>
      x.failure.Some? && e.errorMessage.value == ErrorMessage(x.state.bytesRead, x.failure.value)
    ensures e.stopped <==> x.state.doStop || (ReadsFlagToDecide(x) && stop == Some(x.state.polls))
    ensures e.closesStreams <==> e.stopped || stop == Some(ClosingPoll(x))
    ensures e.stopFlag <==> e.closesStreams || stop == Some(ClosingPoll(x) + 1)
    ensures e.closesStreams ==> x.state.doStop || stop.Some?
  {
    var t := x.state;
    if x.failure.None? && t.bytesRead != -1 then
      var closing := Seen(t.doStop, stop, t.polls);
      Ending(false, None, t.doStop, closing, Seen(closing, stop, t.polls + 1))
    else
      var seen := Seen(t.doStop, stop, t.polls);
      var closing := Seen(seen, stop, t.polls + 1);
      var flag := Seen(closing, stop, t.polls + 2);
      if x.failure.None? then Ending(!seen, None, seen, closing, flag)
      else Ending(false, if seen then None else Some(ErrorMessage(t.bytesRead, x.failure.value)), seen, closing, flag)
  }

  /** The listener calls made after the loop: done first, then the error. */
  function Verdict(e: Ending): seq<Event>
  {
    (if e.isDone then [Done] else []) + (if e.errorMessage.Some? then [Error(e.errorMessage.value)] else [])
  }

  /** A whole run of the thread from state `s`. */
  function RunOutcome(s: Copy, cfg: Config): (o: Outcome)
    requires cfg.bufferSize > 0 && s.bytesRead >= 0
    ensures |Verdict(o.ending)| <= 1
    ensures s.doStop ==> Verdict(o.ending) == [] && o.ending.closesStreams && o.exit.state.sink == s.sink
    ensures o.ending.errorMessage.Some? ==>
      o.exit.failure.Some? && o.ending.errorMessage.value == WriteFailure + ": " + o.exit.failure.value
  {
    var x := Loop(s, cfg);
    Outcome(x, Conclude(x, cfg.stop))
  }

  /** Every event the listener holds after a run. */
  function Events(o: Outcome): seq<Event>
  {
    o.exit.state.events + Verdict(o.ending)
  }

  /** The sum of the byte counts of the progress events in `es`. */
  function ProgressTotal(es: seq<Event>): nat
  {
    if es == [] then 0
    else ProgressTotal(es[..|es| - 1]) + (if es[|es| - 1].Progress? then es[|es| - 1].count else 0)
  }
}
