/** What a run of the copy loop and of run() as a whole guarantees. */
module CopyProperties {
  import opened Io
  import opened CopySpec

  /** The sink only grows, and what it gains is a prefix of the data the source delivers, in
      order; the written-bytes counter grows by exactly what the sink gained. */
  lemma {:induction false} LoopKeepsOrder(s: Copy, cfg: Config)
    requires cfg.bufferSize > 0 && s.bytesRead >= 0
    ensures var t := Loop(s, cfg).state;
      s.sink <= t.sink <= s.sink + Data(s.pending)
      && t.totalWritten - s.totalWritten == |t.sink| - |s.sink|
    decreases Size(s.pending)
  {
    match Step(s, cfg)
    case Continue(n) =>
      StepContinues(s, cfg);
      LoopKeepsOrder(n, cfg);
      var t := Loop(n, cfg).state;
      assert s.sink <= t.sink by {
        assert t.sink[..|s.sink|] == t.sink[..|n.sink|][..|s.sink|];
      }
    case Finished(_) => StepFinishes(s, cfg);
  }

  /** A loop left at end-of-stream has copied every byte of a script that never fails, and
      has read as many bytes as it wrote. */
  lemma {:induction false} LoopAtEndCopiedAll(s: Copy, cfg: Config)
    requires cfg.bufferSize > 0 && s.bytesRead >= 0
    ensures var x := Loop(s, cfg); var t := x.state;
      x.failure.None? && t.bytesRead == -1 ==>
        NoReadFail(s.pending) && t.pending == []
        && t.sink == s.sink + Data(s.pending)
        && t.totalRead - s.totalRead == t.totalWritten - s.totalWritten == |Data(s.pending)|
    decreases Size(s.pending)
  {
    match Step(s, cfg)
    case Continue(n) => StepContinues(s, cfg); LoopAtEndCopiedAll(n, cfg);
    case Finished(_) => StepFinishes(s, cfg);
  }

  /** Without failing reads or writes the loop ends without an exception; if moreover no stop is
      requested it ends at end-of-stream with the flag down. */
  lemma {:induction false} LoopWithoutFaults(s: Copy, cfg: Config)
    requires cfg.bufferSize > 0 && s.bytesRead >= 0
    requires NoReadFail(s.pending) && NoWriteFail(s.writes)
    ensures Loop(s, cfg).failure.None?
    ensures !s.doStop && cfg.stop.None? ==> Loop(s, cfg).state.bytesRead == -1 && !Loop(s, cfg).state.doStop
    decreases Size(s.pending)
  {
    match Step(s, cfg)
    case Continue(n) => StepContinues(s, cfg); LoopWithoutFaults(n, cfg);
    case Finished(_) => StepFinishes(s, cfg);
  }

  /** Only a stop request raises the flag during the loop. */
  lemma {:induction false} LoopUnaskedNeverStops(s: Copy, cfg: Config)
    requires cfg.bufferSize > 0 && s.bytesRead >= 0
    requires !s.doStop && cfg.stop.None?
    ensures !Loop(s, cfg).state.doStop
    decreases Size(s.pending)
  {
    match Step(s, cfg)
    case Continue(n) => StepContinues(s, cfg); LoopUnaskedNeverStops(n, cfg);
    case Finished(_) => StepFinishes(s, cfg);
  }

  /** The flag is up when the loop ends exactly when it was up on entry or a close() landed at one
      of the loop's checks; such a close() ends the loop at the check it landed on. */
  lemma {:induction false} LoopStopsAtRequest(s: Copy, cfg: Config)
    requires cfg.bufferSize > 0 && s.bytesRead >= 0
    ensures var x := Loop(s, cfg); var t := x.state;
      s.polls < t.polls && (t.doStop ==> x.failure.None?)
      && (t.doStop <==> s.doStop || (cfg.stop.Some? && s.polls <= cfg.stop.value < t.polls))
      && (cfg.stop.Some? && s.polls <= cfg.stop.value ==> t.polls <= cfg.stop.value + 1)
      && (s.doStop ==> t.polls == s.polls + 1)
    decreases Size(s.pending)
  {
    match Step(s, cfg)
    case Continue(n) => StepContinues(s, cfg); LoopStopsAtRequest(n, cfg);
    case Finished(_) => StepFinishes(s, cfg);
  }

  /** A loop left by an IOException has a non-negative last read count. */
  lemma {:induction false} LoopFailureKeepsCount(s: Copy, cfg: Config)
    requires cfg.bufferSize > 0 && s.bytesRead >= 0
    ensures var x := Loop(s, cfg);
      x.failure.Some? ==> x.state.bytesRead >= 0 && (!NoReadFail(s.pending) || !NoWriteFail(s.writes))
    decreases Size(s.pending)
  {
    match Step(s, cfg)
    case Continue(n) =>
      StepContinues(s, cfg);
      LoopFailureKeepsCount(n, cfg);
      if NoReadFail(s.pending) && NoWriteFail(s.writes) {
        assert NoReadFail(n.pending) && NoWriteFail(n.writes);
      }
    case Finished(_) => StepFinishes(s, cfg);
  }

  lemma ProgressTotalAppend(es: seq<Event>, e: Event)
    ensures ProgressTotal(es + [e]) == ProgressTotal(es) + (if e.Progress? then e.count else 0)
  {
    assert (es + [e])[..|es|] == es;
  }

  /** The loop only adds progress events, none when notifications are off, each for at most
      one buffer. */
  lemma {:induction false} LoopOnlyLogsProgress(s: Copy, cfg: Config)
    requires cfg.bufferSize > 0 && s.bytesRead >= 0
    ensures var t := Loop(s, cfg).state;
      s.events <= t.events
      && (forall i :: |s.events| <= i < |t.events| ==> t.events[i].Progress? && t.events[i].count <= cfg.bufferSize)
      && (!cfg.notify ==> t.events == s.events)
    decreases Size(s.pending)
  {
    match Step(s, cfg)
    case Continue(n) =>
      StepContinues(s, cfg);
      LoopOnlyLogsProgress(n, cfg);
      var t := Loop(n, cfg).state;
      assert s.events <= t.events by {
        assert t.events[..|s.events|] == t.events[..|n.events|][..|s.events|];
      }
      forall i | |s.events| <= i < |t.events|
        ensures t.events[i].Progress? && t.events[i].count <= cfg.bufferSize
      {
        if i < |n.events| { assert t.events[i] == n.events[i]; }
      }
    case Finished(_) => StepFinishes(s, cfg);
  }

  /** With notifications on, the progress events the loop logs add up to the bytes it wrote:
      one per completed read and write, carrying that chunk's size. */
  lemma {:induction false} LoopProgressAddsUp(s: Copy, cfg: Config)
    requires cfg.bufferSize > 0 && s.bytesRead >= 0 && cfg.notify
    ensures var t := Loop(s, cfg).state;
      ProgressTotal(t.events) - ProgressTotal(s.events) == |t.sink| - |s.sink|
    decreases Size(s.pending)
  {
    match Step(s, cfg)
    case Continue(n) =>
      StepContinues(s, cfg);
      LoopProgressAddsUp(n, cfg);
      ProgressTotalAppend(s.events, Progress(|n.sink| - |s.sink|));
    case Finished(_) => StepFinishes(s, cfg);
  }

  /** A run reports Done only when the source reached end-of-stream without a failing read,
      every byte arrived at the sink in order, as many bytes were read as written, and no stop
      had been seen. */
  lemma DoneMeansEverythingCopied(pending: seq<ReadStep>, writes: seq<WriteStep>, sink: seq<byte>,
                                  events: seq<Event>, doStop: bool, cfg: Config)
    requires cfg.bufferSize > 0
    ensures var o := RunOutcome(Start(pending, writes, sink, events, doStop), cfg); var t := o.exit.state;
      o.ending.isDone ==>
        NoReadFail(pending) && t.sink == sink + Data(pending)
        && t.totalRead == t.totalWritten == |Data(pending)|
        && !o.ending.stopped && !doStop
  {
    LoopAtEndCopiedAll(Start(pending, writes, sink, events, doStop), cfg);
  }

  /** A run that meets no failing read or write and no stop request copies everything, reports
      exactly Done and leaves the streams open. */
  lemma UndisturbedRunIsDone(pending: seq<ReadStep>, writes: seq<WriteStep>, sink: seq<byte>,
                             events: seq<Event>, notify: bool, bufferSize: nat)
    requires bufferSize > 0 && NoReadFail(pending) && NoWriteFail(writes)
    ensures var o := RunOutcome(Start(pending, writes, sink, events, false), Config(bufferSize, notify, None));
      Verdict(o.ending) == [Done] && o.exit.state.sink == sink + Data(pending)
      && !o.ending.closesStreams
  {
    var s := Start(pending, writes, sink, events, false);
    var cfg := Config(bufferSize, notify, None);
    LoopWithoutFaults(s, cfg);
    LoopAtEndCopiedAll(s, cfg);
  }

  /** An Error is reported only after a failing read or write, and its message always names the
      output stream: a failing read leaves the last count at 0 or at a chunk size, never -1. */
  lemma ErrorNeedsFault(pending: seq<ReadStep>, writes: seq<WriteStep>, sink: seq<byte>,
                        events: seq<Event>, doStop: bool, cfg: Config)
    requires cfg.bufferSize > 0
    ensures var o := RunOutcome(Start(pending, writes, sink, events, doStop), cfg);
      o.ending.errorMessage.Some? ==>
        (!NoReadFail(pending) || !NoWriteFail(writes))
        && o.ending.errorMessage.value == WriteFailure + ": " + o.exit.failure.value
  {
    LoopFailureKeepsCount(Start(pending, writes, sink, events, doStop), cfg);
  }

  /** A read that throws before anything else happens is reported as a write failure. */
  lemma ReadFailureReportedAsWriteFailure(cause: string, rest: seq<ReadStep>, writes: seq<WriteStep>,
                                          sink: seq<byte>, events: seq<Event>, notify: bool, bufferSize: nat)
    requires bufferSize > 0
    ensures var o := RunOutcome(Start([ReadFail(cause)] + rest, writes, sink, events, false), Config(bufferSize, notify, None));
      Verdict(o.ending) == [Error(WriteFailure + ": " + cause)] && o.exit.state.sink == sink
  {
    var s := Start([ReadFail(cause)] + rest, writes, sink, events, false);
    assert Step(s, Config(bufferSize, notify, None)).Finished?;
  }

  /** run() closes the streams only when a stop was requested, before or during the run. */
  lemma OnlyStopClosesStreams(pending: seq<ReadStep>, writes: seq<WriteStep>, sink: seq<byte>,
                              events: seq<Event>, doStop: bool, cfg: Config)
    requires cfg.bufferSize > 0
    ensures RunOutcome(Start(pending, writes, sink, events, doStop), cfg).ending.closesStreams ==>
      doStop || cfg.stop.Some?
  {
    if !doStop && cfg.stop.None? {
      LoopUnaskedNeverStops(Start(pending, writes, sink, events, doStop), cfg);
    }
  }

  /** A stop seen before the outcome is decided silences the listener and closes the streams. */
  lemma StoppedRunReportsNothing(pending: seq<ReadStep>, writes: seq<WriteStep>, sink: seq<byte>,
                                 events: seq<Event>, cfg: Config)
    requires cfg.bufferSize > 0
    ensures var o := RunOutcome(Start(pending, writes, sink, events, true), cfg);
      Verdict(o.ending) == [] && o.ending.closesStreams && o.exit.state.sink == sink
  {
    var s := Start(pending, writes, sink, events, true);
    assert Step(s, cfg).Finished?;
  }

  /** A stop that lands after the outcome was decided (at the end-of-stream check or in the
      catch block) but before the flag is read at line 158 closes the streams, and the run
      still reports what it decided: Done, or the error. */
  lemma LateStopStillReports(pending: seq<ReadStep>, writes: seq<WriteStep>, sink: seq<byte>,
                             events: seq<Event>, cfg: Config)
    requires cfg.bufferSize > 0
    ensures var o := RunOutcome(Start(pending, writes, sink, events, false), cfg); var x := o.exit;
      ReadsFlagToDecide(x) && cfg.stop == Some(ClosingPoll(x)) ==>
        o.ending.closesStreams && !o.ending.stopped
        && Verdict(o.ending) == if x.failure.None? then [Done] else [Error(WriteFailure + ": " + x.failure.value)]
  {
    var s := Start(pending, writes, sink, events, false);
    LoopStopsAtRequest(s, cfg);
  }

  /** A close() that lands at the k-th check of the loop ends the loop right there, at the k-th
      flag read, and the run reports nothing and closes the streams; one that lands later leaves
      the loop undisturbed. The run is silenced exactly when the close() lands at or before the
      read that decides the outcome. */
  lemma StopRequestSilencesRun(pending: seq<ReadStep>, writes: seq<WriteStep>, sink: seq<byte>,
                               events: seq<Event>, cfg: Config, k: nat)
    requires cfg.bufferSize > 0 && cfg.stop == Some(k)
    ensures var o := RunOutcome(Start(pending, writes, sink, events, false), cfg); var t := o.exit.state;
      (k < t.polls ==>
        t.doStop && t.polls == k + 1 && o.exit.failure.None?
        && Verdict(o.ending) == [] && o.ending.closesStreams)
      && (t.polls <= k ==> !t.doStop)
      && (o.ending.stopped <==> k < t.polls || (k == t.polls && ReadsFlagToDecide(o.exit)))
  {
    var s := Start(pending, writes, sink, events, false);
    LoopStopsAtRequest(s, cfg);
  }

  /** A close() that lands after run() has read the flag for the last time, but before it marks
      the thread exited, finds the thread still running: it raises the flag, which nobody reads
      again, and the streams stay open. */
  lemma LateCloseLeavesStreamsOpen(pending: seq<ReadStep>, writes: seq<WriteStep>, sink: seq<byte>,
                                   events: seq<Event>, cfg: Config)
    requires cfg.bufferSize > 0
    requires cfg.stop == Some(ClosingPoll(Loop(Start(pending, writes, sink, events, false), cfg)) + 1)
    ensures var o := RunOutcome(Start(pending, writes, sink, events, false), cfg);
      o.ending.stopFlag && !o.ending.closesStreams && !o.ending.stopped
  {
    LoopStopsAtRequest(Start(pending, writes, sink, events, false), cfg);
  }
}
