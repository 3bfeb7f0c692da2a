/** The relay task: a thread that copies an input stream to an output stream, tells a listener
    how it ended, and can be stopped from outside. */
module StreamCopying {
  import opened Io
  import opened CopySpec

  /** The listener, as the log of the calls it receives. */
  class Listener {
    var events: seq<Event>

    constructor ()
      ensures events == []
    {
      events := [];
    }

    method OnStreamCopyingThreadDone()
      modifies this
      ensures events == old(events) + [Done]
    {
      events := events + [Done];
    }

    method OnStreamCopyError(errorMessage: string)
      modifies this
      ensures events == old(events) + [Error(errorMessage)]
    {
      events := events + [Error(errorMessage)];
    }

    method OnStreamCopySucceeded(numberOfBytes: nat)
      modifies this
      ensures events == old(events) + [Progress(numberOfBytes)]
    {
      events := events + [Progress(numberOfBytes)];
    }
  }

  class StreamCopyingThread {
    const listener: Listener
    const input: InputStream
    const output: OutputStream
    const threadName: string
    var bufferSize: int
    var notifyProgress: bool
    var doStop: bool
    var hasThreadExited: bool
    var isClosed: bool

    /** The buffer size always lies in (0, MaximumBufferSize]. */
    ghost predicate Valid()
      reads this
    {
      ValidBufferSize(bufferSize)
    }

    /** The streams stay the caller's: constructing the relay touches neither. */
    constructor (listener: Listener, input: InputStream, output: OutputStream, threadName: string)
      ensures Valid()
      ensures this.listener == listener && this.input == input && this.output == output
      ensures this.threadName == threadName
      ensures bufferSize == DefaultBufferSize && !notifyProgress
      ensures !doStop && !hasThreadExited && !isClosed
    {
      this.listener := listener;
      this.input := input;
      this.output := output;
      this.threadName := threadName;
      bufferSize := DefaultBufferSize;
      notifyProgress := false;
      doStop, hasThreadExited, isClosed := false, false, false;
    }

    /** Accepts a size in (0, MaximumBufferSize]; anything else is an IllegalArgumentException
        that leaves the size as it was. */
    method SetBufferSize(bufferSizeInBytes: int) returns (error: Option<string>)
      requires Valid()
      modifies this`bufferSize
      ensures Valid()
      ensures error.None? <==> 0 < bufferSizeInBytes <= MaximumBufferSize
      ensures bufferSize == if error.None? then bufferSizeInBytes else old(bufferSize)
      ensures error.Some? ==> error.value == "bufferSizeInBytes must be > 0 and less than 8192"
    {
      if bufferSizeInBytes > 0 && bufferSizeInBytes <= MaximumBufferSize {
        bufferSize := bufferSizeInBytes;
        error := None;
      } else {
        error := Some("bufferSizeInBytes must be > 0 and less than 8192");
      }
    }

    method SetNotifyStreamCopyingProgress(notify: bool)
      modifies this`notifyProgress
      ensures notifyProgress == notify
    {
      notifyProgress := notify;
    }

    /** Closes the input and then the output stream, once: later calls change nothing. A close
        that throws is only logged, and the relay counts as closed regardless. */
    method CloseStreams()
      modifies this`isClosed, input`closeCount, output`closeCount
      ensures isClosed
      ensures input.closeCount == old(input.closeCount) + if old(isClosed) then 0 else 1
      ensures output.closeCount == old(output.closeCount) + if old(isClosed) then 0 else 1
    {
      if !isClosed {
        var inputClosed := input.Close();
        var outputClosed := output.Close();
        isClosed := true;
      }
    }

    /** Asks the thread to stop; the streams are closed here only when the thread has already
        exited (otherwise the thread closes them itself on its way out). */
    method Close()
      modifies this`doStop, this`isClosed, input`closeCount, output`closeCount
      ensures doStop
      ensures isClosed == (old(isClosed) || old(hasThreadExited))
      ensures input.closeCount == old(input.closeCount) + if old(hasThreadExited) && !old(isClosed) then 1 else 0
      ensures output.closeCount == old(output.closeCount) + if old(hasThreadExited) && !old(isClosed) then 1 else 0
    {
      if hasThreadExited {
        CloseStreams();
      }
      doStop := true;
    }

    /** The `poll`-th read of the stop flag during run(); a close() from another thread that
        lands just before it is performed here. */
    method ObserveStop(poll: nat, stop: Option<nat>) returns (stopping: bool)
      requires !hasThreadExited
      modifies this`doStop, this`isClosed, input`closeCount, output`closeCount
      ensures doStop == Seen(old(doStop), stop, poll) && stopping == doStop
      ensures unchanged(this`isClosed, input`closeCount, output`closeCount)
    {
      if stop == Some(poll) {
        Close();
      }
      stopping := doStop;
    }

    /** The copy loop's view of this relay and its collaborators, given run()'s locals. */
    ghost function Snapshot(bytesRead: int, totalRead: nat, totalWritten: nat, polls: nat): Copy
      reads this, input, output, listener
    {
      Copy(input.pending, output.writes, output.written, listener.events,
           bytesRead, totalRead, totalWritten, polls, doStop)
    }

    /** One evaluation of the loop condition of run() and, when it holds, one read, one write
        and, if enabled, one progress notification: exactly CopySpec.Step. */
    method CopyTurn(buffer: array<byte>, stop: Option<nat>, numberOfBytesRead: int, totalRead: nat, totalWritten: nat, polls: nat)
      returns (copying: bool, failure: Option<string>, bytesRead': int, totalRead': nat, totalWritten': nat, polls': nat)
      requires !hasThreadExited && buffer.Length == bufferSize > 0 && numberOfBytesRead >= 0
      modifies this`doStop, this`isClosed, input`pending, input`closeCount, buffer
      modifies output`written, output`writes, output`closeCount, listener
      ensures unchanged(this`isClosed, input`closeCount, output`closeCount)
      ensures copying ==> failure.None? && bytesRead' >= 0
      ensures Step(old(Snapshot(numberOfBytesRead, totalRead, totalWritten, polls)), Config(bufferSize, notifyProgress, stop))
        == var now := Snapshot(bytesRead', totalRead', totalWritten', polls');
           if copying then Continue(now) else Finished(Exit(now, failure))
    {
      ghost var cfg := Config(bufferSize, notifyProgress, stop);
      ghost var s := Snapshot(numberOfBytesRead, totalRead, totalWritten, polls);
      var stopping := ObserveStop(polls, stop);
      polls' := polls + 1;
      assert Snapshot(numberOfBytesRead, totalRead, totalWritten, polls') == s.(polls := polls', doStop := stopping);
      if stopping {
        copying, failure := false, None;
        bytesRead', totalRead', totalWritten' := numberOfBytesRead, totalRead, totalWritten;
      } else {
        copying, failure, bytesRead', totalRead', totalWritten' :=
          CopyChunk(buffer, stop, numberOfBytesRead, totalRead, totalWritten, polls');
      }
    }

    /** The body of the copy loop: read into the buffer, write what was read, notify progress;
        exactly CopySpec.Transfer. */
    method CopyChunk(buffer: array<byte>, stop: Option<nat>, numberOfBytesRead: int, totalRead: nat, totalWritten: nat, polls: nat)
      returns (copying: bool, failure: Option<string>, bytesRead': int, totalRead': nat, totalWritten': nat)
      requires buffer.Length == bufferSize > 0
      modifies input`pending, buffer, output`written, output`writes, listener
      ensures copying ==> failure.None? && bytesRead' >= 0
      ensures Transfer(old(Snapshot(numberOfBytesRead, totalRead, totalWritten, polls)), Config(bufferSize, notifyProgress, stop))
        == var now := Snapshot(bytesRead', totalRead', totalWritten', polls);
           if copying then Continue(now) else Finished(Exit(now, failure))
    {
      ghost var cfg := Config(bufferSize, notifyProgress, stop);
      ghost var s := Snapshot(numberOfBytesRead, totalRead, totalWritten, polls);
      ghost var d := ReadOn(s.pending, bufferSize);
      copying, failure := false, None;
      bytesRead', totalRead', totalWritten' := numberOfBytesRead, totalRead, totalWritten;
      var r := input.Read(buffer);
      if r.IOError? {
        failure := Some(r.message);
        assert Transfer(s, cfg) == Finished(Exit(s.(pending := d.rest), failure));
        return;
      }
      bytesRead' := r.value;
      if bytesRead' == -1 {
        assert Transfer(s, cfg) == Finished(Exit(s.(pending := d.rest, bytesRead := -1), None));
        return;
      }
      ghost var s3 := s.(pending := d.rest, bytesRead := bytesRead', totalRead := totalRead + bytesRead');
      ghost var wo := WriteOn(s.writes);
      totalRead' := totalRead + bytesRead';
      var w := output.Write(buffer, 0, bytesRead');
      if w.IOError? {
        failure := Some(w.message);
        assert Transfer(s, cfg) == Finished(Exit(s3.(writes := wo.1), failure));
        return;
      }
      assert buffer[0..bytesRead'] == d.bytes;
      totalWritten' := totalWritten + bytesRead';
      if notifyProgress {
        listener.OnStreamCopySucceeded(bytesRead');
      }
      copying := true;
      assert Transfer(s, cfg) == Continue(s3.(writes := wo.1, sink := s.sink + d.bytes,
        totalWritten := totalWritten', events := listener.events));
    }

    /** `while (!mDoStop && (numberOfBytesRead = read(buffer)) != -1) { ... }` inside its try
        block: ends where CopySpec.Loop ends, with the message of the IOException, if any. */
    method CopyLoop(buffer: array<byte>, stop: Option<nat>)
      returns (failure: Option<string>, numberOfBytesRead: int, totalRead: nat, totalWritten: nat, polls: nat)
      requires !hasThreadExited && buffer.Length == bufferSize > 0
      modifies this`doStop, this`isClosed, input`pending, input`closeCount, buffer
      modifies output`written, output`writes, output`closeCount, listener
      ensures unchanged(this`isClosed, input`closeCount, output`closeCount)
      ensures Exit(Snapshot(numberOfBytesRead, totalRead, totalWritten, polls), failure)
        == Loop(old(Snapshot(0, 0, 0, 0)), Config(bufferSize, notifyProgress, stop))
    {
      ghost var cfg := Config(bufferSize, notifyProgress, stop);
      ghost var s0 := Snapshot(0, 0, 0, 0);
      numberOfBytesRead, totalRead, totalWritten, polls := 0, 0, 0, 0;
      failure := None;
      var copying := true;
      while copying
        invariant unchanged(this`isClosed, input`closeCount, output`closeCount)
        invariant copying ==> failure.None? && numberOfBytesRead >= 0
        invariant copying ==>
          Loop(Snapshot(numberOfBytesRead, totalRead, totalWritten, polls), cfg) == Loop(s0, cfg)
        invariant !copying ==>
          Exit(Snapshot(numberOfBytesRead, totalRead, totalWritten, polls), failure) == Loop(s0, cfg)
        decreases copying, Size(input.pending)
      {
        ghost var before := Snapshot(numberOfBytesRead, totalRead, totalWritten, polls);
        copying, failure, numberOfBytesRead, totalRead, totalWritten, polls :=
          CopyTurn(buffer, stop, numberOfBytesRead, totalRead, totalWritten, polls);
        assert Loop(before, cfg) == match Step(before, cfg)
          case Continue(n) => Loop(n, cfg)
          case Finished(x) => x;
      }
    }

    /** What run() does after its try block: decide the outcome (the end-of-stream check, or the
        catch block), flush the output whatever happened (a failing flush is only logged), close
        the streams if the stop flag is up, report Done or the error, and mark the thread exited.
        A close() that lands after the last flag read and before that mark only raises the flag.
        The byte counters only feed the exit log line. */
    method Finish(failure: Option<string>, numberOfBytesRead: int, totalRead: nat, totalWritten: nat, polls: nat, stop: Option<nat>)
      requires !hasThreadExited
      modifies this`doStop, this`isClosed, this`hasThreadExited, input`closeCount
      modifies output`closeCount, output`flushCount, listener
      ensures hasThreadExited
      ensures var e := Conclude(Exit(old(Snapshot(numberOfBytesRead, totalRead, totalWritten, polls)), failure), stop);
        listener.events == old(listener.events) + Verdict(e)
        && doStop == e.stopFlag
        && isClosed == (old(isClosed) || e.closesStreams)
        && input.closeCount == old(input.closeCount) + (if e.closesStreams && !old(isClosed) then 1 else 0)
        && output.closeCount == old(output.closeCount) + (if e.closesStreams && !old(isClosed) then 1 else 0)
        && output.flushCount == old(output.flushCount) + 1
    {
      ghost var e := Conclude(Exit(Snapshot(numberOfBytesRead, totalRead, totalWritten, polls), failure), stop);
      var isDone := false;
      var errorMessage: Option<string> := None;
      var poll := polls;
      if failure.None? {
        if numberOfBytesRead == -1 {
          var stopping := ObserveStop(poll, stop);
          poll := poll + 1;
          isDone := !stopping;
        }
      } else {
        var stopping := ObserveStop(poll, stop);
        poll := poll + 1;
        if !stopping {
          errorMessage := Some(ErrorMessage(numberOfBytesRead, failure.value));
        }
      }
      assert isDone == e.isDone && errorMessage == e.errorMessage;

      var flushed := output.Flush();

      var stopping := ObserveStop(poll, stop);
      if stopping {
        CloseStreams();
      }
      if isDone {
        listener.OnStreamCopyingThreadDone();
      }
      if errorMessage.Some? {
        listener.OnStreamCopyError(errorMessage.value);
      }
      // A close() that lands here still finds the thread running: it only raises the flag.
      stopping := ObserveStop(poll + 1, stop);
      hasThreadExited := true;
    }

    /** Copies until end-of-stream, a stop or an IOException; flushes the output whatever
        happened; closes the streams only when the stop flag is up; then reports Done or the
        error. The result is the outcome of CopySpec.RunOutcome from the state on entry. */
    method Run(stop: Option<nat>)
      requires Valid() && !hasThreadExited
      modifies this`doStop, this`isClosed, this`hasThreadExited, input`pending, input`closeCount
      modifies output`written, output`writes, output`flushCount, output`closeCount, listener
      ensures Valid() && hasThreadExited
      ensures bufferSize == old(bufferSize) && notifyProgress == old(notifyProgress)
      ensures var o := RunOutcome(
                Start(old(input.pending), old(output.writes), old(output.written), old(listener.events), old(doStop)),
                Config(old(bufferSize), old(notifyProgress), stop));
        var t := o.exit.state;
        input.pending == t.pending && output.writes == t.writes && output.written == t.sink
        && listener.events == Events(o)
        && doStop == o.ending.stopFlag
        && isClosed == (old(isClosed) || o.ending.closesStreams)
        && input.closeCount == old(input.closeCount) + (if o.ending.closesStreams && !old(isClosed) then 1 else 0)
        && output.closeCount == old(output.closeCount) + (if o.ending.closesStreams && !old(isClosed) then 1 else 0)
        && output.flushCount == old(output.flushCount) + 1
    {
      var buffer := new byte[bufferSize];
      var failure, numberOfBytesRead, totalRead, totalWritten, polls := CopyLoop(buffer, stop);
      ghost var x := Exit(Snapshot(numberOfBytesRead, totalRead, totalWritten, polls), failure);
      assert x == Loop(old(Snapshot(0, 0, 0, 0)), Config(bufferSize, notifyProgress, stop));
      Finish(failure, numberOfBytesRead, totalRead, totalWritten, polls, stop);
    }
  }
}
