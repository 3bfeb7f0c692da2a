# StreamCopyingThread: the relay task of the connection bridge

On Android, Thali's connection bridge joins a peer-to-peer transport connection to a local
TCP socket. It does this with two `StreamCopyingThread`s, one per direction. Each thread copies
an `InputStream` to an `OutputStream` until one of three things happens:

- the input reaches end-of-stream;
- somebody calls `close()`;
- an `IOException` is thrown.

It then tells a `Listener` how it ended:

- `onStreamCopyingThreadDone` at end-of-stream;
- `onStreamCopyError` with a message after an I/O failure;
- nothing when it was stopped.

If progress notifications are on, it also calls `onStreamCopySucceeded` after every chunk that
was read and written. It closes the two streams itself only when it was stopped. Closing is
guarded by an `isClosed` flag, so the streams are closed at most once.

This project models that class in Dafny and proves what it does.

## Layout

- `io.dfy` (module `Io`): scripted stand-ins for the two java.io streams.
  - An `InputStream` holds the outcomes of its future reads, in order: `Chunk(bytes)` or `ReadFail(cause)`. Once the script is used up, `read` returns -1.
  - A read never returns more than the buffer holds. The rest of the chunk stays for the next read.
  - An `OutputStream` records the bytes it has accepted. It holds the outcomes of its future writes (`WriteOk` or `WriteFail(cause)`), and writes past the end of that script succeed.
  - The input stream counts its `close` calls; the output stream counts its `flush` and `close` calls. Each of these calls may be set up to throw.
  - `ReadOn` and `WriteOn` are the same semantics written as functions.
- `copy_spec.dfy` (module `CopySpec`): what `run()` does, written as functions over values.
  - `Step` is one evaluation of the loop condition, followed by one read, write and notification. `Transfer` is the part after the stop flag was found down.
  - `Loop` is the whole `while` loop inside its `try`.
  - `Conclude` is everything after the loop: the end-of-stream check, the `catch` block, and the check that decides whether to close the streams.
  - `ErrorMessage` builds the error text. `Verdict` and `Events` give the resulting listener calls. `RunOutcome` is a whole run.
- `copy_properties.dfy` (module `CopyProperties`): lemmas about `Loop` and `RunOutcome`.
- `stream_copying_thread.dfy` (module `StreamCopying`): the class and its listener.
  - The class `StreamCopyingThread` has the fields `bufferSize`, `notifyProgress`, `doStop`, `hasThreadExited` and `isClosed`, and the source's methods.
  - `Run` is split into `CopyLoop` (the `while` loop), `CopyTurn` (one evaluation of its condition), `CopyChunk` (one iteration of its body) and `Finish` (everything after the `try`).
  - Each of these is proved equal to its counterpart in `CopySpec`. `Run` allocates the buffer as an `array` and reuses it for every read.
  - `Listener` records the calls it receives as a log of `Event`s.

## How a concurrent close() is modelled

`close()` runs on another thread. It sets the plain field `mDoStop`, and `run()` reads that
field at several points:

- each time it evaluates the loop condition;
- at the end-of-stream check (line 132), but only when the last count is -1, because `&&` short-circuits;
- in the `catch` block;
- just before it decides whether to close the streams (line 158).

The flag is never lowered again. So one parameter, `stop: Option<nat>`, describes where the first
`close()` lands relative to these reads. `Some(k)` means that it lands just before the k-th read
of the flag. One past the last read means that it lands after line 158 but before `run()` sets
`mHasThreadExited` (line 175). `None` means that it does not land while `run()` runs.
`ObserveStop` makes that `close()` call for real. While the thread runs, `hasThreadExited` is
false, so the call only raises the flag. A `close()` after `run()` has returned is `Close`
called on the exited thread.

## Behaviour worth knowing

- **The read-failure message cannot occur.** A `read` that throws does not assign
  `numberOfBytesRead`. That variable starts at 0, and once it becomes -1 the loop has already ended
  without an exception. So the `catch` block never sees -1. Every failure, including a failing
  read, is reported as "Failed to write to the output stream: …". The model keeps this as written.
  `ErrorNeedsFault` and `ReadFailureReportedAsWriteFailure` prove it.
- **A stop after the outcome is decided still closes the streams.** Suppose the stop lands after
  the end-of-stream check or the `catch` block, but before line 158. Then the run still reports
  Done or the error, and then closes the streams. `LateStopStillReports` proves this. A stop
  seen earlier silences the listener (`Conclude`, `StoppedRunReportsNothing`). A stop that lands
  at a check of the loop ends the loop at that check (`StopRequestSilencesRun`).
- **A close() just before the thread exits leaves the streams open.** Suppose a `close()` lands
  after line 158 but before line 175. It still sees `mHasThreadExited` false, so it skips
  `closeStreams()` and only raises the flag, which `run()` never reads again. The streams stay
  open although `close()` was called (`LateCloseLeavesStreamsOpen`).

## Model

| member | source | states |
|---|---|---|
| `Io.ReadOn` | src/android/java/io/jxcore/node/StreamCopyingThread.java:115 | a read returns -1 exactly when the input is exhausted; otherwise it returns a count between 0 and the buffer size, and that many bytes are stored; the script's measure goes down on every read of a non-empty script |
| `Io.ReadOnKeepsData` | src/android/java/io/jxcore/node/StreamCopyingThread.java:115 | a read that returns data hands back the front of the input's data and leaves the rest in order; it never drops or invents a failing read |
| `Io.ReadOnFailure` | src/android/java/io/jxcore/node/StreamCopyingThread.java:115 | a read throws only at the script's next failing step; a script without failures never throws; an exhausted input stays exhausted |
| `Io.WriteOn` | src/android/java/io/jxcore/node/StreamCopyingThread.java:122 | a write throws exactly when the next scripted outcome is a failure, with that cause; each write uses up one outcome |
| `Io.InputStream.Read` | src/android/java/io/jxcore/node/StreamCopyingThread.java:115 | `read(buffer)` on the scripted stream: the result, the stored bytes and the remaining script are those of `ReadOn` |
| `Io.InputStream.Close` | src/android/java/io/jxcore/node/StreamCopyingThread.java:197 | every close is counted, and it throws only if the stream is set up to fail |
| `Io.OutputStream.Write` | src/android/java/io/jxcore/node/StreamCopyingThread.java:122 | `write(buffer, 0, n)` appends exactly `buffer[0..n]` when it succeeds and nothing when it throws |
| `Io.OutputStream.Flush` | src/android/java/io/jxcore/node/StreamCopyingThread.java:151-156 | every flush is counted, and it throws only if the stream is set up to fail |
| `Io.OutputStream.Close` | src/android/java/io/jxcore/node/StreamCopyingThread.java:204 | every close is counted, and it throws only if the stream is set up to fail |
| `CopySpec.Step` | src/android/java/io/jxcore/node/StreamCopyingThread.java:115-130 | a turn that goes on reads a non-empty script, shrinks its measure and leaves a count of at least 0 |
| `CopySpec.Transfer` | src/android/java/io/jxcore/node/StreamCopyingThread.java:115-130 | the loop body after the flag was found down: a body that goes on shrinks the input script and leaves a count of at least 0 |
| `CopySpec.StepContinues` | src/android/java/io/jxcore/node/StreamCopyingThread.java:115-130 | a completed turn moves one chunk of at most the buffer size, in order, from source to sink; it adds that size to both byte counters and appends exactly one `Progress(size)` when notifications are on and none otherwise; the flag stays down |
| `CopySpec.StepFinishes` | src/android/java/io/jxcore/node/StreamCopyingThread.java:115-148 | a turn that leaves the loop logs nothing; it leaves at -1 only on an exhausted script with the flag down, and on a raised flag with the count unchanged; it leaves on an exception only after a failing read or write, with a count that is not -1 |
| `CopySpec.Loop` | src/android/java/io/jxcore/node/StreamCopyingThread.java:115-130 | the `while` loop ends after at least one read of the flag; a loop entered with the flag up copies and logs nothing; an exception never ends it with the flag up or with the count at -1 (the other loop properties are the `CopyProperties.Loop…` lemmas) |
| `CopySpec.ErrorMessage` | src/android/java/io/jxcore/node/StreamCopyingThread.java:139-147 | the message starts with the read-failure text when the last count is -1 and with the write-failure text otherwise, followed by ": ", and ends with the exception's message |
| `CopySpec.Conclude` | src/android/java/io/jxcore/node/StreamCopyingThread.java:132-175 | Done and Error exclude each other; Done iff the loop ended at -1 and no stop had been seen; Error iff an exception ended it and no stop had been seen; the message is keyed on the last count; a stop is seen iff the flag was up when the loop ended or a `close()` lands at the read that decides the outcome; the streams are closed iff a stop was seen or a `close()` lands at the line-158 read; the flag ends up raised iff, in addition, a `close()` lands between line 158 and line 175 |
| `CopySpec.RunOutcome` | src/android/java/io/jxcore/node/StreamCopyingThread.java:102-176 | a run reports at most one of Done and Error; a run entered with the flag up reports nothing, copies nothing and closes the streams; an error always carries the write-failure text (the other properties of a run are the lemmas from `DoneMeansEverythingCopied` to `LateCloseLeavesStreamsOpen`) |
| `CopyProperties.LoopKeepsOrder` | src/android/java/io/jxcore/node/StreamCopyingThread.java:115-130 | whatever ends the loop, the sink only grew, by a prefix of the input's data in order, and the written-bytes counter grew by exactly that many bytes |
| `CopyProperties.LoopAtEndCopiedAll` | src/android/java/io/jxcore/node/StreamCopyingThread.java:115-132 | a loop that ends at end-of-stream saw no failing read and copied all of the input's data, in order; bytes read equal bytes written |
| `CopyProperties.LoopWithoutFaults` | src/android/java/io/jxcore/node/StreamCopyingThread.java:115-137 | without failing reads or writes no exception ends the loop; with no stop either, it ends at end-of-stream with the flag down |
| `CopyProperties.LoopUnaskedNeverStops` | src/android/java/io/jxcore/node/StreamCopyingThread.java:52 | only a stop request raises the flag |
| `CopyProperties.LoopFailureKeepsCount` | src/android/java/io/jxcore/node/StreamCopyingThread.java:105-148 | when an exception ends the loop, the last recorded count is at least 0, and a read or a write in the scripts did fail |
| `CopyProperties.LoopStopsAtRequest` | src/android/java/io/jxcore/node/StreamCopyingThread.java:115 | the flag is up when the loop ends iff it was up on entry or a `close()` landed at one of the loop's checks; a `close()` landing at check k ends the loop at that check; an exception never ends the loop with the flag up |
| `CopyProperties.LoopOnlyLogsProgress` | src/android/java/io/jxcore/node/StreamCopyingThread.java:127-129 | the loop only appends `Progress` events, each of at most one buffer, and none when notifications are off |
| `CopyProperties.LoopProgressAddsUp` | src/android/java/io/jxcore/node/StreamCopyingThread.java:121-129 | with notifications on, the progress counts add up to the bytes written |
| `CopyProperties.DoneMeansEverythingCopied` | src/android/java/io/jxcore/node/StreamCopyingThread.java:132-136 | a run that reports Done saw no failing read and no stop; it copied the input's data completely and in order, and read exactly as many bytes as it wrote |
| `CopyProperties.UndisturbedRunIsDone` | src/android/java/io/jxcore/node/StreamCopyingThread.java:111-168 | with no failing read or write and no stop, the listener calls after the loop are exactly `[Done]`, the sink gets all data, and the streams stay open |
| `CopyProperties.ErrorNeedsFault` | src/android/java/io/jxcore/node/StreamCopyingThread.java:137-148 | an error is reported only after a failing read or write, and its message is always "Failed to write to the output stream: " followed by the cause |
| `CopyProperties.ReadFailureReportedAsWriteFailure` | src/android/java/io/jxcore/node/StreamCopyingThread.java:105 | a first read that throws is reported as "Failed to write to the output stream: " followed by the cause |
| `CopyProperties.OnlyStopClosesStreams` | src/android/java/io/jxcore/node/StreamCopyingThread.java:158-160 | `run()` closes the streams only if a stop was requested, before or during the run |
| `CopyProperties.StoppedRunReportsNothing` | src/android/java/io/jxcore/node/StreamCopyingThread.java:115-160 | a run started with the flag up copies nothing, reports nothing and closes the streams |
| `CopyProperties.LateStopStillReports` | src/android/java/io/jxcore/node/StreamCopyingThread.java:132-168 | a stop that lands after the end-of-stream check or the `catch` block has decided the outcome, but before the line-158 read, closes the streams, and the run still reports Done, or the error with its write-failure message |
| `CopyProperties.StopRequestSilencesRun` | src/android/java/io/jxcore/node/StreamCopyingThread.java:115-168 | a `close()` that lands at the k-th loop check ends the loop at that check with no exception; the run then reports nothing and closes the streams; a `close()` landing later leaves the flag down through the loop; the run is silenced iff the `close()` lands at or before the read that decides the outcome |
| `CopyProperties.LateCloseLeavesStreamsOpen` | src/android/java/io/jxcore/node/StreamCopyingThread.java:158-189 | a `close()` that lands after the last flag read and before the thread is marked exited raises the flag, but the streams are not closed and the outcome is reported |
| `StreamCopying.Listener.OnStreamCopyingThreadDone` | src/android/java/io/jxcore/node/StreamCopyingThread.java:22 | appends `Done` to the log |
| `StreamCopying.Listener.OnStreamCopyError` | src/android/java/io/jxcore/node/StreamCopyingThread.java:30 | appends `Error(message)` to the log |
| `StreamCopying.Listener.OnStreamCopySucceeded` | src/android/java/io/jxcore/node/StreamCopyingThread.java:40 | appends `Progress(n)` to the log |
| `StreamCopying.StreamCopyingThread.constructor` | src/android/java/io/jxcore/node/StreamCopyingThread.java:44-73 | a fresh relay has buffer size 4096, notifications off, all three flags down, and the given listener and streams, which it does not touch |
| `StreamCopying.StreamCopyingThread.SetBufferSize` | src/android/java/io/jxcore/node/StreamCopyingThread.java:75-83 | succeeds and sets the size exactly when `0 < n <= 8192`; otherwise it returns the IllegalArgumentException's message and keeps the old size |
| `StreamCopying.StreamCopyingThread.SetNotifyStreamCopyingProgress` | src/android/java/io/jxcore/node/StreamCopyingThread.java:92-94 | sets the notification switch |
| `StreamCopying.StreamCopyingThread.CloseStreams` | src/android/java/io/jxcore/node/StreamCopyingThread.java:194-216 | closes input and output once each on the first call, even if those closes throw, and sets `isClosed`; later calls close nothing |
| `StreamCopying.StreamCopyingThread.Close` | src/android/java/io/jxcore/node/StreamCopyingThread.java:181-189 | always raises the stop flag; closes the streams, at most once, only when the thread has already exited |
| `StreamCopying.StreamCopyingThread.ObserveStop` | src/android/java/io/jxcore/node/StreamCopyingThread.java:188 | the flag's value at its k-th read is its old value or'ed with "a `close()` lands here"; nothing is closed while the thread runs |
| `StreamCopying.StreamCopyingThread.CopyTurn` | src/android/java/io/jxcore/node/StreamCopyingThread.java:115-130 | one evaluation of the loop condition plus the body changes the streams, the listener and the locals exactly as `CopySpec.Step` says |
| `StreamCopying.StreamCopyingThread.CopyChunk` | src/android/java/io/jxcore/node/StreamCopyingThread.java:115-130 | one read into the reused buffer, write and notification, exactly as `CopySpec.Transfer` says |
| `StreamCopying.StreamCopyingThread.CopyLoop` | src/android/java/io/jxcore/node/StreamCopyingThread.java:114-137 | the loop ends in the state and with the exception that `CopySpec.Loop` gives, and closes nothing |
| `StreamCopying.StreamCopyingThread.Finish` | src/android/java/io/jxcore/node/StreamCopyingThread.java:132-175 | after the loop: flushes exactly once whatever happened; the listener gets the calls of `CopySpec.Conclude` in order; the streams are closed (at most once) iff the flag is up at line 158; a `close()` landing after that only raises the flag; the thread is marked exited |
| `StreamCopying.StreamCopyingThread.Run` | src/android/java/io/jxcore/node/StreamCopyingThread.java:102-176 | the whole run leaves the streams, the listener, the flags and the close and flush counts exactly as `CopySpec.RunOutcome` from the entry state says; buffer size, notification switch and the streams' fault settings are unchanged |

## Left out

- `src/ios/Utility/THESessionDictionary.h` declares two methods and has no implementation. Its behaviour lives in `THEProtectedMutableDictionary` and `THEMultipeerPeerSession`, which are not part of this model.
- Real threads and data races. `mDoStop` and `mHasThreadExited` are unsynchronised plain fields. A concurrent `close()` is modelled as landing between two reads of the stop flag, never in the middle of a statement. Java's memory model, where a write may never become visible, is not modelled. A `close()` that arrives after `run()` has returned is the method `Close` called with `hasThreadExited` set.
- `Thread.start()`, `getId()`, and calling `run()` twice. `Run` requires that the thread has not exited yet.
- `Log` calls have no effect in the model. `threadName` is kept as a field, but it is only used in log lines.
- The listener's `who` argument is not recorded. The log keeps only the kind of call and its argument.
- `totalNumberOfBytesRead` and `totalNumberOfBytesWritten` are Java `long`s, and `numberOfBytesRead` is an `int`. The model's counters are unbounded, so overflow is not modelled. Outside the lemmas, the counters only feed the exit log line.
- Exception messages are plain strings. A `null` message from `getMessage()` is not modelled.
- `mNotifyStreamCopyingProgress` is read again on every turn of the loop (line 127), so a concurrent `setNotifyStreamCopyingProgress` could switch notifications on or off in the middle of a run. The model reads the switch once, when the run starts, and keeps it for the whole run.
- Only the first `close()` during a run is placed by `stop`. Later calls only raise a flag that is already up, so they change nothing until the thread has exited.
- `Io.OutputStream.Write`: a write that throws accepts no bytes. A partial write followed by an exception is not modelled.
- `Io.InputStream.Read`: an empty chunk makes `read` return 0. Real streams with a non-empty buffer block instead of returning 0. This has no effect on any of the properties above.
- `SetBufferSize` returns the IllegalArgumentException's message instead of throwing.
