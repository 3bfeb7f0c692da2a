/** Scripted stand-ins for the java.io streams a relay copies between.
    An input stream holds, in order, what its successive reads will yield; an output stream
    records the bytes it has accepted and holds, in order, the outcome of its successive
    writes. The input stream counts its closes; the output stream counts its flushes and
    closes. */
module Io {

  /** A Java byte. */
  newtype byte = x: int | -128 <= x < 128

  datatype Option<+T> = None | Some(value: T)

  /** The result of a stream operation: a value, or an IOException with its message. */
  datatype IOResult<+T> = Ok(value: T) | IOError(message: string)

  /** One item of an input stream's script: data, or a read that throws. */
  datatype ReadStep = Chunk(bytes: seq<byte>) | ReadFail(cause: string)

  /** One item of an output stream's script: a write that succeeds, or one that throws. */
  datatype WriteStep = WriteOk | WriteFail(cause: string)

  /** The bytes a script delivers before its first failing read (all of them when none fails). */
  function Data(steps: seq<ReadStep>): seq<byte>
  {
    if steps == [] then []
    else match steps[0]
      case Chunk(b) => b + Data(steps[1..])
      case ReadFail(_) => []
  }

  predicate NoReadFail(steps: seq<ReadStep>)
  {
    forall i :: 0 <= i < |steps| ==> steps[i].Chunk?
  }

  predicate NoWriteFail(steps: seq<WriteStep>)
  {
    forall i :: 0 <= i < |steps| ==> steps[i].WriteOk?
  }

  function Weight(step: ReadStep): nat
  {
    match step
    case Chunk(b) => 1 + |b|
    case ReadFail(_) => 1
  }

  /** A measure that every read of a non-empty script decreases. */
  function Size(steps: seq<ReadStep>): nat
  {
    if steps == [] then 0 else Weight(steps[0]) + Size(steps[1..])
  }

  /** What one read hands back: InputStream.read's result, the bytes it stored, the rest of the script. */
  datatype Delivery = Delivery(result: IOResult<int>, bytes: seq<byte>, rest: seq<ReadStep>)

  /** InputStream.read(buffer) for a buffer of `capacity` bytes: -1 once the script is exhausted,
      otherwise at most `capacity` bytes of the next chunk (the remainder stays for the next read),
      or the exception of a failing read. */
  function ReadOn(pending: seq<ReadStep>, capacity: nat): (d: Delivery)
    requires capacity > 0
    ensures d.result == Ok(-1) <==> pending == []
    ensures d.result.Ok? ==> -1 <= d.result.value <= capacity
    ensures d.result.Ok? && d.result.value >= 0 ==> |d.bytes| == d.result.value
    ensures |d.bytes| <= capacity
    ensures pending != [] ==> Size(d.rest) < Size(pending)
  {
    if pending == [] then Delivery(Ok(-1), [], [])
    else match pending[0]
      case ReadFail(c) => Delivery(IOError(c), [], pending[1..])
      case Chunk(b) =>
        if |b| <= capacity then Delivery(Ok(|b|), b, pending[1..])
        else
          var rest := [Chunk(b[capacity..])] + pending[1..];
          assert rest[0] == Chunk(b[capacity..]) && rest[1..] == pending[1..];
          Delivery(Ok(capacity), b[..capacity], rest)
  }

  /** A read that returns data hands back the front of what the script delivers and leaves
      the rest, in order, without adding or removing a failing step. */
  lemma ReadOnKeepsData(pending: seq<ReadStep>, capacity: nat)
    requires capacity > 0
    ensures var d := ReadOn(pending, capacity);
      d.result.Ok? && d.result.value >= 0 ==>
        d.bytes + Data(d.rest) == Data(pending) && (NoReadFail(pending) <==> NoReadFail(d.rest))
  {
    if pending != [] && pending[0].Chunk? {
      var b := pending[0].bytes;
      var d := ReadOn(pending, capacity);
      if |b| <= capacity {
        assert d.rest == pending[1..];
        if NoReadFail(pending[1..]) {
          forall i | 0 <= i < |pending| ensures pending[i].Chunk? {
            if i > 0 { assert pending[i] == pending[1..][i - 1]; }
          }
        }
      } else {
        var rest := [Chunk(b[capacity..])] + pending[1..];
        assert d.rest == rest && d.bytes == b[..capacity];
        assert rest[0] == Chunk(b[capacity..]) && rest[1..] == pending[1..];
        assert Data(rest) == b[capacity..] + Data(pending[1..]);
        assert b[..capacity] + b[capacity..] == b;
        assert forall i :: 1 <= i < |rest| ==> rest[i] == pending[i];
      }
    }
  }

  /** A read that throws is the script's next failing step, a script without failing steps
      never throws, and an exhausted script stays exhausted. */
  lemma ReadOnFailure(pending: seq<ReadStep>, capacity: nat)
    requires capacity > 0
    ensures var d := ReadOn(pending, capacity);
      (d.result.IOError? ==> pending != [] && pending[0] == ReadFail(d.result.message))
      && (NoReadFail(pending) ==> d.result.Ok?)
      && (pending == [] ==> d.rest == [])
  {
    if pending != [] {
      assert NoReadFail(pending) ==> pending[0].Chunk?;
    }
  }

  /** OutputStream.write: the outcome of the next scripted write (success once the script is
      exhausted) and the script that remains. */
  function WriteOn(writes: seq<WriteStep>): (r: (IOResult<()>, seq<WriteStep>))
    ensures r.0.IOError? <==> writes != [] && writes[0].WriteFail?
    ensures r.0.IOError? ==> r.0.message == writes[0].cause
    ensures writes != [] ==> r.1 == writes[1..]
    ensures NoWriteFail(writes) ==> NoWriteFail(r.1)
  {
    if writes == [] then (Ok(()), [])
    else match writes[0]
      case WriteOk => (Ok(()), writes[1..])
      case WriteFail(c) => (IOError(c), writes[1..])
  }

  class InputStream {
    /** What the remaining reads will yield. */
    var pending: seq<ReadStep>
    /** The exception close() throws, if any. */
    var closeFault: Option<string>
    var closeCount: nat

    constructor (script: seq<ReadStep>, closeFault: Option<string>)
      ensures pending == script && this.closeFault == closeFault && closeCount == 0
    {
      pending := script;
      this.closeFault := closeFault;
      closeCount := 0;
    }

    method Read(buffer: array<byte>) returns (r: IOResult<int>)
      requires buffer.Length > 0
      modifies this`pending, buffer
      ensures var d := ReadOn(old(pending), buffer.Length);
        r == d.result && pending == d.rest && buffer[..|d.bytes|] == d.bytes
    {
      var d := ReadOn(pending, buffer.Length);
      forall i | 0 <= i < |d.bytes| {
        buffer[i] := d.bytes[i];
      }
      pending := d.rest;
      r := d.result;
    }

    method Close() returns (r: IOResult<()>)
      modifies this`closeCount
      ensures closeCount == old(closeCount) + 1
      ensures r == if closeFault.Some? then IOError(closeFault.value) else Ok(())
    {
      closeCount := closeCount + 1;
      r := if closeFault.Some? then IOError(closeFault.value) else Ok(());
    }
  }

  class OutputStream {
    /** Every byte the stream has accepted, in order. */
    var written: seq<byte>
    /** The outcomes of the next writes; writes beyond the script succeed. */
    var writes: seq<WriteStep>
    var flushFault: Option<string>
    var flushCount: nat
    var closeFault: Option<string>
    var closeCount: nat

    constructor (writes: seq<WriteStep>, flushFault: Option<string>, closeFault: Option<string>)
      ensures written == [] && this.writes == writes && flushCount == 0 && closeCount == 0
      ensures this.flushFault == flushFault && this.closeFault == closeFault
    {
      written := [];
      this.writes := writes;
      this.flushFault := flushFault;
      this.closeFault := closeFault;
      flushCount, closeCount := 0, 0;
    }

    /** write(buffer, offset, count): a failing write accepts nothing. */
    method Write(buffer: array<byte>, offset: nat, count: nat) returns (r: IOResult<()>)
      requires offset + count <= buffer.Length
      modifies this`written, this`writes
      ensures (r, writes) == WriteOn(old(writes))
      ensures written == if r.Ok? then old(written) + buffer[offset..offset + count] else old(written)
    {
      var outcome := WriteOn(writes);
      r, writes := outcome.0, outcome.1;
      if r.Ok? {
        written := written + buffer[offset..offset + count];
      }
    }

    method Flush() returns (r: IOResult<()>)
      modifies this`flushCount
      ensures flushCount == old(flushCount) + 1
      ensures r == if flushFault.Some? then IOError(flushFault.value) else Ok(())
    {
      flushCount := flushCount + 1;
      r := if flushFault.Some? then IOError(flushFault.value) else Ok(());
    }

    method Close() returns (r: IOResult<()>)
      modifies this`closeCount
      ensures closeCount == old(closeCount) + 1
      ensures r == if closeFault.Some? then IOError(closeFault.value) else Ok(())
    {
      closeCount := closeCount + 1;
      r := if closeFault.Some? then IOError(closeFault.value) else Ok(());
    }
  }
}
