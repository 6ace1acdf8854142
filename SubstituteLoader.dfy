/** The static initialiser of Spy: it opens the substitute class file as a
    resource stream, reads it to exhaustion through a 1024-byte buffer into a
    growing output buffer, and caches the result as the substitute image. */
module SubstituteLoader {
  import opened Java

  /** Size of the buffer the initialiser reads through. */
  const BufferSize: nat := 1024

  /** Detail message of the IOException the initialiser wraps any read or
      close failure in. */
  const ResourceHint: string := "Make sure to move the substitute Information class to the jar's root."

  /** The bytes one call of read(buffer) stores: never more than the buffer holds. */
  type Chunk = c: seq<bv8> | |c| <= BufferSize

  /** How the stream ends once its chunks are used up: read returns -1, or
      read throws. */
  datatype Ending = EndOfStream | Fault(error: IOException)

  /** The resource as the class loader's stream delivers it: the successive
      chunks read hands out, how the stream ends, and whether close throws. */
  datatype Resource = Resource(chunks: seq<Chunk>, ending: Ending, closeFault: Option<IOException>)

  /** The bytes of the chunks, in order. */
  function Concat(chunks: seq<seq<bv8>>): seq<bv8>
  {
    if chunks == [] then [] else Concat(chunks[..|chunks| - 1]) + chunks[|chunks| - 1]
  }

  /** Concat read from the front: the first chunk, then the rest. */
  lemma {:induction false} ConcatCons(c: seq<bv8>, cs: seq<seq<bv8>>)
    ensures Concat([c] + cs) == c + Concat(cs)
  {
    var all := [c] + cs;
    if cs == [] {
      assert all[..|all| - 1] == [];
    } else {
      assert all[..|all| - 1] == [c] + cs[..|cs| - 1];
      ConcatCons(c, cs[..|cs| - 1]);
    }
  }

  /** Chunks are kept in the order they are read: the bytes of the first i
      chunks, followed directly by chunk i, begin the whole output. */
  lemma {:induction false} ConcatPrefix(cs: seq<seq<bv8>>, i: nat)
    requires i < |cs|
    ensures Concat(cs[..i]) + cs[i] <= Concat(cs)
  {
    var init := cs[..|cs| - 1];
    if i < |cs| - 1 {
      assert init[..i] == cs[..i];
      ConcatPrefix(init, i);
    } else {
      assert init == cs[..i];
    }
  }

  /** Read sizes a stream may choose: every read that is not the last
      delivers between 1 and 1024 bytes. */
  ghost predicate ReadSizes(sizes: seq<nat>)
  {
    forall k :: 0 <= k < |sizes| ==> 0 < sizes[k] <= BufferSize
  }

  /** How many bytes the next read takes: its size, or what is left if
      that is less; once the sizes are used up, a full buffer. */
  function NextRead(data: seq<bv8>, sizes: seq<nat>): (m: nat)
    requires ReadSizes(sizes) && data != []
    ensures 0 < m <= |data| && m <= BufferSize
  {
    var n := if sizes == [] then BufferSize else sizes[0];
    if |data| < n then |data| else n
  }

  /** The sizes left for the reads after the next one. */
  function LaterSizes(sizes: seq<nat>): (r: seq<nat>)
    requires ReadSizes(sizes)
    ensures ReadSizes(r)
  {
    if sizes == [] then [] else sizes[1..]
  }

  /** The chunks a stream hands out for data when its successive reads aim
      at the given sizes. */
  function Split(data: seq<bv8>, sizes: seq<nat>): (r: seq<Chunk>)
    requires ReadSizes(sizes)
    ensures forall k :: 0 <= k < |r| ==> 0 < |r[k]|
    decreases |data|
  {
    if data == [] then []
    else
      var m := NextRead(data, sizes);
      [data[..m]] + Split(data[m..], LaterSizes(sizes))
  }

  /** However the stream sizes its reads, the chunks rejoin to the data. */
  lemma {:induction false} ConcatSplit(data: seq<bv8>, sizes: seq<nat>)
    requires ReadSizes(sizes)
    ensures Concat(Split(data, sizes)) == data
    decreases |data|
  {
    if data != [] {
      var m := NextRead(data, sizes);
      var later := Split(data[m..], LaterSizes(sizes));
      ConcatCons(data[..m], later);
      ConcatSplit(data[m..], LaterSizes(sizes));
      assert data[..m] + data[m..] == data;
    }
  }

  /** The length of each chunk, in order. */
  function Lengths(cs: seq<Chunk>): (r: seq<nat>)
    ensures |r| == |cs|
    ensures forall k :: 0 <= k < |cs| ==> r[k] == |cs[k]|
  {
    if cs == [] then [] else [|cs[0]|] + Lengths(cs[1..])
  }

  /** One read of Split when the data holds at least the size asked for. */
  lemma SplitStep(data: seq<bv8>, sizes: seq<nat>)
    requires ReadSizes(sizes) && sizes != [] && 0 < sizes[0] <= |data|
    ensures Split(data, sizes) == [data[..sizes[0]]] + Split(data[sizes[0]..], sizes[1..])
  {
  }

  /** Split covers every stream: any sequence of non-empty reads is the
      split of its own bytes by its own read sizes. */
  lemma {:induction false} SplitCovers(cs: seq<Chunk>)
    requires forall k :: 0 <= k < |cs| ==> 0 < |cs[k]|
    ensures ReadSizes(Lengths(cs))
    ensures Split(Concat(cs), Lengths(cs)) == cs
  {
    if cs != [] {
      var c, rest := cs[0], cs[1..];
      var sizes := Lengths(cs);
      assert cs == [c] + rest;
      ConcatCons(c, rest);
      var data := Concat(cs);
      assert data == c + Concat(rest);
      assert data[..|c|] == c && data[|c|..] == Concat(rest);
      assert sizes[1..] == Lengths(rest);
      SplitStep(data, sizes);
      SplitCovers(rest);
    }
  }

  /** The exception the catch clause receives: one thrown by read wins, and
      one thrown by the implicit close then only travels as a suppressed
      exception; otherwise a failing close is what is caught. */
  function CaughtFault(res: Resource): (e: Option<IOException>)
    ensures e.None? <==> res.ending.EndOfStream? && res.closeFault.None?
    ensures res.ending.Fault? ==> e == Some(res.ending.error)
  {
    if res.ending.Fault? then Some(res.ending.error) else res.closeFault
  }

  /** What running the static initialiser yields: the substitute image, or
      the error that leaves the class unusable. A missing resource (null
      stream) fails on the first read with a NullPointerException, which the
      IOException handler does not catch. */
  function ClassInit(resource: Option<Resource>): (r: Result<seq<bv8>, InitError>)
    ensures r.Ok? <==> resource.Some? && resource.value.ending.EndOfStream? && resource.value.closeFault.None?
    ensures r.Ok? ==> r.value == Concat(resource.value.chunks)
    ensures resource.None? ==> r == Err(ExceptionInInitializerError(NullPointerException))
    ensures resource.Some? && r.Err? ==>
              r.error.cause.Checked? && r.error.cause.io.message == ResourceHint
              && r.error.cause.io.cause.Some?
  {
    match resource
    case None => Err(ExceptionInInitializerError(NullPointerException))
    case Some(res) =>
      match CaughtFault(res)
      case Some(e) => Err(ExceptionInInitializerError(Checked(IOException(ResourceHint, Some(e)))))
      case None => Ok(Concat(res.chunks))
  }

  /** A class file read cleanly, in reads of any sizes from 1 to 1024
      bytes, becomes the substitute image byte for byte. */
  lemma LoadsWholeFile(data: seq<bv8>, sizes: seq<nat>)
    requires ReadSizes(sizes)
    ensures ClassInit(Some(Resource(Split(data, sizes), EndOfStream, None))) == Ok(data)
  {
    ConcatSplit(data, sizes);
  }

  /** A read or close failure always surfaces with the hint and the original
      IOException as its cause; the read failure wins over a close failure. */
  lemma FaultCarriesHint(res: Resource)
    requires res.ending.Fault? || res.closeFault.Some?
    ensures ClassInit(Some(res)) == Err(ExceptionInInitializerError(Checked(
              IOException(ResourceHint, Some(if res.ending.Fault? then res.ending.error else res.closeFault.value)))))
  {
  }

  /** The stream returned by getResourceAsStream: a cursor over the resource's chunks. */
  class InputStream {
    const chunks: seq<Chunk>
    const ending: Ending
    const closeFault: Option<IOException>
    var pos: nat
    var closed: bool

    ghost predicate Valid()
      reads this
    {
      pos <= |chunks|
    }

    constructor Open(res: Resource)
      ensures Valid()
      ensures chunks == res.chunks && ending == res.ending && closeFault == res.closeFault
      ensures pos == 0 && !closed
    {
      chunks, ending, closeFault := res.chunks, res.ending, res.closeFault;
      pos, closed := 0, false;
    }

    /** read(buffer): stores the next chunk at the front of the buffer, leaves
        the rest of the buffer as it was and returns its length; once the
        chunks are used up, returns -1 or throws, and keeps doing so. */
    method Read(buffer: array<bv8>) returns (r: Result<int, IOException>)
      requires Valid() && buffer.Length == BufferSize
      modifies this`pos, buffer
      ensures Valid()
      ensures old(pos) < |chunks| ==>
                var c := chunks[old(pos)];
                r == Ok(|c|) && pos == old(pos) + 1
                && buffer[..|c|] == c && buffer[|c|..] == old(buffer[|c|..])
      ensures old(pos) == |chunks| ==>
                pos == old(pos) && buffer[..] == old(buffer[..])
                && r == (if ending.EndOfStream? then Ok(-1) else Err(ending.error))
    {
      if pos < |chunks| {
        var c := chunks[pos];
        forall k | 0 <= k < |c| {
          buffer[k] := c[k];
        }
        pos := pos + 1;
        r := Ok(|c|);
      } else if ending.EndOfStream? {
        r := Ok(-1);
      } else {
        r := Err(ending.error);
      }
    }

    /** close(), run by try-with-resources whether or not the body threw. */
    method Close() returns (r: Option<IOException>)
      modifies this`closed
      ensures closed && r == closeFault
    {
      closed := true;
      r := closeFault;
    }
  }

  /** The ByteArrayOutputStream the chunks are appended to. */
  class ByteArrayOutputStream {
    var buf: seq<bv8>

    constructor ()
      ensures buf == []
    {
      buf := [];
    }

    /** write(b, off, len): appends b[off..off+len] and nothing else. */
    method Write(b: array<bv8>, off: nat, len: nat)
      requires off + len <= b.Length
      modifies this
      ensures buf == old(buf) + b[off..off + len]
    {
      buf := buf + b[off..off + len];
    }

    /** toByteArray(): the bytes written so far, in order. */
    function ToByteArray(): (r: seq<bv8>)
      reads this
      ensures r == buf
    {
      buf
    }
  }

  /** The static initialiser's body. The loop keeps the output equal to the
      concatenation of the chunks read so far, so on a clean end of stream
      the image is the whole resource. */
  method StaticInitialiser(resource: Option<Resource>) returns (r: Result<seq<bv8>, InitError>)
    ensures r == ClassInit(resource)
  {
    var out := new ByteArrayOutputStream();
    if resource.None? {
      r := Err(ExceptionInInitializerError(NullPointerException));
      return;
    }
    var res := resource.value;
    var stream := new InputStream.Open(res);
    var buffer := new bv8[BufferSize];
    var failure: Option<IOException> := None;
    while true
      invariant stream.Valid() && !stream.closed
      invariant stream.chunks == res.chunks && stream.ending == res.ending && stream.closeFault == res.closeFault
      invariant out.buf == Concat(res.chunks[..stream.pos])
      decreases |res.chunks| - stream.pos
    {
      var result := stream.Read(buffer);
      if result.Err? {
        failure := Some(result.error);
        break;
      }
      if result.value == -1 {
        break;
      }
      ghost var consumed := res.chunks[..stream.pos];
      assert consumed[..|consumed| - 1] == res.chunks[..stream.pos - 1];
      out.Write(buffer, 0, result.value);
    }
    assert res.chunks[..stream.pos] == res.chunks;
    var closeFailure := stream.Close();
    var caught := if failure.Some? then failure else closeFailure;
    if caught.Some? {
      r := Err(ExceptionInInitializerError(Checked(IOException(ResourceHint, Some(caught.value)))));
    } else {
      r := Ok(out.ToByteArray());
    }
  }
}
