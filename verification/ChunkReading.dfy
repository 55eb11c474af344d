/** `chunkReadCloser`: strings the file ranges of a chunk into one stream (src/transfer/chunk_reader.go). */
module ChunkReading {
  import opened Names
  import opened Planning
  import opened Storing

  datatype Err = Nil | EOF | Failed

  /** What the file system does in one call: how many bytes it hands out, whether it reports the end
      together with the last of them, and whether opening or reading fails. */
  datatype Io = Io(take: nat, early: bool, openFails: bool, readFails: bool)

  /** Between 1 and `max` bytes, as the file system likes. */
  function Granted(io: Io, max: nat): (n: nat)
    requires max > 0
    ensures 1 <= n <= max
  {
    if io.take == 0 then 1 else if io.take > max then max else io.take
  }

  /** An open file, limited to one range. */
  class RangeReader {
    var rest: seq<byte>
    var open: bool

    constructor (data: seq<byte>)
      ensures rest == data && open
    {
      rest, open := data, true;
    }

    method Read(size: nat, io: Io) returns (out: seq<byte>, err: Err)
      requires size > 0 && open
      modifies this
      ensures open && old(rest) == out + rest && |out| <= size
      ensures err.Nil? ==> out != []
      ensures err.EOF? ==> rest == []
      ensures err.Failed? ==> io.readFails
    {
      if rest == [] {
        return [], if io.readFails then Failed else EOF;
      }
      var n := Granted(io, if size < |rest| then size else |rest|);
      out, rest := rest[..n], rest[n..];
      err := if io.readFails then Failed else if io.early && rest == [] then EOF else Nil;
    }

    method Close()
      modifies this
      ensures !open && rest == old(rest)
    {
      open := false;
    }
  }

  class ChunkReadCloser {
    const content: Store
    const ranges: Chunk
    var fileRangeIndex: nat
    var readCloser: RangeReader?
    ghost var handles: set<RangeReader>

    /** At most one range reader is open, and it is the current one. */
    ghost predicate Valid()
      reads this, handles
    {
      && (forall j | 0 <= j < |ranges| :: ranges[j].startOffset < ranges[j].endOffset)
      && fileRangeIndex <= |ranges|
      && (readCloser != null ==> readCloser in handles && readCloser.open && fileRangeIndex < |ranges|)
      && forall r | r in handles :: r.open ==> r == readCloser
    }

    /** The bytes of the ranges from the `k`-th on. */
    ghost function From(k: nat): seq<byte>
      requires k <= |ranges|
    {
      Content(content, ChunkAddrs(ranges[k..]))
    }

    /** The bytes still to be read. */
    ghost function Remaining(): seq<byte>
      requires Valid()
      reads this, handles
    {
      if readCloser == null then From(fileRangeIndex) else readCloser.rest + From(fileRangeIndex + 1)
    }

    constructor (content: Store, ranges: Chunk)
      requires forall j | 0 <= j < |ranges| :: ranges[j].startOffset < ranges[j].endOffset
      ensures Valid() && fresh(handles) && readCloser == null && this.content == content && this.ranges == ranges
      ensures Remaining() == Content(content, ChunkAddrs(ranges))
    {
      this.content, this.ranges := content, ranges;
      fileRangeIndex, readCloser, handles := 0, null, {};
      new;
      assert ranges[0..] == ranges;
    }

    /** Each call hands over the next bytes and loses none. EOF comes exactly when nothing is left; an
        empty read without error only ever follows a non-empty one and closes the range it ends. */
    method Read(size: nat, io: Io) returns (out: seq<byte>, err: Err)
      requires Valid() && size > 0
      modifies this, handles
      ensures Valid() && fresh(handles - old(handles)) && handles >= old(handles)
      ensures old(Remaining()) == out + Remaining()
      ensures err.EOF? ==> out == [] && Remaining() == [] && readCloser == null
      ensures err.Failed? ==> io.openFails || io.readFails
      ensures err.Nil? && old(readCloser) == null ==> out != []
      ensures err.Nil? && out == [] ==> readCloser == null
      ensures err.Nil? && out == [] ==> |ranges| - fileRangeIndex < |ranges| - old(fileRangeIndex)
      ensures |ranges| - fileRangeIndex <= |ranges| - old(fileRangeIndex)
    {
      if readCloser == null {
        if fileRangeIndex >= |ranges| {
          NothingRemains(content, ranges, fileRangeIndex);
          return [], EOF;
        }
        if io.openFails {
          return [], Failed;
        }
        OpenRange();
      }
      out, err := ReadRange(size, io);
    }

    /** The first half of `Read`: opens the next range. */
    method OpenRange()
      requires Valid() && readCloser == null && fileRangeIndex < |ranges|
      modifies this
      ensures Valid() && readCloser != null && fresh(readCloser) && readCloser.rest != []
      ensures handles == old(handles) + {readCloser} && fileRangeIndex == old(fileRangeIndex)
      ensures Remaining() == old(Remaining())
    {
      NextRemaining(content, ranges, fileRangeIndex);
      hide ChunkAddrs, RangeAddrs;
      var range := new RangeReader(Content(content, RangeAddrs(ranges[fileRangeIndex])));
      readCloser := range;
      handles := handles + {range};
    }

    /** The second half of `Read`: reads from the open range and closes it at its end. */
    method ReadRange(size: nat, io: Io) returns (out: seq<byte>, err: Err)
      requires Valid() && size > 0 && readCloser != null
      modifies this, readCloser
      ensures Valid() && handles == old(handles)
      ensures old(Remaining()) == out + Remaining()
      ensures !err.EOF? && (err.Failed? ==> io.readFails)
      ensures err.Nil? && out == [] ==> readCloser == null && old(readCloser.rest) == []
      ensures fileRangeIndex == old(fileRangeIndex) + if err.Nil? && readCloser == null then 1 else 0
    {
      hide From;
      out, err := readCloser.Read(size, io);
      if err.EOF? {
        readCloser.Close();
        readCloser := null;
        fileRangeIndex := fileRangeIndex + 1;
        err := Nil;
      }
    }

    method Close()
      requires Valid()
      modifies this, handles
      ensures Valid() && readCloser == null && handles == old(handles)
      ensures forall r | r in handles :: !r.open
    {
      if readCloser != null {
        readCloser.Close();
        readCloser := null;
      }
    }
  }

  lemma NothingRemains(content: Store, ranges: Chunk, k: nat)
    requires k == |ranges|
    ensures Content(content, ChunkAddrs(ranges[k..])) == []
  {
  }

  lemma NextRemaining(content: Store, ranges: Chunk, k: nat)
    requires k < |ranges|
    ensures Content(content, ChunkAddrs(ranges[k..]))
         == Content(content, RangeAddrs(ranges[k])) + Content(content, ChunkAddrs(ranges[k + 1..]))
  {
    assert ranges[k..][1..] == ranges[k + 1..];
  }

  /** `Chunk.Size`, the Content-Length of a served chunk (src/types/chunk.go:100-106). */
  method Size(c: Chunk) returns (length: int)
    requires forall j | 0 <= j < |c| :: c[j].startOffset < c[j].endOffset
    ensures length == |ChunkAddrs(c)|
  {
    length := 0;
    var k := 0;
    assert c[..0] == [];
    while k < |c|
      invariant 0 <= k <= |c| && length == |ChunkAddrs(c[..k])|
    {
      hide ChunkAddrs;
      assert c[..k + 1] == c[..k] + [c[k]];
      AppendRange(c[..k], c[k]);
      length := length + (c[k].endOffset - c[k].startOffset);
      k := k + 1;
    }
    assert c[..k] == c;
  }

  /** `io.Copy` from a fresh reader, with any buffer sizes and any short reads: without an error the
      copy is the whole chunk, with one it is a prefix; either way every file is closed in the end. */
  method Copy(content: Store, ranges: Chunk, sizes: nat -> nat, ios: nat -> Io)
    returns (data: seq<byte>, err: Err)
    requires forall j | 0 <= j < |ranges| :: ranges[j].startOffset < ranges[j].endOffset
    requires forall k :: sizes(k) > 0
    ensures err.Nil? || err.Failed?
    ensures data <= Content(content, ChunkAddrs(ranges))
    ensures err.Nil? ==> data == Content(content, ChunkAddrs(ranges))
    ensures (forall k :: !ios(k).openFails && !ios(k).readFails) ==> err.Nil?
  {
    hide *;
    var reader := new ChunkReadCloser(content, ranges);
    data := [];
    var calls := 0;
    ghost var whole := Content(content, ChunkAddrs(ranges));
    while true
      invariant reader.Valid() && fresh(reader) && fresh(reader.handles)
      invariant reader.ranges == ranges
      invariant whole == data + reader.Remaining()
      decreases |reader.Remaining()|, |ranges| - reader.fileRangeIndex
    {
      var out, e := reader.Read(sizes(calls), ios(calls));
      data := data + out;
      if !e.Nil? {
        err := if e.EOF? then Nil else Failed;
        break;
      }
      calls := calls + 1;
    }
    reader.Close();
  }
}
