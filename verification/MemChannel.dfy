/** The channel over two rings: `send` frames and chunks a message, `recv` puts it together. */
module MemoryChannel {
  import opened Bytes
  import opened SharedRing
  import opened Framing

  /** `TooLong` is a header no correct `send` writes; what the code then does is not followed. */
  datatype RecvResult = Message(body: Payload) | TooLong | Blocked

  /** `i` whole chunks. */
  function Chunks(i: nat, size: nat): nat {
    if i == 0 then 0 else Chunks(i - 1, size) + size
  }

  lemma {:induction false} ChunksAre(i: nat, size: nat)
    ensures Chunks(i, size) == i * size
    decreases i
  {
    if i > 0 {
      ChunksAre(i - 1, size);
      assert i * size == (i - 1) * size + size;
    }
  }

  lemma {:induction false} ChunksGrow(i: nat, j: nat, size: nat)
    requires i <= j
    ensures Chunks(i, size) <= Chunks(j, size)
    decreases j
  {
    if i < j {
      ChunksGrow(i, j - 1, size);
    }
  }

  /** Where a chunk loop stands after `i` of its chunks, `at` bytes into a message of `total`. */
  ghost predicate ChunkInvariant(i: nat, count: nat, pos: int, left: int, at: nat, total: nat, size: nat) {
    && size > 0 && i <= count && at + left == total && 0 <= left
    && total <= Chunks(count, size) && (count > 0 ==> Chunks(count - 1, size) < total)
    && (if i < count then pos == at == Chunks(i, size) else left == 0)
  }

  lemma ChunksBegin(total: nat, size: nat)
    requires 0 < size < MAX_MESSAGE && total <= MAX_MESSAGE
    ensures 0 <= ChunkCount(total, size)
    ensures ChunkInvariant(0, ChunkCount(total, size), 0, total, 0, total, size)
  {
    ChunkCountIs(total, size);
    var count := ChunkCount(total, size);
    ChunksAre(count, size);
    if count > 0 {
      ChunksAre(count - 1, size);
    }
  }

  /** One more chunk: none is empty, and the `int` offset is right as long as it is used. */
  lemma ChunksAdvance(i: nat, count: nat, pos: int, left: int, at: nat, total: nat, size: nat)
    requires ChunkInvariant(i, count, pos, left, at, total, size) && i < count && total <= MAX_MESSAGE
    ensures 0 < Min(left, size)
    ensures var len := Min(left, size);
            ChunkInvariant(i + 1, count, AsInt32(Wrap(pos + len)), left - len, at + len, total, size)
  {
    ChunksGrow(i, count - 1, size);
    if i + 1 < count {
      ChunksGrow(i + 1, count - 1, size);
      ModUnique(pos + size, U32, 0, pos + size);
    }
  }

  /** The turn of a chunk loop that moves its offset and remainder past the chunk at `pos`. */
  method NextChunk(i: nat, count: nat, pos: int, left: int, ghost at: nat, ghost total: nat, size: nat)
    returns (len: nat, next: int, rest: int)
    requires ChunkInvariant(i, count, pos, left, at, total, size) && i < count && total <= MAX_MESSAGE
    ensures 0 < len == Min(left, size) && ChunkInvariant(i + 1, count, next, rest, at + len, total, size)
  {
    ChunksAdvance(i, count, pos, left, at, total, size);
    len := Min(left, size);
    next := AsInt32(Wrap(pos + len));
    rest := left - len;
  }

  /** What a frame is written in, and read in: its header, and its chunks. */
  function FramePieces(body: Payload, size: nat): seq<Payload>
    requires size > 0 && |body| < U32
  {
    [LE32(|body|)] + Pieces(body, size)
  }

  /** After `n` bytes of a frame, written in its own pieces, the next piece is larger than the room. */
  ghost predicate SendBlocked(before: seq<Payload>, after: seq<Payload>, body: Payload, n: int, size: nat, room: int)
    requires size > 0 && |body| < U32
  {
    if n == 0 then after == before && room < 4
    else
      && 4 <= n < 4 + |body|
      && after == before + FramePieces(body, size)[..1] + Pieces(body[..n - 4], size)
      && room < Min(4 + |body| - n, size)
  }

  /** How much of a frame is read next, after `x` of it. */
  function NextRead(x: Payload, size: nat): int {
    if |x| < 4 then 4 else Min(4 + FromLE32(x[..4]) - |x|, size)
  }

  class MemChannel {
    const sendBuf: SharedMemoryView
    const recvBuf: SharedMemoryView
    var bytesSend: nat
    var packetSend: nat
    var bytesRecv: nat
    var packetRecv: nat

    ghost predicate Valid()
      reads this, sendBuf, sendBuf.buffer, recvBuf, recvBuf.buffer
    {
      sendBuf.Valid() && recvBuf.Valid() && sendBuf != recvBuf && sendBuf.buffer != recvBuf.buffer
    }

    constructor (sendBuf: SharedMemoryView, recvBuf: SharedMemoryView)
      requires sendBuf.Valid() && recvBuf.Valid() && sendBuf != recvBuf && sendBuf.buffer != recvBuf.buffer
      ensures Valid() && this.sendBuf == sendBuf && this.recvBuf == recvBuf
      ensures bytesSend == packetSend == bytesRecv == packetRecv == 0
    {
      this.sendBuf, this.recvBuf := sendBuf, recvBuf;
      bytesSend, packetSend, bytesRecv, packetRecv := 0, 0, 0, 0;
    }

    /**
     `send`: exactly one frame is published, its header and then its chunks, each by one `write`.
     A call still blocked has published a prefix of it, and the next of these pieces does not fit.
     */
    method Send(buf: Payload, patience: nat) returns (done: bool)
      requires Valid() && |buf| <= MAX_MESSAGE
      modifies this`bytesSend, this`packetSend
      modifies sendBuf`inn, sendBuf`outt, sendBuf`published, sendBuf`taken, sendBuf`writeLog, sendBuf.buffer
      ensures Valid()
      ensures old(sendBuf.published) <= sendBuf.published <= old(sendBuf.published) + Frame(buf)
      ensures done ==> sendBuf.published == old(sendBuf.published) + Frame(buf)
      ensures done ==> sendBuf.writeLog == old(sendBuf.writeLog) + FramePieces(buf, sendBuf.bufSize)
      ensures !done ==> SendBlocked(old(sendBuf.writeLog), sendBuf.writeLog, buf,
                                    |sendBuf.published| - |old(sendBuf.published)|, sendBuf.bufSize,
                                    sendBuf.bufSize - |sendBuf.Contents()|)
      ensures packetSend == old(packetSend) + (if done then 1 else 0)
      ensures bytesSend == old(bytesSend) + (if done then |buf| else 0)
    {
      var view := sendBuf;
      ghost var before, log := view.published, view.writeLog;
      RingSizes(view.k);
      var bodyLen: u32 := |buf|;
      done := view.Write(LE32(bodyLen), patience);
      if !done {
        return;
      }
      done := SendBody(buf, patience);
      FrameWritten(before, log, buf, view.bufSize);
      if done {
        bytesSend, packetSend := bytesSend + |buf|, packetSend + 1;
      }
    }

    static lemma FrameWritten(before: Payload, log: seq<Payload>, buf: Payload, size: nat)
      requires |buf| < U32 && size > 0
      ensures before + Frame(buf) == before + LE32(|buf|) + buf
      ensures log + FramePieces(buf, size) == log + [LE32(|buf|)] + Pieces(buf, size)
      ensures FramePieces(buf, size)[..1] == [LE32(|buf|)]
    {
    }

    /** One chunk of `send`, the one at `pos`. */
    method SendChunk(buf: Payload, pos: nat, len: nat, patience: nat,
                     ghost before: Payload, ghost log: seq<Payload>, ghost i: nat)
      returns (done: bool)
      requires Valid() && pos + len <= |buf| && 0 < len <= sendBuf.bufSize && pos == Chunks(i, sendBuf.bufSize)
      requires sendBuf.published == before + buf[..pos]
      requires sendBuf.writeLog == log + Pieces(buf[..pos], sendBuf.bufSize)
      modifies sendBuf`inn, sendBuf`outt, sendBuf`published, sendBuf`taken, sendBuf`writeLog, sendBuf.buffer
      ensures Valid()
      ensures var to := if done then pos + len else pos;
              && sendBuf.published == before + buf[..to]
              && sendBuf.writeLog == log + Pieces(buf[..to], sendBuf.bufSize)
      ensures !done ==> |sendBuf.Contents()| + len > sendBuf.bufSize
    {
      done := sendBuf.Write(buf[pos..pos + len], patience);
      WriteMore(before, log, buf, pos, len, i, sendBuf.bufSize);
    }

    /** The chunk loop of `send`. */
    method SendBody(buf: Payload, patience: nat) returns (done: bool)
      requires Valid() && |buf| <= MAX_MESSAGE
      modifies sendBuf`inn, sendBuf`outt, sendBuf`published, sendBuf`taken, sendBuf`writeLog, sendBuf.buffer
      ensures Valid()
      ensures old(sendBuf.published) <= sendBuf.published <= old(sendBuf.published) + buf
      ensures done ==> sendBuf.published == old(sendBuf.published) + buf
      ensures done ==> sendBuf.writeLog == old(sendBuf.writeLog) + Pieces(buf, sendBuf.bufSize)
      ensures !done ==>
                var at := |sendBuf.published| - |old(sendBuf.published)|;
                && at < |buf|
                && sendBuf.writeLog == old(sendBuf.writeLog) + Pieces(buf[..at], sendBuf.bufSize)
                && |sendBuf.Contents()| + Min(|buf| - at, sendBuf.bufSize) > sendBuf.bufSize
    {
      ghost var before, log := sendBuf.published, sendBuf.writeLog;
      RingSizes(sendBuf.k);
      var left: int, chunkSize := |buf|, sendBuf.bufSize;
      ChunksBegin(|buf|, chunkSize);
      var count := ChunkCount(left, chunkSize);
      var i, pos := 0, 0;
      ghost var at: nat := 0;
      while i < count
        invariant Valid() && i <= count && ChunkInvariant(i, count, pos, left, at, |buf|, chunkSize)
        invariant sendBuf.published == before + buf[..at]
        invariant sendBuf.writeLog == log + Pieces(buf[..at], chunkSize)
      {
        var len, next, rest := NextChunk(i, count, pos, left, at, |buf|, chunkSize);
        done := SendChunk(buf, pos, len, patience, before, log, i);
        if !done {
          return;
        }
        at := at + len;
        pos, left, i := next, rest, i + 1;
      }
      assert buf[..at] == buf;
      done := true;
    }

    /** A further piece behind whole ones. */
    static lemma {:induction false} PiecesAppend(str: Payload, data: Payload, i: nat, size: nat)
      requires size > 0 && |str| == Chunks(i, size) && 0 < |data| <= size
      ensures Pieces(str + data, size) == Pieces(str, size) + [data]
      decreases i
    {
      if i == 0 {
        assert str + data == data && data[|data|..] == [] && data[..|data|] == data;
      } else {
        assert (str + data)[..size] == str[..size] && (str + data)[size..] == str[size..] + data;
        PiecesAppend(str[size..], data, i - 1, size);
      }
    }

    static lemma PiecesLog(log: seq<Payload>, str: Payload, data: Payload, i: nat, size: nat)
      requires size > 0 && |str| == Chunks(i, size) && 0 < |data| <= size
      ensures log + Pieces(str, size) + [data] == log + Pieces(str + data, size)
    {
      PiecesAppend(str, data, i, size);
    }

    /** One more chunk is written. */
    static lemma WriteMore(before: Payload, log: seq<Payload>, buf: Payload, at: nat, len: nat, i: nat, size: nat)
      requires at + len <= |buf| && size > 0 && at == Chunks(i, size) && 0 < len <= size
      ensures before + buf[..at] + buf[at..at + len] == before + buf[..at + len]
      ensures log + Pieces(buf[..at], size) + [buf[at..at + len]] == log + Pieces(buf[..at + len], size)
    {
      assert buf[..at] + buf[at..at + len] == buf[..at + len];
      PiecesLog(log, buf[..at], buf[at..at + len], i, size);
    }

    /**
     `recv` into a string: the bytes taken off the stream are exactly the frame of the message
     returned, by one `read` for the header and one for each chunk, of the very sizes its sender
     wrote.  A call still blocked has taken part of a frame, and the ring holds less than the
     next of these reads needs.
     */
    method Recv(patience: nat) returns (r: RecvResult)
      requires Valid()
      modifies this`bytesRecv, this`packetRecv
      modifies recvBuf`inn, recvBuf`outt, recvBuf`published, recvBuf`taken, recvBuf`readLog, recvBuf.buffer
      ensures Valid() && old(recvBuf.published) <= recvBuf.published
      ensures r.Message? ==> |r.body| <= MAX_MESSAGE && recvBuf.taken == old(recvBuf.taken) + |Frame(r.body)|
      ensures r.Message? ==> recvBuf.published[old(recvBuf.taken)..recvBuf.taken] == Frame(r.body)
      ensures r.Message? ==> recvBuf.readLog == old(recvBuf.readLog) + FramePieces(r.body, recvBuf.bufSize)
      ensures r.Blocked? ==> old(recvBuf.taken) <= recvBuf.taken
      ensures r.Blocked? ==> PartOfFrame(recvBuf.published[old(recvBuf.taken)..recvBuf.taken])
      ensures r.Blocked? ==>
                |recvBuf.Contents()| < NextRead(recvBuf.published[old(recvBuf.taken)..recvBuf.taken], recvBuf.bufSize)
      ensures r.TooLong? ==>
                && recvBuf.taken == old(recvBuf.taken) + 4
                && FromLE32(recvBuf.published[old(recvBuf.taken)..recvBuf.taken]) > MAX_MESSAGE
      ensures packetRecv == old(packetRecv) + (if r.Message? then 1 else 0)
      ensures bytesRecv == old(bytesRecv) + (if r.Message? then |r.body| else 0)
    {
      var view := recvBuf;
      RingSizes(view.k);
      ghost var log := view.readLog;
      var done, header := view.Read(4, patience);
      if !done {
        InsideFrame([]);
        return Blocked;
      }
      ghost var lo := old(recvBuf.taken);
      var bodyLen := FromLE32(header);
      HeaderIs(header);
      if bodyLen > MAX_MESSAGE {
        return TooLong;
      }
      var str;
      ghost var upTo := view.published;
      done, str := RecvBody(bodyLen, patience);
      assert upTo[lo..lo + 4] == view.published[lo..lo + 4];
      FrameRead(view.published, lo, view.taken, header);
      if !done {
        InsideFrame(view.published[lo..view.taken]);
        return Blocked;
      }
      FrameWritten([], log, str, view.bufSize);
      bytesRecv, packetRecv := bytesRecv + |str|, packetRecv + 1;
      r := Message(str);
    }

    static lemma FrameRead(stream: Payload, lo: nat, hi: nat, header: Payload)
      requires lo + 4 <= hi <= |stream| && stream[lo..lo + 4] == header
      ensures stream[lo..hi][..4] == header && stream[lo..hi] == header + stream[lo + 4..hi]
    {
    }

    /** What was read stays where it was as more is published, and the next bytes go on from there. */
    static lemma ReadOn(before: Payload, after: Payload, lo: nat, n: nat, len: nat)
      requires before <= after && lo + n <= |before| && lo + n + len <= |after|
      ensures before[lo..lo + n] + after[lo + n..lo + n + len] == after[lo..lo + n + len]
    {
    }

    /** One chunk of `recv_body`, behind what has been read of the body. */
    method RecvChunk(begun: Payload, len: nat, patience: nat, ghost lo: nat, ghost log: seq<Payload>, ghost i: nat)
      returns (done: bool, str: Payload)
      requires Valid() && 0 < len <= recvBuf.bufSize && |begun| == Chunks(i, recvBuf.bufSize)
      requires recvBuf.taken == lo + |begun| && begun == recvBuf.published[lo..recvBuf.taken]
      requires recvBuf.readLog == log + Pieces(begun, recvBuf.bufSize)
      modifies recvBuf`inn, recvBuf`outt, recvBuf`published, recvBuf`taken, recvBuf`readLog, recvBuf.buffer
      ensures Valid() && old(recvBuf.published) <= recvBuf.published
      ensures |str| == |begun| + (if done then len else 0) && recvBuf.taken == lo + |str|
      ensures str == recvBuf.published[lo..recvBuf.taken]
      ensures recvBuf.readLog == log + Pieces(str, recvBuf.bufSize)
      ensures !done ==> |recvBuf.Contents()| < len
    {
      RingSizes(recvBuf.k);
      ghost var before := recvBuf.published;
      var data;
      done, data := recvBuf.Read(len, patience);
      str := begun;
      if done {
        ReadOn(before, recvBuf.published, lo, |begun|, len);
        PiecesLog(log, begun, data, i, recvBuf.bufSize);
        str := begun + data;
      }
    }

    /** `recv_body`. */
    method RecvBody(length: u32, patience: nat) returns (done: bool, str: Payload)
      requires Valid() && length <= MAX_MESSAGE
      modifies recvBuf`inn, recvBuf`outt, recvBuf`published, recvBuf`taken, recvBuf`readLog, recvBuf.buffer
      ensures Valid() && old(recvBuf.published) <= recvBuf.published
      ensures !done ==> old(recvBuf.taken) <= recvBuf.taken < old(recvBuf.taken) + length
      ensures !done ==>
                |recvBuf.Contents()| < Min(old(recvBuf.taken) + length - recvBuf.taken, recvBuf.bufSize)
      ensures done ==> |str| == length && recvBuf.taken == old(recvBuf.taken) + length
      ensures done ==> str == recvBuf.published[old(recvBuf.taken)..recvBuf.taken]
      ensures done ==> recvBuf.readLog == old(recvBuf.readLog) + Pieces(str, recvBuf.bufSize)
    {
      ghost var before, lo, log := recvBuf.published, recvBuf.taken, recvBuf.readLog;
      RingSizes(recvBuf.k);
      var left: int, chunkSize := length, recvBuf.bufSize;
      ChunksBegin(length, chunkSize);
      var count := ChunkCount(left, chunkSize);
      var i, pos := 0, 0;
      str := [];
      while i < count
        invariant Valid() && i <= count && ChunkInvariant(i, count, pos, left, |str|, length, chunkSize)
        invariant before <= recvBuf.published && recvBuf.taken == lo + |str|
        invariant str == recvBuf.published[lo..recvBuf.taken]
        invariant recvBuf.readLog == log + Pieces(str, chunkSize)
      {
        var len, next, rest := NextChunk(i, count, pos, left, |str|, length, chunkSize);
        done, str := RecvChunk(str, len, patience, lo, log, i);   // at offset pos
        if !done {
          return;
        }
        pos, left, i := next, rest, i + 1;
      }
      done := true;
    }
  }
}
