/** Messages on the ring: a 4-byte length, then the body in chunks of at most the ring size. */
module Framing {
  import opened Bytes
  import opened SharedRing

  /** The longest message `send` gets right, see `SendCoversIff`. */
  const MAX_MESSAGE: int := 0x8000_0000

  function Frame(body: Payload): Payload
    requires |body| < U32
  {
    LE32(|body|) + body
  }

  /** The chunks of a body. */
  function Pieces(body: Payload, size: nat): seq<Payload>
    requires size > 0
    decreases |body|
  {
    if body == [] then []
    else
      var n := Min(|body|, size);
      [body[..n]] + Pieces(body[n..], size)
  }

  function Concat(pieces: seq<Payload>): Payload
    decreases |pieces|
  {
    if pieces == [] then [] else pieces[0] + Concat(pieces[1..])
  }

  /** The chunks cover the body exactly once; none is empty or larger than the ring. */
  lemma {:induction false} PiecesCover(body: Payload, size: nat)
    requires size > 0
    ensures Concat(Pieces(body, size)) == body
    ensures forall p :: p in Pieces(body, size) ==> 0 < |p| <= size
    decreases |body|
  {
    if body != [] {
      var n := Min(|body|, size);
      PiecesCover(body[n..], size);
      assert body[..n] + body[n..] == body;
    }
  }

  // ----- the 32-bit arithmetic of the chunk loops -----

  /** `chunk_cnt`: an unsigned sum and quotient, stored in an `int`. */
  function ChunkCount(bodyLen: u32, size: nat): int
    requires 0 < size < U32
  {
    Wrap(bodyLen + size - 1) / size
  }

  lemma ChunkCountIs(bodyLen: u32, size: nat)
    requires 0 < size < U32 && bodyLen + size - 1 < U32
    ensures var c := ChunkCount(bodyLen, size); c >= 0 && (c - 1) * size < bodyLen <= c * size
  {
    var x: nat := bodyLen + size - 1;
    var c := x / size;
    assert x == c * size + x % size;
    assert (c - 1) * size == c * size - size;
  }

  datatype Chunk = Chunk(pos: int, len: nat)

  /** The loop of `send` and `recv_body`: `pos` is an `int`, `left` is the unsigned `body_len`. */
  function ChunkLoop(i: int, count: int, pos: int, left: u32, size: nat): seq<Chunk>
    requires size > 0
    decreases count - i
  {
    if i >= count then []
    else
      var len := Min(left, size);
      [Chunk(pos, len)] + ChunkLoop(i + 1, count, AsInt32(Wrap(pos + len)), left - len, size)
  }

  /** The chunks `send` writes for `nbytes`, whose 64 bits are first cut to 32. */
  function SendChunks(nbytes: nat, size: nat): seq<Chunk>
    requires 0 < size < U32
  {
    ChunkLoop(0, ChunkCount(Wrap(nbytes), size), 0, Wrap(nbytes), size)
  }

  /** The chunks are consecutive pieces of the buffer, from `at` to its end. */
  predicate Covers(chunks: seq<Chunk>, at: nat, nbytes: nat)
    decreases |chunks|
  {
    if chunks == [] then at == nbytes
    else chunks[0].pos == at && Covers(chunks[1..], at + chunks[0].len, nbytes)
  }

  lemma {:induction false} LoopCovers(i: nat, count: nat, nbytes: nat, size: nat)
    requires size > 0 && i <= count && nbytes <= MAX_MESSAGE
    requires (count - 1) * size < nbytes <= count * size
    ensures i * size < nbytes ==> Covers(ChunkLoop(i, count, i * size, nbytes - i * size, size), i * size, nbytes)
    ensures i == count ==> Covers(ChunkLoop(i, count, AsInt32(Wrap(nbytes)), 0, size), nbytes, nbytes)
    decreases count - i
  {
    if i < count && i * size < nbytes {
      var at, left := i * size, nbytes - i * size;
      var len := Min(left, size);
      assert (i + 1) * size == at + size;
      LoopCovers(i + 1, count, nbytes, size);
      if i + 1 < count {
        ProductOrder(i + 1, count - 1, size);
        assert at + len == (i + 1) * size < nbytes;
        assert Wrap(at + len) == at + len <= INT_MAX;
      } else {
        assert at + len == nbytes;
      }
    }
  }

  lemma ProductOrder(a: nat, b: nat, size: nat)
    requires a <= b
    ensures a * size <= b * size
  {
    assert b * size == a * size + (b - a) * size;
  }

  /** Past 2^31 the offset turns negative before the end is reached. */
  lemma {:induction false} LoopOverruns(i: nat, blocks: nat, count: int, nbytes: nat, size: nat)
    requires size > 0 && blocks * size == MAX_MESSAGE && i <= blocks && MAX_MESSAGE < nbytes < U32
    requires 0 <= nbytes - i * size
    ensures !Covers(ChunkLoop(i, count, AsInt32(Wrap(i * size)), nbytes - i * size, size), i * size, nbytes)
    decreases blocks - i
  {
    ProductOrder(i, blocks, size);
    var at := i * size;
    if i < count {
      if i < blocks {
        ProductOrder(i + 1, blocks, size);
        assert (i + 1) * size == at + size;
        LoopOverruns(i + 1, blocks, count, nbytes, size);
        assert AsInt32(Wrap(at)) == at;
      } else {
        assert AsInt32(Wrap(at)) < 0;
      }
    }
  }

  /** The chunks add up to no more than what the loop was told is left. */
  lemma {:induction false} LoopReaches(i: int, count: int, pos: int, left: u32, size: nat, at: nat, nbytes: nat)
    requires size > 0 && at + left < nbytes
    ensures !Covers(ChunkLoop(i, count, pos, left, size), at, nbytes)
    decreases count - i
  {
    if i < count {
      var len := Min(left, size);
      LoopReaches(i + 1, count, AsInt32(Wrap(pos + len)), left - len, size, at + len, nbytes);
    }
  }

  lemma SomeCover(nbytes: nat, count: nat, size: nat)
    requires 0 < size && 0 < nbytes <= MAX_MESSAGE && (count - 1) * size < nbytes <= count * size
    ensures Covers(ChunkLoop(0, count, 0, nbytes, size), 0, nbytes)
  {
    LoopCovers(0, count, nbytes, size);
  }

  lemma NothingToSend(size: nat)
    requires 0 < size < U32
    ensures SendChunks(0, size) == []
  {
    ModUnique(size - 1, U32, 0, size - 1);
    ModUnique(size - 1, size, 0, size - 1);
  }

  lemma ChunksOf(nbytes: u32, size: nat)
    requires 0 < size < U32
    ensures SendChunks(nbytes, size) == ChunkLoop(0, ChunkCount(nbytes, size), 0, nbytes, size)
  {
    ModUnique(nbytes, U32, 0, nbytes);
  }

  lemma SendCovers(nbytes: nat, size: nat)
    requires 0 < size < MAX_MESSAGE && nbytes <= MAX_MESSAGE
    ensures Covers(SendChunks(nbytes, size), 0, nbytes)
  {
    if nbytes == 0 {
      NothingToSend(size);
    } else {
      ChunkCountIs(nbytes, size);
      SomeCover(nbytes, ChunkCount(nbytes, size), size);
      ChunksOf(nbytes, size);
    }
  }

  lemma OverrunsFromStart(nbytes: nat, count: int, blocks: nat, size: nat)
    requires size > 0 && blocks * size == MAX_MESSAGE < nbytes < U32
    ensures !Covers(ChunkLoop(0, count, 0, nbytes, size), 0, nbytes)
  {
    ModUnique(0, U32, 0, 0);
    LoopOverruns(0, blocks, count, nbytes, size);
  }

  lemma LargeMisses(nbytes: nat, k: nat)
    requires RingLog(k) && MAX_MESSAGE < nbytes < U32 && Pow2(k) < U32
    ensures !Covers(SendChunks(nbytes, Pow2(k)), 0, nbytes)
  {
    Pow2Values();
    Pow2Sum(31 - k, k);
    OverrunsFromStart(nbytes, ChunkCount(nbytes, Pow2(k)), Pow2(31 - k), Pow2(k));
    ChunksOf(nbytes, Pow2(k));
  }

  lemma SendMisses(nbytes: nat, k: nat)
    requires RingLog(k) && nbytes > MAX_MESSAGE && Pow2(k) < U32
    ensures !Covers(SendChunks(nbytes, Pow2(k)), 0, nbytes)
  {
    if nbytes < U32 {
      LargeMisses(nbytes, k);
    } else {
      var size, low := Pow2(k), Wrap(nbytes);
      LoopReaches(0, ChunkCount(low, size), 0, low, size, 0, nbytes);
    }
  }

  /** `send` hands the ring the whole message, from its first to its last byte, exactly up to 2^31 bytes. */
  lemma SendCoversIff(nbytes: nat, k: nat)
    requires RingLog(k)
    ensures Pow2(k) < U32
    ensures Covers(SendChunks(nbytes, Pow2(k)), 0, nbytes) <==> nbytes <= MAX_MESSAGE
  {
    RingSizes(k);
    if nbytes <= MAX_MESSAGE {
      SendCovers(nbytes, Pow2(k));
    } else {
      SendMisses(nbytes, k);
    }
  }

  // ----- frames on a stream -----

  function Frames(ms: seq<Payload>): Payload
    requires forall m :: m in ms ==> |m| < U32
    decreases |ms|
  {
    if ms == [] then [] else Frame(ms[0]) + Frames(ms[1..])
  }

  /** A stream can be cut into frames in only one way. */
  lemma FrameUnique(a: Payload, b: Payload, x: Payload, y: Payload)
    requires |a| < U32 && |b| < U32 && Frame(a) + x == Frame(b) + y
    ensures a == b && x == y
  {
    var s := Frame(a) + x;
    LE32RoundTrip(|a|, a + x);
    LE32RoundTrip(|b|, b + y);
    assert s == LE32(|a|) + (a + x);
    assert Frame(b) + y == LE32(|b|) + (b + y);
    assert |a| == |b|;
    assert a == s[4..4 + |a|] && b == s[4..4 + |b|];
    assert x == s[4 + |a|..] && y == s[4 + |b|..];
  }

  /**
   Round trip over whole runs: when the frames a receiver cut off add up to a prefix of the
   frames a sender put on the stream, the received messages are a prefix of those sent.
   */
  lemma {:induction false} ReceivedArePrefix(received: seq<Payload>, sent: seq<Payload>)
    requires forall m :: m in received ==> |m| < U32
    requires forall m :: m in sent ==> |m| < U32
    requires Frames(received) <= Frames(sent)
    ensures received <= sent
    decreases |received|
  {
    if received != [] {
      assert |Frames(received)| >= |Frame(received[0])| >= 4;
      if sent != [] {
        var r, s := Frames(received[1..]), Frames(sent[1..]);
        var rest := Frames(sent)[|Frames(received)|..];
        assert Frame(received[0]) + (r + rest) == Frame(sent[0]) + s;
        FrameUnique(received[0], sent[0], r + rest, s);
        ReceivedArePrefix(received[1..], sent[1..]);
      }
    }
  }

  /** The beginning of some frame, short of its end. */
  ghost predicate PartOfFrame(x: Payload) {
    exists body: Payload :: |body| < U32 && x < Frame(body)
  }

  /** A header read off the stream is the header of a body of that length. */
  lemma HeaderIs(h: Payload)
    requires |h| == 4
    ensures LE32(FromLE32(h)) == h
  {
    var b0: int, b1: int, b2: int, b3: int := h[0], h[1], h[2], h[3];
    var w: int := FromLE32(h);
    assert w == b0 + 256 * (b1 + 256 * (b2 + 256 * b3));
    assert w / 256 == b1 + 256 * (b2 + 256 * b3);
    assert w / 256 / 256 == b2 + 256 * b3;
  }

  lemma FrameBegins(h: Payload, begun: Payload, missing: Payload)
    requires |h| == 4 && |begun| + |missing| == FromLE32(h) && missing != []
    ensures h + begun < Frame(begun + missing)
  {
    HeaderIs(h);
    assert Frame(begun + missing) == h + (begun + missing);
    assert h + (begun + missing) == (h + begun) + missing;
  }

  function Zeros(n: nat): (b: Payload)
    ensures |b| == n
  {
    seq(n, i => 0)
  }

  lemma BeginsFrame(x: Payload, body: Payload)
    requires |body| < U32 && x < Frame(body)
    ensures PartOfFrame(x)
  {
  }

  lemma InsideBody(h: Payload, begun: Payload)
    requires |h| == 4 && |begun| < FromLE32(h)
    ensures PartOfFrame(h + begun)
  {
    var missing := Zeros(FromLE32(h) - |begun|);
    FrameBegins(h, begun, missing);
    BeginsFrame(h + begun, begun + missing);
  }

  lemma NothingYet()
    ensures PartOfFrame([])
  {
    assert [] < Frame([]);
  }

  /** Nothing, or a header and fewer body bytes than it announces. */
  lemma InsideFrame(x: Payload)
    requires x == [] || (|x| >= 4 && |x| - 4 < FromLE32(x[..4]))
    ensures PartOfFrame(x)
  {
    if x == [] {
      NothingYet();
    } else {
      InsideBody(x[..4], x[4..]);
      assert x == x[..4] + x[4..];
    }
  }

  /** Headers apart, as many bytes are on the stream as were handed to `send`. */
  lemma {:induction false} FramesLength(ms: seq<Payload>)
    requires forall m :: m in ms ==> |m| < U32
    ensures |Frames(ms)| == 4 * |ms| + |Concat(ms)|
    decreases |ms|
  {
    if ms != [] {
      FramesLength(ms[1..]);
    }
  }
}
