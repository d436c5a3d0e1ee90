/** The single-producer, single-consumer byte ring in shared memory, with 32-bit counters that wrap. */
module SharedRing {
  import opened Bytes

  const MIN_LOG: nat := 3
  const MAX_LOG: nat := 30

  /** `buf_size` is a power of two between 8 and 2^30. */
  predicate RingLog(k: nat) {
    MIN_LOG <= k <= MAX_LOG
  }

  lemma RingSizes(k: nat)
    requires RingLog(k)
    ensures 8 <= Pow2(k) <= 0x4000_0000
  {
    Pow2Values();
    Pow2Monotone(3, k);
    Pow2Monotone(k, 30);
  }

  /** The counters wrap modulo a multiple of the ring size. */
  lemma WrapKeepsSlot(x: nat, k: nat)
    requires RingLog(k)
    ensures Wrap(x) % Pow2(k) == x % Pow2(k)
  {
    Pow2Values();
    Pow2Sum(k, 32 - k);
    ModOfMultiple(x, Pow2(k), Pow2(32 - k));
  }

  /** So masking a wrapped counter finds the true slot. */
  lemma MaskedWrap(x: nat, k: nat)
    requires RingLog(k)
    ensures And(Wrap(x), Pow2(k) - 1) == x % Pow2(k)
  {
    MaskIsMod(Wrap(x), k);
    WrapKeepsSlot(x, k);
  }

  /** The wrapped difference of two counters is their true distance while that fits 32 bits. */
  lemma WrappedDistance(a: nat, b: nat)
    requires a <= b < a + U32
    ensures Wrap(Wrap(b) - Wrap(a)) == b - a
  {
    var d := b - a;
    ModShift(a, U32, d);
    if Wrap(b) - Wrap(a) < 0 {
      ModUnique(Wrap(b) - Wrap(a), U32, -1, d);
    }
  }

  lemma WrapAdd(a: nat, n: nat)
    requires n < U32
    ensures Wrap(Wrap(a) + n) == Wrap(a + n)
  {
    ModShift(a, U32, n);
    if Wrap(a) + n >= U32 {
      ModUnique(Wrap(a) + n, U32, 1, Wrap(a) + n - U32);
    }
  }

  /**
   The slot byte `j` of a copy of `n` bytes from slot `start` goes to or comes from, as the two
   `memcpy` calls split it: up to the end of the buffer, then from its start.
   */
  function PieceSlot(start: int, size: nat, n: int, j: int): int {
    var l := Min(n, size - start);
    if j < l then start + j else j - l
  }

  /** The same, for the counter the copy starts at. */
  function CopySlot(counter: u32, size: nat, n: int, j: int): int
    requires size > 0
  {
    PieceSlot(And(counter, size - 1), size, n, j)
  }

  /** Together the two pieces are the consecutive positions, taken modulo the ring size. */
  lemma PieceSlotIs(x: nat, k: nat, n: int, j: int)
    requires RingLog(k) && 0 <= j < n <= Pow2(k)
    ensures PieceSlot(x % Pow2(k), Pow2(k), n, j) == (x + j) % Pow2(k)
    ensures 0 <= PieceSlot(x % Pow2(k), Pow2(k), n, j) < Pow2(k)
  {
    ModShift(x, Pow2(k), j);
  }

  lemma CopySlotIs(x: nat, k: nat, n: int, j: int)
    requires RingLog(k) && 0 <= j < n <= Pow2(k)
    ensures CopySlot(Wrap(x), Pow2(k), n, j) == (x + j) % Pow2(k)
    ensures 0 <= CopySlot(Wrap(x), Pow2(k), n, j) < Pow2(k)
  {
    MaskedWrap(x, k);
    PieceSlotIs(x, k, n, j);
  }

  /** `can_put` on the counter values it loads. */
  function CanPut(inn: u32, outt: u32, size: u32, bufSize: nat): bool {
    Wrap(Wrap(inn - outt) + size) <= bufSize
  }

  function CanGet(inn: u32, outt: u32, size: u32): bool {
    Wrap(inn - outt) >= size
  }

  lemma CanPutSum(written: nat, taken: nat, size: u32, k: nat)
    requires RingLog(k) && taken <= written <= taken + Pow2(k)
    ensures CanPut(Wrap(written), Wrap(taken), size, Pow2(k)) <==> Wrap(written - taken + size) <= Pow2(k)
  {
    RingSizes(k);
    WrappedDistance(taken, written);
    CanPutOf(Wrap(written), Wrap(taken), written - taken, size, Pow2(k));
  }

  lemma CanPutOf(inn: u32, outt: u32, occupied: nat, size: u32, bufSize: nat)
    requires Wrap(inn - outt) == occupied
    ensures CanPut(inn, outt, size, bufSize) <==> Wrap(occupied + size) <= bufSize
  {
  }

  lemma WrapOnce(x: int)
    requires 0 <= x < 2 * U32
    ensures Wrap(x) == if x < U32 then x else x - U32
  {
    ModUnique(x, U32, if x < U32 then 0 else 1, if x < U32 then x else x - U32);
  }

  /**
   `can_put` says whether the bytes fit, for every size except those whose sum with the
   occupancy wraps to a small number; no size up to the ring size is among them.
   */
  lemma CanPutIff(written: nat, taken: nat, size: u32, k: nat)
    requires RingLog(k) && taken <= written <= taken + Pow2(k)
    ensures (CanPut(Wrap(written), Wrap(taken), size, Pow2(k)) <==> written - taken + size <= Pow2(k))
            <==> !(U32 <= written - taken + size <= U32 + Pow2(k))
    ensures size <= Pow2(k) ==> written - taken + size < U32
  {
    RingSizes(k);
    CanPutSum(written, taken, size, k);
    WrapOnce(written - taken + size);
  }

  lemma CanGetIs(written: nat, taken: nat, size: u32, k: nat)
    requires RingLog(k) && taken <= written <= taken + Pow2(k)
    ensures CanGet(Wrap(written), Wrap(taken), size) <==> size <= written - taken
  {
    RingSizes(k);
    WrappedDistance(taken, written);
  }

  /** The `min` of `put`: room left, as the wrapped counters give it. */
  lemma RoomIs(written: nat, taken: nat, k: nat)
    requires RingLog(k) && taken <= written <= taken + Pow2(k)
    ensures Wrap(Pow2(k) - Wrap(written) + Wrap(taken)) == Pow2(k) - (written - taken)
  {
    RingSizes(k);
    WrappedDistance(taken, written);
    var d := Wrap(written) - Wrap(taken);
    var room := Pow2(k) - (written - taken);
    ModUnique(Pow2(k) - d, U32, if d < 0 then 1 else 0, room);
  }

  /** The slots of positions `lo .. hi` hold the bytes of `stream` at those positions. */
  ghost predicate Holds(slots: seq<byte>, size: nat, stream: seq<byte>, lo: nat, hi: nat)
    requires size > 0 && |slots| == size && hi <= |stream|
  {
    forall i {:trigger stream[i]} :: lo <= i < hi ==> slots[i % size] == stream[i]
  }

  /** `after` is `before` with the `n` slots of one copy filled from `buf`. */
  ghost predicate Copied(before: seq<byte>, after: seq<byte>, start: nat, buf: seq<byte>, n: nat)
    requires |before| == |after| && n <= |buf|
  {
    && (forall j {:trigger PieceSlot(start, |after|, n, j)} :: 0 <= j < n ==>
          0 <= PieceSlot(start, |after|, n, j) < |after| && after[PieceSlot(start, |after|, n, j)] == buf[j])
    && (forall s {:trigger after[s]} :: 0 <= s < |after| && after[s] != before[s] ==>
          exists j :: 0 <= j < n && s == PieceSlot(start, |after|, n, j))
  }

  /** Filling the slots behind position `hi` extends what the ring holds and spares what it held. */
  lemma HoldsMore(before: seq<byte>, after: seq<byte>, k: nat, stream: seq<byte>, lo: nat, buf: seq<byte>, n: nat)
    requires RingLog(k) && |before| == |after| == Pow2(k) && lo <= |stream|
    requires n <= |buf| && |stream| + n <= lo + Pow2(k)
    requires Holds(before, Pow2(k), stream, lo, |stream|)
    requires Copied(before, after, |stream| % Pow2(k), buf, n)
    ensures Holds(after, Pow2(k), stream + buf[..n], lo, |stream| + n)
  {
    var size := Pow2(k);
    var longer := stream + buf[..n];
    forall i {:trigger longer[i]} | lo <= i < |stream| + n
      ensures after[i % size] == longer[i]
    {
      if i < |stream| {
        if after[i % size] != before[i % size] {
          var j :| 0 <= j < n && i % size == PieceSlot(|stream| % size, size, n, j);
          PieceSlotIs(|stream|, k, n, j);
          SlotsDiffer(i, |stream| + j, size);
        }
        assert stream[i] == longer[i];
      } else {
        PieceSlotIs(|stream|, k, n, i - |stream|);
      }
    }
  }

  /** The two pieces copied out of the buffer. */
  function TwoPieces(slots: seq<byte>, start: nat, n: nat): seq<byte>
    requires start < |slots| && n <= |slots|
  {
    var l := Min(n, |slots| - start);
    slots[start..start + l] + slots[..n - l]
  }

  lemma PieceRead(slots: seq<byte>, start: nat, n: nat, j: nat)
    requires start < |slots| && j < n <= |slots|
    ensures |TwoPieces(slots, start, n)| == n && 0 <= PieceSlot(start, |slots|, n, j) < |slots|
    ensures TwoPieces(slots, start, n)[j] == slots[PieceSlot(start, |slots|, n, j)]
  {
  }

  /** Together the pieces are the next `n` bytes of the stream. */
  lemma PiecesRead(slots: seq<byte>, k: nat, stream: seq<byte>, lo: nat, n: nat)
    requires RingLog(k) && |slots| == Pow2(k) && lo + n <= |stream| && n <= Pow2(k)
    requires Holds(slots, Pow2(k), stream, lo, lo + n)
    ensures TwoPieces(slots, lo % Pow2(k), n) == stream[lo..lo + n]
  {
    var data := TwoPieces(slots, lo % Pow2(k), n);
    forall j | 0 <= j < n
      ensures data[j] == stream[lo + j]
    {
      PieceRead(slots, lo % Pow2(k), n, j);
      PieceSlotIs(lo, k, n, j);
      assert slots[(lo + j) % Pow2(k)] == stream[lo + j];
    }
  }

  class SharedMemoryView {
    const k: nat
    const bufSize: nat
    const buffer: array<byte>
    var inn: u32
    var outt: u32
    ghost var published: seq<byte>   // every byte ever put
    ghost var taken: nat             // how many of them were got
    ghost var writeLog: seq<seq<byte>> // what each `write` of this process published
    ghost var readLog: seq<seq<byte>>  // what each `read` of this process took

    /** The wrapped counters and the masked slots stand for unbounded ones. */
    ghost predicate Valid()
      reads this, buffer
    {
      && RingLog(k) && bufSize == Pow2(k) && buffer.Length == bufSize
      && taken <= |published| <= taken + bufSize
      && inn == Wrap(|published|) && outt == Wrap(taken)
      && Holds(buffer[..], bufSize, published, taken, |published|)
    }

    /** The FIFO queue the ring stands for. */
    ghost function Contents(): seq<byte>
      requires Valid()
      reads this, buffer
    {
      published[taken..]
    }

    constructor (k: nat)
      requires RingLog(k)
      ensures Valid() && fresh(buffer) && this.k == k && published == [] && taken == 0
    {
      this.k, bufSize := k, Pow2(k);
      buffer := new byte[Pow2(k)](i => 0);
      inn, outt := 0, 0;
      published, taken := [], 0;
      writeLog, readLog := [], [];
    }

    /** `counter & (buf_size - 1)`. */
    method StartSlot(counter: u32) returns (start: nat)
      requires RingLog(k) && bufSize == Pow2(k)
      ensures start == counter % bufSize
    {
      MaskIsMod(counter, k);
      start := And(counter, bufSize - 1);
    }

    /** The two `memcpy` calls of `put`. */
    method CopyIn(buf: seq<byte>, len: nat)
      requires RingLog(k) && buffer.Length == bufSize == Pow2(k) && len <= |buf| && len <= bufSize
      modifies buffer
      ensures Copied(old(buffer[..]), buffer[..], inn % bufSize, buf, len)
    {
      var start := StartSlot(inn);
      var l: nat := Min(len, bufSize - start);
      ghost var before := buffer[..];
      forall j | 0 <= j < l {
        buffer[start + j] := buf[j];
      }
      forall j | 0 <= j < len - l {
        buffer[j] := buf[l + j];
      }
      PiecesCopied(before, buffer[..], start, buf, len);
    }

    static lemma PiecesCopied(before: seq<byte>, after: seq<byte>, start: nat, buf: seq<byte>, len: nat)
      requires |before| == |after| > start && len <= |buf| && len <= |after|
      requires var l := Min(len, |after| - start);
               && (forall j :: 0 <= j < l ==> after[start + j] == buf[j])
               && (forall j :: 0 <= j < len - l ==> after[j] == buf[l + j])
               && (forall s :: 0 <= s < |after| && !(start <= s < start + l) && s >= len - l ==> after[s] == before[s])
      ensures Copied(before, after, start, buf, len)
    {
      var l := Min(len, |after| - start);
      forall j {:trigger PieceSlot(start, |after|, len, j)} | 0 <= j < len
        ensures 0 <= PieceSlot(start, |after|, len, j) < |after| && after[PieceSlot(start, |after|, len, j)] == buf[j]
      {
        if j >= l {
          assert after[j - l] == buf[l + (j - l)];
        }
      }
      forall s {:trigger after[s]} | 0 <= s < |after| && after[s] != before[s]
        ensures exists j :: 0 <= j < len && s == PieceSlot(start, |after|, len, j)
      {
        var j := if start <= s < start + l then s - start else s + l;
        assert 0 <= j < len && s == PieceSlot(start, |after|, len, j);
      }
    }

    /** `put`: as much of `buf` as fits joins the queue. */
    method Put(buf: seq<byte>)
      requires Valid() && |buf| < U32
      modifies this`inn, this`published, buffer
      ensures Valid() && taken == old(taken)
      ensures published == old(published) + buf[..Min(|buf|, bufSize - |old(Contents())|)]
    {
      RoomIs(|published|, taken, k);
      WrapKeepsSlot(|published|, k);
      var len: nat := Min(|buf|, Wrap(bufSize - inn + outt));
      ghost var before := buffer[..];
      CopyIn(buf, len);
      HoldsMore(before, buffer[..], k, published, taken, buf, len);
      RingSizes(k);
      WrapAdd(|published|, len);
      inn := Wrap(inn + len);
      published := published + buf[..len];
    }

    /** The two `memcpy` calls of `get`. */
    method CopyOut(n: nat) returns (data: seq<byte>)
      requires Valid() && taken + n <= |published| && n <= bufSize
      ensures data == published[taken..taken + n]
    {
      WrapKeepsSlot(taken, k);
      var start := StartSlot(outt);
      var l := Min(n, bufSize - start);
      data := buffer[start..start + l] + buffer[..n - l];
      assert data == TwoPieces(buffer[..], start, n);
      PiecesRead(buffer[..], k, published, taken, n);
    }

    /** `get`: as many bytes as there are, up to `len`, leave the front of the queue. */
    method Get(len: u32) returns (data: seq<byte>)
      requires Valid()
      modifies this`outt, this`taken
      ensures Valid() && published == old(published)
      ensures data == old(Contents())[..Min(len, |old(Contents())|)]
      ensures Contents() == old(Contents())[|data|..] && taken == old(taken) + |data|
    {
      RingSizes(k);
      WrappedDistance(taken, |published|);
      var n: nat := Min(len, Wrap(inn - outt));
      data := CopyOut(n);
      WrapAdd(taken, n);
      outt := Wrap(outt + n);
      taken := taken + n;
    }

    // ----- blocking calls; the other process runs between two polls -----

    /** The other process gets some bytes. */
    method PeerGets()
      requires Valid()
      modifies this`outt, this`taken
      ensures Valid() && published == old(published) && taken >= old(taken)
    {
      var n: int := *;
      if 0 <= n <= bufSize {
        RingSizes(k);
        var data := Get(n);
      }
    }

    /** The other process puts some bytes. */
    method PeerPuts()
      requires Valid()
      modifies this`inn, this`published, buffer
      ensures Valid() && old(published) <= published && taken == old(taken)
    {
      var buf: seq<byte> := *;
      if |buf| < U32 {
        Put(buf);
      }
    }

    /**
     `write`, watched for `patience` polls: all of `buf` is published in one piece, or it is still
     waiting because it does not fit.
     */
    method Write(buf: seq<byte>, patience: nat) returns (done: bool)
      requires Valid() && |buf| <= bufSize
      modifies this`inn, this`outt, this`published, this`taken, this`writeLog, buffer
      ensures Valid() && taken >= old(taken)
      ensures published == old(published) + (if done then buf else [])
      ensures writeLog == old(writeLog) + (if done then [buf] else [])
      ensures !done ==> |Contents()| + |buf| > bufSize
    {
      RingSizes(k);
      var polls := 0;
      while !CanPut(inn, outt, |buf|, bufSize)
        invariant Valid() && published == old(published) && taken >= old(taken) && writeLog == old(writeLog)
        decreases patience - polls
      {
        if polls >= patience {
          CanPutIff(|published|, taken, |buf|, k);
          return false;
        }
        PeerGets();
        polls := polls + 1;
      }
      CanPutIff(|published|, taken, |buf|, k);
      Put(buf);
      assert buf[..|buf|] == buf;
      writeLog := writeLog + [buf];
      done := true;
    }

    /** `read`, likewise: the next `len` bytes of the stream are taken, or there are not as many. */
    method Read(len: u32, patience: nat) returns (done: bool, data: seq<byte>)
      requires Valid() && len <= bufSize
      modifies this`inn, this`outt, this`published, this`taken, this`readLog, buffer
      ensures Valid() && old(published) <= published
      ensures taken == old(taken) + (if done then len else 0)
      ensures done ==> data == published[old(taken)..taken]
      ensures readLog == old(readLog) + (if done then [data] else [])
      ensures !done ==> |Contents()| < len
    {
      data := [];
      var polls := 0;
      while !CanGet(inn, outt, len)
        invariant Valid() && old(published) <= published && taken == old(taken) && readLog == old(readLog)
        decreases patience - polls
      {
        if polls >= patience {
          CanGetIs(|published|, taken, len, k);
          return false, [];
        }
        PeerPuts();
        polls := polls + 1;
      }
      CanGetIs(|published|, taken, len, k);
      data := Get(len);
      readLog := readLog + [data];
      done := true;
    }
  }
}
