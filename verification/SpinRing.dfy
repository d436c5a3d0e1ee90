/**
 The ring in spin mode, step by step: one writer and one reader whose every atomic load,
 byte copy and counter add is an action of its own, in any interleaving.
 */
module SpinRing {
  import opened Bytes
  import opened SharedRing

  /** `write`: polling `can_put`, about to load `out` for the `min`, copying, or not running. */
  datatype Writer = WIdle | WPoll(buf: seq<byte>) | WClamp(buf: seq<byte>)
                  | WCopy(buf: seq<byte>, n: nat, done: nat)

  /** `read`, likewise. */
  datatype Reader = RIdle | RPoll(len: nat) | RClamp(len: nat)
                  | RCopy(len: nat, n: nat, data: seq<byte>)

  datatype Spin = Spin(
    k: nat,
    slots: seq<byte>,
    inn: u32,
    outt: u32,
    w: Writer,
    r: Reader,
    // history
    published: seq<byte>,   // bytes of completed writes
    consumed: seq<byte>     // bytes of completed reads
  )

  datatype Action = StartWrite(buf: seq<byte>) | StartRead(len: nat) | WriterStep | ReaderStep

  function Init(k: nat): Spin {
    Spin(k, seq(Pow2(k), i => 0), 0, 0, WIdle, RIdle, [], [])
  }

  function StepWriter(s: Spin): Spin {
    var size := Pow2(s.k);
    match s.w
    case WIdle => s
    case WPoll(buf) =>
      if |buf| < U32 && CanPut(s.inn, s.outt, |buf|, size) then s.(w := WClamp(buf)) else s
    case WClamp(buf) =>
      s.(w := WCopy(buf, Min(|buf|, Wrap(size - s.inn + s.outt)), 0))
    case WCopy(buf, n, done) =>
      if done < n <= |buf| then
        var slot := CopySlot(s.inn, size, n, done);
        if 0 <= slot < |s.slots| then s.(slots := s.slots[slot := buf[done]], w := WCopy(buf, n, done + 1)) else s
      else
        s.(inn := Wrap(s.inn + n), published := s.published + buf[..Min(n, |buf|)], w := WIdle)
  }

  function StepReader(s: Spin): Spin {
    var size := Pow2(s.k);
    match s.r
    case RIdle => s
    case RPoll(len) =>
      if len < U32 && CanGet(s.inn, s.outt, len) then s.(r := RClamp(len)) else s
    case RClamp(len) =>
      s.(r := RCopy(len, Min(len, Wrap(s.inn - s.outt)), []))
    case RCopy(len, n, data) =>
      if |data| < n then
        var slot := CopySlot(s.outt, size, n, |data|);
        if 0 <= slot < |s.slots| then s.(r := RCopy(len, n, data + [s.slots[slot]])) else s
      else
        s.(outt := Wrap(s.outt + n), consumed := s.consumed + data, r := RIdle)
  }

  /** Callers pass at most `buf_size` bytes at a time. */
  function Apply(s: Spin, a: Action): Spin {
    match a
    case StartWrite(buf) => if s.w.WIdle? && |buf| <= Pow2(s.k) then s.(w := WPoll(buf)) else s
    case StartRead(len) => if s.r.RIdle? && len <= Pow2(s.k) then s.(r := RPoll(len)) else s
    case WriterStep => StepWriter(s)
    case ReaderStep => StepReader(s)
  }

  function Exec(s: Spin, acts: seq<Action>): Spin
    decreases |acts|
  {
    if acts == [] then s else Exec(Apply(s, acts[0]), acts[1..])
  }

  // ----- invariant -----

  ghost predicate WriterOk(s: Spin)
    requires |s.slots| == Pow2(s.k)
  {
    var room := |s.consumed| + Pow2(s.k) - |s.published|;
    match s.w
    case WIdle => true
    case WPoll(buf) => |buf| <= Pow2(s.k)
    case WClamp(buf) => |buf| <= room
    case WCopy(buf, n, done) =>
      && done <= n == |buf| <= room
      && (forall j {:trigger buf[j]} :: 0 <= j < done ==> s.slots[(|s.published| + j) % Pow2(s.k)] == buf[j])
  }

  ghost predicate ReaderOk(s: Spin) {
    match s.r
    case RIdle => true
    case RPoll(len) => len <= Pow2(s.k)
    case RClamp(len) => |s.consumed| + len <= |s.published|
    case RCopy(len, n, data) =>
      && |data| <= n == len && |s.consumed| + n <= |s.published|
      && data == s.published[|s.consumed|..|s.consumed| + |data|]
  }

  ghost predicate Inv(s: Spin) {
    && RingLog(s.k) && |s.slots| == Pow2(s.k)
    && |s.consumed| <= |s.published| <= |s.consumed| + Pow2(s.k)
    && s.inn == Wrap(|s.published|) && s.outt == Wrap(|s.consumed|)
    && s.consumed == s.published[..|s.consumed|]
    && Holds(s.slots, Pow2(s.k), s.published, |s.consumed|, |s.published|)
    && WriterOk(s)
    && ReaderOk(s)
  }

  lemma WriteByteKeeps(s: Spin)
    requires Inv(s) && s.w.WCopy? && s.w.done < s.w.n
    ensures Inv(StepWriter(s)) && StepWriter(s).w == s.w.(done := s.w.done + 1)
  {
    var t := StepWriter(s);
    var buf, n, done := s.w.buf, s.w.n, s.w.done;
    var size, at := Pow2(s.k), |s.published|;
    CopySlotIs(at, s.k, n, done);
    assert t.slots == s.slots[(at + done) % size := buf[done]];
    forall i {:trigger t.published[i]} | |s.consumed| <= i < at
      ensures t.slots[i % size] == t.published[i]
    {
      SlotsDiffer(i, at + done, size);
    }
    forall j {:trigger buf[j]} | 0 <= j < done + 1
      ensures t.slots[(at + j) % size] == buf[j]
    {
      if j < done {
        SlotsDiffer(at + j, at + done, size);
      }
    }
  }

  lemma PublishKeeps(s: Spin)
    requires Inv(s) && s.w.WCopy? && s.w.done == s.w.n
    ensures Inv(StepWriter(s))
    ensures StepWriter(s).published == s.published + s.w.buf
  {
    var t := StepWriter(s);
    var buf := s.w.buf;
    assert buf[..|buf|] == buf;
    RingSizes(s.k);
    WrapAdd(|s.published|, |buf|);
    forall i {:trigger t.published[i]} | |t.consumed| <= i < |t.published|
      ensures t.slots[i % Pow2(t.k)] == t.published[i]
    {
      if i >= |s.published| {
        assert t.published[i] == buf[i - |s.published|];
      } else {
        assert t.published[i] == s.published[i];
      }
    }
    assert t.published[..|s.consumed|] == s.published[..|s.consumed|];
    if s.r.RCopy? {
      var hi := |s.consumed| + |s.r.data|;
      assert t.published[|s.consumed|..hi] == s.published[|s.consumed|..hi];
    }
  }

  /** The writer's poll and `min`: a load of `out`, however stale, is conservative. */
  lemma WriterLoadKeeps(s: Spin)
    requires Inv(s) && (s.w.WPoll? || s.w.WClamp?)
    ensures Inv(StepWriter(s))
  {
    if s.w.WPoll? {
      RingSizes(s.k);
      CanPutIff(|s.published|, |s.consumed|, |s.w.buf|, s.k);
    } else {
      RoomIs(|s.published|, |s.consumed|, s.k);
    }
  }

  /** The reader's poll and `min`, likewise for loads of `in`. */
  lemma ReaderLoadKeeps(s: Spin)
    requires Inv(s) && (s.r.RPoll? || s.r.RClamp?)
    ensures Inv(StepReader(s))
  {
    RingSizes(s.k);
    if s.r.RPoll? {
      CanGetIs(|s.published|, |s.consumed|, s.r.len, s.k);
    } else {
      WrappedDistance(|s.consumed|, |s.published|);
    }
  }

  lemma ReadByteKeeps(s: Spin)
    requires Inv(s) && s.r.RCopy? && |s.r.data| < s.r.n
    ensures Inv(StepReader(s))
    ensures StepReader(s) == s.(r := s.r.(data := s.r.data + [s.published[|s.consumed| + |s.r.data|]]))
  {
    var n, data, lo := s.r.n, s.r.data, |s.consumed|;
    CopySlotIs(lo, s.k, n, |data|);
    assert s.slots[(lo + |data|) % Pow2(s.k)] == s.published[lo + |data|];
    var t := s.(r := s.r.(data := data + [s.published[lo + |data|]]));
    assert StepReader(s) == t;
    assert t.r.data == s.published[lo..lo + |data| + 1];
    assert WriterOk(t);
  }

  lemma TakeKeeps(s: Spin)
    requires Inv(s) && s.r.RCopy? && |s.r.data| == s.r.n
    ensures Inv(StepReader(s))
    ensures StepReader(s).consumed == s.published[..|s.consumed| + s.r.n]
  {
    var t := StepReader(s);
    var n, lo := s.r.n, |s.consumed|;
    RingSizes(s.k);
    WrapAdd(lo, n);
    assert t.consumed == s.published[..lo] + s.published[lo..lo + n];
  }

  lemma WriterKeeps(s: Spin)
    requires Inv(s)
    ensures Inv(StepWriter(s))
  {
    match s.w
    case WIdle =>
    case WCopy(_, n, done) => if done < n { WriteByteKeeps(s); } else { PublishKeeps(s); }
    case _ => WriterLoadKeeps(s);
  }

  lemma ReaderKeeps(s: Spin)
    requires Inv(s)
    ensures Inv(StepReader(s))
  {
    match s.r
    case RIdle =>
    case RCopy(_, n, data) => if |data| < n { ReadByteKeeps(s); } else { TakeKeeps(s); }
    case _ => ReaderLoadKeeps(s);
  }

  lemma StepKeeps(s: Spin, a: Action)
    requires Inv(s)
    ensures Inv(Apply(s, a))
  {
    match a
    case StartWrite(_) =>
    case StartRead(_) =>
    case WriterStep => WriterKeeps(s);
    case ReaderStep => ReaderKeeps(s);
  }

  lemma InitInv(k: nat)
    requires RingLog(k)
    ensures Inv(Init(k))
  {
  }

  lemma {:induction false} RunKeeps(s: Spin, acts: seq<Action>)
    requires Inv(s)
    ensures Inv(Exec(s, acts))
    decreases |acts|
  {
    if acts != [] {
      StepKeeps(s, acts[0]);
      RunKeeps(Apply(s, acts[0]), acts[1..]);
    }
  }

  // ----- what it means -----

  /** The FIFO byte queue the ring refines. */
  function Queue(s: Spin): seq<byte> {
    if |s.consumed| <= |s.published| then s.published[|s.consumed|..] else []
  }

  /** One step of the queue: nothing, a whole buffer appended, or a whole request taken off the front. */
  ghost predicate QueueStep(s: Spin, t: Spin) {
    || (Queue(t) == Queue(s) && t.consumed == s.consumed)
    || (s.w.WCopy? && t.w.WIdle? && Queue(t) == Queue(s) + s.w.buf && t.consumed == s.consumed)
    || (s.r.RCopy? && t.r.RIdle? && s.r.len <= |Queue(s)| && Queue(t) == Queue(s)[s.r.len..]
        && t.consumed == s.consumed + Queue(s)[..s.r.len])
  }

  lemma UnpublishedStep(s: Spin)
    requires s.w.WCopy? ==> s.w.done < s.w.n <= |s.w.buf|
    ensures StepWriter(s).published == s.published && StepWriter(s).consumed == s.consumed
  {
  }

  lemma WriterRefines(s: Spin)
    requires Inv(s)
    ensures QueueStep(s, StepWriter(s))
  {
    if s.w.WCopy? && s.w.done == s.w.n {
      PublishedStep(s);
    } else {
      UnpublishedStep(s);
    }
  }

  lemma PublishedStep(s: Spin)
    requires s.w.WCopy? && s.w.done == s.w.n == |s.w.buf| && |s.consumed| <= |s.published|
    ensures QueueStep(s, StepWriter(s))
  {
    var buf := s.w.buf;
    assert buf[..|buf|] == buf;
    assert Queue(StepWriter(s)) == Queue(s) + buf;
  }

  lemma ReaderRefines(s: Spin)
    requires Inv(s)
    ensures QueueStep(s, StepReader(s))
  {
    if s.r.RCopy? && |s.r.data| == s.r.n {
      TakeKeeps(s);
      assert Queue(s)[..s.r.len] == s.published[|s.consumed|..|s.consumed| + s.r.n];
    }
  }

  /**
   Refinement: in every reachable state each step leaves the queue alone, or appends the whole
   buffer of a write, or hands the reader exactly the number of bytes it asked for, taken from
   the front of the queue.
   */
  lemma RefinesQueue(k: nat, acts: seq<Action>, a: Action)
    requires RingLog(k)
    ensures QueueStep(Exec(Init(k), acts), Apply(Exec(Init(k), acts), a))
  {
    InitInv(k);
    RunKeeps(Init(k), acts);
    var s := Exec(Init(k), acts);
    match a
    case WriterStep => WriterRefines(s);
    case ReaderStep => ReaderRefines(s);
    case _ =>
  }

  /**
   In every reachable state the bytes read are a prefix of the bytes written, the wrapped
   counters give the true occupancy, and neither `min` has cut anything off.
   */
  lemma CountersAndClamps(k: nat, acts: seq<Action>)
    requires RingLog(k)
    ensures var s := Exec(Init(k), acts);
            && s.consumed <= s.published
            && Wrap(s.inn - s.outt) == |s.published| - |s.consumed| <= Pow2(k)
            && (s.w.WCopy? ==> s.w.n == |s.w.buf|)
            && (s.r.RCopy? ==> s.r.n == s.r.len)
  {
    InitInv(k);
    RunKeeps(Init(k), acts);
    var s := Exec(Init(k), acts);
    KeepsLog(Init(k), acts);
    RingSizes(k);
    WrappedDistance(|s.consumed|, |s.published|);
  }

  lemma {:induction false} KeepsLog(s: Spin, acts: seq<Action>)
    ensures Exec(s, acts).k == s.k
    decreases |acts|
  {
    if acts != [] {
      KeepsLog(Apply(s, acts[0]), acts[1..]);
    }
  }

  /**
   The bytes in `[out, in)` never change: in every reachable state each slot of the queue holds
   its own byte, and no step writes to a slot that is still in the queue after it.
   */
  lemma QueuedBytesNeverChange(k: nat, acts: seq<Action>, a: Action, i: nat)
    requires RingLog(k)
    requires |Apply(Exec(Init(k), acts), a).consumed| <= i < |Exec(Init(k), acts).published|
    ensures var s := Exec(Init(k), acts);
            var t := Apply(s, a);
            && |s.slots| == |t.slots| == Pow2(k)
            && t.slots[i % Pow2(k)] == s.slots[i % Pow2(k)] == s.published[i]
  {
    InitInv(k);
    RunKeeps(Init(k), acts);
    KeepsLog(Init(k), acts);
    var s := Exec(Init(k), acts);
    KeepsPublished(s, a);
    assert Apply(s, a).published[i] == s.published[i];
  }

  lemma KeepsPublished(s: Spin, a: Action)
    requires Inv(s)
    ensures Inv(Apply(s, a)) && Apply(s, a).k == s.k
    ensures s.published <= Apply(s, a).published && |s.consumed| <= |Apply(s, a).consumed|
  {
    StepKeeps(s, a);
  }

  lemma SlotsApart(s: Spin, i: nat, j: nat)
    requires Inv(s) && s.w.WCopy? && s.r.RCopy? && i < s.w.n && j < s.r.n
    ensures CopySlot(s.inn, Pow2(s.k), s.w.n, i) != CopySlot(s.outt, Pow2(s.k), s.r.n, j)
  {
    CopySlotIs(|s.published|, s.k, s.w.n, i);
    CopySlotIs(|s.consumed|, s.k, s.r.n, j);
    SlotsDiffer(|s.consumed| + j, |s.published| + i, Pow2(s.k));
  }

  /** While a write and a read are both copying, no slot belongs to both. */
  lemma CopiesNeverOverlap(k: nat, acts: seq<Action>)
    requires RingLog(k)
    ensures var s := Exec(Init(k), acts);
            s.w.WCopy? && s.r.RCopy? ==>
              forall i: nat, j: nat :: i < s.w.n && j < s.r.n ==>
                CopySlot(s.inn, Pow2(s.k), s.w.n, i) != CopySlot(s.outt, Pow2(s.k), s.r.n, j)
  {
    InitInv(k);
    RunKeeps(Init(k), acts);
    var s := Exec(Init(k), acts);
    if s.w.WCopy? && s.r.RCopy? {
      forall i: nat, j: nat | i < s.w.n && j < s.r.n
        ensures CopySlot(s.inn, Pow2(s.k), s.w.n, i) != CopySlot(s.outt, Pow2(s.k), s.r.n, j)
      {
        SlotsApart(s, i, j);
      }
    }
  }
}
