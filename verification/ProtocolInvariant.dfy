/**
 What every step of the protocol keeps.  Everything is stated against two history values: `Log`,
 the message that belongs to each sequence number, and `left`, the messages that were given up
 while a copy of them was on some stream, each under the number it had.
 */
module ProtocolInvariant {
  import opened Bytes
  import opened Protocol

  /** What is handed over under a number is the message that belongs to it, or one given up under it. */
  predicate Stands(p: Packet, log: seq<Payload>, left: set<Packet>) {
    0 <= p.num && ((p.num < |log| && log[p.num] == p.body) || p in left)
  }

  /** Accepted messages followed by the one being sent: entry `n` is the message numbered `n`. */
  function Log(s: State): seq<Payload> {
    s.accepted + (if s.current.Some? then [s.current.value] else [])
  }

  // ----- the list as the receiver will see it -----

  function Bump(r: int, e: Element): int {
    if e.Data? then Max(r, e.num + 1) else r
  }

  /** The number expected after popping all of `list`, when `r` is expected now. */
  function Frontier(r: int, list: seq<Element>): int
    decreases |list|
  {
    if list == [] then r else Frontier(Bump(r, list[0]), list[1..])
  }

  /** No element ever carries a number above the one expected when it is popped. */
  ghost predicate NoGap(r: int, list: seq<Element>)
    decreases |list|
  {
    list == [] || ((list[0].Data? ==> list[0].num <= r) && NoGap(Bump(r, list[0]), list[1..]))
  }

  lemma {:induction false} FrontierAppend(r: int, list: seq<Element>, e: Element)
    ensures Frontier(r, list + [e]) == Bump(Frontier(r, list), e)
    ensures NoGap(r, list + [e]) <==> NoGap(r, list) && (e.Data? ==> e.num <= Frontier(r, list))
    decreases |list|
  {
    if list == [] {
      assert (list + [e])[1..] == [];
    } else {
      assert (list + [e])[0] == list[0] && (list + [e])[1..] == list[1..] + [e];
      FrontierAppend(Bump(r, list[0]), list[1..], e);
    }
  }

  /** The number everything pushed so far reaches: one past the highest number ever pushed. */
  function PushedUpTo(s: State): int {
    Frontier(s.recvIdx + 1, s.list)
  }

  // ----- the invariant -----

  /** A stream carries a contiguous run of numbers, each with what stands for it, and never skips one. */
  ghost predicate StreamOk(st: Stream, s: State, upTo: int) {
    && st.base <= s.next && st.base + |st.wire| <= s.next + 1
    && (forall i :: 0 <= i < |st.wire| ==>
          st.wire[i].num == st.base + i && Stands(st.wire[i], Log(s), s.left))
    && st.pushed <= |st.wire|
    && st.base + st.pushed <= upTo
    && (!st.writable ==> st.wire != [])
  }

  ghost predicate StreamsOk(streams: seq<Stream>, s: State, upTo: int) {
    forall i :: 0 <= i < |streams| ==> StreamOk(streams[i], s, upTo)
  }

  /** `m_notack_queue` is the contiguous run of unacknowledged numbers, each with its own message. */
  ghost predicate QueueOk(s: State) {
    && s.next == |s.accepted|
    && Acked(s) >= 0
    && (forall i :: 0 <= i < |s.queue| ==> s.queue[i] == Packet(Acked(s) + i, s.accepted[Acked(s) + i]))
    && (s.app.Enqueuing? ==> s.next > 0 && s.app.packet == Packet(s.next - 1, s.accepted[s.next - 1]))
  }

  ghost predicate LiveOk(s: State)
    requires s.streams != []
  {
    var c := Live(s);
    && c.read <= c.acked <= c.pushed
    && c.acked <= c.Confirmed()
    && c.base + c.read == Acked(s) + (if s.ack.Holding? then 1 else 0)
    && c.base + c.Confirmed() <= s.next
    && (s.ack.Holding? ==> s.ack.ack == Acked(s))
    && (c.writable && !s.app.Resending? ==> c.base + |c.wire| == s.next)
    && (s.app.Resending? ==> c.writable && c.base == Acked(s) && |c.wire| == s.app.pos <= |s.queue|)
    && (s.ack.NotStarted? ==> s.app.Idle? && s.next == 0 && c.wire == [])
  }

  ghost predicate ListOk(s: State) {
    && NoGap(s.recvIdx + 1, s.list)
    && PushedUpTo(s) <= s.next + 1
    && (forall i :: 0 <= i < |s.list| && s.list[i].Data? ==>
          Stands(Packet(s.list[i].num, s.list[i].body), Log(s), s.left))
    && (forall i :: 0 <= i < |s.list| && s.list[i].Control? ==> -INT_MAX - 1 <= s.list[i].cmd < 0)
    && |s.got| == s.recvIdx + 1
    && (forall i :: 0 <= i < |s.got| ==> Stands(Packet(i, s.got[i]), Log(s), s.left))
    && s.gaps == 0
  }

  ghost predicate Sound(s: State) {
    && s.streams != []
    && s.next <= INT_MAX
    && (s.current.Some? ==> s.app.Idle? || s.app.Resending?)
    && (s.current.Some? ==> s.next < INT_MAX)
    && QueueOk(s)
    && StreamsOk(s.streams, s, PushedUpTo(s))
    && LiveOk(s)
    && ListOk(s)
  }

  lemma InitInv()
    ensures Inv(Init)
  {
  }

  /** Every number pushed was pushed by some stream that is still remembered. */
  ghost predicate Witnessed(s: State) {
    PushedUpTo(s) <= 0 ||
    exists i :: 0 <= i < |s.streams| && PushedUpTo(s) <= s.streams[i].base + s.streams[i].pushed
  }

  ghost predicate Inv(s: State) {
    Sound(s) && Witnessed(s)
  }

  // ----- frames -----

  /** Nothing that stood for a number in `s` stops standing for it in `t`. */
  ghost predicate Upheld(s: State, t: State) {
    s.next <= t.next && Log(s) <= Log(t) && s.left <= t.left
  }

  lemma StreamUpheld(st: Stream, s: State, upTo: int, t: State, upTo': int)
    requires StreamOk(st, s, upTo) && Upheld(s, t) && upTo <= upTo'
    ensures StreamOk(st, t, upTo')
  {
    forall i | 0 <= i < |st.wire| ensures Stands(st.wire[i], Log(t), t.left) {
      assert Stands(st.wire[i], Log(s), s.left);
    }
  }

  /** Replacing one stream keeps the others sound, also when more has been logged or pushed. */
  lemma StreamsReplaced(s: State, i: nat, st: Stream, upTo: int, t: State, upTo': int)
    requires i < |s.streams| && StreamsOk(s.streams, s, upTo)
    requires Upheld(s, t) && upTo <= upTo' && StreamOk(st, t, upTo')
    ensures StreamsOk(s.streams[i := st], t, upTo')
  {
    forall j | 0 <= j < |s.streams| && j != i
      ensures StreamOk(s.streams[j], t, upTo')
    {
      StreamUpheld(s.streams[j], s, upTo, t, upTo');
    }
  }

  /** One more stream. */
  lemma StreamsExtended(s: State, st: Stream, upTo: int, t: State)
    requires StreamsOk(s.streams, s, upTo) && Upheld(s, t) && StreamOk(st, t, upTo)
    ensures StreamsOk(s.streams + [st], t, upTo)
  {
    forall j | 0 <= j < |s.streams + [st]|
      ensures StreamOk((s.streams + [st])[j], t, upTo)
    {
      if j < |s.streams| {
        StreamUpheld(s.streams[j], s, upTo, t, upTo);
      }
    }
  }

  lemma QueueSame(s: State, t: State)
    requires QueueOk(s) && t.next == s.next && t.accepted == s.accepted && t.queue == s.queue
    requires t.app.Enqueuing? <==> s.app.Enqueuing?
    requires t.app.Enqueuing? ==> t.app == s.app
    ensures QueueOk(t) && Acked(t) == Acked(s)
  {
    assert Acked(t) == Acked(s);
  }

  lemma ListSame(s: State, t: State)
    requires ListOk(s) && Upheld(s, t)
    requires t.list == s.list && t.recvIdx == s.recvIdx && t.got == s.got && t.gaps == s.gaps
    ensures ListOk(t) && PushedUpTo(t) == PushedUpTo(s)
  {
    forall i | 0 <= i < |t.list| && t.list[i].Data?
      ensures Stands(Packet(t.list[i].num, t.list[i].body), Log(t), t.left)
    {
      assert Stands(Packet(s.list[i].num, s.list[i].body), Log(s), s.left);
    }
    forall i | 0 <= i < |t.got| ensures Stands(Packet(i, t.got[i]), Log(t), t.left) {
      assert Stands(Packet(i, s.got[i]), Log(s), s.left);
    }
  }

  /** The sender's half is untouched by what the server pushes and the receiver pops. */
  lemma SenderUntouched(s: State, t: State)
    requires Sound(s) && t.streams != []
    requires t.next == s.next && t.queue == s.queue && t.app == s.app && t.ack == s.ack
    requires t.accepted == s.accepted && t.current == s.current && t.left == s.left
    requires Live(t) == Live(s).(pushed := Live(t).pushed) && Live(s).pushed <= Live(t).pushed
    ensures QueueOk(t) && LiveOk(t) && Log(t) == Log(s)
  {
    QueueSame(s, t);
  }

  // ----- one lemma a group of steps -----

  lemma SubmitKeeps(s: State, c: Payload)
    requires Sound(s)
    ensures Sound(Apply(s, Submit(c)))
  {
    var t := Apply(s, Submit(c));
    if t != s {
      assert Log(t) == s.accepted + [c] && Log(s) == s.accepted;
      ListSame(s, t);
      StreamsUpheld(s, t);
    }
  }

  lemma StreamsUpheld(s: State, t: State)
    requires Sound(s) && Upheld(s, t) && t.streams == s.streams && PushedUpTo(t) == PushedUpTo(s)
    ensures StreamsOk(t.streams, t, PushedUpTo(t))
  {
    forall j | 0 <= j < |t.streams| ensures StreamOk(t.streams[j], t, PushedUpTo(t)) {
      StreamUpheld(s.streams[j], s, PushedUpTo(s), t, PushedUpTo(t));
    }
  }

  /** A packet with the next number of the stream goes on the live stream. */
  lemma WrittenKeeps(s: State, t: State, p: Packet, ok: bool)
    requires Sound(s) && Upheld(s, t) && PushedUpTo(t) == PushedUpTo(s)
    requires t.streams == Written(s, p, ok).streams
    requires Live(s).base + |Live(s).wire| <= s.next
    requires p.num == Live(s).base + |Live(s).wire| && Stands(p, Log(t), t.left)
    ensures StreamsOk(t.streams, t, PushedUpTo(t))
  {
    var last := |s.streams| - 1;
    StreamUpheld(Live(s), s, PushedUpTo(s), t, PushedUpTo(t));
    var st := Live(s).(wire := Live(s).wire + [p], writable := ok);
    assert StreamOk(st, t, PushedUpTo(t));
    StreamsReplaced(s, last, st, PushedUpTo(s), t, PushedUpTo(t));
  }

  lemma WriteOkKeeps(s: State)
    requires Sound(s)
    ensures Sound(Apply(s, WriteOk))
  {
    var t := Apply(s, WriteOk);
    if t != s {
      var c, p := Live(s), Packet(s.next, s.current.value);
      assert Log(t) == Log(s);
      ListSame(s, t);
      WrittenKeeps(s, t, p, true);
      assert Live(t) == c.(wire := c.wire + [p]);
      assert Acked(t) == Acked(s);
      assert QueueOk(t);
      assert LiveOk(t);
    }
  }

  lemma WriteFailKeeps(s: State)
    requires Sound(s)
    ensures Sound(Apply(s, WriteFail))
  {
    var t := Apply(s, WriteFail);
    if t != s {
      var c, p := Live(s), Packet(s.next, s.current.value);
      ListSame(s, t);
      QueueSame(s, t);
      WrittenKeeps(s, t, p, false);
      assert Live(t) == c.(wire := c.wire + [p], writable := false);
      assert LiveOk(t);
    }
  }

  lemma EnqueueKeeps(s: State)
    requires Sound(s)
    ensures Sound(Apply(s, Enqueue))
  {
    var t := Apply(s, Enqueue);
    if t != s {
      assert Acked(t) == Acked(s);
      assert QueueOk(t);
    }
  }

  /** Bookkeeping on the live stream that leaves its packets alone. */
  lemma LiveStepKeeps(s: State, t: State)
    requires Sound(s) && Upheld(s, t)
    requires t.list == s.list && t.recvIdx == s.recvIdx && t.got == s.got && t.gaps == s.gaps
    requires t.streams != [] && t.streams == WithLive(s, Live(t)).streams
    requires Live(t).base == Live(s).base && Live(t).wire == Live(s).wire
    requires Live(t).pushed == Live(s).pushed && Live(t).writable == Live(s).writable
    ensures ListOk(t) && StreamsOk(t.streams, t, PushedUpTo(t))
  {
    ListSame(s, t);
    StreamUpheld(Live(s), s, PushedUpTo(s), t, PushedUpTo(t));
    assert StreamOk(Live(t), t, PushedUpTo(t));
    StreamsReplaced(s, |s.streams| - 1, Live(t), PushedUpTo(s), t, PushedUpTo(t));
  }

  /** The ack read next is the one for the front of the unacknowledged numbers. */
  lemma AckReadLive(s: State, upTo: int)
    requires s.streams != [] && LiveOk(s) && StreamOk(Live(s), s, upTo) && Apply(s, AckRead) != s
    ensures LiveOk(Apply(s, AckRead))
    ensures Live(Apply(s, AckRead)) == Live(s).(read := Live(s).read + 1)
  {
    assert Live(s).wire[Live(s).read].num == Live(s).base + Live(s).read;
  }

  lemma AckReadKeeps(s: State)
    requires Sound(s)
    ensures Sound(Apply(s, AckRead))
  {
    var t := Apply(s, AckRead);
    if t != s {
      assert StreamOk(Live(s), s, PushedUpTo(s));
      AckReadLive(s, PushedUpTo(s));
      LiveStepKeeps(s, t);
      QueueSame(s, t);
    }
  }

  lemma ServerAckLive(s: State)
    requires s.streams != [] && LiveOk(s) && Apply(s, ServerAck) != s
    ensures LiveOk(Apply(s, ServerAck))
    ensures Live(Apply(s, ServerAck)) == Live(s).(acked := Live(s).acked + 1)
  {
  }

  lemma ServerAckKeeps(s: State)
    requires Sound(s)
    ensures Sound(Apply(s, ServerAck))
  {
    var t := Apply(s, ServerAck);
    if t != s {
      ServerAckLive(s);
      LiveStepKeeps(s, t);
      QueueSame(s, t);
    }
  }

  lemma ThreadStatusLive(s: State, a: Action)
    requires s.streams != [] && LiveOk(s) && (a.Start? || a.AckEnd?)
    ensures LiveOk(Apply(s, a))
  {
  }

  lemma ThreadStatusKeeps(s: State, a: Action)
    requires Sound(s) && (a.Start? || a.AckEnd?)
    ensures Sound(Apply(s, a))
  {
    var t := Apply(s, a);
    if t != s {
      ListSame(s, t);
      QueueSame(s, t);
      ThreadStatusLive(s, a);
    }
  }

  lemma AckPopKeeps(s: State)
    requires Sound(s)
    ensures Sound(Apply(s, AckPop))
  {
    var t := Apply(s, AckPop);
    if t != s {
      assert Live(t) == Live(s);
      LiveStepKeeps(s, t);
      assert Acked(t) == Acked(s) + 1;
      assert QueueOk(t);
      assert LiveOk(t);
    }
  }

  /** The new stream starts at the first unacknowledged number, which the server has reached. */
  lemma HandoverStream(s: State)
    requires Sound(s) && s.app.Idle? && s.ack.Finished?
    ensures StreamOk(FreshStream.(base := Acked(s)), s, PushedUpTo(s))
  {
    assert StreamOk(Live(s), s, PushedUpTo(s));
    assert Live(s).base + Live(s).read == Acked(s);
  }

  lemma HandoverKeeps(s: State)
    requires Sound(s)
    ensures Sound(Apply(s, Handover))
  {
    var t := Apply(s, Handover);
    if t != s {
      HandoverStream(s);
      StreamUpheld(FreshStream.(base := Acked(s)), s, PushedUpTo(s), t, PushedUpTo(s));
      StreamsExtended(s, FreshStream.(base := Acked(s)), PushedUpTo(s), t);
      ListSame(s, t);
      QueueSame(s, t);
      assert Live(t) == FreshStream.(base := Acked(s));
    }
  }

  lemma ResendLive(s: State, a: Action)
    requires s.streams != [] && LiveOk(s) && (a.ResendOk? || a.ResendFail?) && Apply(s, a) != s
    ensures LiveOk(Apply(s, a))
  {
    var t, c := Apply(s, a), Live(s);
    assert Live(t) == c.(wire := c.wire + [s.queue[s.app.pos]], writable := a.ResendOk?);
    assert Acked(t) == Acked(s);
  }

  /** The packet written again is the one the new stream has come to. */
  lemma ResendPacket(s: State)
    requires Sound(s) && s.app.Resending? && s.app.pos < |s.queue|
    ensures var n := Live(s).base + |Live(s).wire|;
            n < s.next && s.queue[s.app.pos] == Packet(n, Log(s)[n])
  {
  }

  lemma ResendWriteKeeps(s: State, a: Action)
    requires Sound(s) && (a.ResendOk? || a.ResendFail?)
    ensures Sound(Apply(s, a))
  {
    var t := Apply(s, a);
    if t != s {
      ListSame(s, t);
      QueueSame(s, t);
      ResendPacket(s);
      WrittenKeeps(s, t, s.queue[s.app.pos], a.ResendOk?);
      ResendLive(s, a);
    }
  }

  lemma ResendDoneKeeps(s: State)
    requires Sound(s)
    ensures Sound(Apply(s, ResendDone))
  {
    var t := Apply(s, ResendDone);
    if t != s {
      ListSame(s, t);
      QueueSame(s, t);
      assert LiveOk(t);
    }
  }

  /** One element joins the list. */
  lemma ListGrows(s: State, t: State, e: Element)
    requires ListOk(s) && Upheld(s, t) && t.next == s.next
    requires t.list == s.list + [e] && t.recvIdx == s.recvIdx && t.got == s.got && t.gaps == s.gaps
    requires e.Data? ==> e.num <= PushedUpTo(s) && e.num <= s.next && Stands(Packet(e.num, e.body), Log(s), s.left)
    requires e.Control? ==> -INT_MAX - 1 <= e.cmd < 0
    ensures ListOk(t) && PushedUpTo(t) == Bump(PushedUpTo(s), e)
  {
    FrontierAppend(s.recvIdx + 1, s.list, e);
    forall i | 0 <= i < |t.list| && t.list[i].Data?
      ensures Stands(Packet(t.list[i].num, t.list[i].body), Log(t), t.left)
    {
      if i < |s.list| {
        assert Stands(Packet(s.list[i].num, s.list[i].body), Log(s), s.left);
      }
    }
  }

  /** Whatever stream the server drains, the element it pushes never skips a number. */
  lemma PushDelivers(s: State, i: nat)
    requires Sound(s) && i < |s.streams| && s.streams[i].pushed < |s.streams[i].wire|
    ensures var t := Apply(s, Push(i));
            var p := s.streams[i].wire[s.streams[i].pushed];
            && t.list == s.list + [Data(p.num, p.body)]
            && p.num == s.streams[i].base + s.streams[i].pushed <= PushedUpTo(s)
            && Stands(p, Log(s), s.left)
            && ListOk(t)
            && PushedUpTo(t) == Max(PushedUpTo(s), s.streams[i].base + s.streams[i].pushed + 1)
  {
    var st, t := s.streams[i], Apply(s, Push(i));
    assert StreamOk(st, s, PushedUpTo(s));
    var e := Data(st.base + st.pushed, st.wire[st.pushed].body);
    assert Packet(e.num, e.body) == st.wire[st.pushed];
    assert t.list == s.list + [e];
    ListGrows(s, t, e);
  }

  lemma PushKeeps(s: State, a: Action)
    requires Sound(s) && a.Push?
    ensures Sound(Apply(s, a))
    ensures PushedUpTo(Apply(s, a)) >= PushedUpTo(s)
  {
    var t := Apply(s, a);
    if t != s {
      var i, st := a.stream, s.streams[a.stream];
      PushDelivers(s, i);
      StreamUpheld(st, s, PushedUpTo(s), t, PushedUpTo(t));
      assert t.streams == s.streams[i := st.(pushed := st.pushed + 1)];
      StreamsReplaced(s, i, st.(pushed := st.pushed + 1), PushedUpTo(s), t, PushedUpTo(t));
      assert Live(t) == Live(s).(pushed := Live(t).pushed);
      SenderUntouched(s, t);
    }
  }

  lemma PushControlKeeps(s: State, a: Action)
    requires Sound(s) && a.PushControl?
    ensures Sound(Apply(s, a))
    ensures PushedUpTo(Apply(s, a)) == PushedUpTo(s)
  {
    var t := Apply(s, a);
    if t != s {
      ListGrows(s, t, Control(a.cmd));
      SenderUntouched(s, t);
    }
  }

  /** The filter in `Recv`: what stands for the next number is appended, a repeated one ignored, no gap is seen. */
  lemma PopReceives(s: State)
    requires Sound(s) && s.list != []
    ensures var t := Apply(s, Pop);
            && ListOk(t)
            && PushedUpTo(t) == PushedUpTo(s)
            && t == s.(list := t.list, recvIdx := t.recvIdx, got := t.got)
            && (t.got == s.got
                || (t.recvIdx == s.recvIdx + 1 && |t.got| == |s.got| + 1 && s.got <= t.got
                    && Stands(Packet(t.recvIdx, t.got[t.recvIdx]), Log(s), s.left)))
  {
    var t := Apply(s, Pop);
    var e := s.list[0];
    assert t.list == s.list[1..];
    assert t.recvIdx + 1 == Bump(s.recvIdx + 1, e);
    assert e.Data? ==> Stands(Packet(e.num, e.body), Log(s), s.left);
    FrontierGrows(t.recvIdx + 1, t.list);
    forall i | 0 <= i < |t.list| && t.list[i].Data?
      ensures Stands(Packet(t.list[i].num, t.list[i].body), Log(t), t.left)
    {
      assert t.list[i] == s.list[i + 1];
    }
    forall i | 0 <= i < |t.list| && t.list[i].Control? ensures -INT_MAX - 1 <= t.list[i].cmd < 0 {
      assert t.list[i] == s.list[i + 1];
    }
    forall i | 0 <= i < |t.got| ensures Stands(Packet(i, t.got[i]), Log(t), t.left) {
      if i < |s.got| {
        assert t.got[i] == s.got[i];
      }
    }
  }

  lemma PopKeeps(s: State)
    requires Sound(s)
    ensures Sound(Apply(s, Pop))
    ensures PushedUpTo(Apply(s, Pop)) == PushedUpTo(s)
  {
    var t := Apply(s, Pop);
    if s.list != [] {
      PopReceives(s);
      SenderUntouched(s, t);
    }
  }

  lemma {:induction false} FrontierGrows(r: int, list: seq<Element>)
    ensures Frontier(r, list) >= r
    decreases |list|
  {
    if list != [] {
      FrontierGrows(Bump(r, list[0]), list[1..]);
    }
  }

  // ----- what witnesses the frontier -----

  lemma StreamsPersist(s: State, a: Action, i: nat)
    requires s.streams != [] && i < |s.streams|
    ensures var t := Apply(s, a);
            i < |t.streams| && t.streams[i].base == s.streams[i].base && t.streams[i].pushed >= s.streams[i].pushed
  {
  }

  lemma StepWitnessed(s: State, a: Action)
    requires Inv(s)
    ensures Witnessed(Apply(s, a))
  {
    if a.Push? && Apply(s, a) != s {
      PushWitnessed(s, a);
    } else {
      OthersPushNothing(s, a);
      if PushedUpTo(s) > 0 {
        var i :| 0 <= i < |s.streams| && PushedUpTo(s) <= s.streams[i].base + s.streams[i].pushed;
        StreamsPersist(s, a, i);
      }
    }
  }

  lemma PushWitnessed(s: State, a: Action)
    requires Inv(s) && a.Push? && Apply(s, a) != s
    ensures Witnessed(Apply(s, a))
  {
    var t := Apply(s, a);
    PushDelivers(s, a.stream);
    if PushedUpTo(t) > PushedUpTo(s) {
      assert PushedUpTo(t) <= t.streams[a.stream].base + t.streams[a.stream].pushed;
    } else if PushedUpTo(s) > 0 {
      var i :| 0 <= i < |s.streams| && PushedUpTo(s) <= s.streams[i].base + s.streams[i].pushed;
      StreamsPersist(s, a, i);
    }
  }

  /** Steps that push no data leave the frontier where it is. */
  lemma OthersPushNothing(s: State, a: Action)
    requires Sound(s) && !(a.Push? && Apply(s, a) != s)
    ensures PushedUpTo(Apply(s, a)) == PushedUpTo(s)
  {
    if a.PushControl? {
      PushControlKeeps(s, a);
    } else if a.Pop? {
      PopKeeps(s);
    } else {
      ListUnmoved(s, a);
    }
  }

  lemma ListUnmoved(s: State, a: Action)
    requires s.streams != [] && !a.PushControl? && !a.Pop? && !(a.Push? && Apply(s, a) != s)
    ensures Apply(s, a).list == s.list && Apply(s, a).recvIdx == s.recvIdx
  {
  }

  // ----- giving up -----

  lemma {:induction false} BelowFrontier(r: int, list: seq<Element>, i: nat)
    requires i < |list| && list[i].Data?
    ensures list[i].num < Frontier(r, list)
    decreases |list|
  {
    FrontierGrows(Bump(r, list[0]), list[1..]);
    if i > 0 {
      BelowFrontier(Bump(r, list[0]), list[1..], i - 1);
    }
  }

  /** Without a copy nothing has gone beyond the accepted messages. */
  lemma NothingBeyond(s: State)
    requires Inv(s) && !CopyLeft(s)
    ensures s.recvIdx + 1 <= PushedUpTo(s) <= s.next
  {
    FrontierGrows(s.recvIdx + 1, s.list);
    CopyLeftIs(s);
    if PushedUpTo(s) > 0 {
      var i :| 0 <= i < |s.streams| && PushedUpTo(s) <= s.streams[i].base + s.streams[i].pushed;
      assert StreamOk(s.streams[i], s, PushedUpTo(s));
      assert s.streams[i].base + |s.streams[i].wire| <= s.next;
    }
  }

  /** What stood for a number still does: what is dropped was under the next number, and is remembered. */
  lemma GiveUpStands(s: State, p: Packet)
    requires s.streams != [] && s.next == |s.accepted| && Stands(p, Log(s), s.left)
    requires p.num < s.next || CopyLeft(s)
    ensures Stands(p, Log(Apply(s, GiveUp)), Apply(s, GiveUp).left)
  {
    if p !in s.left && p.num == s.next {
      assert p == Packet(s.next, s.current.value);
    }
  }

  lemma GiveUpKeepsStreams(s: State)
    requires Inv(s)
    ensures StreamsOk(s.streams, Apply(s, GiveUp), PushedUpTo(s))
  {
    CopyLeftIs(s);
    forall j | 0 <= j < |s.streams| ensures StreamOk(s.streams[j], Apply(s, GiveUp), PushedUpTo(s)) {
      var st := s.streams[j];
      assert StreamOk(st, s, PushedUpTo(s));
      forall i | 0 <= i < |st.wire|
        ensures Stands(st.wire[i], Log(Apply(s, GiveUp)), Apply(s, GiveUp).left)
      {
        assert st.base + |st.wire| <= s.next || CopyLeft(s);
        GiveUpStands(s, st.wire[i]);
      }
    }
  }

  lemma GiveUpKeepsList(s: State)
    requires Inv(s)
    ensures ListOk(Apply(s, GiveUp))
  {
    var t := Apply(s, GiveUp);
    assert PushedUpTo(t) == PushedUpTo(s);
    if !CopyLeft(s) {
      NothingBeyond(s);
    }
    forall i | 0 <= i < |t.list| && t.list[i].Data?
      ensures Stands(Packet(t.list[i].num, t.list[i].body), Log(t), t.left)
    {
      BelowFrontier(s.recvIdx + 1, s.list, i);
      GiveUpStands(s, Packet(s.list[i].num, s.list[i].body));
    }
    forall i | 0 <= i < |t.got| ensures Stands(Packet(i, t.got[i]), Log(t), t.left) {
      GiveUpStands(s, Packet(i, s.got[i]));
    }
  }

  lemma GiveUpKeeps(s: State)
    requires Inv(s)
    ensures Sound(Apply(s, GiveUp))
  {
    var t := Apply(s, GiveUp);
    if t != s {
      GiveUpKeepsStreams(s);
      GiveUpKeepsList(s);
      QueueSame(s, t);
      GiveUpLive(s);
    }
  }

  lemma GiveUpLive(s: State)
    requires s.streams != [] && LiveOk(s)
    ensures LiveOk(Apply(s, GiveUp)) && Apply(s, GiveUp).streams == s.streams
  {
  }

  /** Every action keeps the invariant. */
  lemma StepKeeps(s: State, a: Action)
    requires Inv(s)
    ensures Inv(Apply(s, a))
  {
    StepWitnessed(s, a);
    match a
    case Submit(c) => SubmitKeeps(s, c);
    case GiveUp => GiveUpKeeps(s);
    case WriteOk => WriteOkKeeps(s);
    case WriteFail => WriteFailKeeps(s);
    case Enqueue => EnqueueKeeps(s);
    case Handover => HandoverKeeps(s);
    case ResendOk => ResendWriteKeeps(s, a);
    case ResendFail => ResendWriteKeeps(s, a);
    case ResendDone => ResendDoneKeeps(s);
    case AckPop => AckPopKeeps(s);
    case Push(_) => PushKeeps(s, a);
    case PushControl(_) => PushControlKeeps(s, a);
    case Pop => PopKeeps(s);
    case AckRead => AckReadKeeps(s);
    case ServerAck => ServerAckKeeps(s);
    case _ => ThreadStatusKeeps(s, a);
  }

  /** Every run keeps the invariant. */
  lemma {:induction false} RunKeeps(s: State, acts: seq<Action>)
    requires Inv(s)
    ensures Inv(Exec(s, acts))
    decreases |acts|
  {
    if acts != [] {
      StepKeeps(s, acts[0]);
      RunKeeps(Apply(s, acts[0]), acts[1..]);
    }
  }
}
