/**
 Runs that end where one would not expect it, and what the sender of a channel can know: why
 `real_send`, `real_recv` and `flush` can report what did not happen, and why an empty queue is
 what `flush` has to wait for.
 */
module ChannelRuns {
  import opened Bytes
  import opened Protocol
  import opened ProtocolInvariant
  import opened ExactlyOnce
  import opened GivingUp
  import opened Environment
  import opened ChannelDrivers

  // ----- the surprising ends do happen -----

  /** One failed attempt of `real_send`: the `Write` fails, the ack thread ends, and the reconnect works. */
  const FAILED_SEND: seq<Action> := [WriteFail, AckEnd, Handover, ResendDone]

  /** One failed round of `flush` with one packet unacknowledged: the stream ends, the reconnect works. */
  const FAILED_FLUSH: seq<Action> := [AckEnd, Handover, ResendOk, ResendDone]

  function Times(n: nat, round: seq<Action>): seq<Action> {
    if n == 0 then [] else round + Times(n - 1, round)
  }

  /** A message in hand, nothing accepted yet, a stream that works. */
  ghost predicate Trying(s: State, content: Payload) {
    && s.streams != [] && Live(s) == FreshStream && s.ack.Reading? && s.app.Idle?
    && s.current == Some(content) && s.next == 0 && s.queue == [] && s.accepted == []
  }

  /** One message accepted and written on a stream that works, nothing delivered yet. */
  ghost predicate Stuck(s: State, content: Payload) {
    && s.streams != [] && Live(s) == FreshStream.(wire := [Packet(0, content)]) && s.ack.Reading? && s.app.Idle?
    && s.current == None && s.next == 1 && s.queue == [Packet(0, content)] && s.accepted == [content]
    && s.list == [] && s.got == [] && s.recvIdx == -1
  }

  lemma ExecFirst(s: State, a: Action, rest: seq<Action>)
    requires s.streams != []
    ensures Exec(s, [a] + rest) == Exec(Apply(s, a), rest)
  {
    assert ([a] + rest)[1..] == rest;
  }

  lemma Run4(s: State, a: Action, b: Action, c: Action, d: Action)
    requires s.streams != []
    ensures Exec(s, [a, b, c, d]) == Apply(Apply(Apply(Apply(s, a), b), c), d)
  {
    assert [a, b, c, d] == [a] + ([b] + ([c] + ([d] + [])));
    var t := Apply(s, a);
    var u := Apply(t, b);
    var v := Apply(u, c);
    ExecFirst(s, a, [b] + ([c] + ([d] + [])));
    ExecFirst(t, b, [c] + ([d] + []));
    ExecFirst(u, c, [d] + []);
    ExecFirst(v, d, []);
  }

  lemma FailedSend(s: State, content: Payload)
    requires Trying(s, content)
    ensures Trying(Exec(s, FAILED_SEND), content)
  {
    Run4(s, WriteFail, AckEnd, Handover, ResendDone);
    var s1 := Apply(s, WriteFail);
    var s2 := Apply(s1, AckEnd);
    var s3 := Apply(s2, Handover);
    assert Live(s3) == FreshStream;
  }

  lemma FailedFlush(s: State, content: Payload)
    requires Stuck(s, content)
    ensures Stuck(Exec(s, FAILED_FLUSH), content)
  {
    Run4(s, AckEnd, Handover, ResendOk, ResendDone);
    var s2 := Apply(Apply(s, AckEnd), Handover);
    assert Live(s2) == FreshStream && s2.app == Resending(0);
    var s3 := Apply(s2, ResendOk);
    assert Live(s3).wire == [] + [Packet(0, content)];
  }

  lemma {:induction false} FailedSends(s: State, content: Payload, n: nat)
    requires Trying(s, content)
    ensures Trying(Exec(s, Times(n, FAILED_SEND)), content)
    decreases n
  {
    if n > 0 {
      FailedSend(s, content);
      ExecAppend(s, FAILED_SEND, Times(n - 1, FAILED_SEND));
      FailedSends(Exec(s, FAILED_SEND), content, n - 1);
    }
  }

  lemma {:induction false} FailedFlushes(s: State, content: Payload, n: nat)
    requires Stuck(s, content)
    ensures Stuck(Exec(s, Times(n, FAILED_FLUSH)), content)
    decreases n
  {
    if n > 0 {
      FailedFlush(s, content);
      ExecAppend(s, FAILED_FLUSH, Times(n - 1, FAILED_FLUSH));
      FailedFlushes(Exec(s, FAILED_FLUSH), content, n - 1);
    }
  }

  /**
   `real_send` can return without having sent: in this run of 120 attempts every `Write` fails
   and every reconnect works, so `ret` is true at the end and nothing has been accepted.
   */
  lemma UnsentRun(content: Payload)
    ensures var s := Exec(Init, [Submit(content), Start] + Times(ATTEMPTS, FAILED_SEND));
            s.current == Some(content) && s.accepted == [] && AllWritten(s)
  {
    var s := Apply(Apply(Init, Submit(content)), Start);
    assert [Submit(content), Start][1..] == [Start] && [Start][1..] == [];
    assert Exec(s, []) == s;
    assert Exec(Init, [Submit(content), Start]) == s;
    ExecAppend(Init, [Submit(content), Start], Times(ATTEMPTS, FAILED_SEND));
    FailedSends(s, content, ATTEMPTS);
  }

  lemma StuckFor(content: Payload, n: nat)
    ensures Stuck(Exec(Init, [Submit(content), Start, WriteOk, Enqueue] + Times(n, FAILED_FLUSH)), content)
  {
    var start := [Submit(content), Start, WriteOk, Enqueue];
    Run4(Init, Submit(content), Start, WriteOk, Enqueue);
    var s := Exec(Init, start);
    assert Live(Apply(Apply(Init, Submit(content)), Start)) == FreshStream;
    assert [] + [Packet(0, content)] == [Packet(0, content)];
    assert [] + [content] == [content];
    assert Stuck(s, content);
    ExecAppend(Init, start, Times(n, FAILED_FLUSH));
    FailedFlushes(s, content, n);
  }

  /**
   `flush` can return true with an accepted message nowhere but in the queue: in this run the
   stream breaks in every one of its 120 rounds before anything is delivered.
   */
  lemma UnflushedRun(content: Payload)
    ensures var s := Exec(Init, [Submit(content), Start, WriteOk, Enqueue] + Times(ATTEMPTS, FAILED_FLUSH));
            && s.accepted == [content] && s.queue != [] && AllWritten(s)
            && Delivery(s) == [] && !Durable(s)
  {
    StuckFor(content, ATTEMPTS);
  }

  /**
   `real_recv` can return empty: in the run of `UnflushedRun` the ack thread has ended with a
   packet unacknowledged in each of the 120 rounds, so with nothing on the list every `Recv` asks
   to resend, and the last reconnect works.
   */
  lemma UnreceivedRun(content: Payload, n: nat)
    requires n < ATTEMPTS
    ensures var s := Exec(Init, [Submit(content), Start, WriteOk, Enqueue] + Times(n, FAILED_FLUSH));
            var ended := Apply(s, AckEnd);
            && ended.ack.Finished? && ended.queue != [] && ended.app.Idle?
            && Exec(ended, FAILED_FLUSH[1..]) == Exec(s, FAILED_FLUSH)
            && AllWritten(Exec(s, FAILED_FLUSH))
  {
    StuckFor(content, n);
    var s := Exec(Init, [Submit(content), Start, WriteOk, Enqueue] + Times(n, FAILED_FLUSH));
    FailedFlush(s, content);
    assert FAILED_FLUSH == [AckEnd] + FAILED_FLUSH[1..];
    ExecFirst(s, AckEnd, FAILED_FLUSH[1..]);
  }

  // ----- what `flush` can know -----

  /** What the sender has to go by: its own fields, and whether the ack thread still runs. */
  ghost predicate SameToSender(s: State, t: State) {
    && t.next == s.next && t.queue == s.queue && t.app == s.app
    && t.accepted == s.accepted && t.current == s.current
    && (t.ack.Finished? <==> s.ack.Finished?) && (t.ack.NotStarted? <==> s.ack.NotStarted?)
  }

  /**
   One stream; `msgs` accepted, the first `acked` of them delivered and acknowledged, the rest only
   written.
   */
  ghost predicate Bare(t: State, msgs: seq<Payload>, acked: nat) {
    && Reached(t) && t.app.Idle? && t.current.None? && t.ack.Reading?
    && t.accepted == msgs && t.next == |msgs|
    && |t.streams| == 1 && Live(t).base == 0 && |Live(t).wire| == |msgs| && Live(t).writable
    && Live(t).pushed == Live(t).acked == Live(t).read == acked <= |msgs|
    && PushedUpTo(t) == acked
  }

  lemma BareStart() returns (t: State)
    ensures Bare(t, [], 0)
  {
    ReachedInit();
    ReachedStep(Init, Start);
    t := Apply(Init, Start);
  }

  lemma BareTaken(t: State, m: Payload) returns (u: State)
    requires Reached(t) && t.app.Idle? && t.current.None? && t.next < INT_MAX
    ensures Reached(u) && u == t.(current := Some(m))
  {
    ReachedStep(t, Submit(m));
    u := Apply(t, Submit(m));
  }

  lemma BareWritten(t: State, st: Stream, m: Payload) returns (u: State)
    requires Reached(t) && t.app.Idle? && t.current == Some(m) && t.ack.Reading? && t.streams == [st] && st.writable
    ensures Reached(u)
    ensures u == t.(streams := [st.(wire := st.wire + [Packet(t.next, m)])], next := t.next + 1,
                    app := Enqueuing(Packet(t.next, m)), accepted := t.accepted + [m], current := None)
  {
    ReachedStep(t, WriteOk);
    u := Apply(t, WriteOk);
  }

  lemma BareQueued(t: State) returns (u: State)
    requires Reached(t) && t.app.Enqueuing?
    ensures Reached(u) && u == t.(queue := u.queue, app := Idle)
  {
    ReachedStep(t, Enqueue);
    u := Apply(t, Enqueue);
  }

  /** One more message is accepted and written, no more. */
  lemma BareSend(t: State, msgs: seq<Payload>, acked: nat, m: Payload) returns (u: State)
    requires Bare(t, msgs, acked) && |msgs| < INT_MAX
    ensures Bare(u, msgs + [m], acked)
  {
    var v := BareTaken(t, m);
    var w := BareWritten(v, Live(t), m);
    u := BareQueued(w);
    assert PushedUpTo(u) == PushedUpTo(t);
  }

  /** The server pushes the last message written. */
  lemma BarePush(t: State, msgs: seq<Payload>, acked: nat) returns (u: State)
    requires Bare(t, msgs, acked) && |msgs| == acked + 1
    ensures Reached(u) && PushedUpTo(u) == acked + 1
    ensures u == t.(streams := [Live(t).(pushed := acked + 1)], list := u.list)
  {
    ReachedInv(t);
    PushDelivers(t, 0);
    ReachedStep(t, Push(0));
    u := Apply(t, Push(0));
  }

  lemma BareServerAck(t: State, st: Stream) returns (u: State)
    requires Reached(t) && t.streams == [st] && st.writable && st.acked < st.pushed <= |st.wire|
    ensures Reached(u) && u == t.(streams := [st.(acked := st.acked + 1)])
  {
    ReachedStep(t, ServerAck);
    u := Apply(t, ServerAck);
  }

  lemma BareAckRead(t: State, st: Stream) returns (u: State)
    requires Reached(t) && t.streams == [st] && t.ack.Reading? && st.read < st.acked <= |st.wire|
    ensures Reached(u) && u.ack.Holding? && u == t.(streams := [st.(read := st.read + 1)], ack := u.ack)
  {
    ReachedStep(t, AckRead);
    u := Apply(t, AckRead);
  }

  /** It acknowledges it, and the ack thread reads the ack. */
  lemma BareAck(t: State, st: Stream) returns (u: State)
    requires Reached(t) && t.streams == [st] && t.ack.Reading?
    requires st.writable && st.read == st.acked < st.pushed && st.pushed <= |st.wire|
    ensures Reached(u) && u.ack.Holding?
    ensures u == t.(streams := [st.(acked := st.acked + 1, read := st.read + 1)], ack := u.ack)
  {
    var v := BareServerAck(t, st);
    u := BareAckRead(v, st.(acked := st.acked + 1));
  }

  lemma BarePop(t: State) returns (u: State)
    requires Reached(t) && t.ack.Holding? && t.app.Idle?
    ensures Reached(u) && u == t.(queue := u.queue, ack := Reading)
  {
    ReachedInv(t);
    HoldingMatches(t);
    u := Apply(t, AckPop);
    ReachedStep(t, AckPop);
  }

  /** The last message written is delivered and acknowledged. */
  lemma BareDeliver(t: State, msgs: seq<Payload>, acked: nat) returns (u: State)
    requires Bare(t, msgs, acked) && |msgs| == acked + 1
    ensures Bare(u, msgs, acked + 1)
  {
    var v := BarePush(t, msgs, acked);
    var w := BareAck(v, Live(t).(pushed := acked + 1));
    u := BarePop(w);
    assert PushedUpTo(u) == PushedUpTo(v);
  }

  lemma Replay(msgs: seq<Payload>, acked: nat) returns (t: State)
    requires acked <= |msgs| <= INT_MAX
    ensures Bare(t, msgs, acked)
    decreases |msgs|
  {
    if msgs == [] {
      t := BareStart();
    } else {
      var n := |msgs| - 1;
      assert msgs == msgs[..n] + [msgs[n]];
      var u := Replay(msgs[..n], Min(acked, n));
      t := BareSend(u, msgs[..n], Min(acked, n), msgs[n]);
      if acked == |msgs| {
        t := BareDeliver(t, msgs, n);
      }
    }
  }

  /** The packets behind the acknowledged ones are the queue. */
  lemma QueueDetermined(s: State, t: State)
    requires Inv(s) && Inv(t) && s.app.Idle? && t.app.Idle?
    requires s.accepted == t.accepted && |s.queue| == |t.queue|
    ensures s.queue == t.queue
  {
    assert Acked(s) == Acked(t);
    forall i | 0 <= i < |s.queue| ensures s.queue[i] == t.queue[i] {
      assert s.queue[i] == Packet(Acked(s) + i, s.accepted[Acked(s) + i]);
    }
  }

  /** The same with a message in hand, and with the ack thread gone. */
  lemma Dress(t: State, current: Option<Payload>, ended: bool) returns (u: State)
    requires Reached(t) && t.app.Idle? && t.current.None? && t.ack.Reading?
    requires current.Some? ==> t.next < INT_MAX
    ensures Reached(u) && u == t.(current := current, ack := if ended then Finished else Reading)
  {
    u := t;
    if current.Some? {
      u := BareTaken(t, current.value);
    }
    if ended {
      ReachedStep(u, AckEnd);
      u := Apply(u, AckEnd);
    }
  }

  lemma TooShort(t: State)
    requires Inv(t) && PushedUpTo(t) < t.next
    ensures !Durable(t)
  {
    DeliveryStands(t);
  }

  /** With packets unacknowledged, all of them may still be on their way, for all the sender can tell. */
  lemma PerhapsUndelivered(s: State) returns (t: State)
    requires Reached(s) && s.app.Idle? && s.queue != []
    ensures Reached(t) && SameToSender(s, t) && !Durable(t)
  {
    ReachedInv(s);
    StreamFacts(s);
    var bare := Replay(s.accepted, Acked(s));
    ReachedInv(bare);
    QueueDetermined(s, bare);
    t := Dress(bare, s.current, s.ack.Finished?);
    ReachedInv(t);
    TooShort(t);
  }

  /**
   The queue is exactly what `flush` must look at: it is empty just when the sender can tell that
   all accepted messages are durable.
   */
  lemma FlushExact(s: State)
    requires Reached(s) && s.app.Idle?
    ensures s.queue == [] <==> forall t :: Reached(t) && SameToSender(s, t) ==> Durable(t)
  {
    if s.queue == [] {
      forall t | Reached(t) && SameToSender(s, t) ensures Durable(t) {
        ReachedInv(t);
        FlushIsDurable(t);
      }
    } else {
      var t := PerhapsUndelivered(s);
    }
  }
}
