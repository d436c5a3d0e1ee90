/** What the protocol promises over every run: safety, durability of a flush, recovery. */
module ExactlyOnce {
  import opened Bytes
  import opened Protocol
  import opened ProtocolInvariant

  /** Exactly once, in order: the received messages are a prefix of those submitted. */
  ghost predicate InOrder(s: State) {
    s.got <= Log(s)
  }

  /**
   Main theorem.  In every reachable state, over any number of reconnects, with abandoned streams
   still draining and with any messages given up, no gap was ever seen, and what `Recv` returned
   in place `i` is the message numbered `i` or one that was given up under that very number while
   a copy of it was on some stream.  As long as none was, the messages returned are a prefix of
   the messages accepted by `Send` followed by the one being sent.
   */
  lemma ExactlyOnceInOrder(acts: seq<Action>)
    ensures var s := Exec(Init, acts);
            && s.gaps == 0
            && |s.got| == s.recvIdx + 1 <= s.next + 1
            && (forall i :: 0 <= i < |s.got| ==>
                  (i < |Log(s)| && s.got[i] == Log(s)[i]) || Packet(i, s.got[i]) in s.left)
            && (s.left == {} ==> InOrder(s))
  {
    InitInv();
    RunKeeps(Init, acts);
    var s := Exec(Init, acts);
    FrontierGrows(s.recvIdx + 1, s.list);
    forall i | 0 <= i < |s.got|
      ensures (i < |Log(s)| && s.got[i] == Log(s)[i]) || Packet(i, s.got[i]) in s.left
    {
      assert Stands(Packet(i, s.got[i]), Log(s), s.left);
    }
    if s.left == {} {
      StandingIsPrefix(s.got, Log(s));
    }
  }

  /** With nothing given up, what stands for the first numbers is a prefix of the log. */
  lemma StandingIsPrefix(xs: seq<Payload>, log: seq<Payload>)
    requires forall i :: 0 <= i < |xs| ==> Stands(Packet(i, xs[i]), log, {})
    ensures xs <= log
  {
    if xs != [] {
      assert Stands(Packet(|xs| - 1, xs[|xs| - 1]), log, {});
    }
    forall i | 0 <= i < |xs| ensures i < |log| && xs[i] == log[i] {
      assert Stands(Packet(i, xs[i]), log, {});
    }
  }

  /**
   Two packets with one number, on whatever streams and attempts, carry the same message, unless
   one of them was given up with a copy left.
   */
  lemma RetriesCarryTheSameMessage(acts: seq<Action>, i: nat, j: nat, k: nat, l: nat)
    requires i < |Exec(Init, acts).streams| && j < |Exec(Init, acts).streams|
    requires k < |Exec(Init, acts).streams[i].wire| && l < |Exec(Init, acts).streams[j].wire|
    requires Exec(Init, acts).streams[i].wire[k].num == Exec(Init, acts).streams[j].wire[l].num
    ensures var s := Exec(Init, acts);
            var p, q := s.streams[i].wire[k], s.streams[j].wire[l];
            p == q || p in s.left || q in s.left
  {
    InitInv();
    RunKeeps(Init, acts);
    var s := Exec(Init, acts);
    assert StreamOk(s.streams[i], s, PushedUpTo(s));
    assert StreamOk(s.streams[j], s, PushedUpTo(s));
  }

  /** The next packet any stream, live or abandoned, can deliver never skips a number. */
  lemma NoStreamSkips(acts: seq<Action>, i: nat)
    requires i < |Exec(Init, acts).streams|
    requires Exec(Init, acts).streams[i].pushed < |Exec(Init, acts).streams[i].wire|
    ensures var s := Exec(Init, acts);
            s.streams[i].wire[s.streams[i].pushed].num <= PushedUpTo(s)
  {
    InitInv();
    RunKeeps(Init, acts);
    var s := Exec(Init, acts);
    assert StreamOk(s.streams[i], s, PushedUpTo(s));
  }

  /**
   The unacknowledged queue is the contiguous run of numbers from the acked count to
   `m_seq - 1`, each with its own message.
   */
  lemma QueueShape(acts: seq<Action>)
    ensures var s := Exec(Init, acts);
            var acked := s.next - |s.queue| - (if s.app.Enqueuing? then 1 else 0);
            && s.next == |s.accepted|
            && 0 <= acked
            && (forall i :: 0 <= i < |s.queue| ==> s.queue[i] == Packet(acked + i, s.accepted[acked + i]))
            && (s.app.Enqueuing? ==> s.app.packet == Packet(s.next - 1, s.accepted[s.next - 1]))
  {
    InitInv();
    RunKeeps(Init, acts);
    assert QueueOk(Exec(Init, acts));
  }

  /**
   Every ack the ack thread holds is the number of the packet it is about to pop, and it can
   only be kept waiting for that packet while `Send` is between `Write` and `emplace_back`.
   So `finish`, called when no `Send` is running, never joins a thread that waits for ever.
   */
  lemma AcksMatch(acts: seq<Action>)
    ensures var s := Exec(Init, acts);
            s.ack.Holding? ==>
              && (s.queue != [] ==> s.queue[0].num == s.ack.ack)
              && (s.queue == [] ==> s.app.Enqueuing? && s.app.packet.num == s.ack.ack)
  {
    InitInv();
    RunKeeps(Init, acts);
    if Exec(Init, acts).ack.Holding? {
      HoldingMatches(Exec(Init, acts));
    }
  }

  lemma HoldingMatches(s: State)
    requires Inv(s) && s.ack.Holding?
    ensures s.queue != [] ==> s.queue[0].num == s.ack.ack
    ensures s.queue == [] ==> s.app.Enqueuing? && s.app.packet.num == s.ack.ack
  {
    if s.queue == [] {
      assert Live(s).base + Live(s).read <= s.next;
      assert Acked(s) < s.next;
    }
  }

  // ----- flush -----

  /** The messages `Recv` would return while popping all of `list`. */
  function Deliveries(r: int, list: seq<Element>): seq<Payload>
    decreases |list|
  {
    if list == [] then []
    else
      var e := list[0];
      (if e.Data? && e.num == r then [e.body] else []) + Deliveries(Bump(r, e), list[1..])
  }

  /** They are one for each number up to the frontier, and stand for it. */
  lemma {:induction false} DeliveriesFillTheGap(r: nat, list: seq<Element>, log: seq<Payload>, left: set<Packet>)
    requires NoGap(r, list)
    requires forall i :: 0 <= i < |list| && list[i].Data? ==> Stands(Packet(list[i].num, list[i].body), log, left)
    ensures r + |Deliveries(r, list)| == Frontier(r, list)
    ensures forall i :: 0 <= i < |Deliveries(r, list)| ==> Stands(Packet(r + i, Deliveries(r, list)[i]), log, left)
    decreases |list|
  {
    if list != [] {
      var e, rest := list[0], list[1..];
      assert e.Data? ==> Stands(Packet(e.num, e.body), log, left);
      forall i | 0 <= i < |rest| && rest[i].Data? ensures Stands(Packet(rest[i].num, rest[i].body), log, left) {
        assert rest[i] == list[i + 1];
      }
      DeliveriesFillTheGap(Bump(r, e), rest, log, left);
      var more := Deliveries(Bump(r, e), rest);
      if e.Data? && e.num == r {
        forall i | 0 <= i < |Deliveries(r, list)| ensures Stands(Packet(r + i, Deliveries(r, list)[i]), log, left) {
          if i > 0 {
            assert Deliveries(r, list)[i] == more[i - 1];
            assert Stands(Packet(r + 1 + (i - 1), more[i - 1]), log, left);
          }
        }
      } else {
        assert Deliveries(r, list) == [] + more == more;
      }
    }
  }

  /** What the receiver has, followed by what it will pop from its list without help from the sender. */
  function Delivery(s: State): seq<Payload> {
    s.got + Deliveries(s.recvIdx + 1, s.list)
  }

  /**
   Every accepted message's number is delivered, in order, and what is delivered under it is that
   message or one given up with a copy left; beyond the accepted ones at most one more is.  As long
   as none was given up so, all accepted messages are delivered, and beyond them at most the one
   still in hand.
   */
  ghost predicate Durable(s: State) {
    && s.next == |s.accepted| <= |Delivery(s)| <= s.next + 1
    && (forall i :: 0 <= i < |Delivery(s)| ==> Stands(Packet(i, Delivery(s)[i]), Log(s), s.left))
    && (s.left == {} ==>
          && s.accepted <= Delivery(s) <= Log(s)
          && (s.current.None? ==> Delivery(s) == s.accepted))
  }

  /** All that is delivered stands for its number, and reaches as far as anything was pushed. */
  lemma DeliveryStands(s: State)
    requires Inv(s)
    ensures |Delivery(s)| == PushedUpTo(s)
    ensures forall i :: 0 <= i < |Delivery(s)| ==> Stands(Packet(i, Delivery(s)[i]), Log(s), s.left)
    ensures s.left == {} ==> Delivery(s) <= Log(s)
  {
    var r := s.recvIdx + 1;
    DeliveriesFillTheGap(r, s.list, Log(s), s.left);
    forall i | 0 <= i < |Delivery(s)| ensures Stands(Packet(i, Delivery(s)[i]), Log(s), s.left) {
      if i >= r {
        assert Delivery(s)[i] == Deliveries(r, s.list)[i - r];
      }
    }
    if s.left == {} {
      StandingIsPrefix(Delivery(s), Log(s));
    }
  }

  /**
   A flush that finds the queue empty is durable, also after `real_send` has given up on a
   message: of that one a copy may have come through, behind all the accepted ones.
   */
  lemma FlushIsDurable(s: State)
    requires Inv(s) && s.queue == [] && s.app.Idle?
    ensures PushedUpTo(s) >= s.next
    ensures Durable(s)
  {
    assert StreamOk(Live(s), s, PushedUpTo(s));
    HoldingNotIdle(s);
    DeliveryStands(s);
    if s.left == {} {
      assert Log(s)[..s.next] == s.accepted;
    }
  }

  lemma HoldingNotIdle(s: State)
    requires Inv(s) && s.queue == [] && s.app.Idle?
    ensures !s.ack.Holding?
  {
    if s.ack.Holding? {
      HoldingMatches(s);
    }
  }

  // ----- recovery -----

  ghost predicate ServerOrReceiver(acts: seq<Action>) {
    forall a :: a in acts ==> a.Push? || a.Pop?
  }

  /** The server drains stream `i`. */
  lemma PushAll(s: State, i: nat) returns (acts: seq<Action>, t: State)
    requires Inv(s) && i < |s.streams|
    ensures t == Exec(s, acts) && ServerOrReceiver(acts) && Inv(t)
    ensures t == s.(streams := t.streams, list := t.list) && |t.streams| == |s.streams|
    ensures t.streams[i] == s.streams[i].(pushed := |s.streams[i].wire|)
    ensures PushedUpTo(t) >= s.streams[i].base + |s.streams[i].wire|
    decreases |s.streams[i].wire| - s.streams[i].pushed
  {
    assert StreamOk(s.streams[i], s, PushedUpTo(s));
    if s.streams[i].pushed == |s.streams[i].wire| {
      acts, t := [], s;
    } else {
      var u := Apply(s, Push(i));
      PushKeeps(s, Push(i));
      StepKeeps(s, Push(i));
      var rest;
      rest, t := PushAll(u, i);
      acts := [Push(i)] + rest;
      assert acts[1..] == rest;
    }
  }

  /** Popping one element turns what will be delivered into what has been, and no more. */
  lemma PopDelivers(s: State)
    requires s.streams != [] && s.list != [] && (s.list[0].Data? ==> s.list[0].num <= s.recvIdx + 1)
    ensures Delivery(Apply(s, Pop)) == Delivery(s)
  {
    var e, r := s.list[0], s.recvIdx + 1;
    var more := Deliveries(Bump(r, e), s.list[1..]);
    if e.Data? && e.num == r {
      assert s.got + ([e.body] + more) == s.got + [e.body] + more;
    } else {
      assert [] + more == more;
    }
  }

  /** The receiver pops its whole list, and gets just what `Delivery` says. */
  lemma PopAll(s: State) returns (acts: seq<Action>, t: State)
    requires Inv(s)
    ensures t == Exec(s, acts) && ServerOrReceiver(acts) && Inv(t)
    ensures t.list == [] && PushedUpTo(t) == PushedUpTo(s) == t.recvIdx + 1
    ensures t.got == Delivery(s)
    ensures t == s.(list := [], recvIdx := t.recvIdx, got := t.got)
    decreases |s.list|
  {
    if s.list == [] {
      acts, t := [], s;
      assert s.got + [] == s.got;
    } else {
      var u := Apply(s, Pop);
      PopReceives(s);
      PopKeeps(s);
      StepKeeps(s, Pop);
      PopDelivers(s);
      var rest;
      rest, t := PopAll(u);
      acts := [Pop] + rest;
      assert acts[1..] == rest;
    }
  }

  lemma Then(s: State, t: State, a: Action) returns (u: State)
    requires Leads(s, t) && Inv(t)
    ensures u == Apply(t, a) && Leads(s, u) && Inv(u)
  {
    u := Apply(t, a);
    StepKeeps(t, a);
    LeadsStep(t, a);
    LeadsTrans(s, t, u);
  }

  /** What a resend run leaves alone. */
  ghost predicate SameHistory(s: State, t: State) {
    t.accepted == s.accepted && t.current == s.current && t.next == s.next && t.left == s.left
  }

  lemma ResendOne(s: State) returns (t: State)
    requires Inv(s) && s.app.Resending? && s.app.pos < |s.queue|
    ensures Leads(s, t) && Inv(t) && SameHistory(s, t) && t.queue == s.queue && t.ack == s.ack
    ensures t.app == Resending(s.app.pos + 1)
  {
    t := Apply(s, ResendOk);
    StepKeeps(s, ResendOk);
    LeadsStep(s, ResendOk);
  }

  lemma EndResend(s: State) returns (t: State)
    requires Inv(s) && s.app.Resending? && s.app.pos == |s.queue|
    ensures Leads(s, t) && Inv(t) && SameHistory(s, t)
    ensures t.app.Idle? && Live(t).writable && t.ack == s.ack
  {
    t := Apply(s, ResendDone);
    StepKeeps(s, ResendDone);
    LeadsStep(s, ResendDone);
  }

  lemma FinishResend(s: State) returns (t: State)
    requires Inv(s) && s.app.Resending?
    ensures Leads(s, t) && Inv(t) && SameHistory(s, t)
    ensures t.app.Idle? && Live(t).writable && t.ack == s.ack
    decreases |s.queue| - s.app.pos
  {
    if s.app.pos == |s.queue| {
      t := EndResend(s);
    } else {
      var u := ResendOne(s);
      t := FinishResend(u);
      LeadsTrans(s, u, t);
    }
  }

  /** The application thread finishes the client call it is in. */
  lemma FinishCall(s: State) returns (t: State)
    requires Inv(s)
    ensures Leads(s, t) && Inv(t) && SameHistory(s, t) && t.app.Idle?
  {
    LeadsBy(s, []);
    if s.app.Enqueuing? {
      t := Then(s, s, Enqueue);
    } else if s.app.Resending? {
      t := FinishResend(s);
    } else {
      t := s;
    }
  }

  /** What the ack thread holds can be popped: it is not kept waiting once no `Send` is running. */
  lemma ReleaseAckThread(s: State) returns (t: State)
    requires Inv(s) && s.app.Idle? && (s.ack.Holding? || s.ack.NotStarted?)
    ensures Leads(s, t) && Inv(t) && SameHistory(s, t) && t.app.Idle? && t.ack.Reading?
  {
    LeadsBy(s, []);
    if s.ack.Holding? {
      HoldingMatches(s);
      t := Then(s, s, AckPop);
    } else {
      t := Then(s, s, Start);
    }
  }

  /** The ack thread is joined once its next `Read` fails. */
  lemma JoinAckThread(s: State) returns (t: State)
    requires Inv(s) && s.app.Idle?
    ensures Leads(s, t) && Inv(t) && SameHistory(s, t) && t.app.Idle? && t.ack.Finished?
  {
    LeadsBy(s, []);
    var u := s;
    if !s.ack.Reading? && !s.ack.Finished? {
      u := ReleaseAckThread(s);
    }
    t := if u.ack.Finished? then u else Apply(u, AckEnd);
    StepKeeps(u, AckEnd);
    LeadsStep(u, AckEnd);
    LeadsTrans(s, u, t);
  }

  /** A reconnect whose stream holds: everything unacknowledged is written again. */
  lemma Reconnect(s: State) returns (t: State)
    requires Inv(s)
    ensures Leads(s, t) && Inv(t) && SameHistory(s, t)
    ensures t.app.Idle? && t.ack.Reading? && Live(t).writable
  {
    var u := FinishCall(s);
    var v := JoinAckThread(u);
    LeadsTrans(s, u, v);
    var w := Then(s, v, Handover);
    t := FinishResend(w);
    LeadsTrans(s, w, t);
  }

  ghost predicate Drained(s: State) {
    && s.streams != [] && s.app.Idle? && s.ack.Reading? && s.current.None?
    && Live(s).writable && Live(s).pushed == |Live(s).wire|
  }

  ghost predicate SameReceiver(s: State, t: State) {
    t.got == s.got && t.list == s.list && t.recvIdx == s.recvIdx
  }

  lemma AckSent(s: State) returns (t: State)
    requires Inv(s) && Drained(s) && s.queue != [] && Live(s).acked == Live(s).read
    ensures Leads(s, t) && Inv(t) && Drained(t) && SameHistory(s, t) && SameReceiver(s, t)
    ensures t.queue == s.queue && Live(t).acked > Live(t).read
  {
    t := Apply(s, ServerAck);
    StepKeeps(s, ServerAck);
    LeadsStep(s, ServerAck);
  }

  lemma AckGot(s: State) returns (t: State)
    requires Inv(s) && Drained(s) && s.queue != [] && Live(s).acked > Live(s).read
    ensures Leads(s, t) && Inv(t) && SameHistory(s, t) && SameReceiver(s, t)
    ensures t.queue == s.queue && t.app.Idle? && t.ack.Holding?
    ensures Live(t).writable && Live(t).pushed == |Live(t).wire|
  {
    t := Apply(s, AckRead);
    StepKeeps(s, AckRead);
    LeadsStep(s, AckRead);
  }

  lemma AckPopped(s: State) returns (t: State)
    requires Inv(s) && s.app.Idle? && s.ack.Holding? && s.queue != []
    ensures Leads(s, t) && Inv(t) && t == s.(queue := s.queue[1..], ack := Reading)
  {
    t := Apply(s, AckPop);
    StepKeeps(s, AckPop);
    LeadsStep(s, AckPop);
  }

  /** One more ack arrives and pops its packet. */
  lemma AckOne(s: State) returns (t: State)
    requires Inv(s) && Drained(s) && s.queue != []
    ensures Leads(s, t) && Inv(t) && Drained(t) && SameHistory(s, t) && SameReceiver(s, t)
    ensures t.queue == s.queue[1..]
  {
    LeadsBy(s, []);
    var u := s;
    if Live(s).acked == Live(s).read {
      u := AckSent(s);
    }
    var v := AckGot(u);
    LeadsTrans(s, u, v);
    t := AckPopped(v);
    LeadsTrans(s, v, t);
  }

  /** Acks for everything the server has pushed arrive and empty the queue. */
  lemma AckAll(s: State) returns (t: State)
    requires Inv(s) && Drained(s)
    ensures Leads(s, t) && Inv(t) && SameHistory(s, t) && SameReceiver(s, t)
    ensures t.queue == []
    decreases |s.queue|
  {
    if s.queue == [] {
      LeadsBy(s, []);
      t := s;
    } else {
      var u := AckOne(s);
      t := AckAll(u);
      LeadsTrans(s, u, t);
    }
  }

  lemma SendOne(s: State) returns (t: State)
    requires Inv(s) && s.app.Idle? && s.ack.Reading? && Live(s).writable && s.current.Some?
    ensures Leads(s, t) && Inv(t) && t.accepted == s.accepted + [s.current.value] && t.current.None?
    ensures t.app.Enqueuing? && t.ack.Reading? && Live(t).writable && t.left == s.left
  {
    t := Apply(s, WriteOk);
    StepKeeps(s, WriteOk);
    LeadsStep(s, WriteOk);
  }

  lemma EnqueueOne(s: State) returns (t: State)
    requires Inv(s) && s.app.Enqueuing?
    ensures Leads(s, t) && Inv(t) && t == s.(queue := t.queue, app := Idle)
  {
    t := Apply(s, Enqueue);
    StepKeeps(s, Enqueue);
    LeadsStep(s, Enqueue);
  }

  /** The message in hand, if any, gets accepted. */
  lemma SendPending(s: State) returns (t: State)
    requires Inv(s) && s.app.Idle? && s.ack.Reading? && Live(s).writable
    ensures Leads(s, t) && Inv(t) && t.accepted == Log(s) && t.current.None? && t.left == s.left
    ensures t.app.Idle? && t.ack.Reading? && Live(t).writable
  {
    if s.current.Some? {
      var u := SendOne(s);
      t := EnqueueOne(u);
      LeadsTrans(s, u, t);
    } else {
      LeadsBy(s, []);
      t := s;
    }
  }

  lemma LiveReachesNext(s: State)
    requires Inv(s) && s.app.Idle? && s.current.None? && Live(s).writable
    ensures Live(s).base + |Live(s).wire| == s.next == |Log(s)|
  {
  }

  /** The live stream is delivered to the end. */
  lemma PushLive(s: State) returns (t: State)
    requires Inv(s) && s.app.Idle? && s.ack.Reading? && s.current.None? && Live(s).writable
    ensures Leads(s, t) && Inv(t) && Drained(t) && SameHistory(s, t)
    ensures PushedUpTo(t) >= s.next
  {
    LiveReachesNext(s);
    var pushes;
    pushes, t := PushAll(s, |s.streams| - 1);
    LeadsBy(s, pushes);
    assert Live(t) == Live(s).(pushed := |Live(s).wire|);
  }

  /** The receiver pops what has been delivered. */
  lemma PopDrained(s: State) returns (t: State)
    requires Inv(s) && Drained(s) && PushedUpTo(s) >= s.next
    ensures Leads(s, t) && Inv(t) && Drained(t) && SameHistory(s, t)
    ensures |t.got| >= s.next && t.list == []
  {
    var pops;
    pops, t := PopAll(s);
    LeadsBy(s, pops);
    PoppedSame(s, t);
  }

  lemma PoppedSame(s: State, t: State)
    requires Drained(s) && t == s.(list := [], recvIdx := t.recvIdx, got := t.got)
    ensures Drained(t) && SameHistory(s, t)
  {
  }

  /** The live stream is delivered, popped and acknowledged to the end. */
  lemma DeliverLive(s: State) returns (t: State)
    requires Inv(s) && s.app.Idle? && s.ack.Reading? && s.current.None? && Live(s).writable
    ensures Leads(s, t) && Inv(t) && SameHistory(s, t) && |t.got| >= s.next
    ensures t.current.None? && t.queue == [] && t.list == []
  {
    var u := PushLive(s);
    var v := PopDrained(u);
    LeadsTrans(s, u, v);
    t := AckAll(v);
    LeadsTrans(s, v, t);
  }

  /**
   Nothing is ever lost for good, whatever was given up before: from every reachable state some run
   gets the message in hand accepted, every accepted number delivered and all of it acknowledged;
   and unless a message was given up with a copy left, delivered exactly once in order.
   */
  lemma AlwaysRecoverable(acts: seq<Action>) returns (t: State)
    ensures var s := Exec(Init, acts);
            && Leads(s, t)
            && t.accepted == Log(s) && t.left == s.left
            && t.current.None? && t.queue == [] && t.list == []
            && |t.accepted| <= |t.got|
            && (s.left == {} ==> t.got == t.accepted)
  {
    InitInv();
    RunKeeps(Init, acts);
    var s := Exec(Init, acts);
    var u := Reconnect(s);
    var v := SendPending(u);
    LeadsTrans(s, u, v);
    t := DeliverLive(v);
    LeadsTrans(s, v, t);
    if t.left == {} {
      StandingIsPrefix(t.got, Log(t));
    }
  }
}
