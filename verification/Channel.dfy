/** The retry and reconnect drivers over the client. */
module ChannelDrivers {
  import opened Bytes
  import opened Protocol
  import opened ExactlyOnce
  import opened GivingUp
  import opened Environment
  import opened Client

  const ATTEMPTS: nat := 120
  const FLUSH_MSEC: int := 10000

  /** How `real_send` ends; `ReturnedUnsent` is the return after a last reconnect that worked. */
  datatype SendOutcome = Sent | ReturnedUnsent | SendThrew

  datatype RecvOutcome = Delivered(content: Payload) | ReturnedEmpty | RecvThrew | Waiting

  /** The last `Write` was of this packet and returned true. */
  predicate LastWrite(writes: seq<Attempted>, p: Packet) {
    writes != [] && writes[|writes| - 1] == Attempted(p, true)
  }

  predicate EndsWith(log: seq<Answer>, last: seq<Answer>) {
    |last| <= |log| && log[|log| - |last|..] == last
  }

  /** The next number changes only as messages are accepted. */
  lemma SameNext(s: State, t: State)
    requires Reached(s) && Reached(t)
    ensures |s.accepted| == |t.accepted| ==> s.next == t.next
  {
    StreamFacts(s);
    StreamFacts(t);
  }

  /** How `real_recv` ends after its last round. */
  function Outcome(r: RecvResult, reconnected: bool): RecvOutcome {
    match r
    case Received(content) => Delivered(content)
    case StillWaiting => Waiting
    case NeedResend => if reconnected then ReturnedEmpty else RecvThrew
    case _ => RecvThrew
  }

  /** What is given up when `real_send` is called with `content`, if a copy of it is left. */
  function GivenUp(s: State, content: Payload): set<Packet> {
    if s.current == Some(content) then {} else Leftover(s)
  }

  class Channel {
    const out: Outgoing
    const inn: Incoming
    const redisTimeout: int
    var client: RpcClient
    var bytesSend: nat
    var packetSend: nat
    var bytesRecv: nat
    var packetRecv: nat

    ghost predicate Valid()
      reads this, client, out, inn
    {
      && client.out == out && client.inn == inn && client.redisTimeout == redisTimeout
      && client.Valid() && out.s.app.Idle?
    }

    constructor (out: Outgoing, inn: Incoming, redisTimeout: int)
      requires out.s == Init && inn.Ok() && inn.box.s == Init && inn.untouched
      ensures Valid() && this.out == out && this.inn == inn
      ensures bytesSend == packetSend == bytesRecv == packetRecv == 0
    {
      ReachedInit();
      this.out, this.inn, this.redisTimeout := out, inn, redisTimeout;
      client := new RpcClient(out, inn, redisTimeout);
      bytesSend, packetSend, bytesRecv, packetRecv := 0, 0, 0, 0;
    }

    /** The old client is finished and its status taken; then some time passes. */
    method TakeDown() returns (st: ContinueStatus)
      requires Valid() && client.service.ServiceV2?
      modifies client, out`s, out`ready, inn`box, inn`coming
      ensures Reached(out.s) && inn.Ok() && out.s.app.Idle? && out.s.ack.Finished?
      ensures st == ContinueStatus(out.s.queue, out.s.next, inn.box.s.recvIdx, ServiceV2, RpcClient.VersionOf(inn))
      ensures SenderPaused(old(out.s), out.s) && ReceiverPaused(old(inn.box), inn.box)
      ensures Opened(out.s) == Opened(old(out.s))
    {
      client.Finish();
      ghost var o, i := out.s, inn.box;
      st := client.GetContinueStatus();
      out.Drift();   // sleep_for and create_channel
      inn.Drift();
      PausedTwice(old(out.s), o, out.s, old(inn.box), i, inn.box);
    }

    /**
     Finish, take the status, build a new client, set the status.  No unacknowledged packet,
     number or receive index is lost, whether or not every packet could be written again.  One
     stream is opened, and the answer says whether everything unacknowledged is on it.
     */
    method Reconnect() returns (ok: bool)
      requires Valid() && client.service.ServiceV2?
      modifies this`client, client, out`s, out`ready, out`writes, inn`box, inn`coming
      ensures Valid() && fresh(client) && client.service.ServiceV2?
      ensures SenderPaused(old(out.s), out.s) && ReceiverPaused(old(inn.box), inn.box)
      ensures Opened(out.s) == Opened(old(out.s)) + 1
      ensures Rewritten(old(out.writes), out.writes, client.queue, ok)
      ensures (ok <==> AllWritten(out.s)) && (ok <==> Accepting(out.s))
    {
      var st := TakeDown();
      ghost var o, i := out.s, inn.box;
      client := new RpcClient(out, inn, redisTimeout);
      ok := client.SetContinueStatus(st);
      PausedTwice(old(out.s), o, out.s, old(inn.box), i, inn.box);
    }

    /** `real_send` starts on a message, giving up the one it did not get through before, if any. */
    method TakeUp(content: Payload)
      requires Valid()
      requires out.s.current.None? ==> out.s.next < INT_MAX
      modifies out`s
      ensures Valid() && (CopyLeft(out.s) <==> CopyLeft(old(out.s)))
      ensures out.s == old(out.s).(current := Some(content), left := old(out.s.left) + GivenUp(old(out.s), content))
    {
      StreamFacts(out.s);
      if out.s.current != Some(content) {
        ReachedStep(out.s, GiveUp);
        ReachedStep(Apply(out.s, GiveUp), Submit(content));
        out.s := Apply(Apply(out.s, GiveUp), Submit(content));
      }
      CopiesSame(old(out.s), out.s);
    }

    /** One attempt of `real_send`: a `Send`, and exactly when it fails a reconnect. */
    method TrySend(content: Payload)
      returns (sent: bool, rest: Payload, reconnected: bool, ghost spoiled: bool, ghost write: seq<Attempted>)
      requires Valid() && out.s.current == Some(content)
      modifies this`client, client, out`s, out`ready, out`writes, out`failedSends, inn`box, inn`coming
      ensures Valid() && (if sent then client == old(client) else fresh(client))
      ensures ReceiverPaused(old(inn.box), inn.box)
      ensures Opened(out.s) == Opened(old(out.s)) + (if sent then 0 else 1)
      ensures out.failedSends == old(out.failedSends) + (if sent then 0 else 1)
      ensures write == [Attempted(Packet(old(out.s.next), content), sent)] || (!sent && write == [])
      ensures if sent then out.writes == old(out.writes) + write
              else Rewritten(old(out.writes) + write, out.writes, client.queue, reconnected)
      ensures !sent ==> (reconnected <==> AllWritten(out.s))
      ensures sent ==> out.s.accepted == old(out.s.accepted) + [content] && out.s.current == None && rest == []
      ensures !sent ==> out.s.accepted == old(out.s.accepted) && out.s.current == Some(content) && rest == content
      ensures !sent ==> (CopyLeft(out.s) <==> CopyLeft(old(out.s)) || spoiled)
      ensures out.s.left == old(out.s.left)
    {
      sent, rest, spoiled := client.Send(content);
      write := out.writes[|old(out.writes)|..];
      reconnected := false;
      if !sent {
        ghost var n := inn.box;
        assert out.writes == old(out.writes) + write;
        reconnected := Reconnect();
        ReceiverPausedTrans(old(inn.box), n, inn.box);
      }
    }

    /** The retry loop of `real_send`; `ret` is what it leaves in the variable of that name. */
    method SendLoop(content: Payload)
      returns (sent: bool, ret: bool, rest: Payload, ghost failed: nat, ghost spoils: seq<bool>)
      requires Valid() && out.s.current == Some(content)
      modifies this`client, client, out`s, out`ready, out`writes, out`failedSends, inn`box, inn`coming
      ensures Valid() && (if failed == 0 then client == old(client) else fresh(client))
      ensures ReceiverPaused(old(inn.box), inn.box)
      ensures Opened(out.s) == Opened(old(out.s)) + failed
      ensures out.failedSends == old(out.failedSends) + failed
      ensures if sent then failed < ATTEMPTS else failed == ATTEMPTS
      ensures sent ==> ret && LastWrite(out.writes, Packet(old(out.s.next), content))
      ensures sent ==> rest == [] && out.s.current == None && out.s.accepted == old(out.s.accepted) + [content]
      ensures !sent ==> rest == content && out.s.current == Some(content) && out.s.accepted == old(out.s.accepted)
      ensures !sent ==> (ret <==> AllWritten(out.s))
      ensures !sent ==> (CopyLeft(out.s) <==> CopyLeft(old(out.s)) || true in spoils)
      ensures out.s.left == old(out.s.left)
    {
      rest, failed, spoils := content, 0, [];
      BoxLeadsBack(inn.box);
      ret, sent := false, false;
      var i := 0;
      while i < ATTEMPTS && !sent
        invariant Valid() && (if failed == 0 then client == old(client) else fresh(client))
        invariant ReceiverPaused(old(inn.box), inn.box)
        invariant Opened(out.s) == Opened(old(out.s)) + failed
        invariant out.failedSends == old(out.failedSends) + failed
        invariant i == failed <= ATTEMPTS && (sent ==> failed < ATTEMPTS)
        invariant sent ==> ret && LastWrite(out.writes, Packet(old(out.s.next), content))
        invariant sent ==> rest == [] && out.s.current == None
        invariant sent ==> out.s.accepted == old(out.s.accepted) + [content]
        invariant !sent ==> rest == content && out.s.current == Some(content) && out.s.accepted == old(out.s.accepted)
        invariant !sent && failed > 0 ==> (ret <==> AllWritten(out.s))
        invariant !sent ==> (CopyLeft(out.s) <==> CopyLeft(old(out.s)) || true in spoils)
        invariant out.s.left == old(out.s.left)
        decreases ATTEMPTS - i, !sent
      {
        ghost var n := inn.box;
        ghost var spoiled, write;
        SameNext(old(out.s), out.s);
        sent, rest, ret, spoiled, write := TrySend(rest);
        ReceiverPausedTrans(old(inn.box), n, inn.box);
        spoils := spoils + [spoiled];
        if sent {
          ret := true;
        } else {
          i := i + 1;
          failed := failed + 1;
        }
      }
    }

    /**
     `real_send`.  It has sent exactly when one of its `Send`s returned true, and then once: that
     was its last `Write`, of this message under the next number.  Each of the `failed` attempts
     before found the ack thread ended or the stream closed to writes, and was followed by a
     reconnect; there is none without such a failure.  After 120 failures it returns all the same
     exactly when the last reconnect got everything unacknowledged on the new stream, else throws;
     the content is then handed back untouched and stays the message in hand, and a copy of it
     is left exactly when some attempt made the first `Write` on its stream to fail, or one was
     left under this number before.  A message given up earlier is remembered if a copy was left.
     */
    method RealSend(content: Payload)
      returns (outcome: SendOutcome, rest: Payload, ghost failed: nat, ghost spoils: seq<bool>)
      requires Valid()
      requires out.s.current.None? ==> out.s.next < INT_MAX
      modifies this`client, this`bytesSend, this`packetSend, client
      modifies out`s, out`ready, out`writes, out`failedSends, inn`box, inn`coming
      ensures Valid() && (if failed == 0 then client == old(client) else fresh(client))
      ensures ReceiverPaused(old(inn.box), inn.box)
      ensures Opened(out.s) == Opened(old(out.s)) + failed
      ensures out.failedSends == old(out.failedSends) + failed
      ensures if outcome.Sent? then failed < ATTEMPTS else failed == ATTEMPTS
      ensures outcome.Sent? ==> LastWrite(out.writes, Packet(old(out.s.next), content))
      ensures outcome.Sent? ==> out.s.accepted == old(out.s.accepted) + [content] && out.s.current == None && rest == []
      ensures !outcome.Sent? ==> out.s.accepted == old(out.s.accepted) && out.s.current == Some(content)
      ensures !outcome.Sent? ==> rest == content
      ensures !outcome.Sent? ==> (outcome.ReturnedUnsent? <==> AllWritten(out.s))
      ensures !outcome.Sent? ==> (CopyLeft(out.s) <==> CopyLeft(old(out.s)) || true in spoils)
      ensures out.s.left == old(out.s.left) + GivenUp(old(out.s), content)
      ensures if outcome.SendThrew? then packetSend == old(packetSend) && bytesSend == old(bytesSend)
              else packetSend == old(packetSend) + 1 && bytesSend == old(bytesSend) + |content|
    {
      TakeUp(content);
      var sent, ret;
      sent, ret, rest, failed, spoils := SendLoop(content);
      if ret {
        bytesSend, packetSend := bytesSend + |content|, packetSend + 1;
        outcome := if sent then Sent else ReturnedUnsent;
      } else {
        outcome := SendThrew;
      }
    }

    /** One round of `real_recv`: a `Recv`, and exactly when it asks for one a reconnect. */
    method TryRecv(patience: nat) returns (r: RecvResult, reconnected: bool, ghost answers: seq<Answer>)
      requires Valid()
      modifies this`client, client, out`s, out`ready, out`writes, out`askedResends
      modifies inn`box, inn`coming, inn`untouched, inn`answers
      ensures Valid() && (if r.NeedResend? then fresh(client) else client == old(client))
      ensures SenderPaused(old(out.s), out.s) && BoxLeads(old(inn.box), inn.box)
      ensures Opened(out.s) == Opened(old(out.s)) + (if r.NeedResend? then 1 else 0)
      ensures out.askedResends == old(out.askedResends) + (if r.NeedResend? then 1 else 0)
      ensures Got(inn.box) == Got(old(inn.box)) + (if r.Received? then [r.content] else [])
      ensures inn.answers == old(inn.answers) + answers && Course(answers, r, Limit(redisTimeout, patience))
      ensures r.NeedResend? ==> (reconnected <==> AllWritten(out.s))
      ensures r.TimedOut? ==> redisTimeout != 0
      ensures r.StillWaiting? ==> redisTimeout == 0
    {
      r, answers := client.Recv(true, patience);
      reconnected := false;
      if r.NeedResend? {
        ghost var o, n := out.s, inn.box;
        reconnected := Reconnect();
        SenderPausedTrans(old(out.s), o, out.s);
        BoxLeadsTrans(old(inn.box), n, inn.box);
      }
    }

    /** The retry loop of `real_recv`; `last` is what the last `Recv` heard from the list. */
    method RecvLoop(patience: nat)
      returns (r: RecvResult, ret: bool, ghost failed: nat, ghost last: seq<Answer>)
      requires Valid()
      modifies this`client, client, out`s, out`ready, out`writes, out`askedResends
      modifies inn`box, inn`coming, inn`untouched, inn`answers
      ensures Valid() && (if failed == 0 then client == old(client) else fresh(client))
      ensures SenderPaused(old(out.s), out.s) && BoxLeads(old(inn.box), inn.box)
      ensures Opened(out.s) == Opened(old(out.s)) + failed
      ensures out.askedResends == old(out.askedResends) + failed
      ensures Got(inn.box) == Got(old(inn.box)) + (if r.Received? then [r.content] else [])
      ensures EndsWith(inn.answers, last) && Course(last, r, Limit(redisTimeout, patience))
      ensures if r.NeedResend? then failed == ATTEMPTS else failed < ATTEMPTS
      ensures r.NeedResend? ==> (ret <==> AllWritten(out.s))
      ensures r.TimedOut? ==> redisTimeout != 0
      ensures r.StillWaiting? ==> redisTimeout == 0
    {
      failed, last := 0, [];
      LeadsBy(out.s, []);
      BoxLeadsBack(inn.box);
      ret := false;
      r := NeedResend;
      var i := 0;
      while r.NeedResend? && i < ATTEMPTS
        invariant Valid() && (if failed == 0 then client == old(client) else fresh(client))
        invariant SenderPaused(old(out.s), out.s) && BoxLeads(old(inn.box), inn.box)
        invariant Opened(out.s) == Opened(old(out.s)) + failed
        invariant out.askedResends == old(out.askedResends) + failed
        invariant Got(inn.box) == Got(old(inn.box)) + (if r.Received? then [r.content] else [])
        invariant i == failed <= ATTEMPTS && (!r.NeedResend? ==> failed < ATTEMPTS)
        invariant failed > 0 || !r.NeedResend? ==>
                    EndsWith(inn.answers, last) && Course(last, r, Limit(redisTimeout, patience))
        invariant failed > 0 && r.NeedResend? ==> (ret <==> AllWritten(out.s))
        invariant r.TimedOut? ==> redisTimeout != 0
        invariant r.StillWaiting? ==> redisTimeout == 0
        decreases ATTEMPTS - i, r.NeedResend?
      {
        ghost var o, n, log := out.s, inn.box, inn.answers;
        r, ret, last := TryRecv(patience);
        assert inn.answers[|log|..] == last;
        SenderPausedTrans(old(out.s), o, out.s);
        BoxLeadsTrans(old(inn.box), n, inn.box);
        if r.NeedResend? {
          i := i + 1;
          failed := failed + 1;
        }
      }
    }

    /**
     `real_recv` over redis: the next message in order is delivered, or nothing is.  What ends it
     is what its last `Recv` heard from the list; each of the `failed` ones before asked to resend
     and was followed by a reconnect.  Asked 120 times, it returns nothing as if it were a message
     exactly when the last reconnect got everything unacknowledged on the new stream.
     */
    method RealRecv(patience: nat) returns (outcome: RecvOutcome, ghost failed: nat, ghost last: seq<Answer>)
      requires Valid()
      modifies this`client, this`bytesRecv, this`packetRecv, client, out`s, out`ready, out`writes, out`askedResends
      modifies inn`box, inn`coming, inn`untouched, inn`answers
      ensures Valid() && (if failed == 0 then client == old(client) else fresh(client))
      ensures SenderPaused(old(out.s), out.s) && BoxLeads(old(inn.box), inn.box)
      ensures Opened(out.s) == Opened(old(out.s)) + failed && failed <= ATTEMPTS
      ensures out.askedResends == old(out.askedResends) + failed
      ensures Got(inn.box) == Got(old(inn.box)) + (if outcome.Delivered? then [outcome.content] else [])
      ensures EndsWith(inn.answers, last)
      ensures match outcome
              case Delivered(content) =>
                failed < ATTEMPTS && Course(last, Received(content), Limit(redisTimeout, patience))
              case Waiting => redisTimeout == 0 && Course(last, StillWaiting, Limit(redisTimeout, patience))
              case ReturnedEmpty => failed == ATTEMPTS && AllWritten(out.s)
              case RecvThrew =>
                if failed == ATTEMPTS then !AllWritten(out.s)
                else redisTimeout != 0 && Course(last, TimedOut, Limit(redisTimeout, patience))
      ensures packetRecv == old(packetRecv) + (if outcome.Delivered? || outcome.ReturnedEmpty? then 1 else 0)
      ensures bytesRecv == old(bytesRecv) + (if outcome.Delivered? then |outcome.content| else 0)
    {
      var r, ret;
      r, ret, failed, last := RecvLoop(patience);
      outcome := Outcome(r, ret);
      if outcome.Delivered? {
        bytesRecv, packetRecv := bytesRecv + |outcome.content|, packetRecv + 1;
      } else if outcome.ReturnedEmpty? {
        packetRecv := packetRecv + 1;
      }
    }

    /** One round of `flush`: a `wait_flush`, and exactly when it asks for one a reconnect. */
    method TryFlush(clock: Clock) returns (flag: bool, needRetry: bool)
      requires Valid()
      modifies this`client, client, out`s, out`ready, out`writes, out`brokenFlushes, inn`box, inn`coming, clock
      ensures Valid() && (if needRetry then fresh(client) else client == old(client))
      ensures SenderPaused(old(out.s), out.s) && ReceiverPaused(old(inn.box), inn.box)
      ensures Opened(out.s) == Opened(old(out.s)) + (if needRetry then 1 else 0)
      ensures out.brokenFlushes == old(out.brokenFlushes) + (if needRetry then 1 else 0)
      ensures !needRetry ==> (flag <==> client.queue == [])
      ensures flag ==> !needRetry && Durable(out.s)
      ensures clock.now >= old(clock.now)
      ensures !flag && !needRetry ==>
                !client.status.Ended? && out.ready && clock.now - old(clock.now) >= FLUSH_MSEC
    {
      ghost var sleeps;
      flag, needRetry, sleeps := client.WaitFlush(clock, FLUSH_MSEC);
      if flag {
        client.FlushedMeansDelivered();
      }
      if needRetry {
        StreamFacts(out.s);
        out.FlushBroken();
        ghost var o, n := out.s, inn.box;
        var ok := Reconnect();
        PausedTwice(old(out.s), o, out.s, old(inn.box), n, inn.box);
      }
    }

    /**
     `flush`.  True from inside the loop means every accepted message is with the receiver or
     on its list in order; true after 120 failed rounds promises nothing.  False means that the
     stream works and acks are outstanding after the full waiting time.  Each of the `rounds`
     before found the stream or the connection broken with packets unacknowledged, and was
     followed by a reconnect; there is none without such a find.
     */
    method Flush(clock: Clock) returns (flag: bool, ghost rounds: nat)
      requires Valid()
      modifies this`client, client, out`s, out`ready, out`writes, out`brokenFlushes, inn`box, inn`coming, clock
      ensures Valid() && (if rounds == 0 then client == old(client) else fresh(client)) && rounds <= ATTEMPTS
      ensures SenderPaused(old(out.s), out.s) && ReceiverPaused(old(inn.box), inn.box)
      ensures Opened(out.s) == Opened(old(out.s)) + rounds
      ensures out.brokenFlushes == old(out.brokenFlushes) + rounds
      ensures rounds == ATTEMPTS ==> flag
      ensures rounds < ATTEMPTS ==> (flag <==> client.queue == [])
      ensures flag && rounds < ATTEMPTS ==> Durable(out.s)
      ensures !flag ==> !client.status.Ended? && out.ready && clock.now - old(clock.now) >= FLUSH_MSEC
    {
      rounds := 0;
      LeadsBy(out.s, []);
      BoxLeadsBack(inn.box);
      for i := 0 to ATTEMPTS
        invariant Valid() && (if rounds == 0 then client == old(client) else fresh(client)) && rounds == i
        invariant SenderPaused(old(out.s), out.s) && ReceiverPaused(old(inn.box), inn.box)
        invariant Opened(out.s) == Opened(old(out.s)) + rounds && clock.now >= old(clock.now)
        invariant out.brokenFlushes == old(out.brokenFlushes) + rounds
      {
        ghost var o, n := out.s, inn.box;
        var needRetry;
        flag, needRetry := TryFlush(clock);
        PausedTwice(old(out.s), o, out.s, old(inn.box), n, inn.box);
        if !needRetry {
          return flag, i;
        }
        rounds := rounds + 1;
      }
      flag := true;
    }
  }
}
