/** The client of one party: both its sending and its receiving half, over redis and `push_v2`. */
module Client {
  import opened Bytes
  import opened Protocol
  import opened ExactlyOnce
  import opened GivingUp
  import opened Codec
  import opened Environment

  datatype ServiceVersion = Unknown | ServiceV1 | ServiceV2

  datatype RecvThreadStatus = NoThread | Running | Ended

  // ----- what a reconnect hands from one client to the next -----

  datatype ContinueStatus = ContinueStatus(queue: seq<Packet>, seqNo: int, recvIdx: int,
                                           service: ServiceVersion, data: DataVersion)

  /** The fields a hand-over is about. */
  datatype Carried = Carried(queue: seq<Packet>, seqNo: int, recvIdx: int, service: ServiceVersion, data: DataVersion)

  /** `get_continue_status`: below v2 the first three parts keep their zero values. */
  function TakeStatus(c: Carried): ContinueStatus {
    if c.service.ServiceV2? then ContinueStatus(c.queue, c.seqNo, c.recvIdx, c.service, c.data)
    else ContinueStatus([], 0, 0, c.service, c.data)
  }

  /** `set_continue_status` on a new client: below v2 the first three parts stay as constructed. */
  function Restored(st: ContinueStatus): Carried {
    if st.service.ServiceV2? then Carried(st.queue, st.seqNo, st.recvIdx, st.service, st.data)
    else Carried([], 0, -1, st.service, st.data)
  }

  /** A reconnect conserves the client exactly when the service is v2, or there was nothing to carry. */
  lemma HandoverConservesIff(c: Carried)
    ensures Restored(TakeStatus(c)) == c <==>
              c.service.ServiceV2? || (c.queue == [] && c.seqNo == 0 && c.recvIdx == -1)
  {
  }

  /** How one attempt of `Recv` ends. */
  datatype Verdict = Take(content: Payload) | Repeated | Gap | Resend | Skip

  datatype QueueState = Empty | Broken | Unacked

  datatype RecvResult = Received(content: Payload) | NeedResend | TimedOut | Rejected | StillWaiting

  function Total(sleeps: seq<int>): int {
    if sleeps == [] then 0 else Total(sleeps[..|sleeps| - 1]) + sleeps[|sleeps| - 1]
  }

  /**
   The sleeps of `wait_flush` so far: 10, 20, 40 ms and so on, the last one perhaps cut short.
   Each is positive, together they are never planned past `maxMsec`, and before sleep number
   `k` at least `10 * (2^k - 1)` ms have passed: their number is logarithmic in `maxMsec`.
   */
  ghost predicate FewSleeps(sleeps: seq<int>, maxMsec: int) {
    && (forall k :: 0 <= k < |sleeps| - 1 ==> sleeps[k] == 10 * Pow2(k))
    && (sleeps != [] ==>
          && 0 < sleeps[|sleeps| - 1] <= 10 * Pow2(|sleeps| - 1)
          && Total(sleeps) <= maxMsec
          && 10 * (Pow2(|sleeps| - 1) - 1) < maxMsec)
  }

  ghost predicate Backoff(sleeps: seq<int>, interval: int, elapsed: int, maxMsec: int) {
    && FewSleeps(sleeps, maxMsec)
    && Total(sleeps) <= elapsed
    && (elapsed < maxMsec ==>
          && interval == 5 * Pow2(|sleeps|) && elapsed >= 10 * (Pow2(|sleeps|) - 1)
          && (sleeps != [] ==> sleeps[|sleeps| - 1] == interval))
  }

  // ----- what `Recv` makes of the answers of `brpop` -----

  /** How many attempts in a row `Recv` makes; without a timeout it is watched for `patience` of them. */
  function Limit(redisTimeout: int, patience: nat): int {
    if redisTimeout == 0 then patience else redisTimeout
  }

  /** The verdict an answer calls for; `resend` says that a silence is a reason to resend. */
  predicate Fitting(a: Answer, v: Verdict, resend: bool) {
    match a
    case Plain(body) => v == Take(body)
    case Listed(Control(_), _) => v == Skip
    case Listed(Data(num, body), last) =>
      if num == last + 1 then v == Take(body) else if num <= last then v == Repeated else v == Gap
    case Silence => v == if resend then Resend else Skip
    case Failure => v == Skip
  }

  ghost predicate OnlyWasted(answers: seq<Answer>) {
    forall a :: a in answers ==> Wasted(a)
  }

  /** No answer before ended the call, and each attempt was made with some left. */
  ghost predicate Waited(answers: seq<Answer>, limit: int) {
    forall k :: 0 <= k < |answers| ==> Passed(answers[k]) && InVain(answers[..k]) < limit
  }

  /** The result that a whole call with these answers has, with `limit` attempts in a row. */
  ghost predicate Course(answers: seq<Answer>, r: RecvResult, limit: int) {
    var n := |answers| - 1;
    match r
    case Received(content) =>
      n >= 0 && Waited(answers[..n], limit) && InVain(answers[..n]) < limit && Brought(answers[n]) == Some(content)
    case NeedResend =>
      n >= 0 && Waited(answers[..n], limit) && InVain(answers[..n]) < limit && answers[n].Silence?
    case Rejected => false
    case _ => Waited(answers, limit) && InVain(answers) == Max(0, limit)
  }

  /** The first silence ends the call. */
  ghost predicate Silent(answers: seq<Answer>, r: RecvResult) {
    forall k :: 0 <= k < |answers| && answers[k].Silence? ==> k == |answers| - 1 && r.NeedResend?
  }

  lemma {:induction false} WastedIdle(answers: seq<Answer>)
    requires OnlyWasted(answers)
    ensures InVain(answers) == |answers|
    decreases |answers|
  {
    if answers != [] {
      assert answers[|answers| - 1] in answers;
      WastedIdle(answers[..|answers| - 1]);
    }
  }

  /** Wasted answers alone, no more than there were attempts. */
  lemma WastedWaited(answers: seq<Answer>, limit: int)
    requires OnlyWasted(answers) && |answers| <= Max(0, limit)
    ensures Waited(answers, limit)
  {
    forall k | 0 <= k < |answers| ensures Passed(answers[k]) && InVain(answers[..k]) < limit {
      assert answers[k] in answers;
      WastedIdle(answers[..k]);
    }
  }

  /** How `Recv` ends after its last attempt. */
  function ResultOf(v: Verdict, endless: bool): RecvResult {
    match v
    case Take(content) => Received(content)
    case Resend => NeedResend
    case Skip => if endless then StillWaiting else TimedOut
    case _ => Rejected
  }

  /** Some wasted answers, then one that is not, unless all attempts were wasted. */
  ghost predicate Round(answers: seq<Answer>, v: Verdict, limit: int) {
    if v.Skip? then OnlyWasted(answers) && |answers| == Max(0, limit)
    else
      var n := |answers| - 1;
      && 0 <= n < limit && OnlyWasted(answers[..n])
      && (Fitting(answers[n], v, true) || Fitting(answers[n], v, false))
  }

  /** A silence is only at the end, and asks to resend. */
  ghost predicate HeardOut(answers: seq<Answer>, v: Verdict) {
    forall k :: 0 <= k < |answers| && answers[k].Silence? ==> k == |answers| - 1 && v.Resend?
  }

  lemma OneMoreAttempt(answers: seq<Answer>, a: Answer, v: Verdict, resend: bool, limit: int)
    requires OnlyWasted(answers) && |answers| < limit && Fitting(a, v, resend)
    ensures if v.Skip? then OnlyWasted(answers + [a]) else Round(answers + [a], v, limit)
    ensures resend && HeardOut(answers, Skip) ==> HeardOut(answers + [a], v)
  {
    assert (answers + [a])[..|answers|] == answers;
  }

  /** What one round of attempts ends with is what the call ends with, unless the message was a repeated one. */
  lemma CourseEnds(answers: seq<Answer>, v: Verdict, endless: bool, limit: int)
    requires Round(answers, v, limit) && !v.Gap? && !v.Repeated?
    ensures Course(answers, ResultOf(v, endless), limit)
    ensures HeardOut(answers, v) ==> Silent(answers, ResultOf(v, endless))
  {
    if v.Skip? {
      WastedWaited(answers, limit);
      WastedIdle(answers);
    } else {
      var wasted := answers[..|answers| - 1];
      WastedWaited(wasted, limit);
      WastedIdle(wasted);
    }
  }

  /** A repeated message starts the count of attempts anew. */
  lemma {:induction false} IdleAfter(xs: seq<Answer>, a: Answer, ys: seq<Answer>)
    requires !Wasted(a)
    ensures InVain(xs + [a] + ys) == InVain(ys)
    decreases |ys|
  {
    var all := xs + [a] + ys;
    if ys == [] {
      assert all[|all| - 1] == a;
    } else {
      assert all[..|all| - 1] == xs + [a] + ys[..|ys| - 1];
      IdleAfter(xs, a, ys[..|ys| - 1]);
    }
  }

  lemma WaitedGoesOn(xs: seq<Answer>, a: Answer, ys: seq<Answer>, limit: int)
    requires OnlyWasted(xs) && |xs| < limit && Passed(a) && !Wasted(a) && Waited(ys, limit)
    ensures Waited(xs + [a] + ys, limit)
  {
    var all := xs + [a] + ys;
    forall k | 0 <= k < |all| ensures Passed(all[k]) && InVain(all[..k]) < limit {
      if k <= |xs| {
        assert all[..k] == xs[..k];
        WastedIdle(xs[..k]);
        assert k < |xs| ==> xs[k] in xs;
      } else {
        var j := k - |xs| - 1;
        assert all[..k] == xs + [a] + ys[..j];
        IdleAfter(xs, a, ys[..j]);
        assert all[k] == ys[j];
      }
    }
  }

  lemma CourseAfter(xs: seq<Answer>, a: Answer, ys: seq<Answer>, r: RecvResult, limit: int)
    requires OnlyWasted(xs) && |xs| < limit && Passed(a) && !Wasted(a) && Course(ys, r, limit)
    ensures Course(xs + [a] + ys, r, limit)
  {
    var all := xs + [a] + ys;
    if r.Received? || r.NeedResend? {
      var n := |ys| - 1;
      assert all[..|all| - 1] == xs + [a] + ys[..n];
      WaitedGoesOn(xs, a, ys[..n], limit);
      IdleAfter(xs, a, ys[..n]);
    } else {
      WaitedGoesOn(xs, a, ys, limit);
      IdleAfter(xs, a, ys);
    }
  }

  /** A round that ends with a repeated message, and the call made after it. */
  lemma CourseGoesOn(first: seq<Answer>, more: seq<Answer>, r: RecvResult, limit: int)
    requires Round(first, Repeated, limit) && Course(more, r, limit)
    ensures Course(first + more, r, limit)
    ensures HeardOut(first, Repeated) && Silent(more, r) ==> Silent(first + more, r)
  {
    var n := |first| - 1;
    assert first == first[..n] + [first[n]];
    CourseAfter(first[..n], first[n], more, r, limit);
  }

  // ----- what a reconnect writes -----

  /** Writes of these packets with one answer to all. */
  function Answers(ps: seq<Packet>, ok: bool): (r: seq<Attempted>)
    ensures |r| == |ps|
  {
    if ps == [] then [] else Answers(ps[..|ps| - 1], ok) + [Attempted(ps[|ps| - 1], ok)]
  }

  lemma OneMoreAnswer(ps: seq<Packet>, i: nat, ok: bool)
    requires i < |ps|
    ensures Answers(ps[..i + 1], ok) == Answers(ps[..i], ok) + [Attempted(ps[i], ok)]
  {
    assert ps[..i + 1][..i] == ps[..i];
  }

  /** The packets were written in order, each once, all of them or up to the first that failed. */
  ghost predicate Rewritten(before: seq<Attempted>, after: seq<Attempted>, ps: seq<Packet>, ok: bool) {
    if ok then after == before + Answers(ps, true)
    else exists k :: 0 <= k < |ps| && after == before + (Answers(ps[..k], true) + [Attempted(ps[k], false)])
  }

  /** One more packet is written, or fails to be. */
  lemma WritesGoOn(before: seq<Attempted>, ps: seq<Packet>, i: nat, ok: bool)
    requires i < |ps|
    ensures var after := before + Answers(ps[..i], true) + [Attempted(ps[i], ok)];
            if ok then after == before + Answers(ps[..i + 1], true) else Rewritten(before, after, ps, false)
  {
    OneMoreAnswer(ps, i, ok);
    var after := before + Answers(ps[..i], true) + [Attempted(ps[i], ok)];
    assert after == before + (Answers(ps[..i], true) + [Attempted(ps[i], ok)]);
  }

  /** The ack thread only ever waits for a packet that `Send` is about to append. */
  lemma HeldAck(s: State)
    requires Reached(s) && s.ack.Holding?
    ensures s.queue != [] ==> s.queue[0].num == s.ack.ack
    ensures s.app.Idle? ==> s.queue != []
  {
    ReachedInv(s);
    HoldingMatches(s);
  }

  class RpcClient {
    const out: Outgoing
    const inn: Incoming
    const redisTimeout: int           // m_redis_timeout; 0 polls without end
    var service: ServiceVersion       // m_use_rpc_version
    var data: DataVersion             // m_use_redis_data_version
    var seqNo: int                    // m_seq
    var recvIdx: int                  // m_recv_idx
    var queue: seq<Packet>            // m_notack_queue
    var status: RecvThreadStatus      // m_recv_thread_status

    /** The fields agree with the two directions this client is an end of. */
    ghost predicate Valid()
      reads this, out, inn
    {
      && Reached(out.s) && inn.Ok()
      && seqNo == out.s.next && queue == out.s.queue
      && (status.NoThread? <==> out.s.ack.NotStarted?)
      && (status.Ended? <==> out.s.ack.Finished?)
      && service == (if status.NoThread? then Unknown else ServiceV2)
      && recvIdx == inn.box.s.recvIdx
      && data == VersionOf(inn)
    }

    /** What the elements popped so far have shown. */
    static ghost function VersionOf(inn: Incoming): DataVersion
      reads inn
    {
      if inn.untouched then NotSeen else if inn.box.v1 then V1 else V2
    }

    constructor (out: Outgoing, inn: Incoming, redisTimeout: int)
      ensures this.out == out && this.inn == inn && this.redisTimeout == redisTimeout
      ensures service == Unknown && data == NotSeen && status == NoThread
      ensures seqNo == 0 && recvIdx == -1 && queue == []
    {
      this.out, this.inn, this.redisTimeout := out, inn, redisTimeout;
      service, data, status := Unknown, NotSeen, NoThread;
      seqNo, recvIdx, queue := 0, -1, [];
    }

    /** The ack thread, the server and the other party run. */
    method Interfere()
      requires Valid()
      modifies this`queue, this`status, out`s, out`ready, inn`box, inn`coming
      ensures Valid()
      ensures SenderPaused(old(out.s), out.s) && SenderKept(old(out.s), out.s)
      ensures ReceiverPaused(old(inn.box), inn.box)
      ensures inn.coming + Size(inn.box) == old(inn.coming + Size(inn.box))
      ensures old(status.Ended?) ==> status.Ended? && queue == old(queue)
    {
      out.Drift();
      inn.Drift();
      queue := out.s.queue;
      status := if out.s.ack.NotStarted? then NoThread else if out.s.ack.Finished? then Ended else Running;
    }

    // ----- the ack thread -----

    /** `Read` of the ack thread: the next ack, or the end of the stream and of the thread. */
    method ReadAck() returns (ack: Option<int>)
      requires Valid() && out.s.ack.Reading?
      modifies this`status, out`s, out`lastRead
      ensures Valid() && Leads(old(out.s), out.s)
      ensures ack == out.lastRead
      ensures out.s == Apply(old(out.s), if ack.Some? then AckRead else AckEnd)
      ensures if ack.Some? then out.s.ack == Holding(ack.value) && status == old(status) else status == Ended
    {
      ack := out.Read();
      if ack.None? {
        status := Ended;
      }
    }

    /**
     The rest of the loop, once the queue is not empty and `m_mtx` is free: the front packet
     is the one the ack is for, and it is popped.
     */
    method PopAcked(ack: int)
      requires Valid() && out.s.ack == Holding(ack)
      requires queue != [] && !out.s.app.Resending?
      modifies this`queue, out`s
      ensures Valid() && Leads(old(out.s), out.s)
      ensures old(queue)[0].num == ack && queue == old(queue)[1..]
      ensures out.s == Apply(old(out.s), AckPop)
    {
      HeldAck(out.s);
      var front := queue[0];
      assert front.num == ack;
      out.Do(AckPop);
      queue := queue[1..];
    }

    // ----- sending -----

    /** `init_sender` on a server that speaks v2. */
    method InitSender()
      requires Valid() && service.Unknown?
      modifies this`service, this`status, out`s
      ensures Valid() && service.ServiceV2? && out.s == Apply(old(out.s), Start) && Leads(old(out.s), out.s)
    {
      service := ServiceV2;
      out.Do(Start);
      status := Running;
    }

    /** The end of `Send`: the packet joins the queue, perhaps after its ack has already been read. */
    method Append(packet: Packet)
      requires Valid() && out.s.app == Enqueuing(packet)
      modifies this`status, this`queue, out`s, out`ready, inn`box, inn`coming
      ensures Valid() && out.s.app.Idle? && SenderHeld(old(out.s), out.s) && Opened(out.s) == Opened(old(out.s))
      ensures ReceiverPaused(old(inn.box), inn.box)
    {
      Interfere();
      ghost var o := out.s;
      queue := queue + [packet];
      out.Do(Enqueue);
      LeadsTrans(old(out.s), o, out.s);
    }

    /** Before `Write`: the first call opens the stream. */
    method Prepare()
      requires Valid() && out.s.app.Idle?
      modifies this`service, this`status, this`queue, out`s, out`ready, inn`box, inn`coming
      ensures Valid() && service.ServiceV2? && SenderHeld(old(out.s), out.s) && out.s.app.Idle?
      ensures Opened(out.s) == Opened(old(out.s)) && out.s.next == old(out.s.next)
      ensures ReceiverPaused(old(inn.box), inn.box)
      ensures old(status.Ended?) ==> status.Ended?
    {
      LeadsBy(out.s, []);
      if service.Unknown? {
        InitSender();
      }
      ghost var o := out.s;
      Interfere();
      LeadsTrans(old(out.s), o, out.s);
    }

    /**
     `Send`: true exactly when the message joins the accepted ones; otherwise the content is
     handed back as it was.  It makes one `Write`, of this message under the next number, and
     answers as it did; only when the ack thread has ended it makes none and answers false.
     `spoiled` says that this call made the first `Write` on its stream to return false: exactly
     then a copy of the message may still be delivered.
     */
    method Send(content: Payload) returns (ok: bool, kept: Payload, ghost spoiled: bool)
      requires Valid() && out.s.app.Idle? && out.s.current == Some(content)
      modifies this`service, this`status, this`seqNo, this`queue
      modifies out`s, out`ready, out`writes, out`failedSends, inn`box, inn`coming
      ensures Valid() && out.s.app.Idle? && service.ServiceV2?
      ensures Leads(old(out.s), out.s) && Opened(out.s) == Opened(old(out.s))
      ensures ReceiverPaused(old(inn.box), inn.box)
      ensures || out.writes == old(out.writes) + [Attempted(Packet(old(out.s.next), content), ok)]
              || (!ok && status.Ended? && out.writes == old(out.writes))
      ensures old(status.Ended?) ==> out.writes == old(out.writes)
      ensures !ok ==> status.Ended? || !Accepting(out.s)
      ensures out.failedSends == old(out.failedSends) + (if ok then 0 else 1)
      ensures ok ==> kept == [] && out.s.current == None && out.s.accepted == old(out.s.accepted) + [content]
      ensures !ok ==> kept == content && out.s.current == Some(content) && out.s.accepted == old(out.s.accepted)
      ensures !ok ==> (CopyLeft(out.s) <==> CopyLeft(old(out.s)) || spoiled)
      ensures out.s.left == old(out.s.left)
    {
      Prepare();
      if status.Ended? {
        out.SendFailed();
        return false, content, false;
      }
      ghost var o, i := out.s, inn.box;
      var packet := Packet(seqNo, content);
      ok := out.Write(packet);
      spoiled := !ok && Accepting(o);
      LeadsTrans(old(out.s), o, out.s);
      if ok {
        seqNo := seqNo + 1;
        kept := [];
        o := out.s;
        Append(packet);
        LeadsTrans(old(out.s), o, out.s);
        ReceiverPausedTrans(old(inn.box), i, inn.box);
      } else {
        out.SendFailed();
        kept := packet.body;
      }
    }

    // ----- receiving -----

    /** `init_redis_data_version`. */
    method InitDataVersion(raw: Payload) returns (rest: Payload)
      requires data.NotSeen?
      modifies this`data
      ensures data == V2 || data == V1
      ensures data == V2 <==> raw == MAGIC + rest
      ensures data == V1 ==> rest == raw && !(MAGIC <= raw)
    {
      if MAGIC <= raw {
        data := V2;
        rest := raw[|MAGIC|..];
      } else {
        data := V1;
        rest := raw;
      }
    }

    /**
     What one popped element amounts to, whatever it holds: in a v1 list a message; in a v2 list
     a command is skipped, the expected message taken, a repeated one ignored, and a number
     larger than expected rejected.
     */
    method Sort(raw: Payload) returns (v: Verdict)
      requires Seen(data, raw).0.V2? ==> |Seen(data, raw).1| >= 4
      modifies this`data, this`recvIdx
      ensures data == Seen(old(data), raw).0
      ensures data.V1? ==> v == Take(raw) && recvIdx == old(recvIdx)
      ensures data.V2? ==> Fitting(Listed(Decode(Seen(old(data), raw).1), old(recvIdx)), v, false)
      ensures data.V2? ==> recvIdx == old(recvIdx) + (if v.Take? then 1 else 0)
    {
      var temp := raw;
      if data.NotSeen? {
        temp := InitDataVersion(temp);
        assert data.V2? ==> temp == raw[|MAGIC|..];
      }
      if data.V2? {
        var idx := AsInt32(FromLE32(temp));
        if |temp| == 4 && idx < 0 {
          return Skip;
        }
        if idx == recvIdx + 1 {
          temp := temp[4..];
          recvIdx := idx;
        } else if idx < recvIdx + 1 {
          return Repeated;
        } else {
          return Gap;
        }
      }
      v := Take(temp);
    }

    /** An element of a v2 list, as the server wrote it, moves the list on and is no gap. */
    static lemma NumberedTaken(b: Inbox, c: Inbox, untouched: bool, raw: Payload)
      requires !b.v1 && PoppedNumbered(b, c, untouched, raw)
      ensures Seen(if untouched then NotSeen else V2, raw) == (V2, Encode(b.s.list[0]))
      ensures |Encode(b.s.list[0])| >= 4 && Decode(Encode(b.s.list[0])) == b.s.list[0]
      ensures BoxLeads(b, c) && Size(c) < Size(b)
      ensures forall v :: Fitting(Listed(b.s.list[0], b.s.recvIdx), v, false) ==>
                && !v.Gap? && !v.Resend?
                && c.s.recvIdx == b.s.recvIdx + (if v.Take? then 1 else 0)
                && Got(c) == Got(b) + (if v.Take? then [v.content] else [])
    {
      var e := b.s.list[0];
      DecodeEncode(e);
      if untouched {
        assert raw[|MAGIC|..] == Encode(e);
      } else {
        assert raw == Encode(e);
      }
      LeadsStep(b.s, Pop);
    }

    /** A popped element is judged; the number larger than expected never comes. */
    method Judge(raw: Payload, ghost before: Inbox, ghost first: bool) returns (v: Verdict)
      requires inn.Ok() && !inn.untouched && recvIdx == before.s.recvIdx && before.s.streams != []
      requires data == if first then NotSeen else if before.v1 then V1 else V2
      requires if before.v1 then PoppedPlain(before, inn.box, first, raw)
               else PoppedNumbered(before, inn.box, first, raw)
      modifies this`data, this`recvIdx
      ensures data == VersionOf(inn) && recvIdx == inn.box.s.recvIdx
      ensures BoxLeads(before, inn.box) && Size(inn.box) < Size(before)
      ensures Got(inn.box) == Got(before) + (if v.Take? then [v.content] else [])
      ensures Fitting(AnswerOf(before, Popped(raw)), v, false) && !v.Gap? && !v.Resend?
      ensures !before.v1 ==> (v.Skip? <==> before.s.list[0].Control?)
      ensures !before.v1 && v.Repeated? ==> before.s.list[0].Data?
    {
      if before.v1 {
        PlainTaken(before, inn.box, first, raw);
      } else {
        NumberedTaken(before, inn.box, first, raw);
      }
      v := Sort(raw);
    }

    /** `brpop` and what follows from its answer. */
    method TakeOne(askResend: bool) returns (v: Verdict, ghost answer: Answer)
      requires Valid()
      modifies this`data, this`recvIdx, out`askedResends, inn`box, inn`untouched, inn`answers
      ensures Valid() && BoxLeads(old(inn.box), inn.box)
      ensures out.askedResends == old(out.askedResends) + (if v.Resend? then 1 else 0)
      ensures inn.answers == old(inn.answers) + [answer]
      ensures Fitting(answer, v, askResend && status.Ended? && queue != []) && !v.Gap?
      ensures v.Skip? ==> inn.box == old(inn.box) || (answer.Listed? && answer.element.Control?)
      ensures Size(inn.box) <= Size(old(inn.box)) && (v.Repeated? ==> Size(inn.box) < Size(old(inn.box)))
      ensures Got(inn.box) == Got(old(inn.box)) + (if v.Take? then [v.content] else [])
    {
      ghost var before, first := inn.box, inn.untouched;
      ReachedInv(before.s);
      var poll := inn.Brpop();
      answer := AnswerOf(before, poll);
      match poll
      case Popped(raw) =>
        v := Judge(raw, before, first);
      case Nothing =>
        BoxLeadsBack(inn.box);
        v := Skip;
        if status.Ended? && queue != [] && askResend {
          out.ResendAsked();
          v := Resend;
        }
      case Error =>
        BoxLeadsBack(inn.box);
        v := Skip;
    }

    /** One round of the attempt loop. */
    method Attempt(askResend: bool) returns (v: Verdict, ghost answer: Answer)
      requires Valid()
      modifies this`status, this`queue, this`data, this`recvIdx
      modifies out`s, out`ready, out`askedResends, inn`box, inn`coming, inn`untouched, inn`answers
      ensures Valid()
      ensures SenderPaused(old(out.s), out.s) && Opened(out.s) == Opened(old(out.s))
      ensures BoxLeads(old(inn.box), inn.box)
      ensures inn.answers == old(inn.answers) + [answer]
      ensures out.askedResends == old(out.askedResends) + (if v.Resend? then 1 else 0)
      ensures Fitting(answer, v, askResend && status.Ended? && queue != []) && !v.Gap?
      ensures old(status.Ended?) ==> status.Ended? && queue == old(queue)
      ensures inn.coming + Size(inn.box) <= old(inn.coming + Size(inn.box))
      ensures v.Repeated? ==> inn.coming + Size(inn.box) < old(inn.coming + Size(inn.box))
      ensures Got(inn.box) == Got(old(inn.box)) + (if v.Take? then [v.content] else [])
    {
      Interfere();
      ghost var before := inn.box;
      v, answer := TakeOne(askResend);
      BoxLeadsTrans(old(inn.box), before, inn.box);
    }

    /** The next attempt after some wasted ones. */
    method AttemptOn(askResend: bool, ghost log: seq<Answer>, ghost before: seq<Answer>, ghost limit: int)
      returns (v: Verdict, ghost answers: seq<Answer>)
      requires Valid() && inn.answers == log + before && OnlyWasted(before) && |before| < limit
      modifies this`status, this`queue, this`data, this`recvIdx
      modifies out`s, out`ready, out`askedResends, inn`box, inn`coming, inn`untouched, inn`answers
      ensures Valid()
      ensures SenderPaused(old(out.s), out.s) && Opened(out.s) == Opened(old(out.s))
      ensures BoxLeads(old(inn.box), inn.box)
      ensures Got(inn.box) == Got(old(inn.box)) + (if v.Take? then [v.content] else [])
      ensures inn.answers == log + answers && |answers| == |before| + 1 && !v.Gap?
      ensures out.askedResends == old(out.askedResends) + (if v.Resend? then 1 else 0)
      ensures if v.Skip? then OnlyWasted(answers) else Round(answers, v, limit)
      ensures v.Resend? ==> askResend && status.Ended? && queue != []
      ensures askResend && status.Ended? && queue != [] && HeardOut(before, Skip) ==> HeardOut(answers, v)
      ensures old(status.Ended?) ==> status.Ended? && queue == old(queue)
      ensures inn.coming + Size(inn.box) <= old(inn.coming + Size(inn.box))
      ensures v.Repeated? ==> inn.coming + Size(inn.box) < old(inn.coming + Size(inn.box))
    {
      ghost var answer;
      v, answer := Attempt(askResend);
      answers := before + [answer];
      OneMoreAttempt(before, answer, v, askResend && status.Ended? && queue != [], limit);
      assert log + before + [answer] == log + answers;
    }

    /** The attempts of one call, until one is not wasted or none is left. */
    method Attempts(askResend: bool, patience: nat) returns (v: Verdict, ghost answers: seq<Answer>)
      requires Valid() && out.s.app.Idle?
      modifies this`status, this`queue, this`data, this`recvIdx
      modifies out`s, out`ready, out`askedResends, inn`box, inn`coming, inn`untouched, inn`answers
      ensures Valid()
      ensures SenderPaused(old(out.s), out.s) && Opened(out.s) == Opened(old(out.s))
      ensures BoxLeads(old(inn.box), inn.box)
      ensures Got(inn.box) == Got(old(inn.box)) + (if v.Take? then [v.content] else [])
      ensures inn.answers == old(inn.answers) + answers && Round(answers, v, Limit(redisTimeout, patience))
      ensures out.askedResends == old(out.askedResends) + (if v.Resend? then 1 else 0)
      ensures v.Resend? ==> askResend && status.Ended? && queue != []
      ensures !v.Gap? && (old(status.Ended?) ==> status.Ended? && queue == old(queue))
      ensures askResend && old(status.Ended? && queue != []) ==> HeardOut(answers, v)
      ensures inn.coming + Size(inn.box) <= old(inn.coming + Size(inn.box))
      ensures v.Repeated? ==> inn.coming + Size(inn.box) < old(inn.coming + Size(inn.box))
    {
      ghost var limit, log := Limit(redisTimeout, patience), inn.answers;
      var i := 1;
      v, answers := Skip, [];
      LeadsBy(out.s, []);
      BoxLeadsBack(inn.box);
      while v.Skip? && (i <= redisTimeout || (redisTimeout == 0 && i <= patience))
        invariant Valid() && out.s.app.Idle?
        invariant SenderPaused(old(out.s), out.s) && Opened(out.s) == Opened(old(out.s))
        invariant BoxLeads(old(inn.box), inn.box)
        invariant Got(inn.box) == Got(old(inn.box)) + (if v.Take? then [v.content] else [])
        invariant inn.answers == log + answers && !v.Gap? && |answers| == i - 1 <= Max(0, limit)
        invariant if v.Skip? then OnlyWasted(answers) else Round(answers, v, limit)
        invariant v.Resend? ==> askResend && status.Ended? && queue != []
        invariant out.askedResends == old(out.askedResends) + (if v.Resend? then 1 else 0)
        invariant old(status.Ended?) ==> status.Ended? && queue == old(queue)
        invariant askResend && old(status.Ended? && queue != []) ==> HeardOut(answers, v)
        invariant inn.coming + Size(inn.box) <= old(inn.coming + Size(inn.box))
        invariant v.Repeated? ==> inn.coming + Size(inn.box) < old(inn.coming + Size(inn.box))
        decreases limit - i, v.Skip?
      {
        ghost var o, n := out.s, inn.box;
        v, answers := AttemptOn(askResend, log, answers, limit);
        SenderPausedTrans(old(out.s), o, out.s);
        BoxLeadsTrans(old(inn.box), n, inn.box);
        i := i + 1;
      }
    }

    /** A call made after a repeated message continues the one before. */
    static lemma RecvGoesOn(o0: State, o1: State, o2: State, b0: Inbox, b1: Inbox, b2: Inbox,
                            log: seq<Answer>, first: seq<Answer>, more: seq<Answer>, r: RecvResult, limit: int)
      requires SenderPaused(o0, o1) && SenderPaused(o1, o2) && BoxLeads(b0, b1) && BoxLeads(b1, b2)
      requires Round(first, Repeated, limit) && Course(more, r, limit)
      ensures SenderPaused(o0, o2) && BoxLeads(b0, b2) && Course(first + more, r, limit)
      ensures log + first + more == log + (first + more)
      ensures HeardOut(first, Repeated) && Silent(more, r) ==> Silent(first + more, r)
    {
      SenderPausedTrans(o0, o1, o2);
      BoxLeadsTrans(b0, b1, b2);
      CourseGoesOn(first, more, r, limit);
    }

    /**
     `Recv`.  The next message in order is appended to the received ones, or nothing is.  The
     branch for a number larger than expected is dead.  The call to itself restarts the
     attempts, so it is the number of elements still to pop that makes the recursion end.
     The result is the one its answers from the list call for: it goes on over everything that
     is no new message, gives up only after as many wasted answers in a row as it has attempts,
     and asks for a resend at the first silence once the ack thread has ended with packets
     unacknowledged.  A client without a timeout is watched for `patience` polls.
     */
    method Recv(askResend: bool, patience: nat) returns (r: RecvResult, ghost answers: seq<Answer>)
      requires Valid() && out.s.app.Idle?
      modifies this`status, this`queue, this`data, this`recvIdx
      modifies out`s, out`ready, out`askedResends, inn`box, inn`coming, inn`untouched, inn`answers
      ensures Valid()
      ensures SenderPaused(old(out.s), out.s) && Opened(out.s) == Opened(old(out.s))
      ensures BoxLeads(old(inn.box), inn.box)
      ensures Got(inn.box) == Got(old(inn.box)) + (if r.Received? then [r.content] else [])
      ensures inn.answers == old(inn.answers) + answers && Course(answers, r, Limit(redisTimeout, patience))
      ensures out.askedResends == old(out.askedResends) + (if r.NeedResend? then 1 else 0)
      ensures r.NeedResend? ==> askResend && status.Ended? && queue != []
      ensures old(status.Ended?) ==> status.Ended? && queue == old(queue)
      ensures askResend && old(status.Ended? && queue != []) ==> Silent(answers, r)
      ensures r.TimedOut? ==> redisTimeout != 0
      ensures r.StillWaiting? ==> redisTimeout == 0
      decreases inn.coming + Size(inn.box)
    {
      var v;
      v, answers := Attempts(askResend, patience);
      if !v.Repeated? {
        CourseEnds(answers, v, redisTimeout == 0, Limit(redisTimeout, patience));
        r := ResultOf(v, redisTimeout == 0);
        return;
      }
      ghost var o, n := out.s, inn.box;
      ghost var more;
      r, more := Recv(askResend, patience);
      RecvGoesOn(old(out.s), o, out.s, old(inn.box), n, inn.box,
                 old(inn.answers), answers, more, r, Limit(redisTimeout, patience));
      answers := answers + more;
    }

    // ----- flushing -----

    /** The next sleep of `wait_flush`: the doubled interval, cut to what is left of `maxMsec`. */
    static method PlanSleep(interval: int, elapsed: int, maxMsec: int, ghost sleeps: seq<int>) returns (next: int)
      requires elapsed < maxMsec && Backoff(sleeps, interval, elapsed, maxMsec)
      ensures 0 < next <= maxMsec - elapsed
      ensures Backoff(sleeps + [next], next, elapsed + next, maxMsec)
    {
      assert (sleeps + [interval * 2])[..|sleeps|] == sleeps;
      next := interval * 2;
      if elapsed + next > maxMsec {
        next := maxMsec - elapsed;
      }
    }

    /** The time is up, or the next sleep is slept. */
    static method SleepOn(clock: Clock, begin: int, interval: int, maxMsec: int, ghost sleeps: seq<int>)
      returns (next: int, late: bool)
      requires Backoff(sleeps, interval, clock.now - begin, maxMsec)
      modifies clock
      ensures clock.now >= old(clock.now)
      ensures late ==> clock.now - begin >= maxMsec && clock.slept == old(clock.slept)
      ensures !late ==> clock.now > old(clock.now) && clock.slept == old(clock.slept) + [next]
      ensures !late ==> old(clock.now) - begin < maxMsec && Backoff(sleeps + [next], next, clock.now - begin, maxMsec)
    {
      var now := clock.Read();
      var elapsed := now - begin;
      late := elapsed >= maxMsec;
      next := interval;
      if !late {
        next := PlanSleep(interval, elapsed, maxMsec, sleeps);
        clock.Sleep(next);
      }
    }

    /** What `wait_flush` finds under `m_mtx`: an empty queue, a broken stream, or acks to wait for. */
    method LookAtQueue() returns (v: QueueState)
      requires Valid()
      modifies this`status, this`queue, out`s, out`ready, inn`box, inn`coming
      ensures Valid()
      ensures SenderPaused(old(out.s), out.s) && ReceiverPaused(old(inn.box), inn.box)
      ensures Opened(out.s) == Opened(old(out.s))
      ensures v.Empty? <==> queue == []
      ensures v.Broken? <==> queue != [] && (status.Ended? || !out.ready)
      ensures old(status.Ended?) ==> !v.Unacked?
    {
      Interfere();
      v := if queue == [] then Empty else if status.Ended? || !out.ready then Broken else Unacked;
    }

    /**
     `wait_flush`: true exactly when the queue was seen empty.  Otherwise it asks for a resend
     exactly when the ack thread has ended or the connection is not ready, and gives up without
     one only when `maxMsec` have passed.  With the ack thread already ended it does not sleep.
     */
    method WaitFlush(clock: Clock, maxMsec: int)
      returns (flushed: bool, needResend: bool, ghost sleeps: seq<int>)
      requires Valid()
      modifies this`status, this`queue, out`s, out`ready, inn`box, inn`coming, clock
      ensures Valid()
      ensures SenderPaused(old(out.s), out.s) && ReceiverPaused(old(inn.box), inn.box)
      ensures Opened(out.s) == Opened(old(out.s))
      ensures flushed <==> queue == []
      ensures needResend <==> !flushed && (status.Ended? || !out.ready)
      ensures old(status.Ended?) ==> sleeps == []
      ensures !flushed && !needResend ==> clock.now - old(clock.now) >= maxMsec
      ensures clock.now >= old(clock.now) && clock.slept == old(clock.slept) + sleeps && FewSleeps(sleeps, maxMsec)
    {
      var interval := 5;
      var begin := clock.Read();
      sleeps := [];
      var v := LookAtQueue();
      while v.Unacked?
        invariant Valid() && (v.Empty? <==> queue == [])
        invariant v.Broken? <==> queue != [] && (status.Ended? || !out.ready)
        invariant old(status.Ended?) ==> !v.Unacked? && sleeps == []
        invariant SenderPaused(old(out.s), out.s) && ReceiverPaused(old(inn.box), inn.box)
        invariant Opened(out.s) == Opened(old(out.s))
        invariant old(clock.now) <= begin <= clock.now && clock.slept == old(clock.slept) + sleeps
        invariant Backoff(sleeps, interval, clock.now - begin, maxMsec)
        decreases maxMsec - (clock.now - begin)
      {
        var late;
        interval, late := SleepOn(clock, begin, interval, maxMsec, sleeps);
        if late {
          return false, false, sleeps;
        }
        sleeps := sleeps + [interval];
        ghost var o, i := out.s, inn.box;
        v := LookAtQueue();
        PausedTwice(old(out.s), o, out.s, old(inn.box), i, inn.box);
      }
      flushed, needResend := v.Empty?, v.Broken?;
    }

    /**
     What a true `wait_flush` is worth: everything accepted so far is with the receiver or on
     its list, in order, and needs nothing more from this side.
     */
    lemma FlushedMeansDelivered()
      requires Valid() && queue == [] && out.s.app.Idle?
      ensures Durable(out.s)
    {
      ReachedInv(out.s);
      FlushIsDurable(out.s);
    }

    // ----- reconnecting -----

    /** An ack the thread has read finds its packet. */
    method Release()
      requires Valid() && out.s.app.Idle?
      modifies this`queue, out`s
      ensures Valid() && SenderPaused(old(out.s), out.s) && !out.s.ack.Holding?
      ensures Opened(out.s) == Opened(old(out.s))
    {
      LeadsBy(out.s, []);
      if out.s.ack.Holding? {
        HeldAck(out.s);
        CopiesSame(out.s, Apply(out.s, AckPop));
        PopAcked(out.s.ack.ack);
      }
    }

    /** `finish`: after `WritesDone` the stream ends and the ack thread is joined. */
    method Finish()
      requires Valid() && out.s.app.Idle?
      modifies this`status, this`queue, out`s, out`ready, inn`box, inn`coming
      ensures Valid() && (service.ServiceV2? ==> status.Ended?)
      ensures SenderPaused(old(out.s), out.s) && ReceiverPaused(old(inn.box), inn.box)
      ensures Opened(out.s) == Opened(old(out.s))
    {
      Interfere();
      ghost var o := out.s;
      Release();
      SenderPausedTrans(old(out.s), o, out.s);
      if out.s.ack.Reading? {
        o := out.s;
        out.Do(AckEnd);
        status := Ended;
        SenderPausedTrans(old(out.s), o, out.s);
      }
    }

    /** `get_continue_status`: what is not handed over stays; at v2 a new client can be made the same. */
    method GetContinueStatus() returns (st: ContinueStatus)
      modifies this`queue
      ensures st == TakeStatus(old(Carried(queue, seqNo, recvIdx, service, data)))
      ensures st.queue + queue == old(queue) && (service.ServiceV2? ==> queue == [])
      ensures service.ServiceV2? ==> Restored(st) == old(Carried(queue, seqNo, recvIdx, service, data))
    {
      HandoverConservesIff(Carried(queue, seqNo, recvIdx, service, data));
      if service.ServiceV2? {
        st := ContinueStatus(queue, seqNo, recvIdx, service, data);
        queue := [];
      } else {
        st := ContinueStatus([], 0, 0, service, data);
      }
    }

    /**
     `set_continue_status` on a new client.  The fields become what the status restores, in
     whatever version and whether or not the rewriting gets through; below v2 nothing else
     happens.  With the status a finished v2 client of the same two directions left, one stream
     is opened and the queue is written again on it, up to the first failing `Write`.
     */
    method SetContinueStatus(st: ContinueStatus) returns (ok: bool)
      requires service.Unknown? && status.NoThread? && queue == [] && seqNo == 0 && recvIdx == -1
      requires st.service.ServiceV2? ==>
                 && Reached(out.s) && inn.Ok() && out.s.app.Idle? && out.s.ack.Finished?
                 && st == ContinueStatus(out.s.queue, out.s.next, inn.box.s.recvIdx, ServiceV2, VersionOf(inn))
      modifies this`service, this`data, this`queue, this`seqNo, this`recvIdx, this`status
      modifies out`s, out`ready, out`writes, inn`box, inn`coming
      ensures Carried(queue, seqNo, recvIdx, service, data) == Restored(st)
      ensures !st.service.ServiceV2? ==> ok && out.s == old(out.s) && inn.box == old(inn.box) && status.NoThread?
      ensures !st.service.ServiceV2? ==> out.writes == old(out.writes)
      ensures st.service.ServiceV2? ==> Valid() && (ok <==> AllWritten(out.s)) && (ok <==> Accepting(out.s))
      ensures st.service.ServiceV2? ==> Rewritten(old(out.writes), out.writes, queue, ok)
      ensures st.service.ServiceV2? ==> Opened(out.s) == Opened(old(out.s)) + 1
      ensures st.service.ServiceV2? ==> SenderPaused(old(out.s), out.s) && ReceiverPaused(old(inn.box), inn.box)
    {
      service := st.service;
      data := st.data;
      ok := true;
      if service.ServiceV2? {
        queue := st.queue;
        seqNo := st.seqNo;
        recvIdx := st.recvIdx;
        OpenNext();
        ghost var o := out.s;
        ok := WriteAgain();
        SenderHeldTrans(old(out.s), o, out.s);
      }
    }

    /** `init_sender` inside `set_continue_status`: a new stream and a new ack thread. */
    method OpenNext()
      requires Reached(out.s) && inn.Ok() && out.s.app.Idle? && out.s.ack.Finished?
      requires service.ServiceV2? && queue == out.s.queue && seqNo == out.s.next && recvIdx == inn.box.s.recvIdx
      requires data == VersionOf(inn)
      modifies this`status, out`s
      ensures Valid() && SenderHeld(old(out.s), out.s) && out.s.app == Resending(0) && status == Running
      ensures Opened(out.s) == Opened(old(out.s)) + 1
    {
      StreamFacts(out.s);
      out.Do(Handover);
      status := Running;
    }

    method WriteOneAgain(i: nat) returns (ok: bool)
      requires Valid() && i < |queue| && out.s.app == Resending(i)
      modifies this`queue, this`status, out`s, out`ready, out`writes, inn`box, inn`coming
      ensures Valid() && SenderHeld(old(out.s), out.s) && ReceiverPaused(old(inn.box), inn.box)
      ensures Opened(out.s) == Opened(old(out.s))
      ensures out.writes == old(out.writes) + [Attempted(old(queue)[i], ok)]
      ensures out.s.app == if ok then Resending(i + 1) else Idle
      ensures queue == old(queue) && (status.NoThread? <==> old(status.NoThread?))
      ensures !ok ==> !Accepting(out.s)
    {
      Interfere();
      ghost var o := out.s;
      ok := out.Rewrite(queue[i]);
      SenderHeldTrans(old(out.s), o, out.s);
    }

    /** The loop of `set_continue_status`, under `m_mtx`: every packet once, up to the first failure. */
    method WriteAgain() returns (ok: bool)
      requires Valid() && out.s.app == Resending(0) && status != NoThread
      modifies this`queue, this`status, out`s, out`ready, out`writes, inn`box, inn`coming
      ensures Valid() && SenderHeld(old(out.s), out.s) && out.s.app.Idle?
      ensures ReceiverPaused(old(inn.box), inn.box) && Opened(out.s) == Opened(old(out.s))
      ensures queue == old(queue) && status != NoThread
      ensures Rewritten(old(out.writes), out.writes, queue, ok)
      ensures (ok <==> AllWritten(out.s)) && (ok <==> Accepting(out.s))
    {
      var i := 0;
      LeadsBy(out.s, []);
      BoxLeadsBack(inn.box);
      while i < |queue|
        invariant Valid() && status != NoThread && queue == old(queue) && i <= |queue| && out.s.app == Resending(i)
        invariant SenderHeld(old(out.s), out.s) && ReceiverPaused(old(inn.box), inn.box)
        invariant Opened(out.s) == Opened(old(out.s))
        invariant out.writes == old(out.writes) + Answers(queue[..i], true)
      {
        ghost var o, n := out.s, inn.box;
        var ret := WriteOneAgain(i);
        HeldTwice(old(out.s), o, out.s, old(inn.box), n, inn.box);
        WritesGoOn(old(out.writes), queue, i, ret);
        if !ret {
          return false;
        }
        i := i + 1;
      }
      assert queue[..i] == queue;
      ghost var o := out.s;
      EndResend();
      SenderHeldTrans(old(out.s), o, out.s);
      ok := true;
    }

    method EndResend()
      requires Valid() && out.s.app == Resending(|queue|) && status != NoThread
      modifies out`s
      ensures Valid() && SenderHeld(old(out.s), out.s) && out.s.app.Idle? && AllWritten(out.s)
      ensures Opened(out.s) == Opened(old(out.s))
    {
      ResentAll(out.s);
      out.Do(ResendDone);
    }
  }
}
