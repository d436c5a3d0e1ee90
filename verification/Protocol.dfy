/**
 One direction of the resumable stream, as a machine of atomic steps: the sender's
 application thread and ack thread, the server behind every stream ever opened, and
 the receiver that pops the list.  An action that is not enabled leaves the state alone,
 so every list of actions is a run and "for every run" is "for every `seq<Action>`".
 */
module Protocol {
  import opened Bytes

  /** A message as the sender numbers it (`m_seq`). */
  datatype Packet = Packet(num: int, body: Payload)

  /** An element of the receiver's list: numbered data, or a (negative) server command. */
  datatype Element = Data(num: int, body: Payload) | Control(cmd: int)

  /**
   A `push_v2` stream.  `wire` holds every packet handed to it, the last one being a packet
   whose `Write` failed when `writable` is false: the server may still deliver that one, but
   never acknowledges it.  `base` is the number its first packet carries.
   */
  datatype Stream = Stream(base: nat, wire: seq<Packet>, pushed: nat, acked: nat, read: nat, writable: bool) {
    /** How many writes returned true. */
    function Confirmed(): int {
      if writable then |wire| else |wire| - 1
    }
  }

  /** Where the application thread is between two client calls or inside one. */
  datatype AppPc = Idle | Enqueuing(packet: Packet) | Resending(pos: nat)

  /** The ack thread: not yet started, in `Read`, holding an ack it has read, or gone. */
  datatype AckPc = NotStarted | Reading | Holding(ack: int) | Finished

  datatype State = State(
    next: int,                   // m_seq
    queue: seq<Packet>,          // m_notack_queue
    app: AppPc,
    ack: AckPc,
    streams: seq<Stream>,        // the last one is live, the others are abandoned
    list: seq<Element>,          // the receiver's FIFO list, oldest first
    recvIdx: int,                // m_recv_idx at the receiver
    // history
    current: Option<Payload>,    // the message `real_send` is trying to send
    accepted: seq<Payload>,      // messages some `Send` returned true for
    got: seq<Payload>,           // messages `Recv` returned
    gaps: nat,                   // times `Recv` met a number larger than expected
    left: set<Packet>            // messages given up while some stream held a copy
  )

  datatype Action =
    | Submit(content: Payload)   // real_send starts on a message
    | GiveUp                     // the application drops the message it could not send
    | Start                      // init_sender
    | WriteOk | WriteFail        // Write inside Send
    | Enqueue                    // emplace_back inside Send
    | AckRead | AckPop | AckEnd  // the ack thread
    | Handover                   // finish, get_continue_status, new client, set_continue_status
    | ResendOk | ResendFail | ResendDone
    | Push(stream: nat)          // the server moves the next packet of any stream to the list
    | ServerAck                  // the server acknowledges on the live stream
    | PushControl(cmd: int)
    | Pop                        // one element taken by Recv

  const FreshStream := Stream(0, [], 0, 0, 0, true)

  const Init := State(0, [], Idle, NotStarted, [FreshStream], [], -1, None, [], [], 0, {})

  function Live(s: State): Stream
    requires s.streams != []
  {
    s.streams[|s.streams| - 1]
  }

  function WithLive(s: State, st: Stream): State
    requires s.streams != []
  {
    s.(streams := s.streams[|s.streams| - 1 := st])
  }

  /** A write on the live stream: accepted, or refused after which nothing more is accepted. */
  function Written(s: State, p: Packet, ok: bool): State
    requires s.streams != []
  {
    WithLive(s, Live(s).(wire := Live(s).wire + [p], writable := ok))
  }

  /** Number of packets whose acks have been popped. */
  function Acked(s: State): int {
    s.next - (if s.app.Enqueuing? then 1 else 0) - |s.queue|
  }

  /** One past the highest number on any stream. */
  function Furthest(streams: seq<Stream>): int {
    if streams == [] then 0
    else
      var st := streams[|streams| - 1];
      Max(st.base + |st.wire|, Furthest(streams[..|streams| - 1]))
  }

  /** A `Write` of a message numbered `m_seq` failed after it had been handed to a stream. */
  predicate CopyLeft(s: State) {
    Furthest(s.streams) > s.next
  }

  lemma {:induction false} FurthestIs(streams: seq<Stream>, n: int)
    requires n >= 0
    ensures Furthest(streams) > n <==>
              exists i :: 0 <= i < |streams| && streams[i].base + |streams[i].wire| > n
    decreases |streams|
  {
    if streams != [] {
      var last := |streams| - 1;
      FurthestIs(streams[..last], n);
      if Furthest(streams[..last]) > n {
        var i :| 0 <= i < last && streams[..last][i].base + |streams[..last][i].wire| > n;
        assert streams[i].base + |streams[i].wire| > n;
      }
      if i :| 0 <= i < |streams| && streams[i].base + |streams[i].wire| > n {
        if i < last {
          assert streams[..last][i].base + |streams[..last][i].wire| > n;
        }
      }
    }
  }

  /** Some stream has been handed a packet under the next number. */
  lemma CopyLeftIs(s: State)
    requires s.next >= 0
    ensures CopyLeft(s) <==>
              exists i :: 0 <= i < |s.streams| && s.streams[i].base + |s.streams[i].wire| > s.next
  {
    FurthestIs(s.streams, s.next);
  }

  /** The message given up, if a copy of it may still be delivered. */
  function Leftover(s: State): set<Packet> {
    if s.current.Some? && CopyLeft(s) then {Packet(s.next, s.current.value)} else {}
  }

  /** What `Recv` does with one element. */
  function Receive(s: State, e: Element): State {
    match e
    case Control(_) => s
    case Data(num, body) =>
      if num == s.recvIdx + 1 then s.(recvIdx := num, got := s.got + [body])
      else if num < s.recvIdx + 1 then s
      else s.(gaps := s.gaps + 1)
  }

  function Apply(s: State, a: Action): State
    requires s.streams != []
    ensures Apply(s, a).streams != []
  {
    match a
    case Submit(c) =>
      if s.current.None? && s.app.Idle? && s.next < INT_MAX then s.(current := Some(c)) else s
    case GiveUp =>
      if s.app.Idle? then s.(current := None, left := s.left + Leftover(s)) else s
    case Start =>
      if s.ack.NotStarted? then s.(ack := Reading) else s
    case WriteOk =>
      if s.app.Idle? && s.current.Some? && !s.ack.NotStarted? && Live(s).writable then
        var p := Packet(s.next, s.current.value);
        Written(s, p, true).(next := s.next + 1, app := Enqueuing(p),
                             accepted := s.accepted + [p.body], current := None)
      else s
    case WriteFail =>
      if s.app.Idle? && s.current.Some? && !s.ack.NotStarted? && Live(s).writable then
        Written(s, Packet(s.next, s.current.value), false)
      else s
    case Enqueue =>
      if s.app.Enqueuing? then s.(queue := s.queue + [s.app.packet], app := Idle) else s
    case AckRead =>
      if s.ack.Reading? && Live(s).read < Live(s).acked <= |Live(s).wire| then
        WithLive(s, Live(s).(read := Live(s).read + 1)).(ack := Holding(Live(s).wire[Live(s).read].num))
      else s
    case AckPop =>
      // blocked while the queue is empty (m_cv) and while a resend holds m_mtx
      if s.ack.Holding? && s.queue != [] && !s.app.Resending? then
        s.(queue := s.queue[1..], ack := Reading)
      else s
    case AckEnd =>
      if s.ack.Reading? then s.(ack := Finished) else s
    case Handover =>
      if s.app.Idle? && s.ack.Finished? && Acked(s) >= 0 then
        s.(streams := s.streams + [FreshStream.(base := Acked(s))], ack := Reading, app := Resending(0))
      else s
    case ResendOk =>
      if s.app.Resending? && s.app.pos < |s.queue| && Live(s).writable then
        Written(s, s.queue[s.app.pos], true).(app := Resending(s.app.pos + 1))
      else s
    case ResendFail =>
      if s.app.Resending? && s.app.pos < |s.queue| && Live(s).writable then
        Written(s, s.queue[s.app.pos], false).(app := Idle)
      else s
    case ResendDone =>
      if s.app.Resending? && s.app.pos == |s.queue| then s.(app := Idle) else s
    case Push(i) =>
      if i < |s.streams| && s.streams[i].pushed < |s.streams[i].wire| then
        var st := s.streams[i];
        var p := st.wire[st.pushed];
        s.(streams := s.streams[i := st.(pushed := st.pushed + 1)], list := s.list + [Data(p.num, p.body)])
      else s
    case ServerAck =>
      if Live(s).acked < Min(Live(s).pushed, Live(s).Confirmed()) then
        WithLive(s, Live(s).(acked := Live(s).acked + 1))
      else s
    case PushControl(cmd) =>
      if -INT_MAX - 1 <= cmd < 0 then s.(list := s.list + [Control(cmd)]) else s
    case Pop =>
      if s.list != [] then Receive(s.(list := s.list[1..]), s.list[0]) else s
  }

  function Exec(s: State, acts: seq<Action>): (t: State)
    requires s.streams != []
    ensures t.streams != []
    decreases |acts|
  {
    if acts == [] then s else Exec(Apply(s, acts[0]), acts[1..])
  }

  lemma {:induction false} ExecAppend(s: State, xs: seq<Action>, ys: seq<Action>)
    requires s.streams != []
    ensures Exec(s, xs + ys) == Exec(Exec(s, xs), ys)
    decreases |xs|
  {
    if xs == [] {
      assert xs + ys == ys;
    } else {
      assert (xs + ys)[0] == xs[0] && (xs + ys)[1..] == xs[1..] + ys;
      ExecAppend(Apply(s, xs[0]), xs[1..], ys);
    }
  }

  /** Some run leads from `s` to `t`. */
  ghost predicate Leads(s: State, t: State) {
    s.streams != [] && exists acts :: Exec(s, acts) == t
  }

  lemma LeadsBy(s: State, acts: seq<Action>)
    requires s.streams != []
    ensures Leads(s, Exec(s, acts))
  {
  }

  lemma LeadsStep(s: State, a: Action)
    requires s.streams != []
    ensures Leads(s, Apply(s, a))
  {
    assert Exec(s, [a]) == Exec(Apply(s, a), []);
  }

  lemma LeadsTrans(s: State, t: State, u: State)
    requires Leads(s, t) && Leads(t, u)
    ensures Leads(s, u)
  {
    var xs :| Exec(s, xs) == t;
    var ys :| Exec(t, ys) == u;
    ExecAppend(s, xs, ys);
  }
}
