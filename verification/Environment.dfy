/**
 What the code of one party cannot see: the two directions it takes part in.  `Outgoing` is
 the direction it sends in and `Incoming` the one it receives in; between any two of its own
 steps the server, the other party and its ack thread may take any number of steps.
 */
module Environment {
  import opened Bytes
  import opened Protocol
  import opened ProtocolInvariant
  import opened GivingUp
  import opened Codec

  // ----- what others may do -----

  /** Steps of the sending direction that are not the application thread's. */
  predicate NotTheSender(a: Action) {
    a.AckRead? || a.AckPop? || a.AckEnd? || a.Push? || a.ServerAck? || a.PushControl? || a.Pop?
  }

  /** Steps of the receiving direction that are not `Recv`'s. */
  predicate NotTheReceiver(a: Action) {
    !a.Pop?
  }

  /** The run `acts`, leaving out what this party itself would do. */
  function Others(sender: bool, s: State, acts: seq<Action>): (t: State)
    requires s.streams != []
    ensures t.streams != []
    decreases |acts|
  {
    if acts == [] then s
    else
      var a := acts[0];
      var mine := if sender then !NotTheSender(a) else !NotTheReceiver(a);
      Others(sender, if mine then s else Apply(s, a), acts[1..])
  }

  /** How many streams have been opened. */
  function Opened(s: State): nat {
    |s.streams|
  }

  /** What the sender's application thread can rely on while others run. */
  ghost predicate SenderKept(s: State, t: State) {
    && s.streams != [] && t.streams != []
    && t.next == s.next && t.accepted == s.accepted && t.current == s.current && t.app == s.app
    && Live(t).writable == Live(s).writable
    && (s.app.Resending? || s.ack.Finished? ==> t.queue == s.queue)
    && (s.ack.Finished? ==> t.ack.Finished?)
    && (s.ack.NotStarted? <==> t.ack.NotStarted?)
    && SameCopies(s, t) && Opened(t) == Opened(s)
  }

  ghost predicate ReceiverKept(s: State, t: State) {
    t.recvIdx == s.recvIdx && t.got == s.got && t.gaps == s.gaps && s.list <= t.list
  }

  /** A run in which the sender's application thread did nothing. */
  ghost predicate SenderPaused(s: State, t: State) {
    Leads(s, t) && t.accepted == s.accepted && t.current == s.current && t.app == s.app && SameCopies(s, t)
  }

  /** A run in which no message was taken up or accepted. */
  ghost predicate SenderHeld(s: State, t: State) {
    Leads(s, t) && t.accepted == s.accepted && t.current == s.current && SameCopies(s, t)
  }

  /** Everything not acknowledged is on the live stream, which accepts more. */
  ghost predicate AllWritten(s: State) {
    s.streams != [] && Live(s).writable && Live(s).base + |Live(s).wire| == s.next
  }

  /**
   What the receiving end is about: numbered elements from a v2 server, or plain messages from
   a v1 one, `taken` off the list and still `waiting` on it.
   */
  datatype Inbox = Inbox(s: State, v1: bool, taken: seq<Payload>, waiting: seq<Payload>)

  /** The messages `Recv` has returned. */
  function Got(b: Inbox): seq<Payload> {
    if b.v1 then b.taken else b.s.got
  }

  function Size(b: Inbox): nat {
    if b.v1 then |b.waiting| else |b.s.list|
  }

  /** Some run of the receiving end; plain messages are taken in the order they came. */
  ghost predicate BoxLeads(b: Inbox, c: Inbox) {
    && Leads(b.s, c.s) && c.v1 == b.v1
    && b.taken <= c.taken && b.taken + b.waiting <= c.taken + c.waiting
  }

  /** A run in which `Recv` returned nothing. */
  ghost predicate ReceiverPaused(b: Inbox, c: Inbox) {
    BoxLeads(b, c) && Got(c) == Got(b)
  }

  lemma SenderPausedTrans(s: State, t: State, u: State)
    requires SenderPaused(s, t) && SenderPaused(t, u)
    ensures SenderPaused(s, u)
  {
    LeadsTrans(s, t, u);
  }

  lemma SenderHeldTrans(s: State, t: State, u: State)
    requires SenderHeld(s, t) && SenderHeld(t, u)
    ensures SenderHeld(s, u)
  {
    LeadsTrans(s, t, u);
  }

  lemma BoxLeadsTrans(b: Inbox, c: Inbox, d: Inbox)
    requires BoxLeads(b, c) && BoxLeads(c, d)
    ensures BoxLeads(b, d)
  {
    LeadsTrans(b.s, c.s, d.s);
  }

  lemma BoxLeadsBack(b: Inbox)
    requires b.s.streams != []
    ensures BoxLeads(b, b)
  {
    LeadsBy(b.s, []);
  }

  lemma ReceiverPausedTrans(b: Inbox, c: Inbox, d: Inbox)
    requires ReceiverPaused(b, c) && ReceiverPaused(c, d)
    ensures ReceiverPaused(b, d)
  {
    BoxLeadsTrans(b, c, d);
  }

  lemma PausedTwice(s: State, t: State, u: State, b: Inbox, c: Inbox, d: Inbox)
    requires SenderPaused(s, t) && SenderPaused(t, u) && ReceiverPaused(b, c) && ReceiverPaused(c, d)
    ensures SenderPaused(s, u) && ReceiverPaused(b, d)
  {
    SenderPausedTrans(s, t, u);
    ReceiverPausedTrans(b, c, d);
  }

  lemma HeldTwice(s: State, t: State, u: State, b: Inbox, c: Inbox, d: Inbox)
    requires SenderHeld(s, t) && SenderHeld(t, u) && ReceiverPaused(b, c) && ReceiverPaused(c, d)
    ensures SenderHeld(s, u) && ReceiverPaused(b, d)
  {
    SenderHeldTrans(s, t, u);
    ReceiverPausedTrans(b, c, d);
  }

  lemma SenderKeptTrans(s: State, t: State, u: State)
    requires SenderKept(s, t) && SenderKept(t, u)
    ensures SenderKept(s, u)
  {
  }

  lemma OthersLeaveSender(s: State, a: Action)
    requires s.streams != [] && NotTheSender(a)
    ensures SenderKept(s, Apply(s, a))
  {
    OnlyGiveUpLeaves(s, a);
    WiresStay(s, a);
    CopiesSame(s, Apply(s, a));
  }

  lemma OthersLeaveReceiver(s: State, a: Action)
    requires s.streams != [] && NotTheReceiver(a)
    ensures ReceiverKept(s, Apply(s, a))
  {
  }

  lemma {:induction false} OthersKeep(sender: bool, s: State, acts: seq<Action>)
    requires Reached(s) && s.streams != []
    ensures var t := Others(sender, s, acts);
            Reached(t) && Leads(s, t) && if sender then SenderKept(s, t) else ReceiverKept(s, t)
    decreases |acts|
  {
    LeadsBy(s, []);
    if acts != [] {
      var a, t := acts[0], Others(sender, s, acts);
      if if sender then NotTheSender(a) else NotTheReceiver(a) {
        var u := Apply(s, a);
        ReachedStep(s, a);
        OthersKeep(sender, u, acts[1..]);
        LeadsTrans(s, u, t);
        if sender {
          OthersLeaveSender(s, a);
          SenderKeptTrans(s, u, t);
        } else {
          OthersLeaveReceiver(s, a);
        }
      } else {
        OthersKeep(sender, s, acts[1..]);
      }
    }
  }

  // ----- the sending direction -----

  /** What the code relies on about the state of its own stream. */
  lemma StreamFacts(s: State)
    requires Reached(s)
    ensures s.streams != [] && Acked(s) >= 0 && s.next == |s.accepted|
    ensures s.app.Resending? ==> Live(s).writable
    ensures s.ack.NotStarted? ==> s.queue == []
    ensures s.current.Some? ==> s.next < INT_MAX
    ensures Live(s).acked <= |Live(s).wire|
  {
    ReachedInv(s);
    assert StreamOk(Live(s), s, PushedUpTo(s));
  }

  /** A resend that got through the queue has put all of it on the new stream. */
  lemma ResentAll(s: State)
    requires Reached(s) && s.app.Resending? && s.app.pos == |s.queue|
    ensures s.streams != [] && AllWritten(Apply(s, ResendDone))
  {
    ReachedInv(s);
  }

  /** What writing one packet again changes. */
  lemma ResendEffect(s: State, ok: bool)
    requires s.streams != [] && s.app.Resending? && s.app.pos < |s.queue| && Live(s).writable
    ensures var t := Apply(s, if ok then ResendOk else ResendFail);
            && t.queue == s.queue && t.ack == s.ack && t.next == s.next && Opened(t) == Opened(s)
            && t.accepted == s.accepted && t.current == s.current
            && t.app == (if ok then Resending(s.app.pos + 1) else Idle)
            && (!ok ==> !Accepting(t))
  {
  }

  /** A `Write` and its answer. */
  datatype Attempted = Attempted(packet: Packet, ok: bool)

  class Outgoing {
    var s: State
    var ready: bool              // the connectivity state, as `GetState` would report it
    var writes: seq<Attempted>   // every `Write` so far, on any stream
    var lastRead: Option<int>    // what the last `Read` of an ack thread answered
    // how often this party found that it could not go on without a new stream
    var failedSends: nat
    var askedResends: nat
    var brokenFlushes: nat

    constructor ()
      ensures s == Init && writes == [] && failedSends == askedResends == brokenFlushes == 0
    {
      ReachedInit();
      s, ready, writes, lastRead := Init, true, [], None;
      failedSends, askedResends, brokenFlushes := 0, 0, 0;
    }

    method SendFailed()
      requires s.ack.Finished? || !Accepting(s)
      modifies `failedSends
      ensures failedSends == old(failedSends) + 1
    {
      failedSends := failedSends + 1;
    }

    method ResendAsked()
      requires s.ack.Finished? && s.queue != []
      modifies `askedResends
      ensures askedResends == old(askedResends) + 1
    {
      askedResends := askedResends + 1;
    }

    method FlushBroken()
      requires s.queue != [] && (s.ack.Finished? || !ready)
      modifies `brokenFlushes
      ensures brokenFlushes == old(brokenFlushes) + 1
    {
      brokenFlushes := brokenFlushes + 1;
    }

    /** Others run. */
    method Drift()
      requires Reached(s)
      modifies `s, `ready
      ensures Reached(s) && Leads(old(s), s) && SenderKept(old(s), s)
    {
      var acts: seq<Action> := *;
      OthersKeep(true, s, acts);
      s := Others(true, s, acts);
      ready := *;
    }

    /** One step of the party itself. */
    method Do(a: Action)
      requires Reached(s)
      modifies `s
      ensures s == Apply(old(s), a) && Reached(s) && Leads(old(s), s)
      ensures !a.WriteOk? && !a.WriteFail? && !a.GiveUp? ==> SameCopies(old(s), s)
    {
      ReachedStep(s, a);
      ReachedInv(s);
      OnlyGiveUpLeaves(s, a);
      if !a.WriteOk? && !a.WriteFail? {
        OthersLeaveCopies(s, a);
      }
      s := Apply(s, a);
    }

    /** Whether a `Write` returns true: never again once one has returned false. */
    method Outcome() returns (ok: bool)
      requires Reached(s)
      ensures ok ==> Live(s).writable
    {
      ok := *;
      ok := ok && Live(s).writable;
    }

    /** `Write` inside `Send`: it must be given the packet the protocol writes at this point. */
    method Write(p: Packet) returns (ok: bool)
      requires Reached(s) && s.app.Idle? && s.current.Some? && !s.ack.NotStarted?
      requires p == Packet(s.next, s.current.value)
      modifies `s, `writes
      ensures Reached(s) && Leads(old(s), s) && Opened(s) == Opened(old(s))
      ensures writes == old(writes) + [Attempted(p, ok)]
      ensures s.queue == old(s).queue && s.ack == old(s).ack
      ensures ok ==> s.next == old(s).next + 1 && s.app == Enqueuing(p) && s.current == None
                     && s.accepted == old(s).accepted + [p.body]
      ensures !ok ==> s.next == old(s).next && s.app == Idle && s.current == old(s).current
                      && s.accepted == old(s).accepted && !Accepting(s)
      ensures !ok ==> (CopyLeft(s) <==> CopyLeft(old(s)) || Accepting(old(s)))
      ensures s.left == old(s).left
    {
      ReachedInv(s);
      FailureLeavesCopy(s);
      ok := Outcome();
      Do(if ok then WriteOk else WriteFail);
      writes := writes + [Attempted(p, ok)];
    }

    /** `Write` inside `set_continue_status`. */
    method Rewrite(p: Packet) returns (ok: bool)
      requires Reached(s) && s.app.Resending? && s.app.pos < |s.queue| && p == s.queue[s.app.pos]
      modifies `s, `writes
      ensures Reached(s) && Opened(s) == Opened(old(s))
      ensures writes == old(writes) + [Attempted(p, ok)]
      ensures s.queue == old(s).queue && s.ack == old(s).ack && s.next == old(s).next
      ensures SenderHeld(old(s), s)
      ensures s.app == if ok then Resending(old(s).app.pos + 1) else Idle
      ensures !ok ==> !Accepting(s)
    {
      StreamFacts(s);
      ok := Outcome();
      ResendEffect(s, ok);
      Do(if ok then ResendOk else ResendFail);
      writes := writes + [Attempted(p, ok)];
    }

    /** `Read` of the ack thread: an ack the server has sent, or the end of the stream. */
    method Read() returns (ack: Option<int>)
      requires Reached(s) && s.ack.Reading?
      modifies `s, `lastRead
      ensures Reached(s) && Leads(old(s), s) && ack == lastRead
      ensures s == Apply(old(s), if ack.Some? then AckRead else AckEnd)
      ensures if ack.Some? then s.ack == Holding(ack.value) else s.ack.Finished?
    {
      var more: bool := *;
      StreamFacts(s);
      if more && Live(s).read < Live(s).acked {
        Do(AckRead);
        ack := Some(s.ack.ack);
      } else {
        Do(AckEnd);
        ack := None;
      }
      lastRead := ack;
    }
  }

  /** The steady clock; a sleep lasts at least as long as asked. */
  class Clock {
    var now: int
    var slept: seq<int>   // every sleep so far

    constructor ()
      ensures slept == []
    {
      now, slept := 0, [];
    }

    method Read() returns (t: int)
      modifies `now
      ensures t == now >= old(now)
    {
      var later: int := *;
      now := Max(now, later);
      t := now;
    }

    method Sleep(ms: int)
      modifies this
      ensures now >= old(now) + ms && slept == old(slept) + [ms]
    {
      var later: int := *;
      now := Max(now + ms, later);
      slept := slept + [ms];
    }
  }

  // ----- the receiving direction -----

  /** The next element can be written as an `int32` and a body, and leaves no gap. */
  lemma HeadFits(s: State)
    requires Reached(s) && s.list != []
    ensures Fits(s.list[0]) && (s.list[0].Data? ==> s.list[0].num <= s.recvIdx + 1)
  {
    ReachedInv(s);
    FrontierGrows(Bump(s.recvIdx + 1, s.list[0]), s.list[1..]);
    if s.list[0].Data? {
      assert Stands(Packet(s.list[0].num, s.list[0].body), Log(s), s.left);
    }
  }

  /** The answer of one `brpop`. */
  datatype Poll = Popped(raw: Payload) | Nothing | Error

  /** The same with what was on the list; `last` is the number of the message before. */
  datatype Answer = Listed(element: Element, last: int) | Plain(body: Payload) | Silence | Failure

  /** An answer that only uses up an attempt of `Recv`: nothing, an exception, or a command. */
  predicate Wasted(a: Answer) {
    a.Silence? || a.Failure? || (a.Listed? && a.element.Control?)
  }

  /** An answer after which `Recv` goes on: a wasted one, or a message it has had before. */
  predicate Passed(a: Answer) {
    Wasted(a) || (a.Listed? && a.element.Data? && a.element.num <= a.last)
  }

  /** The message an answer brings. */
  function Brought(a: Answer): Option<Payload> {
    match a
    case Plain(body) => Some(body)
    case Listed(Data(num, body), last) => if num == last + 1 then Some(body) else None
    case _ => None
  }

  /** How many wasted answers there were in a row at the end. */
  function InVain(answers: seq<Answer>): nat {
    if answers == [] || !Wasted(answers[|answers| - 1]) then 0 else 1 + InVain(answers[..|answers| - 1])
  }

  class Incoming {
    var box: Inbox
    var answers: seq<Answer>  // every answer of `brpop` so far
    var untouched: bool      // no element has been popped yet: in a v2 list it carries the magic
    var coming: nat          // how many elements will still join the list, any finite number

    /** A v1 list does not begin with the magic: `PlainListRoundTripIff` shows what it would do. */
    ghost predicate Ok()
      reads this
    {
      && Reached(box.s)
      && (box.v1 && untouched && box.waiting != [] ==> !(MAGIC <= box.waiting[0]))
    }

    constructor (v1: bool, coming: nat)
      ensures Ok() && box == Inbox(Init, v1, [], []) && untouched && this.coming == coming
    {
      ReachedInit();
      box := Inbox(Init, v1, [], []);
      answers := [];
      untouched := true;
      this.coming := coming;
    }

    /** Others run; the elements they push come off `coming`. */
    method Drift()
      requires Ok()
      modifies `box, `coming
      ensures Ok() && ReceiverPaused(old(box), box) && box.s.recvIdx == old(box.s.recvIdx)
      ensures coming + Size(box) == old(coming) + Size(old(box))
    {
      if box.v1 {
        DriftPlain();
      } else {
        DriftNumbered();
      }
    }

    method DriftNumbered()
      requires Ok() && !box.v1
      modifies this`box, this`coming
      ensures Ok() && ReceiverPaused(old(box), box) && box.s.recvIdx == old(box.s.recvIdx)
      ensures coming + Size(box) == old(coming) + Size(old(box))
    {
      var acts: seq<Action> := *;
      LeadsBy(box.s, []);
      OthersKeep(false, box.s, acts);
      var t := Others(false, box.s, acts);
      if |t.list| - |box.s.list| <= coming {
        coming := coming - (|t.list| - |box.s.list|);
        box := box.(s := t);
      }
    }

    method DriftPlain()
      requires Ok() && box.v1
      modifies this`box, this`coming
      ensures Ok() && ReceiverPaused(old(box), box) && box.s.recvIdx == old(box.s.recvIdx)
      ensures coming + Size(box) == old(coming) + Size(old(box))
    {
      var more: seq<Payload> := *;
      LeadsBy(box.s, []);
      var first := untouched && box.waiting == [] && more != [];
      if |more| <= coming && !(first && MAGIC <= more[0]) {
        coming := coming - |more|;
        box := box.(waiting := box.waiting + more);
      }
    }

    /** `brpop`: an answer that is not an element has taken nothing off the list. */
    method Brpop() returns (poll: Poll)
      requires Ok()
      modifies `box, `untouched, `answers
      ensures Ok() && box.v1 == old(box.v1)
      ensures poll.Popped? ==> !untouched && (if box.v1 then PoppedPlain(old(box), box, old(untouched), poll.raw)
                                              else PoppedNumbered(old(box), box, old(untouched), poll.raw))
      ensures !poll.Popped? ==> box == old(box) && untouched == old(untouched)
      ensures answers == old(answers) + [AnswerOf(old(box), poll)]
    {
      var answered: bool, failed: bool := *, *;
      ghost var before := box;
      if !answered || Size(box) == 0 {
        poll := if failed then Error else Nothing;
        answers := answers + [if failed then Failure else Silence];
      } else if box.v1 {
        poll := Popped(box.waiting[0]);
        answers := answers + [Plain(box.waiting[0])];
        box := box.(taken := box.taken + [box.waiting[0]], waiting := box.waiting[1..]);
        untouched := false;
      } else {
        poll := Popped((if untouched then MAGIC else []) + Encode(box.s.list[0]));
        answers := answers + [Listed(box.s.list[0], box.s.recvIdx)];
        HeadFits(box.s);
        ReachedStep(box.s, Pop);
        box := box.(s := Apply(box.s, Pop));
        untouched := false;
      }
    }
  }

  /** The answer as the list had it. */
  function AnswerOf(before: Inbox, poll: Poll): Answer {
    match poll
    case Popped(raw) =>
      if before.v1 then Plain(raw)
      else if before.s.list != [] then Listed(before.s.list[0], before.s.recvIdx) else Silence
    case Nothing => Silence
    case Error => Failure
  }

  /** The oldest plain message has been popped. */
  ghost predicate PoppedPlain(b: Inbox, c: Inbox, untouched: bool, raw: Payload) {
    && b.waiting != [] && raw == b.waiting[0]
    && c == b.(taken := b.taken + [raw], waiting := b.waiting[1..])
    && (untouched ==> !(MAGIC <= raw))
  }

  /** The oldest numbered element has been popped. */
  ghost predicate PoppedNumbered(b: Inbox, c: Inbox, untouched: bool, raw: Payload) {
    && b.s.streams != [] && b.s.list != [] && c == b.(s := Apply(b.s, Pop))
    && raw == (if untouched then MAGIC else []) + Encode(b.s.list[0])
    && Fits(b.s.list[0]) && (b.s.list[0].Data? ==> b.s.list[0].num <= b.s.recvIdx + 1)
  }

  /** Taking the oldest message off the list keeps the order of the others. */
  lemma PlainTaken(b: Inbox, c: Inbox, untouched: bool, raw: Payload)
    requires b.v1 && b.s.streams != [] && PoppedPlain(b, c, untouched, raw)
    ensures BoxLeads(b, c) && Got(c) == Got(b) + [raw] && Size(c) < Size(b)
  {
    LeadsBy(b.s, []);
    assert c.taken + c.waiting == b.taken + ([raw] + b.waiting[1..]);
    assert [raw] + b.waiting[1..] == b.waiting;
  }
}
