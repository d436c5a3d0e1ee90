/**
 Two parties that make any calls of `send` and `recv` over their two rings, in spin mode or
 with the mutex and condition variable of each ring; and the complementary calls of a common
 script.  A ring operation is one
 step here, as the spin ring refines a queue and the mutex makes it one; taking and
 releasing the mutex, sleeping and signalling are steps of their own.
 */
module Mirror {
  import opened Bytes
  import opened Framing

  datatype Who = A | B

  function Other(w: Who): Who {
    if w.A? then B else A
  }

  /** One message of the common script. */
  datatype Message = Message(from: Who, body: Payload)

  /** One call of a party; a receiver does not know what it will get. */
  datatype Op = SendOp(body: Payload) | RecvOp

  /** The calls party `w` makes. */
  function Program(w: Who, script: seq<Message>): seq<Op> {
    if script == [] then []
    else [if script[0].from == w then SendOp(script[0].body) else RecvOp] + Program(w, script[1..])
  }

  /** Inside a call, after the header: body bytes still to write, or still to read. */
  datatype Phase = Begin | Sending(left: Payload) | Receiving(missing: nat, acc: Payload)

  /** `Locked` holds the mutex of the ring it is about to use; a ring is named after its writer. */
  datatype Pc = Ready | Locked | Asleep | Unlocking(ring: Who) | Signalling(ring: Who)

  datatype Party = Party(todo: seq<Op>, phase: Phase, pc: Pc,
                         sent: seq<Payload>, got: seq<Payload>,
                         done: nat)    // ring operations performed so far, history

  datatype Sys = Sys(script: seq<Message>,        // the common script, if any; no step looks at it
                     size: nat, cv: bool, a: Party, b: Party,
                     ra: Payload, rb: Payload)    // the ring A writes, the ring B writes

  datatype Action = Run(w: Who) | SpuriousWake(w: Who)

  function Start(ops: seq<Op>): Party {
    Party(ops, Begin, Ready, [], [], 0)
  }

  /** Two parties with any two sequences of calls before them. */
  function Pair(opsA: seq<Op>, opsB: seq<Op>, size: nat, cv: bool): Sys {
    Sys([], size, cv, Start(opsA), Start(opsB), [], [])
  }

  /** Two parties with the complementary calls of one script before them. */
  function Init(script: seq<Message>, size: nat, cv: bool): Sys {
    Pair(Program(A, script), Program(B, script), size, cv).(script := script)
  }

  function Get(s: Sys, w: Who): Party {
    if w.A? then s.a else s.b
  }

  function Set(s: Sys, w: Who, p: Party): Sys {
    if w.A? then s.(a := p) else s.(b := p)
  }

  function Ring(s: Sys, w: Who): Payload {
    if w.A? then s.ra else s.rb
  }

  function SetRing(s: Sys, w: Who, r: Payload): Sys {
    if w.A? then s.(ra := r) else s.(rb := r)
  }

  // ----- what a party wants next, from its own state only -----

  datatype Request = Put(data: Payload) | Take(n: nat) | Nothing

  function Want(p: Party, size: nat): Request {
    if p.todo == [] then Nothing
    else
      match p.phase
      case Sending(left) => Put(left[..Min(|left|, size)])
      case Receiving(missing, _) => Take(Min(missing, size))
      case Begin => if p.todo[0].SendOp? then Put(LE32(Wrap(|p.todo[0].body|))) else Take(4)
  }

  function RingOf(w: Who, r: Request): Who {
    if r.Put? then w else Other(w)
  }

  /** `can_put` or `can_get`. */
  predicate Guard(s: Sys, w: Who) {
    match Want(Get(s, w), s.size)
    case Put(data) => |Ring(s, w)| + |data| <= s.size
    case Take(n) => n <= |Ring(s, Other(w))|
    case Nothing => false
  }

  function SendDone(p: Party): Party
    requires p.todo != [] && p.todo[0].SendOp?
  {
    p.(todo := p.todo[1..], phase := Begin, sent := p.sent + [p.todo[0].body])
  }

  function RecvDone(p: Party, body: Payload): Party
    requires p.todo != []
  {
    p.(todo := p.todo[1..], phase := Begin, got := p.got + [body])
  }

  /** The call goes on after `data` was written or read. */
  function Advance(p: Party, data: Payload): Party {
    var q := p.(done := p.done + 1);
    if p.todo == [] then p
    else if p.todo[0].SendOp? then
      var left := if p.phase.Sending? then p.phase.left[Min(|data|, |p.phase.left|)..] else p.todo[0].body;
      if left == [] then SendDone(q) else q.(phase := Sending(left))
    else
      var missing := if p.phase.Receiving? then p.phase.missing - |data| else if |data| >= 4 then FromLE32(data) else 0;
      var acc := if p.phase.Receiving? then p.phase.acc + data else [];
      if missing <= 0 then RecvDone(q, acc) else q.(phase := Receiving(missing, acc))
  }

  /** `put` or `get` with its guard true. */
  function Perform(s: Sys, w: Who, pc: Pc): Sys {
    match Want(Get(s, w), s.size)
    case Put(data) => Set(SetRing(s, w, Ring(s, w) + data), w, Advance(Get(s, w), data).(pc := pc))
    case Take(n) =>
      var r := Ring(s, Other(w));
      var n' := Min(n, |r|);
      Set(SetRing(s, Other(w), r[n'..]), w, Advance(Get(s, w), r[..n']).(pc := pc))
    case Nothing => s
  }

  /** Party `w` has the mutex of `ring`. */
  predicate HasMutex(s: Sys, w: Who, ring: Who) {
    match Get(s, w).pc
    case Locked => ring == RingOf(w, Want(Get(s, w), s.size))
    case Unlocking(r) => ring == r
    case _ => false
  }

  function WithPc(s: Sys, w: Who, pc: Pc): Sys {
    Set(s, w, Get(s, w).(pc := pc))
  }

  function Apply(s: Sys, act: Action): Sys {
    match act
    case SpuriousWake(w) => if Get(s, w).pc.Asleep? then WithPc(s, w, Ready) else s
    case Run(w) =>
      var p, o := Get(s, w), Other(w);
      var want := Want(p, s.size);
      match p.pc
      case Ready =>
        if want.Nothing? then s
        else if !s.cv then (if Guard(s, w) then Perform(s, w, Ready) else s)
        else if HasMutex(s, o, RingOf(w, want)) then s
        else WithPc(s, w, Locked)
      case Locked =>
        if Guard(s, w) then Perform(s, w, Unlocking(RingOf(w, want))) else WithPc(s, w, Asleep)
      case Asleep => s
      case Unlocking(r) => WithPc(s, w, Signalling(r))
      case Signalling(r) =>
        var t := WithPc(s, w, Ready);
        if Get(s, o).pc.Asleep? && RingOf(o, Want(Get(s, o), s.size)) == r then WithPc(t, o, Ready) else t
  }

  function Exec(s: Sys, acts: seq<Action>): Sys
    decreases |acts|
  {
    if acts == [] then s else Exec(Apply(s, acts[0]), acts[1..])
  }

  // ----- the plan: every ring operation both sides will perform, in order -----

  datatype Piece = Piece(from: Who, data: Payload)

  function Tag(w: Who, ps: seq<Payload>): seq<Piece> {
    if ps == [] then [] else [Piece(w, ps[0])] + Tag(w, ps[1..])
  }

  function Plan(script: seq<Message>, size: nat): seq<Piece>
    requires size > 0
  {
    if script == [] then []
    else
      var m := script[0];
      [Piece(m.from, LE32(Wrap(|m.body|)))] + Tag(m.from, Pieces(m.body, size)) + Plan(script[1..], size)
  }

  /** Messages party `w` gets out of `script`, and those it sends. */
  function BodiesFrom(w: Who, script: seq<Message>): seq<Payload> {
    if script == [] then []
    else (if script[0].from == w then [script[0].body] else []) + BodiesFrom(w, script[1..])
  }

  ghost predicate ScriptOk(script: seq<Message>) {
    forall m :: m in script ==> |m.body| <= MAX_MESSAGE
  }

  /** What a party, at message `script[0]` of what remains, still has to do. */
  function Rest(phase: Phase, script: seq<Message>, size: nat): seq<Piece>
    requires size > 0
  {
    if phase.Begin? || script == [] then Plan(script, size)
    else
      var m := script[0];
      var left := if phase.Sending? then phase.left else m.body[Min(|m.body|, |phase.acc|)..];
      Tag(m.from, Pieces(left, size)) + Plan(script[1..], size)
  }

  /** Party `w` is part-way through the remaining `script`. */
  ghost predicate Follows(p: Party, w: Who, script: seq<Message>) {
    && p.todo == Program(w, script)
    && (!p.phase.Begin? ==> script != [])
    && (p.phase.Sending? ==> script[0].from == w && p.phase.left != [])
    && (p.phase.Receiving? ==>
          && script[0].from != w && p.phase.missing > 0
          && |p.phase.acc| + p.phase.missing == |script[0].body|
          && p.phase.acc == script[0].body[..|p.phase.acc|])
  }
}
