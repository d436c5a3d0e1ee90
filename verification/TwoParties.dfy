/**
 Over every run of two parties, whatever calls they make: no wake-up is lost, what has been sent
 is what has been received and what is on the ring, and messages arrive in order.
 */
module TwoParties {
  import opened Bytes
  import opened Framing
  import opened Mirror

  // ----- locks and sleepers -----

  /** Party `w` has used `ring` and has still to unlock it or to signal. */
  predicate Owes(s: Sys, w: Who, ring: Who) {
    Get(s, w).pc == Unlocking(ring) || Get(s, w).pc == Signalling(ring)
  }

  /** A party asleep has a false guard, or the other one still owes it a signal. */
  ghost predicate SleepOk(s: Sys, w: Who) {
    && (!s.cv ==> Get(s, w).pc.Ready?)
    && (Get(s, w).pc.Locked? || Get(s, w).pc.Asleep? ==> !Want(Get(s, w), s.size).Nothing?)
    && (Get(s, w).pc.Asleep? ==>
          !Guard(s, w) || Owes(s, Other(w), RingOf(w, Want(Get(s, w), s.size))))
  }

  /** No sleeper is forgotten and no ring's mutex is held twice, as seen from party `w`. */
  ghost predicate LocksFrom(s: Sys, w: Who) {
    && SleepOk(s, w) && SleepOk(s, Other(w))
    && (forall ring :: !(HasMutex(s, w, ring) && HasMutex(s, Other(w), ring)))
  }

  lemma LocksSeenFrom(s: Sys, w: Who)
    ensures LocksFrom(s, A) <==> LocksFrom(s, w)
  {
  }

  // ----- the locks -----

  /** Lock steps of `w` move nothing but its program counter. */
  lemma PcFrame(s: Sys, w: Who, pc: Pc)
    ensures var t := WithPc(s, w, pc);
            && Get(t, Other(w)) == Get(s, Other(w)) && Get(t, w) == Get(s, w).(pc := pc)
            && Want(Get(t, w), t.size) == Want(Get(s, w), s.size)
            && Guard(t, w) == Guard(s, w) && Guard(t, Other(w)) == Guard(s, Other(w))
            && t.size == s.size && t.cv == s.cv && t.script == s.script
  {
  }

  /** Only the ring a party works on is changed by its operation. */
  lemma PerformFrame(s: Sys, w: Who, pc: Pc)
    requires Guard(s, w)
    ensures var t := Perform(s, w, pc);
            && Get(t, w).pc == pc && Get(t, Other(w)) == Get(s, Other(w))
            && t.size == s.size && t.cv == s.cv && t.script == s.script
    ensures var t, o := Perform(s, w, pc), Other(w);
            RingOf(o, Want(Get(s, o), s.size)) != RingOf(w, Want(Get(s, w), s.size)) ==> Guard(t, o) == Guard(s, o)
  {
  }

  /** Using a ring with its mutex held: whoever sleeps on that ring is now owed a signal. */
  lemma UseRingLocks(s: Sys, w: Who)
    requires LocksFrom(s, w) && Get(s, w).pc.Locked? && Guard(s, w)
    ensures LocksFrom(Apply(s, Run(w)), w)
  {
    var o, ring := Other(w), RingOf(w, Want(Get(s, w), s.size));
    var t := Perform(s, w, Unlocking(ring));
    PerformFrame(s, w, Unlocking(ring));
    assert SleepOk(t, o);
    forall r ensures !(HasMutex(t, w, r) && HasMutex(t, o, r)) {
      assert HasMutex(t, w, r) == HasMutex(s, w, r) && HasMutex(t, o, r) == HasMutex(s, o, r);
    }
  }

  lemma FallAsleepLocks(s: Sys, w: Who)
    requires LocksFrom(s, w) && Get(s, w).pc.Locked? && !Guard(s, w)
    ensures LocksFrom(WithPc(s, w, Asleep), w)
  {
    PcFrame(s, w, Asleep);
    assert SleepOk(WithPc(s, w, Asleep), Other(w));
  }

  lemma TakeMutexLocks(s: Sys, w: Who)
    requires LocksFrom(s, w) && Get(s, w).pc.Ready? && s.cv
    requires !Want(Get(s, w), s.size).Nothing?
    requires !HasMutex(s, Other(w), RingOf(w, Want(Get(s, w), s.size)))
    ensures LocksFrom(WithPc(s, w, Locked), w)
  {
    var o, t := Other(w), WithPc(s, w, Locked);
    PcFrame(s, w, Locked);
    assert SleepOk(t, w) && SleepOk(t, o);
    forall r ensures !(HasMutex(t, w, r) && HasMutex(t, o, r)) {
      assert HasMutex(t, o, r) == HasMutex(s, o, r);
    }
  }

  lemma UnlockLocks(s: Sys, w: Who)
    requires LocksFrom(s, w) && Get(s, w).pc.Unlocking?
    ensures LocksFrom(WithPc(s, w, Signalling(Get(s, w).pc.ring)), w)
  {
    var t := WithPc(s, w, Signalling(Get(s, w).pc.ring));
    PcFrame(s, w, Signalling(Get(s, w).pc.ring));
    assert SleepOk(t, w) && SleepOk(t, Other(w));
    forall r ensures !(HasMutex(t, w, r) && HasMutex(t, Other(w), r)) {
      assert !HasMutex(t, w, r);
    }
  }

  /** A wake-up, by signal or spurious: the sleeper will take the mutex and look again. */
  lemma WakeLocks(s: Sys, w: Who)
    requires LocksFrom(s, w) && Get(s, w).pc.Asleep?
    ensures LocksFrom(WithPc(s, w, Ready), w)
  {
    var t := WithPc(s, w, Ready);
    PcFrame(s, w, Ready);
    assert SleepOk(t, w) && SleepOk(t, Other(w));
  }

  lemma SignalLocks(s: Sys, w: Who)
    requires LocksFrom(s, w) && Get(s, w).pc.Signalling?
    ensures LocksFrom(Apply(s, Run(w)), w)
  {
    var o, t, u := Other(w), Apply(s, Run(w)), WithPc(s, w, Ready);
    PcFrame(s, w, Ready);
    if t != u {
      PcFrame(u, o, Ready);
      assert Get(t, w).pc.Ready? && Get(t, o).pc.Ready?;
    } else {
      assert SleepOk(t, o);
    }
  }

  /** Every step of either party, and every spurious wake-up, keeps the locks in order. */
  lemma StepKeepsLocks(s: Sys, act: Action)
    requires LocksFrom(s, act.w)
    ensures LocksFrom(Apply(s, act), act.w)
  {
    var w := act.w;
    if act.SpuriousWake? {
      if Get(s, w).pc.Asleep? {
        WakeLocks(s, w);
      }
    } else {
      match Get(s, w).pc
      case Ready =>
        if s.cv {
          if Apply(s, act) != s {
            TakeMutexLocks(s, w);
          }
        } else if Guard(s, w) {
          PerformFrame(s, w, Ready);
        }
      case Locked =>
        if Guard(s, w) {
          UseRingLocks(s, w);
        } else {
          FallAsleepLocks(s, w);
        }
      case Asleep =>
      case Unlocking(_) => UnlockLocks(s, w);
      case Signalling(_) => SignalLocks(s, w);
    }
  }

  // ----- what a step changes -----

  /** A step is a ring operation, or moves one program counter, or wakes the other party as well. */
  lemma StepShape(s: Sys, act: Action) returns (pc: Pc)
    ensures var t, w := Apply(s, act), act.w;
            || t == s
            || t == WithPc(s, w, pc)
            || t == WithPc(WithPc(s, w, Ready), Other(w), Ready)
            || (Guard(s, w) && t == Perform(s, w, pc))
  {
    var p := Get(s, act.w);
    pc := if act.SpuriousWake? then Ready
          else
            match p.pc
            case Ready => if s.cv then Locked else Ready
            case Locked => if Guard(s, act.w) then Unlocking(RingOf(act.w, Want(p, s.size))) else Asleep
            case Asleep => Asleep
            case Unlocking(r) => Signalling(r)
            case Signalling(_) => Ready;
  }

  lemma WriteEffect(s: Sys, w: Who, pc: Pc, data: Payload)
    requires Want(Get(s, w), s.size) == Put(data)
    ensures var t := Perform(s, w, pc);
            && Get(t, w) == Advance(Get(s, w), data).(pc := pc) && Get(t, Other(w)) == Get(s, Other(w))
            && Ring(t, w) == Ring(s, w) + data && Ring(t, Other(w)) == Ring(s, Other(w))
            && t.script == s.script && t.size == s.size && t.cv == s.cv
  {
  }

  lemma TakeEffect(s: Sys, w: Who, pc: Pc, n: nat)
    requires Want(Get(s, w), s.size) == Take(n) && n <= |Ring(s, Other(w))|
    ensures var t, o := Perform(s, w, pc), Other(w);
            && Get(t, w) == Advance(Get(s, w), Ring(s, o)[..n]).(pc := pc) && Get(t, o) == Get(s, o)
            && Ring(t, o) == Ring(s, o)[n..] && Ring(t, w) == Ring(s, w)
            && t.script == s.script && t.size == s.size && t.cv == s.cv
  {
  }

  lemma {:induction false} ConstantsKept(s: Sys, acts: seq<Action>)
    ensures var t := Exec(s, acts); t.script == s.script && t.size == s.size && t.cv == s.cv
    decreases |acts|
  {
    if acts != [] {
      ConstantsKept(Apply(s, acts[0]), acts[1..]);
    }
  }

  // ----- wake-ups -----

  lemma PairLocks(opsA: seq<Op>, opsB: seq<Op>, size: nat, cv: bool)
    ensures LocksFrom(Pair(opsA, opsB, size, cv), A)
  {
  }

  lemma {:induction false} RunKeepsLocks(s: Sys, acts: seq<Action>)
    requires LocksFrom(s, A)
    ensures LocksFrom(Exec(s, acts), A)
    decreases |acts|
  {
    if acts != [] {
      LocksSeenFrom(s, acts[0].w);
      StepKeepsLocks(s, acts[0]);
      LocksSeenFrom(Apply(s, acts[0]), acts[0].w);
      RunKeepsLocks(Apply(s, acts[0]), acts[1..]);
    }
  }

  /**
   No lost wake-up, for any calls the two parties make.  In every reachable state a party asleep
   has nothing to wake up for, or the other party is between its unlock and its signal on that
   very ring; so if both are asleep neither could go on, and nobody has a mutex another one has.
   */
  lemma NoLostWakeup(opsA: seq<Op>, opsB: seq<Op>, size: nat, cv: bool, acts: seq<Action>, w: Who)
    ensures var s := Exec(Pair(opsA, opsB, size, cv), acts);
            && (Get(s, w).pc.Asleep? && Guard(s, w) ==> Owes(s, Other(w), RingOf(w, Want(Get(s, w), s.size))))
            && (s.a.pc.Asleep? && s.b.pc.Asleep? ==> !Guard(s, w))
            && (forall ring :: !(HasMutex(s, A, ring) && HasMutex(s, B, ring)))
  {
    PairLocks(opsA, opsB, size, cv);
    RunKeepsLocks(Pair(opsA, opsB, size, cv), acts);
  }

  // ----- what has been sent and received -----

  /** A party is inside the call it says it is in, and every length fits its header. */
  ghost predicate Sound(p: Party) {
    && (forall m :: m in p.sent ==> |m| < U32)
    && (forall m :: m in p.got ==> |m| < U32)
    && (forall op :: op in p.todo && op.SendOp? ==> |op.body| < U32)
    && (p.phase.Sending? ==>
          && p.todo != [] && p.todo[0].SendOp? && 0 < |p.phase.left| <= |p.todo[0].body|
          && p.phase.left == p.todo[0].body[|p.todo[0].body| - |p.phase.left|..])
    && (p.phase.Receiving? ==>
          p.todo != [] && p.todo[0].RecvOp? && p.phase.missing > 0 && |p.phase.acc| + p.phase.missing < U32)
  }

  /** The part of a send in progress that is on the ring or beyond. */
  function SendBegun(p: Party): Payload {
    if p.phase.Sending? && p.todo != [] && p.todo[0].SendOp? && |p.todo[0].body| < U32 then
      var frame := Frame(p.todo[0].body);
      frame[..Max(0, |frame| - |p.phase.left|)]
    else []
  }

  /** The part of a receive in progress that has been taken off the ring. */
  function RecvBegun(p: Party): Payload {
    if p.phase.Receiving? then LE32(Wrap(|p.phase.acc| + p.phase.missing)) + p.phase.acc else []
  }

  /** Every byte a party has written: the frames of completed sends, and of the one in progress. */
  function SentStream(p: Party): Payload
    requires forall m :: m in p.sent ==> |m| < U32
  {
    Frames(p.sent) + SendBegun(p)
  }

  function GotStream(p: Party): Payload
    requires forall m :: m in p.got ==> |m| < U32
  {
    Frames(p.got) + RecvBegun(p)
  }

  /** Every byte party `w` has written has been read or is on its ring, in order. */
  ghost predicate Agree(s: Sys, w: Who) {
    && Sound(Get(s, w)) && Sound(Get(s, Other(w)))
    && SentStream(Get(s, w)) == GotStream(Get(s, Other(w))) + Ring(s, w)
  }

  lemma {:induction false} FramesAppend(ms: seq<Payload>, m: Payload)
    requires |m| < U32 && forall x :: x in ms ==> |x| < U32
    ensures forall x :: x in ms + [m] ==> |x| < U32
    ensures Frames(ms + [m]) == Frames(ms) + Frame(m)
    decreases |ms|
  {
    if ms == [] {
      assert ms + [m] == [m] && [m][1..] == [];
    } else {
      assert (ms + [m])[0] == ms[0] && (ms + [m])[1..] == ms[1..] + [m];
      FramesAppend(ms[1..], m);
      assert Frame(ms[0]) + (Frames(ms[1..]) + Frame(m)) == Frame(ms[0]) + Frames(ms[1..]) + Frame(m);
    }
  }

  /** The header of a send goes out, before a body. */
  lemma HeaderSent(p: Party, data: Payload)
    requires Sound(p) && p.phase.Begin? && p.todo != [] && p.todo[0].SendOp? && p.todo[0].body != []
    requires data == LE32(Wrap(|p.todo[0].body|))
    ensures var q := Advance(p, data);
            Sound(q) && SentStream(q) == SentStream(p) + data && GotStream(q) == GotStream(p)
  {
    var body, q := p.todo[0].body, Advance(p, data);
    assert p.todo[0] in p.todo;
    ModUnique(|body|, U32, 0, |body|);
    assert q == p.(done := p.done + 1, phase := Sending(body));
    assert body[0..] == body;
    assert SendBegun(q) == Frame(body)[..4] == data;
  }

  /** The header of an empty message is all of it. */
  lemma EmptySent(p: Party, data: Payload)
    requires Sound(p) && p.phase.Begin? && p.todo != [] && p.todo[0] == SendOp([]) && data == LE32(Wrap(0))
    ensures var q := Advance(p, data);
            Sound(q) && SentStream(q) == SentStream(p) + data && GotStream(q) == GotStream(p)
  {
    ModUnique(0, U32, 0, 0);
    FramesAppend(p.sent, []);
    SoundTail(p);
    assert Frame([]) == data;
  }

  lemma SoundTail(p: Party)
    requires Sound(p) && p.todo != []
    ensures forall op :: op in p.todo[1..] && op.SendOp? ==> |op.body| < U32
  {
  }

  /** A chunk of a send goes out, and more is to come. */
  lemma ChunkSent(p: Party, data: Payload)
    requires Sound(p) && p.phase.Sending? && |data| < |p.phase.left| && data == p.phase.left[..|data|]
    ensures var q := Advance(p, data);
            Sound(q) && SentStream(q) == SentStream(p) + data && GotStream(q) == GotStream(p)
  {
    var body, left, q := p.todo[0].body, p.phase.left, Advance(p, data);
    assert p.todo[0] in p.todo;
    FrameSplit(body, |body| - |left|, |data|);
    assert q == p.(done := p.done + 1, phase := Sending(left[|data|..]));
    assert SendBegun(q) == SendBegun(p) + data;
    Regroup(Frames(p.sent), SendBegun(p), data);
  }

  /** The last chunk completes the frame. */
  lemma LastChunk(p: Party)
    requires Sound(p) && p.phase.Sending?
    ensures Frames(p.sent) + Frame(p.todo[0].body) == SentStream(p) + p.phase.left
  {
    var body, left := p.todo[0].body, p.phase.left;
    FrameSplit(body, |body| - |left|, |left|);
    assert left[..|left|] == left;
    Regroup(Frames(p.sent), SendBegun(p), left);
  }

  /** A send whose last chunk has gone out is done. */
  lemma SendEnds(p: Party, data: Payload)
    requires p.todo != [] && p.todo[0].SendOp? && p.phase.Sending? && data == p.phase.left
    ensures Advance(p, data) == SendDone(p.(done := p.done + 1))
  {
    assert data[|data|..] == [];
  }

  /** The last chunk of a send goes out. */
  lemma LastChunkSent(p: Party, data: Payload)
    requires Sound(p) && p.phase.Sending? && data == p.phase.left
    ensures var q := Advance(p, data);
            Sound(q) && SentStream(q) == SentStream(p) + data && GotStream(q) == GotStream(p)
  {
    assert p.todo[0] in p.todo;
    FramesAppend(p.sent, p.todo[0].body);
    SoundTail(p);
    SendEnds(p, data);
    LastChunk(p);
  }

  lemma Regroup(a: Payload, b: Payload, c: Payload)
    ensures (a + b) + c == a + (b + c)
  {
  }

  lemma FrameSplit(body: Payload, at: nat, n: nat)
    requires |body| < U32 && at + n <= |body|
    ensures Frame(body)[..4 + at] + body[at..][..n] == Frame(body)[..4 + at + n]
    ensures body[at..][n..] == body[at + n..]
    ensures at + n == |body| ==> Frame(body)[..4 + at + n] == Frame(body)
  {
  }

  lemma HeaderTaken(p: Party, size: nat, data: Payload)
    requires Sound(p) && p.phase.Begin? && Want(p, size) == Take(|data|)
    ensures var q := Advance(p, data);
            Sound(q) && GotStream(q) == GotStream(p) + data && SentStream(q) == SentStream(p)
  {
    HeaderIs(data);
    var length := FromLE32(data);
    ModUnique(length, U32, 0, length);
    SoundTail(p);
    if length == 0 {
      FramesAppend(p.got, []);
      assert Frame([]) == data;
    } else {
      assert RecvBegun(Advance(p, data)) == data;
    }
  }

  lemma ChunkTaken(p: Party, data: Payload)
    requires Sound(p) && p.phase.Receiving? && |data| < p.phase.missing
    ensures var q := Advance(p, data);
            Sound(q) && GotStream(q) == GotStream(p) + data && SentStream(q) == SentStream(p)
  {
    var acc, missing, q := p.phase.acc, p.phase.missing, Advance(p, data);
    var header := LE32(Wrap(|acc| + missing));
    assert q == p.(done := p.done + 1, phase := Receiving(missing - |data|, acc + data));
    Regroup(header, acc, data);
    Regroup(Frames(p.got), header + acc, data);
  }

  lemma LastChunkTaken(p: Party, data: Payload)
    requires Sound(p) && p.phase.Receiving? && |data| == p.phase.missing
    ensures var q := Advance(p, data);
            Sound(q) && GotStream(q) == GotStream(p) + data && SentStream(q) == SentStream(p)
  {
    var acc, q := p.phase.acc, Advance(p, data);
    var length: u32 := |acc| + |data|;
    ModUnique(length, U32, 0, length);
    SoundTail(p);
    assert q == RecvDone(p.(done := p.done + 1), acc + data);
    FramesAppend(p.got, acc + data);
    Regroup(LE32(length), acc, data);
    Regroup(Frames(p.got), LE32(length) + acc, data);
  }

  lemma PutAdds(p: Party, size: nat, data: Payload)
    requires Sound(p) && Want(p, size) == Put(data)
    ensures var q := Advance(p, data);
            Sound(q) && SentStream(q) == SentStream(p) + data && GotStream(q) == GotStream(p)
  {
    if p.phase.Begin? && p.todo[0].body == [] {
      EmptySent(p, data);
    } else if p.phase.Begin? {
      HeaderSent(p, data);
    } else {
      assert data == p.phase.left[..|data|];
      if |data| < |p.phase.left| {
        ChunkSent(p, data);
      } else {
        LastChunkSent(p, data);
      }
    }
  }

  lemma TakeAdds(p: Party, size: nat, data: Payload)
    requires Sound(p) && Want(p, size) == Take(|data|)
    ensures var q := Advance(p, data);
            Sound(q) && GotStream(q) == GotStream(p) + data && SentStream(q) == SentStream(p)
  {
    if p.phase.Begin? {
      HeaderTaken(p, size, data);
    } else {
      if |data| < p.phase.missing {
        ChunkTaken(p, data);
      } else {
        LastChunkTaken(p, data);
      }
    }
  }

  lemma PcAgrees(s: Sys, w: Who, pc: Pc)
    requires Agree(s, A) && Agree(s, B)
    ensures Agree(WithPc(s, w, pc), A) && Agree(WithPc(s, w, pc), B)
  {
    PcSound(Get(s, w), pc);
  }

  lemma PcSound(p: Party, pc: Pc)
    requires Sound(p)
    ensures Sound(p.(pc := pc))
    ensures SentStream(p.(pc := pc)) == SentStream(p) && GotStream(p.(pc := pc)) == GotStream(p)
  {
  }

  lemma PutAgrees(s: Sys, w: Who, pc: Pc, data: Payload)
    requires Agree(s, w) && Agree(s, Other(w)) && Want(Get(s, w), s.size) == Put(data)
    ensures Agree(Perform(s, w, pc), w) && Agree(Perform(s, w, pc), Other(w))
  {
    WriteEffect(s, w, pc, data);
    PutAdds(Get(s, w), s.size, data);
    PcSound(Advance(Get(s, w), data), pc);
    RingGrows(s, Perform(s, w, pc), w, data);
  }

  lemma RingGrows(s: Sys, t: Sys, w: Who, data: Payload)
    requires Agree(s, w) && Agree(s, Other(w)) && Sound(Get(t, w)) && Get(t, Other(w)) == Get(s, Other(w))
    requires SentStream(Get(t, w)) == SentStream(Get(s, w)) + data && GotStream(Get(t, w)) == GotStream(Get(s, w))
    requires Ring(t, w) == Ring(s, w) + data && Ring(t, Other(w)) == Ring(s, Other(w))
    ensures Agree(t, w) && Agree(t, Other(w))
  {
    Regroup(GotStream(Get(s, Other(w))), Ring(s, w), data);
    assert Other(Other(w)) == w;
  }

  lemma TakeAgrees(s: Sys, w: Who, pc: Pc, n: nat)
    requires Agree(s, w) && Agree(s, Other(w)) && Want(Get(s, w), s.size) == Take(n) && n <= |Ring(s, Other(w))|
    ensures Agree(Perform(s, w, pc), w) && Agree(Perform(s, w, pc), Other(w))
  {
    var data := Ring(s, Other(w))[..n];
    TakeEffect(s, w, pc, n);
    TakeAdds(Get(s, w), s.size, data);
    PcSound(Advance(Get(s, w), data), pc);
    RingShrinks(s, Perform(s, w, pc), w, n);
  }

  lemma RingShrinks(s: Sys, t: Sys, w: Who, n: nat)
    requires Agree(s, w) && Agree(s, Other(w)) && Sound(Get(t, w)) && Get(t, Other(w)) == Get(s, Other(w))
    requires n <= |Ring(s, Other(w))| && Ring(t, Other(w)) == Ring(s, Other(w))[n..] && Ring(t, w) == Ring(s, w)
    requires GotStream(Get(t, w)) == GotStream(Get(s, w)) + Ring(s, Other(w))[..n]
    requires SentStream(Get(t, w)) == SentStream(Get(s, w))
    ensures Agree(t, w) && Agree(t, Other(w))
  {
    var o, got, ring := Other(w), GotStream(Get(s, w)), Ring(s, Other(w));
    assert Other(o) == w;
    assert ring == ring[..n] + ring[n..];
    Regroup(got, ring[..n], ring[n..]);
    assert SentStream(Get(t, o)) == got + ring == got + ring[..n] + ring[n..];
  }

  lemma PerformAgrees(s: Sys, w: Who, pc: Pc)
    requires Agree(s, w) && Agree(s, Other(w)) && Guard(s, w)
    ensures Agree(Perform(s, w, pc), w) && Agree(Perform(s, w, pc), Other(w))
  {
    match Want(Get(s, w), s.size)
    case Put(data) => PutAgrees(s, w, pc, data);
    case Take(n) => TakeAgrees(s, w, pc, n);
  }

  lemma StepAgrees(s: Sys, act: Action)
    requires Agree(s, A) && Agree(s, B)
    ensures Agree(Apply(s, act), A) && Agree(Apply(s, act), B)
  {
    var w := act.w;
    var pc := StepShape(s, act);
    if Guard(s, w) {
      PerformAgrees(s, w, pc);
    }
    PcAgrees(s, w, pc);
    PcAgrees(s, w, Ready);
    PcAgrees(WithPc(s, w, Ready), Other(w), Ready);
  }

  lemma {:induction false} RunAgrees(s: Sys, acts: seq<Action>)
    requires Agree(s, A) && Agree(s, B)
    ensures Agree(Exec(s, acts), A) && Agree(Exec(s, acts), B)
    decreases |acts|
  {
    if acts != [] {
      StepAgrees(s, acts[0]);
      RunAgrees(Apply(s, acts[0]), acts[1..]);
    }
  }

  /** Bodies short enough for `send`. */
  ghost predicate OpsOk(ops: seq<Op>) {
    forall op :: op in ops && op.SendOp? ==> |op.body| <= MAX_MESSAGE
  }

  lemma Reached(opsA: seq<Op>, opsB: seq<Op>, size: nat, cv: bool, acts: seq<Action>, w: Who)
    requires OpsOk(opsA) && OpsOk(opsB)
    ensures Agree(Exec(Pair(opsA, opsB, size, cv), acts), w)
  {
    RunAgrees(Pair(opsA, opsB, size, cv), acts);
  }

  /**
   Conservation, for any calls the two parties make.  In every reachable state the bytes a
   party has written, with the progress of a send in flight, are byte for byte what the other
   one has read, likewise, followed by what is on the ring; so packets and bytes add up.
   Between calls the two ends have counted the same messages exactly when the ring is empty.
   */
  lemma TrafficIsConserved(opsA: seq<Op>, opsB: seq<Op>, size: nat, cv: bool, acts: seq<Action>, w: Who)
    requires OpsOk(opsA) && OpsOk(opsB)
    ensures var s := Exec(Pair(opsA, opsB, size, cv), acts);
            var p, q := Get(s, w), Get(s, Other(w));
            && Sound(p) && Sound(q)
            && SentStream(p) == GotStream(q) + Ring(s, w)
            && 4 * |p.sent| + |Concat(p.sent)| + |SendBegun(p)|
               == 4 * |q.got| + |Concat(q.got)| + |RecvBegun(q)| + |Ring(s, w)|
            && (p.phase.Begin? && q.phase.Begin? ==> (p.sent == q.got <==> Ring(s, w) == []))
  {
    Reached(opsA, opsB, size, cv, acts, w);
    var s := Exec(Pair(opsA, opsB, size, cv), acts);
    var p, q := Get(s, w), Get(s, Other(w));
    FramesLength(p.sent);
    FramesLength(q.got);
    if p.phase.Begin? && q.phase.Begin? && Ring(s, w) == [] {
      assert SentStream(p) == Frames(p.sent) && GotStream(q) == Frames(q.got);
      assert Frames(q.got) + [] == Frames(q.got);
      ReceivedArePrefix(q.got, p.sent);
      ReceivedArePrefix(p.sent, q.got);
    }
  }

  /** The bodies of the sends among some calls. */
  function Bodies(ops: seq<Op>): seq<Payload> {
    if ops == [] then [] else (if ops[0].SendOp? then [ops[0].body] else []) + Bodies(ops[1..])
  }

  /** Sends happen in the order of the calls. */
  ghost predicate OnProgram(s: Sys, opsA: seq<Op>, opsB: seq<Op>) {
    s.a.sent + Bodies(s.a.todo) == Bodies(opsA) && s.b.sent + Bodies(s.b.todo) == Bodies(opsB)
  }

  lemma AdvanceOnProgram(p: Party, data: Payload)
    ensures var q := Advance(p, data); q.sent + Bodies(q.todo) == p.sent + Bodies(p.todo)
  {
    if p.todo != [] && p.todo[0].SendOp? {
      assert p.sent + ([p.todo[0].body] + Bodies(p.todo[1..])) == p.sent + [p.todo[0].body] + Bodies(p.todo[1..]);
    } else if p.todo != [] {
      assert [] + Bodies(p.todo[1..]) == Bodies(p.todo[1..]);
    }
  }

  lemma PerformOnProgram(s: Sys, w: Who, pc: Pc)
    requires Guard(s, w)
    ensures var t := Perform(s, w, pc);
            && Get(t, Other(w)) == Get(s, Other(w))
            && Get(t, w).sent + Bodies(Get(t, w).todo) == Get(s, w).sent + Bodies(Get(s, w).todo)
  {
    match Want(Get(s, w), s.size)
    case Put(data) =>
      WriteEffect(s, w, pc, data);
      AdvanceOnProgram(Get(s, w), data);
    case Take(n) =>
      TakeEffect(s, w, pc, n);
      AdvanceOnProgram(Get(s, w), Ring(s, Other(w))[..n]);
  }

  lemma {:induction false} RunOnProgram(s: Sys, acts: seq<Action>, opsA: seq<Op>, opsB: seq<Op>)
    requires OnProgram(s, opsA, opsB)
    ensures OnProgram(Exec(s, acts), opsA, opsB)
    decreases |acts|
  {
    if acts != [] {
      var pc := StepShape(s, acts[0]);
      if Guard(s, acts[0].w) {
        PerformOnProgram(s, acts[0].w, pc);
      }
      RunOnProgram(Apply(s, acts[0]), acts[1..], opsA, opsB);
    }
  }

  /** A message is received only once its last byte has been sent. */
  lemma GotArePrefix(s: Sys, w: Who)
    requires Agree(s, w)
    ensures Get(s, Other(w)).got <= Get(s, w).sent
  {
    var p, q := Get(s, w), Get(s, Other(w));
    if p.phase.Sending? {
      var body := p.todo[0].body;
      assert p.todo[0] in p.todo;
      FramesAppend(p.sent, body);
      var rest := Frame(body)[|SendBegun(p)|..];
      assert Frame(body) == SendBegun(p) + rest;
      Regroup(Frames(p.sent), SendBegun(p), rest);
      Regroup(Frames(q.got), RecvBegun(q), Ring(s, w));
      Regroup(Frames(q.got), RecvBegun(q) + Ring(s, w), rest);
      ReceivedArePrefix(q.got, p.sent + [body]);
      assert |Frames(q.got)| < |Frames(p.sent + [body])|;
      assert q.got != p.sent + [body];
    } else {
      assert SentStream(p) == Frames(p.sent);
      assert Frames(p.sent) == Frames(q.got) + (RecvBegun(q) + Ring(s, w));
      ReceivedArePrefix(q.got, p.sent);
    }
  }

  /**
   Delivery in order, for any calls the two parties make.  In every reachable state what a party
   has received is a prefix of what the other one has sent, and that a prefix of the messages
   it was asked to send, which is all of them once it has made all its calls.
   */
  lemma DeliveredInOrder(opsA: seq<Op>, opsB: seq<Op>, size: nat, cv: bool, acts: seq<Action>, w: Who)
    requires OpsOk(opsA) && OpsOk(opsB)
    ensures var s := Exec(Pair(opsA, opsB, size, cv), acts);
            var asked := Bodies(if w.A? then opsA else opsB);
            && Get(s, Other(w)).got <= Get(s, w).sent <= asked
            && (Get(s, w).todo == [] ==> Get(s, w).sent == asked)
  {
    Reached(opsA, opsB, size, cv, acts, w);
    GotArePrefix(Exec(Pair(opsA, opsB, size, cv), acts), w);
    RunOnProgram(Pair(opsA, opsB, size, cv), acts, opsA, opsB);
  }
}
