/** Over every run of two parties on mirrored scripts: no deadlock, an end, all messages delivered. */
module MirrorTheorems {
  import opened Bytes
  import opened Mirror
  import opened MirrorProgress
  import opened TwoParties

  ghost predicate Inv(s: Sys) {
    Core(s) && LocksFrom(s, A)
  }

  // ----- every step -----

  lemma PcKeepsCore(s: Sys, w: Who, pc: Pc)
    requires Core(s)
    ensures Core(WithPc(s, w, pc))
  {
    SeenFrom(s, w);
    PcFrame(s, w, pc);
    PcIrrelevant(Get(s, w), w, s.script, s.size, pc);
    SeenFrom(WithPc(s, w, pc), w);
  }

  lemma StepKeepsCore(s: Sys, act: Action)
    requires Core(s)
    ensures Core(Apply(s, act))
  {
    var w := act.w;
    var pc := StepShape(s, act);
    PcKeepsCore(s, w, pc);
    PcKeepsCore(s, w, Ready);
    PcKeepsCore(WithPc(s, w, Ready), Other(w), Ready);
    if Guard(s, w) {
      PerformKeeps(s, w, pc);
    }
  }

  lemma StepKeeps(s: Sys, act: Action)
    requires Inv(s)
    ensures Inv(Apply(s, act))
  {
    StepKeepsCore(s, act);
    LocksSeenFrom(s, act.w);
    StepKeepsLocks(s, act);
    LocksSeenFrom(Apply(s, act), act.w);
  }

  lemma InitInv(script: seq<Message>, size: nat, cv: bool)
    requires ScriptOk(script) && 8 <= size < U32
    ensures Inv(Init(script, size, cv))
  {
    StartOk(A, script, size);
    StartOk(B, script, size);
    PairLocks(Program(A, script), Program(B, script), size, cv);
    assert Plan(script, size)[0..0] == [];
    assert CoreFrom(Init(script, size, cv), A);
  }

  lemma StartOk(w: Who, script: seq<Message>, size: nat)
    requires size > 0
    ensures PartyOk(Start(Program(w, script)), w, script, size)
  {
    assert script[0..] == script && script[..0] == [];
    assert Plan(script, size)[0..] == Plan(script, size);
  }

  lemma {:induction false} RunKeeps(s: Sys, acts: seq<Action>)
    requires Inv(s)
    ensures Inv(Exec(s, acts))
    decreases |acts|
  {
    if acts != [] {
      StepKeeps(s, acts[0]);
      RunKeeps(Apply(s, acts[0]), acts[1..]);
    }
  }

  // ----- no deadlock -----

  /** Both parties have made all their calls. */
  predicate Finished(s: Sys) {
    s.a.todo == [] && s.b.todo == []
  }

  /** While the scripts are not over, one of the two guards is true. */
  lemma SomeoneCan(s: Sys) returns (w: Who)
    requires Core(s) && !Finished(s)
    ensures Guard(s, w)
  {
    var plan := Plan(s.script, s.size);
    NextPiece(s.a, A, s.script, s.size);
    NextPiece(s.b, B, s.script, s.size);
    if s.a.done < s.b.done {
      w := A;
      BehindReads(s, w);
    } else if s.b.done < s.a.done {
      w := B;
      SeenFrom(s, w);
      BehindReads(s, w);
    } else {
      w := plan[s.a.done].from;
      assert plan[s.a.done..s.a.done] == [];
      SeenFrom(s, w);
      assert Ring(s, w) == [];
    }
  }

  function Rank(pc: Pc): nat {
    match pc
    case Asleep => 0
    case Locked => 1
    case Ready => 2
    case Signalling(_) => 5
    case Unlocking(_) => 6
  }

  function Work(p: Party, total: nat): int {
    8 * (total - p.done) + Rank(p.pc)
  }

  /** What is left to do, counting lock steps; a signal pays for the wake-up it causes. */
  function Measure(s: Sys): int
    requires s.size > 0
  {
    var total := |Plan(s.script, s.size)|;
    Work(s.a, total) + Work(s.b, total)
  }

  lemma MeasureFrom(s: Sys, w: Who)
    requires s.size > 0
    ensures var total := |Plan(s.script, s.size)|;
            Measure(s) == Work(Get(s, w), total) + Work(Get(s, Other(w)), total)
  {
  }

  lemma MeasurePositive(s: Sys)
    requires Core(s)
    ensures Measure(s) >= 0
  {
  }

  /** A ring operation brings the end nearer than the lock steps after it take it away. */
  lemma OperationDecreases(s: Sys, w: Who, pc: Pc)
    requires Core(s) && Guard(s, w)
    ensures Perform(s, w, pc).size > 0 && Measure(Perform(s, w, pc)) < Measure(s)
  {
    PerformKeeps(s, w, pc);
    Weigh(s, Perform(s, w, pc), w);
  }

  lemma Weigh(s: Sys, t: Sys, w: Who)
    requires s.size > 0 && t.size == s.size && t.script == s.script
    requires Get(t, Other(w)) == Get(s, Other(w)) && Get(t, w).done == Get(s, w).done + 1
    ensures Measure(t) < Measure(s)
  {
    MeasureFrom(s, w);
    MeasureFrom(t, w);
  }

  lemma PcDecreases(s: Sys, w: Who, pc: Pc)
    requires s.size > 0
    ensures WithPc(s, w, pc).size == s.size
    ensures Measure(WithPc(s, w, pc)) == Measure(s) - Rank(Get(s, w).pc) + Rank(pc)
  {
    MeasureFrom(s, w);
    MeasureFrom(WithPc(s, w, pc), w);
  }

  lemma LockStepDecreases(s: Sys, w: Who)
    requires s.size > 0 && !(Guard(s, w) && ((Get(s, w).pc.Ready? && !s.cv) || Get(s, w).pc.Locked?))
    ensures var t := Apply(s, Run(w)); t == s || (t.size > 0 && Measure(t) < Measure(s))
  {
    var t, pc := Apply(s, Run(w)), Get(Apply(s, Run(w)), w).pc;
    if t != s {
      PcDecreases(s, w, pc);
      if t != WithPc(s, w, pc) {
        PcDecreases(WithPc(s, w, pc), Other(w), Ready);
      }
    }
  }

  /** Every step of a party either leaves the state alone or brings the end nearer. */
  lemma StepsDecrease(s: Sys, w: Who)
    requires Inv(s)
    ensures var t := Apply(s, Run(w)); t == s || (t.size > 0 && Measure(t) < Measure(s))
  {
    var p := Get(s, w);
    if Guard(s, w) && ((p.pc.Ready? && !s.cv) || p.pc.Locked?) {
      OperationDecreases(s, w, if p.pc.Locked? then Unlocking(RingOf(w, Want(p, s.size))) else Ready);
    } else {
      LockStepDecreases(s, w);
    }
  }

  /** No deadlock: until both are finished, one of the two parties has a step. */
  lemma NoDeadlock(s: Sys) returns (w: Who)
    requires Inv(s) && !Finished(s)
    ensures Apply(s, Run(w)) != s
  {
    w := SomeoneCan(s);
    LocksSeenFrom(s, w);
    var o, want := Other(w), Want(Get(s, w), s.size);
    match Get(s, w).pc
    case Ready =>
      if s.cv {
        if HasMutex(s, o, RingOf(w, want)) {
          HolderMoves(s, o);
          w := o;
        }
      } else {
        PerformKeeps(s, w, Ready);
      }
    case Locked =>
      HolderMoves(s, w);
    case Asleep =>
      assert Owes(s, o, RingOf(w, want));
      HolderMoves(s, o);
      w := o;
    case Unlocking(_) =>
    case Signalling(_) =>
  }

  /** A party that holds a mutex or owes a signal is never blocked. */
  lemma HolderMoves(s: Sys, w: Who)
    requires Core(s) && (Get(s, w).pc.Locked? || Get(s, w).pc.Unlocking? || Get(s, w).pc.Signalling?)
    ensures Apply(s, Run(w)) != s
  {
    if Get(s, w).pc.Locked? && Guard(s, w) {
      PerformKeeps(s, w, Unlocking(RingOf(w, Want(Get(s, w), s.size))));
    }
    assert Get(Apply(s, Run(w)), w).pc != Get(s, w).pc;
  }

  // ----- theorems over every run -----

  lemma Reachable(script: seq<Message>, size: nat, cv: bool, acts: seq<Action>)
    requires ScriptOk(script) && 8 <= size < U32
    ensures var s := Exec(Init(script, size, cv), acts);
            Inv(s) && s.script == script && s.size == size && s.cv == cv
  {
    InitInv(script, size, cv);
    RunKeeps(Init(script, size, cv), acts);
    ConstantsKept(Init(script, size, cv), acts);
  }

  /** Some party has a step, and it brings the end nearer. */
  lemma NextStep(s: Sys) returns (w: Who)
    requires Inv(s) && !Finished(s)
    ensures var t := Apply(s, Run(w)); Inv(t) && 0 <= Measure(t) < Measure(s)
  {
    w := NoDeadlock(s);
    StepsDecrease(s, w);
    StepKeeps(s, Run(w));
    MeasurePositive(Apply(s, Run(w)));
  }

  /**
   Progress.  In every reachable state that is not the end, some party has a step, and it
   brings the end nearer; so both parties are never blocked at once, in either mode, however
   much larger than the ring the messages are.
   */
  lemma MirroredScriptsProgress(script: seq<Message>, size: nat, cv: bool, acts: seq<Action>) returns (w: Who)
    requires ScriptOk(script) && 8 <= size < U32
    ensures var s := Exec(Init(script, size, cv), acts);
            var t := Apply(s, Run(w));
            s.size > 0 && t.size > 0 && (Finished(s) || 0 <= Measure(t) < Measure(s))
  {
    Reachable(script, size, cv, acts);
    var s := Exec(Init(script, size, cv), acts);
    w := A;
    if Finished(s) {
      StepKeeps(s, Run(w));
    } else {
      w := NextStep(s);
    }
  }

  /** From every reachable state the two parties can run to the end. */
  lemma RunToEnd(s: Sys) returns (acts: seq<Action>)
    requires Inv(s)
    ensures Finished(Exec(s, acts))
    decreases Measure(s)
  {
    MeasurePositive(s);
    if Finished(s) {
      acts := [];
    } else {
      var w := NextStep(s);
      var rest := RunToEnd(Apply(s, Run(w)));
      acts := [Run(w)] + rest;
      assert acts[1..] == rest;
    }
  }

  /** Every step of the run changes something. */
  ghost predicate Busy(s: Sys, acts: seq<Action>)
    decreases |acts|
  {
    acts == [] || (Apply(s, acts[0]) != s && Busy(Apply(s, acts[0]), acts[1..]))
  }

  /** How often somebody is woken without a signal. */
  function SpuriousWakes(acts: seq<Action>): nat {
    if acts == [] then 0 else (if acts[0].SpuriousWake? then 1 else 0) + SpuriousWakes(acts[1..])
  }

  lemma WakeCosts(s: Sys, w: Who)
    requires Inv(s)
    ensures var t := Apply(s, SpuriousWake(w)); t.size > 0 && Measure(t) <= Measure(s) + 2
  {
    if Get(s, w).pc.Asleep? {
      PcDecreases(s, w, Ready);
    }
  }

  /**
   Under every schedule, fair or not, the parties take at most as many steps as the measure says,
   and three more for each wake-up that nobody signalled: that one, taking the mutex and going
   back to sleep.
   */
  lemma {:induction false} BusyRunsEnd(s: Sys, acts: seq<Action>)
    requires Inv(s) && Busy(s, acts)
    ensures |acts| <= Measure(s) + 3 * SpuriousWakes(acts)
    decreases |acts|
  {
    MeasurePositive(s);
    if acts != [] {
      match acts[0] {
        case Run(w) => StepsDecrease(s, w);
        case SpuriousWake(w) => WakeCosts(s, w);
      }
      StepKeeps(s, acts[0]);
      BusyRunsEnd(Apply(s, acts[0]), acts[1..]);
    }
  }

  /** Mirrored parties are never both asleep. */
  lemma NeverBothAsleep(script: seq<Message>, size: nat, cv: bool, acts: seq<Action>)
    requires ScriptOk(script) && 8 <= size < U32
    ensures var s := Exec(Init(script, size, cv), acts); !(s.a.pc.Asleep? && s.b.pc.Asleep?)
  {
    Reachable(script, size, cv, acts);
    var s := Exec(Init(script, size, cv), acts);
    if s.a.pc.Asleep? && s.b.pc.Asleep? {
      var x := NoDeadlock(s);
    }
  }

  // ----- delivery -----

  lemma {:induction false} BodiesSplit(w: Who, xs: seq<Message>, ys: seq<Message>)
    ensures BodiesFrom(w, xs + ys) == BodiesFrom(w, xs) + BodiesFrom(w, ys)
    decreases |xs|
  {
    if xs == [] {
      assert xs + ys == ys;
    } else {
      assert (xs + ys)[0] == xs[0] && (xs + ys)[1..] == xs[1..] + ys;
      BodiesSplit(w, xs[1..], ys);
    }
  }

  lemma PartyDelivers(p: Party, w: Who, script: seq<Message>, size: nat)
    requires size > 0 && PartyOk(p, w, script, size)
    ensures p.got <= BodiesFrom(Other(w), script) && p.sent <= BodiesFrom(w, script)
    ensures p.todo == [] ==> p.got == BodiesFrom(Other(w), script) && p.sent == BodiesFrom(w, script)
  {
    var idx := |p.sent| + |p.got|;
    assert script == script[..idx] + script[idx..];
    BodiesSplit(w, script[..idx], script[idx..]);
    BodiesSplit(Other(w), script[..idx], script[idx..]);
  }

  /**
   Delivery.  Whatever the interleaving, what a party has received is a prefix of what the
   other one sends it; at the end it is all of it, and both rings are empty.
   */
  lemma MirroredScriptsDeliver(script: seq<Message>, size: nat, cv: bool, acts: seq<Action>, w: Who)
    requires ScriptOk(script) && 8 <= size < U32
    ensures var s := Exec(Init(script, size, cv), acts);
            && Get(s, w).got <= BodiesFrom(Other(w), script)
            && (Finished(s) ==> Get(s, w).got == BodiesFrom(Other(w), script) && Ring(s, w) == [])
  {
    Reachable(script, size, cv, acts);
    var s := Exec(Init(script, size, cv), acts);
    SeenFrom(s, w);
    PartyDelivers(Get(s, w), w, script, size);
    if Finished(s) {
      NextPiece(s.a, A, script, size);
      NextPiece(s.b, B, script, size);
      var n := |Plan(script, size)|;
      assert Plan(script, size)[n..n] == [];
    }
  }
}
