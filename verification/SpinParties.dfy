/**
 Two parties over two rings in spin mode, at the granularity of loads and byte copies.  Every
 step of theirs is a step of the machine in which a ring operation is one step, or none; so what
 is proved there holds here, and the parties make progress at this granularity too.
 */
module SpinParties {
  import opened Bytes
  import opened SharedRing
  import opened Mirror
  import opened MirrorProgress
  import opened TwoParties
  import Spin = SpinRing
  import Script = MirrorTheorems

  datatype Fine = Fine(script: seq<Message>, a: Party, b: Party,
                       ra: Spin.Spin, rb: Spin.Spin)    // the ring A writes, the ring B writes

  function Size(f: Fine): nat {
    Pow2(f.ra.k)
  }

  function PartyAt(f: Fine, w: Who): Party {
    if w.A? then f.a else f.b
  }

  function WithParty(f: Fine, w: Who, p: Party): Fine {
    if w.A? then f.(a := p) else f.(b := p)
  }

  function RingAt(f: Fine, w: Who): Spin.Spin {
    if w.A? then f.ra else f.rb
  }

  function WithRing(f: Fine, w: Who, r: Spin.Spin): Fine {
    if w.A? then f.(ra := r) else f.(rb := r)
  }

  /** Any calls before them, rings empty. */
  function StartPair(opsA: seq<Op>, opsB: seq<Op>, k: nat): Fine {
    Fine([], Start(opsA), Start(opsB), Spin.Init(k), Spin.Init(k))
  }

  /** One load, byte copy or counter add of party `w`, or the beginning of its next `write` or `read`. */
  function Step(f: Fine, w: Who): Fine {
    var p := PartyAt(f, w);
    match Want(p, Size(f))
    case Nothing => f
    case Put(data) =>
      var r := RingAt(f, w);
      if r.w.WIdle? then WithRing(f, w, Spin.Apply(r, Spin.StartWrite(data)))
      else
        var g := WithRing(f, w, Spin.StepWriter(r));
        if RingAt(g, w).w.WIdle? then WithParty(g, w, Advance(p, data)) else g
    case Take(n) =>
      var o := Other(w);
      var r := RingAt(f, o);
      if r.r.RIdle? then WithRing(f, o, Spin.Apply(r, Spin.StartRead(n)))
      else
        var g := WithRing(f, o, Spin.StepReader(r));
        if RingAt(g, o).r.RIdle? && r.r.RCopy? then WithParty(g, w, Advance(p, r.r.data)) else g
  }

  function RunSmall(f: Fine, ws: seq<Who>): Fine
    decreases |ws|
  {
    if ws == [] then f else RunSmall(Step(f, ws[0]), ws[1..])
  }

  /** The machine with one-step ring operations that `f` stands for. */
  function Abs(f: Fine): Sys {
    Sys(f.script, Size(f), false, f.a, f.b, Spin.Queue(f.ra), Spin.Queue(f.rb))
  }

  // ----- invariant -----

  function BufOf(w: Spin.Writer): seq<byte> {
    match w
    case WIdle => []
    case WPoll(buf) => buf
    case WClamp(buf) => buf
    case WCopy(buf, _, _) => buf
  }

  function LenOf(r: Spin.Reader): nat {
    match r
    case RIdle => 0
    case RPoll(len) => len
    case RClamp(len) => len
    case RCopy(len, _, _) => len
  }

  /** A `write` or `read` in progress on its rings is the one party `w` wants. */
  ghost predicate Engaged(f: Fine, w: Who) {
    var want := Want(PartyAt(f, w), Size(f));
    && (!RingAt(f, w).w.WIdle? ==> want == Put(BufOf(RingAt(f, w).w)))
    && (!RingAt(f, Other(w)).r.RIdle? ==> want == Take(LenOf(RingAt(f, Other(w)).r)))
    && PartyAt(f, w).pc.Ready?
  }

  ghost predicate Inv(f: Fine) {
    && Spin.Inv(f.ra) && Spin.Inv(f.rb) && f.ra.k == f.rb.k
    && Engaged(f, A) && Engaged(f, B)
  }

  // ----- one ring -----

  function WRank(w: Spin.Writer): nat {
    match w
    case WIdle => 0
    case WPoll(_) => 1
    case WClamp(_) => 2
    case WCopy(_, _, done) => 3 + done
  }

  function RRank(r: Spin.Reader): nat {
    match r
    case RIdle => 0
    case RPoll(_) => 1
    case RClamp(_) => 2
    case RCopy(_, _, data) => 3 + |data|
  }

  /** A step inside a `write`: the ring's queue grows by the whole buffer at the very end. */
  ghost predicate WriterMoved(r: Spin.Spin, t: Spin.Spin) {
    && Spin.Inv(t) && t.k == r.k && t.r == r.r
    && if t.w.WIdle? then
         Spin.Queue(t) == Spin.Queue(r) + BufOf(r.w) && |Spin.Queue(r)| + |BufOf(r.w)| <= Pow2(r.k)
       else
         && Spin.Queue(t) == Spin.Queue(r) && BufOf(t.w) == BufOf(r.w)
         && (WRank(t.w) == WRank(r.w) + 1 || (t == r && |Spin.Queue(r)| + |BufOf(r.w)| > Pow2(r.k)))
  }

  ghost predicate ReaderMoved(r: Spin.Spin, t: Spin.Spin) {
    && Spin.Inv(t) && t.k == r.k && t.w == r.w
    && if t.r.RIdle? then
         && r.r.RCopy? && LenOf(r.r) <= |Spin.Queue(r)|
         && r.r.data == Spin.Queue(r)[..LenOf(r.r)] && Spin.Queue(t) == Spin.Queue(r)[LenOf(r.r)..]
       else
         && Spin.Queue(t) == Spin.Queue(r) && LenOf(t.r) == LenOf(r.r)
         && (RRank(t.r) == RRank(r.r) + 1 || (t == r && LenOf(r.r) > |Spin.Queue(r)|))
  }

  lemma WriterPolls(r: Spin.Spin)
    requires Spin.Inv(r) && r.w.WPoll?
    ensures WriterMoved(r, Spin.StepWriter(r))
  {
    RingSizes(r.k);
    CanPutIff(|r.published|, |r.consumed|, |r.w.buf|, r.k);
    Spin.WriterLoadKeeps(r);
  }

  lemma WriterCopies(r: Spin.Spin)
    requires Spin.Inv(r) && r.w.WCopy?
    ensures WriterMoved(r, Spin.StepWriter(r))
  {
    if r.w.done < r.w.n {
      Spin.WriteByteKeeps(r);
      Spin.UnpublishedStep(r);
    } else {
      Spin.PublishKeeps(r);
      assert Spin.Queue(Spin.StepWriter(r)) == Spin.Queue(r) + r.w.buf;
    }
  }

  lemma WriterMoves(r: Spin.Spin)
    requires Spin.Inv(r) && !r.w.WIdle?
    ensures WriterMoved(r, Spin.StepWriter(r))
  {
    match r.w
    case WPoll(_) => WriterPolls(r);
    case WClamp(_) => Spin.WriterLoadKeeps(r);
    case WCopy(_, _, _) => WriterCopies(r);
  }

  lemma ReaderPolls(r: Spin.Spin)
    requires Spin.Inv(r) && r.r.RPoll?
    ensures ReaderMoved(r, Spin.StepReader(r))
  {
    RingSizes(r.k);
    CanGetIs(|r.published|, |r.consumed|, r.r.len, r.k);
    Spin.ReaderLoadKeeps(r);
  }

  lemma ReaderCopies(r: Spin.Spin)
    requires Spin.Inv(r) && r.r.RCopy?
    ensures ReaderMoved(r, Spin.StepReader(r))
  {
    if |r.r.data| < r.r.n {
      Spin.ReadByteKeeps(r);
      assert RRank(Spin.StepReader(r).r) == RRank(r.r) + 1;
    } else {
      Spin.TakeKeeps(r);
      assert r.r.data == Spin.Queue(r)[..r.r.n];
      assert Spin.Queue(Spin.StepReader(r)) == Spin.Queue(r)[r.r.n..];
    }
  }

  lemma ReaderMoves(r: Spin.Spin)
    requires Spin.Inv(r) && !r.r.RIdle?
    ensures ReaderMoved(r, Spin.StepReader(r))
  {
    match r.r
    case RPoll(_) => ReaderPolls(r);
    case RClamp(_) => Spin.ReaderLoadKeeps(r);
    case RCopy(_, _, _) => ReaderCopies(r);
  }

  // ----- one step of a party -----

  /** How far party `w` is inside its ring operation. */
  function Progress(f: Fine, w: Who): nat {
    WRank(RingAt(f, w).w) + RRank(RingAt(f, Other(w)).r)
  }

  /** A step inside a ring operation, of which the machine above sees nothing. */
  ghost predicate Inside(f: Fine, t: Fine, w: Who) {
    && Abs(t) == Abs(f)
    && Progress(t, Other(w)) == Progress(f, Other(w))
    && (Progress(t, w) == Progress(f, w) + 1 || (t == f && !Guard(Abs(f), w)))
  }

  /** The end of a ring operation, which is the whole of it above. */
  ghost predicate Completes(f: Fine, t: Fine, w: Who) {
    && Guard(Abs(f), w) && Abs(t) == Perform(Abs(f), w, Ready)
    && Progress(t, Other(w)) == Progress(f, Other(w)) && Progress(t, w) == 0
  }

  /** Requests fit the ring. */
  lemma WantFits(p: Party, size: nat)
    requires size >= 8
    ensures match Want(p, size) case Put(data) => |data| <= size case Take(n) => n <= size case Nothing => true
  {
  }

  lemma BeginsPut(f: Fine, w: Who, data: Payload)
    requires Inv(f) && Want(PartyAt(f, w), Size(f)) == Put(data) && RingAt(f, w).w.WIdle?
    ensures Inv(Step(f, w)) && Inside(f, Step(f, w), w)
  {
    RingSizes(f.ra.k);
    WantFits(PartyAt(f, w), Size(f));
    Spin.StepKeeps(RingAt(f, w), Spin.StartWrite(data));
  }

  lemma BeginsTake(f: Fine, w: Who, n: nat)
    requires Inv(f) && Want(PartyAt(f, w), Size(f)) == Take(n) && RingAt(f, Other(w)).r.RIdle?
    ensures Inv(Step(f, w)) && Inside(f, Step(f, w), w)
  {
    RingSizes(f.ra.k);
    WantFits(PartyAt(f, w), Size(f));
    Spin.StepKeeps(RingAt(f, Other(w)), Spin.StartRead(n));
  }

  /** Inside a ring operation only the ring moves, and its queue not at all. */
  lemma RingMoves(f: Fine, w: Who, r: Spin.Spin)
    requires Inv(f) && !RingAt(f, w).w.WIdle? && !r.w.WIdle? && WriterMoved(RingAt(f, w), r)
    ensures Inv(WithRing(f, w, r)) && Inside(f, WithRing(f, w, r), w)
  {
    var t := WithRing(f, w, r);
    assert Want(PartyAt(f, w), Size(f)) == Put(BufOf(RingAt(f, w).w));
    assert RingAt(f, Other(w)).r.RIdle?;
    assert Abs(t) == Abs(f);
    assert Engaged(t, w) && Engaged(t, Other(w));
  }

  lemma RingMovesBack(f: Fine, w: Who, r: Spin.Spin)
    requires Inv(f) && !RingAt(f, Other(w)).r.RIdle? && !r.r.RIdle? && ReaderMoved(RingAt(f, Other(w)), r)
    ensures Inv(WithRing(f, Other(w), r)) && Inside(f, WithRing(f, Other(w), r), w)
  {
    var t := WithRing(f, Other(w), r);
    assert Want(PartyAt(f, w), Size(f)) == Take(LenOf(RingAt(f, Other(w)).r));
    assert RingAt(f, w).w.WIdle?;
    assert Abs(t) == Abs(f);
    assert Engaged(t, w) && Engaged(t, Other(w));
  }

  /** The last step of a `write` is the whole of it above. */
  lemma WriteEnds(f: Fine, w: Who, r: Spin.Spin)
    requires Inv(f) && !RingAt(f, w).w.WIdle? && r.w.WIdle? && WriterMoved(RingAt(f, w), r)
    ensures var t := WithParty(WithRing(f, w, r), w, Advance(PartyAt(f, w), BufOf(RingAt(f, w).w)));
            Inv(t) && Completes(f, t, w)
  {
    var data := BufOf(RingAt(f, w).w);
    var t := WithParty(WithRing(f, w, r), w, Advance(PartyAt(f, w), data));
    assert Want(PartyAt(f, w), Size(f)) == Put(data);
    assert RingAt(f, Other(w)).r.RIdle?;
    assert Abs(t) == Perform(Abs(f), w, Ready);
    assert Engaged(t, w) && Engaged(t, Other(w));
  }

  lemma ReadEnds(f: Fine, w: Who, r: Spin.Spin)
    requires Inv(f) && !RingAt(f, Other(w)).r.RIdle? && r.r.RIdle? && ReaderMoved(RingAt(f, Other(w)), r)
    ensures var t := WithParty(WithRing(f, Other(w), r), w, Advance(PartyAt(f, w), RingAt(f, Other(w)).r.data));
            Inv(t) && Completes(f, t, w)
  {
    var was := RingAt(f, Other(w));
    var t := WithParty(WithRing(f, Other(w), r), w, Advance(PartyAt(f, w), was.r.data));
    assert Want(PartyAt(f, w), Size(f)) == Take(LenOf(was.r));
    assert RingAt(f, w).w.WIdle?;
    assert Abs(t) == Perform(Abs(f), w, Ready);
    assert Engaged(t, w) && Engaged(t, Other(w));
  }

  lemma GoesOnPut(f: Fine, w: Who, data: Payload)
    requires Inv(f) && Want(PartyAt(f, w), Size(f)) == Put(data) && !RingAt(f, w).w.WIdle?
    ensures Inv(Step(f, w)) && (Inside(f, Step(f, w), w) || Completes(f, Step(f, w), w))
  {
    var r := Spin.StepWriter(RingAt(f, w));
    WriterMoves(RingAt(f, w));
    if r.w.WIdle? {
      WriteEnds(f, w, r);
    } else {
      RingMoves(f, w, r);
    }
  }

  lemma GoesOnTake(f: Fine, w: Who, n: nat)
    requires Inv(f) && Want(PartyAt(f, w), Size(f)) == Take(n) && !RingAt(f, Other(w)).r.RIdle?
    ensures Inv(Step(f, w)) && (Inside(f, Step(f, w), w) || Completes(f, Step(f, w), w))
  {
    var r := Spin.StepReader(RingAt(f, Other(w)));
    ReaderMoves(RingAt(f, Other(w)));
    if r.r.RIdle? {
      ReadEnds(f, w, r);
    } else {
      RingMovesBack(f, w, r);
    }
  }

  /** Each step is a part of a ring operation, or ends one and is all of it. */
  lemma StepRefines(f: Fine, w: Who)
    requires Inv(f)
    ensures Inv(Step(f, w)) && (Inside(f, Step(f, w), w) || Completes(f, Step(f, w), w))
  {
    match Want(PartyAt(f, w), Size(f))
    case Nothing =>
    case Put(data) => if RingAt(f, w).w.WIdle? { BeginsPut(f, w, data); } else { GoesOnPut(f, w, data); }
    case Take(n) => if RingAt(f, Other(w)).r.RIdle? { BeginsTake(f, w, n); } else { GoesOnTake(f, w, n); }
  }

  // ----- runs -----

  /** The ring operations that a run of small steps completes, as a run of the machine above. */
  ghost function Lifted(f: Fine, ws: seq<Who>): seq<Action>
    requires Inv(f)
    decreases |ws|
  {
    if ws == [] then []
    else
      StepRefines(f, ws[0]);
      (if Inside(f, Step(f, ws[0]), ws[0]) then [] else [Run(ws[0])]) + Lifted(Step(f, ws[0]), ws[1..])
  }

  lemma CompletedAbove(f: Fine, w: Who)
    requires Inv(f) && Completes(f, Step(f, w), w)
    ensures Abs(Step(f, w)) == Apply(Abs(f), Run(w))
  {
    assert Get(Abs(f), w) == PartyAt(f, w);
    assert Engaged(f, w);
  }

  /** Refinement over whole runs. */
  lemma {:induction false} RunRefines(f: Fine, ws: seq<Who>)
    requires Inv(f)
    ensures Inv(RunSmall(f, ws))
    ensures Abs(RunSmall(f, ws)) == Exec(Abs(f), Lifted(f, ws))
    decreases |ws|
  {
    if ws != [] {
      var t := Step(f, ws[0]);
      StepRefines(f, ws[0]);
      RunRefines(t, ws[1..]);
      if Inside(f, t, ws[0]) {
        assert [] + Lifted(t, ws[1..]) == Lifted(t, ws[1..]);
      } else {
        CompletedAbove(f, ws[0]);
        assert ([Run(ws[0])] + Lifted(t, ws[1..]))[1..] == Lifted(t, ws[1..]);
      }
    }
  }

  lemma StartInv(opsA: seq<Op>, opsB: seq<Op>, k: nat)
    requires RingLog(k)
    ensures Inv(StartPair(opsA, opsB, k))
    ensures Abs(StartPair(opsA, opsB, k)) == Pair(opsA, opsB, Pow2(k), false)
  {
    Spin.InitInv(k);
  }

  /**
   In spin mode, with loads and byte copies of both parties interleaved in any way, what a party
   has received is a prefix of what the other one has sent, for any calls the two make.
   */
  lemma DeliveredInSmallSteps(opsA: seq<Op>, opsB: seq<Op>, k: nat, ws: seq<Who>, w: Who)
    requires RingLog(k) && OpsOk(opsA) && OpsOk(opsB)
    ensures var f := RunSmall(StartPair(opsA, opsB, k), ws);
            PartyAt(f, Other(w)).got <= PartyAt(f, w).sent <= Bodies(if w.A? then opsA else opsB)
  {
    var f := StartPair(opsA, opsB, k);
    StartInv(opsA, opsB, k);
    RunRefines(f, ws);
    DeliveredInOrder(opsA, opsB, Pow2(k), false, Lifted(f, ws), w);
  }

  // ----- progress of mirrored scripts -----

  /** Two parties with the complementary calls of one script before them. */
  function StartScript(script: seq<Message>, k: nat): Fine {
    StartPair(Program(A, script), Program(B, script), k).(script := script)
  }

  /** Every ring operation left, at more steps than one can take. */
  function Work(f: Fine, w: Who): int
    requires Size(f) > 0
  {
    (|Plan(f.script, Size(f))| - PartyAt(f, w).done) * (Size(f) + 4) - Progress(f, w)
  }

  function Measure(f: Fine): int
    requires Size(f) > 0
  {
    Work(f, A) + Work(f, B)
  }

  lemma WRankBounded(r: Spin.Spin)
    requires Spin.Inv(r)
    ensures WRank(r.w) <= Pow2(r.k) + 3
  {
  }

  lemma RRankBounded(r: Spin.Spin)
    requires Spin.Inv(r)
    ensures RRank(r.r) <= Pow2(r.k) + 3
  {
  }

  /** No ring operation takes more than `size + 3` steps, and a party is in one at a time. */
  lemma ProgressBounded(f: Fine, w: Who)
    requires Inv(f)
    ensures Progress(f, w) <= Size(f) + 3
    ensures Want(PartyAt(f, w), Size(f)).Nothing? ==> Progress(f, w) == 0
  {
    WRankBounded(RingAt(f, w));
    RRankBounded(RingAt(f, Other(w)));
    assert Engaged(f, w);
  }

  lemma DoneBounded(f: Fine, w: Who)
    requires Core(Abs(f))
    ensures 0 <= PartyAt(f, w).done <= |Plan(f.script, Size(f))|
    ensures PartyAt(f, w).done == |Plan(f.script, Size(f))| ==> Want(PartyAt(f, w), Size(f)).Nothing?
  {
    SeenFrom(Abs(f), w);
    assert Get(Abs(f), w) == PartyAt(f, w);
    NextPiece(PartyAt(f, w), w, f.script, Size(f));
  }

  lemma EnoughLeft(left: nat, c: nat, spent: nat)
    requires spent <= c && (left == 0 ==> spent == 0)
    ensures left * c - spent >= 0
  {
    if left > 0 {
      assert left * c == (left - 1) * c + c;
    }
  }

  lemma WorkPositive(f: Fine, w: Who)
    requires Inv(f) && Core(Abs(f)) && Size(f) > 0
    ensures Work(f, w) >= 0
  {
    ProgressBounded(f, w);
    DoneBounded(f, w);
    EnoughLeft(|Plan(f.script, Size(f))| - PartyAt(f, w).done, Size(f) + 4, Progress(f, w));
  }

  lemma MeasureFrom(f: Fine, w: Who)
    requires Size(f) > 0
    ensures Measure(f) == Work(f, w) + Work(f, Other(w))
  {
  }

  lemma SizeSame(f: Fine, t: Fine)
    requires Abs(t).size == Abs(f).size
    ensures Size(t) == Size(f)
  {
  }

  lemma InsideDecreases(f: Fine, t: Fine, w: Who)
    requires Size(f) > 0 && Inside(f, t, w)
    ensures Size(t) == Size(f) && ((t == f && !Guard(Abs(f), w)) || Measure(t) < Measure(f))
  {
    SizeSame(f, t);
    SameAbove(f, t, w);
    MeasureFrom(f, w);
    MeasureFrom(t, w);
  }

  lemma CompletionDecreases(f: Fine, t: Fine, w: Who)
    requires Inv(f) && Core(Abs(f)) && Size(f) > 0 && Completes(f, t, w)
    ensures Size(t) == Size(f) && Core(Abs(t)) && Measure(t) < Measure(f)
  {
    PerformKeeps(Abs(f), w, Ready);
    SizeSame(f, t);
    ProgressBounded(f, w);
    DoneMore(f, t, w);
    MeasureFrom(f, w);
    MeasureFrom(t, w);
  }

  /** Every small step leaves the state alone or brings the end nearer. */
  lemma StepDecreases(f: Fine, w: Who)
    requires Inv(f) && Core(Abs(f)) && Size(f) > 0
    ensures var t := Step(f, w);
            && Inv(t) && Core(Abs(t)) && Size(t) > 0
            && ((t == f && !Guard(Abs(f), w)) || Measure(t) < Measure(f))
  {
    StepRefines(f, w);
    if Inside(f, Step(f, w), w) {
      InsideDecreases(f, Step(f, w), w);
    } else {
      CompletionDecreases(f, Step(f, w), w);
    }
  }

  lemma SameAbove(f: Fine, t: Fine, w: Who)
    requires Abs(t) == Abs(f)
    ensures PartyAt(t, w) == PartyAt(f, w) && PartyAt(t, Other(w)) == PartyAt(f, Other(w)) && t.script == f.script
  {
    assert PartyAt(t, A) == Abs(t).a && PartyAt(t, B) == Abs(t).b;
  }

  lemma DoneMore(f: Fine, t: Fine, w: Who)
    requires Size(f) > 0 && Size(t) == Size(f) && Progress(f, w) <= Size(f) + 3
    requires Completes(f, t, w) && PerformedBy(Abs(f), Abs(t), w, Ready)
    ensures Work(t, w) < Work(f, w) && Work(t, Other(w)) == Work(f, Other(w))
  {
    assert Get(Abs(t), w) == PartyAt(t, w) && Get(Abs(f), w) == PartyAt(f, w);
    assert Get(Abs(t), Other(w)) == PartyAt(t, Other(w)) && Get(Abs(f), Other(w)) == PartyAt(f, Other(w));
    var left, c := |Plan(f.script, Size(f))| - PartyAt(f, w).done, Size(f) + 4;
    assert (left - 1) * c == left * c - c;
  }

  lemma {:induction false} ReachedInSmallSteps(f: Fine, ws: seq<Who>)
    requires Inv(f) && Core(Abs(f)) && Size(f) > 0
    ensures var t := RunSmall(f, ws); Inv(t) && Core(Abs(t)) && Size(t) > 0
    decreases |ws|
  {
    if ws != [] {
      StepDecreases(f, ws[0]);
      ReachedInSmallSteps(Step(f, ws[0]), ws[1..]);
    }
  }

  lemma ScriptStart(script: seq<Message>, k: nat)
    requires ScriptOk(script) && RingLog(k)
    ensures var f := StartScript(script, k); Inv(f) && Core(Abs(f)) && Size(f) > 0
  {
    RingSizes(k);
    StartInv(Program(A, script), Program(B, script), k);
    Script.InitInv(script, Pow2(k), false);
    var f := StartScript(script, k);
    assert Abs(f) == Init(script, Pow2(k), false);
    assert Engaged(f, A) && Engaged(f, B);
  }

  /** Both parties have made all their calls. */
  predicate Finished(f: Fine) {
    f.a.todo == [] && f.b.todo == []
  }

  /**
   Progress in spin mode at the granularity of loads and byte copies: in every reachable state
   that is not the end, some party has a small step, and it brings the end nearer.
   */
  lemma SmallStepsProgress(script: seq<Message>, k: nat, ws: seq<Who>) returns (w: Who)
    requires ScriptOk(script) && RingLog(k)
    ensures var f := RunSmall(StartScript(script, k), ws);
            var t := Step(f, w);
            Size(f) > 0 && Size(t) > 0 && (Finished(f) || 0 <= Measure(t) < Measure(f))
  {
    ScriptStart(script, k);
    ReachedInSmallSteps(StartScript(script, k), ws);
    var f := RunSmall(StartScript(script, k), ws);
    w := A;
    if !Finished(f) {
      w := Script.SomeoneCan(Abs(f));
    }
    StepDecreases(f, w);
    WorkPositive(Step(f, w), A);
    WorkPositive(Step(f, w), B);
  }

  /** Every step of the run changes something; polls that find their guard false do not. */
  ghost predicate Busy(f: Fine, ws: seq<Who>)
    decreases |ws|
  {
    ws == [] || (Step(f, ws[0]) != f && Busy(Step(f, ws[0]), ws[1..]))
  }

  /** No schedule makes the parties take more small steps than the measure says. */
  lemma {:induction false} SmallStepsEnd(f: Fine, ws: seq<Who>)
    requires Inv(f) && Core(Abs(f)) && Size(f) > 0 && Busy(f, ws)
    ensures |ws| <= Measure(f)
    decreases |ws|
  {
    WorkPositive(f, A);
    WorkPositive(f, B);
    if ws != [] {
      StepDecreases(f, ws[0]);
      SmallStepsEnd(Step(f, ws[0]), ws[1..]);
    }
  }
}
