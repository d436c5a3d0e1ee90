/** Mirrored scripts deliver every message in order, never block for ever, and come to an end. */
module MirrorProgress {
  import opened Bytes
  import opened Framing
  import opened Mirror
  import opened TwoParties

  // ----- one party against the plan -----

  lemma TagFirst(w: Who, body: Payload, size: nat)
    requires size > 0 && body != []
    ensures var n := Min(|body|, size);
            Tag(w, Pieces(body, size)) == [Piece(w, body[..n])] + Tag(w, Pieces(body[n..], size))
  {
    var n := Min(|body|, size);
    var ps := Pieces(body, size);
    assert ps[0] == body[..n] && ps[1..] == Pieces(body[n..], size);
  }

  /** The request a party makes from its own state is the next piece of the plan. */
  lemma WantsNextPiece(p: Party, w: Who, script: seq<Message>, size: nat)
    requires Follows(p, w, script) && ScriptOk(script) && script != [] && 8 <= size < U32
    ensures var rest := Rest(p.phase, script, size);
            && rest != [] && 0 < |rest[0].data| <= size
            && Want(p, size) == if rest[0].from == w then Put(rest[0].data) else Take(|rest[0].data|)
  {
    var m := script[0];
    assert m in script;
    if p.phase.Sending? {
      TagFirst(m.from, p.phase.left, size);
    } else if p.phase.Receiving? {
      TagFirst(m.from, m.body[|p.phase.acc|..], size);
    }
  }

  /** `q` is `p` one piece further: inside the same message, or done with it. */
  ghost predicate OnePieceOn(p: Party, q: Party, w: Who, script: seq<Message>, size: nat)
    requires size > 0 && script != []
  {
    var m := script[0];
    && q.done == p.done + 1 && q.pc == p.pc && Rest(p.phase, script, size) != []
    && if q.phase.Begin? then
         && q.todo == Program(w, script[1..])
         && Plan(script[1..], size) == Rest(p.phase, script, size)[1..]
         && q.sent == p.sent + (if m.from == w then [m.body] else [])
         && q.got == p.got + (if m.from == w then [] else [m.body])
       else
         && Follows(q, w, script)
         && Rest(q.phase, script, size) == Rest(p.phase, script, size)[1..]
         && q.sent == p.sent && q.got == p.got
  }

  /** A header announces the length its receiver will read. */
  lemma HeaderRead(body: Payload)
    requires |body| < U32
    ensures FromLE32(LE32(Wrap(|body|))) == |body|
  {
    var w: u32 := |body|;
    ModUnique(w, U32, 0, w);
    LE32RoundTrip(w, []);
    assert LE32(w) + [] == LE32(w);
  }

  lemma HeaderAdvances(p: Party, w: Who, script: seq<Message>, size: nat)
    requires Follows(p, w, script) && ScriptOk(script) && script != [] && 8 <= size < U32 && p.phase.Begin?
    ensures OnePieceOn(p, Advance(p, Rest(p.phase, script, size)[0].data), w, script, size)
  {
    var m := script[0];
    assert m in script;
    HeaderRead(m.body);
    var q := Advance(p, LE32(Wrap(|m.body|)));
    var body := Tag(m.from, Pieces(m.body, size));
    assert Rest(p.phase, script, size) == [Piece(m.from, LE32(Wrap(|m.body|)))] + (body + Plan(script[1..], size));
    if m.body == [] {
      assert body + Plan(script[1..], size) == Plan(script[1..], size);
    } else {
      assert q.phase == if m.from == w then Sending(m.body) else Receiving(|m.body|, []);
      assert m.body[0..] == m.body && m.body[..0] == [];
    }
  }

  lemma BodyWriteAdvances(p: Party, w: Who, script: seq<Message>, size: nat)
    requires Follows(p, w, script) && ScriptOk(script) && script != [] && 8 <= size < U32 && p.phase.Sending?
    ensures OnePieceOn(p, Advance(p, Rest(p.phase, script, size)[0].data), w, script, size)
  {
    var left := p.phase.left;
    var n := Min(|left|, size);
    TagFirst(w, left, size);
    assert Rest(p.phase, script, size)[0] == Piece(w, left[..n]);
    assert Rest(p.phase, script, size)[1..] == Tag(w, Pieces(left[n..], size)) + Plan(script[1..], size);
    if n == |left| {
      assert Tag(w, Pieces(left[n..], size)) == [];
    }
  }

  /** Reading `n` more bytes of a body of which `acc` has been read. */
  lemma ReadOn(body: Payload, acc: Payload, n: nat)
    requires |acc| + n <= |body| && acc == body[..|acc|]
    ensures acc + body[|acc|..][..n] == body[..|acc| + n]
    ensures body[|acc|..][n..] == body[|acc| + n..]
    ensures |acc| + n == |body| ==> body[..|acc| + n] == body && body[|acc|..][n..] == []
  {
  }

  lemma BodyReadAdvances(p: Party, w: Who, script: seq<Message>, size: nat)
    requires Follows(p, w, script) && ScriptOk(script) && script != [] && 8 <= size < U32 && p.phase.Receiving?
    ensures Rest(p.phase, script, size) != []
    ensures OnePieceOn(p, Advance(p, Rest(p.phase, script, size)[0].data), w, script, size)
  {
    var m, acc := script[0], p.phase.acc;
    var left := m.body[|acc|..];
    var n := Min(|left|, size);
    RestSplits(p, w, script, size);
    ReadOn(m.body, acc, n);
    PieceRead(p, left[..n]);
  }

  /** The first piece of a body being read, and those after it. */
  lemma RestSplits(p: Party, w: Who, script: seq<Message>, size: nat)
    requires Follows(p, w, script) && script != [] && size > 0 && p.phase.Receiving?
    ensures var left := script[0].body[|p.phase.acc|..];
            var n := Min(|left|, size);
            && Rest(p.phase, script, size) != []
            && Rest(p.phase, script, size)[0] == Piece(script[0].from, left[..n])
            && Rest(p.phase, script, size)[1..]
               == Tag(script[0].from, Pieces(left[n..], size)) + Plan(script[1..], size)
  {
    TagFirst(script[0].from, script[0].body[|p.phase.acc|..], size);
  }

  /** A piece read takes the message further, or to its end. */
  lemma PieceRead(p: Party, data: Payload)
    requires p.todo != [] && p.todo[0].RecvOp? && p.phase.Receiving? && |data| <= p.phase.missing
    ensures var q := p.(done := p.done + 1);
            Advance(p, data) == if |data| == p.phase.missing then RecvDone(q, p.phase.acc + data)
                                else q.(phase := Receiving(p.phase.missing - |data|, p.phase.acc + data))
  {
  }

  /** After its next piece the party is further along the same message, or past it. */
  lemma Advances(p: Party, w: Who, script: seq<Message>, size: nat)
    requires Follows(p, w, script) && ScriptOk(script) && script != [] && 8 <= size < U32
    ensures Rest(p.phase, script, size) != []
    ensures OnePieceOn(p, Advance(p, Rest(p.phase, script, size)[0].data), w, script, size)
  {
    match p.phase
    case Begin => HeaderAdvances(p, w, script, size);
    case Sending(_) => BodyWriteAdvances(p, w, script, size);
    case Receiving(_, _) => BodyReadAdvances(p, w, script, size);
  }

  // ----- the two parties together -----

  /** Message `|sent| + |got|` of the script is the one party `w` is at. */
  ghost predicate PartyOk(p: Party, w: Who, script: seq<Message>, size: nat)
    requires size > 0
  {
    var idx := |p.sent| + |p.got|;
    && idx <= |script|
    && Follows(p, w, script[idx..])
    && p.sent == BodiesFrom(w, script[..idx])
    && p.got == BodiesFrom(Other(w), script[..idx])
    && p.done <= |Plan(script, size)|
    && Plan(script, size)[p.done..] == Rest(p.phase, script[idx..], size)
  }

  function DataOf(ps: seq<Piece>): Payload {
    if ps == [] then [] else ps[0].data + DataOf(ps[1..])
  }

  ghost predicate AllFrom(ps: seq<Piece>, w: Who) {
    forall i :: 0 <= i < |ps| ==> ps[i].from == w
  }

  /** When `w` is not behind, its ring holds exactly the pieces it is ahead by, and the other ring nothing. */
  ghost predicate Ahead(s: Sys, w: Who)
    requires s.size > 0
    requires Get(s, w).done <= |Plan(s.script, s.size)| && Get(s, Other(w)).done <= |Plan(s.script, s.size)|
  {
    var n, m := Get(s, w).done, Get(s, Other(w)).done;
    m <= n ==>
      && AllFrom(Plan(s.script, s.size)[m..n], w)
      && Ring(s, w) == DataOf(Plan(s.script, s.size)[m..n])
      && Ring(s, Other(w)) == []
  }

  /** The invariant, as seen from party `w`. */
  ghost predicate CoreFrom(s: Sys, w: Who) {
    && ScriptOk(s.script) && 8 <= s.size < U32
    && PartyOk(Get(s, w), w, s.script, s.size)
    && PartyOk(Get(s, Other(w)), Other(w), s.script, s.size)
    && Ahead(s, w) && Ahead(s, Other(w))
  }

  ghost predicate Core(s: Sys) {
    CoreFrom(s, A)
  }

  lemma SeenFrom(s: Sys, w: Who)
    ensures Core(s) <==> CoreFrom(s, w)
  {
  }

  lemma {:induction false} BodiesAppend(w: Who, ms: seq<Message>, m: Message)
    ensures BodiesFrom(w, ms + [m]) == BodiesFrom(w, ms) + (if m.from == w then [m.body] else [])
    decreases |ms|
  {
    if ms == [] {
      assert (ms + [m])[1..] == [];
    } else {
      assert (ms + [m])[0] == ms[0] && (ms + [m])[1..] == ms[1..] + [m];
      BodiesAppend(w, ms[1..], m);
    }
  }

  lemma {:induction false} DataAppend(ps: seq<Piece>, p: Piece)
    ensures DataOf(ps + [p]) == DataOf(ps) + p.data
    decreases |ps|
  {
    if ps == [] {
      assert (ps + [p])[1..] == [];
    } else {
      assert (ps + [p])[0] == ps[0] && (ps + [p])[1..] == ps[1..] + [p];
      DataAppend(ps[1..], p);
    }
  }

  /** A party whose script is over has nothing to do; one whose plan goes on has not finished. */
  lemma NextPiece(p: Party, w: Who, script: seq<Message>, size: nat)
    requires ScriptOk(script) && 8 <= size < U32 && PartyOk(p, w, script, size)
    ensures Want(p, size) == Nothing <==> p.done == |Plan(script, size)|
    ensures p.done < |Plan(script, size)| ==>
              var piece := Plan(script, size)[p.done];
              && 0 < |piece.data| <= size
              && Want(p, size) == if piece.from == w then Put(piece.data) else Take(|piece.data|)
  {
    var rest := script[|p.sent| + |p.got|..];
    if rest != [] {
      forall m | m in rest ensures m in script { }
      WantsNextPiece(p, w, rest, size);
      assert Plan(script, size)[p.done] == Rest(p.phase, rest, size)[0];
    }
  }

  lemma NextMessage(script: seq<Message>, idx: nat, w: Who)
    requires idx < |script|
    ensures BodiesFrom(w, script[..idx + 1])
            == BodiesFrom(w, script[..idx]) + (if script[idx].from == w then [script[idx].body] else [])
  {
    assert script[..idx + 1] == script[..idx] + [script[idx]];
    BodiesAppend(w, script[..idx], script[idx]);
  }

  lemma DropOne(plan: seq<Piece>, n: nat)
    requires n < |plan|
    ensures plan[n..][1..] == plan[n + 1..] && plan[n..][0] == plan[n]
  {
  }

  lemma BetweenMessages(p: Party, w: Who, script: seq<Message>, size: nat, idx: nat)
    requires size > 0 && p.phase.Begin? && idx == |p.sent| + |p.got| <= |script|
    requires p.todo == Program(w, script[idx..])
    requires p.sent == BodiesFrom(w, script[..idx]) && p.got == BodiesFrom(Other(w), script[..idx])
    requires p.done <= |Plan(script, size)| && Plan(script, size)[p.done..] == Plan(script[idx..], size)
    ensures PartyOk(p, w, script, size)
  {
  }

  /** Past the end of a message the histories grow by it. */
  lemma HistoriesGrow(p: Party, q: Party, w: Who, script: seq<Message>)
    requires |p.sent| + |p.got| < |script|
    requires p.sent == BodiesFrom(w, script[..|p.sent| + |p.got|])
    requires p.got == BodiesFrom(Other(w), script[..|p.sent| + |p.got|])
    requires var m := script[|p.sent| + |p.got|];
             && q.sent == p.sent + (if m.from == w then [m.body] else [])
             && q.got == p.got + (if m.from == w then [] else [m.body])
    ensures var idx := |p.sent| + |p.got| + 1;
            && |q.sent| + |q.got| == idx
            && q.sent == BodiesFrom(w, script[..idx]) && q.got == BodiesFrom(Other(w), script[..idx])
  {
    NextMessage(script, |p.sent| + |p.got|, w);
    NextMessage(script, |p.sent| + |p.got|, Other(w));
  }

  lemma MessageDone(p: Party, q: Party, w: Who, script: seq<Message>, size: nat)
    requires size > 0 && PartyOk(p, w, script, size) && p.done < |Plan(script, size)|
    requires |p.sent| + |p.got| < |script| && q.phase.Begin?
    requires OnePieceOn(p, q, w, script[|p.sent| + |p.got|..], size)
    ensures PartyOk(q, w, script, size)
  {
    var idx := |p.sent| + |p.got|;
    assert script[idx..][0] == script[idx] && script[idx..][1..] == script[idx + 1..];
    HistoriesGrow(p, q, w, script);
    DropOne(Plan(script, size), p.done);
    BetweenMessages(q, w, script, size, idx + 1);
  }

  lemma MessageGoesOn(p: Party, q: Party, w: Who, script: seq<Message>, size: nat)
    requires size > 0 && PartyOk(p, w, script, size) && p.done < |Plan(script, size)|
    requires |p.sent| + |p.got| < |script| && !q.phase.Begin?
    requires OnePieceOn(p, q, w, script[|p.sent| + |p.got|..], size)
    ensures PartyOk(q, w, script, size)
  {
    DropOne(Plan(script, size), p.done);
  }

  /** Where a party stands does not depend on its locks. */
  lemma PcIrrelevant(p: Party, w: Who, script: seq<Message>, size: nat, pc: Pc)
    requires size > 0 && PartyOk(p, w, script, size)
    ensures PartyOk(p.(pc := pc), w, script, size)
  {
  }

  /** A party that performs its next piece stays on the script. */
  lemma PartyAdvances(p: Party, w: Who, script: seq<Message>, size: nat, pc: Pc)
    requires ScriptOk(script) && 8 <= size < U32 && PartyOk(p, w, script, size) && p.done < |Plan(script, size)|
    ensures PartyOk(Advance(p, Plan(script, size)[p.done].data).(pc := pc), w, script, size)
    ensures Advance(p, Plan(script, size)[p.done].data).done == p.done + 1
  {
    var rest := script[|p.sent| + |p.got|..];
    var plan := Plan(script, size);
    forall m | m in rest ensures m in script { }
    assert plan[p.done..][0] == plan[p.done];
    Advances(p, w, rest, size);
    var q := Advance(p, plan[p.done].data);
    if q.phase.Begin? {
      MessageDone(p, q, w, script, size);
    } else {
      MessageGoesOn(p, q, w, script, size);
    }
    PcIrrelevant(q, w, script, size, pc);
  }

  // ----- steps keep the invariant -----

  /** Party `w`, not behind, finds the other ring empty: its next piece is its own. */
  lemma AheadWrites(s: Sys, w: Who)
    requires CoreFrom(s, w) && Guard(s, w) && Get(s, Other(w)).done <= Get(s, w).done
    ensures var p, plan := Get(s, w), Plan(s.script, s.size);
            p.done < |plan| && plan[p.done].from == w && Want(p, s.size) == Put(plan[p.done].data)
  {
    NextPiece(Get(s, w), w, s.script, s.size);
    assert Ring(s, Other(w)) == [];
  }

  lemma SpanGrows(plan: seq<Piece>, m: nat, n: nat, w: Who)
    requires m <= n < |plan| && plan[n].from == w && AllFrom(plan[m..n], w)
    ensures AllFrom(plan[m..n + 1], w) && DataOf(plan[m..n + 1]) == DataOf(plan[m..n]) + plan[n].data
  {
    assert plan[m..n + 1] == plan[m..n] + [plan[n]];
    DataAppend(plan[m..n], plan[n]);
  }

  /** Party `w`, behind, can only be about to read: the piece it wants is whole at the front of the ring. */
  lemma BehindReads(s: Sys, w: Who)
    requires CoreFrom(s, w) && Get(s, w).done < Get(s, Other(w)).done
    ensures var p, plan := Get(s, w), Plan(s.script, s.size);
            var piece, ring := plan[p.done], Ring(s, Other(w));
            && Want(p, s.size) == Take(|piece.data|)
            && |piece.data| <= |ring| && ring[..|piece.data|] == piece.data
            && ring[|piece.data|..] == DataOf(plan[p.done + 1..Get(s, Other(w)).done])
            && AllFrom(plan[p.done + 1..Get(s, Other(w)).done], Other(w))
            && Ring(s, w) == []
  {
    var p, plan, o := Get(s, w), Plan(s.script, s.size), Other(w);
    var n := Get(s, o).done;
    assert Other(o) == w;
    NextPiece(p, w, s.script, s.size);
    var span := plan[p.done..n];
    assert span[0] == plan[p.done] && span[1..] == plan[p.done + 1..n];
    assert Ring(s, o) == plan[p.done].data + DataOf(span[1..]);
  }

  lemma PerformWrite(s: Sys, w: Who, pc: Pc)
    requires CoreFrom(s, w) && Guard(s, w) && Get(s, Other(w)).done <= Get(s, w).done
    ensures CoreFrom(Perform(s, w, pc), w)
    ensures PerformedBy(s, Perform(s, w, pc), w, pc)
  {
    AheadWrites(s, w);
    var p := Get(s, w);
    var data := Plan(s.script, s.size)[p.done].data;
    WriteEffect(s, w, pc, data);
    PartyAdvances(p, w, s.script, s.size, pc);
    PutKeeps(s, Perform(s, w, pc), w);
  }

  /** The ring grows by the piece the writer is now ahead by. */
  lemma PutAhead(s: Sys, t: Sys, w: Who)
    requires s.size > 0 && t.script == s.script && t.size == s.size
    requires Get(s, Other(w)).done <= Get(s, w).done < |Plan(s.script, s.size)| && Ahead(s, w)
    requires Plan(s.script, s.size)[Get(s, w).done].from == w
    requires Get(t, Other(w)).done == Get(s, Other(w)).done && Get(t, w).done == Get(s, w).done + 1
    requires Ring(t, Other(w)) == Ring(s, Other(w))
    requires Ring(t, w) == Ring(s, w) + Plan(s.script, s.size)[Get(s, w).done].data
    ensures Ahead(t, w) && Ahead(t, Other(w))
  {
    SpanGrows(Plan(s.script, s.size), Get(s, Other(w)).done, Get(s, w).done, w);
  }

  lemma PutKeeps(s: Sys, t: Sys, w: Who)
    requires CoreFrom(s, w) && Get(s, Other(w)).done <= Get(s, w).done < |Plan(s.script, s.size)|
    requires Plan(s.script, s.size)[Get(s, w).done].from == w
    requires t.script == s.script && t.size == s.size && Get(t, Other(w)) == Get(s, Other(w))
    requires PartyOk(Get(t, w), w, t.script, t.size) && Get(t, w).done == Get(s, w).done + 1
    requires Ring(t, Other(w)) == Ring(s, Other(w))
    requires Ring(t, w) == Ring(s, w) + Plan(s.script, s.size)[Get(s, w).done].data
    ensures CoreFrom(t, w)
  {
    PutAhead(s, t, w);
  }

  lemma PerformRead(s: Sys, w: Who, pc: Pc)
    requires CoreFrom(s, w) && Get(s, w).done < Get(s, Other(w)).done
    ensures CoreFrom(Perform(s, w, pc), w)
    ensures PerformedBy(s, Perform(s, w, pc), w, pc)
  {
    var p, plan, o := Get(s, w), Plan(s.script, s.size), Other(w);
    BehindReads(s, w);
    var data := plan[p.done].data;
    PartyAdvances(p, w, s.script, s.size, pc);
    var t := Perform(s, w, pc);
    assert Ring(t, o) == Ring(s, o)[|data|..] && Ring(t, w) == Ring(s, w) && Get(t, o) == Get(s, o);
    assert Get(t, w) == Advance(p, data).(pc := pc);
    if Get(t, w).done == Get(t, o).done {
      assert plan[Get(t, w).done..Get(t, o).done] == [];
    }
  }

  /** One ring operation further, with nothing else changed about the other party or the constants. */
  ghost predicate PerformedBy(s: Sys, t: Sys, w: Who, pc: Pc)
    requires s.size > 0
  {
    && Get(t, w).done == Get(s, w).done + 1 <= |Plan(s.script, s.size)|
    && Get(t, Other(w)) == Get(s, Other(w))
    && Get(t, w).pc == pc && t.script == s.script && t.size == s.size && t.cv == s.cv
  }

  /** A ring operation with its guard true keeps the invariant. */
  lemma PerformKeeps(s: Sys, w: Who, pc: Pc)
    requires Core(s) && Guard(s, w)
    ensures Core(Perform(s, w, pc))
    ensures PerformedBy(s, Perform(s, w, pc), w, pc)
  {
    SeenFrom(s, w);
    if Get(s, Other(w)).done <= Get(s, w).done {
      PerformWrite(s, w, pc);
    } else {
      PerformRead(s, w, pc);
    }
    SeenFrom(Perform(s, w, pc), w);
  }
}
