/**
 `real_send` gives up on a message after 120 attempts: it throws, or returns as if it had
 sent when the last reconnect succeeded.  The sequence number stays free for the next
 message while a failed `Write` may still be delivered under it.
 */
module GivingUp {
  import opened Bytes
  import opened Protocol
  import opened ProtocolInvariant
  import opened ExactlyOnce

  ghost predicate SameCopies(s: State, t: State) {
    (CopyLeft(s) <==> CopyLeft(t)) && s.left == t.left
  }

  /** Nothing more is given up. */
  predicate Sticking(acts: seq<Action>) {
    forall a :: a in acts ==> !a.GiveUp?
  }

  /** Whatever the application does next, short of giving up again, the receiver gets it in order. */
  ghost predicate StaysInOrder(s: State) {
    s.streams != [] && forall acts :: Sticking(acts) ==> InOrder(Exec(s, acts))
  }

  // ----- reachable states -----

  ghost predicate Reached(s: State) {
    exists acts :: Exec(Init, acts) == s
  }

  lemma ReachedInv(s: State)
    requires Reached(s)
    ensures Inv(s)
  {
    var acts :| Exec(Init, acts) == s;
    InitInv();
    RunKeeps(Init, acts);
  }

  lemma ReachedInit()
    ensures Reached(Init)
  {
    assert Exec(Init, []) == Init;
  }

  lemma ReachedStep(s: State, a: Action)
    requires Reached(s)
    ensures s.streams != [] && Reached(Apply(s, a)) && Leads(s, Apply(s, a))
  {
    var acts :| Exec(Init, acts) == s;
    ExecAppend(Init, acts, [a]);
    assert Exec(s, [a]) == Exec(Apply(s, a), []);
    LeadsStep(s, a);
  }

  // ----- giving up with care -----

  /** No message is given up while a copy of it is on some stream. */
  predicate Careful(s: State, acts: seq<Action>)
    requires s.streams != []
    decreases |acts|
  {
    acts == []
    || ((acts[0].GiveUp? && s.app.Idle? && s.current.Some? ==> !CopyLeft(s))
        && Careful(Apply(s, acts[0]), acts[1..]))
  }

  lemma OnlyGiveUpLeaves(s: State, a: Action)
    requires s.streams != []
    ensures s.left <= Apply(s, a).left
    ensures !a.GiveUp? ==> Apply(s, a).left == s.left
  {
  }

  lemma {:induction false} LeftGrows(s: State, acts: seq<Action>)
    requires s.streams != []
    ensures s.left <= Exec(s, acts).left
    ensures Sticking(acts) ==> Exec(s, acts).left == s.left
    decreases |acts|
  {
    if acts != [] {
      OnlyGiveUpLeaves(s, acts[0]);
      LeftGrows(Apply(s, acts[0]), acts[1..]);
      assert acts[0] in acts;
    }
  }

  /** `left` is empty after a run exactly when the run gave nothing up without care. */
  lemma {:induction false} CarefulIff(s: State, acts: seq<Action>)
    requires s.streams != [] && s.left == {}
    ensures Exec(s, acts).left == {} <==> Careful(s, acts)
    decreases |acts|
  {
    if acts != [] {
      var t := Apply(s, acts[0]);
      OnlyGiveUpLeaves(s, acts[0]);
      LeftGrows(t, acts[1..]);
      if t.left == {} {
        CarefulIff(t, acts[1..]);
      }
      if acts[0].GiveUp? && s.app.Idle? && s.current.Some? && CopyLeft(s) {
        assert Packet(s.next, s.current.value) in t.left;
      }
    }
  }

  /** Exactly once, in order, over every run that gives messages up only with care. */
  lemma ExactlyOnceWithCare(acts: seq<Action>)
    requires Careful(Init, acts)
    ensures InOrder(Exec(Init, acts))
  {
    CarefulIff(Init, acts);
    ExactlyOnceInOrder(acts);
  }

  // ----- with a copy, some run loses the next message -----

  /** The server and the receiver do not look at what the application has in hand. */
  lemma {:induction false} CurrentUnseen(s: State, acts: seq<Action>, c: Option<Payload>, l: set<Packet>)
    requires s.streams != [] && ServerOrReceiver(acts)
    ensures Exec(s.(current := c, left := l), acts) == Exec(s, acts).(current := c, left := l)
    decreases |acts|
  {
    if acts != [] {
      assert acts[0] in acts;
      assert Apply(s.(current := c, left := l), acts[0]) == Apply(s, acts[0]).(current := c, left := l);
      forall a | a in acts[1..] ensures a.Push? || a.Pop? {
        assert a in acts;
      }
      CurrentUnseen(Apply(s, acts[0]), acts[1..], c, l);
    }
  }

  /** The server and the receiver bring the copy through. */
  lemma CopyComesThrough(s: State) returns (drain: seq<Action>, v: State)
    requires Inv(s) && s.current.Some? && CopyLeft(s) && s.left == {}
    ensures v == Exec(s, drain) && ServerOrReceiver(drain)
    ensures v.got == s.accepted + [s.current.value] && v.accepted == s.accepted && v.next == s.next
  {
    CopyLeftIs(s);
    var i :| 0 <= i < |s.streams| && s.streams[i].base + |s.streams[i].wire| > s.next;
    assert StreamOk(s.streams[i], s, PushedUpTo(s));
    var pushes, u := PushAll(s, i);
    var pops;
    pops, v := PopAll(u);
    ExecAppend(s, pushes, pops);
    drain := pushes + pops;
    StandingIsPrefix(v.got, Log(v));
    assert |v.got| == |Log(v)|;
  }

  /** After the application moves on to `other`, the receiver is handed the dropped message in its place. */
  lemma DroppedMessageReappears(s: State, other: Payload) returns (acts: seq<Action>)
    requires Inv(s) && s.app.Idle? && s.current.Some? && CopyLeft(s) && s.left == {} && other != s.current.value
    ensures Sticking(acts)
    ensures var t := Exec(Apply(s, GiveUp), acts);
            && t.current == Some(other) && t.accepted == s.accepted
            && t.got == s.accepted + [s.current.value]
            && !InOrder(t)
  {
    var start := Apply(s, GiveUp);
    var drain, v := CopyComesThrough(s);
    CurrentUnseen(s, drain, Some(other), start.left);
    acts := [Submit(other)] + drain;
    assert Apply(start, Submit(other)) == s.(current := Some(other), left := start.left);
    assert acts[1..] == drain;
    var t := Exec(start, acts);
    assert t == v.(current := Some(other), left := start.left);
    assert t.got[s.next] == s.current.value && Log(t)[s.next] == other;
  }

  // ----- the main theorem -----

  /**
   Main theorem on giving up.  In every reachable state, also after earlier messages were given
   up with care, the channel may be used for another message exactly when no stream was left
   with a copy of the one given up now.
   */
  lemma GivingUpIsSafeIff(s: State)
    requires Reached(s) && s.app.Idle? && s.current.Some? && s.left == {}
    ensures StaysInOrder(Apply(s, GiveUp)) <==> !CopyLeft(s)
  {
    ReachedInv(s);
    var t := Apply(s, GiveUp);
    if CopyLeft(s) {
      var bad := DroppedMessageReappears(s, s.current.value + [0]);
      assert !InOrder(Exec(t, bad));
    } else {
      StepKeeps(s, GiveUp);
      forall more | Sticking(more) ensures InOrder(Exec(t, more)) {
        RunKeeps(t, more);
        LeftGrows(t, more);
        StandingIsPrefix(Exec(t, more).got, Log(Exec(t, more)));
      }
    }
  }

  // ----- when a copy is left -----

  /** No `Write` on the live stream has returned false yet. */
  predicate Accepting(s: State) {
    s.streams != [] && Live(s).writable
  }

  /** `a` is a `Write` of the message in hand and the first on its stream to return false. */
  predicate FirstFailure(s: State, a: Action)
    requires s.streams != []
  {
    a.WriteFail? && Apply(s, a) != s
  }

  lemma {:induction false} FurthestSame(xs: seq<Stream>, ys: seq<Stream>)
    requires |xs| == |ys|
    requires forall i :: 0 <= i < |xs| ==> xs[i].base == ys[i].base && |xs[i].wire| == |ys[i].wire|
    ensures Furthest(xs) == Furthest(ys)
    decreases |xs|
  {
    if xs != [] {
      FurthestSame(xs[..|xs| - 1], ys[..|ys| - 1]);
    }
  }

  lemma CopiesSame(s: State, t: State)
    requires s.next == t.next && |s.streams| == |t.streams|
    requires forall i :: 0 <= i < |s.streams| ==>
               s.streams[i].base == t.streams[i].base && |s.streams[i].wire| == |t.streams[i].wire|
    ensures CopyLeft(s) <==> CopyLeft(t)
  {
    FurthestSame(s.streams, t.streams);
  }

  /** Between messages a copy under the next number can only be of one given up under it. */
  lemma CopyBetweenMessages(s: State)
    requires Inv(s) && s.current.None? && CopyLeft(s)
    ensures exists body :: Packet(s.next, body) in s.left
  {
    CopyLeftIs(s);
    var i :| 0 <= i < |s.streams| && s.streams[i].base + |s.streams[i].wire| > s.next;
    var st := s.streams[i];
    assert StreamOk(st, s, PushedUpTo(s));
    var p := st.wire[|st.wire| - 1];
    assert Stands(p, Log(s), s.left) && p.num == s.next;
    assert p == Packet(s.next, p.body);
  }

  /** A stream one longer, or one more stream, that stays below the next number. */
  lemma CopiesBelow(s: State, t: State, last: nat)
    requires 0 <= s.next == t.next && last < |t.streams| && last <= |s.streams| <= last + 1
    requires t.streams[..last] == s.streams[..last] && |t.streams| == last + 1
    requires t.streams[last].base + |t.streams[last].wire| <= t.next
    requires last < |s.streams| ==> s.streams[last].base + |s.streams[last].wire| <= s.next
    ensures CopyLeft(s) <==> CopyLeft(t)
  {
    assert s.streams[..|s.streams|] == s.streams;
  }

  lemma ResendLeavesNoCopy(s: State, a: Action)
    requires Inv(s) && (a.ResendOk? || a.ResendFail?)
    ensures CopyLeft(Apply(s, a)) <==> CopyLeft(s)
  {
    if Apply(s, a) != s {
      assert Live(s).base + |Live(s).wire| < s.next;
      CopiesBelow(s, Apply(s, a), |s.streams| - 1);
    }
  }

  lemma HandoverLeavesNoCopy(s: State)
    requires Inv(s)
    ensures CopyLeft(Apply(s, Handover)) <==> CopyLeft(s)
  {
    if Apply(s, Handover) != s {
      CopiesBelow(s, Apply(s, Handover), |s.streams|);
    }
  }

  /** No step but a write inside `Send` has to do with copies. */
  lemma OthersLeaveCopies(s: State, a: Action)
    requires Inv(s) && !a.WriteOk? && !a.WriteFail?
    ensures CopyLeft(Apply(s, a)) <==> CopyLeft(s)
  {
    if a.ResendOk? || a.ResendFail? {
      ResendLeavesNoCopy(s, a);
    } else if a.Handover? {
      HandoverLeavesNoCopy(s);
    } else {
      WiresStay(s, a);
      CopiesSame(s, Apply(s, a));
    }
  }

  lemma WiresStay(s: State, a: Action)
    requires s.streams != []
    requires !a.WriteOk? && !a.WriteFail? && !a.ResendOk? && !a.ResendFail? && !a.Handover?
    ensures var t := Apply(s, a);
            && s.next == t.next && |s.streams| == |t.streams|
            && (forall i :: 0 <= i < |s.streams| ==>
                  s.streams[i].base == t.streams[i].base && s.streams[i].wire == t.streams[i].wire)
  {
  }

  /** The write that leaves a copy: one that fails on a stream no write has failed on before. */
  lemma FailureLeavesCopy(s: State)
    requires Inv(s)
    ensures CopyLeft(Apply(s, WriteFail)) <==> CopyLeft(s) || FirstFailure(s, WriteFail)
  {
    var t := Apply(s, WriteFail);
    CopyLeftIs(t);
    if t != s {
      var last := |s.streams| - 1;
      assert Live(t).base + |Live(t).wire| > t.next;
      assert t.streams[last].base + |t.streams[last].wire| > t.next;
    }
  }

  /** Some step of the run was such a failure. */
  predicate SomeFirstFailure(s: State, acts: seq<Action>)
    requires s.streams != []
    decreases |acts|
  {
    acts != [] && (FirstFailure(s, acts[0]) || SomeFirstFailure(Apply(s, acts[0]), acts[1..]))
  }

  lemma {:induction false} AcceptedGrows(s: State, acts: seq<Action>)
    requires s.streams != []
    ensures s.accepted <= Exec(s, acts).accepted
    decreases |acts|
  {
    if acts != [] {
      AcceptedGrows(Apply(s, acts[0]), acts[1..]);
    }
  }

  /** While the message in hand is kept, only such a failure makes a copy appear. */
  lemma CopyLeftStep(s: State, a: Action)
    requires Inv(s) && s.current.Some? && !a.GiveUp? && Apply(s, a).accepted == s.accepted
    ensures Inv(Apply(s, a)) && Apply(s, a).current == s.current
    ensures CopyLeft(Apply(s, a)) <==> CopyLeft(s) || FirstFailure(s, a)
  {
    StepKeeps(s, a);
    InHandStays(s, a);
    if a.WriteFail? {
      FailureLeavesCopy(s);
    } else if !a.WriteOk? {
      OthersLeaveCopies(s, a);
    }
  }

  lemma InHandStays(s: State, a: Action)
    requires s.streams != [] && s.current.Some? && !a.GiveUp? && Apply(s, a).accepted == s.accepted
    ensures Apply(s, a).current == s.current && (a.WriteOk? ==> Apply(s, a) == s)
  {
  }

  lemma {:induction false} CopyLeftAlong(s: State, acts: seq<Action>)
    requires Inv(s) && s.current.Some? && Sticking(acts) && Exec(s, acts).accepted == s.accepted
    ensures CopyLeft(Exec(s, acts)) <==> CopyLeft(s) || SomeFirstFailure(s, acts)
    ensures Exec(s, acts).current == s.current
    decreases |acts|
  {
    if acts != [] {
      var t := Apply(s, acts[0]);
      assert acts[0] in acts;
      AcceptedGrows(t, acts[1..]);
      assert |t.accepted| <= |s.accepted|;
      CopyLeftStep(s, acts[0]);
      CopyLeftAlong(t, acts[1..]);
    }
  }

  /**
   What the condition of `GivingUpIsSafeIff` comes to for the sender.  From the moment it takes up
   a message, and as long as it keeps it and it is not accepted, a copy is left exactly when one of
   its attempts made a `Write` that was the first on its stream to return false, or when one was
   left under this number by a message given up before.
   */
  lemma CopyLeftIff(s: State, content: Payload, acts: seq<Action>)
    requires Reached(s) && s.streams != [] && Apply(s, Submit(content)) != s
    requires Sticking(acts) && Exec(Apply(s, Submit(content)), acts).accepted == s.accepted
    ensures var t := Apply(s, Submit(content));
            && Exec(t, acts).current == Some(content)
            && (CopyLeft(Exec(t, acts)) <==> CopyLeft(s) || SomeFirstFailure(t, acts))
    ensures CopyLeft(s) ==> exists body :: Packet(s.next, body) in s.left
  {
    ReachedInv(s);
    var t := Apply(s, Submit(content));
    StepKeeps(s, Submit(content));
    CopiesSame(s, t);
    CopyLeftAlong(t, acts);
    if CopyLeft(s) {
      CopyBetweenMessages(s);
    }
  }

  /** A concrete case: the first message's only write fails, and the channel is used for a second one. */
  lemma LostMessageExample() returns (acts: seq<Action>)
    ensures Sticking(acts)
    ensures var s := Exec(Init, [Submit([1]), Start, WriteFail]);
            var t := Exec(Apply(s, GiveUp), acts);
            s.current == Some([1]) && t.current == Some([2]) && t.accepted == [] && t.got == [[1]]
  {
    var run := [Submit([1]), Start, WriteFail];
    var s1 := Apply(Init, run[0]);
    var s2 := Apply(s1, run[1]);
    var s3 := Apply(s2, run[2]);
    assert run[1..] == [Start, WriteFail] && run[1..][1..] == [WriteFail] && [WriteFail][1..] == [];
    assert Exec(s3, []) == s3;
    assert Exec(Init, run) == s3;
    assert Live(s2) == FreshStream && |Live(s3).wire| == 1;
    InitInv();
    RunKeeps(Init, run);
    CopyLeftIs(s3);
    assert s3.streams[0].base + |s3.streams[0].wire| > s3.next;
    acts := DroppedMessageReappears(s3, [2]);
  }
}
