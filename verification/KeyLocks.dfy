/**
 The reference-counted table of per-key locks, for any number of threads and keys.  Taking
 and releasing the table's own mutex, counting, locking and unlocking an entry are steps of
 their own.  An entry is named by a number never used again, so a use of an erased one shows.
 */
module KeyLocks {
  import opened Bytes

  /** One use of a key by a thread: a thread that takes several keys at once is several of these. */
  type Tid = nat
  type Id = nat
  type Key = string

  /** The count and the mutex stored for a key. */
  datatype Entry = Entry(key: Key, count: int, holder: Option<Tid>)

  datatype Pc =
    | Outside
    | Arriving(key: Key)            // get_key_lock, before the table's mutex
    | InGet(key: Key)               // holding it
    | Counted(key: Key, id: Id)     // found or created, counted
    | Waiting(key: Key, id: Id)     // in lock() of the entry
    | Holding(key: Key, id: Id)     // get_key_lock has returned
    | Returning(key: Key, id: Id)   // free_key_lock, before the table's mutex
    | InFree(key: Key, id: Id)      // holding it
    | Unlocked(key: Key, id: Id)    // entry unlocked, not yet counted down
    | Leaving                       // counted down, perhaps erased

  datatype State = State(
    table: map<Key, Id>,
    entries: map<Id, Entry>,
    nextId: Id,
    global: Option<Tid>,            // who holds the table's mutex
    threads: map<Tid, Pc>,
    faults: nat                     // uses of an erased entry, unlocks of a lock not held; history
  )

  datatype Action = Get(t: Tid, key: Key) | Free(t: Tid) | Step(t: Tid)

  const Init := State(map[], map[], 0, None, map[], 0)

  function PcOf(s: State, t: Tid): Pc {
    if t in s.threads then s.threads[t] else Outside
  }

  function Goto(s: State, t: Tid, pc: Pc): State {
    s.(threads := s.threads[t := pc])
  }

  /** `operator[]` and the increment. */
  function Count(s: State, t: Tid, key: Key): State {
    if key in s.table && s.table[key] in s.entries then
      var id := s.table[key];
      var e := s.entries[id];
      Goto(s.(entries := s.entries[id := e.(count := e.count + 1)]), t, Counted(key, id))
    else
      var id := s.nextId;
      Goto(s.(table := s.table[key := id], entries := s.entries[id := Entry(key, 1, None)], nextId := id + 1),
           t, Counted(key, id))
  }

  /** `lock` of the entry: blocked while somebody holds it. */
  function Lock(s: State, t: Tid, key: Key, id: Id): State {
    if id !in s.entries then s.(faults := s.faults + 1)
    else if s.entries[id].holder.Some? then s
    else Goto(s.(entries := s.entries[id := s.entries[id].(holder := Some(t))]), t, Holding(key, id))
  }

  /** `find` and `unlock`. */
  function Unlock(s: State, t: Tid, key: Key): State {
    if key !in s.table || s.table[key] !in s.entries || s.entries[s.table[key]].holder != Some(t) then
      s.(faults := s.faults + 1)
    else
      var id := s.table[key];
      Goto(s.(entries := s.entries[id := s.entries[id].(holder := None)]), t, Unlocked(key, id))
  }

  /** The decrement, and the erasure at zero. */
  function Uncount(s: State, t: Tid, key: Key, id: Id): State {
    if id !in s.entries then s.(faults := s.faults + 1)
    else
      var n := s.entries[id].count - 1;
      if n == 0 then Goto(s.(table := s.table - {key}, entries := s.entries - {id}), t, Leaving)
      else Goto(s.(entries := s.entries[id := s.entries[id].(count := n)]), t, Leaving)
  }

  function Apply(s: State, a: Action): State {
    var pc := PcOf(s, a.t);
    match a
    case Get(t, key) => if pc.Outside? then Goto(s, t, Arriving(key)) else s
    case Free(t) => if pc.Holding? then Goto(s, t, Returning(pc.key, pc.id)) else s
    case Step(t) =>
      match pc
      case Outside => s
      case Arriving(key) => if s.global.None? then Goto(s.(global := Some(t)), t, InGet(key)) else s
      case InGet(key) => Count(s, t, key)
      case Counted(key, id) => Goto(s.(global := None), t, Waiting(key, id))
      case Waiting(key, id) => Lock(s, t, key, id)
      case Holding(_, _) => s
      case Returning(key, id) => if s.global.None? then Goto(s.(global := Some(t)), t, InFree(key, id)) else s
      case InFree(key, _) => Unlock(s, t, key)
      case Unlocked(key, id) => Uncount(s, t, key, id)
      case Leaving => Goto(s.(global := None), t, Outside)
  }

  function Exec(s: State, acts: seq<Action>): State
    decreases |acts|
  {
    if acts == [] then s else Exec(Apply(s, acts[0]), acts[1..])
  }

  // ----- invariant -----

  /** The entry a thread counts for: from its increment to its decrement. */
  predicate RefersTo(pc: Pc, id: Id) {
    (pc.Counted? || pc.Waiting? || pc.Holding? || pc.Returning? || pc.InFree? || pc.Unlocked?) && pc.id == id
  }

  predicate HasKey(pc: Pc) {
    pc.Holding? || pc.Returning? || pc.InFree?
  }

  predicate Holds(pc: Pc, id: Id) {
    HasKey(pc) && pc.id == id
  }

  predicate HasTable(pc: Pc) {
    pc.InGet? || pc.Counted? || pc.InFree? || pc.Unlocked? || pc.Leaving?
  }

  /** The threads that hold an entry or wait for it. */
  ghost function Users(s: State, id: Id): set<Tid> {
    set t | t in s.threads && RefersTo(s.threads[t], id)
  }

  ghost predicate EntryOk(s: State, id: Id)
    requires id in s.entries
  {
    var e := s.entries[id];
    && id < s.nextId
    && e.key in s.table && s.table[e.key] == id
    && e.count == |Users(s, id)| > 0
    && (e.holder.Some? ==> Holds(PcOf(s, e.holder.value), id))
  }

  ghost predicate ThreadOk(s: State, t: Tid) {
    var pc := PcOf(s, t);
    && (HasTable(pc) <==> s.global == Some(t))
    && (forall id :: RefersTo(pc, id) ==> id in s.entries && s.entries[id].key == pc.key)
    && (forall id :: Holds(pc, id) ==> id in s.entries && s.entries[id].holder == Some(t))
  }

  ghost predicate Inv(s: State) {
    && s.faults == 0
    && (forall id :: id in s.entries ==> EntryOk(s, id))
    && (forall key :: key in s.table ==> s.table[key] in s.entries && s.entries[s.table[key]].key == key)
    && (forall t :: ThreadOk(s, t))
  }

  lemma InitInv()
    ensures Inv(Init)
  {
  }

  /** A thread that starts or stops using an entry changes the set of its users by itself. */
  lemma UsersChange(s: State, s': State, t: Tid, pc: Pc, id: Id)
    requires s'.threads == s.threads[t := pc]
    ensures Users(s', id) == if RefersTo(pc, id) then Users(s, id) + {t} else Users(s, id) - {t}
  {
  }

  /** A move that counts for the same entry as before. */
  lemma MoveKeepsUsers(s: State, s': State, t: Tid, pc: Pc)
    requires s'.threads == s.threads[t := pc]
    requires forall id :: RefersTo(pc, id) <==> RefersTo(PcOf(s, t), id)
    ensures forall id :: Users(s', id) == Users(s, id)
  {
    forall id ensures Users(s', id) == Users(s, id) {
      UsersChange(s, s', t, pc, id);
    }
  }

  /** Taking and leaving the table's mutex, entering and returning: no entry changes. */
  lemma MoveKeeps(s: State, a: Action)
    requires Inv(s)
    requires a.Step? ==> !PcOf(s, a.t).InGet? && !PcOf(s, a.t).Waiting?
    requires a.Step? ==> !PcOf(s, a.t).InFree? && !PcOf(s, a.t).Unlocked?
    ensures Inv(Apply(s, a))
  {
    var t, s' := a.t, Apply(s, a);
    if s' != s {
      var pc := PcOf(s', t);
      assert ThreadOk(s, t);
      assert s'.threads == s.threads[t := pc] && s'.entries == s.entries;
      assert s'.table == s.table && s'.nextId == s.nextId;
      EntriesUnmoved(s, s', t, pc);
      forall u ensures ThreadOk(s', u) {
        assert ThreadOk(s, u);
      }
    }
  }

  lemma EntriesUnmoved(s: State, s': State, t: Tid, pc: Pc)
    requires Inv(s) && s'.threads == s.threads[t := pc]
    requires s'.entries == s.entries && s'.table == s.table && s'.nextId == s.nextId
    requires forall id :: RefersTo(pc, id) <==> RefersTo(PcOf(s, t), id)
    requires forall id :: Holds(pc, id) <==> Holds(PcOf(s, t), id)
    ensures forall id :: id in s'.entries ==> EntryOk(s', id)
  {
    MoveKeepsUsers(s, s', t, pc);
    forall id | id in s'.entries ensures EntryOk(s', id) {
      assert EntryOk(s, id);
    }
  }

  /** Entries nobody new refers to, seen after a step of `t`. */
  lemma OtherEntryKeeps(s: State, s': State, t: Tid, pc: Pc, id: Id)
    requires Inv(s) && id in s.entries && id in s'.entries && s'.entries[id] == s.entries[id]
    requires s'.threads == s.threads[t := pc] && s'.nextId >= s.nextId
    requires s.entries[id].key in s'.table && s'.table[s.entries[id].key] == id
    requires !RefersTo(PcOf(s, t), id) && !RefersTo(pc, id)
    ensures EntryOk(s', id)
  {
    assert EntryOk(s, id);
    UsersChange(s, s', t, pc, id);
    assert Users(s', id) == Users(s, id);
  }

  /** `operator[]` finds the entry. */
  lemma CountExistingKeeps(s: State, t: Tid)
    requires Inv(s) && PcOf(s, t).InGet? && PcOf(s, t).key in s.table
    ensures Inv(Count(s, t, PcOf(s, t).key))
  {
    var key := PcOf(s, t).key;
    var s', me := Count(s, t, key), s.table[key];
    assert ThreadOk(s, t);
    forall id | id in s'.entries ensures EntryOk(s', id) {
      if id != me {
        assert EntryOk(s, id);
        OtherEntryKeeps(s, s', t, Counted(key, me), id);
      } else {
        assert EntryOk(s, id);
        UsersChange(s, s', t, Counted(key, me), id);
        assert t !in Users(s, id);
      }
    }
    forall u ensures ThreadOk(s', u) {
      assert ThreadOk(s, u);
    }
  }

  lemma IdsBelow(s: State)
    requires Inv(s)
    ensures s.nextId !in s.entries
  {
    assert s.nextId in s.entries ==> EntryOk(s, s.nextId);
  }

  /** The new entry has one user. */
  lemma NewEntryOk(s: State, t: Tid, key: Key)
    requires Inv(s) && PcOf(s, t) == InGet(key) && key !in s.table
    ensures EntryOk(Count(s, t, key), s.nextId)
  {
    var s' := Count(s, t, key);
    IdsBelow(s);
    NobodyUses(s, s.nextId);
    UsersChange(s, s', t, Counted(key, s.nextId), s.nextId);
    assert Users(s', s.nextId) == {t};
  }

  /** The other entries stay as they are. */
  lemma OldEntriesOk(s: State, t: Tid, key: Key, id: Id)
    requires Inv(s) && PcOf(s, t) == InGet(key) && key !in s.table && id in s.entries
    ensures EntryOk(Count(s, t, key), id)
  {
    IdsBelow(s);
    assert EntryOk(s, id);
    OtherEntryKeeps(s, Count(s, t, key), t, Counted(key, s.nextId), id);
  }

  lemma NewEntryThreads(s: State, t: Tid, key: Key, u: Tid)
    requires Inv(s) && PcOf(s, t) == InGet(key) && key !in s.table
    ensures ThreadOk(Count(s, t, key), u)
  {
    IdsBelow(s);
    assert ThreadOk(s, t) && ThreadOk(s, u);
  }

  /** `operator[]` creates the entry. */
  lemma CountNewKeeps(s: State, t: Tid)
    requires Inv(s) && PcOf(s, t).InGet? && PcOf(s, t).key !in s.table
    ensures Inv(Count(s, t, PcOf(s, t).key))
  {
    var key := PcOf(s, t).key;
    var s' := Count(s, t, key);
    NewEntryOk(s, t, key);
    forall id | id in s'.entries ensures EntryOk(s', id) {
      if id != s.nextId {
        OldEntriesOk(s, t, key, id);
      }
    }
    forall u ensures ThreadOk(s', u) {
      NewEntryThreads(s, t, key, u);
    }
  }

  lemma NobodyUses(s: State, id: Id)
    requires Inv(s) && id !in s.entries
    ensures Users(s, id) == {}
  {
    forall t | t in s.threads ensures !RefersTo(s.threads[t], id) {
      assert ThreadOk(s, t);
    }
  }

  lemma LockKeeps(s: State, t: Tid)
    requires Inv(s) && PcOf(s, t).Waiting?
    ensures var pc := PcOf(s, t); Inv(Lock(s, t, pc.key, pc.id))
  {
    var pc := PcOf(s, t);
    var s' := Lock(s, t, pc.key, pc.id);
    assert ThreadOk(s, t);
    assert RefersTo(pc, pc.id);
    if s' != s {
      MoveKeepsUsers(s, s', t, PcOf(s', t));
      forall id | id in s'.entries ensures EntryOk(s', id) {
        assert EntryOk(s, id);
      }
      forall u ensures ThreadOk(s', u) {
        assert ThreadOk(s, u);
      }
    }
  }

  lemma UnlockKeeps(s: State, t: Tid)
    requires Inv(s) && PcOf(s, t).InFree?
    ensures Inv(Unlock(s, t, PcOf(s, t).key))
    ensures PcOf(Unlock(s, t, PcOf(s, t).key), t) == Unlocked(PcOf(s, t).key, PcOf(s, t).id)
  {
    var pc := PcOf(s, t);
    var s' := Unlock(s, t, pc.key);
    assert ThreadOk(s, t);
    assert RefersTo(pc, pc.id) && Holds(pc, pc.id);
    assert EntryOk(s, pc.id);
    MoveKeepsUsers(s, s', t, PcOf(s', t));
    forall id | id in s'.entries ensures EntryOk(s', id) {
      assert EntryOk(s, id);
    }
    forall u ensures ThreadOk(s', u) {
      assert ThreadOk(s, u);
    }
  }

  /** The decrement takes its thread out of the users. */
  lemma UserLeaves(s: State, t: Tid)
    requires Inv(s) && PcOf(s, t).Unlocked?
    ensures var pc := PcOf(s, t);
            var s' := Uncount(s, t, pc.key, pc.id);
            && pc.id in s.entries && EntryOk(s, pc.id) && s.entries[pc.id].key == pc.key
            && s'.threads == s.threads[t := Leaving] && s'.faults == s.faults
            && Users(s', pc.id) == Users(s, pc.id) - {t}
            && |Users(s', pc.id)| == s.entries[pc.id].count - 1
  {
    var pc := PcOf(s, t);
    assert ThreadOk(s, t);
    assert RefersTo(pc, pc.id);
    assert EntryOk(s, pc.id);
    assert t in Users(s, pc.id);
    UsersChange(s, Uncount(s, t, pc.key, pc.id), t, Leaving, pc.id);
  }

  /** Others still use the entry. */
  lemma CountDownKeeps(s: State, t: Tid)
    requires Inv(s) && PcOf(s, t).Unlocked?
    requires PcOf(s, t).id in s.entries && s.entries[PcOf(s, t).id].count != 1
    ensures var pc := PcOf(s, t); Inv(Uncount(s, t, pc.key, pc.id))
  {
    var pc := PcOf(s, t);
    var s' := Uncount(s, t, pc.key, pc.id);
    UserLeaves(s, t);
    assert ThreadOk(s, t);
    forall id | id in s'.entries ensures EntryOk(s', id) {
      assert EntryOk(s, id);
      if id != pc.id {
        OtherEntryKeeps(s, s', t, Leaving, id);
      }
    }
    forall u ensures ThreadOk(s', u) {
      assert ThreadOk(s, u);
    }
  }

  /** Nobody else uses the entry: it can go. */
  lemma EraseKeeps(s: State, t: Tid)
    requires Inv(s) && PcOf(s, t).Unlocked?
    requires PcOf(s, t).id in s.entries && s.entries[PcOf(s, t).id].count == 1
    ensures var pc := PcOf(s, t); Inv(Uncount(s, t, pc.key, pc.id))
  {
    var pc := PcOf(s, t);
    var s' := Uncount(s, t, pc.key, pc.id);
    var gone := pc.id;
    UserLeaves(s, t);
    assert ThreadOk(s, t);
    assert Users(s', gone) == {};
    forall id | id in s'.entries ensures EntryOk(s', id) {
      assert EntryOk(s, id);
      OtherEntryKeeps(s, s', t, Leaving, id);
    }
    forall u ensures ThreadOk(s', u) {
      assert ThreadOk(s, u);
      assert u != t && RefersTo(PcOf(s, u), gone) ==> u in Users(s', gone);
    }
  }

  lemma StepKeeps(s: State, a: Action)
    requires Inv(s)
    ensures Inv(Apply(s, a))
  {
    var t := a.t;
    if a.Step? && PcOf(s, t).InGet? {
      if PcOf(s, t).key in s.table { CountExistingKeeps(s, t); } else { CountNewKeeps(s, t); }
    } else if a.Step? && PcOf(s, t).Waiting? {
      LockKeeps(s, t);
    } else if a.Step? && PcOf(s, t).InFree? {
      UnlockKeeps(s, t);
    } else if a.Step? && PcOf(s, t).Unlocked? {
      UserLeaves(s, t);
      if s.entries[PcOf(s, t).id].count == 1 { EraseKeeps(s, t); } else { CountDownKeeps(s, t); }
    } else {
      MoveKeeps(s, a);
    }
  }

  lemma {:induction false} RunKeeps(s: State, acts: seq<Action>)
    requires Inv(s)
    ensures Inv(Exec(s, acts))
    decreases |acts|
  {
    if acts != [] {
      StepKeeps(s, acts[0]);
      RunKeeps(Apply(s, acts[0]), acts[1..]);
    }
  }

  // ----- theorems over every run -----

  /**
   At most one thread has a key, from the return of `get_key_lock` up to the unlock inside
   `free_key_lock`.
   */
  lemma MutualExclusion(acts: seq<Action>, t: Tid, u: Tid)
    requires HasKey(PcOf(Exec(Init, acts), t)) && HasKey(PcOf(Exec(Init, acts), u))
    requires PcOf(Exec(Init, acts), t).key == PcOf(Exec(Init, acts), u).key
    ensures t == u
  {
    InitInv();
    RunKeeps(Init, acts);
    var s := Exec(Init, acts);
    assert ThreadOk(s, t) && ThreadOk(s, u);
    var a, b := PcOf(s, t).id, PcOf(s, u).id;
    assert Holds(PcOf(s, t), a) && Holds(PcOf(s, u), b);
    assert RefersTo(PcOf(s, t), a) && RefersTo(PcOf(s, u), b);
    assert EntryOk(s, a) && EntryOk(s, b);
  }

  /**
   No thread ever locks or unlocks an erased entry, and every count is the number of threads
   that hold the entry, wait for it or are about to, or have not yet counted themselves down.
   Once all threads are outside, the table is empty.
   */
  lemma CountsAreUsers(acts: seq<Action>)
    ensures var s := Exec(Init, acts);
            && s.faults == 0
            && (forall id :: id in s.entries ==> s.entries[id].count == |Users(s, id)| > 0)
            && (forall t, id :: RefersTo(PcOf(s, t), id) ==> id in s.entries)
            && ((forall t :: t in s.threads ==> s.threads[t].Outside?) ==> s.entries == map[] && s.table == map[])
  {
    InitInv();
    RunKeeps(Init, acts);
    var s := Exec(Init, acts);
    forall id | id in s.entries ensures s.entries[id].count == |Users(s, id)| > 0 {
      assert EntryOk(s, id);
    }
    forall t, id | RefersTo(PcOf(s, t), id) ensures id in s.entries {
      assert ThreadOk(s, t);
    }
    if s.entries != map[] {
      SomebodyInside(s);
    }
  }

  lemma SomebodyInside(s: State)
    requires Inv(s) && s.entries != map[]
    ensures exists t :: t in s.threads && !s.threads[t].Outside?
  {
    var id :| id in s.entries;
    assert EntryOk(s, id);
    assert Users(s, id) != {};
    var t :| t in Users(s, id);
  }

  /** An entry is erased only by its last user, and then nobody holds it or waits for it. */
  lemma ErasedByTheLastUser(acts: seq<Action>, a: Action, id: Id)
    requires id in Exec(Init, acts).entries && id !in Apply(Exec(Init, acts), a).entries
    ensures Users(Exec(Init, acts), id) == {a.t} && Users(Apply(Exec(Init, acts), a), id) == {}
  {
    InitInv();
    RunKeeps(Init, acts);
    var s := Exec(Init, acts);
    StepKeeps(s, a);
    NobodyUses(Apply(s, a), id);
    assert EntryOk(s, id);
    UsersChange(s, Apply(s, a), a.t, PcOf(Apply(s, a), a.t), id);
    assert Users(s, id) - {a.t} == {};
    assert Users(s, id) != {};
  }

  /** The thread that has the table's mutex always has a step. */
  lemma TableHolderMoves(s: State, g: Tid)
    requires Inv(s) && HasTable(PcOf(s, g))
    ensures Apply(s, Step(g)) != s
  {
    assert ThreadOk(s, g);
    if PcOf(s, g).InFree? {
      UnlockKeeps(s, g);
    }
    assert PcOf(Apply(s, Step(g)), g) != PcOf(s, g) || Apply(s, Step(g)).faults != s.faults;
  }

  /**
   Nobody is stuck: for a thread inside one of the two calls there is a step, of its own, of the
   thread that has the table's mutex, or of the one that has the key and is giving it back; or
   the thread waits for a key whose holder has yet to give it back.
   */
  lemma NobodyStuck(acts: seq<Action>, t: Tid) returns (u: Tid)
    requires !PcOf(Exec(Init, acts), t).Outside? && !PcOf(Exec(Init, acts), t).Holding?
    ensures var s := Exec(Init, acts);
            && (u == t || s.global == Some(u) || (PcOf(s, t).Waiting? && Holds(PcOf(s, u), PcOf(s, t).id)))
            && (Apply(s, Step(u)) != s || (PcOf(s, t).Waiting? && PcOf(s, u) == Holding(PcOf(s, t).key, PcOf(s, t).id)))
  {
    InitInv();
    RunKeeps(Init, acts);
    var s := Exec(Init, acts);
    u := Mover(s, t);
  }

  lemma Mover(s: State, t: Tid) returns (u: Tid)
    requires Inv(s) && !PcOf(s, t).Outside? && !PcOf(s, t).Holding?
    ensures u == t || s.global == Some(u) || (PcOf(s, t).Waiting? && Holds(PcOf(s, u), PcOf(s, t).id))
    ensures || Apply(s, Step(u)) != s
            || (PcOf(s, t).Waiting? && PcOf(s, u) == Holding(PcOf(s, t).key, PcOf(s, t).id))
  {
    var pc := PcOf(s, t);
    assert ThreadOk(s, t);
    if s.global.Some? {
      u := s.global.value;
      assert ThreadOk(s, u);
      TableHolderMoves(s, u);
    } else if pc.Waiting? {
      assert RefersTo(pc, pc.id);
      assert EntryOk(s, pc.id);
      var e := s.entries[pc.id];
      u := if e.holder.Some? then e.holder.value else t;
      assert ThreadOk(s, u);
      if e.holder.Some? {
        assert Holds(PcOf(s, u), pc.id) && RefersTo(PcOf(s, u), pc.id);
      }
      if !PcOf(s, u).Holding? {
        assert PcOf(Apply(s, Step(u)), u) != PcOf(s, u);
      }
    } else {
      u := t;
      assert PcOf(Apply(s, Step(u)), u) != PcOf(s, u);
    }
  }

  // ----- every call can be brought to its end -----

  lemma {:induction false} ExecAppend(s: State, xs: seq<Action>, ys: seq<Action>)
    ensures Exec(s, xs + ys) == Exec(Exec(s, xs), ys)
    decreases |xs|
  {
    if xs == [] {
      assert xs + ys == ys;
    } else {
      assert (xs + ys)[0] == xs[0] && (xs + ys)[1..] == xs[1..] + ys;
      ExecAppend(Apply(s, xs[0]), xs[1..], ys);
    }
  }

  /** Holders give their keys back, threads inside a call go on, and nobody starts a new one. */
  predicate Obliging(acts: seq<Action>) {
    forall a :: a in acts ==> a.Step? || a.Free?
  }

  ghost predicate Leads(s: State, t: State) {
    exists acts :: Obliging(acts) && Exec(s, acts) == t
  }

  lemma LeadsNowhere(s: State)
    ensures Leads(s, s)
  {
    assert Obliging([]) && Exec(s, []) == s;
  }

  lemma Move(s: State, u: State, a: Action) returns (v: State)
    requires Leads(s, u) && Inv(u) && (a.Step? || a.Free?)
    ensures v == Apply(u, a) && Leads(s, v) && Inv(v)
  {
    v := Apply(u, a);
    var acts :| Obliging(acts) && Exec(s, acts) == u;
    ExecAppend(s, acts, [a]);
    assert Exec(u, [a]) == v;
    assert Obliging(acts + [a]);
    StepKeeps(u, a);
  }

  lemma LeadsTrans(s: State, t: State, u: State)
    requires Leads(s, t) && Leads(t, u)
    ensures Leads(s, u)
  {
    var xs :| Obliging(xs) && Exec(s, xs) == t;
    var ys :| Obliging(ys) && Exec(t, ys) == u;
    ExecAppend(s, xs, ys);
    assert Obliging(xs + ys);
  }

  /** How far the thread that has the table's mutex is from leaving it. */
  function Remaining(pc: Pc): nat {
    match pc
    case InFree(_, _) => 3
    case InGet(_) => 2
    case Unlocked(_, _) => 2
    case Counted(_, _) => 1
    case Leaving => 1
    case _ => 0
  }

  /** Where that thread ends up. */
  predicate LeftTable(pc: Pc, after: Pc) {
    if pc.InGet? || pc.Counted? then after.Waiting? && after.key == pc.key else after.Outside?
  }

  /** One step of the thread that has the table's mutex. */
  lemma TableStep(s: State, g: Tid)
    requires Inv(s) && HasTable(PcOf(s, g))
    ensures var pc, after := PcOf(s, g), PcOf(Apply(s, Step(g)), g);
            && Remaining(after) == Remaining(pc) - 1
            && (HasTable(after) <==> Remaining(pc) > 1)
            && (HasTable(after) ==> forall end :: LeftTable(after, end) ==> LeftTable(pc, end))
            && (!HasTable(after) ==> LeftTable(pc, after))
  {
    if PcOf(s, g).InFree? {
      UnlockKeeps(s, g);
    } else if PcOf(s, g).Unlocked? {
      UserLeaves(s, g);
    }
  }

  lemma OthersStay(s: State, a: Action, u: Tid)
    requires a.t != u
    ensures PcOf(Apply(s, a), u) == PcOf(s, u)
  {
  }

  /** The table's mutex is given up; threads without it stay where they are. */
  lemma FreeTable(s: State, g: Tid) returns (t: State)
    requires Inv(s) && HasTable(PcOf(s, g))
    ensures Leads(s, t) && Inv(t) && t.global.None?
    ensures LeftTable(PcOf(s, g), PcOf(t, g))
    ensures forall u :: u != g ==> PcOf(t, u) == PcOf(s, u)
    decreases Remaining(PcOf(s, g))
  {
    LeadsNowhere(s);
    TableStep(s, g);
    var v := Move(s, s, Step(g));
    forall u | u != g ensures PcOf(v, u) == PcOf(s, u) {
      OthersStay(s, Step(g), u);
    }
    assert ThreadOk(s, g) && ThreadOk(v, g);
    if HasTable(PcOf(v, g)) {
      t := FreeTable(v, g);
      LeadsTrans(s, v, t);
    } else {
      t := v;
      NobodyHasTable(s, t, g);
    }
  }

  lemma NobodyHasTable(s: State, t: State, g: Tid)
    requires Inv(s) && Inv(t) && s.global == Some(g) && !HasTable(PcOf(t, g))
    requires forall u :: u != g ==> PcOf(t, u) == PcOf(s, u)
    ensures t.global.None?
  {
    forall u: Tid ensures t.global != Some(u) {
      assert ThreadOk(t, u) && ThreadOk(s, u);
    }
  }

  lemma AwaitTable(s: State) returns (t: State)
    requires Inv(s)
    ensures Leads(s, t) && Inv(t) && t.global.None?
    ensures forall u :: !HasTable(PcOf(s, u)) ==> PcOf(t, u) == PcOf(s, u)
  {
    if s.global.None? {
      LeadsNowhere(s);
      t := s;
    } else {
      assert ThreadOk(s, s.global.value);
      t := FreeTable(s, s.global.value);
    }
  }

  /** Thread `h` takes the table's mutex to get or to free, once it is there. */
  lemma EnterTable(s: State, h: Tid) returns (t: State)
    requires Inv(s) && (PcOf(s, h).Arriving? || PcOf(s, h).Returning?)
    ensures Leads(s, t) && Inv(t)
    ensures PcOf(t, h) == if PcOf(s, h).Arriving? then InGet(PcOf(s, h).key) else InFree(PcOf(s, h).key, PcOf(s, h).id)
    ensures forall u :: u != h && !HasTable(PcOf(s, u)) ==> PcOf(t, u) == PcOf(s, u)
  {
    var v := AwaitTable(s);
    t := Move(s, v, Step(h));
    forall u | u != h && !HasTable(PcOf(s, u)) ensures PcOf(t, u) == PcOf(s, u) {
      OthersStay(v, Step(h), u);
    }
  }

  /** The holder of an entry comes to where it unlocks it. */
  lemma HolderReturns(s: State, h: Tid, id: Id) returns (t: State)
    requires Inv(s) && Holds(PcOf(s, h), id)
    ensures Leads(s, t) && Inv(t) && PcOf(t, h).InFree? && PcOf(t, h).id == id
    ensures forall u :: u != h && !HasTable(PcOf(s, u)) ==> PcOf(t, u) == PcOf(s, u)
  {
    LeadsNowhere(s);
    var v := s;
    if PcOf(s, h).Holding? {
      v := Move(s, s, Free(h));
      forall u | u != h ensures PcOf(v, u) == PcOf(s, u) {
        OthersStay(s, Free(h), u);
      }
    }
    t := v;
    if PcOf(v, h).Returning? {
      t := EnterTable(v, h);
      LeadsTrans(s, v, t);
    }
  }

  lemma UnlockStep(s: State, h: Tid, id: Id)
    requires Inv(s) && PcOf(s, h).InFree? && PcOf(s, h).id == id
    ensures var t := Apply(s, Step(h)); id in t.entries && t.entries[id].holder.None?
  {
    EntryKnown(s, h, id);
  }

  /** The holder of an entry gives it back as far as its unlock. */
  lemma HolderUnlocks(s: State, h: Tid, id: Id) returns (t: State)
    requires Inv(s) && Holds(PcOf(s, h), id)
    ensures Leads(s, t) && Inv(t) && id in t.entries && t.entries[id].holder.None?
    ensures forall u :: u != h && !HasTable(PcOf(s, u)) ==> PcOf(t, u) == PcOf(s, u)
  {
    var w := HolderReturns(s, h, id);
    UnlockStep(w, h, id);
    t := Move(s, w, Step(h));
    forall u | u != h && !HasTable(PcOf(s, u)) ensures PcOf(t, u) == PcOf(s, u) {
      OthersStay(w, Step(h), u);
    }
  }

  lemma EntryKnown(s: State, t: Tid, id: Id)
    requires Inv(s) && RefersTo(PcOf(s, t), id)
    ensures id in s.entries && PcOf(s, t).key in s.table && s.table[PcOf(s, t).key] == id
    ensures Holds(PcOf(s, t), id) ==> s.entries[id].holder == Some(t)
  {
    assert ThreadOk(s, t);
    assert EntryOk(s, id);
  }

  /** A waiting thread gets its key once the holder has given it back. */
  lemma WaiterGets(s: State, t: Tid) returns (u: State)
    requires Inv(s) && PcOf(s, t).Waiting?
    ensures Leads(s, u) && Inv(u) && PcOf(u, t) == Holding(PcOf(s, t).key, PcOf(s, t).id)
  {
    var id := PcOf(s, t).id;
    EntryKnown(s, t, id);
    assert EntryOk(s, id);
    LeadsNowhere(s);
    var v := s;
    if s.entries[id].holder.Some? {
      v := HolderUnlocks(s, s.entries[id].holder.value, id);
    }
    u := Move(s, v, Step(t));
  }

  /** A thread on its way into a key, or on its way out of one. */
  predicate Getting(pc: Pc) {
    pc.Arriving? || pc.InGet? || pc.Counted? || pc.Waiting?
  }

  predicate Giving(pc: Pc) {
    pc.Returning? || pc.InFree? || pc.Unlocked? || pc.Leaving?
  }

  lemma Through(s: State, t: Tid) returns (u: State)
    requires Inv(s) && (Getting(PcOf(s, t)) || Giving(PcOf(s, t)))
    ensures Leads(s, u) && Inv(u)
    ensures if Getting(PcOf(s, t)) then PcOf(u, t).Holding? && PcOf(u, t).key == PcOf(s, t).key
            else PcOf(u, t).Outside?
  {
    LeadsNowhere(s);
    var v := s;
    if PcOf(s, t).Arriving? || PcOf(s, t).Returning? {
      v := EnterTable(s, t);
    }
    var w := v;
    if HasTable(PcOf(v, t)) {
      w := FreeTable(v, t);
      LeadsTrans(s, v, w);
    }
    u := w;
    if Getting(PcOf(s, t)) {
      u := WaiterGets(w, t);
      LeadsTrans(s, w, u);
    }
  }

  /**
   Liveness.  From every reachable state with a thread inside one of the two calls, some run in
   which holders give their keys back and nobody starts a new call brings that thread to the
   end of its call: it has its key, or it is out again.
   */
  lemma EveryCallCanEnd(acts: seq<Action>, t: Tid) returns (more: seq<Action>)
    requires !PcOf(Exec(Init, acts), t).Outside? && !PcOf(Exec(Init, acts), t).Holding?
    ensures Obliging(more)
    ensures var s := Exec(Init, acts);
            var u := Exec(s, more);
            if Getting(PcOf(s, t)) then PcOf(u, t).Holding? && PcOf(u, t).key == PcOf(s, t).key
            else PcOf(u, t).Outside?
  {
    InitInv();
    RunKeeps(Init, acts);
    var s := Exec(Init, acts);
    var u := Through(s, t);
    more :| Obliging(more) && Exec(s, more) == u;
  }
}
