/** `get_key_lock` and `free_key_lock` as one thread runs them, among any number of others. */
module LockTables {
  import opened Bytes
  import opened KeyLocks

  /** What the global map stores for a key: the count, and who has locked the mutex. */
  datatype Slot = Slot(count: int, holder: Option<Tid>)

  /** Some run of all threads ends in `s`. */
  ghost predicate Reached(s: State) {
    exists acts :: Exec(Init, acts) == s
  }

  lemma ReachedStep(s: State, a: Action)
    requires Reached(s)
    ensures Reached(Apply(s, a))
  {
    var acts :| Exec(Init, acts) == s;
    ExecAppend(Init, acts, [a]);
    assert Exec(s, [a]) == Apply(s, a);
  }

  lemma ReachedInv(s: State)
    requires Reached(s)
    ensures Inv(s)
  {
    var acts :| Exec(Init, acts) == s;
    InitInv();
    RunKeeps(Init, acts);
  }

  /** The entry a thread counts for is the one stored for its key. */
  lemma EntryOfKey(s: State, t: Tid, id: Id)
    requires Reached(s) && RefersTo(PcOf(s, t), id)
    ensures id in s.entries && PcOf(s, t).key in s.table && s.table[PcOf(s, t).key] == id
    ensures Holds(PcOf(s, t), id) ==> s.entries[id].holder == Some(t)
  {
    ReachedInv(s);
    EntryKnown(s, t, id);
  }

  /** Every key in the table has an entry. */
  lemma TableOk(s: State)
    requires Reached(s)
    ensures forall key :: key in s.table ==> s.table[key] in s.entries && s.entries[s.table[key]].key == key
  {
    ReachedInv(s);
  }

  /** The run `acts` of the other threads. */
  function Others(t: Tid, s: State, acts: seq<Action>): State
    decreases |acts|
  {
    if acts == [] then s else Others(t, if acts[0].t == t then s else Apply(s, acts[0]), acts[1..])
  }

  lemma {:induction false} OthersKeep(t: Tid, s: State, acts: seq<Action>)
    requires Reached(s)
    ensures Reached(Others(t, s, acts)) && PcOf(Others(t, s, acts), t) == PcOf(s, t)
    decreases |acts|
  {
    if acts != [] {
      if acts[0].t == t {
        OthersKeep(t, s, acts[1..]);
      } else {
        ReachedStep(s, acts[0]);
        OthersStay(s, acts[0], t);
        OthersKeep(t, Apply(s, acts[0]), acts[1..]);
      }
    }
  }

  function SlotOf(s: State, key: Key): Slot
    requires key in s.table && s.table[key] in s.entries
  {
    Slot(s.entries[s.table[key]].count, s.entries[s.table[key]].holder)
  }

  /** `locks` is what the machine's table and entries say. */
  ghost predicate Agrees(locks: map<Key, Slot>, s: State) {
    && locks.Keys == s.table.Keys
    && (forall key :: key in s.table ==> s.table[key] in s.entries && locks[key] == SlotOf(s, key))
  }

  /** One entry changed, for one key, and every other key keeps its own. */
  lemma OneSlot(locks: map<Key, Slot>, s: State, s': State, key: Key, e: Entry)
    requires Reached(s) && Agrees(locks, s) && key in s.table && s'.table == s.table
    requires s'.entries == s.entries[s.table[key] := e]
    ensures Agrees(locks[key := Slot(e.count, e.holder)], s')
  {
    TableOk(s);
  }

  class LockTable {
    var locks: map<Key, Slot>      // s_key_lock_global_map
    var s: State                   // what all threads have done

    ghost predicate Valid()
      reads this
    {
      Reached(s) && Agrees(locks, s)
    }

    constructor ()
      ensures Valid() && s == Init
    {
      assert Exec(Init, []) == Init;
      locks, s := map[], Init;
    }

    /** Other threads run. */
    method Interfere(t: Tid)
      requires Valid()
      modifies this
      ensures Valid() && PcOf(s, t) == PcOf(old(s), t)
    {
      var acts: seq<Action> := *;
      OthersKeep(t, s, acts);
      s := Others(t, s, acts);
      TableOk(s);
      locks := map key | key in s.table :: SlotOf(s, key);
    }

    /** A step of thread `t` that leaves the map alone. */
    method Do(a: Action)
      requires Valid() && Apply(s, a).table == s.table && Apply(s, a).entries == s.entries
      modifies this`s
      ensures Valid() && s == Apply(old(s), a)
    {
      ReachedStep(s, a);
      s := Apply(s, a);
    }

    /** `unique_lock(s_key_lock_global_mtx)`, watched for `patience` polls. */
    method TakeGlobal(t: Tid, patience: nat) returns (taken: bool)
      requires Valid() && (PcOf(s, t).Arriving? || PcOf(s, t).Returning?)
      modifies this
      ensures Valid()
      ensures PcOf(s, t) == if !taken then PcOf(old(s), t)
                            else if PcOf(old(s), t).Arriving? then InGet(PcOf(old(s), t).key)
                            else InFree(PcOf(old(s), t).key, PcOf(old(s), t).id)
      ensures !taken ==> s.global.Some? && s.global != Some(t)
    {
      var polls := 0;
      while s.global.Some?
        invariant Valid() && PcOf(s, t) == PcOf(old(s), t)
        decreases patience - polls
      {
        if polls >= patience {
          NotItself(s, t);
          return false;
        }
        Interfere(t);
        polls := polls + 1;
      }
      Do(Step(t));
      taken := true;
    }

    /** A thread outside the table does not have its mutex, and one that waits for an entry does not hold it. */
    static lemma NotItself(s: State, t: Tid)
      requires Reached(s)
      ensures !HasTable(PcOf(s, t)) ==> s.global != Some(t)
      ensures forall id :: id in s.entries && s.entries[id].holder == Some(t) ==> Holds(PcOf(s, t), id)
    {
      ReachedInv(s);
      assert ThreadOk(s, t);
      forall id | id in s.entries && s.entries[id].holder == Some(t) ensures Holds(PcOf(s, t), id) {
        assert EntryOk(s, id);
      }
    }

    /** `operator[]` and the increment. */
    method CountUp(t: Tid, key: Key)
      requires Valid() && PcOf(s, t) == InGet(key)
      modifies this
      ensures Valid() && s == Apply(old(s), Step(t))
      ensures PcOf(s, t).Counted? && PcOf(s, t).key == key
      ensures key in locks && locks[key].count == (if key in old(locks) then old(locks)[key].count else 0) + 1
    {
      ghost var before, was := locks, s;
      TableOk(s);
      if key !in locks {
        locks := locks[key := Slot(0, None)];
      }
      locks := locks[key := locks[key].(count := locks[key].count + 1)];
      ReachedStep(s, Step(t));
      s := Apply(s, Step(t));
      if key in before {
        OneSlot(before, was, s, key, s.entries[s.table[key]]);
      } else {
        FreshId(was);
      }
    }

    static lemma FreshId(s: State)
      requires Reached(s)
      ensures s.nextId !in s.entries
    {
      ReachedInv(s);
      IdsBelow(s);
    }

    /** `lock` of the entry's mutex, watched for `patience` polls. */
    method LockEntry(t: Tid, key: Key, id: Id, patience: nat) returns (locked: bool)
      requires Valid() && PcOf(s, t) == Waiting(key, id)
      modifies this
      ensures Valid()
      ensures PcOf(s, t) == if locked then Holding(key, id) else Waiting(key, id)
      ensures locked ==> key in locks && locks[key].holder == Some(t)
      ensures !locked ==> key in locks && locks[key].holder.Some? && locks[key].holder != Some(t)
    {
      var polls := 0;
      EntryOfKey(s, t, id);
      while locks[key].holder.Some?
        invariant Valid() && PcOf(s, t) == Waiting(key, id)
        invariant key in s.table && s.table[key] == id && id in s.entries
        decreases patience - polls
      {
        if polls >= patience {
          NotItself(s, t);
          return false;
        }
        Interfere(t);
        EntryOfKey(s, t, id);
        polls := polls + 1;
      }
      ghost var before, was := locks, s;
      locks := locks[key := locks[key].(holder := Some(t))];
      ReachedStep(s, Step(t));
      s := Apply(s, Step(t));
      OneSlot(before, was, s, key, s.entries[id]);
      locked := true;
    }

    /**
     `get_key_lock`: when it returns the thread holds the mutex stored for the key, and nobody
     else is between the two calls for that key.
     */
    method GetKeyLock(t: Tid, key: Key, patience: nat) returns (locked: bool)
      requires Valid() && PcOf(s, t).Outside?
      modifies this
      ensures Valid()
      ensures locked ==> PcOf(s, t).Holding? && PcOf(s, t).key == key
      ensures locked ==> key in locks && locks[key].holder == Some(t)
      ensures locked ==> forall u :: HasKey(PcOf(s, u)) && PcOf(s, u).key == key ==> u == t
      ensures !locked ==>
                || (PcOf(s, t) == Arriving(key) && s.global.Some? && s.global != Some(t))
                || (PcOf(s, t).Waiting? && PcOf(s, t).key == key
                    && key in locks && locks[key].holder.Some? && locks[key].holder != Some(t))
    {
      Do(Get(t, key));
      var taken := TakeGlobal(t, patience);
      if !taken {
        return false;
      }
      Interfere(t);
      CountUp(t, key);
      var id := PcOf(s, t).id;
      Interfere(t);
      Do(Step(t));         // unlock of the global mutex
      locked := LockEntry(t, key, id, patience);
      if locked {
        OnlyHolder(s, t, key);
      }
    }

    static lemma OnlyHolder(s: State, t: Tid, key: Key)
      requires Reached(s) && PcOf(s, t).Holding? && PcOf(s, t).key == key
      ensures forall u :: HasKey(PcOf(s, u)) && PcOf(s, u).key == key ==> u == t
    {
      var acts :| Exec(Init, acts) == s;
      forall u | HasKey(PcOf(s, u)) && PcOf(s, u).key == key ensures u == t {
        MutualExclusion(acts, t, u);
      }
    }

    /** `find` and `unlock`: the key is in the map, and it is this thread that has locked it. */
    method UnlockEntry(t: Tid, key: Key, id: Id)
      requires Valid() && PcOf(s, t) == InFree(key, id)
      modifies this
      ensures Valid() && PcOf(s, t) == Unlocked(key, id)
      ensures key in old(locks) && old(locks)[key].holder == Some(t)
      ensures locks == old(locks)[key := old(locks)[key].(holder := None)]
    {
      EntryOfKey(s, t, id);
      ghost var before, was := locks, s;
      locks := locks[key := locks[key].(holder := None)];
      ReachedStep(s, Step(t));
      s := Apply(s, Step(t));
      OneSlot(before, was, s, key, s.entries[id]);
    }

    /** The decrement: the key leaves the map exactly when this was its last user. */
    method CountDown(t: Tid, key: Key, id: Id)
      requires Valid() && PcOf(s, t) == Unlocked(key, id)
      modifies this
      ensures Valid() && PcOf(s, t) == Leaving
      ensures key in old(locks)
      ensures key !in locks <==> Users(old(s), id) == {t}
      ensures locks - {key} == old(locks) - {key}
      ensures key in locks ==> locks[key] == old(locks)[key].(count := old(locks)[key].count - 1)
    {
      EntryOfKey(s, t, id);
      LastUser(s, t, id);
      ghost var before, was := locks, s;
      locks := locks[key := locks[key].(count := locks[key].count - 1)];
      ReachedStep(s, Step(t));
      s := Apply(s, Step(t));
      if locks[key].count == 0 {
        locks := locks - {key};
        Erased(before, was, s, key, id);
      } else {
        OneSlot(before, was, s, key, s.entries[id]);
      }
    }

    static lemma LastUser(s: State, t: Tid, id: Id)
      requires Reached(s) && RefersTo(PcOf(s, t), id)
      ensures id in s.entries && (s.entries[id].count == 1 <==> Users(s, id) == {t})
    {
      EntryOfKey(s, t, id);
      ReachedInv(s);
      assert EntryOk(s, id);
      assert t in Users(s, id);
      if |Users(s, id)| == 1 {
        assert |Users(s, id) - {t}| == 0;
        assert Users(s, id) - {t} == {};
      }
    }

    static lemma Erased(locks: map<Key, Slot>, s: State, s': State, key: Key, id: Id)
      requires Reached(s) && Agrees(locks, s) && key in s.table && s.table[key] == id
      requires s'.table == s.table - {key} && s'.entries == s.entries - {id}
      ensures Agrees(locks - {key}, s')
    {
      TableOk(s);
    }

    /** `unlock` of the global mutex, and the return. */
    method Leave(t: Tid)
      requires Valid() && PcOf(s, t).Leaving?
      modifies this
      ensures Valid() && PcOf(s, t).Outside? && (forall id :: t !in Users(s, id))
    {
      Interfere(t);
      Do(Step(t));
    }

    /** The body of `free_key_lock`, under the global mutex. */
    method GiveBack(t: Tid, key: Key, id: Id)
      requires Valid() && PcOf(s, t) == InFree(key, id)
      modifies this
      ensures Valid() && PcOf(s, t) == Leaving
    {
      Interfere(t);
      UnlockEntry(t, key, id);
      Interfere(t);
      CountDown(t, key, id);
    }

    /**
     `free_key_lock`: the thread is out again and counts for no key; the source's assertion
     that the key is in the map never fails.
     */
    method FreeKeyLock(t: Tid, patience: nat) returns (freed: bool)
      requires Valid() && PcOf(s, t).Holding?
      modifies this
      ensures Valid()
      ensures if freed then PcOf(s, t).Outside? && (forall id :: t !in Users(s, id))
              else PcOf(s, t) == Returning(PcOf(old(s), t).key, PcOf(old(s), t).id)
      ensures !freed ==> s.global.Some? && s.global != Some(t)
    {
      var key, id := PcOf(s, t).key, PcOf(s, t).id;
      Do(Free(t));
      freed := TakeGlobal(t, patience);
      if freed {
        GiveBack(t, key, id);
        Leave(t);
      }
    }
  }
}
