/** KeyedMutex with its reference-counted lock objects on the heap. Each method is one atomic
    step of a thread and is proved against the machine. */
module KeyedMutexObjects {
  import opened Common
  import opened MutexModel
  import opened MutexRuns

  class RefLock {
    var refCount: nat
    // sync.Mutex: the thread that has it
    ghost var owner: Option<Thread>

    constructor ()
      ensures refCount == 0 && owner.None?
    {
      refCount, owner := 0, None;
    }
  }

  class KeyedMutex {
    var locks: map<string, RefLock>
    ghost var made: set<RefLock>
    ghost var threads: map<Thread, Phase<RefLock>>

    ghost function Abs(): State<RefLock>
      reads this, made
    {
      State(locks, map l | l in made :: l.refCount, map l | l in made :: l.owner, threads)
    }

    constructor ()
      ensures Abs() == Init() && fresh(made)
    {
      locks, made, threads := map[], {}, map[];
    }

    /** The object under the key, made and stored if it is missing. */
    method Lookup(key: string) returns (l: RefLock)
      requires Wf(Abs())
      modifies this`locks, this`made
      ensures old(made) <= made && fresh(made - old(made)) && threads == old(threads)
      ensures key !in old(locks) ==> fresh(l)
      ensures Abs() == Ensured(old(Abs()), key, l) && locks[key] == l && l in made
    {
      if key in locks {
        l := locks[key];
        assert l in Abs().count;
      } else {
        l := new RefLock();
        locks := locks[key := l];
        made := made + {l};
        assert Abs().count == old(Abs()).count[l := 0];
        assert Abs().owner == old(Abs()).owner[l := None];
      }
    }

    /** Count the caller in, holding the object at once or not. */
    method Join(ghost t: Thread, ghost p: Phase<RefLock>, l: RefLock)
      requires !p.Idle? && p.lock == l && l in made
      modifies this`threads, l
      ensures Abs() == Joined(old(Abs()), t, p) && made == old(made)
    {
      l.refCount := l.refCount + 1;
      if p.Holding? { l.owner := Some(t); }
      threads := threads[t := p];
    }

    /** The section of Lock under km.mu. */
    method Enter(ghost t: Thread, key: string) returns (l: RefLock)
      requires Inv(Abs()) && PhaseOf(Abs(), t).Idle?
      modifies this, made
      ensures Enabled(old(Abs()), Event.Enter(t, key, l))
      ensures Abs() == Step(old(Abs()), Event.Enter(t, key, l))
      ensures Inv(Abs()) && l == locks[key] && old(made) <= made && fresh(made - old(made))
    {
      ghost var s := Abs();
      l := Lookup(key);
      EnterInv(s, Event.Enter(t, key, l));
      Join(t, Waiting(key, l), l);
    }

    /** l.mu.Lock() returns. */
    ghost method Acquire(t: Thread)
      requires Inv(Abs()) && Enabled(Abs(), Event.Acquire(t))
      modifies this, made
      ensures Abs() == Step(old(Abs()), Event.Acquire(t)) && Inv(Abs()) && made == old(made)
    {
      ghost var s := Abs();
      StepInv(s, Event.Acquire(t));
      var l := threads[t].lock;
      l.owner := Some(t);
      threads := threads[t := Holding(threads[t].key, l)];
      assert Abs() == Step(s, Event.Acquire(t));
    }

    /** The unlock closure up to l.mu.Unlock(). */
    ghost method Unlock(t: Thread)
      requires Inv(Abs()) && Enabled(Abs(), Event.Unlock(t))
      modifies this, made
      ensures Abs() == Step(old(Abs()), Event.Unlock(t)) && Inv(Abs()) && made == old(made)
    {
      ghost var s := Abs();
      StepInv(s, Event.Unlock(t));
      var l := threads[t].lock;
      l.owner := None;
      threads := threads[t := Releasing(threads[t].key, l)];
      assert Abs() == Step(s, Event.Unlock(t));
    }

    /** The section of the unlock closure under km.mu: count out, and prune the key when idle. */
    method Leave(ghost t: Thread, key: string, l: RefLock)
      requires Inv(Abs()) && PhaseOf(Abs(), t) == Releasing(key, l)
      modifies this, made
      ensures Abs() == Step(old(Abs()), Event.Leave(t)) && Inv(Abs()) && made == old(made)
    {
      LeaveInv(Abs(), Event.Leave(t));
      CountedLeave(Abs(), t);
      assert l in Abs().count;
      CountOut(t, key, l);
    }

    method CountOut(ghost t: Thread, key: string, l: RefLock)
      requires l in made && l.refCount > 0
      modifies this`locks, this`threads, l`refCount
      ensures Abs() == Dropped(old(Abs()), key, l).(threads := old(threads)[t := Idle]) && made == old(made)
    {
      l.refCount := l.refCount - 1;
      assert Abs().count == old(Abs()).count[l := l.refCount];
      assert Abs().owner == old(Abs()).owner;
      if l.refCount == 0 { locks := locks - {key}; }
      threads := threads[t := Idle];
    }

    /** TryLock; `won` is what l.mu.TryLock() answers, within what a mutex may answer. */
    method TryLock(ghost t: Thread, key: string, won: bool) returns (l: RefLock)
      requires Inv(Abs()) && PhaseOf(Abs(), t).Idle?
      requires if won then key in locks ==> locks[key].owner.None?
               else key in locks && (locks[key].owner.Some? || locks[key].refCount > 0)
      modifies this, made
      ensures Enabled(old(Abs()), Event.TryLock(t, key, l, won))
      ensures Abs() == Step(old(Abs()), Event.TryLock(t, key, l, won))
      ensures Inv(Abs()) && old(made) <= made && fresh(made - old(made))
    {
      ghost var s := Abs();
      var existed := key in locks;
      l := Lookup(key);
      StepInv(s, Event.TryLock(t, key, l, won));
      if won {
        Join(t, Holding(key, l), l);
      } else if !existed {
        // a freshly made mutex is never refused
        assert false;
      }
    }

    method Len() returns (n: nat)
      requires Inv(Abs())
      ensures n == |locks|
      ensures n == 0 <==> forall t :: t in threads ==> threads[t].Idle?
    {
      n := |locks|;
      forall k | k in locks ensures CallsOn(threads, k) != {} { UsersAreCalls(Abs(), k); }
      if n != 0 {
        ghost var k :| k in locks;
        ghost var t :| t in CallsOn(threads, k);
        assert !threads[t].Idle?;
      }
    }
  }
}
