/** KeyedMutex under every interleaving of threads.

    A call of Lock is three steps: the section under `km.mu` that finds or makes the lock
    object and counts the caller in, the acquisition of that object, and the unlock closure,
    which is again two steps. Lock objects are values of a type L with equality only, so
    the same machine serves references. */
module MutexModel {
  import opened Common

  type Thread = nat

  /** Where a thread's call stands. */
  datatype Phase<L> =
    | Idle
    | Waiting(key: string, lock: L)
    | Holding(key: string, lock: L)
    | Releasing(key: string, lock: L)

  /** `locks` is the map under `km.mu`; `count` and `owner` are the fields of the lock objects
      ever made. */
  datatype State<L> = State(
    locks: map<string, L>,
    count: map<L, nat>,
    owner: map<L, Option<Thread>>,
    threads: map<Thread, Phase<L>>)

  datatype Event<L> =
    | Enter(t: Thread, key: string, made: L)
    | Acquire(t: Thread)
    | Unlock(t: Thread)
    | Leave(t: Thread)
    | TryLock(t: Thread, key: string, made: L, won: bool)

  function PhaseOf<L>(s: State<L>, t: Thread): Phase<L> { if t in s.threads then s.threads[t] else Idle }

  /** The lock object a call would use: the one stored under the key, or the fresh one. */
  function LockFor<L>(s: State<L>, key: string, made: L): L { if key in s.locks then s.locks[key] else made }

  /** What sync.Mutex.TryLock may answer: it wins only an unowned mutex, and it fails only a
      mutex that is owned or that some other call is contending for. */
  predicate TryLockMay<L(==)>(s: State<L>, l: L, won: bool)
    requires s.count.Keys == s.owner.Keys
  {
    if won then l in s.owner ==> s.owner[l].None?
    else l in s.owner && (s.owner[l].Some? || s.count[l] > 0)
  }

  ghost predicate Wf<L>(s: State<L>) {
    && s.count.Keys == s.owner.Keys
    && (forall k :: k in s.locks ==> s.locks[k] in s.count)
    && (forall t :: t in s.threads && !s.threads[t].Idle? ==> s.threads[t].lock in s.count)
  }

  ghost predicate Enabled<L>(s: State<L>, e: Event<L>)
    requires Wf(s)
  {
    match e
    case Enter(t, key, made) => PhaseOf(s, t).Idle? && (key !in s.locks ==> made !in s.count)
    case Acquire(t) => PhaseOf(s, t).Waiting? && s.owner[PhaseOf(s, t).lock].None?
    case Unlock(t) => PhaseOf(s, t).Holding?
    case Leave(t) => PhaseOf(s, t).Releasing?
    case TryLock(t, key, made, won) =>
      && PhaseOf(s, t).Idle? && (key !in s.locks ==> made !in s.count)
      && TryLockMay(s, LockFor(s, key, made), won)
  }

  /** The lock under `key` with its fields, made now if it is missing. */
  function Ensured<L(==)>(s: State<L>, key: string, made: L): State<L> {
    if key in s.locks then s
    else s.(locks := s.locks[key := made], count := s.count[made := 0], owner := s.owner[made := None])
  }

  /** Count one call in, with its object held at once or not. */
  function Joined<L(==)>(u: State<L>, t: Thread, p: Phase<L>): State<L>
    requires !p.Idle? && p.lock in u.count
  {
    u.(count := u.count[p.lock := u.count[p.lock] + 1],
       owner := if p.Holding? then u.owner[p.lock := Some(t)] else u.owner,
       threads := u.threads[t := p])
  }

  /** Count one call out; the last one deletes the entry. */
  function Dropped<L(==)>(s: State<L>, key: string, l: L): State<L>
    requires l in s.count
  {
    var n := if s.count[l] > 0 then s.count[l] - 1 else 0;
    s.(count := s.count[l := n], locks := if n == 0 then s.locks - {key} else s.locks)
  }

  function Step<L(==)>(s: State<L>, e: Event<L>): State<L>
    requires Wf(s) && Enabled(s, e)
  {
    match e
    case Enter(t, key, made) =>
      var u := Ensured(s, key, made);
      Joined(u, t, Waiting(key, u.locks[key]))
    case Acquire(t) =>
      var Waiting(key, l) := s.threads[t];
      s.(owner := s.owner[l := Some(t)], threads := s.threads[t := Holding(key, l)])
    case Unlock(t) =>
      var Holding(key, l) := s.threads[t];
      s.(owner := s.owner[l := None], threads := s.threads[t := Releasing(key, l)])
    case Leave(t) =>
      var Releasing(key, l) := s.threads[t];
      Dropped(s, key, l).(threads := s.threads[t := Idle])
    case TryLock(t, key, made, won) =>
      var u := Ensured(s, key, made);
      if won then Joined(u, t, Holding(key, u.locks[key]))
      else if key in s.locks then u
      else u.(locks := u.locks - {key})
  }

  // ---- the invariant ----

  /** The threads whose calls use lock object l. */
  ghost function Users<L>(threads: map<Thread, Phase<L>>, l: L): set<Thread> {
    set t | t in threads && !threads[t].Idle? && threads[t].lock == l
  }

  /** A call in progress uses the object stored under its key. */
  ghost predicate Stored<L>(locks: map<string, L>, threads: map<Thread, Phase<L>>) {
    forall t :: t in threads && !threads[t].Idle? ==> threads[t].key in locks && locks[threads[t].key] == threads[t].lock
  }

  /** No object is stored under two keys. */
  ghost predicate Apart<L>(locks: map<string, L>) {
    forall j, k :: j in locks && k in locks && locks[j] == locks[k] ==> j == k
  }

  /** The reference count is the number of calls. */
  ghost predicate Counted<L>(count: map<L, nat>, threads: map<Thread, Phase<L>>) {
    forall l :: l in count ==> count[l] == |Users(threads, l)|
  }

  /** Every stored object is in use. */
  ghost predicate Busy<L>(locks: map<string, L>, count: map<L, nat>) {
    forall k :: k in locks ==> locks[k] in count && count[locks[k]] > 0
  }

  /** An object is owned exactly by the thread that holds it. */
  ghost predicate Owned<L>(owner: map<L, Option<Thread>>, threads: map<Thread, Phase<L>>) {
    && (forall t :: t in threads && threads[t].Holding? ==> threads[t].lock in owner && owner[threads[t].lock] == Some(t))
    && (forall l :: l in owner && owner[l].Some? ==>
          owner[l].value in threads && threads[owner[l].value].Holding? && threads[owner[l].value].lock == l)
  }

  ghost predicate Inv<L>(s: State<L>) {
    && Wf(s) && Stored(s.locks, s.threads) && Apart(s.locks)
    && Counted(s.count, s.threads) && Busy(s.locks, s.count) && Owned(s.owner, s.threads)
  }

  ghost function Init<L>(): State<L> { State(map[], map[], map[], map[]) }

  lemma UsersMove<L>(threads: map<Thread, Phase<L>>, t: Thread, p: Phase<L>, l: L)
    ensures var was := t in threads && !threads[t].Idle? && threads[t].lock == l;
            var now := !p.Idle? && p.lock == l;
            Users(threads[t := p], l) ==
            if now then Users(threads, l) + {t} else if was then Users(threads, l) - {t} else Users(threads, l)
  {
  }

  /** A thread's call goes on with the same object. */
  lemma UsersStay<L>(s: State<L>, t: Thread, p: Phase<L>)
    requires t in s.threads && !s.threads[t].Idle? && !p.Idle? && p.lock == s.threads[t].lock
    ensures forall l :: l in s.count ==> Users(s.threads[t := p], l) == Users(s.threads, l)
  {
    forall l | l in s.count ensures Users(s.threads[t := p], l) == Users(s.threads, l) {
      UsersMove(s.threads, t, p, l);
    }
  }

  /** A call begins. */
  lemma UsersEnter<L>(s: State<L>, t: Thread, p: Phase<L>)
    requires PhaseOf(s, t).Idle? && !p.Idle?
    ensures |Users(s.threads[t := p], p.lock)| == |Users(s.threads, p.lock)| + 1
    ensures forall l :: l in s.count && l != p.lock ==> Users(s.threads[t := p], l) == Users(s.threads, l)
  {
    UsersMove(s.threads, t, p, p.lock);
    assert t !in Users(s.threads, p.lock);
    forall l | l in s.count && l != p.lock ensures Users(s.threads[t := p], l) == Users(s.threads, l) {
      UsersMove(s.threads, t, p, l);
    }
  }

  /** A call ends. */
  lemma UsersLeave<L>(s: State<L>, t: Thread)
    requires t in s.threads && !s.threads[t].Idle?
    ensures var m := s.threads[t].lock;
            && |Users(s.threads[t := Idle], m)| == |Users(s.threads, m)| - 1
            && (forall l :: l in s.count && l != m ==> Users(s.threads[t := Idle], l) == Users(s.threads, l))
  {
    var m := s.threads[t].lock;
    UsersMove(s.threads, t, Idle, m);
    assert t in Users(s.threads, m);
    forall l | l in s.count && l != m ensures Users(s.threads[t := Idle], l) == Users(s.threads, l) {
      UsersMove(s.threads, t, Idle, l);
    }
  }

  /** An object nobody refers to has no users. */
  lemma FreshUnused<L>(s: State<L>, l: L)
    requires Wf(s) && l !in s.count
    ensures Users(s.threads, l) == {}
  {
  }

  lemma OwnedEnter<L>(owner: map<L, Option<Thread>>, threads: map<Thread, Phase<L>>, t: Thread, p: Phase<L>)
    requires Owned(owner, threads) && (t in threads ==> threads[t].Idle?) && !p.Idle?
    requires p.Holding? ==> p.lock in owner ==> owner[p.lock].None?
    ensures !p.Holding? ==> Owned(owner, threads[t := p])
    ensures p.Holding? ==> Owned(owner[p.lock := Some(t)], threads[t := p])
  {
  }

  lemma OwnedMake<L>(owner: map<L, Option<Thread>>, threads: map<Thread, Phase<L>>, l: L)
    requires Owned(owner, threads) && l !in owner
    ensures Owned(owner[l := None], threads)
  {
  }

  lemma ApartMake<L>(s: State<L>, key: string, made: L)
    requires Wf(s) && Apart(s.locks) && made !in s.count
    ensures Apart(s.locks[key := made])
  {
  }

  lemma CountedEnter<L>(s: State<L>, t: Thread, p: Phase<L>)
    requires Counted(s.count, s.threads) && PhaseOf(s, t).Idle? && !p.Idle? && p.lock in s.count
    ensures Counted(s.count[p.lock := s.count[p.lock] + 1], s.threads[t := p])
  {
    UsersEnter(s, t, p);
  }

  /** The object under the key, made if missing: everything but `Busy` holds again. */
  lemma EnsuredInv<L>(s: State<L>, key: string, made: L)
    requires Inv(s) && (key !in s.locks ==> made !in s.count)
    ensures var u := Ensured(s, key, made);
            && Wf(u) && Stored(u.locks, u.threads) && Apart(u.locks) && Counted(u.count, u.threads) && Owned(u.owner, u.threads)
            && u.threads == s.threads && u.locks[key] == LockFor(s, key, made)
            && Busy(u.locks - {key}, u.count)
            && (u.owner[u.locks[key]].None? || (u.locks[key] in s.owner && s.owner[u.locks[key]] == u.owner[u.locks[key]]))
  {
    if key !in s.locks {
      FreshUnused(s, made);
      OwnedMake(s.owner, s.threads, made);
      ApartMake(s, key, made);
    }
  }

  lemma BusyEnter<L>(locks: map<string, L>, count: map<L, nat>, key: string)
    requires key in locks && locks[key] in count && Busy(locks - {key}, count)
    ensures Busy(locks, count[locks[key] := count[locks[key]] + 1])
  {
    forall k | k in locks ensures locks[k] in count && count[locks[key] := count[locks[key]] + 1][locks[k]] > 0 {
      if k != key { assert k in locks - {key}; }
    }
  }

  /** The last call out takes the entry with it, and only that entry. */
  lemma BusyLeave<L>(locks: map<string, L>, count: map<L, nat>, key: string)
    requires key in locks && Apart(locks) && Busy(locks, count)
    ensures var n := count[locks[key]] - 1;
            var rest := if n == 0 then locks - {key} else locks;
            Busy(rest, count[locks[key] := n]) && Apart(rest)
  {
  }

  lemma StoredEnter<L>(locks: map<string, L>, threads: map<Thread, Phase<L>>, t: Thread, p: Phase<L>)
    requires Stored(locks, threads)
    requires !p.Idle? ==> p.key in locks && locks[p.key] == p.lock
    ensures Stored(locks, threads[t := p])
  {
  }

  /** Deleting a key no other call uses. */
  lemma StoredLeave<L>(locks: map<string, L>, threads: map<Thread, Phase<L>>, t: Thread, key: string)
    requires Stored(locks, threads) && key in locks
    requires forall r :: r in threads && r != t && !threads[r].Idle? ==> threads[r].lock != locks[key]
    ensures Stored(locks - {key}, threads[t := Idle])
  {
  }

  lemma JoinedInv<L>(u: State<L>, t: Thread, p: Phase<L>)
    requires Wf(u) && Stored(u.locks, u.threads) && Apart(u.locks) && Counted(u.count, u.threads) && Owned(u.owner, u.threads)
    requires PhaseOf(u, t).Idle? && (p.Waiting? || p.Holding?)
    requires p.key in u.locks && u.locks[p.key] == p.lock && Busy(u.locks - {p.key}, u.count)
    requires p.Holding? ==> u.owner[p.lock].None?
    ensures Inv(Joined(u, t, p))
  {
    var v := Joined(u, t, p);
    assert Counted(v.count, v.threads) by { CountedEnter(u, t, p); }
    assert Owned(v.owner, v.threads) by { OwnedEnter(u.owner, u.threads, t, p); }
    assert Stored(v.locks, v.threads) by { StoredEnter(u.locks, u.threads, t, p); }
    assert Busy(v.locks, v.count) by { BusyEnter(u.locks, u.count, p.key); }
  }

  lemma EnterInv<L>(s: State<L>, e: Event<L>)
    requires Inv(s) && Enabled(s, e) && (e.Enter? || (e.TryLock? && e.won))
    ensures Inv(Step(s, e))
  {
    var u := Ensured(s, e.key, e.made);
    EnsuredInv(s, e.key, e.made);
    JoinedInv(u, e.t, if e.Enter? then Waiting(e.key, u.locks[e.key]) else Holding(e.key, u.locks[e.key]));
  }

  lemma OwnedMove<L>(owner: map<L, Option<Thread>>, threads: map<Thread, Phase<L>>, t: Thread, p: Phase<L>)
    requires Owned(owner, threads) && t in threads && !threads[t].Idle? && !p.Idle? && p.lock == threads[t].lock
    requires threads[t].Waiting? && p.Holding? ==> p.lock in owner && owner[p.lock].None?
    ensures threads[t].Waiting? && p.Holding? ==> Owned(owner[p.lock := Some(t)], threads[t := p])
    ensures threads[t].Holding? && p.Releasing? ==> Owned(owner[p.lock := None], threads[t := p])
  {
  }

  /** The call goes on: acquiring or unlocking. */
  lemma ProceedInv<L>(s: State<L>, e: Event<L>)
    requires Inv(s) && Enabled(s, e) && (e.Acquire? || e.Unlock?)
    ensures Inv(Step(s, e))
  {
    var p := Step(s, e).threads[e.t];
    UsersStay(s, e.t, p);
    OwnedMove(s.owner, s.threads, e.t, p);
    StoredEnter(s.locks, s.threads, e.t, p);
  }

  lemma CountedLeave<L>(s: State<L>, t: Thread)
    requires Counted(s.count, s.threads) && t in s.threads && !s.threads[t].Idle? && s.threads[t].lock in s.count
    ensures var l := s.threads[t].lock;
            && s.count[l] > 0
            && Counted(s.count[l := s.count[l] - 1], s.threads[t := Idle])
            && (s.count[l] == 1 ==> forall r :: r in s.threads && r != t && !s.threads[r].Idle? ==> s.threads[r].lock != l)
  {
    var l := s.threads[t].lock;
    UsersLeave(s, t);
    assert t in Users(s.threads, l);
    if s.count[l] == 1 {
      assert Users(s.threads[t := Idle], l) == {};
      forall r | r in s.threads && r != t && !s.threads[r].Idle? ensures s.threads[r].lock != l {
        assert s.threads[r].lock == l ==> r in Users(s.threads[t := Idle], l);
      }
    }
  }

  lemma LeaveInv<L>(s: State<L>, e: Event<L>)
    requires Inv(s) && Enabled(s, e) && e.Leave?
    ensures Inv(Step(s, e))
  {
    var key, l := s.threads[e.t].key, s.threads[e.t].lock;
    var u := Step(s, e);
    CountedLeave(s, e.t);
    BusyLeave(s.locks, s.count, key);
    OwnedLeave(s.owner, s.threads, e.t);
    assert u.count == s.count[l := s.count[l] - 1] && u.threads == s.threads[e.t := Idle];
    assert Stored(u.locks, u.threads) by {
      if s.count[l] == 1 {
        StoredLeave(s.locks, s.threads, e.t, key);
      } else {
        StoredEnter(s.locks, s.threads, e.t, Idle);
      }
    }
    WfStored(u);
  }

  /** Calls that use stored objects use made objects. */
  lemma WfStored<L>(s: State<L>)
    requires s.count.Keys == s.owner.Keys && Stored(s.locks, s.threads) && Busy(s.locks, s.count)
    ensures Wf(s)
  {
  }

  lemma OwnedLeave<L>(owner: map<L, Option<Thread>>, threads: map<Thread, Phase<L>>, t: Thread)
    requires Owned(owner, threads) && t in threads && threads[t].Releasing?
    ensures Owned(owner, threads[t := Idle])
  {
  }

  lemma StepInv<L>(s: State<L>, e: Event<L>)
    requires Inv(s) && Enabled(s, e)
    ensures Inv(Step(s, e))
  {
    match e
    case Enter(_, _, _) => EnterInv(s, e);
    case Acquire(_) => ProceedInv(s, e);
    case Unlock(_) => ProceedInv(s, e);
    case Leave(_) => LeaveInv(s, e);
    case TryLock(_, _, _, won) =>
      if won { EnterInv(s, e); }
  }
}
