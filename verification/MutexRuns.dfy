/** What every run of the keyed mutex keeps. */
module MutexRuns {
  import opened Common
  import opened MutexModel

  /** An event that is not possible in a state leaves it alone, so every sequence is a run. */
  ghost function Next<L>(s: State<L>, e: Event<L>): State<L> { if Wf(s) && Enabled(s, e) then Step(s, e) else s }

  ghost function Run<L>(s: State<L>, es: seq<Event<L>>): State<L>
    decreases |es|
  {
    if es == [] then s else Next(Run(s, es[..|es| - 1]), es[|es| - 1])
  }

  lemma {:induction false} RunInv<L>(s: State<L>, es: seq<Event<L>>)
    requires Inv(s)
    ensures Inv(Run(s, es))
    decreases |es|
  {
    if es != [] {
      var r, e := Run(s, es[..|es| - 1]), es[|es| - 1];
      RunInv(s, es[..|es| - 1]);
      if Enabled(r, e) { StepInv(r, e); }
    }
  }

  /** The state after a run from an unused mutex. */
  ghost function After<L>(es: seq<Event<L>>): State<L> { Run(Init(), es) }

  lemma AfterInv<L>(es: seq<Event<L>>)
    ensures Inv(After(es))
  {
    RunInv(Init<L>(), es);
  }

  /** In every interleaving at most one thread holds a key, whichever lock objects the key has
      had before. */
  lemma MutualExclusionPerKey<L>(es: seq<Event<L>>, t: Thread, u: Thread)
    requires PhaseOf(After(es), t).Holding? && PhaseOf(After(es), u).Holding?
    requires PhaseOf(After(es), t).key == PhaseOf(After(es), u).key
    ensures t == u
  {
    AfterInv(es);
  }

  /** Every call waiting for, holding or releasing a key refers to the object now stored under
      that key, and that object counts exactly those calls. */
  lemma CallsShareStoredObject<L>(es: seq<Event<L>>, t: Thread)
    requires !PhaseOf(After(es), t).Idle?
    ensures var s := After(es);
            var k := PhaseOf(s, t).key;
            && k in s.locks && s.locks[k] == PhaseOf(s, t).lock && s.locks[k] in s.count
            && s.count[s.locks[k]] == |CallsOn(s.threads, k)|
  {
    AfterInv(es);
    var s := After(es);
    UsersAreCalls(s, PhaseOf(s, t).key);
  }

  /** The threads whose call is on key k. */
  ghost function CallsOn<L>(threads: map<Thread, Phase<L>>, k: string): set<Thread> {
    set t | t in threads && !threads[t].Idle? && threads[t].key == k
  }

  lemma UsersAreCalls<L>(s: State<L>, k: string)
    requires Inv(s) && k in s.locks
    ensures CallsOn(s.threads, k) == Users(s.threads, s.locks[k]) != {}
  {
    assert s.count[s.locks[k]] == |Users(s.threads, s.locks[k])|;
  }

  /** The map holds exactly the keys with a call in progress, so it is empty when there is none. */
  lemma KeysAreCalls<L>(es: seq<Event<L>>, k: string)
    ensures k in After(es).locks <==> CallsOn(After(es).threads, k) != {}
  {
    AfterInv(es);
    var s := After(es);
    if k in s.locks { UsersAreCalls(s, k); }
    forall t | t in CallsOn(s.threads, k) ensures k in s.locks { }
  }

  /** No wake-up is lost: a waiting call may proceed unless another thread holds its key. */
  lemma WaiterIsBlockedOnlyByHolder<L>(es: seq<Event<L>>, t: Thread)
    requires PhaseOf(After(es), t).Waiting?
    ensures var s := After(es);
            && Wf(s)
            && (Enabled(s, Acquire(t))
                || exists u :: u in s.threads && s.threads[u].Holding? && s.threads[u].key == s.threads[t].key)
  {
    AfterInv(es);
    var s := After(es);
    if !Enabled(s, Acquire(t)) {
      var u := s.owner[s.threads[t].lock].value;
      assert s.threads[u].Holding? && s.locks[s.threads[u].key] == s.locks[s.threads[t].key];
    }
  }

  /** TryLock fails only on a key with a call in progress, and then changes nothing: the branch
      that deletes a freshly made entry is never taken. */
  lemma FailedTryLockChangesNothing<L>(es: seq<Event<L>>, e: Event<L>)
    requires Wf(After(es)) && Enabled(After(es), e) && e.TryLock? && !e.won
    ensures CallsOn(After(es).threads, e.key) != {}
    ensures Step(After(es), e) == After(es)
  {
    AfterInv(es);
    KeysAreCalls(es, e.key);
  }

  /** What a call has come to after its event. */
  ghost predicate CameTo<L>(p: Phase<L>, e: Event<L>, q: Phase<L>) {
    match e
    case Enter(_, key, _) => q.Waiting? && q.key == key
    case Acquire(_) => p.Waiting? && q == Holding(p.key, p.lock)
    case Unlock(_) => p.Holding? && q == Releasing(p.key, p.lock)
    case Leave(_) => p.Releasing? && q.Idle?
    case TryLock(_, key, _, won) => if won then q.Holding? && q.key == key else q.Idle?
  }

  /** Every event takes the call of its own thread one phase on, and no other. */
  lemma CallsAdvance<L>(es: seq<Event<L>>, e: Event<L>, u: Thread)
    requires Wf(After(es)) && Enabled(After(es), e)
    ensures CameTo(PhaseOf(After(es), e.t), e, PhaseOf(Step(After(es), e), e.t))
    ensures u != e.t ==> PhaseOf(Step(After(es), e), u) == PhaseOf(After(es), u)
  {
  }

  /** Releasing a key lets every call waiting for it go on. */
  lemma UnlockLetsWaitersGo<L>(es: seq<Event<L>>, t: Thread, u: Thread)
    requires PhaseOf(After(es), t).Holding? && PhaseOf(After(es), u).Waiting? && PhaseOf(After(es), u).key == PhaseOf(After(es), t).key
    ensures var s := After(es);
            && Wf(s) && Enabled(s, Unlock(t)) && Wf(Step(s, Unlock(t)))
            && Enabled(Step(s, Unlock(t)), Acquire(u))
  {
    AfterInv(es);
    var s := After(es);
    StepInv(s, Unlock(t));
    assert s.threads[u].lock == s.locks[s.threads[u].key] == s.threads[t].lock;
  }
}
