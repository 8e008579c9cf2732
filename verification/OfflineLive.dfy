/** Whatever counts as downloading really has a transfer, as long as files can be deleted. */
module OfflineLive {
  import opened Common
  import opened OfflineModel
  import opened OfflineProofs
  import opened OfflineRemoval
  import opened OfflineProgress
  import opened OfflineEffects

  /** The record's remembered attempt is the task that is held for it. */
  predicate HasTask(r: Record, tasks: map<RecordId, nat>) { r.id in tasks && r.transfer == Some(tasks[r.id]) }

  /** Every downloading record has its task; while transfers are being looked up after a launch none is held. */
  ghost predicate Live(s: Library) {
    if s.reconciling then s.tasks == map[] else forall r :: r in s.records && r.state.Downloading? ==> HasTask(r, s.tasks)
  }

  /** No file stays behind that should be deleted. */
  predicate FilesGo(e: Event, f: Faults) { f.removals == {} && (e.ClearCurrent? ==> e.listed && e.kept == {}) }

  lemma {:induction false} PumpKeepsLive(s: Library, f: Faults)
    requires UniqueIds(s.records) && Live(s) && f.removals == {}
    ensures Live(Pump(s, f))
    decreases |s.records|
  {
    PumpUnfold(s, f);
    var v := Victim(s);
    if v.Some? {
      var u := Evict(s, v.value.id);
      EvictShrinks(s, v.value);
      WithoutKeeps(s.records, {v.value.id});
      WithoutMembers(s.records, {v.value.id});
      PumpKeepsLive(u, f);
    } else if Pump(s, f) != s {
      var i := FirstStartable(s.records, s.clients);
      assert !s.reconciling && forall r :: r in s.records ==> !r.state.Downloading?;
      OneStarted(s, i);
    }
  }

  lemma OneStarted(s: Library, i: nat)
    requires i < |s.records| && !s.reconciling && forall r :: r in s.records ==> !r.state.Downloading?
    ensures Live(SetState(s, i, Failed)) && Live(Begin(s, i))
  {
    forall r | r in Begin(s, i).records && r.state.Downloading? ensures r == Begin(s, i).records[i] {
      assert r in s.records || r == Begin(s, i).records[i];
    }
  }

  /** One record comes to rest and at most its task goes. */
  lemma RestKeepsLive(s: Library, t: Library, i: nat, f: Faults)
    requires UniqueIds(s.records) && Live(s) && f.removals == {} && i < |s.records| == |t.records|
    requires t == s.(tasks := t.tasks, records := s.records[i := t.records[i]]) && t.records[i].id == s.records[i].id
    requires t.tasks == s.tasks || t.tasks == s.tasks - {s.records[i].id}
    requires !t.records[i].state.Downloading?
    ensures Live(t) && Live(Pump(t, f))
  {
    UpdatedUnique(s.records, i, t.records[i]);
    PumpKeepsLive(t, f);
  }

  lemma DeletionKeepsLive(s: Library, t: Library, ids: set<RecordId>, f: Faults)
    requires UniqueIds(s.records) && Live(s) && f.removals == {}
    requires t == s.(tasks := s.tasks - ids, records := Without(s.records, ids))
    ensures Live(Pump(t, f))
  {
    WithoutKeeps(s.records, ids);
    WithoutMembers(s.records, ids);
    PumpKeepsLive(t, f);
  }

  lemma DetachKeepsLive(s: Library, f: Faults)
    requires UniqueIds(s.records) && Live(s) && f.removals == {}
    ensures Live(Leave(s, f))
  {
    if s.scope.Some? {
      var scope := s.scope.value;
      var u := Disowned(s, scope);
      forall i | 0 <= i < |u.records| ensures u.records[i] == Detached(s.records[i], scope) { }
      assert UniqueIds(u.records);
      forall r | r in u.records && r.state.Downloading? && !s.reconciling ensures HasTask(r, u.tasks) {
        assert r in s.records && r.id !in Unfinished(s.records, scope);
      }
      PumpKeepsLive(u, f);
      assert Leave(s, f) == Pump(u, f).(scope := None);
    }
  }

  lemma EnqueueKeepsLive(s: Library, e: Event, f: Faults)
    requires UniqueIds(s.records) && Live(s) && f.removals == {} && e.Enqueue?
    ensures Live(Step(s, e, f))
  {
    var u, n := EnqueueEffect(s, e.tracks, e.automatic, e.now, e.present, f);
    if s.scope.Some? && s.scope.value in s.clients {
      HandledIsLive(s, s.scope.value, e.tracks[..n], e.automatic, e.now, e.present, u);
      PumpKeepsLive(u, f);
    }
  }

  lemma HandledIsLive(s: Library, scope: string, tracks: seq<string>, automatic: bool, now: int, present: set<RecordId>, u: Library)
    requires Live(s) && Handled(s, scope, tracks, automatic, now, present, u)
    ensures Live(u)
  {
    forall r | r in u.records && r.state.Downloading? && !s.reconciling ensures HasTask(r, u.tasks) {
      var i :| 0 <= i < |u.records| && u.records[i] == r;
      assert i < |s.records| && s.records[i] in s.records && s.records[i].state.Downloading? && s.records[i].transfer == r.transfer;
    }
  }

  lemma ReconcileKeepsLive(s: Library, survivors: map<RecordId, nat>, f: Faults)
    requires UniqueIds(s.records) && Live(s) && f.removals == {}
    ensures Live(Resume(s, survivors, f))
  {
    if s.reconciling {
      var u := Adopt(s, survivors);
      forall i | 0 <= i < |u.records| ensures u.records[i] == Looked(s.records[i], u.tasks) { }
      forall r | r in u.records && r.state.Downloading? ensures HasTask(r, u.tasks) {
        var i :| 0 <= i < |u.records| && u.records[i] == r;
        AdoptedTasks(s, survivors, s.records[i]);
      }
      assert UniqueIds(u.records);
      PumpKeepsLive(u, f);
    }
  }

  lemma ProgressKeepsLive(s: Library, e: Event, f: Faults)
    requires UniqueIds(s.records) && Live(s) && f.removals == {} && e.Progress?
    ensures Live(Step(s, e, f))
  {
    var i := Find(s.records, e.id);
    if i < |s.records| && s.records[i].state.Downloading? {
      var q := s.records[i].(bytes := e.bytes, expected := Max(0, e.expected));
      var t := s.(records := s.records[i := q]);
      var u := SetState(t.(tasks := t.tasks - {e.id}), i, Failed);
      NotedKeepsLive(s, i, q);
      RestKeepsLive(s, u, i, f);
      assert Step(s, e, f) in {s, t, Pump(u, f)};
    }
  }

  lemma NotedKeepsLive(s: Library, i: nat, q: Record)
    requires Live(s) && i < |s.records| && q == s.records[i].(bytes := q.bytes, expected := q.expected)
    ensures Live(s.(records := s.records[i := q]))
  {
    forall r | r in s.records[i := q] && r.state.Downloading? && !s.reconciling ensures HasTask(r, s.tasks) {
      assert s.records[i] in s.records;
    }
  }

  lemma FinishKeepsLive(s: Library, e: Event, f: Faults)
    requires UniqueIds(s.records) && Live(s) && f.removals == {} && e.Finish?
    ensures Live(Step(s, e, f))
  {
    if Accepts(s, e.id, e.task) {
      var i := Find(s.records, e.id);
      RestKeepsLive(s, Settle(s, i, e.delivery), i, f);
    }
  }

  lemma FailKeepsLive(s: Library, e: Event, f: Faults)
    requires Inv(s) && Live(s) && f.removals == {} && e.Fail?
    ensures Live(Step(s, e, f))
  {
    var t := s.(tasks := s.tasks - {e.id});
    var i := Find(s.records, e.id);
    if e.id in s.tasks { assert IsUnfinished(s, e.id); }
    if i < |s.records| {
      if s.records[i].state.Downloading? {
        RestKeepsLive(s, SetState(t, i, Failed), i, f);
        assert Step(s, e, f) in {s, Pump(SetState(t, i, Failed), f)};
      } else {
        assert t.records[i := t.records[i]] == t.records;
        RestKeepsLive(s, t, i, f);
        assert Step(s, e, f) in {s, t};
      }
    }
  }

  lemma PauseKeepsLive(s: Library, track: string, f: Faults)
    requires UniqueIds(s.records) && Live(s) && f.removals == {}
    ensures Live(Step(s, Pause(track), f))
  {
    if s.scope.Some? {
      var i := Find(s.records, RecordId(s.scope.value, track));
      if i < |s.records| { RestKeepsLive(s, SetState(s, i, Paused), i, f); }
    }
  }

  lemma RemovalKeepsLive(s: Library, e: Event, f: Faults)
    requires UniqueIds(s.records) && Live(s) && FilesGo(e, f) && (e.Remove? || e.ClearCurrent?)
    ensures Live(Step(s, e, f))
  {
    if s.scope.Some? {
      var scope := s.scope.value;
      match e
      case Remove(track) => DeletionKeepsLive(s, Evict(s, RecordId(scope, track)), {RecordId(scope, track)}, f);
      case ClearCurrent(_, kept) =>
        assert ScopeIds(s.records, scope) - kept == ScopeIds(s.records, scope);
        DeletionKeepsLive(s, Cleared(s, kept, scope), ScopeIds(s.records, scope), f);
    }
  }

  lemma SettingKeepsLive(s: Library, e: Event, f: Faults)
    requires UniqueIds(s.records) && Live(s) && f.removals == {}
    requires e.Configure? || e.SelectProfile? || e.PumpAgain? || e.SetLimit? || e.Protect? || e.Relaunch?
    ensures Live(Step(s, e, f))
  {
    match e
    case Configure(p) => PumpKeepsLive(s.(scope := Some(p), clients := s.clients + {p}), f);
    case PumpAgain => PumpKeepsLive(s, f);
    case _ =>
  }

  lemma StepKeepsLive(s: Library, e: Event, f: Faults)
    requires Inv(s) && Live(s) && FilesGo(e, f)
    ensures Live(Step(s, e, f))
  {
    match e
    case Enqueue(_, _, _, _) => EnqueueKeepsLive(s, e, f);
    case Progress(_, _, _, _) => ProgressKeepsLive(s, e, f);
    case Finish(_, _, _) => FinishKeepsLive(s, e, f);
    case Fail(_, _) => FailKeepsLive(s, e, f);
    case Reconcile(survivors) => ReconcileKeepsLive(s, survivors, f);
    case Detach => DetachKeepsLive(s, f);
    case Pause(track) => PauseKeepsLive(s, track, f);
    case Remove(_) => RemovalKeepsLive(s, e, f);
    case ClearCurrent(_, _) => RemovalKeepsLive(s, e, f);
    case _ => SettingKeepsLive(s, e, f);
  }

  lemma {:induction false} RunIsLive(es: seq<(Event, Faults)>)
    requires forall i :: 0 <= i < |es| ==> FilesGo(es[i].0, es[i].1)
    ensures Live(Run(EMPTY, es))
    decreases |es|
  {
    if es != [] {
      var n := |es| - 1;
      RunIsLive(es[..n]);
      ReachableInv(es[..n]);
      StepKeepsLive(Run(EMPTY, es[..n]), es[n].0, es[n].1);
    }
  }

  /** In every run in which the files that should go could be deleted, a record that counts as downloading has exactly the transfer
      it remembers, once the transfers are known. */
  lemma DownloadsAreLive(es: seq<(Event, Faults)>, i: nat)
    requires forall k :: 0 <= k < |es| ==> FilesGo(es[k].0, es[k].1)
    requires var s := Run(EMPTY, es); !s.reconciling && i < |s.records| && s.records[i].state.Downloading?
    ensures var s := Run(EMPTY, es); s.records[i].id in s.tasks && s.records[i].transfer == Some(s.tasks[s.records[i].id])
  {
    RunIsLive(es);
    assert Run(EMPTY, es).records[i] in Run(EMPTY, es).records;
  }

  /** So in every run without file errors, refused requests and changes of the limit, a transfer is held whenever a queued
      record of a configured account could start and there is room. */
  lemma NeverWithoutTransfer(es: seq<(Event, Faults)>, i: nat) returns (k: nat)
    requires forall j :: 0 <= j < |es| ==> FilesGo(es[j].0, es[j].1) && NoFaults(es[j].1) && !es[j].0.SetLimit?
    requires var s := Run(EMPTY, es);
             && !s.reconciling && i < |s.records| && MayStart(s.records[i], s.clients) && Total(s.records) < LimitBytes(s.limitGB)
    ensures var s := Run(EMPTY, es);
            && k < |s.records| && s.records[k].state.Downloading?
            && s.records[k].id in s.tasks && s.records[k].transfer == Some(s.tasks[s.records[k].id])
  {
    var s := Run(EMPTY, es);
    NeverIdle(es);
    assert AnyDownloading(s.records);
    k :| 0 <= k < |s.records| && s.records[k].state.Downloading?;
    DownloadsAreLive(es, k);
  }
}
