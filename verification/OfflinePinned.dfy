/** What was downloaded on purpose stays: only its own removal takes a pinned or protected file away. */
module OfflinePinned {
  import opened Common
  import opened OfflineModel
  import opened OfflineProofs
  import opened OfflineRemoval
  import opened OfflineProgress
  import opened OfflineEffects

  /** A ready record that is pinned or protected. */
  predicate Safe(s: Library, r: Record) {
    r in s.records && r.state.Ready? && (r.automatic ==> r.id.track in s.protectedTracks)
  }

  /** The event neither removes the record nor asks for its track again, nor takes its protection away. */
  predicate Spares(e: Event, r: Record) {
    && !(e.Remove? && e.track == r.id.track) && !e.ClearCurrent? && !(e.Enqueue? && r.id.track in e.tracks)
    && (r.automatic ==> !e.Relaunch? && (e.Protect? ==> r.id.track in e.ids))
  }

  lemma PumpKeepsSafe(s: Library, f: Faults, r: Record)
    requires UniqueIds(s.records) && Safe(s, r)
    ensures Safe(Pump(s, f), r)
  {
    PumpKeepsSteady(s, f, r);
    PumpKeepsProtection(s, f);
  }

  lemma {:induction false} PumpKeepsProtection(s: Library, f: Faults)
    requires UniqueIds(s.records)
    ensures Pump(s, f).protectedTracks == s.protectedTracks
    decreases |s.records|
  {
    PumpUnfold(s, f);
    if Victim(s).Some? && Victim(s).value.id !in f.removals {
      EvictShrinks(s, Victim(s).value);
      WithoutKeeps(s.records, {Victim(s).value.id});
      PumpKeepsProtection(Evict(s, Victim(s).value.id), f);
    }
  }

  /** One other record changes. */
  lemma UpdateKeepsSafe(s: Library, t: Library, i: nat, f: Faults, r: Record)
    requires UniqueIds(s.records) && Safe(s, r) && i < |s.records| == |t.records| && s.records[i] != r
    requires t == s.(tasks := t.tasks, records := s.records[i := t.records[i]]) && t.records[i].id == s.records[i].id
    ensures Safe(t, r) && Safe(Pump(t, f), r)
  {
    UpdatedUnique(s.records, i, t.records[i]);
    var k :| 0 <= k < |s.records| && s.records[k] == r;
    assert t.records[k] == r;
    PumpKeepsSafe(t, f, r);
  }

  lemma AdoptionKeepsSafe(s: Library, survivors: map<RecordId, nat>, f: Faults, r: Record)
    requires UniqueIds(s.records) && Safe(s, r)
    ensures Safe(Resume(s, survivors, f), r)
  {
    AdoptedRecord(s, survivors, r);
    PumpKeepsSafe(Adopt(s, survivors), f, r);
  }

  lemma EnqueueKeepsSafe(s: Library, e: Event, f: Faults, r: Record)
    requires UniqueIds(s.records) && Safe(s, r) && e.Enqueue? && Spares(e, r)
    ensures Safe(Step(s, e, f), r)
  {
    var u, n := EnqueueEffect(s, e.tracks, e.automatic, e.now, e.present, f);
    if s.scope.Some? && s.scope.value in s.clients {
      var i :| 0 <= i < |s.records| && s.records[i] == r;
      assert r.id !in Asked(s.scope.value, e.tracks[..n]);
      assert u.records[i] == r;
      PumpKeepsSafe(u, f, r);
    }
  }

  lemma DetachKeepsSafe(s: Library, f: Faults, r: Record)
    requires UniqueIds(s.records) && Safe(s, r)
    ensures Safe(Leave(s, f), r)
  {
    if s.scope.Some? {
      var u := Disowned(s, s.scope.value);
      var i :| 0 <= i < |s.records| && s.records[i] == r;
      assert u.records[i] == Detached(r, s.scope.value) == r;
      forall j | 0 <= j < |u.records| ensures u.records[j].id == s.records[j].id { }
      PumpKeepsSafe(u, f, r);
    }
  }

  lemma RequestKeepsSafe(s: Library, e: Event, f: Faults, r: Record)
    requires UniqueIds(s.records) && Safe(s, r) && Spares(e, r) && (e.Detach? || e.Pause? || e.Remove?)
    ensures Safe(Step(s, e, f), r)
  {
    match e
    case Detach => DetachKeepsSafe(s, f, r);
    case Pause(track) =>
      if s.scope.Some? {
        var i := Find(s.records, RecordId(s.scope.value, track));
        if i < |s.records| && !s.records[i].state.Ready? { UpdateKeepsSafe(s, SetState(s, i, Paused), i, f, r); }
      }
    case Remove(track) =>
      if s.scope.Some? {
        var id := RecordId(s.scope.value, track);
        WithoutKeeps(s.records, {id});
        WithoutMembers(s.records, {id});
        PumpKeepsSafe(Evict(s, id), f, r);
      }
  }

  lemma ProgressKeepsSafe(s: Library, e: Event, f: Faults, r: Record)
    requires UniqueIds(s.records) && Safe(s, r) && e.Progress?
    ensures Safe(Step(s, e, f), r)
  {
    var i := Find(s.records, e.id);
    if i < |s.records| && s.records[i].state.Downloading? {
      var t := s.(records := s.records[i := s.records[i].(bytes := e.bytes, expected := Max(0, e.expected))]);
      var u := SetState(t.(tasks := t.tasks - {e.id}), i, Failed);
      UpdateKeepsSafe(s, t, i, f, r);
      UpdateKeepsSafe(s, u, i, f, r);
      assert Step(s, e, f) in {s, t, Pump(u, f)};
    }
  }

  lemma FinishKeepsSafe(s: Library, e: Event, f: Faults, r: Record)
    requires UniqueIds(s.records) && Safe(s, r) && e.Finish?
    ensures Safe(Step(s, e, f), r)
  {
    var i := Find(s.records, e.id);
    if Accepts(s, e.id, e.task) {
      UpdateKeepsSafe(s, Settle(s, i, e.delivery), i, f, r);
    }
  }

  lemma FailKeepsSafe(s: Library, e: Event, f: Faults, r: Record)
    requires UniqueIds(s.records) && Safe(s, r) && e.Fail?
    ensures Safe(Step(s, e, f), r)
  {
    var t := s.(tasks := s.tasks - {e.id});
    var i := Find(s.records, e.id);
    if i < |s.records| && s.records[i].state.Downloading? {
      UpdateKeepsSafe(s, SetState(t, i, Failed), i, f, r);
      assert Step(s, e, f) in {s, Pump(SetState(t, i, Failed), f)};
    }
  }

  lemma SettingKeepsSafe(s: Library, e: Event, f: Faults, r: Record)
    requires UniqueIds(s.records) && Safe(s, r) && Spares(e, r)
    requires e.Configure? || e.SelectProfile? || e.PumpAgain? || e.SetLimit? || e.Protect? || e.Relaunch?
    ensures Safe(Step(s, e, f), r)
  {
    match e
    case Configure(p) => PumpKeepsSafe(s.(scope := Some(p), clients := s.clients + {p}), f, r);
    case PumpAgain => PumpKeepsSafe(s, f, r);
    case _ =>
  }

  lemma StepKeepsSafe(s: Library, e: Event, f: Faults, r: Record)
    requires UniqueIds(s.records) && Safe(s, r) && Spares(e, r)
    ensures Safe(Step(s, e, f), r)
  {
    match e
    case Enqueue(_, _, _, _) => EnqueueKeepsSafe(s, e, f, r);
    case Progress(_, _, _, _) => ProgressKeepsSafe(s, e, f, r);
    case Finish(_, _, _) => FinishKeepsSafe(s, e, f, r);
    case Fail(_, _) => FailKeepsSafe(s, e, f, r);
    case Reconcile(survivors) => AdoptionKeepsSafe(s, survivors, f, r);
    case Detach => RequestKeepsSafe(s, e, f, r);
    case Pause(_) => RequestKeepsSafe(s, e, f, r);
    case Remove(_) => RequestKeepsSafe(s, e, f, r);
    case _ => SettingKeepsSafe(s, e, f, r);
  }

  /** A ready file that a user pinned, or that is protected because it plays, stays as it is through every
      run that does not remove it, clear the account, ask for it again or take the protection away:
      no eviction, callback, logout or launch touches it. */
  lemma {:induction false} PinnedFilesStay(s: Library, es: seq<(Event, Faults)>, r: Record)
    requires Inv(s) && Safe(s, r) && forall i :: 0 <= i < |es| ==> Spares(es[i].0, r)
    ensures Safe(Run(s, es), r)
    decreases |es|
  {
    if es != [] {
      var n := |es| - 1;
      PinnedFilesStay(s, es[..n], r);
      RunInv(s, es[..n]);
      StepKeepsSafe(Run(s, es[..n]), es[n].0, es[n].1, r);
    }
  }
}
