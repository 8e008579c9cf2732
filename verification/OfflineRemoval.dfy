/** What a removal that could not delete its files leaves behind. */
module OfflineRemoval {
  import opened Common
  import opened OfflineModel
  import opened OfflineProofs

  /** A removal stops the live attempt of its record exactly when the files could be deleted:
      after a file error the cancelled attempt may still publish. */
  lemma RemovalStopsAttemptExactly(s: Library, f: Faults, id: RecordId, task: nat, d: Delivery)
    requires Inv(s) && s.scope == Some(id.scope)
    requires Accepts(s, id, task) && Fits(s, d) && d.stored
    ensures Publishes(Step(s, Remove(id.track), f), Finish(id, task, d), id) <==> id in f.removals
  {
    if id !in f.removals {
      var i := Find(s.records, id);
      assert s.records[i].transfer == Some(task);
      RemoveRetires(s, f, id, task);
    }
  }

  /** Pump leaves a running or paused attempt as it is. */
  lemma {:induction false} PumpKeepsAttempt(s: Library, f: Faults, id: RecordId, task: nat)
    requires Inv(s) && Accepts(s, id, task)
    ensures Accepts(Pump(s, f), id, task)
    decreases |s.records|
  {
    PumpUnfold(s, f);
    var v := Victim(s);
    if v.None? {
      UpdateKeepsAttempt(s, Pump(s, f), FirstStartable(s.records, s.clients), id, task);
    } else if v.value.id !in f.removals {
      var t := Evict(s, v.value.id);
      EvictShrinks(s, v.value);
      EvictionKeepsAttempt(s, v.value, id, task);
      PumpKeepsAttempt(t, f, id, task);
    }
  }

  lemma EvictionKeepsAttempt(s: Library, v: Record, id: RecordId, task: nat)
    requires Inv(s) && Accepts(s, id, task) && v in s.records && v.state.Ready?
    ensures Inv(Evict(s, v.id)) && Accepts(Evict(s, v.id), id, task)
  {
    DeleteKeeps(s, Evict(s, v.id), {v.id}, id, task);
    WithoutKeepsAttempt(s, {v.id}, id, task);
  }

  lemma FoundRecord(rs: seq<Record>, r: Record)
    requires UniqueIds(rs) && r in rs
    ensures Find(rs, r.id) < |rs| && rs[Find(rs, r.id)] == r
  {
  }

  lemma UpdateKeepsAttempt(s: Library, t: Library, i: nat, id: RecordId, task: nat)
    requires UniqueIds(s.records) && Accepts(s, id, task)
    requires t == s || (i < |s.records| && s.records[i].state.Queued? && t in {SetState(s, i, Failed), Begin(s, i)})
    ensures Accepts(t, id, task)
  {
    var k := Find(s.records, id);
    if t != s {
      assert t.records[k] == s.records[k] && |t.records| == |s.records|;
      forall j | 0 <= j < |t.records| ensures t.records[j].id == s.records[j].id { }
      assert UniqueIds(t.records);
      FoundRecord(t.records, s.records[k]);
    }
  }

  /** Deleting other records leaves the attempt. */
  lemma WithoutKeepsAttempt(s: Library, ids: set<RecordId>, id: RecordId, task: nat)
    requires UniqueIds(s.records) && Accepts(s, id, task)
    requires forall r :: r in s.records && r.id in ids ==> r.state.Ready? || r.id != id
    ensures Accepts(s.(records := Without(s.records, ids)), id, task)
  {
    var r := s.records[Find(s.records, id)];
    assert r.id !in ids;
    WithoutMembers(s.records, ids);
    WithoutKeeps(s.records, ids);
    FoundRecord(Without(s.records, ids), r);
  }

  /** Removing the whole account stops an attempt exactly when the folder could be listed and the
      record's files could be deleted; otherwise its completion may still publish. */
  lemma ClearingStopsAttemptExactly(s: Library, listed: bool, kept: set<RecordId>, f: Faults, id: RecordId, task: nat, d: Delivery)
    requires Inv(s) && s.scope == Some(id.scope)
    requires Accepts(s, id, task) && Fits(s, d) && d.stored
    ensures Publishes(Step(s, ClearCurrent(listed, kept), f), Finish(id, task, d), id) <==> !listed || id in kept
  {
    if listed {
      ClearedAccount(s, kept, f, id, task, d);
    }
  }

  function Cleared(s: Library, kept: set<RecordId>, scope: string): Library {
    var doomed := ScopeIds(s.records, scope);
    s.(tasks := s.tasks - doomed, records := Without(s.records, doomed - kept))
  }

  lemma ClearedAccount(s: Library, kept: set<RecordId>, f: Faults, id: RecordId, task: nat, d: Delivery)
    requires Inv(s) && s.scope == Some(id.scope) && Accepts(s, id, task) && Fits(s, d)
    ensures var u := Cleared(s, kept, id.scope);
            if id in kept then Accepts(Pump(u, f), id, task) && Fits(Pump(u, f), d) else !Accepts(Pump(u, f), id, task)
  {
    var doomed := ScopeIds(s.records, id.scope);
    var t := s.(tasks := s.tasks - doomed);
    var u := Cleared(s, kept, id.scope);
    TameKeeps(s, t, id, task);
    DeleteKeeps(t, u, doomed - kept, id, task);
    if id in kept {
      ClearedButKept(t, u, doomed - kept, f, id, task, d);
    } else {
      assert s.records[Find(s.records, id)].id == id;
      ClearedAway(s, t, u, doomed - kept, f, id, task);
    }
  }

  lemma ClearedButKept(t: Library, u: Library, ids: set<RecordId>, f: Faults, id: RecordId, task: nat, d: Delivery)
    requires Inv(t) && Inv(u) && u == t.(records := Without(t.records, ids)) && id !in ids
    requires Accepts(t, id, task) && Fits(t, d) && Total(u.records) <= Total(t.records)
    ensures Accepts(Pump(u, f), id, task) && Fits(Pump(u, f), d)
  {
    WithoutKeepsAttempt(t, ids, id, task);
    PumpKeepsAttempt(u, f, id, task);
    PumpKeeps(u, f, id, task);
    PumpKeepsLimit(u, f);
  }

  lemma {:induction false} PumpKeepsLimit(s: Library, f: Faults)
    requires UniqueIds(s.records)
    ensures Pump(s, f).limitGB == s.limitGB
    decreases |s.records|
  {
    PumpUnfold(s, f);
    if Victim(s).Some? && Victim(s).value.id !in f.removals {
      EvictShrinks(s, Victim(s).value);
      WithoutKeeps(s.records, {Victim(s).value.id});
      PumpKeepsLimit(Evict(s, Victim(s).value.id), f);
    }
  }

  lemma ClearedAway(s: Library, t: Library, u: Library, ids: set<RecordId>, f: Faults, id: RecordId, task: nat)
    requires Inv(s) && Inv(u) && Accepts(s, id, task) && id in ids
    requires t == s.(tasks := t.tasks) && id !in t.tasks && u == t.(records := Without(t.records, ids))
    ensures !Accepts(Pump(u, f), id, task)
  {
    var r := s.records[Find(s.records, id)];
    assert r.transfer == Some(task) && task < s.nextTask;
    WithoutMembers(t.records, ids);
    assert Retired(u, id, task);
    PumpKeeps(u, f, id, task);
    RetiredIsNotAccepted(Pump(u, f), id, task);
  }

  lemma RetiredIsNotAccepted(s: Library, id: RecordId, task: nat)
    requires Retired(s, id, task)
    ensures !Accepts(s, id, task)
  {
  }

  // ---- such a run ----

  const ID: RecordId := RecordId("p", "t")
  const NO_FAULTS: Faults := Faults({}, {})

  /** Log in, download one track, and fail to delete its files. */
  const KEPT_FILES: seq<(Event, Faults)> :=
    [(Reconcile(map[]), NO_FAULTS), (Configure("p"), NO_FAULTS), (Enqueue(["t"], false, 0, {}), NO_FAULTS),
     (Remove("t"), Faults({ID}, {}))]

  function Downloaded(): Library {
    EMPTY.(reconciling := false, scope := Some("p"), clients := {"p"},
           records := [Record(ID, Downloading, 0, 0, Some(0), false, 0)], tasks := map[ID := 0],
           nextTask := 1, issued := map[ID := 0])
  }

  /** The cancelled transfer of a removed track becomes a ready file again. */
  lemma CancelledTransferCanPublish()
    ensures IsReady(Run(EMPTY, KEPT_FILES + [(Finish(ID, 0, Media(1, true)), NO_FAULTS)]), ID)
  {
    var e := EMPTY;
    var a := Step(e, Reconcile(map[]), NO_FAULTS);
    assert a == e.(reconciling := false);
    var b := Step(a, Configure("p"), NO_FAULTS);
    assert b == a.(scope := Some("p"), clients := {"p"});
    StartsOne(b);
    var d := Downloaded().(tasks := map[]);
    FilesStay();
    var es := KEPT_FILES;
    assert es[..3][..2] == es[..2] && es[..2][..1] == es[..1] && es[..1][..0] == [];
    assert Run(e, es[..1]) == a;
    assert Run(e, es[..2]) == b;
    assert Run(e, es[..3]) == Downloaded();
    assert Run(e, es) == d;
    var all := es + [(Finish(ID, 0, Media(1, true)), NO_FAULTS)];
    assert all[..4] == es;
    Publishing(d);
  }

  lemma FilesStay()
    ensures Step(Downloaded(), Remove("t"), Faults({ID}, {})) == Downloaded().(tasks := map[])
  {
    assert Find(Downloaded().records, ID) == 0;
  }

  lemma StartsOne(b: Library)
    requires b == EMPTY.(reconciling := false, scope := Some("p"), clients := {"p"})
    ensures Step(b, Enqueue(["t"], false, 0, {}), NO_FAULTS) == Downloaded()
  {
    var q := b.(records := [Record(ID, Queued, 0, 0, None, false, 0)]);
    assert ["t"][1..] == [];
    assert EnqueueAll(q, [], false, 0, {}) == q;
    assert EnqueueAll(b, ["t"], false, 0, {}) == q;
    assert Total(q.records) == 0;
    assert FirstStartable(q.records, q.clients) == 0;
    assert Pump(q, NO_FAULTS) == Begin(q, 0);
  }

  lemma Publishing(d: Library)
    requires d == Downloaded().(tasks := map[])
    ensures IsReady(Step(d, Finish(ID, 0, Media(1, true)), NO_FAULTS), ID)
  {
    assert Find(d.records, ID) == 0;
    assert d.records[1..] == [];
    var t := Settle(d, 0, Media(1, true));
    assert t.records[0].state.Ready? && t.records[0].id == ID && |t.records| == 1;
    assert FirstStartable(t.records[1..], t.clients) == 0;
    assert Pump(t, NO_FAULTS) == t;
  }
}
