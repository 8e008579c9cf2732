/** What every run of the offline library keeps: the attempt identity of published files, the
    single transfer, the byte budget and the eviction order. */
module OfflineProofs {
  import opened Common
  import opened OfflineModel

  ghost predicate UniqueIds(rs: seq<Record>) {
    forall i, j :: 0 <= i < j < |rs| ==> rs[i].id != rs[j].id
  }

  ghost predicate OneDownloading(rs: seq<Record>) {
    forall i, j :: 0 <= i < j < |rs| ==> !(rs[i].state.Downloading? && rs[j].state.Downloading?)
  }

  ghost predicate ReadyNonEmpty(rs: seq<Record>) {
    forall i :: 0 <= i < |rs| && rs[i].state.Ready? ==> rs[i].bytes > 0
  }

  /** Every attempt a record remembers is the one pump issued to it last, and no identifier
      in use is still unissued. */
  ghost predicate AttemptsIssued(s: Library) {
    && (forall i :: 0 <= i < |s.records| && s.records[i].transfer.Some? ==>
          var r := s.records[i];
          r.id in s.issued && s.issued[r.id] == r.transfer.value && r.transfer.value < s.nextTask)
    && (forall id :: id in s.tasks ==> s.tasks[id] < s.nextTask)
  }

  /** Every live task belongs to an unfinished record. */
  ghost predicate TasksUnfinished(s: Library) {
    forall id :: id in s.tasks ==> IsUnfinished(s, id)
  }

  ghost predicate IsUnfinished(s: Library, id: RecordId) {
    exists i :: 0 <= i < |s.records| && s.records[i].id == id && !s.records[i].state.Ready?
  }

  ghost predicate Inv(s: Library) {
    && UniqueIds(s.records)
    && OneDownloading(s.records)
    && ReadyNonEmpty(s.records)
    && AttemptsIssued(s)
    && TasksUnfinished(s)
  }

  ghost predicate IsReady(s: Library, id: RecordId) {
    exists i :: 0 <= i < |s.records| && s.records[i].id == id && s.records[i].state.Ready?
  }

  /** Attempt `task` of record `id` was issued once and nothing refers to it any more. */
  ghost predicate Retired(s: Library, id: RecordId, task: nat) {
    && task < s.nextTask
    && (id in s.tasks ==> s.tasks[id] != task)
    && (forall i :: 0 <= i < |s.records| && s.records[i].id == id ==> s.records[i].transfer != Some(task))
  }

  function Weight(r: Record): int { if r.state.Ready? then r.bytes else 0 }

  // ---- sequences of records ----

  lemma {:induction false} TotalUpdate(rs: seq<Record>, i: nat, r: Record)
    requires i < |rs|
    ensures Total(rs[i := r]) == Total(rs) - Weight(rs[i]) + Weight(r)
  {
    if i > 0 {
      TotalUpdate(rs[1..], i - 1, r);
      assert rs[i := r][1..] == rs[1..][i - 1 := r];
    } else {
      assert rs[i := r][1..] == rs[1..];
    }
  }

  lemma {:induction false} TotalWithout(rs: seq<Record>, ids: set<RecordId>)
    requires ReadyNonEmpty(rs)
    ensures 0 <= Total(Without(rs, ids)) <= Total(rs)
  {
    if rs != [] { TotalWithout(rs[1..], ids); }
  }

  /** A pointwise change that creates no ready record cannot raise the total. */
  lemma {:induction false} TotalTame(rs: seq<Record>, ts: seq<Record>)
    requires |rs| == |ts| && ReadyNonEmpty(rs)
    requires forall i :: 0 <= i < |rs| ==> Tame(rs[i], ts[i])
    ensures Total(ts) <= Total(rs)
  {
    if rs != [] {
      assert Tame(rs[0], ts[0]);
      TotalTame(rs[1..], ts[1..]);
    }
  }

  lemma {:induction false} TotalAppend(rs: seq<Record>, r: Record)
    ensures Total(rs + [r]) == Total(rs) + Weight(r)
  {
    if rs == [] {
      assert rs + [r] == [r];
    } else {
      TotalAppend(rs[1..], r);
      assert (rs + [r])[1..] == rs[1..] + [r];
    }
  }

  /** Exactly the records with other ids survive. */
  lemma {:induction false} WithoutMembers(rs: seq<Record>, ids: set<RecordId>)
    ensures forall r :: r in Without(rs, ids) <==> r in rs && r.id !in ids
  {
    if rs != [] { WithoutMembers(rs[1..], ids); }
  }

  lemma {:induction false} WithoutKeeps(rs: seq<Record>, ids: set<RecordId>)
    ensures UniqueIds(rs) ==> UniqueIds(Without(rs, ids))
    ensures OneDownloading(rs) ==> OneDownloading(Without(rs, ids))
    ensures ReadyNonEmpty(rs) ==> ReadyNonEmpty(Without(rs, ids))
  {
    if rs != [] {
      WithoutKeeps(rs[1..], ids);
      WithoutMembers(rs[1..], ids);
    }
  }

  lemma {:induction false} WithoutTwice(rs: seq<Record>, a: set<RecordId>, b: set<RecordId>)
    ensures Without(Without(rs, a), b) == Without(rs, a + b)
  {
    if rs != [] { WithoutTwice(rs[1..], a, b); }
  }

  // ---- what a step keeps ----

  /** What every step except a publishing `finish` does to record `id` and attempt `task`:
      the invariant holds again, the total does not rise, and neither readiness nor a
      retired attempt comes back. */
  ghost predicate Keeps(s: Library, t: Library, id: RecordId, task: nat) {
    && Inv(t)
    && Total(t.records) <= Total(s.records)
    && (IsReady(t, id) ==> IsReady(s, id))
    && (Retired(s, id, task) ==> Retired(t, id, task))
  }

  /** q is r after losing progress: never newly ready or downloading, never a new attempt. */
  ghost predicate Tame(r: Record, q: Record) {
    && q.id == r.id
    && (q.transfer == r.transfer || q.transfer.None?)
    && (q.state.Ready? ==> r.state.Ready? && q.bytes == r.bytes)
    && (q.state.Downloading? ==> r.state.Downloading?)
  }

  /** t is s with every record tamed and possibly with fewer tasks. */
  ghost predicate TameStep(s: Library, t: Library) {
    && |t.records| == |s.records|
    && (forall i :: 0 <= i < |s.records| ==> Tame(s.records[i], t.records[i]))
    && (forall id :: id in t.tasks ==> id in s.tasks && t.tasks[id] == s.tasks[id])
    && t.nextTask == s.nextTask && t.issued == s.issued
  }

  lemma TameKeeps(s: Library, t: Library, id: RecordId, task: nat)
    requires Inv(s) && TameStep(s, t)
    ensures Keeps(s, t, id, task)
  {
    TotalTame(s.records, t.records);
    forall k | k in t.tasks ensures IsUnfinished(t, k) {
      assert IsUnfinished(s, k);
      var i :| 0 <= i < |s.records| && s.records[i].id == k && !s.records[i].state.Ready?;
      assert Tame(s.records[i], t.records[i]);
    }
  }

  lemma KeepsTwice(s: Library, u: Library, t: Library, id: RecordId, task: nat)
    requires Keeps(s, u, id, task) && Keeps(u, t, id, task)
    ensures Keeps(s, t, id, task)
  {
  }

  /** Deleting records leaves the attempts and the tasks of the others alone. */
  lemma DeleteOwners(s: Library, t: Library, ids: set<RecordId>)
    requires AttemptsIssued(s) && TasksUnfinished(s)
    requires forall r :: r in t.records <==> r in s.records && r.id !in ids
    requires forall k :: k in t.tasks ==> k in s.tasks && t.tasks[k] == s.tasks[k] && k !in ids
    requires t.nextTask == s.nextTask && t.issued == s.issued
    ensures AttemptsIssued(t) && TasksUnfinished(t)
  {
    forall i | 0 <= i < |t.records| ensures t.records[i] in s.records { }
    forall k | k in t.tasks ensures IsUnfinished(t, k) {
      assert IsUnfinished(s, k);
      var i :| 0 <= i < |s.records| && s.records[i].id == k && !s.records[i].state.Ready?;
      assert s.records[i] in t.records;
    }
  }

  lemma DeleteHistory(s: Library, t: Library, id: RecordId, task: nat)
    requires forall r :: r in t.records ==> r in s.records
    requires forall k :: k in t.tasks ==> k in s.tasks && t.tasks[k] == s.tasks[k]
    requires t.nextTask == s.nextTask
    ensures IsReady(t, id) ==> IsReady(s, id)
    ensures Retired(s, id, task) ==> Retired(t, id, task)
  {
    forall i | 0 <= i < |t.records| ensures t.records[i] in s.records { }
  }

  /** t is s after deleting records by id and possibly dropping tasks. */
  lemma DeleteKeeps(s: Library, t: Library, ids: set<RecordId>, id: RecordId, task: nat)
    requires Inv(s)
    requires t.records == Without(s.records, ids)
    requires forall k :: k in t.tasks ==> k in s.tasks && t.tasks[k] == s.tasks[k] && k !in ids
    requires t.nextTask == s.nextTask && t.issued == s.issued
    ensures Keeps(s, t, id, task)
  {
    WithoutKeeps(s.records, ids);
    TotalWithout(s.records, ids);
    WithoutMembers(s.records, ids);
    DeleteOwners(s, t, ids);
    DeleteHistory(s, t, id, task);
  }

  /** Replacing one record keeps ids unique and at most one record downloading. */
  lemma UpdateRecords(rs: seq<Record>, i: nat, r: Record)
    requires UniqueIds(rs) && OneDownloading(rs) && ReadyNonEmpty(rs) && i < |rs| && r.id == rs[i].id
    requires r.state.Downloading? ==> rs[i].state.Downloading? || !AnyDownloading(rs)
    requires r.state.Ready? ==> r.bytes > 0
    ensures UniqueIds(rs[i := r]) && OneDownloading(rs[i := r]) && ReadyNonEmpty(rs[i := r])
  {
  }

  lemma BeginHistory(s: Library, i: nat, id: RecordId, task: nat)
    requires i < |s.records| && UniqueIds(s.records) && AttemptsIssued(s)
    ensures AttemptsIssued(Begin(s, i))
    ensures IsReady(Begin(s, i), id) ==> IsReady(s, id)
    ensures Retired(s, id, task) ==> Retired(Begin(s, i), id, task)
  {
  }

  lemma BeginKeeps(s: Library, i: nat, id: RecordId, task: nat)
    requires Inv(s) && i < |s.records| && s.records[i].state.Queued? && !AnyDownloading(s.records)
    ensures Keeps(s, Begin(s, i), id, task)
  {
    var r := Begin(s, i).records[i];
    TotalUpdate(s.records, i, r);
    UpdateRecords(s.records, i, r);
    UpdateUnfinished(s, Begin(s, i), i);
    BeginHistory(s, i, id, task);
  }

  /** Replacing one record by an unfinished one, or dropping its task, keeps the tasks owned. */
  lemma UpdateUnfinished(s: Library, t: Library, i: nat)
    requires TasksUnfinished(s) && i < |s.records| == |t.records|
    requires t.records == s.records[i := t.records[i]] && t.records[i].id == s.records[i].id
    requires forall k :: k in t.tasks ==> k in s.tasks || k == s.records[i].id
    requires s.records[i].id in t.tasks ==> !t.records[i].state.Ready?
    ensures TasksUnfinished(t)
  {
    forall k | k in t.tasks ensures IsUnfinished(t, k) {
      if k == t.records[i].id {
        assert !t.records[i].state.Ready?;
      } else {
        assert IsUnfinished(s, k);
        var j :| 0 <= j < |s.records| && s.records[j].id == k && !s.records[j].state.Ready?;
        assert t.records[j] == s.records[j];
      }
    }
  }

  // ---- pump ----

  function Evict(s: Library, id: RecordId): Library {
    s.(tasks := s.tasks - {id}, records := Without(s.records, {id}))
  }

  /** The record pump tries to evict now, if it evicts at all. */
  function Victim(s: Library): (v: Option<Record>)
    ensures v.Some? ==> v.value in s.records && Evictable(v.value, s.scope, s.protectedTracks)
  {
    if s.reconciling || AnyDownloading(s.records)
       || FirstStartable(s.records, s.clients) == |s.records|
       || Total(s.records) < LimitBytes(s.limitGB)
    then None else Oldest(s.records, s.scope, s.protectedTracks)
  }

  lemma EvictShrinks(s: Library, r: Record)
    requires r in s.records
    ensures |Evict(s, r.id).records| < |s.records|
  {
  }

  /** The four ways pump can go, with the call of `remove` unfolded. */
  lemma PumpUnfold(s: Library, f: Faults)
    requires UniqueIds(s.records)
    ensures Victim(s).Some? ==>
              var id := Victim(s).value.id;
              Pump(s, f) == if id in f.removals then s.(tasks := s.tasks - {id}) else Pump(Evict(s, id), f)
    ensures Victim(s).None? ==>
              var i := FirstStartable(s.records, s.clients);
              Pump(s, f) == s
              || (i < |s.records| && s.records[i].state.Queued? && !AnyDownloading(s.records)
                  && Pump(s, f) in {SetState(s, i, Failed), Begin(s, i)})
  {
  }

  /** The last step of pump, when there is nothing to evict. */
  lemma PumpTailKeeps(s: Library, f: Faults, id: RecordId, task: nat)
    requires Inv(s) && Victim(s).None?
    ensures Keeps(s, Pump(s, f), id, task)
  {
    PumpUnfold(s, f);
    if Pump(s, f) != s {
      var i := FirstStartable(s.records, s.clients);
      if Pump(s, f) == SetState(s, i, Failed) {
        TameKeeps(s, Pump(s, f), id, task);
      } else {
        BeginKeeps(s, i, id, task);
      }
    }
  }

  lemma {:induction false} PumpKeeps(s: Library, f: Faults, id: RecordId, task: nat)
    requires Inv(s)
    ensures Keeps(s, Pump(s, f), id, task)
    decreases |s.records|
  {
    var v := Victim(s);
    if v.None? {
      PumpTailKeeps(s, f, id, task);
    } else {
      PumpUnfold(s, f);
      if v.value.id in f.removals {
        TameKeeps(s, Pump(s, f), id, task);
      } else {
        var t := Evict(s, v.value.id);
        EvictShrinks(s, v.value);
        DeleteKeeps(s, t, {v.value.id}, id, task);
        PumpKeeps(t, f, id, task);
        KeepsTwice(s, t, Pump(t, f), id, task);
      }
    }
  }

  /** A tame change followed by pump. */
  lemma TamePumpKeeps(s: Library, t: Library, f: Faults, id: RecordId, task: nat)
    requires Inv(s) && TameStep(s, t)
    ensures Keeps(s, Pump(t, f), id, task)
  {
    TameKeeps(s, t, id, task);
    PumpKeeps(t, f, id, task);
  }

  lemma RemoveKeeps(s: Library, track: string, f: Faults, id: RecordId, task: nat)
    requires Inv(s)
    ensures Keeps(s, RemoveTrack(s, track, f), id, task)
  {
    if s.scope.Some? {
      var me := RecordId(s.scope.value, track);
      if me in f.removals {
        TameKeeps(s, s.(tasks := s.tasks - {me}), id, task);
      } else {
        DeleteKeeps(s, Evict(s, me), {me}, id, task);
        PumpKeeps(Evict(s, me), f, id, task);
      }
    }
  }

  lemma AppendKeeps(s: Library, r: Record, id: RecordId, task: nat)
    requires Inv(s)
    requires forall i :: 0 <= i < |s.records| ==> s.records[i].id != r.id
    requires r.state.Queued? && r.transfer.None?
    ensures Keeps(s, s.(records := s.records + [r]), id, task)
  {
    TotalAppend(s.records, r);
    var t := s.(records := s.records + [r]);
    forall k | k in t.tasks ensures IsUnfinished(t, k) {
      assert IsUnfinished(s, k);
      var j :| 0 <= j < |s.records| && s.records[j].id == k && !s.records[j].state.Ready?;
      assert t.records[j] == s.records[j];
    }
  }

  /** Asking again for a record that exists. */
  function Requeued(s: Library, i: nat, automatic: bool, present: set<RecordId>): Library
    requires i < |s.records|
  {
    var r := if automatic then s.records[i] else s.records[i].(automatic := false);
    var keep := (r.state.Ready? && r.id in present) || r.state.Downloading?;
    s.(records := s.records[i := if keep then r else r.(state := Queued)])
  }

  lemma RequeuedKeeps(s: Library, i: nat, automatic: bool, present: set<RecordId>, id: RecordId, task: nat)
    requires Inv(s) && i < |s.records|
    ensures Keeps(s, Requeued(s, i, automatic, present), id, task)
  {
    TameKeeps(s, Requeued(s, i, automatic, present), id, task);
  }

  /** The library after the first track of a batch, if the batch goes on. */
  function AfterFirst(s: Library, track: string, automatic: bool, now: int, present: set<RecordId>): Option<Library>
    requires s.scope.Some?
  {
    var me := RecordId(s.scope.value, track);
    var i := Find(s.records, me);
    if i < |s.records| then Some(Requeued(s, i, automatic, present))
    else if |s.records| >= MAXIMUM_RECORDS then None
    else Some(s.(records := s.records + [Record(me, Queued, 0, 0, None, automatic, now)]))
  }

  lemma FirstKeeps(s: Library, track: string, automatic: bool, now: int, present: set<RecordId>, id: RecordId, task: nat)
    requires Inv(s) && s.scope.Some?
    ensures var t := AfterFirst(s, track, automatic, now, present);
            t.Some? ==> Keeps(s, t.value, id, task) && t.value.scope == s.scope
  {
    var me := RecordId(s.scope.value, track);
    var i := Find(s.records, me);
    if i < |s.records| {
      RequeuedKeeps(s, i, automatic, present, id, task);
    } else if |s.records| < MAXIMUM_RECORDS {
      AppendKeeps(s, Record(me, Queued, 0, 0, None, automatic, now), id, task);
    }
  }

  lemma {:induction false} EnqueueKeeps(s: Library, tracks: seq<string>, automatic: bool, now: int, present: set<RecordId>,
                                        id: RecordId, task: nat)
    requires Inv(s) && s.scope.Some?
    ensures Keeps(s, EnqueueAll(s, tracks, automatic, now, present), id, task)
    decreases |tracks|
  {
    if tracks != [] {
      var t := AfterFirst(s, tracks[0], automatic, now, present);
      FirstKeeps(s, tracks[0], automatic, now, present, id, task);
      if t.Some? {
        EnqueueKeeps(t.value, tracks[1..], automatic, now, present, id, task);
        KeepsTwice(s, t.value, EnqueueAll(t.value, tracks[1..], automatic, now, present), id, task);
        assert EnqueueAll(s, tracks, automatic, now, present) == EnqueueAll(t.value, tracks[1..], automatic, now, present);
      }
    }
  }

  /** An adopted transfer is the attempt its record remembers. */
  lemma AdoptedTask(s: Library, survivors: map<RecordId, nat>, k: RecordId)
    requires Inv(s) && k in survivors && Adoptable(s.records, k, survivors[k])
    ensures survivors[k] < s.nextTask && IsUnfinished(Adopt(s, survivors), k)
  {
    var i := Find(s.records, k);
    assert s.records[i].transfer == Some(survivors[k]);
    assert Adopt(s, survivors).records[i].id == k;
  }

  /** No task after the adoption is a retired attempt. */
  lemma AdoptedIsLive(s: Library, survivors: map<RecordId, nat>, k: RecordId)
    requires k in Adopt(s, survivors).tasks
    ensures var t := Adopt(s, survivors); !Retired(t.(tasks := s.tasks), k, t.tasks[k])
  {
    var t := Adopt(s, survivors);
    if k in survivors && Adoptable(s.records, k, survivors[k]) {
      var i := Find(s.records, k);
      assert t.records[i].id == k && t.records[i].transfer == Some(survivors[k]);
    }
  }

  lemma AdoptTames(s: Library, survivors: map<RecordId, nat>)
    ensures var t := Adopt(s, survivors);
            TameStep(s, t.(tasks := s.tasks)) && t.nextTask == s.nextTask
  {
  }

  lemma AdoptTask(s: Library, survivors: map<RecordId, nat>, k: RecordId)
    requires Inv(s) && k in Adopt(s, survivors).tasks
    ensures var t := Adopt(s, survivors);
            IsUnfinished(t, k) && t.tasks[k] < s.nextTask
  {
    var t := Adopt(s, survivors);
    if k in survivors && Adoptable(s.records, k, survivors[k]) {
      AdoptedTask(s, survivors, k);
    } else {
      assert k in s.tasks && t.tasks[k] == s.tasks[k];
      AdoptTames(s, survivors);
      assert IsUnfinished(s, k);
      var i :| 0 <= i < |s.records| && s.records[i].id == k && !s.records[i].state.Ready?;
      assert Tame(s.records[i], t.records[i]);
    }
  }

  lemma AdoptTasks(s: Library, survivors: map<RecordId, nat>, id: RecordId, task: nat)
    requires Inv(s) && Inv(Adopt(s, survivors).(tasks := s.tasks))
    ensures var t := Adopt(s, survivors); Keeps(t.(tasks := s.tasks), t, id, task)
  {
    var t := Adopt(s, survivors);
    forall k | k in t.tasks ensures IsUnfinished(t, k) && t.tasks[k] < t.nextTask {
      AdoptTask(s, survivors, k);
    }
    var u := t.(tasks := s.tasks);
    if id in t.tasks { AdoptedIsLive(s, survivors, id); }
    MoreTasksKeep(u, t, id, task);
  }

  lemma AdoptKeeps(s: Library, survivors: map<RecordId, nat>, id: RecordId, task: nat)
    requires Inv(s)
    ensures Keeps(s, Adopt(s, survivors), id, task)
  {
    var t := Adopt(s, survivors);
    AdoptTames(s, survivors);
    TameKeeps(s, t.(tasks := s.tasks), id, task);
    AdoptTasks(s, survivors, id, task);
    KeepsTwice(s, t.(tasks := s.tasks), t, id, task);
  }

  lemma MoreTasksKeep(u: Library, t: Library, id: RecordId, task: nat)
    requires Inv(u) && t == u.(tasks := t.tasks)
    requires forall k :: k in t.tasks ==> IsUnfinished(t, k) && t.tasks[k] < t.nextTask
    requires id in t.tasks && Retired(u, id, task) ==> t.tasks[id] != task
    ensures Keeps(u, t, id, task)
  {
  }

  // ---- the steps ----

  /** Event e publishes record `id`: the one way a record becomes ready. */
  ghost predicate Publishes(s: Library, e: Event, id: RecordId) {
    e.Finish? && e.id == id && Accepts(s, id, e.task) && Fits(s, e.delivery) && e.delivery.stored
  }

  lemma SettleHistory(s: Library, i: nat, d: Delivery, id: RecordId, task: nat)
    requires i < |s.records| && AttemptsIssued(s)
    ensures var t := Settle(s, i, d);
            && AttemptsIssued(t)
            && (!(Fits(s, d) && d.stored && s.records[i].id == id) && IsReady(t, id) ==> IsReady(s, id))
            && (Retired(s, id, task) ==> Retired(t, id, task))
  {
  }

  lemma SettleKeeps(s: Library, i: nat, d: Delivery, id: RecordId, task: nat)
    requires Inv(s) && i < |s.records| && !s.records[i].state.Ready?
    ensures var t := Settle(s, i, d);
            && Inv(t)
            && Total(t.records) <= Max(Total(s.records), LimitBytes(s.limitGB))
            && (!(Fits(s, d) && d.stored && s.records[i].id == id) && IsReady(t, id) ==> IsReady(s, id))
            && (Retired(s, id, task) ==> Retired(t, id, task))
  {
    var r := Settle(s, i, d).records[i];
    TotalUpdate(s.records, i, r);
    UpdateRecords(s.records, i, r);
    UpdateUnfinished(s, Settle(s, i, d), i);
    SettleHistory(s, i, d, id, task);
  }

  lemma DetachKeeps(s: Library, f: Faults, id: RecordId, task: nat)
    requires Inv(s)
    ensures Keeps(s, Leave(s, f), id, task)
  {
    if s.scope.Some? {
      var t := s.(clients := s.clients - {s.scope.value},
                  tasks := s.tasks - Unfinished(s.records, s.scope.value),
                  records := DetachedAll(s.records, s.scope.value));
      TamePumpKeeps(s, t, f, id, task);
    }
  }

  lemma ClearKeeps(s: Library, listed: bool, kept: set<RecordId>, f: Faults, id: RecordId, task: nat)
    requires Inv(s)
    ensures Keeps(s, Clear(s, listed, kept, f), id, task)
  {
    if s.scope.Some? {
      var doomed := ScopeIds(s.records, s.scope.value);
      var t := s.(tasks := s.tasks - doomed);
      TameKeeps(s, t, id, task);
      if listed {
        var u := t.(records := Without(t.records, doomed - kept));
        DeleteKeeps(t, u, doomed - kept, id, task);
        PumpKeeps(u, f, id, task);
      }
    }
  }

  lemma EnqueueStepKeeps(s: Library, tracks: seq<string>, automatic: bool, now: int, present: set<RecordId>,
                         f: Faults, id: RecordId, task: nat)
    requires Inv(s)
    ensures Keeps(s, Step(s, Enqueue(tracks, automatic, now, present), f), id, task)
  {
    if s.scope.Some? && s.scope.value in s.clients {
      var batch := if |tracks| <= MAXIMUM_BATCH then tracks else tracks[..MAXIMUM_BATCH];
      EnqueueKeeps(s, batch, automatic, now, present, id, task);
      PumpKeeps(EnqueueAll(s, batch, automatic, now, present), f, id, task);
    }
  }

  lemma PauseKeeps(s: Library, track: string, f: Faults, id: RecordId, task: nat)
    requires Inv(s)
    ensures Keeps(s, Step(s, Pause(track), f), id, task)
  {
    if s.scope.Some? {
      var i := Find(s.records, RecordId(s.scope.value, track));
      if i < |s.records| && !s.records[i].state.Ready? {
        TamePumpKeeps(s, SetState(s, i, Paused), f, id, task);
      }
    }
  }

  /** One step of any event: the invariant holds again, the total stays within its bound, a
      record becomes ready only by being published, and a retired attempt stays retired. */
  ghost predicate StepSound(s: Library, e: Event, t: Library, id: RecordId, task: nat) {
    && Inv(t)
    && Total(t.records) <= Max(Total(s.records), LimitBytes(s.limitGB))
    && (!Publishes(s, e, id) && IsReady(t, id) ==> IsReady(s, id))
    && (Retired(s, id, task) ==> Retired(t, id, task))
  }

  lemma SettingsStepKeeps(s: Library, e: Event, f: Faults, id: RecordId, task: nat)
    requires Inv(s) && (e.SelectProfile? || e.SetLimit? || e.Protect? || e.Relaunch? || e.Configure? || e.PumpAgain?)
    ensures Keeps(s, Step(s, e, f), id, task)
  {
    match e
    case Configure(p) => PumpKeeps(s.(scope := Some(p), clients := s.clients + {p}), f, id, task);
    case PumpAgain => PumpKeeps(s, f, id, task);
    case _ => TameKeeps(s, Step(s, e, f), id, task);
  }

  lemma ResumeKeeps(s: Library, survivors: map<RecordId, nat>, f: Faults, id: RecordId, task: nat)
    requires Inv(s)
    ensures Keeps(s, Resume(s, survivors, f), id, task)
  {
    if s.reconciling {
      AdoptKeeps(s, survivors, id, task);
      PumpKeeps(Adopt(s, survivors), f, id, task);
    }
  }

  /** Every event but a completion. */
  lemma OtherStepKeeps(s: Library, e: Event, f: Faults, id: RecordId, task: nat)
    requires Inv(s) && !e.Finish?
    ensures Keeps(s, Step(s, e, f), id, task)
  {
    match e
    case Detach => DetachKeeps(s, f, id, task);
    case Remove(track) => RemoveKeeps(s, track, f, id, task);
    case ClearCurrent(listed, kept) => ClearKeeps(s, listed, kept, f, id, task);
    case Progress(k, n, bytes, expected) => AdvanceKeeps(s, k, n, bytes, expected, f, id, task);
    case Fail(k, n) => AbortKeeps(s, k, n, f, id, task);
    case Reconcile(survivors) => ResumeKeeps(s, survivors, f, id, task);
    case Enqueue(tracks, automatic, now, present) => EnqueueStepKeeps(s, tracks, automatic, now, present, f, id, task);
    case Pause(track) => PauseKeeps(s, track, f, id, task);
    case _ => SettingsStepKeeps(s, e, f, id, task);
  }

  lemma StepKeeps(s: Library, e: Event, f: Faults, id: RecordId, task: nat)
    requires Inv(s)
    ensures StepSound(s, e, Step(s, e, f), id, task)
  {
    if e.Finish? {
      CompleteKeeps(s, e.id, e.task, e.delivery, f, id, task);
    } else {
      OtherStepKeeps(s, e, f, id, task);
    }
  }

  /** A transfer is given up. */
  lemma FailAtKeeps(s: Library, k: RecordId, i: nat, f: Faults, id: RecordId, task: nat)
    requires Inv(s) && i < |s.records|
    ensures Keeps(s, Pump(SetState(s.(tasks := s.tasks - {k}), i, Failed), f), id, task)
  {
    TamePumpKeeps(s, SetState(s.(tasks := s.tasks - {k}), i, Failed), f, id, task);
  }

  lemma AdvanceKeeps(s: Library, k: RecordId, n: nat, bytes: int, expected: int, f: Faults, id: RecordId, task: nat)
    requires Inv(s)
    ensures Keeps(s, Advance(s, k, n, bytes, expected, f), id, task)
  {
    var i := Find(s.records, k);
    if !(k !in s.tasks || s.tasks[k] != n || i == |s.records| || !s.records[i].state.Downloading?) {
      var t := s.(records := s.records[i := s.records[i].(bytes := bytes, expected := Max(0, expected))]);
      TameKeeps(s, t, id, task);
      FailAtKeeps(t, k, i, f, id, task);
    }
  }

  lemma AbortKeeps(s: Library, k: RecordId, n: nat, f: Faults, id: RecordId, task: nat)
    requires Inv(s)
    ensures Keeps(s, Abort(s, k, n, f), id, task)
  {
    var t := s.(tasks := s.tasks - {k});
    TameKeeps(s, t, id, task);
    var i := Find(s.records, k);
    if i < |s.records| { FailAtKeeps(s, k, i, f, id, task); }
  }

  lemma CompleteKeeps(s: Library, k: RecordId, n: nat, d: Delivery, f: Faults, id: RecordId, task: nat)
    requires Inv(s)
    ensures StepSound(s, Finish(k, n, d), Complete(s, k, n, d, f), id, task)
  {
    if Accepts(s, k, n) {
      var i := Find(s.records, k);
      SettleKeeps(s, i, d, id, task);
      PumpKeeps(Settle(s, i, d), f, id, task);
    }
  }

  // ---- runs ----

  /** The invariant holds after every sequence of events from the empty library. */
  lemma {:induction false} RunInv(s: Library, es: seq<(Event, Faults)>)
    requires Inv(s)
    ensures Inv(Run(s, es))
    decreases |es|
  {
    if es != [] {
      var last := es[|es| - 1];
      RunInv(s, es[..|es| - 1]);
      StepKeeps(Run(s, es[..|es| - 1]), last.0, last.1, RecordId("", ""), 0);
    }
  }

  lemma ReachableInv(es: seq<(Event, Faults)>)
    ensures Inv(Run(EMPTY, es))
  {
    RunInv(EMPTY, es);
  }

  /** In every run at most one record is downloading. */
  lemma SingleTransfer(es: seq<(Event, Faults)>, i: nat, j: nat)
    requires i < |Run(EMPTY, es).records| && j < |Run(EMPTY, es).records|
    requires Run(EMPTY, es).records[i].state.Downloading? && Run(EMPTY, es).records[j].state.Downloading?
    ensures i == j
  {
    ReachableInv(es);
  }

  /** No step of any run raises the ready bytes above the larger of what they were and the limit. */
  lemma BudgetNeverRaised(es: seq<(Event, Faults)>, e: Event, f: Faults)
    ensures var s := Run(EMPTY, es);
            Total(Step(s, e, f).records) <= Max(Total(s.records), LimitBytes(s.limitGB))
  {
    ReachableInv(es);
    StepKeeps(Run(EMPTY, es), e, f, RecordId("", ""), 0);
  }

  /** In every run a record becomes ready only through a completion that carries the transfer
      id pump issued to that record last, while the record was downloading or paused. */
  lemma ReadyOnlyThroughLastAttempt(es: seq<(Event, Faults)>, e: Event, f: Faults, id: RecordId)
    requires !IsReady(Run(EMPTY, es), id) && IsReady(Step(Run(EMPTY, es), e, f), id)
    ensures var s := Run(EMPTY, es);
            && e.Finish? && e.id == id
            && id in s.issued && s.issued[id] == e.task
            && e.delivery.Media? && 0 < e.delivery.size <= MAXIMUM_FILE_BYTES && e.delivery.stored
            && (exists i :: 0 <= i < |s.records| && s.records[i].id == id
                            && (s.records[i].state.Downloading? || s.records[i].state.Paused?)
                            && s.records[i].transfer == Some(e.task))
  {
    ReachableInv(es);
    StepKeeps(Run(EMPTY, es), e, f, id, 0);
    var s := Run(EMPTY, es);
    assert s.records[Find(s.records, id)].transfer == Some(e.task);
  }

  /** A retired attempt stays retired, so its completion changes nothing whenever it comes. */
  lemma {:induction false} RetiredNeverPublishes(s: Library, es: seq<(Event, Faults)>, id: RecordId, task: nat, d: Delivery, f: Faults)
    requires Inv(s) && Retired(s, id, task)
    ensures Retired(Run(s, es), id, task)
    ensures Step(Run(s, es), Finish(id, task, d), f) == Run(s, es)
    decreases |es|
  {
    if es != [] {
      var last := es[|es| - 1];
      var t := Run(s, es[..|es| - 1]);
      RetiredNeverPublishes(s, es[..|es| - 1], id, task, d, f);
      RunInv(s, es[..|es| - 1]);
      StepKeeps(t, last.0, last.1, id, task);
    }
  }

  /** The attempt did not produce the file the record has now. */
  ghost predicate NotTheReadyOne(s: Library, id: RecordId, task: nat) {
    forall i :: 0 <= i < |s.records| && s.records[i].id == id && s.records[i].state.Ready? ==> s.records[i].transfer != Some(task)
  }

  function Disowned(s: Library, scope: string): Library {
    s.(clients := s.clients - {scope}, tasks := s.tasks - Unfinished(s.records, scope), records := DetachedAll(s.records, scope))
  }

  lemma DisownedIsRetired(s: Library, id: RecordId, task: nat)
    requires TasksUnfinished(s) && NotTheReadyOne(s, id, task) && task < s.nextTask
    ensures Retired(Disowned(s, id.scope), id, task)
  {
    var t := Disowned(s, id.scope);
    if id in s.tasks {
      assert IsUnfinished(s, id);
      assert id in Unfinished(s.records, id.scope);
    }
    forall i | 0 <= i < |t.records| && t.records[i].id == id ensures t.records[i].transfer != Some(task) {
      assert t.records[i] == Detached(s.records[i], id.scope);
    }
  }

  lemma DetachRetires(s: Library, f: Faults, id: RecordId, task: nat)
    requires Inv(s) && s.scope == Some(id.scope) && NotTheReadyOne(s, id, task) && task < s.nextTask
    ensures Inv(Leave(s, f)) && Retired(Leave(s, f), id, task)
  {
    var t := Disowned(s, id.scope);
    TameKeeps(s, t, id, task);
    DisownedIsRetired(s, id, task);
    PumpKeeps(t, f, id, task);
    assert Leave(s, f) == Pump(t, f).(scope := None);
  }

  /** After logging out, no completion of an attempt issued before it ever changes the library,
      whatever happens in between; the one exception is the attempt whose file a record has. */
  lemma DetachRetiresAttempts(s: Library, f: Faults, es: seq<(Event, Faults)>, id: RecordId, task: nat, d: Delivery, g: Faults)
    requires Inv(s) && s.scope == Some(id.scope) && NotTheReadyOne(s, id, task) && task < s.nextTask
    ensures var t := Run(Step(s, Detach, f), es);
            Step(t, Finish(id, task, d), g) == t
  {
    DetachRetires(s, f, id, task);
    RetiredNeverPublishes(Step(s, Detach, f), es, id, task, d, g);
  }

  lemma RemoveRetires(s: Library, f: Faults, id: RecordId, task: nat)
    requires Inv(s) && s.scope == Some(id.scope) && task < s.nextTask
    requires Find(s.records, id) < |s.records| && id !in f.removals
    ensures Inv(RemoveTrack(s, id.track, f)) && Retired(RemoveTrack(s, id.track, f), id, task)
  {
    var t := Evict(s, id);
    DeleteKeeps(s, t, {id}, id, task);
    WithoutMembers(s.records, {id});
    assert Retired(t, id, task);
    PumpKeeps(t, f, id, task);
  }

  /** After a removal that deleted the record, no completion of an earlier attempt ever
      publishes, even when the same track is enqueued again. */
  lemma RemoveRetiresAttempts(s: Library, f: Faults, es: seq<(Event, Faults)>, id: RecordId, task: nat, d: Delivery, g: Faults)
    requires Inv(s) && s.scope == Some(id.scope) && task < s.nextTask
    requires Find(s.records, id) < |s.records| && id !in f.removals
    ensures var t := Run(Step(s, Remove(id.track), f), es);
            Step(t, Finish(id, task, d), g) == t
  {
    RemoveRetires(s, f, id, task);
    RetiredNeverPublishes(Step(s, Remove(id.track), f), es, id, task, d, g);
  }
}
