/** What the calls and callbacks do to the record they are about, as it is found after the pump
    that ends them. */
module OfflineEffects {
  import opened Common
  import opened OfflineModel
  import opened OfflineProofs
  import opened OfflineEviction
  import opened OfflineRemoval
  import opened OfflineProgress

  /** Pump touches no record that is neither queued nor evictable. */
  lemma PumpKeepsRecord(s: Library, f: Faults, r: Record)
    requires UniqueIds(s.records) && r in s.records && !r.state.Queued?
    ensures r in Pump(s, f).records || (r in Evictions(s, f) && Evictable(r, s.scope, s.protectedTracks))
  {
    var gone := Evictions(s, f);
    var rest := Without(s.records, Ids(gone));
    PumpDeletesEvictions(s, f);
    EvictsOnlyCache(s, f);
    WithoutMembers(s.records, Ids(gone));
    if r.id in Ids(gone) {
      var q :| q in gone && q.id == r.id;
      assert q == r;
    } else {
      var i :| 0 <= i < |rest| && rest[i] == r;
      assert Pump(s, f).records[i] == r;
    }
  }

  lemma PumpKeepsUnready(s: Library, f: Faults, r: Record)
    requires UniqueIds(s.records) && r in s.records && !r.state.Queued? && !r.state.Ready?
    ensures r in Pump(s, f).records
  {
    PumpKeepsRecord(s, f, r);
  }

  /** Pump touches no task but those of evicted and of started records. */
  lemma {:induction false} PumpKeepsTask(s: Library, f: Faults, id: RecordId)
    requires UniqueIds(s.records)
    requires forall r :: r in s.records && r.id == id ==> !r.state.Queued? && !r.state.Ready?
    ensures id in Pump(s, f).tasks <==> id in s.tasks
    ensures id in s.tasks ==> Pump(s, f).tasks[id] == s.tasks[id]
    decreases |s.records|
  {
    PumpUnfold(s, f);
    var v := Victim(s);
    if v.Some? && v.value.id !in f.removals {
      EvictShrinks(s, v.value);
      WithoutKeeps(s.records, {v.value.id});
      WithoutMembers(s.records, {v.value.id});
      PumpKeepsTask(Evict(s, v.value.id), f, id);
    }
  }

  lemma UpdatedUnique(rs: seq<Record>, i: nat, r: Record)
    requires UniqueIds(rs) && i < |rs| && r.id == rs[i].id
    ensures UniqueIds(rs[i := r]) && r in rs[i := r]
    ensures forall q :: q in rs[i := r] && q.id == r.id ==> q == r
  {
    assert rs[i := r][i] == r;
  }

  // ---- pause, failure, progress, completion ----

  /** Pausing: the record is paused with the attempt and the task it has, so that it can go on. */
  lemma PauseEffect(s: Library, r: Record, f: Faults)
    requires Inv(s) && r in s.records && s.scope == Some(r.id.scope) && !r.state.Ready?
    ensures var t := Step(s, Pause(r.id.track), f);
            && r.(state := Paused) in t.records
            && (r.id in t.tasks <==> r.id in s.tasks) && (r.id in s.tasks ==> t.tasks[r.id] == s.tasks[r.id])
  {
    FoundRecord(s.records, r);
    var i := Find(s.records, r.id);
    var u := SetState(s, i, Paused);
    UpdatedUnique(s.records, i, r.(state := Paused));
    PumpKeepsUnready(u, f, r.(state := Paused));
    PumpKeepsTask(u, f, r.id);
  }

  lemma AbortUnfold(s: Library, i: nat, f: Faults)
    requires i < |s.records| && UniqueIds(s.records) && s.records[i].state.Downloading? && s.records[i].id in s.tasks
    ensures var r := s.records[i];
            Abort(s, r.id, s.tasks[r.id], f)
            == Pump(s.(tasks := s.tasks - {r.id}, records := s.records[i := r.(state := Failed)]), f)
  {
    assert Find(s.records, s.records[i].id) == i;
  }

  lemma AbortEffect(s: Library, r: Record, f: Faults)
    requires UniqueIds(s.records) && r in s.records && r.state.Downloading? && r.id in s.tasks
    ensures IsGivenUp(r, Abort(s, r.id, s.tasks[r.id], f))
  {
    FoundRecord(s.records, r);
    AbortUnfold(s, Find(s.records, r.id), f);
    GivenUp(s, r, r, f);
  }

  /** A reported failure of the running attempt: the record has failed and its task is gone. */
  lemma FailEffect(s: Library, r: Record, f: Faults)
    requires UniqueIds(s.records) && r in s.records && r.state.Downloading? && r.id in s.tasks
    ensures IsGivenUp(r, Step(s, Fail(r.id, s.tasks[r.id]), f))
  {
    AbortEffect(s, r, f);
  }

  /** The record has failed and has no task. */
  predicate IsGivenUp(r: Record, t: Library) { r.(state := Failed) in t.records && r.id !in t.tasks }

  /** The running attempt q of record r is given up. */
  lemma GivenUp(s: Library, r: Record, q: Record, f: Faults)
    requires UniqueIds(s.records) && r in s.records && q == r.(bytes := q.bytes, expected := q.expected)
    ensures var u := s.(tasks := s.tasks - {r.id}, records := s.records[Find(s.records, r.id) := q.(state := Failed)]);
            IsGivenUp(q, Pump(u, f))
  {
    FoundRecord(s.records, r);
    var i := Find(s.records, r.id);
    var u := s.(tasks := s.tasks - {r.id}, records := s.records[i := q.(state := Failed)]);
    UpdatedUnique(s.records, i, q.(state := Failed));
    PumpKeepsUnready(u, f, q.(state := Failed));
    PumpKeepsTask(u, f, r.id);
  }

  predicate TooMuch(s: Library, bytes: int, expected: int) {
    bytes > MAXIMUM_FILE_BYTES || expected > MAXIMUM_FILE_BYTES || Total(s.records) + bytes > LimitBytes(s.limitGB)
  }

  lemma AdvanceUnfold(s: Library, i: nat, bytes: int, expected: int, f: Faults)
    requires i < |s.records| && UniqueIds(s.records) && s.records[i].state.Downloading? && s.records[i].id in s.tasks
    ensures var r := s.records[i];
            var q := r.(bytes := bytes, expected := Max(0, expected));
            Advance(s, r.id, s.tasks[r.id], bytes, expected, f)
            == if TooMuch(s, bytes, expected)
               then Pump(s.(tasks := s.tasks - {r.id}, records := s.records[i := q.(state := Failed)]), f)
               else s.(records := s.records[i := q])
  {
    var q := s.records[i].(bytes := bytes, expected := Max(0, expected));
    TotalUpdate(s.records, i, q);
    assert Find(s.records, q.id) == i;
    assert s.records[i := q][i := q.(state := Failed)] == s.records[i := q.(state := Failed)];
  }

  lemma NotedEffect(s: Library, r: Record, q: Record)
    requires UniqueIds(s.records) && r in s.records
    ensures var rs := s.records[Find(s.records, r.id) := q];
            |rs| == |s.records| && forall i :: 0 <= i < |s.records| ==> rs[i] == if s.records[i] == r then q else s.records[i]
  {
    FoundRecord(s.records, r);
  }

  /** t is s except that record r became q, or that the attempt is given up for being too large. */
  ghost predicate Progressed(s: Library, r: Record, q: Record, bytes: int, expected: int, t: Library) {
    if TooMuch(s, bytes, expected) then IsGivenUp(q, t)
    else t == s.(records := t.records) && |t.records| == |s.records|
         && forall i :: 0 <= i < |s.records| ==> t.records[i] == if s.records[i] == r then q else s.records[i]
  }

  /** Progress of the running attempt is noted and changes nothing else, unless it announces more
      than a file may have or than is left of the limit: then the attempt is given up. */
  lemma ProgressEffect(s: Library, r: Record, bytes: int, expected: int, f: Faults)
    requires UniqueIds(s.records) && r in s.records && r.state.Downloading? && r.id in s.tasks
    ensures Progressed(s, r, r.(bytes := bytes, expected := Max(0, expected)), bytes, expected,
                       Step(s, Progress(r.id, s.tasks[r.id], bytes, expected), f))
  {
    AdvanceEffect(s, r, bytes, expected, f);
  }

  lemma AdvanceEffect(s: Library, r: Record, bytes: int, expected: int, f: Faults)
    requires UniqueIds(s.records) && r in s.records && r.state.Downloading? && r.id in s.tasks
    ensures Progressed(s, r, r.(bytes := bytes, expected := Max(0, expected)), bytes, expected,
                       Advance(s, r.id, s.tasks[r.id], bytes, expected, f))
  {
    var q := r.(bytes := bytes, expected := Max(0, expected));
    FoundRecord(s.records, r);
    AdvanceUnfold(s, Find(s.records, r.id), bytes, expected, f);
    if TooMuch(s, bytes, expected) { GivenUp(s, r, q, f); } else { NotedEffect(s, r, q); }
  }

  /** The file fits both limits and could be stored. */
  predicate Publishable(s: Library, d: Delivery) {
    d.Media? && d.stored && 0 < d.size <= MAXIMUM_FILE_BYTES && Total(s.records) + d.size <= LimitBytes(s.limitGB)
  }

  lemma PublishEffect(s: Library, i: nat, d: Delivery, f: Faults)
    requires Inv(s) && i < |s.records| && !s.records[i].state.Ready? && Publishable(s, d)
    ensures var t := Pump(Settle(s, i, d), f);
            var q := s.records[i].(state := Ready, bytes := d.size, expected := d.size);
            && q.id !in t.tasks
            && (q in t.records
                || (Evictable(q, s.scope, s.protectedTracks) && Total(s.records) + d.size == LimitBytes(s.limitGB)))
  {
    var u := Settle(s, i, d);
    var q := s.records[i].(state := Ready, bytes := d.size, expected := d.size);
    assert u.records == s.records[i := q];
    UpdatedUnique(s.records, i, q);
    TotalUpdate(s.records, i, q);
    PumpKeepsRecord(u, f, q);
    PumpAddsNoTask(u, f, q.id);
    if q in Evictions(u, f) { EvictsOnlyWhenFull(u, f); }
  }

  lemma RejectEffect(s: Library, i: nat, d: Delivery, f: Faults)
    requires Inv(s) && i < |s.records| && !Publishable(s, d)
    ensures var t := Pump(Settle(s, i, d), f);
            s.records[i].id !in t.tasks && s.records[i].(state := Failed) in t.records
  {
    var u := Settle(s, i, d);
    var q := s.records[i].(state := Failed);
    assert u.records == s.records[i := q];
    UpdatedUnique(s.records, i, q);
    PumpKeepsUnready(u, f, q);
    PumpKeepsTask(u, f, q.id);
  }

  /** A completion of the remembered attempt of a downloading or paused record publishes it if a file of
      at least one byte arrived that fits both limits and could be stored, and fails it otherwise.
      What was published stays, unless pump evicts it again to make room. */
  lemma FinishEffect(s: Library, r: Record, task: nat, d: Delivery, f: Faults)
    requires Inv(s) && r in s.records && (r.state.Downloading? || r.state.Paused?) && r.transfer == Some(task)
    ensures Completed(s, r, d, Step(s, Finish(r.id, task, d), f))
  {
    CompleteEffect(s, r, task, d, f);
  }

  /** Record r is published if the delivery allows it and has failed otherwise. */
  ghost predicate Completed(s: Library, r: Record, d: Delivery, t: Library) {
    && r.id !in t.tasks
    && if Publishable(s, d)
       then var q := r.(state := Ready, bytes := d.size, expected := d.size);
            q in t.records
            || (Evictable(q, s.scope, s.protectedTracks) && Total(s.records) + d.size == LimitBytes(s.limitGB))
       else r.(state := Failed) in t.records
  }

  lemma CompleteEffect(s: Library, r: Record, task: nat, d: Delivery, f: Faults)
    requires Inv(s) && r in s.records && (r.state.Downloading? || r.state.Paused?) && r.transfer == Some(task)
    ensures Completed(s, r, d, Complete(s, r.id, task, d, f))
  {
    FoundRecord(s.records, r);
    var i := Find(s.records, r.id);
    assert Complete(s, r.id, task, d, f) == Pump(Settle(s, i, d), f);
    if Publishable(s, d) { PublishEffect(s, i, d, f); } else { RejectEffect(s, i, d, f); }
  }

  lemma EvictsOnlyWhenFull(s: Library, f: Faults)
    requires Evictions(s, f) != []
    ensures Total(s.records) >= LimitBytes(s.limitGB)
  {
  }

  /** A record that is ready gets no task. */
  lemma {:induction false} PumpAddsNoTask(s: Library, f: Faults, id: RecordId)
    requires UniqueIds(s.records) && id !in s.tasks
    requires forall r :: r in s.records && r.id == id ==> !r.state.Queued?
    ensures id !in Pump(s, f).tasks
    decreases |s.records|
  {
    PumpUnfold(s, f);
    var v := Victim(s);
    if v.Some? && v.value.id !in f.removals {
      EvictShrinks(s, v.value);
      WithoutKeeps(s.records, {v.value.id});
      WithoutMembers(s.records, {v.value.id});
      PumpAddsNoTask(Evict(s, v.value.id), f, id);
    }
  }

  // ---- reconcile ----

  /** The record after its transfers were looked up. */
  function Looked(r: Record, tasks: map<RecordId, nat>): Record {
    if r.state.Downloading? && r.id !in tasks then r.(state := Paused) else r
  }

  lemma AdoptedRecord(s: Library, survivors: map<RecordId, nat>, r: Record)
    requires UniqueIds(s.records) && r in s.records
    ensures var u := Adopt(s, survivors); Looked(r, u.tasks) in u.records && UniqueIds(u.records)
    ensures forall k :: k in Adopt(s, survivors).records && k.id == r.id ==> k == Looked(r, Adopt(s, survivors).tasks)
  {
    var u := Adopt(s, survivors);
    FoundRecord(s.records, r);
    var i := Find(s.records, r.id);
    assert u.records[i] == Looked(r, u.tasks);
    forall j | 0 <= j < |u.records| ensures u.records[j].id == s.records[j].id { }
  }

  lemma AdoptedTasks(s: Library, survivors: map<RecordId, nat>, r: Record)
    requires UniqueIds(s.records) && r in s.records && (r.state.Downloading? || r.state.Paused?)
    ensures var u := Adopt(s, survivors);
            var survived := r.id in survivors && r.transfer == Some(survivors[r.id]);
            && (r.id in u.tasks <==> survived || r.id in s.tasks)
            && (r.id in u.tasks ==> u.tasks[r.id] == if survived then survivors[r.id] else s.tasks[r.id])
  {
    FoundRecord(s.records, r);
  }

  lemma ResumedEffect(u: Library, q: Record, f: Faults)
    requires UniqueIds(u.records) && q in u.records && !q.state.Queued? && !q.state.Ready?
    requires forall k :: k in u.records && k.id == q.id ==> k == q
    ensures q in Pump(u, f).records
    ensures q.id in Pump(u, f).tasks <==> q.id in u.tasks
    ensures q.id in u.tasks ==> Pump(u, f).tasks[q.id] == u.tasks[q.id]
  {
    PumpKeepsUnready(u, f, q);
    PumpKeepsTask(u, f, q.id);
  }

  /** After a launch: a paused or downloading record whose remembered attempt survived has its task again;
      a download that has no task is paused; every other one is left as it was. */
  lemma ReconcileEffect(s: Library, survivors: map<RecordId, nat>, r: Record, f: Faults)
    requires UniqueIds(s.records) && s.reconciling && r in s.records && (r.state.Downloading? || r.state.Paused?)
    ensures Reconciled(s, survivors, r, Step(s, Reconcile(survivors), f))
  {
    ResumeEffect(s, survivors, r, f);
  }

  ghost predicate Reconciled(s: Library, survivors: map<RecordId, nat>, r: Record, t: Library) {
    var survived := r.id in survivors && r.transfer == Some(survivors[r.id]);
    && (r.id in t.tasks <==> survived || r.id in s.tasks)
    && (r.id in t.tasks ==> t.tasks[r.id] == if survived then survivors[r.id] else s.tasks[r.id])
    && (if r.state.Downloading? && r.id !in t.tasks then r.(state := Paused) else r) in t.records
  }

  lemma ResumeEffect(s: Library, survivors: map<RecordId, nat>, r: Record, f: Faults)
    requires UniqueIds(s.records) && s.reconciling && r in s.records && (r.state.Downloading? || r.state.Paused?)
    ensures Reconciled(s, survivors, r, Resume(s, survivors, f))
  {
    var u := Adopt(s, survivors);
    AdoptedRecord(s, survivors, r);
    AdoptedTasks(s, survivors, r);
    ResumedEffect(u, Looked(r, u.tasks), f);
  }

  // ---- removal ----

  predicate Steady(s: Library, r: Record) { !r.state.Queued? && !Evictable(r, s.scope, s.protectedTracks) }

  lemma PumpMakesNoRecord(s: Library, f: Faults, r: Record)
    requires UniqueIds(s.records) && r in Pump(s, f).records
    ensures exists q :: q in s.records && q.id == r.id
  {
    var rest := Without(s.records, Ids(Evictions(s, f)));
    PumpDeletesEvictions(s, f);
    WithoutMembers(s.records, Ids(Evictions(s, f)));
    var i :| 0 <= i < |rest| && Pump(s, f).records[i] == r;
    assert rest[i] in s.records && rest[i].id == r.id;
  }

  lemma PumpKeepsSteady(s: Library, f: Faults, r: Record)
    requires UniqueIds(s.records) && r in s.records && Steady(s, r)
    ensures r in Pump(s, f).records
  {
    PumpKeepsRecord(s, f, r);
  }

  /** t holds no record of `ids` and none that s did not hold, and every other steady record of s. */
  ghost predicate LostOnly(s: Library, ids: set<RecordId>, t: Library) {
    && (forall r :: r in t.records ==> r.id !in ids && exists q :: q in s.records && q.id == r.id)
    && (forall r :: r in s.records && Steady(s, r) && r.id !in ids ==> r in t.records)
  }

  lemma DeletedOnly(s: Library, u: Library, ids: set<RecordId>, f: Faults)
    requires UniqueIds(s.records) && u.records == Without(s.records, ids)
    requires u.scope == s.scope && u.protectedTracks == s.protectedTracks
    ensures LostOnly(s, ids, Pump(u, f))
  {
    WithoutKeeps(s.records, ids);
    WithoutMembers(s.records, ids);
    forall r | r in Pump(u, f).records ensures r.id !in ids && exists q :: q in s.records && q.id == r.id {
      PumpMakesNoRecord(u, f, r);
    }
    forall r | r in s.records && Steady(s, r) && r.id !in ids ensures r in Pump(u, f).records {
      PumpKeepsSteady(u, f, r);
    }
  }

  /** Removing a track: its record and task are gone, and of the others only evictable records; when the
      files cannot be deleted, only the task goes. */
  lemma RemoveEffect(s: Library, r: Record, f: Faults)
    requires UniqueIds(s.records) && r in s.records && s.scope == Some(r.id.scope)
    ensures Removed(s, r, f, Step(s, Remove(r.id.track), f))
  {
    RemoveTrackEffect(s, r, f);
  }

  ghost predicate Removed(s: Library, r: Record, f: Faults, t: Library) {
    if r.id in f.removals then t == s.(tasks := s.tasks - {r.id}) else LostOnly(s, {r.id}, t) && r.id !in t.tasks
  }

  lemma RemoveTrackEffect(s: Library, r: Record, f: Faults)
    requires UniqueIds(s.records) && r in s.records && s.scope == Some(r.id.scope)
    ensures Removed(s, r, f, RemoveTrack(s, r.id.track, f))
  {
    FoundRecord(s.records, r);
    if r.id !in f.removals {
      var u := Evict(s, r.id);
      assert RemoveTrack(s, r.id.track, f) == Pump(u, f);
      DeletedOnly(s, u, {r.id}, f);
      WithoutKeeps(s.records, {r.id});
      WithoutMembers(s.records, {r.id});
      PumpAddsNoTask(u, f, r.id);
    }
  }

  /** Clearing the account: of its records exactly those whose files stayed behind may remain, and
      nothing of another account goes; when the folder cannot be listed, only its tasks go. */
  lemma ClearEffect(s: Library, scope: string, listed: bool, kept: set<RecordId>, f: Faults)
    requires Inv(s) && s.scope == Some(scope)
    ensures ClearedUp(s, scope, listed, kept, Step(s, ClearCurrent(listed, kept), f))
  {
    ClearHandlerEffect(s, scope, listed, kept, f);
  }

  ghost predicate ClearedUp(s: Library, scope: string, listed: bool, kept: set<RecordId>, t: Library) {
    if listed then LostOnly(s, (set r | r in s.records && r.id.scope == scope :: r.id) - kept, t)
    else t == s.(tasks := t.tasks) && forall k :: k in t.tasks <==> k in s.tasks && k.scope != scope
  }

  lemma ClearHandlerEffect(s: Library, scope: string, listed: bool, kept: set<RecordId>, f: Faults)
    requires Inv(s) && s.scope == Some(scope)
    ensures ClearedUp(s, scope, listed, kept, Clear(s, listed, kept, f))
  {
    var doomed := ScopeIds(s.records, scope);
    assert doomed == set r | r in s.records && r.id.scope == scope :: r.id;
    forall k | k in s.tasks && k.scope == scope ensures k in doomed { assert IsUnfinished(s, k); }
    if listed {
      var u := Cleared(s, kept, scope);
      DeletedOnly(s, u, doomed - kept, f);
      assert Clear(s, listed, kept, f) == Pump(u, f);
    }
  }

  // ---- enqueue ----

  /** A record that is asked for again: pinned if a user asks, and queued unless it is being
      downloaded or its file is there. */
  function Again(r: Record, automatic: bool, present: set<RecordId>): Record {
    r.(automatic := r.automatic && automatic,
       state := if r.state.Downloading? || (r.state.Ready? && r.id in present) then r.state else Queued)
  }

  function Asked(scope: string, tracks: seq<string>): set<RecordId> {
    set k | 0 <= k < |tracks| :: RecordId(scope, tracks[k])
  }

  /** Every id asked for has a record. */
  ghost predicate Known(rs: seq<Record>, ids: set<RecordId>) {
    forall id :: id in ids ==> exists i :: 0 <= i < |rs| && rs[i].id == id
  }

  /** Known records are asked for again in place, each unknown id gets one new queued record at the
      end, and no other record changes. */
  ghost predicate HandledIds(rs: seq<Record>, ids: set<RecordId>, automatic: bool, now: int, present: set<RecordId>, ts: seq<Record>) {
    && |rs| <= |ts|
    && (forall i :: 0 <= i < |rs| ==> ts[i] == if rs[i].id in ids then Again(rs[i], automatic, present) else rs[i])
    && (forall i :: |rs| <= i < |ts| ==> ts[i] == Record(ts[i].id, Queued, 0, 0, None, automatic, now) && ts[i].id in ids)
    && Known(ts, ids)
  }

  /** t is s after asking for these tracks. */
  ghost predicate Handled(s: Library, scope: string, tracks: seq<string>, automatic: bool, now: int, present: set<RecordId>, t: Library) {
    && t == s.(records := t.records) && UniqueIds(t.records)
    && HandledIds(s.records, Asked(scope, tracks), automatic, now, present, t.records)
  }

  lemma HandledFirst(s: Library, scope: string, track: string, automatic: bool, now: int, present: set<RecordId>)
    requires UniqueIds(s.records) && s.scope == Some(scope) && AfterFirst(s, track, automatic, now, present).Some?
    ensures Handled(s, scope, [track], automatic, now, present, AfterFirst(s, track, automatic, now, present).value)
  {
    var me := RecordId(scope, track);
    var t := AfterFirst(s, track, automatic, now, present).value;
    var i := Find(s.records, me);
    assert Asked(scope, [track]) == {me} by { assert [track][0] == track; }
    assert t.records[i].id == me;
  }

  lemma AgainTwice(r: Record, automatic: bool, present: set<RecordId>)
    ensures Again(Again(r, automatic, present), automatic, present) == Again(r, automatic, present)
    ensures Again(r, automatic, present).id == r.id
  {
  }

  lemma HandledRecords(rs: seq<Record>, us: seq<Record>, ts: seq<Record>, a: set<RecordId>, b: set<RecordId>,
                       automatic: bool, now: int, present: set<RecordId>)
    requires HandledIds(rs, a, automatic, now, present, us) && HandledIds(us, b, automatic, now, present, ts)
    ensures HandledIds(rs, a + b, automatic, now, present, ts)
  {
    forall i | 0 <= i < |us| ensures ts[i].id == us[i].id { }
    forall i | 0 <= i < |rs| ensures ts[i] == if rs[i].id in a + b then Again(rs[i], automatic, present) else rs[i] {
      AgainTwice(rs[i], automatic, present);
    }
    assert Known(ts, a + b) by {
      forall id | id in a ensures exists i :: 0 <= i < |ts| && ts[i].id == id {
        var i :| 0 <= i < |us| && us[i].id == id;
        assert ts[i].id == id;
      }
    }
  }

  lemma HandledBoth(s: Library, scope: string, a: seq<string>, b: seq<string>, automatic: bool, now: int, present: set<RecordId>,
                    u: Library, t: Library)
    requires Handled(s, scope, a, automatic, now, present, u) && Handled(u, scope, b, automatic, now, present, t)
    ensures Handled(s, scope, a + b, automatic, now, present, t)
  {
    AskedBoth(scope, a, b);
    HandledRecords(s.records, u.records, t.records, Asked(scope, a), Asked(scope, b), automatic, now, present);
  }

  lemma AskedBoth(scope: string, a: seq<string>, b: seq<string>)
    ensures Asked(scope, a + b) == Asked(scope, a) + Asked(scope, b)
  {
    forall k | 0 <= k < |a| ensures RecordId(scope, a[k]) in Asked(scope, a + b) { assert (a + b)[k] == a[k]; }
    forall k | 0 <= k < |b| ensures RecordId(scope, b[k]) in Asked(scope, a + b) { assert (a + b)[|a| + k] == b[k]; }
  }

  /** Nothing more fits in and the next track is unknown. */
  ghost predicate Full(t: Library, id: RecordId) {
    |t.records| >= MAXIMUM_RECORDS && forall i :: 0 <= i < |t.records| ==> t.records[i].id != id
  }

  /** The first n tracks are handled, all unless the library is full. */
  ghost predicate HandledUpTo(s: Library, scope: string, tracks: seq<string>, automatic: bool, now: int, present: set<RecordId>,
                              n: nat, t: Library) {
    && n <= |tracks| && Handled(s, scope, tracks[..n], automatic, now, present, t)
    && (n < |tracks| ==> Full(t, RecordId(scope, tracks[n])))
  }

  lemma HandledNone(s: Library, scope: string, tracks: seq<string>, automatic: bool, now: int, present: set<RecordId>)
    requires UniqueIds(s.records)
    requires tracks != [] ==> Full(s, RecordId(scope, tracks[0]))
    ensures HandledUpTo(s, scope, tracks, automatic, now, present, 0, s)
  {
    assert tracks[..0] == [];
  }

  lemma HandledMore(s: Library, scope: string, track: string, rest: seq<string>, automatic: bool, now: int, present: set<RecordId>,
                    u: Library, m: nat, t: Library)
    requires Handled(s, scope, [track], automatic, now, present, u)
    requires HandledUpTo(u, scope, rest, automatic, now, present, m, t)
    ensures HandledUpTo(s, scope, [track] + rest, automatic, now, present, m + 1, t)
  {
    var tracks := [track] + rest;
    assert tracks[..m + 1] == [track] + rest[..m];
    HandledBoth(s, scope, [track], rest[..m], automatic, now, present, u, t);
    if m < |rest| { assert tracks[m + 1] == rest[m]; }
  }

  lemma EnqueueUnfold(s: Library, track: string, rest: seq<string>, automatic: bool, now: int, present: set<RecordId>)
    requires s.scope.Some?
    ensures var u := AfterFirst(s, track, automatic, now, present);
            EnqueueAll(s, [track] + rest, automatic, now, present)
            == if u.Some? then EnqueueAll(u.value, rest, automatic, now, present) else s
    ensures AfterFirst(s, track, automatic, now, present).None? ==> Full(s, RecordId(s.scope.value, track))
  {
    assert ([track] + rest)[1..] == rest;
  }

  /** A batch is handled up to the first unknown track that no longer fits in. */
  lemma {:induction false} EnqueueHandles(s: Library, scope: string, tracks: seq<string>, automatic: bool, now: int, present: set<RecordId>)
      returns (n: nat)
    requires UniqueIds(s.records) && s.scope == Some(scope)
    ensures HandledUpTo(s, scope, tracks, automatic, now, present, n, EnqueueAll(s, tracks, automatic, now, present))
    decreases |tracks|
  {
    n := 0;
    if tracks == [] {
      HandledNone(s, scope, tracks, automatic, now, present);
    } else {
      assert tracks == [tracks[0]] + tracks[1..];
      EnqueueUnfold(s, tracks[0], tracks[1..], automatic, now, present);
      var u := AfterFirst(s, tracks[0], automatic, now, present);
      if u.Some? {
        HandledFirst(s, scope, tracks[0], automatic, now, present);
        var m := EnqueueHandles(u.value, scope, tracks[1..], automatic, now, present);
        n := m + 1;
        HandledMore(s, scope, tracks[0], tracks[1..], automatic, now, present, u.value, m,
                    EnqueueAll(u.value, tracks[1..], automatic, now, present));
      } else {
        HandledNone(s, scope, tracks, automatic, now, present);
      }
    }
  }

  /** u is s after handling n of at most 500 tracks, fewer only if the library is full. */
  ghost predicate Batched(s: Library, tracks: seq<string>, automatic: bool, now: int, present: set<RecordId>, n: nat, u: Library)
    requires s.scope.Some?
  {
    && n <= Min(|tracks|, 500) && Handled(s, s.scope.value, tracks[..n], automatic, now, present, u)
    && (n < Min(|tracks|, 500) ==> Full(u, RecordId(s.scope.value, tracks[n])))
  }

  lemma BatchHandled(s: Library, tracks: seq<string>, automatic: bool, now: int, present: set<RecordId>) returns (n: nat)
    requires UniqueIds(s.records) && s.scope.Some?
    ensures Batched(s, tracks, automatic, now, present, n, EnqueueAll(s, Batch(tracks), automatic, now, present))
  {
    n := EnqueueHandles(s, s.scope.value, Batch(tracks), automatic, now, present);
    assert Batch(tracks)[..n] == tracks[..n];
  }

  function Batch(tracks: seq<string>): seq<string> { if |tracks| <= MAXIMUM_BATCH then tracks else tracks[..MAXIMUM_BATCH] }

  /** Enqueueing does nothing without a configured account; otherwise at most the first 500 tracks are
      handled, fewer only if the library is full, and then pump runs. */
  lemma EnqueueEffect(s: Library, tracks: seq<string>, automatic: bool, now: int, present: set<RecordId>, f: Faults)
      returns (u: Library, n: nat)
    requires UniqueIds(s.records)
    ensures var t := Step(s, Enqueue(tracks, automatic, now, present), f);
            if s.scope.Some? && s.scope.value in s.clients
            then t == Pump(u, f) && Batched(s, tracks, automatic, now, present, n, u) else t == s
  {
    u, n := s, 0;
    if s.scope.Some? && s.scope.value in s.clients {
      u := EnqueueAll(s, Batch(tracks), automatic, now, present);
      n := BatchHandled(s, tracks, automatic, now, present);
    }
  }

  /** Callbacks of a transfer that is not the record's any more change nothing. */
  lemma StaleCallbackEffect(s: Library, id: RecordId, task: nat, bytes: int, expected: int, d: Delivery, f: Faults)
    requires UniqueIds(s.records)
    ensures (id in s.tasks ==> s.tasks[id] != task) ==>
              Step(s, Progress(id, task, bytes, expected), f) == s == Step(s, Fail(id, task), f)
    ensures (forall r :: r in s.records && r.id == id ==> (!r.state.Downloading? && !r.state.Paused?) || r.transfer != Some(task)) ==>
              Step(s, Finish(id, task, d), f) == s
  {
    var i := Find(s.records, id);
    if i < |s.records| { assert s.records[i] in s.records; }
  }

  // ---- settings and launches ----

  /** Choosing a profile, protecting tracks and changing the limit do just that. A new launch keeps the records and the limit,
      forgets tasks, accounts and protection, and starts nothing until the surviving transfers are known. */
  lemma SettingsEffect(s: Library, p: string, ids: set<string>, gb: int, f: Faults, g: Faults)
    ensures Step(s, SelectProfile(p), f) == s.(scope := Some(p))
    ensures Step(s, Protect(ids), f) == s.(protectedTracks := ids)
    ensures Step(s, SetLimit(gb), f) == s.(limitGB := gb)
    ensures var t := Step(s, Relaunch, f);
            && t.records == s.records && t.limitGB == s.limitGB && t.tasks == map[] && t.clients == {} && t.scope.None?
            && t.protectedTracks == {} && Step(t, PumpAgain, g) == t
            && Step(t, Configure(p), g) == t.(scope := Some(p), clients := {p})
  {
  }

  // ---- logging out ----

  /** Nothing of this account runs or waits to run. */
  ghost predicate LoggedOut(s: Library, p: string) {
    p !in s.clients && forall i :: 0 <= i < |s.records| && s.records[i].id.scope == p ==>
                                     !s.records[i].state.Queued? && !s.records[i].state.Downloading?
  }

  lemma {:induction false} PumpKeepsLoggedOut(s: Library, f: Faults, p: string)
    requires UniqueIds(s.records) && LoggedOut(s, p)
    ensures LoggedOut(Pump(s, f), p)
    decreases |s.records|
  {
    PumpUnfold(s, f);
    var v := Victim(s);
    if v.Some? && v.value.id !in f.removals {
      EvictShrinks(s, v.value);
      WithoutKeeps(s.records, {v.value.id});
      WithoutKeepsLoggedOut(s, {v.value.id}, p);
      PumpKeepsLoggedOut(Evict(s, v.value.id), f, p);
    } else if v.None? && Pump(s, f) != s {
      assert s.records[FirstStartable(s.records, s.clients)].id.scope in s.clients;
    }
  }

  lemma WithoutKeepsLoggedOut(s: Library, ids: set<RecordId>, p: string)
    requires LoggedOut(s, p)
    ensures LoggedOut(s.(records := Without(s.records, ids)), p)
  {
    WithoutMembers(s.records, ids);
    var rs := Without(s.records, ids);
    forall i | 0 <= i < |rs| && rs[i].id.scope == p ensures !rs[i].state.Queued? && !rs[i].state.Downloading? {
      assert rs[i] in s.records;
    }
  }

  lemma {:induction false} EnqueueKeepsLoggedOut(s: Library, scope: string, tracks: seq<string>, automatic: bool, now: int, present: set<RecordId>, p: string)
    requires UniqueIds(s.records) && s.scope == Some(scope) && scope != p && LoggedOut(s, p)
    ensures LoggedOut(EnqueueAll(s, tracks, automatic, now, present), p)
  {
    var n := EnqueueHandles(s, scope, tracks, automatic, now, present);
  }

  lemma EnqueueEventKeepsLoggedOut(s: Library, e: Event, f: Faults, p: string)
    requires Inv(s) && LoggedOut(s, p) && e.Enqueue?
    ensures LoggedOut(Step(s, e, f), p)
  {
    if s.scope.Some? && s.scope.value in s.clients {
      var batch := if |e.tracks| <= MAXIMUM_BATCH then e.tracks else e.tracks[..MAXIMUM_BATCH];
      EnqueueKeeps(s, batch, e.automatic, e.now, e.present, TAG, 0);
      EnqueueKeepsLoggedOut(s, s.scope.value, batch, e.automatic, e.now, e.present, p);
      PumpKeepsLoggedOut(EnqueueAll(s, batch, e.automatic, e.now, e.present), f, p);
    }
  }

  lemma DetachKeepsLoggedOut(s: Library, scope: string, f: Faults, p: string)
    requires UniqueIds(s.records) && s.scope == Some(scope) && (LoggedOut(s, p) || scope == p)
    ensures LoggedOut(Step(s, Detach, f), p)
  {
    var u := Disowned(s, scope);
    assert |u.records| == |s.records|;
    forall i | 0 <= i < |u.records| ensures u.records[i] == Detached(s.records[i], scope) { }
    PumpKeepsLoggedOut(u, f, p);
    assert Step(s, Detach, f) == Pump(u, f).(scope := None);
  }

  lemma PauseKeepsLoggedOut(s: Library, track: string, f: Faults, p: string)
    requires UniqueIds(s.records) && LoggedOut(s, p)
    ensures LoggedOut(Step(s, Pause(track), f), p)
  {
    if s.scope.Some? {
      var i := Find(s.records, RecordId(s.scope.value, track));
      if i < |s.records| {
        RestKeepsLoggedOut(s, SetState(s, i, Paused), i, f, p);
        assert Step(s, Pause(track), f) in {s, Pump(SetState(s, i, Paused), f)};
      }
    }
  }

  lemma DeletionKeepsLoggedOut(s: Library, t: Library, ids: set<RecordId>, f: Faults, p: string)
    requires UniqueIds(s.records) && LoggedOut(s, p) && t == s.(tasks := t.tasks, records := Without(s.records, ids))
    ensures LoggedOut(Pump(t, f), p)
  {
    WithoutKeeps(s.records, ids);
    WithoutKeepsLoggedOut(s, ids, p);
    PumpKeepsLoggedOut(t, f, p);
  }

  lemma RemovalKeepsLoggedOut(s: Library, e: Event, f: Faults, p: string)
    requires UniqueIds(s.records) && LoggedOut(s, p) && (e.Remove? || e.ClearCurrent?)
    ensures LoggedOut(Step(s, e, f), p)
  {
    if s.scope.Some? {
      var scope := s.scope.value;
      match e
      case Remove(track) => DeletionKeepsLoggedOut(s, Evict(s, RecordId(scope, track)), {RecordId(scope, track)}, f, p);
      case ClearCurrent(_, kept) => DeletionKeepsLoggedOut(s, Cleared(s, kept, scope), ScopeIds(s.records, scope) - kept, f, p);
    }
  }

  /** One record comes to rest. */
  lemma RestKeepsLoggedOut(s: Library, t: Library, i: nat, f: Faults, p: string)
    requires UniqueIds(s.records) && LoggedOut(s, p) && i < |s.records| == |t.records| && t.clients == s.clients
    requires t.records == s.records[i := t.records[i]] && t.records[i].id == s.records[i].id
    requires !t.records[i].state.Queued? && !t.records[i].state.Downloading?
    ensures LoggedOut(Pump(t, f), p)
  {
    UpdatedUnique(s.records, i, t.records[i]);
    PumpKeepsLoggedOut(t, f, p);
  }

  lemma ProgressKeepsLoggedOut(s: Library, e: Event, f: Faults, p: string)
    requires Inv(s) && LoggedOut(s, p) && e.Progress?
    ensures LoggedOut(Step(s, e, f), p)
  {
    var i := Find(s.records, e.id);
    if i < |s.records| && s.records[i].state.Downloading? {
      var t := s.(records := s.records[i := s.records[i].(bytes := e.bytes, expected := Max(0, e.expected))]);
      var u := SetState(t.(tasks := t.tasks - {e.id}), i, Failed);
      RestKeepsLoggedOut(s, u, i, f, p);
      assert Step(s, e, f) in {s, t, Pump(u, f)};
    }
  }

  lemma FinishKeepsLoggedOut(s: Library, e: Event, f: Faults, p: string)
    requires Inv(s) && LoggedOut(s, p) && e.Finish?
    ensures LoggedOut(Step(s, e, f), p)
  {
    var i := Find(s.records, e.id);
    if Accepts(s, e.id, e.task) {
      var u := Settle(s, i, e.delivery);
      RestKeepsLoggedOut(s, u, i, f, p);
      assert Step(s, e, f) == Pump(u, f);
    }
  }

  lemma FailKeepsLoggedOut(s: Library, e: Event, f: Faults, p: string)
    requires Inv(s) && LoggedOut(s, p) && e.Fail?
    ensures LoggedOut(Step(s, e, f), p)
  {
    var i := Find(s.records, e.id);
    var t := s.(tasks := s.tasks - {e.id});
    if i < |s.records| && s.records[i].state.Downloading? {
      var u := SetState(t, i, Failed);
      RestKeepsLoggedOut(s, u, i, f, p);
      assert Step(s, e, f) in {s, Pump(u, f)};
    }
  }

  lemma StepKeepsLoggedOut(s: Library, e: Event, f: Faults, p: string)
    requires Inv(s) && LoggedOut(s, p) && e != Configure(p)
    ensures LoggedOut(Step(s, e, f), p)
  {
    match e
    case Enqueue(_, _, _, _) => EnqueueEventKeepsLoggedOut(s, e, f, p);
    case Configure(q) => PumpKeepsLoggedOut(s.(scope := Some(q), clients := s.clients + {q}), f, p);
    case PumpAgain => PumpKeepsLoggedOut(s, f, p);
    case Reconcile(survivors) =>
      AdoptKeeps(s, survivors, TAG, 0);
      PumpKeepsLoggedOut(Adopt(s, survivors), f, p);
    case SelectProfile(_) =>
    case SetLimit(_) =>
    case Protect(_) =>
    case Relaunch =>
    case Progress(_, _, _, _) => ProgressKeepsLoggedOut(s, e, f, p);
    case Finish(_, _, _) => FinishKeepsLoggedOut(s, e, f, p);
    case Fail(_, _) => FailKeepsLoggedOut(s, e, f, p);
    case Detach => if s.scope.Some? { DetachKeepsLoggedOut(s, s.scope.value, f, p); }
    case Pause(track) => PauseKeepsLoggedOut(s, track, f, p);
    case _ => RemovalKeepsLoggedOut(s, e, f, p);
  }

  lemma {:induction false} RunKeepsLoggedOut(s: Library, p: string, es: seq<(Event, Faults)>)
    requires Inv(s) && LoggedOut(s, p) && forall i :: 0 <= i < |es| ==> es[i].0 != Configure(p)
    ensures LoggedOut(Run(s, es), p)
    decreases |es|
  {
    if es != [] {
      var n := |es| - 1;
      RunKeepsLoggedOut(s, p, es[..n]);
      RunInv(s, es[..n]);
      StepKeepsLoggedOut(Run(s, es[..n]), es[n].0, es[n].1, p);
    }
  }

  /** From logging out until the account is configured again, through whatever calls, callbacks and
      launches, nothing of it is queued or downloading. */
  lemma LoggedOutStaysQuiet(s: Library, p: string, f: Faults, es: seq<(Event, Faults)>)
    requires Inv(s) && s.scope == Some(p) && forall i :: 0 <= i < |es| ==> es[i].0 != Configure(p)
    ensures LoggedOut(Run(Step(s, Detach, f), es), p)
  {
    DetachKeepsLoggedOut(s, p, f, p);
    StepKeeps(s, Detach, f, TAG, 0);
    RunKeepsLoggedOut(Step(s, Detach, f), p, es);
  }
}
