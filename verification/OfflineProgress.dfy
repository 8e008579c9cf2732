/** Pump does its work: whoever is first in line is served, and no library stands idle. */
module OfflineProgress {
  import opened Common
  import opened OfflineModel
  import opened OfflineProofs
  import opened OfflineEviction
  import opened OfflineRemoval

  predicate MayStart(r: Record, clients: set<string>) { r.state.Queued? && r.id.scope in clients }

  /** Record i is queued, its account has a client, and no earlier record is so. */
  ghost predicate FirstInLine(rs: seq<Record>, clients: set<string>, i: nat) {
    i < |rs| && MayStart(rs[i], clients) && forall j :: 0 <= j < i ==> !MayStart(rs[j], clients)
  }

  ghost predicate AnyEvictable(s: Library, rs: seq<Record>) {
    exists r :: r in rs && Evictable(r, s.scope, s.protectedTracks)
  }

  /** The transfer a record resumes, or the next fresh one. */
  function TaskFor(s: Library, id: RecordId): nat { if id in s.tasks then s.tasks[id] else s.nextTask }

  function Started(r: Record, task: nat): Record { r.(state := Downloading, transfer := Some(task)) }

  function Halted(r: Record): Record { r.(state := Failed) }

  lemma {:induction false} WithoutFirst(rs: seq<Record>, ids: set<RecordId>, clients: set<string>, i: nat) returns (j: nat)
    requires FirstInLine(rs, clients, i) && rs[i].id !in ids
    ensures FirstInLine(Without(rs, ids), clients, j) && Without(rs, ids)[j] == rs[i]
  {
    if i == 0 {
      j := 0;
    } else {
      j := WithoutFirst(rs[1..], ids, clients, i - 1);
      if rs[0].id !in ids { j := j + 1; }
    }
  }

  /** With room left, pump starts the first record in line and touches no other. */
  lemma PumpStartsFirst(s: Library, f: Faults, i: nat)
    requires !s.reconciling && !AnyDownloading(s.records) && FirstInLine(s.records, s.clients, i)
    requires Total(s.records) < LimitBytes(s.limitGB)
    ensures var r := s.records[i];
            var t := Pump(s, f);
            if r.id in f.starts then t == s.(records := s.records[i := Halted(r)])
            else
              && t.records == s.records[i := Started(r, TaskFor(s, r.id))]
              && t.tasks == s.tasks[r.id := TaskFor(s, r.id)]
              && (r.id !in s.tasks ==> t.nextTask == s.nextTask + 1)
  {
    assert FirstStartable(s.records, s.clients) == i;
  }

  /** What pump does to the first record in line, which stands at position j of the records
      that are not evicted: it starts if that made room, it stays queued if the next record
      to evict cannot be deleted, and otherwise it fails. No other record changes. */
  ghost predicate Served(s: Library, f: Faults, rest: seq<Record>, j: nat, t: Library)
    requires j < |rest|
  {
    var r := rest[j];
    && t.limitGB == s.limitGB && t.reconciling == s.reconciling && t.clients == s.clients
    && if Total(rest) < LimitBytes(s.limitGB) then
         t.records == rest[j := if r.id in f.starts then Halted(r) else Started(r, TaskFor(s, r.id))]
       else if AnyEvictable(s, rest) then
         t.records == rest && exists q :: q in rest && Evictable(q, s.scope, s.protectedTracks) && q.id in f.removals
       else t.records == rest[j := Halted(r)]
  }

  lemma ServedWithoutEviction(s: Library, f: Faults, i: nat)
    requires UniqueIds(s.records) && !s.reconciling && !AnyDownloading(s.records) && FirstInLine(s.records, s.clients, i)
    requires Victim(s).None? || Victim(s).value.id in f.removals
    ensures Served(s, f, s.records, i, Pump(s, f))
  {
    PumpUnfold(s, f);
    if Total(s.records) < LimitBytes(s.limitGB) {
      PumpStartsFirst(s, f, i);
    } else if Victim(s).None? {
      forall r | r in s.records ensures !Evictable(r, s.scope, s.protectedTracks) {
        var k :| 0 <= k < |s.records| && s.records[k] == r;
      }
    }
  }

  lemma {:induction false} PumpServesFirstInLine(s: Library, f: Faults, i: nat) returns (j: nat)
    requires UniqueIds(s.records) && !s.reconciling && !AnyDownloading(s.records) && FirstInLine(s.records, s.clients, i)
    ensures var rest := Without(s.records, Ids(Evictions(s, f)));
            && FirstInLine(rest, s.clients, j) && rest[j] == s.records[i]
            && Served(s, f, rest, j, Pump(s, f))
    decreases |s.records|
  {
    var v := Victim(s);
    if v.None? || v.value.id in f.removals {
      j := i;
      WithoutNothing(s.records);
      assert Ids(Evictions(s, f)) == {};
      ServedWithoutEviction(s, f, i);
    } else {
      var id := v.value.id;
      var u := Evict(s, id);
      EvictShrinks(s, v.value);
      WithoutKeeps(s.records, {id});
      WithoutMembers(s.records, {id});
      assert s.records[i].id != id;
      var k := WithoutFirst(s.records, {id}, s.clients, i);
      j := PumpServesFirstInLine(u, f, k);
      var later := Evictions(u, f);
      assert Ids(Evictions(s, f)) == {id} + Ids(later) by { IdsCons(v.value, later); }
      WithoutTwice(s.records, {id}, Ids(later));
      assert Pump(s, f) == Pump(u, f) by { PumpUnfold(s, f); }
      assert TaskFor(u, s.records[i].id) == TaskFor(s, s.records[i].id);
    }
  }

  // ---- no library stands idle ----

  /** Something could start and nothing runs. */
  ghost predicate Idle(s: Library) {
    && !s.reconciling && !AnyDownloading(s.records) && Total(s.records) < LimitBytes(s.limitGB)
    && exists i :: 0 <= i < |s.records| && MayStart(s.records[i], s.clients)
  }

  predicate NoFaults(f: Faults) { f.removals == {} && f.starts == {} }

  lemma {:induction false} SomeFirst(rs: seq<Record>, clients: set<string>, i: nat) returns (k: nat)
    requires i < |rs| && MayStart(rs[i], clients)
    ensures FirstInLine(rs, clients, k)
  {
    if exists j :: 0 <= j < i && MayStart(rs[j], clients) {
      var j: nat :| j < i && MayStart(rs[j], clients);
      k := SomeFirst(rs, clients, j);
    } else {
      k := i;
    }
  }

  lemma PumpIsNeverIdle(s: Library, f: Faults)
    requires UniqueIds(s.records) && NoFaults(f)
    ensures !Idle(Pump(s, f))
  {
    var t := Pump(s, f);
    if i: nat :| i < |s.records| && MayStart(s.records[i], s.clients) {
      if !s.reconciling && !AnyDownloading(s.records) {
        var k := SomeFirst(s.records, s.clients, i);
        var j := PumpServesFirstInLine(s, f, k);
        ServedIsNotIdle(s, f, Without(s.records, Ids(Evictions(s, f))), j, t);
      }
    } else {
      assert FirstStartable(s.records, s.clients) == |s.records|;
    }
  }

  lemma ServedIsNotIdle(s: Library, f: Faults, rest: seq<Record>, j: nat, t: Library)
    requires FirstInLine(rest, s.clients, j) && NoFaults(f) && Served(s, f, rest, j, t)
    ensures !Idle(t)
  {
    if Total(rest) < LimitBytes(s.limitGB) {
      assert t.records[j].state.Downloading?;
    } else {
      TotalUpdate(rest, j, Halted(rest[j]));
    }
  }

  const TAG: RecordId := RecordId("", "")

  lemma SettingIsIdleExactly(s: Library, e: Event, f: Faults)
    requires Inv(s) && !Idle(s) && NoFaults(f)
    requires e.Configure? || e.SelectProfile? || e.PumpAgain? || e.SetLimit? || e.Protect? || e.Relaunch?
    ensures Idle(Step(s, e, f)) <==> e.SetLimit? && Idle(s.(limitGB := e.gb))
  {
    match e
    case Configure(p) => PumpIsNeverIdle(s.(scope := Some(p), clients := s.clients + {p}), f);
    case PumpAgain => PumpIsNeverIdle(s, f);
    case _ =>
  }

  lemma EnqueueIsNotIdle(s: Library, e: Event, f: Faults)
    requires Inv(s) && !Idle(s) && NoFaults(f) && e.Enqueue?
    ensures !Idle(Step(s, e, f))
  {
    if s.scope.Some? && s.scope.value in s.clients {
      var batch := if |e.tracks| <= MAXIMUM_BATCH then e.tracks else e.tracks[..MAXIMUM_BATCH];
      EnqueueKeeps(s, batch, e.automatic, e.now, e.present, TAG, 0);
      PumpIsNeverIdle(EnqueueAll(s, batch, e.automatic, e.now, e.present), f);
    }
  }

  lemma DetachIsNotIdle(s: Library, f: Faults)
    requires Inv(s) && !Idle(s) && NoFaults(f)
    ensures !Idle(Leave(s, f))
  {
    if s.scope.Some? {
      TameKeeps(s, Disowned(s, s.scope.value), TAG, 0);
      PumpIsNeverIdle(Disowned(s, s.scope.value), f);
    }
  }

  lemma PauseIsNotIdle(s: Library, track: string, f: Faults)
    requires Inv(s) && !Idle(s) && NoFaults(f)
    ensures !Idle(Step(s, Pause(track), f))
  {
    if s.scope.Some? {
      var i := Find(s.records, RecordId(s.scope.value, track));
      if i < |s.records| { FailedIsNotIdle(s, SetState(s, i, Paused), i, f); }
    }
  }

  lemma RemoveIsNotIdle(s: Library, track: string, f: Faults)
    requires Inv(s) && !Idle(s) && NoFaults(f)
    ensures !Idle(RemoveTrack(s, track, f))
  {
    if s.scope.Some? {
      var id := RecordId(s.scope.value, track);
      WithoutKeeps(s.records, {id});
      PumpIsNeverIdle(Evict(s, id), f);
    }
  }

  lemma ClearIsNotIdle(s: Library, e: Event, f: Faults)
    requires Inv(s) && !Idle(s) && NoFaults(f) && e.ClearCurrent?
    ensures !Idle(Step(s, e, f))
  {
    if s.scope.Some? && e.listed {
      var doomed := ScopeIds(s.records, s.scope.value);
      var t := s.(tasks := s.tasks - doomed);
      TameKeeps(s, t, TAG, 0);
      var u := t.(records := Without(t.records, doomed - e.kept));
      DeleteKeeps(t, u, doomed - e.kept, TAG, 0);
      PumpIsNeverIdle(u, f);
    }
  }

  lemma FailedIsNotIdle(s: Library, t: Library, i: nat, f: Faults)
    requires Inv(s) && NoFaults(f) && i < |s.records| == |t.records|
    requires t.records == s.records[i := t.records[i]] && t.records[i].id == s.records[i].id
    ensures !Idle(Pump(t, f))
  {
    forall j | 0 <= j < |t.records| ensures t.records[j].id == s.records[j].id { }
    PumpIsNeverIdle(t, f);
  }

  lemma ProgressIsNotIdle(s: Library, e: Event, f: Faults)
    requires Inv(s) && !Idle(s) && NoFaults(f) && e.Progress?
    ensures !Idle(Step(s, e, f))
  {
    var i := Find(s.records, e.id);
    if i < |s.records| && s.records[i].state.Downloading? {
      var t := s.(records := s.records[i := s.records[i].(bytes := e.bytes, expected := Max(0, e.expected))]);
      var u := SetState(t.(tasks := t.tasks - {e.id}), i, Failed);
      assert t.records[i].state.Downloading?;
      FailedIsNotIdle(s, u, i, f);
      assert Step(s, e, f) in {s, t, Pump(u, f)};
    }
  }

  lemma FinishIsNotIdle(s: Library, e: Event, f: Faults)
    requires Inv(s) && !Idle(s) && NoFaults(f) && e.Finish?
    ensures !Idle(Step(s, e, f))
  {
    var i := Find(s.records, e.id);
    if Accepts(s, e.id, e.task) {
      FailedIsNotIdle(s, Settle(s, i, e.delivery), i, f);
      assert Step(s, e, f) == Pump(Settle(s, i, e.delivery), f);
    }
  }

  lemma FailIsNotIdle(s: Library, e: Event, f: Faults)
    requires Inv(s) && !Idle(s) && NoFaults(f) && e.Fail?
    ensures !Idle(Step(s, e, f))
  {
    var i := Find(s.records, e.id);
    var t := s.(tasks := s.tasks - {e.id});
    if i < |s.records| && s.records[i].state.Downloading? {
      FailedIsNotIdle(s, SetState(t, i, Failed), i, f);
      assert Step(s, e, f) in {s, Pump(SetState(t, i, Failed), f)};
    }
  }

  lemma ReconcileIsNotIdle(s: Library, e: Event, f: Faults)
    requires Inv(s) && !Idle(s) && NoFaults(f) && e.Reconcile?
    ensures !Idle(Step(s, e, f))
  {
    AdoptKeeps(s, e.survivors, TAG, 0);
    PumpIsNeverIdle(Adopt(s, e.survivors), f);
  }

  /** An event during which no file and no request fails leaves a busy library idle exactly if it
      raises the limit above the ready bytes while a record waits: a new limit is not acted
      upon before the next event. */
  lemma BecomesIdleExactly(s: Library, e: Event, f: Faults)
    requires Inv(s) && !Idle(s) && NoFaults(f)
    ensures Idle(Step(s, e, f)) <==> e.SetLimit? && Idle(s.(limitGB := e.gb))
  {
    match e
    case Enqueue(_, _, _, _) => EnqueueIsNotIdle(s, e, f);
    case Detach => DetachIsNotIdle(s, f);
    case Pause(track) => PauseIsNotIdle(s, track, f);
    case Remove(track) => RemoveIsNotIdle(s, track, f);
    case ClearCurrent(_, _) => ClearIsNotIdle(s, e, f);
    case Progress(_, _, _, _) => ProgressIsNotIdle(s, e, f);
    case Finish(_, _, _) => FinishIsNotIdle(s, e, f);
    case Fail(_, _) => FailIsNotIdle(s, e, f);
    case Reconcile(_) => ReconcileIsNotIdle(s, e, f);
    case _ => SettingIsIdleExactly(s, e, f);
  }

  /** In every run without file errors, refused requests and changes of the limit: whenever a queued
      record of a configured account could start and there is room, a transfer runs. */
  lemma {:induction false} NeverIdle(es: seq<(Event, Faults)>)
    requires forall i :: 0 <= i < |es| ==> NoFaults(es[i].1) && !es[i].0.SetLimit?
    ensures !Idle(Run(EMPTY, es))
    decreases |es|
  {
    if es != [] {
      var n := |es| - 1;
      NeverIdle(es[..n]);
      ReachableInv(es[..n]);
      BecomesIdleExactly(Run(EMPTY, es[..n]), es[n].0, es[n].1);
    }
  }

  /** The next pump gets any library going again, whatever left it idle. */
  lemma PumpAgainEndsIdling(s: Library, f: Faults)
    requires UniqueIds(s.records) && NoFaults(f)
    ensures !Idle(Step(s, PumpAgain, f))
  {
    PumpIsNeverIdle(s, f);
  }

  /** Such a library: the limit is used up, one record waits, and the limit is doubled. */
  lemma RaisedLimitIsNotActedUpon()
    ensures var s := EMPTY.(records := [Record(RecordId("p", "a"), Ready, GIGABYTE, 0, None, false, 0),
                                        Record(RecordId("p", "b"), Queued, 0, 0, None, false, 0)],
                            clients := {"p"}, limitGB := 1, reconciling := false);
            Inv(s) && !Idle(s) && Idle(Step(s, SetLimit(2), Faults({}, {})))
  {
    var rs := [Record(RecordId("p", "a"), Ready, GIGABYTE, 0, None, false, 0),
               Record(RecordId("p", "b"), Queued, 0, 0, None, false, 0)];
    assert rs[1..][1..] == [] && Total(rs[1..]) == 0;
    assert Total(rs) == GIGABYTE;
    assert MayStart(rs[1], {"p"});
  }

  lemma SettledTotal(s: Library, i: nat, d: Delivery)
    requires Inv(s) && i < |s.records| && !s.records[i].state.Ready?
    ensures Total(Settle(s, i, d).records) <= Total(s.records) + (if d.Media? then Max(0, d.size) else 0)
  {
    TotalUpdate(s.records, i, Settle(s, i, d).records[i]);
  }

  lemma PumpRuns(s: Library, f: Faults, i: nat)
    requires !s.reconciling && NoFaults(f) && i < |s.records| && MayStart(s.records[i], s.clients)
    requires Total(s.records) < LimitBytes(s.limitGB)
    ensures AnyDownloading(Pump(s, f).records)
  {
    if !AnyDownloading(s.records) {
      var q := SomeFirst(s.records, s.clients, i);
      PumpStartsFirst(s, f, q);
      assert Pump(s, f).records[q].state.Downloading?;
    }
  }

  /** In every run a completed transfer makes way: if a record of a configured account is queued and
      what was delivered leaves room, exactly one transfer runs afterwards. */
  lemma CompletionStartsNext(es: seq<(Event, Faults)>, id: RecordId, task: nat, d: Delivery, f: Faults, i: nat) returns (k: nat)
    requires NoFaults(f) && Accepts(Run(EMPTY, es), id, task) && !Run(EMPTY, es).reconciling
    requires RoomBehind(Run(EMPTY, es), d, i)
    ensures var t := Step(Run(EMPTY, es), Finish(id, task, d), f);
            && k < |t.records| && t.records[k].state.Downloading?
            && forall j :: 0 <= j < |t.records| && t.records[j].state.Downloading? ==> j == k
  {
    ReachableInv(es);
    k := CompletionStarts(Run(EMPTY, es), id, task, d, f, i);
  }

  /** Room for what the delivery brings, and a record that waits. */
  predicate RoomBehind(s: Library, d: Delivery, i: nat) {
    && i < |s.records| && MayStart(s.records[i], s.clients)
    && Total(s.records) + (if d.Media? then Max(0, d.size) else 0) < LimitBytes(s.limitGB)
  }

  lemma CompletionStarts(s: Library, id: RecordId, task: nat, d: Delivery, f: Faults, i: nat) returns (k: nat)
    requires Inv(s) && NoFaults(f) && Accepts(s, id, task) && !s.reconciling && RoomBehind(s, d, i)
    ensures var rs := Complete(s, id, task, d, f).records;
            k < |rs| && rs[k].state.Downloading? && forall j :: 0 <= j < |rs| && rs[j].state.Downloading? ==> j == k
  {
    CompletionRuns(s, id, task, d, f, i);
    CompleteKeeps(s, id, task, d, f, TAG, 0);
    k := OnlyDownload(Complete(s, id, task, d, f).records);
  }

  lemma CompletionRuns(s: Library, id: RecordId, task: nat, d: Delivery, f: Faults, i: nat)
    requires Inv(s) && NoFaults(f) && Accepts(s, id, task) && !s.reconciling
    requires i < |s.records| && MayStart(s.records[i], s.clients)
    requires Total(s.records) + (if d.Media? then Max(0, d.size) else 0) < LimitBytes(s.limitGB)
    ensures AnyDownloading(Complete(s, id, task, d, f).records)
  {
    var p := Find(s.records, id);
    var u := Settle(s, p, d);
    SettledTotal(s, p, d);
    assert p != i && u.records[i] == s.records[i];
    PumpRuns(u, f, i);
  }

  lemma OnlyDownload(rs: seq<Record>) returns (k: nat)
    requires OneDownloading(rs) && AnyDownloading(rs)
    ensures k < |rs| && rs[k].state.Downloading? && forall j :: 0 <= j < |rs| && rs[j].state.Downloading? ==> j == k
  {
    k :| 0 <= k < |rs| && rs[k].state.Downloading?;
  }
}
