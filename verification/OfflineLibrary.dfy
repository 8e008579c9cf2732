/** The offline library as the object it is: every main-actor method updates `records`,
    `tasks` and the settings in place and is proved against the state machine. */
module OfflineStore {
  import opened Common
  import opened OfflineModel
  import OfflineProofs

  class OfflineLibrary {
    var records: seq<Record>
    var tasks: map<RecordId, nat>
    var clients: set<string>
    var scope: Option<string>
    var protectedTracks: set<string>
    var limitGB: int
    var reconciling: bool
    var nextTask: nat
    ghost var issued: map<RecordId, nat>

    /** The abstract state. */
    ghost function Lib(): Library
      reads this
    {
      Library(records, tasks, clients, scope, protectedTracks, limitGB, reconciling, nextTask, issued)
    }

    constructor ()
      ensures Lib() == EMPTY
    {
      records, tasks, clients, scope, protectedTracks := [], map[], {}, None, {};
      limitGB, reconciling, nextTask, issued := 8, true, 0, map[];
    }

    /** Start the first queued transfer, evicting cached music while the budget is exhausted. */
    method Pump(f: Faults)
      modifies this
      ensures Lib() == OfflineModel.Pump(old(Lib()), f)
      decreases |records|, 1
    {
      if reconciling || AnyDownloading(records) { return; }
      var i := FirstStartable(records, clients);
      if i == |records| { return; }
      var record := records[i];
      if Total(records) >= LimitBytes(limitGB) {
        var oldest := Oldest(records, scope, protectedTracks);
        if oldest.Some? {
          Remove(oldest.value.id.track, f);
          return;
        }
        records := records[i := record.(state := Failed)];
      } else if record.id in f.starts {
        records := records[i := record.(state := Failed)];
      } else {
        var task := nextTask;
        if record.id in tasks {
          task := tasks[record.id];
        } else {
          nextTask := nextTask + 1;
        }
        tasks := tasks[record.id := task];
        records := records[i := record.(state := Downloading, transfer := Some(task))];
        issued := issued[record.id := task];
      }
    }

    method Remove(track: string, f: Faults)
      modifies this
      ensures Lib() == RemoveTrack(old(Lib()), track, f)
      decreases |records|, 0
    {
      if scope.None? { return; }
      var id := RecordId(scope.value, track);
      if Find(records, id) == |records| { return; }
      tasks := tasks - {id};
      if id in f.removals { return; }
      records := Without(records, {id});
      Pump(f);
    }

    method Enqueue(tracks: seq<string>, automatic: bool, now: int, present: set<RecordId>, f: Faults)
      modifies this
      ensures Lib() == Step(old(Lib()), Event.Enqueue(tracks, automatic, now, present), f)
    {
      if scope.None? || scope.value !in clients { return; }
      EnqueueBatch(if |tracks| <= MAXIMUM_BATCH then tracks else tracks[..MAXIMUM_BATCH], automatic, now, present);
      Pump(f);
    }

    method EnqueueBatch(tracks: seq<string>, automatic: bool, now: int, present: set<RecordId>)
      requires scope.Some?
      modifies this
      ensures Lib() == EnqueueAll(old(Lib()), tracks, automatic, now, present)
    {
      var k := 0;
      while k < |tracks|
        invariant k <= |tracks| && scope.Some?
        invariant EnqueueAll(Lib(), tracks[k..], automatic, now, present)
               == EnqueueAll(old(Lib()), tracks, automatic, now, present)
      {
        var id := RecordId(scope.value, tracks[k]);
        var i := Find(records, id);
        assert tracks[k..][1..] == tracks[k + 1..];
        if i < |records| {
          ghost var before, r := records, if automatic then records[i] else records[i].(automatic := false);
          if !automatic { records := records[i := records[i].(automatic := false)]; }
          if !(records[i].state.Ready? && id in present) && !records[i].state.Downloading? {
            records := records[i := records[i].(state := Queued)];
          }
          assert records == before[i := if (r.state.Ready? && id in present) || r.state.Downloading?
                                        then r else r.(state := Queued)];
        } else {
          if |records| >= MAXIMUM_RECORDS { return; }
          records := records + [Record(id, Queued, 0, 0, None, automatic, now)];
        }
        k := k + 1;
      }
    }

    method Pause(track: string, f: Faults)
      modifies this
      ensures Lib() == Step(old(Lib()), Event.Pause(track), f)
    {
      if scope.None? { return; }
      var i := Find(records, RecordId(scope.value, track));
      if i == |records| || records[i].state.Ready? { return; }
      records := records[i := records[i].(state := Paused)];
      Pump(f);
    }

    method Detach(f: Faults)
      modifies this
      ensures Lib() == Step(old(Lib()), Event.Detach, f)
    {
      if scope.None? { return; }
      clients := clients - {scope.value};
      DetachRecords(scope.value);
      Pump(f);
      scope := None;
    }

    /** Pause and disown everything unfinished of the account. */
    method DetachRecords(account: string)
      modifies this`records, this`tasks
      ensures records == DetachedAll(old(records), account)
      ensures tasks == old(tasks) - Unfinished(old(records), account)
    {
      for i := 0 to |records|
        invariant |records| == |old(records)|
        invariant forall j :: 0 <= j < i ==> records[j] == Detached(old(records)[j], account)
        invariant forall j :: i <= j < |records| ==> records[j] == old(records)[j]
        invariant tasks == old(tasks) - Unfinished(old(records)[..i], account)
      {
        UnfinishedNext(old(records), i, account);
        if records[i].id.scope == account && !records[i].state.Ready? {
          tasks := tasks - {records[i].id};
          records := records[i := records[i].(state := Paused, transfer := None)];
        }
      }
      assert old(records)[..|records|] == old(records);
      assert records == DetachedAll(old(records), account);
    }

    method ClearCurrent(listed: bool, kept: set<RecordId>, f: Faults)
      modifies this
      ensures Lib() == Step(old(Lib()), Event.ClearCurrent(listed, kept), f)
    {
      if scope.None? { return; }
      var doomed := ScopeIds(records, scope.value);
      tasks := tasks - doomed;
      if !listed { return; }
      records := Without(records, doomed - kept);
      Pump(f);
    }

    method Progress(id: RecordId, task: nat, bytes: int, expected: int, f: Faults)
      modifies this
      ensures Lib() == Step(old(Lib()), Event.Progress(id, task, bytes, expected), f)
    {
      if id !in tasks || tasks[id] != task { return; }
      var i := Find(records, id);
      if i == |records| || !records[i].state.Downloading? { return; }
      records := records[i := records[i].(bytes := bytes, expected := Max(0, expected))];
      if bytes > MAXIMUM_FILE_BYTES || expected > MAXIMUM_FILE_BYTES || Total(records) + bytes > LimitBytes(limitGB) {
        tasks := tasks - {id};
        records := records[i := records[i].(state := Failed)];
        Pump(f);
      }
    }

    method Finish(id: RecordId, task: nat, delivery: Delivery, f: Faults)
      modifies this
      ensures Lib() == Step(old(Lib()), Event.Finish(id, task, delivery), f)
    {
      var i := Find(records, id);
      if i == |records| || !(records[i].state.Downloading? || records[i].state.Paused?) { return; }
      if records[i].transfer != Some(task) { return; }
      tasks := tasks - {id};
      if delivery.Media? && 0 < delivery.size <= MAXIMUM_FILE_BYTES
         && Total(records) + delivery.size <= LimitBytes(limitGB) && delivery.stored {
        records := records[i := records[i].(state := Ready, bytes := delivery.size, expected := delivery.size)];
      } else {
        records := records[i := records[i].(state := Failed)];
      }
      Pump(f);
    }

    method Fail(id: RecordId, task: nat, f: Faults)
      modifies this
      ensures Lib() == Step(old(Lib()), Event.Fail(id, task), f)
    {
      if id !in tasks || tasks[id] != task { return; }
      tasks := tasks - {id};
      var i := Find(records, id);
      if i == |records| || !records[i].state.Downloading? { return; }
      records := records[i := records[i].(state := Failed)];
      Pump(f);
    }

    /** Take over the transfers the system kept alive across a launch. */
    method Reconcile(survivors: map<RecordId, nat>, f: Faults)
      modifies this
      ensures Lib() == Resume(old(Lib()), survivors, f)
    {
      if !reconciling { return; }
      AdoptSurvivors(survivors);
      ghost var adopted := Lib();
      Pump(f);
      assert Lib() == OfflineModel.Pump(adopted, f);
    }

    method AdoptSurvivors(survivors: map<RecordId, nat>)
      modifies this
      ensures Lib() == Adopt(old(Lib()), survivors)
    {
      tasks := tasks + (map id | id in survivors && Adoptable(records, id, survivors[id]) :: survivors[id]);
      PauseLostDownloads();
      reconciling := false;
    }

    method PauseLostDownloads()
      modifies this`records
      ensures records == PauseLost(old(records), tasks)
    {
      for i := 0 to |records|
        invariant |records| == |old(records)|
        invariant forall j :: 0 <= j < |records| ==>
                    records[j] == if j < i then PauseLost(old(records), tasks)[j] else old(records)[j]
      {
        if records[i].state.Downloading? && records[i].id !in tasks {
          records := records[i := records[i].(state := Paused)];
        }
      }
    }

    method Configure(profile: string, f: Faults)
      modifies this
      ensures Lib() == Step(old(Lib()), Event.Configure(profile), f)
    {
      scope := Some(profile);
      clients := clients + {profile};
      Pump(f);
    }

    /** A new launch: the manifest is read back, everything else starts over. */
    method Relaunch()
      modifies this
      ensures Lib() == Step(old(Lib()), Event.Relaunch, Faults({}, {}))
    {
      tasks, clients, scope, protectedTracks, reconciling := map[], {}, None, {}, true;
    }

    method Set(e: Event)
      requires e.SelectProfile? || e.SetLimit? || e.Protect?
      modifies this
      ensures Lib() == Step(old(Lib()), e, Faults({}, {}))
    {
      match e
      case SelectProfile(profile) => scope := Some(profile);
      case SetLimit(gb) => limitGB := gb;
      case Protect(ids) => protectedTracks := ids;
    }

    /** The call or callback an event stands for. */
    method Handle(e: Event, f: Faults)
      modifies this
      ensures Lib() == Step(old(Lib()), e, f)
    {
      match e
      case Configure(profile) => Configure(profile, f);
      case SelectProfile(_) => Set(e);
      case Detach => Detach(f);
      case Enqueue(tracks, automatic, now, present) => Enqueue(tracks, automatic, now, present, f);
      case Pause(track) => Pause(track, f);
      case Remove(track) => Remove(track, f);
      case ClearCurrent(listed, kept) => ClearCurrent(listed, kept, f);
      case PumpAgain => Pump(f);
      case Progress(id, task, bytes, expected) => Progress(id, task, bytes, expected, f);
      case Finish(id, task, delivery) => Finish(id, task, delivery, f);
      case Fail(id, task) => Fail(id, task, f);
      case SetLimit(_) => Set(e);
      case Protect(_) => Set(e);
      case Relaunch => Relaunch();
      case Reconcile(survivors) => Reconcile(survivors, f);
    }
  }

  /** Any sequence of calls and callbacks takes a new library object through the run of the
      machine, so it always stands in a state the invariant describes. */
  method Replay(es: seq<(Event, Faults)>) returns (library: OfflineLibrary)
    ensures library.Lib() == Run(EMPTY, es) && OfflineProofs.Inv(library.Lib())
  {
    library := new OfflineLibrary();
    for i := 0 to |es|
      invariant fresh(library) && library.Lib() == Run(EMPTY, es[..i])
    {
      assert es[..i + 1][..i] == es[..i];
      library.Handle(es[i].0, es[i].1);
    }
    assert es[..|es|] == es;
    OfflineProofs.ReachableInv(es);
  }

  lemma UnfinishedNext(rs: seq<Record>, i: nat, scope: string)
    requires i < |rs|
    ensures Unfinished(rs[..i + 1], scope) ==
            Unfinished(rs[..i], scope)
            + (if rs[i].id.scope == scope && !rs[i].state.Ready? then {rs[i].id} else {})
  {
    forall id | id in Unfinished(rs[..i], scope) ensures id in Unfinished(rs[..i + 1], scope) {
      var j :| 0 <= j < i && rs[..i][j].id == id && rs[..i][j].id.scope == scope && !rs[..i][j].state.Ready?;
      assert rs[..i + 1][j] == rs[..i][j];
    }
    assert rs[..i + 1][i] == rs[i];
  }
}
