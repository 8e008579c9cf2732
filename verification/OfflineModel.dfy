/** The offline download library as a state machine.

    Every main-actor method of the library is one atomic event. What the file system, the
    network and the keychain decide during an event is part of the event, so a run is
    a sequence of events and every interleaving of late callbacks is some run. */
module OfflineModel {
  import opened Common

  /** The digest of scope, newline and track id. Digests are taken to be collision free, so
      the pair itself is the identity. */
  datatype RecordId = RecordId(scope: string, track: string)

  datatype DownloadState = Queued | Downloading | Paused | Ready | Failed

  datatype Record = Record(
    id: RecordId,
    state: DownloadState,
    bytes: int,
    expected: int,
    transfer: Option<nat>,
    automatic: bool,
    date: int)

  /** `issued` is a history variable: the transfer id that pump gave each record last.
      `nextTask` is the supply of fresh URLSession task identifiers. */
  datatype Library = Library(
    records: seq<Record>,
    tasks: map<RecordId, nat>,
    clients: set<string>,
    scope: Option<string>,
    protectedTracks: set<string>,
    limitGB: int,
    reconciling: bool,
    nextTask: nat,
    issued: map<RecordId, nat>)

  /** Which file removals and which request constructions fail during one event. */
  datatype Faults = Faults(removals: set<RecordId>, starts: set<RecordId>)

  /** What a finished transfer delivered: an answer that is refused before its size is looked
      at, or a file of some size that could or could not be recognised and moved into place. */
  datatype Delivery = Refused | Media(size: int, stored: bool)

  datatype Event =
    | Configure(profile: string)
    | SelectProfile(profile: string)
    | Detach
    | Enqueue(tracks: seq<string>, automatic: bool, now: int, present: set<RecordId>)
    | Pause(track: string)
    | Remove(track: string)
    | ClearCurrent(listed: bool, kept: set<RecordId>)
    | PumpAgain
    | Progress(id: RecordId, task: nat, bytes: int, expected: int)
    | Finish(id: RecordId, task: nat, delivery: Delivery)
    | Fail(id: RecordId, task: nat)
    | SetLimit(gb: int)
    | Protect(ids: set<string>)
    | Relaunch
    | Reconcile(survivors: map<RecordId, nat>)

  const MAXIMUM_FILE_BYTES: int := 256 * 1024 * 1024
  const MAXIMUM_RECORDS: nat := 10000
  const MAXIMUM_BATCH: nat := 500

  const EMPTY: Library := Library([], map[], {}, None, {}, 8, true, 0, map[])

  const GIGABYTE: int := 1024 * 1024 * 1024

  /** Settings below one and above 128 gigabytes count as those. */
  function LimitBytes(gb: int): (bytes: int)
    ensures GIGABYTE <= bytes <= 128 * GIGABYTE
    ensures 1 <= gb <= 128 ==> bytes == gb * GIGABYTE
    ensures gb < 1 ==> bytes == GIGABYTE
  {
    Min(128, Max(1, gb)) * GIGABYTE
  }

  /** The bytes of all ready records, over every account on the device. */
  function Total(rs: seq<Record>): int {
    if rs == [] then 0
    else (if rs[0].state.Ready? then rs[0].bytes else 0) + Total(rs[1..])
  }

  /** The position of the first record with this id, or |rs|. */
  function Find(rs: seq<Record>, id: RecordId): (i: nat)
    ensures i <= |rs|
    ensures i < |rs| ==> rs[i].id == id
    ensures forall j :: 0 <= j < i ==> rs[j].id != id
  {
    if rs == [] then 0 else if rs[0].id == id then 0 else 1 + Find(rs[1..], id)
  }

  /** The position of the first queued record whose account has a client, or |rs|. */
  function FirstStartable(rs: seq<Record>, clients: set<string>): (i: nat)
    ensures i <= |rs|
    ensures i < |rs| ==> rs[i].state.Queued? && rs[i].id.scope in clients
    ensures forall j :: 0 <= j < i ==> !(rs[j].state.Queued? && rs[j].id.scope in clients)
  {
    if rs == [] then 0
    else if rs[0].state.Queued? && rs[0].id.scope in clients then 0
    else 1 + FirstStartable(rs[1..], clients)
  }

  predicate Evictable(r: Record, scope: Option<string>, protectedTracks: set<string>) {
    scope == Some(r.id.scope) && r.automatic && r.state.Ready? && r.id.track !in protectedTracks
  }

  /** The first record of least date among the evictable ones. */
  function Oldest(rs: seq<Record>, scope: Option<string>, protectedTracks: set<string>): (r: Option<Record>)
    ensures r.Some? ==> r.value in rs && Evictable(r.value, scope, protectedTracks)
    ensures forall i :: 0 <= i < |rs| && Evictable(rs[i], scope, protectedTracks) ==>
                          r.Some? && r.value.date <= rs[i].date
  {
    if rs == [] then None
    else
      var rest := Oldest(rs[1..], scope, protectedTracks);
      if Evictable(rs[0], scope, protectedTracks) && (rest.None? || rs[0].date <= rest.value.date)
      then Some(rs[0]) else rest
  }

  /** The records without those whose id is in `ids`, in order. */
  function Without(rs: seq<Record>, ids: set<RecordId>): (r: seq<Record>)
    ensures |r| <= |rs|
    ensures forall i :: 0 <= i < |rs| && rs[i].id in ids ==> |r| < |rs|
  {
    if rs == [] then []
    else if rs[0].id in ids then Without(rs[1..], ids)
    else [rs[0]] + Without(rs[1..], ids)
  }

  predicate AnyDownloading(rs: seq<Record>) {
    exists i :: 0 <= i < |rs| && rs[i].state.Downloading?
  }

  function SetState(s: Library, i: nat, state: DownloadState): Library
    requires i < |s.records|
  {
    s.(records := s.records[i := s.records[i].(state := state)])
  }

  /** Begin the transfer of record i: resume the task it still has, or create a fresh one. */
  function Begin(s: Library, i: nat): Library
    requires i < |s.records|
  {
    var id := s.records[i].id;
    var task := if id in s.tasks then s.tasks[id] else s.nextTask;
    s.(records := s.records[i := s.records[i].(state := Downloading, transfer := Some(task))],
       tasks := s.tasks[id := task],
       nextTask := if id in s.tasks then s.nextTask else s.nextTask + 1,
       issued := s.issued[id := task])
  }

  function Pump(s: Library, f: Faults): Library
    decreases |s.records|, 1
  {
    if s.reconciling || AnyDownloading(s.records) then s
    else
      var i := FirstStartable(s.records, s.clients);
      if i == |s.records| then s
      else if Total(s.records) >= LimitBytes(s.limitGB) then
        var oldest := Oldest(s.records, s.scope, s.protectedTracks);
        if oldest.Some? then RemoveTrack(s, oldest.value.id.track, f) else SetState(s, i, Failed)
      else if s.records[i].id in f.starts then SetState(s, i, Failed)
      else Begin(s, i)
  }

  function RemoveTrack(s: Library, track: string, f: Faults): Library
    decreases |s.records|, 0
  {
    if s.scope.None? then s
    else
      var id := RecordId(s.scope.value, track);
      var i := Find(s.records, id);
      if i == |s.records| then s
      else
        var t := s.(tasks := s.tasks - {id});
        if id in f.removals then t else Pump(t.(records := Without(s.records, {id})), f)
  }

  function EnqueueAll(s: Library, tracks: seq<string>, automatic: bool, now: int, present: set<RecordId>): Library
    requires s.scope.Some?
    decreases |tracks|
  {
    if tracks == [] then s
    else
      var id := RecordId(s.scope.value, tracks[0]);
      var i := Find(s.records, id);
      if i < |s.records| then
        var r := if automatic then s.records[i] else s.records[i].(automatic := false);
        var keep := (r.state.Ready? && id in present) || r.state.Downloading?;
        EnqueueAll(s.(records := s.records[i := if keep then r else r.(state := Queued)]),
                   tracks[1..], automatic, now, present)
      else if |s.records| >= MAXIMUM_RECORDS then s
      else EnqueueAll(s.(records := s.records + [Record(id, Queued, 0, 0, None, automatic, now)]),
                      tracks[1..], automatic, now, present)
  }

  /** What logging out does to one record: everything unfinished is paused and loses its attempt. */
  function Detached(r: Record, scope: string): Record {
    if r.id.scope == scope && !r.state.Ready? then r.(state := Paused, transfer := None) else r
  }

  function DetachedAll(rs: seq<Record>, scope: string): seq<Record> {
    seq(|rs|, i requires 0 <= i < |rs| => Detached(rs[i], scope))
  }

  /** The ids of the unfinished records of an account. */
  function Unfinished(rs: seq<Record>, scope: string): set<RecordId> {
    set i | 0 <= i < |rs| && rs[i].id.scope == scope && !rs[i].state.Ready? :: rs[i].id
  }

  function ScopeIds(rs: seq<Record>, scope: string): set<RecordId> {
    set i | 0 <= i < |rs| && rs[i].id.scope == scope :: rs[i].id
  }

  /** Whether the system's surviving transfer `task` is still the record's attempt. */
  predicate Adoptable(rs: seq<Record>, id: RecordId, task: nat) {
    var i := Find(rs, id);
    i < |rs| && (rs[i].state.Downloading? || rs[i].state.Paused?) && rs[i].transfer == Some(task)
  }

  /** A download whose transfer did not survive is paused. */
  function PauseLost(rs: seq<Record>, tasks: map<RecordId, nat>): seq<Record> {
    seq(|rs|, i requires 0 <= i < |rs| =>
          if rs[i].state.Downloading? && rs[i].id !in tasks then rs[i].(state := Paused) else rs[i])
  }

  function Adopt(s: Library, survivors: map<RecordId, nat>): Library {
    var tasks := s.tasks + (map id | id in survivors && Adoptable(s.records, id, survivors[id]) :: survivors[id]);
    s.(tasks := tasks,
       records := PauseLost(s.records, tasks),
       reconciling := false)
  }

  function Resume(s: Library, survivors: map<RecordId, nat>, f: Faults): Library {
    if s.reconciling then Pump(Adopt(s, survivors), f) else s
  }

  function Advance(s: Library, id: RecordId, task: nat, bytes: int, expected: int, f: Faults): Library {
    var i := Find(s.records, id);
    if id !in s.tasks || s.tasks[id] != task || i == |s.records| || !s.records[i].state.Downloading? then s
    else
      var t := s.(records := s.records[i := s.records[i].(bytes := bytes, expected := Max(0, expected))]);
      if bytes > MAXIMUM_FILE_BYTES || expected > MAXIMUM_FILE_BYTES
         || Total(t.records) + bytes > LimitBytes(t.limitGB)
      then Pump(SetState(t.(tasks := t.tasks - {id}), i, Failed), f)
      else t
  }

  predicate Fits(s: Library, d: Delivery) {
    d.Media? && 0 < d.size <= MAXIMUM_FILE_BYTES && Total(s.records) + d.size <= LimitBytes(s.limitGB)
  }

  /** Publish or reject a completed transfer; `pump` has not run yet. */
  function Settle(s: Library, i: nat, d: Delivery): Library
    requires i < |s.records|
  {
    var t := s.(tasks := s.tasks - {s.records[i].id});
    if Fits(s, d) && d.stored
    then t.(records := t.records[i := t.records[i].(state := Ready, bytes := d.size, expected := d.size)])
    else SetState(t, i, Failed)
  }

  predicate Accepts(s: Library, id: RecordId, task: nat) {
    var i := Find(s.records, id);
    i < |s.records| && (s.records[i].state.Downloading? || s.records[i].state.Paused?)
    && s.records[i].transfer == Some(task)
  }

  function Complete(s: Library, id: RecordId, task: nat, d: Delivery, f: Faults): Library {
    if !Accepts(s, id, task) then s else Pump(Settle(s, Find(s.records, id), d), f)
  }

  function Abort(s: Library, id: RecordId, task: nat, f: Faults): Library {
    if id !in s.tasks || s.tasks[id] != task then s
    else
      var t := s.(tasks := s.tasks - {id});
      var i := Find(s.records, id);
      if i == |s.records| || !s.records[i].state.Downloading? then t
      else Pump(SetState(t, i, Failed), f)
  }

  function Leave(s: Library, f: Faults): Library {
    if s.scope.None? then s
    else
      var scope := s.scope.value;
      Pump(s.(clients := s.clients - {scope},
              tasks := s.tasks - Unfinished(s.records, scope),
              records := DetachedAll(s.records, scope)), f).(scope := None)
  }

  function Clear(s: Library, listed: bool, kept: set<RecordId>, f: Faults): Library {
    if s.scope.None? then s
    else
      var doomed := ScopeIds(s.records, s.scope.value);
      var t := s.(tasks := s.tasks - doomed);
      if !listed then t else Pump(t.(records := Without(s.records, doomed - kept)), f)
  }

  function Step(s: Library, e: Event, f: Faults): Library {
    match e
    case Configure(p) => Pump(s.(scope := Some(p), clients := s.clients + {p}), f)
    case SelectProfile(p) => s.(scope := Some(p))
    case Detach => Leave(s, f)
    case Enqueue(tracks, automatic, now, present) =>
      if s.scope.None? || s.scope.value !in s.clients then s
      else
        var batch := if |tracks| <= MAXIMUM_BATCH then tracks else tracks[..MAXIMUM_BATCH];
        Pump(EnqueueAll(s, batch, automatic, now, present), f)
    case Pause(track) =>
      if s.scope.None? then s
      else
        var i := Find(s.records, RecordId(s.scope.value, track));
        if i == |s.records| || s.records[i].state.Ready? then s else Pump(SetState(s, i, Paused), f)
    case Remove(track) => RemoveTrack(s, track, f)
    case ClearCurrent(listed, kept) => Clear(s, listed, kept, f)
    case PumpAgain => Pump(s, f)
    case Progress(id, task, bytes, expected) => Advance(s, id, task, bytes, expected, f)
    case Finish(id, task, delivery) => Complete(s, id, task, delivery, f)
    case Fail(id, task) => Abort(s, id, task, f)
    case SetLimit(gb) => s.(limitGB := gb)
    case Protect(ids) => s.(protectedTracks := ids)
    case Relaunch => s.(tasks := map[], clients := {}, scope := None, protectedTracks := {}, reconciling := true)
    case Reconcile(survivors) => Resume(s, survivors, f)
  }

  /** The state after a sequence of events. */
  function Run(s: Library, es: seq<(Event, Faults)>): Library
    decreases |es|
  {
    if es == [] then s
    else
      var t := Run(s, es[..|es| - 1]);
      Step(t, es[|es| - 1].0, es[|es| - 1].1)
  }
}
