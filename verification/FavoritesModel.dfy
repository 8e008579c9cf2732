/** Favourites: one client, its accounts on the server, and requests in flight.

    A mutation travels in three moves: the client sends it, the server applies it at some
    later time or never, and the client hears success or an error, or nothing it still cares
    about. A library load likewise is begun, read by the server, and answered. Every order
    of these moves is a run. */
module FavoritesModel {
  import opened Common

  /** The client's side. Tokens are UUIDs: fresh numbers, compared for equality only. */
  datatype Client = Client(
    favorites: set<string>,
    pending: set<string>,
    favoriteRevision: nat,
    generation: nat,
    catalogGeneration: nat,
    connecting: bool,
    offline: bool,
    nextToken: nat)

  /** A mutation: DELETE when the track was a favourite, PUT otherwise. `spoiled`: since it was
      applied, another mutation changed the track unseen. */
  datatype Toggle = Toggle(track: string, wasFavorite: bool, generation: nat, account: nat,
                           awaited: bool, applied: bool, spoiled: bool)

  /** A load with the tokens it captured, and what the server answered. `spoiled`: the tracks
      changed unseen since then. */
  datatype Load = Load(generation: nat, catalogGeneration: nat, favoriteRevision: nat, account: nat,
                       snapshot: Option<set<string>>, spoiled: set<string>)

  /** `loaded`: a library load has been applied in this session. `unseen`: the tracks a mutation
      changed without the client hearing of its success. */
  datatype System = System(
    client: Client,
    account: nat,
    server: map<nat, set<string>>,
    toggles: map<nat, Toggle>,
    loads: map<nat, Load>,
    loaded: bool,
    unseen: set<string>)

  datatype Event =
    | ToggleSend(id: nat, track: string)
    | ToggleApply(id: nat)
    | ToggleReply(id: nat, success: bool)
    | LoadSend(id: nat)
    | LoadRead(id: nat)
    | LoadReply(id: nat, success: bool)
    | Refilter
    | RefilterDone(catalog: nat)
    | ClearSession(next: nat, offline: bool)

  // ---- the client's main-actor segments ----

  predicate MayToggle(c: Client, track: string) { !c.offline && track !in c.pending }

  function BeginToggle(c: Client, track: string): Client
  {
    c.(pending := c.pending + {track})
  }

  function EndToggle(c: Client, track: string, wasFavorite: bool, generation: nat, success: bool): Client {
    if c.generation != generation then c
    else
      var d := c.(pending := c.pending - {track});
      if !success then d
      else d.(favorites := if wasFavorite then d.favorites - {track} else d.favorites + {track},
              favoriteRevision := d.nextToken, nextToken := d.nextToken + 1)
  }

  predicate MayLoad(c: Client) { !c.offline && !c.connecting }

  function BeginLoad(c: Client): Client {
    c.(catalogGeneration := c.nextToken, nextToken := c.nextToken + 1, connecting := true)
  }

  predicate LoadCurrent(c: Client, generation: nat, catalog: nat) {
    c.generation == generation && c.catalogGeneration == catalog
  }

  function EndLoad(c: Client, generation: nat, catalog: nat, revision: nat, answer: Option<set<string>>): Client {
    var d := if c.catalogGeneration == catalog then c.(connecting := false) else c;
    if answer.Some? && LoadCurrent(c, generation, catalog) && c.favoriteRevision == revision
    then d.(favorites := answer.value) else d
  }

  function ClearLibrary(c: Client, offline: bool): Client {
    Client({}, {}, c.nextToken, c.nextToken + 1, c.nextToken + 2, false, offline, c.nextToken + 3)
  }

  // ---- the whole system ----

  function ServerSet(s: System, account: nat): set<string> {
    if account in s.server then s.server[account] else {}
  }

  function Applied(t: Toggle, favorites: set<string>): set<string> {
    if t.wasFavorite then favorites - {t.track} else favorites + {t.track}
  }

  /** A change of `track` that the client will not hear about. */
  function Spoil(s: System, account: nat, track: string): System {
    if account != s.account then s
    else
      s.(unseen := s.unseen + {track},
         loads := map i | i in s.loads :: if s.loads[i].snapshot.Some? then s.loads[i].(spoiled := s.loads[i].spoiled + {track}) else s.loads[i],
         toggles := map i | i in s.toggles ::
                      if s.toggles[i].track == track && s.toggles[i].applied then s.toggles[i].(spoiled := true) else s.toggles[i])
  }

  predicate Enabled(s: System, e: Event) {
    match e
    case ToggleSend(id, _) => id !in s.toggles
    case ToggleApply(id) => id in s.toggles && !s.toggles[id].applied
    case ToggleReply(id, success) =>
      && id in s.toggles && (success ==> s.toggles[id].applied)
      // one reply per request: after an error of this session nothing more comes
      && (s.toggles[id].awaited || s.toggles[id].generation != s.client.generation)
    case LoadSend(id) => id !in s.loads
    case LoadRead(id) => id in s.loads && s.loads[id].snapshot.None?
    case LoadReply(id, success) => id in s.loads && (success ==> s.loads[id].snapshot.Some?)
    case _ => true
  }

  function Step(s: System, e: Event): System
    requires Enabled(s, e)
  {
    match e
    case ToggleSend(id, track) =>
      if !MayToggle(s.client, track) then s
      else s.(client := BeginToggle(s.client, track),
              toggles := s.toggles[id := Toggle(track, track in s.client.favorites, s.client.generation, s.account, true, false, false)])
    case ToggleApply(id) =>
      var t := s.toggles[id];
      var u := s.(server := s.server[t.account := Applied(t, ServerSet(s, t.account))],
                  toggles := s.toggles[id := t.(applied := true)]);
      if t.awaited then u else Spoil(u, t.account, t.track)
    case ToggleReply(id, success) =>
      var t := s.toggles[id];
      var u := s.(client := EndToggle(s.client, t.track, t.wasFavorite, t.generation, success));
      if !t.awaited then u.(toggles := if success then u.toggles - {id} else u.toggles)
      else if success
      then u.(toggles := u.toggles - {id}, unseen := if t.spoiled then u.unseen + {t.track} else u.unseen - {t.track})
      else
        // an error tells nothing about the server: the mutation may have happened or still happen
        var v := u.(toggles := u.toggles[id := t.(awaited := false)]);
        if t.applied then Spoil(v, t.account, t.track) else v
    case LoadSend(id) =>
      if !MayLoad(s.client) then s
      else
        var c := BeginLoad(s.client);
        s.(client := c, loads := s.loads[id := Load(c.generation, c.catalogGeneration, c.favoriteRevision, s.account, None, {})])
    case LoadRead(id) =>
      s.(loads := s.loads[id := s.loads[id].(snapshot := Some(ServerSet(s, s.loads[id].account)))])
    case LoadReply(id, success) =>
      var l := s.loads[id];
      var answer := if success then l.snapshot else None;
      var c := EndLoad(s.client, l.generation, l.catalogGeneration, l.favoriteRevision, answer);
      var took := success && LoadCurrent(s.client, l.generation, l.catalogGeneration)
                  && s.client.favoriteRevision == l.favoriteRevision;
      s.(client := c, loads := s.loads - {id}, loaded := s.loaded || took, unseen := if took then l.spoiled else s.unseen)
    case Refilter =>
      s.(client := BeginLoad(s.client))
    case RefilterDone(catalog) =>
      s.(client := if s.client.catalogGeneration == catalog then s.client.(connecting := false) else s.client)
    case ClearSession(next, offline) =>
      s.(client := ClearLibrary(s.client, offline), account := next, loaded := false, unseen := {},
         toggles := map i | i in s.toggles :: s.toggles[i].(awaited := false))
  }

  function Init(server: map<nat, set<string>>, account: nat): System {
    System(Client({}, {}, 0, 1, 2, false, false, 3), account, server, map[], map[], false, {})
  }

  // ---- the invariant ----

  /** A mutation the client waits for is of this session and marks its track pending. */
  ghost predicate Awaiting(s: System) {
    forall i :: i in s.toggles && s.toggles[i].awaited ==>
      && s.toggles[i].track in s.client.pending
      && s.toggles[i].generation == s.client.generation && s.toggles[i].account == s.account
  }

  /** At most one awaited mutation per track. */
  ghost predicate OnePerTrack(toggles: map<nat, Toggle>) {
    forall i, j :: i in toggles && j in toggles && toggles[i].awaited && toggles[j].awaited && toggles[i].track == toggles[j].track
      ==> i == j
  }

  /** The track is neither pending nor already changed on the server by a pending mutation. */
  ghost predicate Settled(toggles: map<nat, Toggle>, x: string) {
    forall i :: i in toggles && toggles[i].awaited && toggles[i].track == x ==> !toggles[i].applied
  }

  // The claims about tracks are made for all tracks outside `except`.

  /** An applied mutation that nothing spoiled is what the server still shows. */
  ghost predicate AppliedShows(s: System, except: set<string>) {
    forall i :: i in s.toggles && s.toggles[i].awaited && s.toggles[i].applied && !s.toggles[i].spoiled
                && s.toggles[i].track !in except
      ==> (s.toggles[i].track in ServerSet(s, s.account) <==> !s.toggles[i].wasFavorite)
  }

  /** A load that may still be applied. */
  ghost predicate Live(s: System, l: Load) {
    l.snapshot.Some? && l.generation == s.client.generation && l.favoriteRevision == s.client.favoriteRevision
  }

  /** Such a load was read at a state that agrees with the server on every settled track. */
  ghost predicate SnapshotsAgree(s: System, except: set<string>) {
    forall i, x :: i in s.loads && Live(s, s.loads[i]) && x !in s.loads[i].spoiled && x !in except && Settled(s.toggles, x)
      ==> (x in s.loads[i].snapshot.value <==> x in ServerSet(s, s.account))
  }

  ghost predicate ClientAgrees(s: System, except: set<string>) {
    s.loaded ==>
      forall x :: x !in s.unseen && x !in except && Settled(s.toggles, x) ==> (x in s.client.favorites <==> x in ServerSet(s, s.account))
  }

  ghost predicate LoadsOfSession(s: System) {
    forall i :: i in s.loads && s.loads[i].generation == s.client.generation ==> s.loads[i].account == s.account
  }

  /** No token is handed out twice. */
  ghost predicate TokensFresh(s: System) {
    && s.client.favoriteRevision < s.client.nextToken && s.client.generation < s.client.nextToken
    && (forall i :: i in s.toggles ==> s.toggles[i].generation < s.client.nextToken)
    && (forall i :: i in s.loads ==> s.loads[i].generation < s.client.nextToken && s.loads[i].favoriteRevision < s.client.nextToken)
  }

  ghost predicate InvExcept(s: System, except: set<string>) {
    && Awaiting(s) && OnePerTrack(s.toggles) && LoadsOfSession(s) && TokensFresh(s)
    && AppliedShows(s, except) && SnapshotsAgree(s, except) && ClientAgrees(s, except)
  }

  ghost predicate Inv(s: System) { InvExcept(s, {}) }
}
