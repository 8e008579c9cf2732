/** The player around the queue: the current item, the item prefetched for the next track, and
    the generation token that callbacks of older items fail to match.

    Tracks are their ids and items the id of the track they were made for. Playback position,
    timing and settings that only decide whether to prefetch are part of the event. */
module PlayerModel {
  import opened Common
  import opened QueueModel

  /** What the surroundings decide during one event: whether the prefetch conditions hold
      (time, setting, boundary), whether an item can be made, whether the standby item is
      ready, and whether details of the track are stored locally. */
  datatype Env = Env(prefetch: bool, itemMade: bool, standbyReady: bool, local: bool)

  /** `heard`, `asked` and `played` are history variables: which track each generation's item
      was made for, which details were requested under which generation, and which plays were
      reported. */
  datatype Player = Player(
    queue: Queue<string>,
    repeatAll: bool,
    repeatOne: bool,
    wantsPlayback: bool,
    client: bool,
    error: bool,
    pendingID: Option<string>,
    audio: Option<string>,
    standby: Option<string>,
    generation: nat,
    recordedGeneration: Option<nat>,
    details: Option<string>,
    nextToken: nat,
    heard: map<nat, string>,
    asked: set<(nat, string)>,
    played: seq<(nat, string)>)

  datatype Event =
    | Play(tracks: seq<string>, start: int)
    | EditQueue(edit: Edit<string>)
    | SelectAt(position: int)
    | SetRepeatAll(on: bool)
    | SetRepeatOne(on: bool)
    | ChangeSetting
    | Next
    | Previous(late: bool)
    | Pause
    | Resume
    | Seek
    | Sleep
    | Stop
    | Tick(token: nat, playing: bool, audible: bool)
    | Finished(token: nat, boundary: bool)
    | Failed(token: nat)
    | ActivationFailed(token: nat)
    | DetailsArrived(token: nat, track: string)

  const IDLE: Player :=
    Player(Queue([], 0), false, false, false, false, false, None, None, None, 0, None, None, 1, map[], {}, [])

  function Current(q: Queue<string>): Option<string> {
    if q.index < |q.tracks| then Some(q.tracks[q.index]) else None
  }

  /** The position the prefetch looks at. */
  function Upcoming(q: Queue<string>, repeatAll: bool): Option<nat> {
    if q.index + 1 < |q.tracks| then Some(q.index + 1)
    else if repeatAll && q.tracks != [] then Some(0) else None
  }

  function UpcomingTrack(q: Queue<string>, repeatAll: bool): Option<string> {
    var i := Upcoming(q, repeatAll);
    if i.Some? then Some(q.tracks[i.value]) else None
  }

  function Cancel(p: Player): Player { p.(pendingID := None, standby := None) }

  function Prepare(p: Player, env: Env): Player {
    var next := UpcomingTrack(p.queue, p.repeatAll);
    if !p.wantsPlayback || !env.prefetch || p.repeatOne || !p.client || next.None? || p.pendingID == next then p
    else p.(pendingID := next, standby := if env.itemMade then next else None)
  }

  function Renew(p: Player): Player { p.(generation := p.nextToken, nextToken := p.nextToken + 1) }

  function Halt(p: Player): Player { p.(wantsPlayback := false) }

  function GiveUp(p: Player): Player { Cancel(Halt(p)).(error := true) }

  /** Blank the details of the previous track and request those of this one. */
  function LoadDetails(p: Player, track: string, local: bool): Player {
    p.(details := if local then Some(track) else None, asked := p.asked + {(p.generation, track)})
  }

  /** An item for the track becomes the current item, under the current generation. */
  function Install(p: Player, track: string): Player {
    p.(audio := Some(track), heard := p.heard[p.generation := track])
  }

  /** Load the current track into an emptied player. */
  function LoadInto(q: Player, play: bool, itemMade: bool, local: bool): Player {
    var track := Current(q.queue);
    if track.None? || !q.client then q
    else
      var r := q.(wantsPlayback := play);
      LoadDetails(if itemMade then Install(r, track.value) else GiveUp(r), track.value, local)
  }

  function LoadCurrent(p: Player, play: bool, env: Env): Player {
    LoadInto(Renew(Cancel(p)).(audio := None, error := false), play, env.itemMade, env.local)
  }

  predicate Promotable(p: Player, env: Env) {
    var next := UpcomingTrack(p.queue, p.repeatAll);
    next.Some? && p.pendingID == next && p.standby.Some? && env.standbyReady
  }

  /** The standby item becomes the current one; the queue advances on its own. */
  function Promote(p: Player, env: Env): Player
    requires p.standby.Some?
  {
    var q := Renew(p.(queue := Advance(p.queue, p.repeatAll), pendingID := None, standby := None, error := false));
    var r := Install(q, p.standby.value);
    var track := Current(r.queue);
    if track.Some? && r.client then LoadDetails(r, track.value, env.local) else r
  }

  function GoNext(p: Player, env: Env): Player {
    if Promotable(p, env) then Promote(p, env)
    else if CanAdvance(p.queue, p.repeatAll) then
      LoadCurrent(p.(queue := Advance(p.queue, p.repeatAll)), p.wantsPlayback, env)
    else Halt(Cancel(p))
  }

  function GoBack(p: Player, late: bool, env: Env): Player {
    if late then SeekTo(p) else LoadCurrent(p.(queue := Back(p.queue)), p.wantsPlayback, env)
  }

  function SeekTo(p: Player): Player { if Current(p.queue).None? then p else Cancel(p) }

  function Continue(p: Player, env: Env): Player {
    if Current(p.queue).None? then p
    else if p.error || p.audio.None? then LoadCurrent(p, true, env)
    else p.(wantsPlayback := true)
  }

  function Quit(p: Player): Player {
    Renew(Halt(Cancel(p))).(audio := None, queue := Replace([], 0), error := false, client := false, details := None)
  }

  /** Appending and inserting bring the client along; appending alone keeps what was prefetched. */
  function EditAndPrepare(p: Player, e: Edit<string>, env: Env): Player
    requires Valid(p.queue) && Allowed(p.queue, e)
  {
    var q := p.(queue := Apply(p.queue, e));
    if e.Append? then Prepare(q.(client := true), env)
    else if e.InsertNext? then (if Takes(p.queue, e) then Prepare(Cancel(q.(client := true)), env) else p)
    else if Takes(p.queue, e) || e.Shuffle? then Prepare(Cancel(q), env)
    else p
  }

  function Observe(p: Player, playing: bool, audible: bool, env: Env): Player {
    var q := if playing && audible && p.recordedGeneration != Some(p.generation) && Current(p.queue).Some?
             then p.(recordedGeneration := Some(p.generation),
                     played := p.played + [(p.generation, Current(p.queue).value)])
             else p;
    if playing then Prepare(q, env) else q
  }

  function End(p: Player, boundary: bool, env: Env): Player {
    if boundary then Halt(Cancel(p))
    else if p.repeatOne then Continue(SeekTo(p), env)
    else GoNext(p, env)
  }

  /** A callback of an item runs only if the item's generation is still the current one. */
  predicate Live(p: Player, token: nat) { token in p.heard && token == p.generation }

  function Step(p: Player, e: Event, env: Env): Player {
    match e
    case Play(tracks, start) =>
      if tracks == [] then Quit(p) else LoadCurrent(p.(client := true, queue := Replace(tracks, start)), true, env)
    case EditQueue(edit) => if Valid(p.queue) && Allowed(p.queue, edit) then EditAndPrepare(p, edit, env) else p
    case SelectAt(i) => if Within(p.queue.tracks, i) then LoadCurrent(p.(queue := Select(p.queue, i)), true, env) else p
    case SetRepeatAll(on) => Prepare(Cancel(p.(repeatAll := on)), env)
    case SetRepeatOne(on) => Prepare(Cancel(p.(repeatOne := on)), env)
    case ChangeSetting => Prepare(Cancel(p), env)
    case Next => GoNext(p, env)
    case Previous(late) => GoBack(p, late, env)
    case Pause => Halt(p)
    case Resume => Continue(p, env)
    case Seek => SeekTo(p)
    case Sleep => Halt(Cancel(p))
    case Stop => Quit(p)
    case Tick(token, playing, audible) => if Live(p, token) then Observe(p, playing, audible, env) else p
    case Finished(token, boundary) => if Live(p, token) then End(p, boundary, env) else p
    case Failed(token) => if Live(p, token) then GiveUp(p) else p
    case ActivationFailed(token) => if Live(p, token) then Halt(p).(error := true) else p
    case DetailsArrived(token, track) =>
      if (token, track) in p.asked && token == p.generation then p.(details := Some(track)) else p
  }

  // ---- invariant ----

  /** Standby was made for the pending id; the pending id is the upcoming track, or the first
      one when the queue was appended to while repeating. */
  ghost predicate Prefetched(pendingID: Option<string>, standby: Option<string>, q: Queue<string>, repeatAll: bool) {
    && (standby.Some? ==> pendingID == standby)
    && (pendingID.Some? ==>
          || pendingID == UpcomingTrack(q, repeatAll)
          || (repeatAll && q.tracks != [] && pendingID.value == q.tracks[0]))
  }

  /** The current item and everything received under the current generation belong to the
      current track. */
  ghost predicate Attributed(generation: nat, audio: Option<string>, details: Option<string>, heard: map<nat, string>,
                             asked: set<(nat, string)>, current: Option<string>) {
    && (audio.Some? ==> audio == current)
    && audio == (if generation in heard then Some(heard[generation]) else None)
    && (details.Some? ==> details == current)
    && (forall x :: (generation, x) in asked ==> current == Some(x))
  }

  ghost predicate TokensIssued(generation: nat, nextToken: nat, heard: map<nat, string>, asked: set<(nat, string)>) {
    && generation < nextToken
    && (forall g :: g in heard ==> g < nextToken)
    && (forall a :: a in asked ==> a.0 < nextToken)
  }

  /** Every report names the track whose item its generation played, and no generation reports twice. */
  ghost predicate Recorded(played: seq<(nat, string)>, recorded: Option<nat>, generation: nat, heard: map<nat, string>) {
    && (forall i :: 0 <= i < |played| ==> played[i].0 in heard && heard[played[i].0] == played[i].1)
    && (forall i, j :: 0 <= i < j < |played| ==> played[i].0 < played[j].0)
    && (if played == [] then recorded.None?
        else recorded == Some(played[|played| - 1].0) && played[|played| - 1].0 <= generation)
  }

  ghost predicate Inv(p: Player) {
    && Valid(p.queue)
    && (!p.client ==> p.queue.tracks == [])
    && (p.pendingID.Some? ==> p.client && !p.repeatOne)
    && Prefetched(p.pendingID, p.standby, p.queue, p.repeatAll)
    && Attributed(p.generation, p.audio, p.details, p.heard, p.asked, Current(p.queue))
    && TokensIssued(p.generation, p.nextToken, p.heard, p.asked)
    && Recorded(p.played, p.recordedGeneration, p.generation, p.heard)
  }

  function Run(p: Player, es: seq<(Event, Env)>): Player
    decreases |es|
  {
    if es == [] then p
    else
      var q := Run(p, es[..|es| - 1]);
      Step(q, es[|es| - 1].0, es[|es| - 1].1)
  }
}
