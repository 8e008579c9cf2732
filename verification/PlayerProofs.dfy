/** What every run of the player keeps. */
module PlayerProofs {
  import opened Common
  import opened QueueModel
  import opened PlayerModel

  // ---- what each part of a step keeps ----

  /** p after a change that touches only what is prefetched, requested or wanted. */
  lemma PrepareInv(p: Player, env: Env)
    requires Inv(p)
    ensures Inv(Prepare(p, env))
  {
  }

  lemma CancelInv(p: Player)
    requires Inv(p)
    ensures Inv(Cancel(p)) && Inv(Halt(p)) && Inv(GiveUp(p))
  {
  }

  /** A generation nobody has used yet. */
  lemma FreshToken(g: nat, next: nat, heard: map<nat, string>, asked: set<(nat, string)>, details: Option<string>, current: Option<string>)
    requires TokensIssued(g, next, heard, asked) && (details.Some? ==> details == current)
    ensures TokensIssued(next, next + 1, heard, asked) && Attributed(next, None, details, heard, asked, current)
  {
  }

  lemma InstallInv(g: nat, next: nat, details: Option<string>, heard: map<nat, string>, asked: set<(nat, string)>,
                   played: seq<(nat, string)>, recorded: Option<nat>, track: string)
    requires Attributed(g, None, details, heard, asked, Some(track)) && TokensIssued(g, next, heard, asked)
    requires Recorded(played, recorded, g, heard)
    ensures Attributed(g, Some(track), details, heard[g := track], asked, Some(track))
    ensures TokensIssued(g, next, heard[g := track], asked)
    ensures Recorded(played, recorded, g, heard[g := track])
  {
  }

  lemma RequestInv(g: nat, next: nat, audio: Option<string>, details: Option<string>, heard: map<nat, string>,
                   asked: set<(nat, string)>, track: string, local: bool)
    requires Attributed(g, audio, details, heard, asked, Some(track)) && TokensIssued(g, next, heard, asked)
    ensures Attributed(g, audio, if local then Some(track) else None, heard, asked + {(g, track)}, Some(track))
    ensures TokensIssued(g, next, heard, asked + {(g, track)})
  {
  }

  /** What loading starts from: queue and client may just have changed. */
  ghost predicate Loadable(p: Player) {
    && Valid(p.queue)
    && (!p.client ==> p.queue.tracks == [])
    && (p.queue.tracks == [] ==> p.details.None?)
    && TokensIssued(p.generation, p.nextToken, p.heard, p.asked)
    && Recorded(p.played, p.recordedGeneration, p.generation, p.heard)
  }

  /** The player after a load whose item could be made. */
  function Loaded(p: Player, play: bool, track: string, local: bool): Player {
    p.(pendingID := None, standby := None, error := false, wantsPlayback := play, audio := Some(track),
       generation := p.nextToken, nextToken := p.nextToken + 1, heard := p.heard[p.nextToken := track],
       details := if local then Some(track) else None, asked := p.asked + {(p.nextToken, track)})
  }

  lemma LoadIsLoaded(p: Player, play: bool, env: Env)
    requires p.client && Current(p.queue).Some? && env.itemMade
    ensures LoadCurrent(p, play, env) == Loaded(p, play, Current(p.queue).value, env.local)
  {
  }

  lemma LoadedKeeps(p: Player, play: bool, local: bool)
    requires Loadable(p) && p.client && Current(p.queue).Some?
    ensures Inv(Loaded(p, play, Current(p.queue).value, local))
  {
    var track := Current(p.queue);
    var none: Option<string> := None;
    var g, x := p.nextToken, track.value;
    RecordedLater(p.played, p.recordedGeneration, p.generation, g, p.heard);
    FreshToken(p.generation, g, p.heard, p.asked, none, track);
    InstallInv(g, g + 1, none, p.heard, p.asked, p.played, p.recordedGeneration, x);
    RequestInv(g, g + 1, track, none, p.heard[g := x], p.asked, x, local);
  }

  lemma LoadedInv(p: Player, play: bool, env: Env)
    requires Loadable(p) && p.client && Current(p.queue).Some? && env.itemMade
    ensures Inv(LoadCurrent(p, play, env))
  {
    LoadIsLoaded(p, play, env);
    LoadedKeeps(p, play, env.local);
  }

  lemma RecordedLater(played: seq<(nat, string)>, recorded: Option<nat>, g: nat, h: nat, heard: map<nat, string>)
    requires Recorded(played, recorded, g, heard) && g <= h
    ensures Recorded(played, recorded, h, heard)
  {
  }

  /** The item could not be made. */
  lemma FailedLoadInv(p: Player, play: bool, env: Env)
    requires Loadable(p) && p.client && Current(p.queue).Some? && !env.itemMade
    ensures Inv(LoadCurrent(p, play, env))
  {
    var track := Current(p.queue);
    var none: Option<string> := None;
    FreshToken(p.generation, p.nextToken, p.heard, p.asked, none, track);
    RequestInv(p.nextToken, p.nextToken + 1, none, none, p.heard, p.asked, track.value, env.local);
    RecordedLater(p.played, p.recordedGeneration, p.generation, p.nextToken, p.heard);
  }

  lemma NothingToLoadInv(p: Player, play: bool, env: Env)
    requires Loadable(p) && Current(p.queue).None?
    ensures Inv(LoadCurrent(p, play, env))
  {
    var none: Option<string> := None;
    FreshToken(p.generation, p.nextToken, p.heard, p.asked, none, none);
    RecordedLater(p.played, p.recordedGeneration, p.generation, p.nextToken, p.heard);
  }

  lemma LoadInv(p: Player, play: bool, env: Env)
    requires Loadable(p)
    ensures Inv(LoadCurrent(p, play, env))
  {
    if Current(p.queue).None? {
      NothingToLoadInv(p, play, env);
    } else if env.itemMade {
      LoadedInv(p, play, env);
    } else {
      FailedLoadInv(p, play, env);
    }
  }

  /** The prefetched track that may be promoted is the one the queue selects next. */
  lemma UpcomingAgrees(q: Queue<string>, repeatAll: bool)
    requires Valid(q)
    ensures CanAdvance(q, repeatAll) <==> Upcoming(q, repeatAll).Some?
    ensures CanAdvance(q, repeatAll) ==> Advance(q, repeatAll) == q.(index := Upcoming(q, repeatAll).value)
    ensures CanAdvance(q, repeatAll) ==> Current(Advance(q, repeatAll)) == UpcomingTrack(q, repeatAll)
  {
  }

  lemma PromoteInv(p: Player, env: Env)
    requires Inv(p) && Promotable(p, env)
    ensures Inv(Promote(p, env))
  {
    UpcomingAgrees(p.queue, p.repeatAll);
    NavigationIsValid(p.queue, p.repeatAll, 0);
    var track := p.standby;
    var none: Option<string> := None;
    var g := p.nextToken;
    FreshToken(p.generation, p.nextToken, p.heard, p.asked, none, track);
    InstallInv(g, g + 1, none, p.heard, p.asked, p.played, p.recordedGeneration, track.value);
    RequestInv(g, g + 1, track, none, p.heard[g := track.value], p.asked, track.value, env.local);
  }

  /** An edit of a non-empty queue keeps the current track; appending also keeps what is next,
      unless the queue wrapped around. */
  lemma EditCurrent(q: Queue<string>, e: Edit<string>)
    requires Valid(q) && Allowed(q, e) && q.tracks != []
    ensures Valid(Apply(q, e)) && Current(Apply(q, e)) == Current(q) && Apply(q, e).tracks != []
  {
    ApplyIsValid(q, e);
    EditKeepsPlayingTrack(q, e);
  }

  lemma EditPrefetched(q: Queue<string>, e: Edit<string>, pendingID: Option<string>, standby: Option<string>, repeatAll: bool)
    requires Valid(q) && Prefetched(pendingID, standby, q, repeatAll) && e.Append?
    ensures Prefetched(pendingID, standby, Apply(q, e), repeatAll)
  {
  }

  lemma EditedInv(p: Player, e: Edit<string>)
    requires Inv(p) && Allowed(p.queue, e) && (e.Append? || p.pendingID.None?) && p.client
    ensures Inv(p.(queue := Apply(p.queue, e)))
  {
    ApplyIsValid(p.queue, e);
    if p.queue.tracks != [] { EditCurrent(p.queue, e); }
    if e.Append? { EditPrefetched(p.queue, e, p.pendingID, p.standby, p.repeatAll); }
  }

  lemma AppendInv(p: Player, e: Edit<string>, env: Env)
    requires Inv(p) && e.Append?
    ensures Inv(EditAndPrepare(p, e, env))
  {
    var q := p.(client := true);
    EditedInv(q, e);
    PrepareInv(q.(queue := Apply(q.queue, e)), env);
  }

  lemma OtherEditInv(p: Player, e: Edit<string>, env: Env)
    requires Inv(p) && Allowed(p.queue, e) && !e.Append? && Takes(p.queue, e)
    ensures Inv(EditAndPrepare(p, e, env))
  {
    CancelInv(p);
    var c := Cancel(if e.InsertNext? then p.(client := true) else p);
    EditedInv(c, e);
    var d := c.(queue := Apply(p.queue, e));
    PrepareInv(d, env);
    assert EditAndPrepare(p, e, env) == Prepare(d, env);
  }

  lemma IdleShuffleInv(p: Player, e: Edit<string>, env: Env)
    requires Inv(p) && Allowed(p.queue, e) && e.Shuffle? && !Takes(p.queue, e)
    ensures Inv(EditAndPrepare(p, e, env))
  {
    CancelInv(p);
    PrepareInv(Cancel(p), env);
  }

  lemma EditInv(p: Player, e: Edit<string>, env: Env)
    requires Inv(p) && Allowed(p.queue, e)
    ensures Inv(EditAndPrepare(p, e, env))
  {
    if e.Append? {
      AppendInv(p, e, env);
    } else if Takes(p.queue, e) {
      OtherEditInv(p, e, env);
    } else if e.Shuffle? {
      IdleShuffleInv(p, e, env);
    } else {
      assert EditAndPrepare(p, e, env) == p;
    }
  }

  lemma NextInv(p: Player, env: Env)
    requires Inv(p)
    ensures Inv(GoNext(p, env))
  {
    NavigationIsValid(p.queue, p.repeatAll, 0);
    if Promotable(p, env) {
      PromoteInv(p, env);
    } else if CanAdvance(p.queue, p.repeatAll) {
      LoadInv(p.(queue := Advance(p.queue, p.repeatAll)), p.wantsPlayback, env);
    } else {
      CancelInv(p);
      CancelInv(Cancel(p));
    }
  }

  lemma ContinueInv(p: Player, env: Env)
    requires Inv(p)
    ensures Inv(Continue(p, env))
  {
    if p.error || p.audio.None? { LoadInv(p, true, env); }
  }

  lemma ObserveInv(p: Player, playing: bool, audible: bool, env: Env)
    requires Inv(p) && p.generation in p.heard
    ensures Inv(Observe(p, playing, audible, env))
  {
    var q := Observe(p, playing, audible, env.(prefetch := false));
    PrepareInv(q, env);
  }

  lemma QuitInv(p: Player)
    requires Inv(p)
    ensures Inv(Quit(p))
  {
    var none: Option<string> := None;
    FreshToken(p.generation, p.nextToken, p.heard, p.asked, none, none);
  }

  lemma EndInv(p: Player, boundary: bool, env: Env)
    requires Inv(p)
    ensures Inv(End(p, boundary, env))
  {
    CancelInv(p);
    if boundary {
      CancelInv(Cancel(p));
    } else if p.repeatOne {
      ContinueInv(SeekTo(p), env);
    } else {
      NextInv(p, env);
    }
  }

  lemma DetailsInv(p: Player, token: nat, track: string, env: Env)
    requires Inv(p)
    ensures Inv(Step(p, DetailsArrived(token, track), env))
  {
  }

  lemma FailInv(p: Player, e: Event, env: Env)
    requires Inv(p) && (e.Failed? || e.ActivationFailed?)
    ensures Inv(Step(p, e, env))
  {
    CancelInv(p);
  }

  lemma CallbackInv(p: Player, e: Event, env: Env)
    requires Inv(p) && (e.Tick? || e.Finished? || e.Failed? || e.ActivationFailed? || e.DetailsArrived?)
    ensures Inv(Step(p, e, env))
  {
    match e
    case Tick(token, playing, audible) => if Live(p, token) { ObserveInv(p, playing, audible, env); }
    case Finished(token, boundary) => if Live(p, token) { EndInv(p, boundary, env); }
    case DetailsArrived(token, track) => DetailsInv(p, token, track, env);
    case _ => FailInv(p, e, env);
  }

  lemma SettingInv(p: Player, e: Event, env: Env)
    requires Inv(p) && (e.SetRepeatAll? || e.SetRepeatOne? || e.ChangeSetting?)
    ensures Inv(Step(p, e, env))
  {
    match e
    case SetRepeatAll(on) => PrepareInv(Cancel(p.(repeatAll := on)), env);
    case SetRepeatOne(on) => PrepareInv(Cancel(p.(repeatOne := on)), env);
    case ChangeSetting => PrepareInv(Cancel(p), env);
  }

  lemma PlayInv(p: Player, tracks: seq<string>, start: int, env: Env)
    requires Inv(p)
    ensures Inv(Step(p, Play(tracks, start), env))
  {
    ReplaceIsValid(tracks, start);
    if tracks == [] { QuitInv(p); }
    else { LoadInv(p.(client := true, queue := Replace(tracks, start)), true, env); }
  }

  lemma SelectInv(p: Player, i: int, env: Env)
    requires Inv(p)
    ensures Inv(Step(p, SelectAt(i), env))
  {
    NavigationIsValid(p.queue, p.repeatAll, i);
    if Within(p.queue.tracks, i) { LoadInv(p.(queue := Select(p.queue, i)), true, env); }
  }

  lemma PreviousInv(p: Player, late: bool, env: Env)
    requires Inv(p)
    ensures Inv(Step(p, Previous(late), env))
  {
    NavigationIsValid(p.queue, p.repeatAll, 0);
    if late { CancelInv(p); }
    else { LoadInv(p.(queue := Back(p.queue)), p.wantsPlayback, env); }
  }

  lemma StepInv(p: Player, e: Event, env: Env)
    requires Inv(p)
    ensures Inv(Step(p, e, env))
  {
    if e.EditQueue? { if Allowed(p.queue, e.edit) { EditInv(p, e.edit, env); } }
    else if e.Play? { PlayInv(p, e.tracks, e.start, env); }
    else if e.SelectAt? { SelectInv(p, e.position, env); }
    else if e.Previous? { PreviousInv(p, e.late, env); }
    else if e.SetRepeatAll? || e.SetRepeatOne? || e.ChangeSetting? { SettingInv(p, e, env); }
    else if e.Next? { NextInv(p, env); }
    else if e.Resume? { ContinueInv(p, env); }
    else if e.Stop? { QuitInv(p); }
    else if e.Pause? || e.Seek? || e.Sleep? { CancelInv(p); CancelInv(Cancel(p)); }
    else { CallbackInv(p, e, env); }
  }

  lemma {:induction false} RunInv(p: Player, es: seq<(Event, Env)>)
    requires Inv(p)
    ensures Inv(Run(p, es))
    decreases |es|
  {
    if es != [] {
      RunInv(p, es[..|es| - 1]);
      StepInv(Run(p, es[..|es| - 1]), es[|es| - 1].0, es[|es| - 1].1);
    }
  }

  // ---- results ----

  lemma ReachableInv(es: seq<(Event, Env)>)
    ensures Inv(Run(IDLE, es))
  {
    RunInv(IDLE, es);
  }

  /** In every run the standby item was made for the pending id, the current item for the
      current track, and lyrics and artwork shown belong to the current track. */
  lemma ItemsBelongToTheirTracks(es: seq<(Event, Env)>)
    ensures var p := Run(IDLE, es);
            && (p.standby.Some? ==> p.pendingID == p.standby)
            && (p.audio.Some? ==> p.audio == Current(p.queue))
            && (p.details.Some? ==> p.details == Current(p.queue))
  {
    ReachableInv(es);
  }

  /** In every run a promotion plays exactly the track the queue selects next. */
  lemma PromotionPlaysTheNextTrack(es: seq<(Event, Env)>, env: Env)
    requires Promotable(Run(IDLE, es), env)
    ensures var p := Run(IDLE, es);
            var r := Promote(p, env);
            && CanAdvance(p.queue, p.repeatAll)
            && r.queue == Advance(p.queue, p.repeatAll)
            && r.audio == p.standby && r.audio == Current(r.queue)
  {
    ReachableInv(es);
    var p := Run(IDLE, es);
    UpcomingAgrees(p.queue, p.repeatAll);
  }

  /** A callback that carries the current generation speaks about the item that plays the
      current track; a callback of any earlier item changes nothing. */
  lemma CallbacksConcernTheCurrentItem(es: seq<(Event, Env)>, e: Event, env: Env)
    requires e.Tick? || e.Finished? || e.Failed? || e.ActivationFailed?
    ensures var p := Run(IDLE, es);
            if Live(p, e.token) then p.audio == Some(p.heard[e.token]) == Current(p.queue) else Step(p, e, env) == p
  {
    ReachableInv(es);
  }

  /** Every play is reported under the track its item was made for, and plays of later items come
      later, so no item is reported twice. */
  lemma PlaysAreReportedOnce(es: seq<(Event, Env)>)
    ensures var p := Run(IDLE, es);
            && (forall i :: 0 <= i < |p.played| ==> p.played[i].0 in p.heard && p.heard[p.played[i].0] == p.played[i].1)
            && (forall i, j :: 0 <= i < j < |p.played| ==> p.played[i].0 < p.played[j].0)
  {
    ReachableInv(es);
  }

  /** A standby item that is not for the upcoming track is possible only while repeating the
      queue, and then it is the first track's. It is never promoted in that case. */
  lemma StaleStandbyOnlyAfterWrap(es: seq<(Event, Env)>, env: Env)
    requires var p := Run(IDLE, es); p.standby.Some? && p.standby != UpcomingTrack(p.queue, p.repeatAll)
    ensures var p := Run(IDLE, es);
            && p.repeatAll && p.queue.tracks != [] && p.standby.value == p.queue.tracks[0]
            && !Promotable(p, env)
  {
    ReachableInv(es);
  }

  /** What was prefetched is no longer what comes next. */
  predicate Stale(p: Player) { p.standby.Some? && p.standby != UpcomingTrack(p.queue, p.repeatAll) }

  /** A track is appended where the queue wraps around, another one than was prefetched, while
      the prefetch conditions do not hold. */
  predicate AppendsAtWrap(p: Player, e: Event, env: Env) {
    && e.EditQueue? && e.edit.Append?
    && p.standby.Some? && p.queue.index + 1 == |p.queue.tracks| < CAPACITY
    && Some(e.edit.track) != p.standby && (!p.wantsPlayback || !env.prefetch)
  }

  lemma AppendStaleExactly(p: Player, t: string, env: Env)
    requires Inv(p) && !Stale(p)
    ensures Stale(EditAndPrepare(p, Append(t), env)) <==> AppendsAtWrap(p, EditQueue(Append(t)), env)
  {
    var r := Apply(p.queue, Edit<string>.Append(t));
    if p.standby.Some? && |p.queue.tracks| < CAPACITY {
      if p.queue.index + 1 == |p.queue.tracks| {
        assert UpcomingTrack(r, p.repeatAll) == Some(t);
      } else {
        assert UpcomingTrack(r, p.repeatAll) == UpcomingTrack(p.queue, p.repeatAll);
      }
    }
  }

  lemma PreparedIsFresh(p: Player, env: Env)
    requires !Stale(p)
    ensures !Stale(Prepare(p, env)) && !Stale(Prepare(Cancel(p), env)) && !Stale(Cancel(p)) && !Stale(GiveUp(p))
  {
  }

  lemma LoadedIsFresh(p: Player, play: bool, env: Env)
    ensures !Stale(LoadCurrent(p, play, env))
  {
  }

  lemma NextIsFresh(p: Player, env: Env)
    ensures !Stale(GoNext(p, env))
  {
    LoadedIsFresh(p.(queue := Advance(p.queue, p.repeatAll)), p.wantsPlayback, env);
  }

  lemma ContinuedIsFresh(p: Player, env: Env)
    requires !Stale(p)
    ensures !Stale(Continue(p, env))
  {
    LoadedIsFresh(p, true, env);
  }

  lemma EndedIsFresh(p: Player, boundary: bool, env: Env)
    requires !Stale(p)
    ensures !Stale(End(p, boundary, env))
  {
    ContinuedIsFresh(SeekTo(p), env);
    NextIsFresh(p, env);
  }

  lemma EditedIsFresh(p: Player, e: Edit<string>, env: Env)
    requires Valid(p.queue) && Allowed(p.queue, e) && !Stale(p) && !e.Append?
    ensures !Stale(EditAndPrepare(p, e, env))
  {
    var q := p.(queue := Apply(p.queue, e), client := p.client || e.InsertNext?);
    PreparedIsFresh(Cancel(q), env);
  }

  lemma SettingIsFresh(p: Player, e: Event, env: Env)
    requires e.SetRepeatAll? || e.SetRepeatOne? || e.ChangeSetting?
    ensures !Stale(Step(p, e, env))
  {
    var q := match e case SetRepeatAll(on) => p.(repeatAll := on) case SetRepeatOne(on) => p.(repeatOne := on) case _ => p;
    PreparedIsFresh(Cancel(q), env);
  }

  lemma JumpIsFresh(p: Player, e: Event, env: Env)
    requires !Stale(p) && (e.Play? || e.SelectAt? || e.Previous?)
    ensures !Stale(Step(p, e, env))
  {
    match e
    case Play(tracks, start) => LoadedIsFresh(p.(client := true, queue := Replace(tracks, start)), true, env);
    case SelectAt(i) => LoadedIsFresh(p.(queue := Select(p.queue, i)), true, env);
    case Previous(late) => LoadedIsFresh(p.(queue := Back(p.queue)), p.wantsPlayback, env);
  }

  lemma ObservedIsFresh(p: Player, playing: bool, audible: bool, env: Env)
    requires !Stale(p)
    ensures !Stale(Observe(p, playing, audible, env))
  {
    PreparedIsFresh(Observe(p, playing, audible, env.(prefetch := false)), env);
  }

  lemma CallbackIsFresh(p: Player, e: Event, env: Env)
    requires !Stale(p) && (e.Tick? || e.Finished? || e.Failed? || e.ActivationFailed? || e.DetailsArrived?)
    ensures !Stale(Step(p, e, env))
  {
    match e
    case Tick(_, playing, audible) => ObservedIsFresh(p, playing, audible, env);
    case Finished(_, boundary) => EndedIsFresh(p, boundary, env);
    case Failed(_) => PreparedIsFresh(p, env);
    case ActivationFailed(_) =>
    case DetailsArrived(_, _) =>
  }

  /** In every run, from a player whose standby item is for the upcoming track or absent, a step
      leaves an item for another track exactly if it appends a different track where the queue
      wraps around and may not prefetch at that moment. */
  lemma StandbyGoesStaleExactly(es: seq<(Event, Env)>, e: Event, env: Env)
    requires !Stale(Run(IDLE, es))
    ensures Stale(Step(Run(IDLE, es), e, env)) <==> AppendsAtWrap(Run(IDLE, es), e, env)
  {
    ReachableInv(es);
    StepStaleExactly(Run(IDLE, es), e, env);
  }

  lemma StepStaleExactly(p: Player, e: Event, env: Env)
    requires Inv(p) && !Stale(p)
    ensures Stale(Step(p, e, env)) <==> AppendsAtWrap(p, e, env)
  {
    if e.EditQueue? {
      if e.edit.Append? { AppendStaleExactly(p, e.edit.track, env); }
      else if Allowed(p.queue, e.edit) { EditedIsFresh(p, e.edit, env); }
    }
    else if e.Play? || e.SelectAt? || e.Previous? { JumpIsFresh(p, e, env); }
    else if e.SetRepeatAll? || e.SetRepeatOne? || e.ChangeSetting? { SettingIsFresh(p, e, env); }
    else if e.Next? { NextIsFresh(p, env); }
    else if e.Resume? { ContinuedIsFresh(p, env); }
    else if e.Tick? || e.Finished? || e.Failed? || e.ActivationFailed? || e.DetailsArrived? { CallbackIsFresh(p, e, env); }
  }

  /** Such a run: repeat one track, prefetch it again, then append another one while the
      prefetch conditions do not hold. */
  lemma StaleStandbyIsPossible()
    ensures var on, off := Env(true, true, true, false), Env(false, true, true, false);
            var p := Step(Step(Step(IDLE, SetRepeatAll(true), on), Play(["a"], 0), on), ChangeSetting, on);
            var q := Step(p, EditQueue(Append("b")), off);
            q.standby == Some("a") && UpcomingTrack(q.queue, q.repeatAll) == Some("b")
  {
    var on := Env(true, true, true, false);
    var p := Step(Step(IDLE, SetRepeatAll(true), on), Play(["a"], 0), on);
    assert p.queue == Queue(["a"], 0);
  }
}
