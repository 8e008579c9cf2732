/** What the player plays after each call and callback. */
module PlayerEffects {
  import opened Common
  import opened QueueModel
  import opened PlayerModel
  import opened PlayerProofs

  /** r has just loaded its current track under a new generation: it plays, or could not be made into an item; its
      details are requested, and nothing is prefetched. */
  ghost predicate Loaded(p: Player, r: Player, play: bool, env: Env) {
    && Current(r.queue).Some?
    && var track := Current(r.queue).value;
       && r.generation == p.nextToken && r.pendingID.None? && r.standby.None?
       && (r.generation, track) in r.asked && r.details == (if env.local then Some(track) else None)
       && if env.itemMade
          then r.audio == Some(track) && Live(r, r.generation) && r.wantsPlayback == play && !r.error
          else r.audio.None? && !r.wantsPlayback && r.error
  }

  lemma LoadEffect(p: Player, play: bool, env: Env)
    requires p.client && Current(p.queue).Some?
    ensures Loaded(p, LoadCurrent(p, play, env), play, env) && LoadCurrent(p, play, env).queue == p.queue
  {
  }

  /** Playing a list loads the selected track, or the first one if there is no such track; an empty list stops the player. */
  lemma PlayEffect(p: Player, tracks: seq<string>, start: int, env: Env)
    requires Inv(p)
    ensures var r := Step(p, Play(tracks, start), env);
            if tracks == [] then Stopped(r)
            else Loaded(p, r, true, env) && Current(r.queue) == Some(tracks[if 0 <= start < |tracks| then start else 0])
  {
    if tracks == [] {
      StopEffect(p, env);
    } else {
      ReplaceIsValid(tracks, start);
      LoadEffect(p.(client := true, queue := Replace(tracks, start)), true, env);
    }
  }

  /** Nothing is left to play. */
  predicate Stopped(r: Player) {
    && r.queue.tracks == [] && r.audio.None? && r.standby.None? && r.pendingID.None? && r.details.None?
    && !r.wantsPlayback && !r.error && !r.client
  }

  lemma StopEffect(p: Player, env: Env)
    ensures Stopped(Step(p, Stop, env)) && Step(p, Stop, env) == Quit(p)
  {
  }

  /** Selecting a position loads its track; a position outside the queue changes nothing. */
  lemma SelectEffect(p: Player, i: int, env: Env)
    requires Inv(p)
    ensures var r := Step(p, SelectAt(i), env);
            if 0 <= i < |p.queue.tracks| then Loaded(p, r, true, env) && r.queue == Queue(p.queue.tracks, i) else r == p
  {
    if 0 <= i < |p.queue.tracks| { LoadEffect(p.(queue := Select(p.queue, i)), true, env); }
  }

  /** The standby item was made for the track that comes next and is ready. */
  predicate Ready(p: Player, env: Env) {
    p.standby.Some? && p.standby == UpcomingTrack(p.queue, p.repeatAll) && env.standbyReady
  }

  /** Going on plays the next track: from the prefetched item if that is ready, even if no item could be made now, and
      from a new one otherwise; whether it should play stays as it was. At the end of the queue playback stops. */
  ghost predicate WentOn(p: Player, r: Player, env: Env) {
    if CanAdvance(p.queue, p.repeatAll)
    then r.queue == Advance(p.queue, p.repeatAll) && Loaded(p, r, p.wantsPlayback, if Ready(p, env) then env.(itemMade := true) else env)
    else r == p.(wantsPlayback := false, pendingID := None, standby := None)
  }

  lemma GoNextEffect(p: Player, env: Env)
    requires Inv(p)
    ensures WentOn(p, GoNext(p, env), env)
  {
    UpcomingAgrees(p.queue, p.repeatAll);
    NavigationIsValid(p.queue, p.repeatAll, 0);
    if Promotable(p, env) {
      PromotedEffect(p, env);
    } else if CanAdvance(p.queue, p.repeatAll) {
      assert !Ready(p, env);
      LoadedNext(p, env);
    }
  }

  lemma LoadedNext(p: Player, env: Env)
    requires Inv(p) && !Promotable(p, env) && CanAdvance(p.queue, p.repeatAll)
    requires UpcomingTrack(p.queue, p.repeatAll) == Current(Advance(p.queue, p.repeatAll))
    ensures GoNext(p, env).queue == Advance(p.queue, p.repeatAll) && Loaded(p, GoNext(p, env), p.wantsPlayback, env)
  {
    var q := p.(queue := Advance(p.queue, p.repeatAll));
    LoadEffect(q, p.wantsPlayback, env);
    LoadedBefore(p, q, GoNext(p, env), p.wantsPlayback, env);
  }

  lemma LoadedBefore(p: Player, q: Player, r: Player, play: bool, env: Env)
    requires Loaded(q, r, play, env) && q.nextToken == p.nextToken
    ensures Loaded(p, r, play, env)
  {
  }

  lemma PromotedEffect(p: Player, env: Env)
    requires Inv(p) && Promotable(p, env) && CanAdvance(p.queue, p.repeatAll)
    requires UpcomingTrack(p.queue, p.repeatAll) == Current(Advance(p.queue, p.repeatAll))
    ensures Promote(p, env).queue == Advance(p.queue, p.repeatAll)
    ensures Loaded(p, Promote(p, env), p.wantsPlayback, env.(itemMade := true))
  {
  }

  lemma NextEffect(p: Player, env: Env)
    requires Inv(p)
    ensures WentOn(p, Step(p, Next, env), env)
  {
    GoNextEffect(p, env);
  }

  /** Going back early in a track loads the previous one, or the first one again; late in a track it only starts over. */
  lemma PreviousEffect(p: Player, late: bool, env: Env)
    requires Inv(p) && p.queue.tracks != []
    ensures var r := Step(p, Previous(late), env);
            if late then r == p.(pendingID := None, standby := None)
            else Loaded(p, r, p.wantsPlayback, env) && r.queue == Queue(p.queue.tracks, Max(0, p.queue.index - 1))
  {
    if !late { LoadEffect(p.(queue := Back(p.queue)), p.wantsPlayback, env); }
  }

  /** Resuming loads the current track again after an error or without an item; otherwise the item goes on. */
  lemma ResumeEffect(p: Player, env: Env)
    requires Inv(p)
    ensures var r := Step(p, Resume, env);
            if p.queue.tracks == [] then r == p
            else if p.error || p.audio.None? then Loaded(p, r, true, env) && r.queue == p.queue
            else r == p.(wantsPlayback := true)
  {
    if p.queue.tracks != [] && (p.error || p.audio.None?) { LoadEffect(p, true, env); }
  }

  /** When the item ends: playback stops where it should, the same item starts over when one track repeats, and otherwise the
      next track plays. */
  lemma FinishedEffect(p: Player, token: nat, boundary: bool, env: Env)
    requires Inv(p) && Live(p, token)
    ensures var r := Step(p, Finished(token, boundary), env);
            if boundary then r == p.(wantsPlayback := false, pendingID := None, standby := None)
            else if !p.repeatOne then WentOn(p, r, env)
            else if p.error then Loaded(p, r, true, env) && r.queue == p.queue
            else r == p.(wantsPlayback := true, pendingID := None, standby := None)
  {
    if !boundary {
      if p.repeatOne { if p.error { LoadEffect(SeekTo(p), true, env); } } else { GoNextEffect(p, env); }
    }
  }

  /** Pausing, seeking and the sleep timer touch nothing but the wish to play and what is prefetched. */
  lemma InterruptionEffect(p: Player, env: Env)
    requires Inv(p)
    ensures Step(p, Pause, env) == p.(wantsPlayback := false)
    ensures Step(p, Seek, env) == p.(pendingID := None, standby := None)
    ensures Step(p, Sleep, env) == p.(wantsPlayback := false, pendingID := None, standby := None)
  {
  }

  /** Nor do failures of the current item, which are shown; those of an earlier one change nothing. */
  lemma FailureEffect(p: Player, token: nat, env: Env)
    ensures !Live(p, token) ==> Step(p, Failed(token), env) == p == Step(p, ActivationFailed(token), env)
    ensures Live(p, token) ==> Step(p, Failed(token), env) == p.(wantsPlayback := false, error := true, pendingID := None, standby := None)
    ensures Live(p, token) ==> Step(p, ActivationFailed(token), env) == p.(wantsPlayback := false, error := true)
  {
  }

  /** A setting takes effect and leaves everything else alone but what is prefetched. */
  lemma SettingEffect(p: Player, on: bool, env: Env)
    ensures var r := Step(p, SetRepeatAll(on), env); r == p.(repeatAll := on, pendingID := r.pendingID, standby := r.standby)
    ensures var r := Step(p, SetRepeatOne(on), env); r == p.(repeatOne := on, pendingID := r.pendingID, standby := r.standby)
    ensures var r := Step(p, ChangeSetting, env); r == p.(pendingID := r.pendingID, standby := r.standby)
  {
  }

  /** An edit of the queue leaves everything else alone but what is prefetched, except that appending and inserting bring
      the connection they were asked for with. */
  lemma EditEffect(p: Player, e: Edit<string>, env: Env)
    requires Inv(p) && Allowed(p.queue, e)
    ensures var r := Step(p, EditQueue(e), env);
            r == p.(queue := Apply(p.queue, e), client := p.client || e.Append? || (e.InsertNext? && |p.queue.tracks| < 500),
                    pendingID := r.pendingID, standby := r.standby)
  {
    PreparedOnly(p.(queue := Apply(p.queue, e), client := true), env);
    PreparedOnly(p.(queue := Apply(p.queue, e)), env);
  }

  /** Cancelling and preparing touch only what is prefetched. */
  lemma PreparedOnly(p: Player, env: Env)
    ensures Prepare(p, env) == p.(pendingID := Prepare(p, env).pendingID, standby := Prepare(p, env).standby)
    ensures var r := Prepare(Cancel(p), env); r == p.(pendingID := r.pendingID, standby := r.standby)
  {
  }

  // ---- prefetching ----

  predicate MayPrefetch(p: Player, env: Env) {
    p.wantsPlayback && env.prefetch && !p.repeatOne && p.client && UpcomingTrack(p.queue, p.repeatAll).Some?
  }

  /** What is prefetched is what comes next now, if prefetching is allowed now, and nothing otherwise. */
  predicate PrefetchedAnew(r: Player, env: Env) {
    && r.pendingID == (if MayPrefetch(r, env) then UpcomingTrack(r.queue, r.repeatAll) else None)
    && r.standby == (if env.itemMade then r.pendingID else None)
  }

  lemma PreparedAnew(p: Player, env: Env)
    ensures PrefetchedAnew(Prepare(Cancel(p), env), env)
  {
  }

  /** A change of a setting drops what was prefetched and prefetches what comes next now. */
  lemma SettingPrefetches(p: Player, e: Event, env: Env)
    requires e.SetRepeatAll? || e.SetRepeatOne? || e.ChangeSetting?
    ensures PrefetchedAnew(Step(p, e, env), env)
  {
    var q := match e case SetRepeatAll(on) => p.(repeatAll := on) case SetRepeatOne(on) => p.(repeatOne := on) case _ => p;
    PreparedAnew(q, env);
  }

  /** So does every edit that takes effect, and shuffling always. */
  lemma EditPrefetches(p: Player, e: Edit<string>, env: Env)
    requires Inv(p) && Allowed(p.queue, e) && !e.Append?
    ensures var r := Step(p, EditQueue(e), env);
            if e.Shuffle? || Takes(p.queue, e) then PrefetchedAnew(r, env) else r == p
  {
    PreparedAnew(p.(queue := Apply(p.queue, e), client := p.client || e.InsertNext?), env);
    OtherEditPrefetches(p, e, env);
  }

  /** Appending keeps a prefetched item unless another track comes next now and may be prefetched. */
  lemma AppendPrefetches(p: Player, t: string, env: Env)
    requires Inv(p)
    ensures var r := Step(p, EditQueue(Append(t)), env);
            var next := UpcomingTrack(r.queue, r.repeatAll);
            if MayPrefetch(r, env) && p.pendingID != next
            then r.pendingID == next && r.standby == (if env.itemMade then next else None)
            else r.pendingID == p.pendingID && r.standby == p.standby
  {
    var q := p.(queue := Apply(p.queue, Append(t)), client := true);
    PrepareEffect(q, env);
    PreparedOnly(q, env);
    assert Step(p, EditQueue(Append(t)), env) == Prepare(q, env);
  }

  lemma OtherEditPrefetches(p: Player, e: Edit<string>, env: Env)
    requires Inv(p) && Allowed(p.queue, e) && !e.Append?
    ensures var q := p.(queue := Apply(p.queue, e), client := p.client || e.InsertNext?);
            Step(p, EditQueue(e), env) == if Takes(p.queue, e) || e.Shuffle? then Prepare(Cancel(q), env) else p
  {
  }

  /** While the current item plays, what comes next is prefetched as soon as that is allowed: the standby item is for it, unless
      that failed before or fails now. Otherwise a tick leaves what is prefetched alone. */
  lemma TickPrefetches(p: Player, token: nat, audible: bool, env: Env)
    requires Inv(p) && Live(p, token)
    ensures var next := UpcomingTrack(p.queue, p.repeatAll);
            var r := Step(p, Tick(token, true, audible), env);
            && r.queue == p.queue && r.repeatAll == p.repeatAll
            && if MayPrefetch(p, env) && p.pendingID != next
               then r.pendingID == next && r.standby == (if env.itemMade then next else None)
               else r.pendingID == p.pendingID && r.standby == p.standby
  {
    var q := Observe(p, true, audible, env.(prefetch := false));
    assert q == p.(recordedGeneration := q.recordedGeneration, played := q.played);
    PrepareEffect(q, env);
    assert Step(p, Tick(token, true, audible), env) == Prepare(q, env);
  }

  lemma PrepareEffect(p: Player, env: Env)
    ensures var next := UpcomingTrack(p.queue, p.repeatAll);
            var r := Prepare(p, env);
            && r.queue == p.queue && r.repeatAll == p.repeatAll
            && if MayPrefetch(p, env) && p.pendingID != next
               then r.pendingID == next && r.standby == (if env.itemMade then next else None)
               else r.pendingID == p.pendingID && r.standby == p.standby
  {
  }

  /** So a track prefetched while its predecessor played follows it even if no item can be made any more. */
  lemma PrefetchedTrackFollows(es: seq<(Event, Env)>, token: nat, audible: bool, env: Env, later: Env)
    requires var p := Run(IDLE, es);
             Live(p, token) && MayPrefetch(p, env) && env.itemMade && p.pendingID.None? && later.standbyReady
    ensures var p := Run(IDLE, es);
            var r := Step(Step(p, Tick(token, true, audible), env), Next, later);
            && r.queue == Advance(p.queue, p.repeatAll) && r.audio == UpcomingTrack(p.queue, p.repeatAll)
            && Live(r, r.generation) && r.wantsPlayback && !r.error
  {
    ReachableInv(es);
    var p := Run(IDLE, es);
    TickPrefetches(p, token, audible, env);
    TickKeepsWish(p, token, audible, env);
    var q := Step(p, Tick(token, true, audible), env);
    StepInv(p, Tick(token, true, audible), env);
    UpcomingAgrees(p.queue, p.repeatAll);
    NextEffect(q, later);
  }

  lemma TickKeepsWish(p: Player, token: nat, audible: bool, env: Env)
    ensures Step(p, Tick(token, true, audible), env).wantsPlayback == p.wantsPlayback
  {
  }

  // ---- reports and details ----

  /** This item has been reported as played. */
  ghost predicate Reported(played: seq<(nat, string)>, generation: nat) {
    exists k :: 0 <= k < |played| && played[k].0 == generation
  }

  /** In every run a play is reported exactly when the current item is heard for the first time, under the current track. */
  lemma PlaysAreReportedExactly(es: seq<(Event, Env)>, e: Event, env: Env)
    ensures var p := Run(IDLE, es);
            var heard := e.Tick? && Live(p, e.token) && e.playing && e.audible && !Reported(p.played, p.generation);
            (heard ==> Current(p.queue).Some?)
            && Step(p, e, env).played == p.played + if heard then [(p.generation, Current(p.queue).value)] else []
  {
    ReachableInv(es);
    var p := Run(IDLE, es);
    ReportedIsRecorded(p.played, p.recordedGeneration, p.generation, p.heard);
    ReportedStep(p, e, env);
  }

  lemma ReportedIsRecorded(played: seq<(nat, string)>, recorded: Option<nat>, generation: nat, heard: map<nat, string>)
    requires Recorded(played, recorded, generation, heard)
    ensures Reported(played, generation) <==> recorded == Some(generation)
  {
    if recorded == Some(generation) { assert played[|played| - 1].0 == generation; }
  }

  lemma LoadReportsNothing(p: Player, play: bool, env: Env)
    ensures LoadCurrent(p, play, env).played == p.played
  {
  }

  lemma NextReportsNothing(p: Player, env: Env)
    ensures GoNext(p, env).played == p.played
  {
    LoadReportsNothing(p.(queue := Advance(p.queue, p.repeatAll)), p.wantsPlayback, env);
  }

  lemma ResumeReportsNothing(p: Player, env: Env)
    ensures Continue(p, env).played == p.played
  {
    LoadReportsNothing(p, true, env);
  }

  lemma EndReportsNothing(p: Player, boundary: bool, env: Env)
    ensures End(p, boundary, env).played == p.played
  {
    NextReportsNothing(p, env);
    ResumeReportsNothing(SeekTo(p), env);
  }

  lemma EditReportsNothing(p: Player, e: Edit<string>, env: Env)
    requires Valid(p.queue) && Allowed(p.queue, e)
    ensures EditAndPrepare(p, e, env).played == p.played
  {
    PreparedOnly(p.(queue := Apply(p.queue, e), client := true), env);
    PreparedOnly(p.(queue := Apply(p.queue, e)), env);
  }

  lemma JumpReportsNothing(p: Player, e: Event, env: Env)
    requires e.Play? || e.SelectAt? || e.Previous?
    ensures Step(p, e, env).played == p.played
  {
    match e
    case Play(tracks, start) => LoadReportsNothing(p.(client := true, queue := Replace(tracks, start)), true, env);
    case SelectAt(i) => LoadReportsNothing(p.(queue := Select(p.queue, i)), true, env);
    case Previous(late) => LoadReportsNothing(p.(queue := Back(p.queue)), p.wantsPlayback, env);
  }

  lemma SettingReportsNothing(p: Player, e: Event, env: Env)
    requires e.SetRepeatAll? || e.SetRepeatOne? || e.ChangeSetting?
    ensures Step(p, e, env).played == p.played
  {
    match e
    case SetRepeatAll(on) => PreparedOnly(p.(repeatAll := on), env);
    case SetRepeatOne(on) => PreparedOnly(p.(repeatOne := on), env);
    case ChangeSetting => PreparedOnly(p, env);
  }

  lemma QuitReportsNothing(p: Player)
    ensures Quit(p).played == p.played
  {
  }

  lemma RestReportsNothing(p: Player, e: Event, env: Env)
    requires e.Pause? || e.Seek? || e.Sleep? || e.Stop? || e.Failed? || e.ActivationFailed? || e.DetailsArrived?
    ensures Step(p, e, env).played == p.played
  {
    match e
    case Stop => QuitReportsNothing(p);
    case Failed(token) => FailureEffect(p, token, env);
    case ActivationFailed(token) => FailureEffect(p, token, env);
    case _ =>
  }

  lemma TickReports(p: Player, e: Event, env: Env)
    requires e.Tick? && Attributed(p.generation, p.audio, p.details, p.heard, p.asked, Current(p.queue))
    ensures var heard := Live(p, e.token) && e.playing && e.audible && p.recordedGeneration != Some(p.generation);
            (heard ==> Current(p.queue).Some?)
            && Step(p, e, env).played == p.played + if heard then [(p.generation, Current(p.queue).value)] else []
  {
  }

  lemma ReportedStep(p: Player, e: Event, env: Env)
    requires Inv(p)
    ensures var heard := e.Tick? && Live(p, e.token) && e.playing && e.audible && p.recordedGeneration != Some(p.generation);
            (heard ==> Current(p.queue).Some?)
            && Step(p, e, env).played == p.played + if heard then [(p.generation, Current(p.queue).value)] else []
  {
    if e.Tick? { TickReports(p, e, env); }
    else { OthersReportNothing(p, e, env); }
  }

  lemma OthersReportNothing(p: Player, e: Event, env: Env)
    requires !e.Tick?
    ensures Step(p, e, env).played == p.played
  {
    if e.EditQueue? { if Valid(p.queue) && Allowed(p.queue, e.edit) { EditReportsNothing(p, e.edit, env); } }
    else if e.Play? || e.SelectAt? || e.Previous? { JumpReportsNothing(p, e, env); }
    else if e.Next? { NextReportsNothing(p, env); }
    else if e.Resume? { ResumeReportsNothing(p, env); }
    else if e.Finished? { EndReportsNothing(p, e.boundary, env); }
    else if e.SetRepeatAll? || e.SetRepeatOne? || e.ChangeSetting? { SettingReportsNothing(p, e, env); }
    else { RestReportsNothing(p, e, env); }
  }

  /** Details that arrive are shown exactly if they were requested under the current generation; they change nothing else. */
  lemma DetailsEffect(p: Player, token: nat, track: string, env: Env)
    requires Inv(p)
    ensures var r := Step(p, DetailsArrived(token, track), env);
            r == p.(details := if token == p.generation && (token, track) in p.asked then Some(track) else p.details)
  {
  }
}
