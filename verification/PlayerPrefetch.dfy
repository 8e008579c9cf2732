/** Prefetching the next track is an optimisation that never shows in what is played. */
module PlayerPrefetch {
  import opened Common
  import opened QueueModel
  import opened PlayerModel
  import opened PlayerProofs

  /** The player without what it prefetched. */
  function Forget(p: Player): Player { Cancel(p) }

  function Unprefetched(env: Env): Env { env.(prefetch := false) }

  function AllUnprefetched(es: seq<(Event, Env)>): seq<(Event, Env)> {
    seq(|es|, i requires 0 <= i < |es| => (es[i].0, Unprefetched(es[i].1)))
  }

  lemma ForgetLoad(p: Player, play: bool, env: Env)
    ensures LoadCurrent(Forget(p), play, Unprefetched(env)) == LoadCurrent(p, play, env)
  {
    assert Cancel(Forget(p)) == Cancel(p);
  }

  lemma ForgetPrepare(p: Player, env: Env)
    ensures Forget(Prepare(p, env)) == Forget(p) && Prepare(p, Unprefetched(env)) == p
  {
  }

  /** Promoting and loading leave the same player behind. */
  lemma PromoteIsLoad(p: Player, env: Env)
    requires Inv(p) && Promotable(p, env) && env.itemMade
    ensures Promote(p, env) == LoadCurrent(p.(queue := Advance(p.queue, p.repeatAll)), p.wantsPlayback, env)
  {
    UpcomingAgrees(p.queue, p.repeatAll);
  }

  lemma NextForgets(p: Player, env: Env)
    requires Inv(p) && (env.standbyReady ==> env.itemMade)
    ensures Forget(GoNext(p, env)) == Forget(GoNext(Forget(p), Unprefetched(env)))
  {
    UpcomingAgrees(p.queue, p.repeatAll);
    assert !Promotable(Forget(p), Unprefetched(env));
    if CanAdvance(p.queue, p.repeatAll) {
      ForgetLoad(p.(queue := Advance(p.queue, p.repeatAll)), p.wantsPlayback, env);
      if Promotable(p, env) { PromoteIsLoad(p, env); }
    }
  }

  lemma ContinueForgets(p: Player, env: Env)
    ensures Forget(Continue(p, env)) == Forget(Continue(Forget(p), Unprefetched(env)))
  {
    ForgetLoad(p, true, env);
  }

  lemma AppendForgets(p: Player, e: Edit<string>, env: Env)
    requires Valid(p.queue) && e.Append?
    ensures Forget(EditAndPrepare(p, e, env)) == Forget(EditAndPrepare(Forget(p), e, Unprefetched(env)))
  {
    var c := p.(queue := Apply(p.queue, e), client := true);
    ForgetPrepare(c, env);
    ForgetPrepare(Forget(c), env);
  }

  lemma OtherEditForgets(p: Player, e: Edit<string>, env: Env)
    requires Valid(p.queue) && Allowed(p.queue, e) && !e.Append?
    ensures Forget(EditAndPrepare(p, e, env)) == Forget(EditAndPrepare(Forget(p), e, Unprefetched(env)))
  {
    var c := p.(queue := Apply(p.queue, e), client := p.client || e.InsertNext?);
    ForgetPrepare(Cancel(c), env);
  }

  lemma ObserveForgets(p: Player, playing: bool, audible: bool, env: Env)
    ensures Forget(Observe(p, playing, audible, env)) == Forget(Observe(Forget(p), playing, audible, Unprefetched(env)))
  {
    var q := Observe(p, playing, audible, Unprefetched(env));
    ForgetPrepare(q, env);
    ForgetPrepare(Forget(q), env);
  }

  lemma ReplayForgets(p: Player, env: Env)
    ensures Forget(Continue(SeekTo(p), env)) == Forget(Continue(SeekTo(Forget(p)), Unprefetched(env)))
  {
    assert Forget(SeekTo(p)) == Forget(p) == SeekTo(Forget(p));
    ContinueForgets(SeekTo(p), env);
  }

  lemma EndForgets(p: Player, boundary: bool, env: Env)
    requires Inv(p) && (env.standbyReady ==> env.itemMade)
    ensures Forget(End(p, boundary, env)) == Forget(End(Forget(p), boundary, Unprefetched(env)))
  {
    if !boundary {
      ReplayForgets(p, env);
      NextForgets(p, env);
    }
  }

  lemma SettingForgets(p: Player, e: Event, env: Env)
    requires e.SetRepeatAll? || e.SetRepeatOne? || e.ChangeSetting?
    ensures Forget(Step(p, e, env)) == Forget(Step(Forget(p), e, Unprefetched(env)))
  {
    var q := match e case SetRepeatAll(on) => p.(repeatAll := on) case SetRepeatOne(on) => p.(repeatOne := on) case _ => p;
    ForgetPrepare(Cancel(q), env);
  }

  lemma PlayForgets(p: Player, tracks: seq<string>, start: int, env: Env)
    ensures Forget(Step(p, Play(tracks, start), env)) == Forget(Step(Forget(p), Play(tracks, start), Unprefetched(env)))
  {
    ForgetLoad(p.(client := true, queue := Replace(tracks, start)), true, env);
  }

  lemma SelectForgets(p: Player, i: int, env: Env)
    ensures Forget(Step(p, SelectAt(i), env)) == Forget(Step(Forget(p), SelectAt(i), Unprefetched(env)))
  {
    ForgetLoad(p.(queue := Select(p.queue, i)), true, env);
  }

  lemma PreviousForgets(p: Player, late: bool, env: Env)
    ensures Forget(Step(p, Previous(late), env)) == Forget(Step(Forget(p), Previous(late), Unprefetched(env)))
  {
    ForgetLoad(p.(queue := Back(p.queue)), p.wantsPlayback, env);
  }

  lemma StopForgets(p: Player, env: Env)
    ensures Step(Forget(p), Stop, Unprefetched(env)) == Step(p, Stop, env)
  {
    assert Cancel(Forget(p)) == Cancel(p);
  }

  lemma SeekForgets(p: Player, env: Env)
    ensures Forget(Step(p, Seek, env)) == Forget(p) == Forget(Step(Forget(p), Seek, Unprefetched(env)))
  {
  }

  lemma HaltForgets(p: Player, e: Event, env: Env)
    requires e.Pause? || e.Sleep?
    ensures Forget(Step(p, e, env)) == Forget(Step(Forget(p), e, Unprefetched(env)))
  {
    assert Step(p, e, env) == if e.Pause? then Halt(p) else Halt(Cancel(p));
    assert Halt(Forget(p)) == Forget(Halt(p)) == Halt(Cancel(p));
  }

  /** Stopping and failing do not look at what was prefetched, and failing drops it. */
  lemma ForgetEquations(p: Player, token: nat)
    ensures Live(Forget(p), token) == Live(p, token)
    ensures Halt(Forget(p)) == Forget(Halt(p))
    ensures GiveUp(Forget(p)) == GiveUp(p) == Forget(GiveUp(p))
    ensures Forget(Forget(p)) == Forget(p)
  {
  }

  lemma DetailsForgets(p: Player, token: nat, track: string, env: Env)
    ensures Forget(Step(p, DetailsArrived(token, track), env))
         == Forget(Step(Forget(p), DetailsArrived(token, track), Unprefetched(env)))
  {
    var q := Forget(p);
    assert q.asked == p.asked && q.generation == p.generation;
    assert Step(q, DetailsArrived(token, track), Unprefetched(env)) == Forget(Step(p, DetailsArrived(token, track), env));
    ForgetEquations(Step(p, DetailsArrived(token, track), env), token);
  }

  lemma FailedForgets(p: Player, token: nat, env: Env)
    ensures Forget(Step(p, Failed(token), env)) == Forget(Step(Forget(p), Failed(token), Unprefetched(env)))
  {
    ForgetEquations(p, token);
    assert Step(p, Failed(token), env) == if Live(p, token) then GiveUp(p) else p;
    assert Step(Forget(p), Failed(token), Unprefetched(env)) == if Live(p, token) then GiveUp(p) else Forget(p);
  }

  function Silenced(p: Player): Player { Halt(p).(error := true) }

  lemma ForgetSilenced(p: Player)
    ensures Forget(Silenced(Forget(p))) == Forget(Silenced(p))
  {
  }

  lemma ActivationForgets(p: Player, token: nat, env: Env)
    ensures Forget(Step(p, ActivationFailed(token), env))
         == Forget(Step(Forget(p), ActivationFailed(token), Unprefetched(env)))
  {
    ForgetEquations(p, token);
    ForgetSilenced(p);
    assert Step(p, ActivationFailed(token), env) == if Live(p, token) then Silenced(p) else p;
    assert Step(Forget(p), ActivationFailed(token), Unprefetched(env)) == if Live(p, token) then Silenced(Forget(p)) else Forget(p);
  }

  lemma TickForgets(p: Player, e: Event, env: Env)
    requires e.Tick?
    ensures Forget(Step(p, e, env)) == Forget(Step(Forget(p), e, Unprefetched(env)))
  {
    ForgetEquations(p, e.token);
    ObserveForgets(p, e.playing, e.audible, env);
    assert Step(p, e, env) == if Live(p, e.token) then Observe(p, e.playing, e.audible, env) else p;
  }

  lemma FinishedForgets(p: Player, e: Event, env: Env)
    requires Inv(p) && (env.standbyReady ==> env.itemMade) && e.Finished?
    ensures Forget(Step(p, e, env)) == Forget(Step(Forget(p), e, Unprefetched(env)))
  {
    ForgetEquations(p, e.token);
    EndForgets(p, e.boundary, env);
    FinishedStep(p, e, env);
    FinishedStep(Forget(p), e, Unprefetched(env));
  }

  lemma FinishedStep(p: Player, e: Event, env: Env)
    requires e.Finished?
    ensures Step(p, e, env) == if Live(p, e.token) then End(p, e.boundary, env) else p
  {
  }

  lemma EditForgets(p: Player, e: Event, env: Env)
    requires Inv(p) && e.EditQueue?
    ensures Forget(Step(p, e, env)) == Forget(Step(Forget(p), e, Unprefetched(env)))
  {
    if Allowed(p.queue, e.edit) {
      if e.edit.Append? { AppendForgets(p, e.edit, env); } else { OtherEditForgets(p, e.edit, env); }
    }
  }

  lemma StepForgets(p: Player, e: Event, env: Env)
    requires Inv(p) && (env.standbyReady ==> env.itemMade)
    ensures Forget(Step(p, e, env)) == Forget(Step(Forget(p), e, Unprefetched(env)))
  {
    if e.EditQueue? { EditForgets(p, e, env); }
    else if e.Play? { PlayForgets(p, e.tracks, e.start, env); }
    else if e.SelectAt? { SelectForgets(p, e.position, env); }
    else if e.Previous? { PreviousForgets(p, e.late, env); }
    else if e.SetRepeatAll? || e.SetRepeatOne? || e.ChangeSetting? { SettingForgets(p, e, env); }
    else if e.Next? { NextForgets(p, env); }
    else if e.Resume? { ContinueForgets(p, env); }
    else if e.Tick? { TickForgets(p, e, env); }
    else if e.Finished? { FinishedForgets(p, e, env); }
    else if e.Stop? { StopForgets(p, env); }
    else if e.Seek? { SeekForgets(p, env); }
    else if e.Pause? || e.Sleep? { HaltForgets(p, e, env); }
    else if e.DetailsArrived? { DetailsForgets(p, e.token, e.track, env); }
    else if e.Failed? { FailedForgets(p, e.token, env); }
    else { ActivationForgets(p, e.token, env); }
  }

  /** Prefetching never changes what is played: a run and the same run without prefetching
      agree on everything but the prefetched item, provided an item can be made again for
      a track whose prefetched item is ready. */
  lemma {:induction false} PrefetchIsInvisible(es: seq<(Event, Env)>)
    requires forall i :: 0 <= i < |es| && es[i].1.standbyReady ==> es[i].1.itemMade
    ensures Forget(Run(IDLE, es)) == Forget(Run(IDLE, AllUnprefetched(es)))
    decreases |es|
  {
    if es != [] {
      var n := |es| - 1;
      var init, last := es[..n], es[n];
      PrefetchIsInvisible(init);
      ReachableInv(init);
      var q := Run(IDLE, AllUnprefetched(init));
      ReachableInv(AllUnprefetched(init));
      assert AllUnprefetched(es)[..n] == AllUnprefetched(init);
      StepForgets(Run(IDLE, init), last.0, last.1);
      StepForgets(q, last.0, Unprefetched(last.1));
    }
  }
}
