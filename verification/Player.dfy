/** The player object. The queue is a value the object owns, as the source's struct is. */
module PlayerObjects {
  import opened Common
  import opened QueueModel
  import M = PlayerModel
  import P = PlayerProofs

  class PlayerModel {
    var queue: Queue<string>
    var repeatAll: bool
    var repeatOne: bool
    var wantsPlayback: bool
    var client: bool
    var error: bool
    var pendingID: Option<string>
    var audio: Option<string>
    var standby: Option<string>
    var generation: nat
    var recordedGeneration: Option<nat>
    var details: Option<string>
    var nextToken: nat
    // the observers registered and the requests sent so far, by generation
    var heard: map<nat, string>
    var asked: set<(nat, string)>
    ghost var played: seq<(nat, string)>

    ghost function Value(): M.Player
      reads this
    {
      M.Player(queue, repeatAll, repeatOne, wantsPlayback, client, error, pendingID, audio, standby, generation,
               recordedGeneration, details, nextToken, heard, asked, played)
    }

    constructor ()
      ensures Value() == M.IDLE
    {
      queue := Queue([], 0);
      repeatAll, repeatOne, wantsPlayback, client, error := false, false, false, false, false;
      pendingID, audio, standby, recordedGeneration, details := None, None, None, None, None;
      generation, nextToken := 0, 1;
      heard, asked, played := map[], {}, [];
    }

    method CancelPrepared()
      modifies this
      ensures Value() == M.Cancel(old(Value()))
    {
      standby := None;
      pendingID := None;
    }

    method PrepareNext(env: M.Env)
      modifies this
      ensures Value() == M.Prepare(old(Value()), env)
    {
      var index := M.Upcoming(queue, repeatAll);
      if !wantsPlayback || !env.prefetch || repeatOne || !client || index.None? { return; }
      var next := queue.tracks[index.value];
      if pendingID == Some(next) { return; }
      CancelPrepared();
      pendingID := Some(next);
      if env.itemMade { standby := Some(next); }
    }

    method Pause()
      modifies this
      ensures Value() == M.Halt(old(Value()))
    {
      wantsPlayback := false;
    }

    method FailPlayback()
      modifies this
      ensures Value() == M.GiveUp(old(Value()))
    {
      Pause();
      CancelPrepared();
      error := true;
    }

    method NewGeneration()
      modifies this
      ensures Value() == M.Renew(old(Value()))
    {
      generation := nextToken;
      nextToken := nextToken + 1;
    }

    method ObserveCurrent(track: string)
      modifies this
      ensures Value() == M.Install(old(Value()), track)
    {
      audio := Some(track);
      heard := heard[generation := track];
    }

    method LoadDetails(track: string, env: M.Env)
      modifies this
      ensures Value() == M.LoadDetails(old(Value()), track, env.local)
    {
      details := None;
      if env.local { details := Some(track); }
      asked := asked + {(generation, track)};
    }

    method Unload()
      modifies this
      ensures Value() == M.Renew(M.Cancel(old(Value()))).(audio := None, error := false)
    {
      CancelPrepared();
      NewGeneration();
      audio := None;
      error := false;
    }

    method LoadCurrent(play: bool, env: M.Env)
      modifies this
      ensures Value() == M.LoadCurrent(old(Value()), play, env)
    {
      Unload();
      var current := M.Current(queue);
      if current.None? || !client { return; }
      wantsPlayback := play;
      if env.itemMade {
        ObserveCurrent(current.value);
      } else {
        FailPlayback();
      }
      LoadDetails(current.value, env);
    }

    /** The players change roles and the queue advances. */
    method SwapPlayers()
      modifies this
      ensures Value() == M.Renew(old(Value()).(queue := Advance(old(queue), old(repeatAll)), pendingID := None, standby := None,
                                               error := false))
    {
      standby := None;
      queue := Advance(queue, repeatAll);
      NewGeneration();
      pendingID := None;
      error := false;
    }

    /** The standby item is promoted only while it is what the queue will select next. */
    method PromotePrepared(env: M.Env) returns (promoted: bool)
      modifies this
      ensures promoted == M.Promotable(old(Value()), env)
      ensures Value() == if promoted then M.Promote(old(Value()), env) else old(Value())
    {
      var index := M.Upcoming(queue, repeatAll);
      if index.None? || pendingID != Some(queue.tracks[index.value]) || standby.None? || !env.standbyReady { return false; }
      var incoming := standby.value;
      SwapPlayers();
      ObserveCurrent(incoming);
      var current := M.Current(queue);
      if current.Some? && client { LoadDetails(current.value, env); }
      return true;
    }

    method Seek()
      modifies this
      ensures Value() == M.SeekTo(old(Value()))
    {
      if M.Current(queue).Some? { CancelPrepared(); }
    }

    method Next(env: M.Env)
      modifies this
      ensures Value() == M.GoNext(old(Value()), env)
    {
      var promoted := PromotePrepared(env);
      if promoted { return; }
      var play := wantsPlayback;
      if CanAdvance(queue, repeatAll) {
        queue := Advance(queue, repeatAll);
        LoadCurrent(play, env);
      } else {
        Finish();
      }
    }

    /** Nothing comes next. */
    method Finish()
      modifies this
      ensures Value() == M.Halt(M.Cancel(old(Value())))
    {
      CancelPrepared();
      Pause();
      Seek();
    }

    method Previous(late: bool, env: M.Env)
      modifies this
      ensures Value() == M.GoBack(old(Value()), late, env)
    {
      if late {
        Seek();
      } else {
        var play := wantsPlayback;
        queue := Back(queue);
        LoadCurrent(play, env);
      }
    }

    method Resume(env: M.Env)
      modifies this
      ensures Value() == M.Continue(old(Value()), env)
    {
      if M.Current(queue).None? { return; }
      if error || audio.None? { LoadCurrent(true, env); return; }
      wantsPlayback := true;
    }

    method Stop()
      modifies this
      ensures Value() == M.Quit(old(Value()))
    {
      NewGeneration();
      CancelPrepared();
      Pause();
      audio := None;
      queue := Replace([], 0);
      error := false;
      details := None;
      client := false;
    }

    method Play(tracks: seq<string>, start: int, env: M.Env)
      modifies this
      ensures Value() == M.Step(old(Value()), M.Play(tracks, start), env)
    {
      if |tracks| == 0 { Stop(); return; }
      client := true;
      queue := Replace(tracks, start);
      LoadCurrent(true, env);
    }

    method SelectAt(position: int, env: M.Env)
      modifies this
      ensures Value() == M.Step(old(Value()), M.SelectAt(position), env)
    {
      if !(0 <= position < |queue.tracks|) { return; }
      queue := Select(queue, position);
      LoadCurrent(true, env);
    }

    method Append(track: string, env: M.Env)
      requires Valid(queue)
      modifies this
      ensures Value() == M.EditAndPrepare(old(Value()), Edit.Append(track), env)
    {
      client := true;
      queue := Apply(queue, Edit.Append(track));
      PrepareNext(env);
    }

    method InsertNext(track: string, env: M.Env)
      requires Valid(queue)
      modifies this
      ensures Value() == M.EditAndPrepare(old(Value()), Edit.InsertNext(track), env)
    {
      if !Takes(queue, Edit.InsertNext(track)) { return; }
      queue := Apply(queue, Edit.InsertNext(track));
      client := true;
      CancelPrepared();
      PrepareNext(env);
    }

    /** Removing, moving, playing next, clearing and shuffling. */
    method EditUpcoming(edit: Edit<string>, env: M.Env)
      requires Valid(queue) && Allowed(queue, edit) && !edit.Append? && !edit.InsertNext?
      modifies this
      ensures Value() == M.EditAndPrepare(old(Value()), edit, env)
    {
      if !Takes(queue, edit) && !edit.Shuffle? { return; }
      queue := Apply(queue, edit);
      CancelPrepared();
      PrepareNext(env);
    }

    method SetRepeatAll(on: bool, env: M.Env)
      modifies this
      ensures Value() == M.Step(old(Value()), M.SetRepeatAll(on), env)
    {
      repeatAll := on;
      CancelPrepared();
      PrepareNext(env);
    }

    method SetRepeatOne(on: bool, env: M.Env)
      modifies this
      ensures Value() == M.Step(old(Value()), M.SetRepeatOne(on), env)
    {
      repeatOne := on;
      CancelPrepared();
      PrepareNext(env);
    }

    method Tick(playing: bool, audible: bool, env: M.Env)
      modifies this
      ensures Value() == M.Observe(old(Value()), playing, audible, env)
    {
      var current := M.Current(queue);
      if playing && audible && recordedGeneration != Some(generation) && current.Some? {
        recordedGeneration := Some(generation);
        played := played + [(generation, current.value)];
      }
      if playing { PrepareNext(env); }
    }

    method DidFinish(boundary: bool, env: M.Env)
      modifies this
      ensures Value() == M.End(old(Value()), boundary, env)
    {
      if boundary {
        Pause();
        CancelPrepared();
        PrepareNext(env);
        CancelPrepared();
        Seek();
      } else if repeatOne {
        Seek();
        Resume(env);
      } else {
        Next(env);
      }
    }

    /** Crossfade, preload, album transition and sleep settings. */
    method ChangeSetting(env: M.Env)
      modifies this
      ensures Value() == M.Step(old(Value()), M.ChangeSetting, env)
    {
      CancelPrepared();
      PrepareNext(env);
    }

    method SleepNow()
      modifies this
      ensures Value() == M.Halt(M.Cancel(old(Value())))
    {
      Pause();
      CancelPrepared();
    }

    method EditQueue(edit: Edit<string>, env: M.Env)
      requires Valid(queue) && Allowed(queue, edit)
      modifies this
      ensures Value() == M.EditAndPrepare(old(Value()), edit, env)
    {
      match edit
      case Append(track) => Append(track, env);
      case InsertNext(track) => InsertNext(track, env);
      case _ => EditUpcoming(edit, env);
    }

    /** A callback of an item; the generation it was registered under must still be current. */
    method Callback(e: M.Event, env: M.Env)
      requires e.Tick? || e.Finished? || e.Failed? || e.ActivationFailed?
      modifies this
      ensures Value() == M.Step(old(Value()), e, env)
    {
      if e.token !in heard || e.token != generation { return; }
      match e
      case Tick(_, playing, audible) => Tick(playing, audible, env);
      case Finished(_, boundary) => DidFinish(boundary, env);
      case Failed(_) => FailPlayback();
      case ActivationFailed(_) => ActivationFails();
    }

    method ActivationFails()
      modifies this
      ensures Value() == M.Halt(old(Value())).(error := true)
    {
      error := true;
      Pause();
    }

    method DetailsArrive(token: nat, track: string)
      modifies this
      ensures Value() == M.Step(old(Value()), M.DetailsArrived(token, track), M.Env(false, false, false, false))
    {
      if (token, track) in asked && token == generation { details := Some(track); }
    }

    /** The call or callback an event stands for. */
    method Handle(e: M.Event, env: M.Env)
      requires e.EditQueue? ==> Valid(queue) && Allowed(queue, e.edit)
      modifies this
      ensures Value() == M.Step(old(Value()), e, env)
    {
      match e
      case Play(tracks, start) => Play(tracks, start, env);
      case EditQueue(edit) => EditQueue(edit, env);
      case SelectAt(position) => SelectAt(position, env);
      case SetRepeatAll(on) => SetRepeatAll(on, env);
      case SetRepeatOne(on) => SetRepeatOne(on, env);
      case ChangeSetting => ChangeSetting(env);
      case Next => Next(env);
      case Previous(late) => Previous(late, env);
      case Pause => Pause();
      case Resume => Resume(env);
      case Seek => Seek();
      case Sleep => SleepNow();
      case Stop => Stop();
      case DetailsArrived(token, track) => DetailsArrive(token, track);
      case _ => Callback(e, env);
    }
  }

  /** Any sequence of calls and callbacks takes a new player object through the run of the
      machine, so it always stands in a state the invariant describes. An edit whose random
      order is no permutation does not occur. */
  method Replay(es: seq<(M.Event, M.Env)>) returns (player: PlayerModel)
    ensures player.Value() == M.Run(M.IDLE, es) && M.Inv(player.Value())
  {
    player := new PlayerModel();
    for i := 0 to |es|
      invariant fresh(player) && player.Value() == M.Run(M.IDLE, es[..i])
    {
      assert es[..i + 1][..i] == es[..i];
      P.ReachableInv(es[..i]);
      if !es[i].0.EditQueue? || Allowed(player.queue, es[i].0.edit) {
        player.Handle(es[i].0, es[i].1);
      }
    }
    assert es[..|es|] == es;
    P.ReachableInv(es);
  }
}
