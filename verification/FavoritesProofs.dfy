/** In every run the client's favourites agree with the server, except on tracks with a
    mutation under way and on tracks changed by a mutation whose success was never heard. */
module FavoritesProofs {
  import opened Common
  import opened FavoritesModel

  /** Every awaited, applied mutation of s is still one in t, for tracks other than `but`. */
  lemma SettledBack(s: map<nat, Toggle>, t: map<nat, Toggle>, but: set<string>)
    requires forall i :: i in s && s[i].awaited && s[i].applied && s[i].track !in but ==>
                           i in t && t[i].awaited && t[i].applied && t[i].track == s[i].track
    ensures forall x :: x !in but && Settled(t, x) ==> Settled(s, x)
  {
    forall x | x !in but && Settled(t, x) ensures Settled(s, x) {
      assert forall i :: i in s && s[i].awaited && s[i].track == x && s[i].applied ==> i in t && t[i].applied;
    }
  }

  lemma SendApart(s: System, id: nat, t: Toggle)
    requires Awaiting(s) && OnePerTrack(s.toggles) && t.track !in s.client.pending && id !in s.toggles
    ensures OnePerTrack(s.toggles[id := t])
  {
  }

  /** The claims about tracks survive any change of the mutation records that settles nothing new. */
  lemma ClaimsCarry(s: System, u: System, except: set<string>)
    requires SnapshotsAgree(s, {}) && ClientAgrees(s, {})
    requires u == s.(client := u.client, toggles := u.toggles)
    requires u.client == s.client.(pending := u.client.pending)
    requires forall x :: x !in except && Settled(u.toggles, x) ==> Settled(s.toggles, x)
    ensures SnapshotsAgree(u, except) && ClientAgrees(u, except)
  {
    forall i, x | i in u.loads && Live(u, u.loads[i]) && x !in u.loads[i].spoiled && x !in except && Settled(u.toggles, x)
      ensures x in u.loads[i].snapshot.value <==> x in ServerSet(u, u.account)
    {
      assert Live(s, s.loads[i]) && Settled(s.toggles, x);
    }
  }

  lemma SendInv(s: System, e: Event)
    requires Inv(s) && Enabled(s, e) && e.ToggleSend?
    ensures Inv(Step(s, e))
  {
    if MayToggle(s.client, e.track) {
      var u := Step(s, e);
      SendApart(s, e.id, u.toggles[e.id]);
      SettledBack(s.toggles, u.toggles, {});
      ClaimsCarry(s, u, {});
    }
  }

  /** Marking a track as changed unseen gives up exactly the claims about that track. */
  lemma SpoilInv(s: System, track: string)
    requires InvExcept(s, {track})
    ensures Inv(Spoil(s, s.account, track))
  {
    var t := Spoil(s, s.account, track);
    assert t.toggles.Keys == s.toggles.Keys && t.loads.Keys == s.loads.Keys;
    SettledBack(s.toggles, t.toggles, {});
    SpoiledSnapshots(s, track);
    SpoiledToggles(s, track);
  }

  lemma SpoiledToggles(s: System, track: string)
    requires AppliedShows(s, {track}) && Awaiting(s) && OnePerTrack(s.toggles)
    ensures var t := Spoil(s, s.account, track);
            AppliedShows(t, {}) && Awaiting(t) && OnePerTrack(t.toggles)
  {
    var t := Spoil(s, s.account, track);
    forall i | i in t.toggles && t.toggles[i].awaited && t.toggles[i].applied && !t.toggles[i].spoiled
      ensures t.toggles[i].track in ServerSet(t, t.account) <==> !t.toggles[i].wasFavorite
    {
      assert i in s.toggles && s.toggles[i].track != track;
    }
  }

  lemma SpoiledSnapshots(s: System, track: string)
    requires SnapshotsAgree(s, {track}) && forall x :: Settled(Spoil(s, s.account, track).toggles, x) ==> Settled(s.toggles, x)
    ensures SnapshotsAgree(Spoil(s, s.account, track), {})
  {
    var t := Spoil(s, s.account, track);
    forall i, x | i in t.loads && Live(t, t.loads[i]) && x !in t.loads[i].spoiled && Settled(t.toggles, x)
      ensures x in t.loads[i].snapshot.value <==> x in ServerSet(t, t.account)
    {
      assert i in s.loads && Live(s, s.loads[i]) && x != track;
    }
  }

  /** Applying a mutation on the server, with its record kept in step. */
  function Effect(s: System, id: nat): System
    requires id in s.toggles
  {
    var t := s.toggles[id];
    s.(server := s.server[t.account := FavoritesModel.Applied(t, ServerSet(s, t.account))],
       toggles := s.toggles[id := t.(applied := true)])
  }

  /** The server changes on one track at most. */
  lemma EffectAgrees(s: System, id: nat, except: set<string>)
    requires SnapshotsAgree(s, {}) && ClientAgrees(s, {}) && id in s.toggles
    requires s.toggles[id].account != s.account || s.toggles[id].track in except || s.toggles[id].awaited
    ensures SnapshotsAgree(Effect(s, id), except) && ClientAgrees(Effect(s, id), except)
  {
    var t, u := s.toggles[id], Effect(s, id);
    SettledBack(s.toggles, u.toggles, {});
    assert t.awaited ==> !Settled(u.toggles, t.track) by { assert u.toggles[id].applied; }
    assert forall x :: x != t.track || t.account != s.account ==> (x in ServerSet(u, s.account) <==> x in ServerSet(s, s.account));
    forall i, x | i in u.loads && Live(u, u.loads[i]) && x !in u.loads[i].spoiled && x !in except && Settled(u.toggles, x)
      ensures x in u.loads[i].snapshot.value <==> x in ServerSet(u, u.account)
    {
      assert Live(s, s.loads[i]) && Settled(s.toggles, x);
    }
  }

  lemma EffectInv(s: System, id: nat)
    requires Inv(s) && id in s.toggles && !s.toggles[id].applied
    ensures var t := s.toggles[id];
            && (t.awaited ==> Inv(Effect(s, id)))
            && (!t.awaited ==> if t.account == s.account then InvExcept(Effect(s, id), {t.track}) else Inv(Effect(s, id)))
  {
    var t, u := s.toggles[id], Effect(s, id);
    var except := if !t.awaited && t.account == s.account then {t.track} else {};
    EffectAgrees(s, id, except);
    EffectShows(s, id, except);
    assert Awaiting(u) && OnePerTrack(u.toggles) && TokensFresh(u);
  }

  lemma EffectShows(s: System, id: nat, except: set<string>)
    requires Awaiting(s) && OnePerTrack(s.toggles) && AppliedShows(s, {}) && id in s.toggles && !s.toggles[id].applied
    requires s.toggles[id].account != s.account || s.toggles[id].track in except || s.toggles[id].awaited
    ensures AppliedShows(Effect(s, id), except)
  {
    var t, u := s.toggles[id], Effect(s, id);
    assert forall x :: x != t.track || t.account != s.account ==> (x in ServerSet(u, s.account) <==> x in ServerSet(s, s.account));
  }

  lemma ApplyInv(s: System, e: Event)
    requires Inv(s) && Enabled(s, e) && e.ToggleApply?
    ensures Inv(Step(s, e))
  {
    EffectInv(s, e.id);
    var t := s.toggles[e.id];
    if !t.awaited && t.account == s.account { SpoilInv(Effect(s, e.id), t.track); }
  }

  lemma ReplyInv(s: System, e: Event)
    requires Inv(s) && Enabled(s, e) && e.ToggleReply?
    ensures Inv(Step(s, e))
  {
    var t := s.toggles[e.id];
    if !t.awaited {
      IgnoredInv(s, e.id, e.success);
    } else if e.success {
      SuccessInv(s, e.id);
    } else {
      ErrorInv(s, e.id);
    }
  }

  /** A reply to a request of an earlier session changes nothing on the client. */
  lemma IgnoredInv(s: System, id: nat, success: bool)
    requires Inv(s) && Enabled(s, ToggleReply(id, success)) && !s.toggles[id].awaited
    ensures Inv(Step(s, ToggleReply(id, success)))
  {
    var u := Step(s, ToggleReply(id, success));
    SettledBack(s.toggles, u.toggles, {});
    ClaimsCarry(s, u, {});
  }

  /** The client hears of its success: the track is settled again and agrees unless spoiled. */
  lemma SuccessInv(s: System, id: nat)
    requires Inv(s) && id in s.toggles && s.toggles[id].awaited && s.toggles[id].applied
    ensures Inv(Step(s, ToggleReply(id, true)))
  {
    var t, u := s.toggles[id], Step(s, ToggleReply(id, true));
    SettledBack(s.toggles, u.toggles, {t.track});
    assert forall x :: x != t.track ==> (x in u.client.favorites <==> x in s.client.favorites);
    assert ClientAgrees(u, {});
    assert forall i :: i in u.loads ==> !Live(u, u.loads[i]);
  }

  /** The client stops waiting for a mutation that failed as far as it knows. */
  function Abandoned(s: System, id: nat): System
    requires id in s.toggles
  {
    var t := s.toggles[id];
    s.(client := EndToggle(s.client, t.track, t.wasFavorite, t.generation, false),
       toggles := s.toggles[id := t.(awaited := false)])
  }

  lemma AbandonApart(s: System, id: nat)
    requires Awaiting(s) && OnePerTrack(s.toggles) && AppliedShows(s, {}) && TokensFresh(s) && id in s.toggles && s.toggles[id].awaited
    ensures var v := Abandoned(s, id);
            Awaiting(v) && OnePerTrack(v.toggles) && AppliedShows(v, {}) && TokensFresh(v)
  {
  }

  lemma AbandonInv(s: System, id: nat)
    requires Inv(s) && id in s.toggles && s.toggles[id].awaited
    ensures InvExcept(Abandoned(s, id), {s.toggles[id].track})
    ensures !s.toggles[id].applied ==> Inv(Abandoned(s, id))
  {
    var t, v := s.toggles[id], Abandoned(s, id);
    assert v.client == s.client.(pending := s.client.pending - {t.track});
    AbandonApart(s, id);
    SettledBack(s.toggles, v.toggles, {t.track});
    ClaimsCarry(s, v, {t.track});
    if !t.applied {
      SettledBack(s.toggles, v.toggles, {});
      ClaimsCarry(s, v, {});
    }
  }

  /** The client hears an error: the server may have changed all the same. */
  lemma ErrorInv(s: System, id: nat)
    requires Inv(s) && id in s.toggles && s.toggles[id].awaited
    ensures Inv(Step(s, ToggleReply(id, false)))
  {
    AbandonInv(s, id);
    if s.toggles[id].applied { SpoilInv(Abandoned(s, id), s.toggles[id].track); }
  }

  lemma LoadSendInv(s: System, id: nat)
    requires Inv(s) && Enabled(s, LoadSend(id))
    ensures Inv(Step(s, LoadSend(id)))
  {
  }

  lemma RefilterInv(s: System, e: Event)
    requires Inv(s) && Enabled(s, e) && (e.Refilter? || e.RefilterDone?)
    ensures Inv(Step(s, e))
  {
  }

  lemma LoadReadInv(s: System, id: nat)
    requires Inv(s) && Enabled(s, LoadRead(id))
    ensures Inv(Step(s, LoadRead(id)))
  {
  }

  lemma LoadReplyInv(s: System, e: Event)
    requires Inv(s) && Enabled(s, e) && e.LoadReply?
    ensures Inv(Step(s, e))
  {
  }

  lemma ClearInv(s: System, e: Event)
    requires Inv(s) && Enabled(s, e) && e.ClearSession?
    ensures Inv(Step(s, e))
  {
  }

  lemma StepInv(s: System, e: Event)
    requires Inv(s) && Enabled(s, e)
    ensures Inv(Step(s, e))
  {
    match e
    case ToggleSend(_, _) => SendInv(s, e);
    case ToggleApply(_) => ApplyInv(s, e);
    case ToggleReply(_, _) => ReplyInv(s, e);
    case LoadReply(_, _) => LoadReplyInv(s, e);
    case ClearSession(_, _) => ClearInv(s, e);
    case LoadRead(id) => LoadReadInv(s, id);
    case LoadSend(id) => LoadSendInv(s, id);
    case _ => RefilterInv(s, e);
  }

  // ---- runs ----

  predicate Possible(s: System, es: seq<Event>)
    decreases |es|
  {
    es != [] ==> Enabled(s, es[0]) && Possible(Step(s, es[0]), es[1..])
  }

  function Run(s: System, es: seq<Event>): System
    requires Possible(s, es)
    decreases |es|
  {
    if es == [] then s else Run(Step(s, es[0]), es[1..])
  }

  lemma {:induction false} RunInv(s: System, es: seq<Event>)
    requires Inv(s) && Possible(s, es)
    ensures Inv(Run(s, es))
    decreases |es|
  {
    if es != [] {
      StepInv(s, es[0]);
      RunInv(Step(s, es[0]), es[1..]);
    }
  }

  /** Once a load has been applied in the session, the client shows a track as a favourite
      exactly when the server does, for every track without a mutation under way and
      not changed unseen. */
  lemma FavoritesAgree(server: map<nat, set<string>>, account: nat, es: seq<Event>, x: string)
    requires Possible(Init(server, account), es)
    requires Run(Init(server, account), es).loaded
    requires x !in Run(Init(server, account), es).client.pending && x !in Run(Init(server, account), es).unseen
    ensures var s := Run(Init(server, account), es);
            x in s.client.favorites <==> x in ServerSet(s, s.account)
  {
    RunInv(Init(server, account), es);
    assert Settled(Run(Init(server, account), es).toggles, x);
  }

  /** The event lets a mutation take effect that the client never hears to have succeeded. */
  predicate LosesEffect(s: System, e: Event) {
    || (e.ToggleApply? && e.id in s.toggles && !s.toggles[e.id].awaited)
    || (e.ToggleReply? && e.id in s.toggles && s.toggles[e.id].awaited && s.toggles[e.id].applied && !e.success)
  }

  predicate Reliable(s: System, es: seq<Event>)
    requires Possible(s, es)
    decreases |es|
  {
    es != [] ==> !LosesEffect(s, es[0]) && Reliable(Step(s, es[0]), es[1..])
  }

  /** Nothing has been spoiled. */
  ghost predicate Clean(s: System) {
    && s.unseen == {}
    && (forall i :: i in s.loads ==> s.loads[i].spoiled == {})
    && (forall i :: i in s.toggles ==> !s.toggles[i].spoiled)
  }

  lemma CleanStep(s: System, e: Event)
    requires Clean(s) && Enabled(s, e) && !LosesEffect(s, e)
    ensures Clean(Step(s, e))
  {
  }

  lemma {:induction false} ReliableRunIsClean(s: System, es: seq<Event>)
    requires Clean(s) && Possible(s, es) && Reliable(s, es)
    ensures Clean(Run(s, es))
    decreases |es|
  {
    if es != [] {
      CleanStep(s, es[0]);
      ReliableRunIsClean(Step(s, es[0]), es[1..]);
    }
  }

  /** When every mutation that takes effect is also heard to have succeeded, the client agrees
      with the server on every track that is not pending. */
  lemma ReliableFavoritesAgree(server: map<nat, set<string>>, account: nat, es: seq<Event>, x: string)
    requires Possible(Init(server, account), es) && Reliable(Init(server, account), es)
    requires Run(Init(server, account), es).loaded && x !in Run(Init(server, account), es).client.pending
    ensures var s := Run(Init(server, account), es);
            x in s.client.favorites <==> x in ServerSet(s, s.account)
  {
    ReliableRunIsClean(Init(server, account), es);
    FavoritesAgree(server, account, es, x);
  }
}
