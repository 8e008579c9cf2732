/** Exactly when the client is wrong about a favourite: for every run, and for the two moves at
    which an unheard mutation makes it wrong. */
module FavoritesExact {
  import opened Common
  import opened FavoritesModel
  import opened FavoritesProofs

  predicate Agrees(s: System, x: string) { x in s.client.favorites <==> x in ServerSet(s, s.account) }

  /** No mutation of track x takes effect on the account. */
  predicate Untouched(s: System, es: seq<Event>, account: nat, x: string)
    requires Possible(s, es)
    decreases |es|
  {
    es != [] ==>
      && !(es[0].ToggleApply? && s.toggles[es[0].id].account == account && s.toggles[es[0].id].track == x)
      && Untouched(Step(s, es[0]), es[1..], account, x)
  }

  lemma {:induction false} UntouchedKeepsServer(s: System, es: seq<Event>, account: nat, x: string)
    requires Possible(s, es) && Untouched(s, es, account, x)
    ensures x in ServerSet(Run(s, es), account) <==> x in ServerSet(s, account)
    decreases |es|
  {
    if es != [] { UntouchedKeepsServer(Step(s, es[0]), es[1..], account, x); }
  }

  /** From the moment a mutation takes effect until the next one of the same track does, through
      whatever loads, replies and sessions, the client is right about the track exactly when it
      shows what that mutation asked for. */
  lemma LastEffectDecides(server: map<nat, set<string>>, account: nat, es: seq<Event>, id: nat, more: seq<Event>)
    requires Possible(Init(server, account), es) && Enabled(Run(Init(server, account), es), ToggleApply(id))
    requires var s := Run(Init(server, account), es);
             var t := Step(s, ToggleApply(id));
             && Possible(t, more) && Untouched(t, more, s.toggles[id].account, s.toggles[id].track)
             && Run(t, more).account == s.toggles[id].account
    ensures var s := Run(Init(server, account), es);
            var u := Run(Step(s, ToggleApply(id)), more);
            var m := s.toggles[id];
            Agrees(u, m.track) <==> (m.track in u.client.favorites <==> !m.wasFavorite)
  {
    var s := Run(Init(server, account), es);
    UntouchedKeepsServer(Step(s, ToggleApply(id)), more, s.toggles[id].account, s.toggles[id].track);
  }

  /** A mutation nobody waits for any more reaches the server: the client is right afterwards
      exactly if it already showed what the mutation asks for. */
  lemma LateMutationAgreesExactly(server: map<nat, set<string>>, account: nat, es: seq<Event>, id: nat)
    requires Possible(Init(server, account), es)
    requires var s := Run(Init(server, account), es);
             id in s.toggles && !s.toggles[id].awaited && !s.toggles[id].applied && s.toggles[id].account == s.account
    ensures var s := Run(Init(server, account), es);
            var m := s.toggles[id];
            Agrees(Step(s, ToggleApply(id)), m.track) <==> (m.track in s.client.favorites <==> !m.wasFavorite)
  {
    var t := Step(Run(Init(server, account), es), ToggleApply(id));
    assert Untouched(t, [], t.account, "") && Run(t, []) == t;
    LastEffectDecides(server, account, es, id, []);
  }

  /** The reply to a mutation that took effect is lost: the track stops being pending, and the
      client is right about it exactly if it already showed what the mutation asked for. */
  lemma LostReplyAgreesExactly(server: map<nat, set<string>>, account: nat, es: seq<Event>, id: nat)
    requires Possible(Init(server, account), es)
    requires var s := Run(Init(server, account), es);
             id in s.toggles && s.toggles[id].awaited && s.toggles[id].applied && !s.toggles[id].spoiled
    ensures var s := Run(Init(server, account), es);
            var m := s.toggles[id];
            var t := Step(s, ToggleReply(id, false));
            && m.track !in t.client.pending
            && (Agrees(t, m.track) <==> (m.track in s.client.favorites <==> !m.wasFavorite))
  {
    RunInv(Init(server, account), es);
  }

  // ---- over every run ----

  /** What the last mutation of each track asked for, per account, as far as the server saw it. */
  function LastEffects(s: System, es: seq<Event>, before: map<(nat, string), bool>): map<(nat, string), bool>
    requires Possible(s, es)
    decreases |es|
  {
    if es == [] then before
    else LastEffects(Step(s, es[0]), es[1..], Noted(s, es[0], before))
  }

  function Noted(s: System, e: Event, before: map<(nat, string), bool>): map<(nat, string), bool>
    requires Enabled(s, e)
  {
    if e.ToggleApply?
    then before[(s.toggles[e.id].account, s.toggles[e.id].track) := !s.toggles[e.id].wasFavorite]
    else before
  }

  ghost predicate Shown(s: System, m: map<(nat, string), bool>) {
    forall a, x :: (a, x) in m ==> (x in ServerSet(s, a) <==> m[(a, x)])
  }

  ghost predicate AppliedNoted(toggles: map<nat, Toggle>, m: map<(nat, string), bool>) {
    forall i :: i in toggles && toggles[i].applied ==> (toggles[i].account, toggles[i].track) in m
  }

  ghost predicate UnseenNoted(account: nat, unseen: set<string>, m: map<(nat, string), bool>) {
    forall x :: x in unseen ==> (account, x) in m
  }

  ghost predicate SpoiledNoted(loads: map<nat, Load>, generation: nat, account: nat, m: map<(nat, string), bool>) {
    forall i, x :: i in loads && loads[i].generation == generation && x in loads[i].spoiled ==> (account, x) in m
  }

  /** The server shows what was asked for last, and whatever counts as changed unheard was changed. */
  ghost predicate Explained(s: System, m: map<(nat, string), bool>) {
    && Shown(s, m) && AppliedNoted(s.toggles, m) && UnseenNoted(s.account, s.unseen, m)
    && SpoiledNoted(s.loads, s.client.generation, s.account, m)
  }

  lemma SpoilExplained(s: System, account: nat, track: string, m: map<(nat, string), bool>)
    requires Explained(s, m) && (account, track) in m
    ensures Explained(Spoil(s, account, track), m)
  {
  }

  lemma ExplainedApply(s: System, e: Event, m: map<(nat, string), bool>)
    requires Explained(s, m) && Enabled(s, e) && e.ToggleApply?
    ensures Explained(Step(s, e), Noted(s, e, m))
  {
    var t := s.toggles[e.id];
    var u := s.(server := s.server[t.account := Applied(t, ServerSet(s, t.account))],
                toggles := s.toggles[e.id := t.(applied := true)]);
    assert Explained(u, Noted(s, e, m));
    if !t.awaited { SpoilExplained(u, t.account, t.track, Noted(s, e, m)); }
  }

  lemma ExplainedReply(s: System, e: Event, m: map<(nat, string), bool>)
    requires Inv(s) && Explained(s, m) && Enabled(s, e) && e.ToggleReply?
    ensures Explained(Step(s, e), m)
  {
  }

  lemma ExplainedLoad(s: System, e: Event, m: map<(nat, string), bool>)
    requires Explained(s, m) && Enabled(s, e) && (e.LoadSend? || e.LoadRead? || e.LoadReply?)
    ensures Explained(Step(s, e), m)
  {
  }

  lemma ExplainedSession(s: System, e: Event, m: map<(nat, string), bool>)
    requires Inv(s) && Explained(s, m) && Enabled(s, e)
    requires e.ToggleSend? || e.Refilter? || e.RefilterDone? || e.ClearSession?
    ensures Explained(Step(s, e), m)
  {
  }

  lemma ExplainedStep(s: System, e: Event, m: map<(nat, string), bool>)
    requires Inv(s) && Explained(s, m) && Enabled(s, e)
    ensures Explained(Step(s, e), Noted(s, e, m))
  {
    match e
    case ToggleApply(_) => ExplainedApply(s, e, m);
    case ToggleReply(_, _) => ExplainedReply(s, e, m);
    case LoadSend(_) => ExplainedLoad(s, e, m);
    case LoadRead(_) => ExplainedLoad(s, e, m);
    case LoadReply(_, _) => ExplainedLoad(s, e, m);
    case _ => ExplainedSession(s, e, m);
  }

  lemma {:induction false} ExplainedRun(s: System, es: seq<Event>, m: map<(nat, string), bool>)
    requires Inv(s) && Explained(s, m) && Possible(s, es)
    ensures Explained(Run(s, es), LastEffects(s, es, m))
    decreases |es|
  {
    if es != [] {
      ExplainedStep(s, es[0], m);
      StepInv(s, es[0]);
      ExplainedRun(Step(s, es[0]), es[1..], Noted(s, es[0], m));
    }
  }

  /** In every run, once a load of the session was applied, the client is wrong about a track
      that is not pending if and only if some mutation changed it and the client shows
      otherwise than the last of them asked for. */
  lemma FavoritesAgreeExactly(server: map<nat, set<string>>, account: nat, es: seq<Event>, x: string)
    requires Possible(Init(server, account), es)
    requires Run(Init(server, account), es).loaded && x !in Run(Init(server, account), es).client.pending
    ensures var s := Run(Init(server, account), es);
            var m := LastEffects(Init(server, account), es, map[]);
            Agrees(s, x) <==> ((s.account, x) in m ==> (x in s.client.favorites <==> m[(s.account, x)]))
  {
    ExplainedRun(Init(server, account), es, map[]);
    if x !in Run(Init(server, account), es).unseen { FavoritesAgree(server, account, es, x); }
  }
}
