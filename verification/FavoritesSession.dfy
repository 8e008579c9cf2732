/** What the pending marks, the loading mark and the session tokens of the client are worth. */
module FavoritesSession {
  import opened Common
  import opened FavoritesModel
  import opened FavoritesProofs

  // ---- pending tracks ----

  /** A mutation of this track has been sent and not been answered. */
  ghost predicate UnderWay(toggles: map<nat, Toggle>, x: string) {
    exists i :: i in toggles && toggles[i].awaited && toggles[i].track == x
  }

  ghost predicate PendingIsUnderWay(s: System) {
    forall x :: x in s.client.pending ==> UnderWay(s.toggles, x)
  }

  lemma UnderWayStays(s: map<nat, Toggle>, t: map<nat, Toggle>, x: string)
    requires UnderWay(s, x)
    requires forall i :: i in s && s[i].awaited && s[i].track == x ==> i in t && t[i].awaited && t[i].track == x
    ensures UnderWay(t, x)
  {
    var i :| i in s && s[i].awaited && s[i].track == x;
    assert t[i].awaited;
  }

  lemma SendPending(s: System, e: Event)
    requires PendingIsUnderWay(s) && Enabled(s, e) && e.ToggleSend?
    ensures PendingIsUnderWay(Step(s, e))
  {
    var t := Step(s, e);
    forall x | x in t.client.pending ensures UnderWay(t.toggles, x) {
      if x in s.client.pending { UnderWayStays(s.toggles, t.toggles, x); } else { assert t.toggles[e.id].awaited; }
    }
  }

  lemma ReplyPending(s: System, e: Event)
    requires Awaiting(s) && OnePerTrack(s.toggles) && PendingIsUnderWay(s) && Enabled(s, e) && e.ToggleReply?
    ensures PendingIsUnderWay(Step(s, e))
  {
    var t := Step(s, e);
    assert t.client.pending == if s.toggles[e.id].awaited then s.client.pending - {s.toggles[e.id].track} else s.client.pending;
    forall x | x in t.client.pending ensures UnderWay(t.toggles, x) {
      UnderWayStays(s.toggles, t.toggles, x);
    }
  }

  lemma OtherPending(s: System, e: Event)
    requires PendingIsUnderWay(s) && Enabled(s, e) && !e.ToggleSend? && !e.ToggleReply?
    ensures PendingIsUnderWay(Step(s, e))
  {
    var t := Step(s, e);
    forall x | x in t.client.pending ensures UnderWay(t.toggles, x) {
      UnderWayStays(s.toggles, t.toggles, x);
    }
  }

  lemma {:induction false} RunPending(s: System, es: seq<Event>)
    requires Inv(s) && PendingIsUnderWay(s) && Possible(s, es)
    ensures PendingIsUnderWay(Run(s, es))
    decreases |es|
  {
    if es != [] {
      if es[0].ToggleSend? { SendPending(s, es[0]); }
      else if es[0].ToggleReply? { ReplyPending(s, es[0]); }
      else { OtherPending(s, es[0]); }
      StepInv(s, es[0]);
      RunPending(Step(s, es[0]), es[1..]);
    }
  }

  /** In every run a track is pending exactly while a mutation of it is under way: the mark goes with the answer,
      whatever the answer is, and with the session. */
  lemma PendingExactly(server: map<nat, set<string>>, account: nat, es: seq<Event>, x: string)
    requires Possible(Init(server, account), es)
    ensures var s := Run(Init(server, account), es);
            x in s.client.pending <==> exists i :: i in s.toggles && s.toggles[i].awaited && s.toggles[i].track == x
  {
    RunInv(Init(server, account), es);
    RunPending(Init(server, account), es);
  }

  /** So an answered track can be changed again at once: a second mutation is sent exactly if the client is online and
      the first one is not under way any more. */
  lemma TogglesAgainExactly(server: map<nat, set<string>>, account: nat, es: seq<Event>, id: nat, x: string)
    requires Possible(Init(server, account), es) && id !in Run(Init(server, account), es).toggles
    ensures var s := Run(Init(server, account), es);
            var t := Step(s, ToggleSend(id, x));
            if s.client.offline || UnderWay(s.toggles, x) then t == s
            else id in t.toggles && t.toggles[id].awaited && t.toggles[id].track == x
                 && (t.toggles[id].wasFavorite <==> x in s.client.favorites)
  {
    PendingExactly(server, account, es, x);
  }

  // ---- answers ----

  /** The answer to an awaited mutation shows its effect if it is a success and nothing otherwise. */
  lemma ReplyShows(server: map<nat, set<string>>, account: nat, es: seq<Event>, id: nat, success: bool)
    requires Possible(Init(server, account), es) && Enabled(Run(Init(server, account), es), ToggleReply(id, success))
    requires Run(Init(server, account), es).toggles[id].awaited
    ensures var s := Run(Init(server, account), es);
            var m := s.toggles[id];
            var c := Step(s, ToggleReply(id, success)).client;
            && c.pending == s.client.pending - {m.track}
            && (forall x :: x in c.favorites <==> if success && x == m.track then !m.wasFavorite else x in s.client.favorites)
            && (success <==> c.favoriteRevision != s.client.favoriteRevision)
  {
    RunInv(Init(server, account), es);
  }

  /** The answer to the current load ends it, whether it succeeded or not, and no other answer touches the mark; the
      favourites it brought are shown exactly if no mutation was heard of since it was begun. */
  lemma LoadReplyEnds(server: map<nat, set<string>>, account: nat, es: seq<Event>, id: nat, success: bool)
    requires Possible(Init(server, account), es) && Enabled(Run(Init(server, account), es), LoadReply(id, success))
    ensures var s := Run(Init(server, account), es);
            var l := s.loads[id];
            var c := Step(s, LoadReply(id, success)).client;
            var current := l.catalogGeneration == s.client.catalogGeneration;
            && c.connecting == (s.client.connecting && !current)
            && c.favorites == (if success && current && l.generation == s.client.generation && l.favoriteRevision == s.client.favoriteRevision
                               then l.snapshot.value else s.client.favorites)
  {
  }

  // ---- loads ----

  /** The tokens of loads are handed out once, so at most one load is current. */
  ghost predicate OneCurrent(s: System) {
    && s.client.catalogGeneration < s.client.nextToken
    && (forall i :: i in s.loads ==> s.loads[i].catalogGeneration < s.client.nextToken)
    && (forall i, j :: i in s.loads && j in s.loads && s.loads[i].catalogGeneration == s.loads[j].catalogGeneration ==> i == j)
  }

  lemma LoadsOneCurrent(s: System, e: Event)
    requires OneCurrent(s) && Enabled(s, e) && (e.LoadSend? || e.LoadRead? || e.LoadReply?)
    ensures OneCurrent(Step(s, e))
  {
  }

  lemma TogglesOneCurrent(s: System, e: Event)
    requires OneCurrent(s) && Enabled(s, e) && (e.ToggleSend? || e.ToggleApply? || e.ToggleReply?)
    ensures OneCurrent(Step(s, e))
  {
  }

  lemma StepOneCurrent(s: System, e: Event)
    requires OneCurrent(s) && Enabled(s, e)
    ensures OneCurrent(Step(s, e))
  {
    match e
    case LoadSend(_) => LoadsOneCurrent(s, e);
    case LoadRead(_) => LoadsOneCurrent(s, e);
    case LoadReply(_, _) => LoadsOneCurrent(s, e);
    case ToggleSend(_, _) => TogglesOneCurrent(s, e);
    case ToggleApply(_) => TogglesOneCurrent(s, e);
    case ToggleReply(_, _) => TogglesOneCurrent(s, e);
    case _ =>
  }

  lemma {:induction false} RunOneCurrent(s: System, es: seq<Event>)
    requires OneCurrent(s) && Possible(s, es)
    ensures OneCurrent(Run(s, es))
    decreases |es|
  {
    if es != [] {
      StepOneCurrent(s, es[0]);
      RunOneCurrent(Step(s, es[0]), es[1..]);
    }
  }

  /** In every run at most one load under way is the current one, whatever was filtered, answered or begun in between. */
  lemma OneLoadIsCurrent(server: map<nat, set<string>>, account: nat, es: seq<Event>, i: nat, j: nat)
    requires Possible(Init(server, account), es)
    requires var s := Run(Init(server, account), es);
             && i in s.loads && j in s.loads
             && s.loads[i].catalogGeneration == s.loads[j].catalogGeneration == s.client.catalogGeneration
    ensures i == j
  {
    RunOneCurrent(Init(server, account), es);
  }

  /** A load is begun exactly if the client is online and nothing is being loaded; it then is the current one and carries the tokens
      of this moment. */
  lemma LoadBegins(server: map<nat, set<string>>, account: nat, es: seq<Event>, id: nat)
    requires Possible(Init(server, account), es) && id !in Run(Init(server, account), es).loads
    ensures var s := Run(Init(server, account), es);
            var t := Step(s, LoadSend(id));
            if s.client.offline || s.client.connecting then t == s
            else
              && t.client == s.client.(connecting := true, catalogGeneration := t.client.catalogGeneration, nextToken := t.client.nextToken)
              && t.client.catalogGeneration != s.client.catalogGeneration
              && t.loads == s.loads[id := Load(s.client.generation, t.client.catalogGeneration, s.client.favoriteRevision, s.account, None, {})]
              && (forall i :: i in s.loads ==> s.loads[i].catalogGeneration != t.client.catalogGeneration)
  {
    RunOneCurrent(Init(server, account), es);
  }

  // ---- sessions ----

  lemma TokensGrow(s: System, e: Event)
    requires TokensFresh(s) && Enabled(s, e)
    ensures s.client.generation <= Step(s, e).client.generation
  {
  }

  lemma {:induction false} RunTokensGrow(s: System, es: seq<Event>)
    requires Inv(s) && Possible(s, es)
    ensures s.client.generation <= Run(s, es).client.generation
    decreases |es|
  {
    if es != [] {
      TokensGrow(s, es[0]);
      StepInv(s, es[0]);
      RunTokensGrow(Step(s, es[0]), es[1..]);
    }
  }

  /** Ending a session shows nothing of it any more, and from then on, through whatever happens later, no answer to a
      mutation or a load with a token handed out before changes what the client shows or marks as pending. */
  lemma SessionsAreIsolated(server: map<nat, set<string>>, account: nat, es: seq<Event>, next: nat, offline: bool, more: seq<Event>,
                            t: Toggle, l: Load, success: bool)
    requires Possible(Init(server, account), es)
    requires var s := Run(Init(server, account), es);
             && Possible(Step(s, ClearSession(next, offline)), more)
             && t.generation < s.client.nextToken && l.generation < s.client.nextToken
    ensures var s := Run(Init(server, account), es);
            var c := Step(s, ClearSession(next, offline)).client;
            c.favorites == {} && c.pending == {} && !c.connecting && c.offline == offline
    ensures var s := Run(Init(server, account), es);
            var c := Run(Step(s, ClearSession(next, offline)), more).client;
            && EndToggle(c, t.track, t.wasFavorite, t.generation, success) == c
            && EndLoad(c, l.generation, l.catalogGeneration, l.favoriteRevision, l.snapshot).favorites == c.favorites
            && EndLoad(c, l.generation, l.catalogGeneration, l.favoriteRevision, l.snapshot).pending == c.pending
  {
    var s := Run(Init(server, account), es);
    RunInv(Init(server, account), es);
    StepInv(s, ClearSession(next, offline));
    RunTokensGrow(Step(s, ClearSession(next, offline)), more);
  }
}
