/** The client's main-actor segments on the object they update, and the two runs that show why
    an effect the client never hears of is excepted. */
module FavoritesClient {
  import opened Common
  import opened FavoritesModel
  import opened FavoritesProofs

  /** The part of the app model that keeps favourites. Suspension points of the async methods
      split them into the segments below; captured tokens travel as results and arguments. */
  class AppModel {
    var favorites: set<string>
    var pending: set<string>
    var favoriteRevision: nat
    var generation: nat
    var catalogGeneration: nat
    var connecting: bool
    var offline: bool
    var nextToken: nat

    ghost function State(): Client
      reads this
    {
      Client(favorites, pending, favoriteRevision, generation, catalogGeneration, connecting, offline, nextToken)
    }

    method Fresh() returns (token: nat)
      modifies this`nextToken
      ensures token == old(nextToken) && nextToken == token + 1
    {
      token := nextToken;
      nextToken := nextToken + 1;
    }

    /** toggleFavorite up to the request: the method and the generation it goes out with. */
    method ToggleFavorite(track: string) returns (sent: Option<(bool, nat)>)
      modifies this
      ensures sent.Some? <==> MayToggle(old(State()), track)
      ensures sent.Some? ==> sent.value == (track in old(favorites), old(generation))
      ensures State() == if sent.Some? then BeginToggle(old(State()), track) else old(State())
    {
      if offline || track in pending { return None; }
      var wasFavorite := track in favorites;
      pending := pending + {track};
      return Some((wasFavorite, generation));
    }

    /** toggleFavorite after the request succeeded or threw. */
    method ToggleFinished(track: string, wasFavorite: bool, sentIn: nat, success: bool)
      modifies this
      ensures State() == EndToggle(old(State()), track, wasFavorite, sentIn, success)
    {
      if success && generation == sentIn {
        favorites := if wasFavorite then favorites - {track} else favorites + {track};
        favoriteRevision := Fresh();
      }
      if generation == sentIn { pending := pending - {track}; }
    }

    /** loadLibrary up to the requests: the tokens it captured. */
    method LoadLibrary() returns (tokens: Option<(nat, nat, nat)>)
      modifies this
      ensures tokens.Some? <==> MayLoad(old(State()))
      ensures State() == if tokens.Some? then BeginLoad(old(State())) else old(State())
      ensures tokens.Some? ==> tokens.value == (generation, catalogGeneration, favoriteRevision)
    {
      if offline || connecting { return None; }
      catalogGeneration := Fresh();
      connecting := true;
      return Some((generation, catalogGeneration, favoriteRevision));
    }

    /** loadLibrary after all pages arrived, or after one of them failed (None). */
    method LibraryLoaded(sentIn: nat, catalog: nat, revision: nat, answer: Option<set<string>>)
      modifies this
      ensures State() == EndLoad(old(State()), sentIn, catalog, revision, answer)
    {
      if answer.Some? && generation == sentIn && catalogGeneration == catalog {
        if favoriteRevision == revision { favorites := answer.value; }
      }
      if catalogGeneration == catalog { connecting := false; }
    }

    /** Signing out, changing the server or going offline. */
    method EndSession(goOffline: bool)
      modifies this
      ensures State() == ClearLibrary(old(State()), goOffline)
    {
      favoriteRevision := Fresh();
      generation := Fresh();
      catalogGeneration := Fresh();
      favorites, pending, connecting, offline := {}, {}, false, goOffline;
    }
  }

  // ---- two runs with an unheard effect ----

  function LoadOnce(id: nat): seq<Event> { [LoadSend(id), LoadRead(id), LoadReply(id, true)] }

  lemma {:induction false} RunSplit(s: System, a: seq<Event>, b: seq<Event>)
    requires Possible(s, a) && Possible(Run(s, a), b)
    ensures Possible(s, a + b) && Run(s, a + b) == Run(Run(s, a), b)
    decreases |a|
  {
    if a == [] {
      assert a + b == b;
    } else {
      RunSplit(Step(s, a[0]), a[1..], b);
      assert (a + b)[1..] == a[1..] + b;
    }
  }

  lemma RunOne(s: System, e: Event)
    requires Enabled(s, e)
    ensures Possible(s, [e]) && Run(s, [e]) == Step(s, e)
  {
    assert [e][1..] == [];
  }

  /** A first load of an empty account. */
  lemma AfterLoad(s: System, id: nat)
    requires s.client.favorites == {} && MayLoad(s.client) && id !in s.loads && s.account !in s.server
    ensures Possible(s, LoadOnce(id))
    ensures var t := Run(s, LoadOnce(id));
            && t.loaded && t.client.favorites == {} && t.client.pending == s.client.pending && MayLoad(t.client)
            && t.client.generation == s.client.generation && t.loads == s.loads
            && t.account == s.account && t.server == s.server && t.toggles == s.toggles && t.unseen == {}
  {
    var a := Step(s, LoadSend(id));
    var b := Step(a, LoadRead(id));
    var c := Step(b, LoadReply(id, true));
    assert c.loads == s.loads;
    RunOne(s, LoadSend(id)); RunOne(a, LoadRead(id)); RunOne(b, LoadReply(id, true));
    RunSplit(a, [LoadRead(id)], [LoadReply(id, true)]);
    assert [LoadRead(id)] + [LoadReply(id, true)] == [LoadRead(id), LoadReply(id, true)];
    RunSplit(s, [LoadSend(id)], [LoadRead(id), LoadReply(id, true)]);
    assert [LoadSend(id)] + [LoadRead(id), LoadReply(id, true)] == LoadOnce(id);
  }

  /** A success reply that is lost leaves the client wrong about a track that is not pending. */
  lemma LostReplyDisagrees()
    ensures var s := Init(map[], 0);
            var es := LoadOnce(0) + [ToggleSend(0, "a"), ToggleApply(0), ToggleReply(0, false)];
            && Possible(s, es)
            && var t := Run(s, es);
               t.loaded && "a" !in t.client.pending && "a" !in t.client.favorites && "a" in ServerSet(t, t.account)
  {
    var s := Init(map[], 0);
    AfterLoad(s, 0);
    var a := Run(s, LoadOnce(0));
    var b := Step(a, ToggleSend(0, "a"));
    var c := Step(b, ToggleApply(0));
    var d := Step(c, ToggleReply(0, false));
    RunOne(a, ToggleSend(0, "a")); RunOne(b, ToggleApply(0)); RunOne(c, ToggleReply(0, false));
    RunSplit(b, [ToggleApply(0)], [ToggleReply(0, false)]);
    assert [ToggleApply(0)] + [ToggleReply(0, false)] == [ToggleApply(0), ToggleReply(0, false)];
    RunSplit(a, [ToggleSend(0, "a")], [ToggleApply(0), ToggleReply(0, false)]);
    assert [ToggleSend(0, "a")] + [ToggleApply(0), ToggleReply(0, false)]
        == [ToggleSend(0, "a"), ToggleApply(0), ToggleReply(0, false)];
    RunSplit(s, LoadOnce(0), [ToggleSend(0, "a"), ToggleApply(0), ToggleReply(0, false)]);
  }

  /** So does a mutation of an earlier session that reaches the same account after the load. */
  lemma LateMutationDisagrees()
    ensures var s := Init(map[], 0);
            var es := [ToggleSend(0, "a"), ClearSession(0, false)] + LoadOnce(0) + [ToggleApply(0)];
            && Possible(s, es)
            && var t := Run(s, es);
               t.loaded && "a" !in t.client.pending && "a" !in t.client.favorites && "a" in ServerSet(t, t.account)
  {
    var s := Init(map[], 0);
    var a := Step(s, ToggleSend(0, "a"));
    var b := Step(a, ClearSession(0, false));
    AfterLoad(b, 0);
    var c := Run(b, LoadOnce(0));
    var d := Step(c, ToggleApply(0));
    RunOne(s, ToggleSend(0, "a")); RunOne(a, ClearSession(0, false)); RunOne(c, ToggleApply(0));
    RunSplit(s, [ToggleSend(0, "a")], [ClearSession(0, false)]);
    assert [ToggleSend(0, "a")] + [ClearSession(0, false)] == [ToggleSend(0, "a"), ClearSession(0, false)];
    RunSplit(s, [ToggleSend(0, "a"), ClearSession(0, false)], LoadOnce(0));
    RunSplit(s, [ToggleSend(0, "a"), ClearSession(0, false)] + LoadOnce(0), [ToggleApply(0)]);
  }
}
