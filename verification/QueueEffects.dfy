/** Where each edit puts the tracks, and what plays next because of it. */
module QueueEffects {
  import opened Common
  import opened QueueModel

  /** What plays after going on. */
  function PlaysNext<T>(q: Queue<T>, repeatAll: bool): Option<T> {
    var r := Advance(q, repeatAll);
    if r.index < |r.tracks| then Some(r.tracks[r.index]) else None
  }

  /** Inserting next puts the track right behind the one that plays, so that it plays next; everything else stays in its
      order. A full queue is left alone. */
  lemma InsertedPlaysNext<T>(q: Queue<T>, t: T, repeatAll: bool)
    requires Valid(q)
    ensures var s, i, r := q.tracks, q.index, Apply(q, Edit.InsertNext(t));
            if |s| >= 500 then r == q
            else if s == [] then r == Queue([t], 0)
            else
              && r.index == i && |r.tracks| == |s| + 1
              && r.tracks[i + 1] == t && r.tracks[..i + 1] == s[..i + 1] && r.tracks[i + 2..] == s[i + 1..]
              && PlaysNext(r, repeatAll) == Some(t)
  {
  }

  /** Appending puts the track at the end, so the one that plays next stays the same unless there was none. */
  lemma AppendedPlaysLast<T>(q: Queue<T>, t: T)
    requires Valid(q)
    ensures var s, r := q.tracks, Apply(q, Edit.Append(t));
            if |s| >= 500 then r == q
            else
              && r.index == q.index && |r.tracks| == |s| + 1 && r.tracks[..|s|] == s && r.tracks[|s|] == t
              && (s != [] ==> PlaysNext(r, false) == if q.index + 1 < |s| then PlaysNext(q, false) else Some(t))
  {
  }

  /** Playing a later entry next does that and leaves the others in their order; nothing happens to an entry that plays, has
      played, or plays next anyway. */
  lemma ChosenPlaysNext<T>(q: Queue<T>, p: int, repeatAll: bool)
    requires Valid(q)
    ensures var s, i, r := q.tracks, q.index, Apply(q, Edit<T>.PlayNext(p));
            if p <= i + 1 || p >= |s| then r == q
            else
              && r.index == i && |r.tracks| == |s|
              && r.tracks[..i + 1] == s[..i + 1] && r.tracks[i + 1] == s[p]
              && r.tracks[i + 2..p + 1] == s[i + 1..p] && r.tracks[p + 1..] == s[p + 1..]
              && PlaysNext(r, repeatAll) == Some(s[p])
  {
    if q.index + 1 < p < |q.tracks| { MovedForward(q.tracks, p, q.index + 1); }
  }

  /** An entry taken out at a and put in before it, at b. */
  lemma MovedForward<T>(s: seq<T>, a: nat, b: nat)
    requires b < a < |s|
    ensures var r := With(Without(s, a), b, s[a]);
            |r| == |s| && r[b] == s[a] && r[..b] == s[..b] && r[b + 1..a + 1] == s[b..a] && r[a + 1..] == s[a + 1..]
  {
    var w := Without(s, a);
    assert w[..b] == s[..b] && w[b..] == s[b..a] + s[a + 1..];
  }

  lemma MovedBackward<T>(s: seq<T>, a: nat, b: nat)
    requires a < b < |s|
    ensures var r := With(Without(s, a), b, s[a]);
            |r| == |s| && r[b] == s[a] && r[..a] == s[..a] && r[a..b] == s[a + 1..b + 1] && r[b + 1..] == s[b + 1..]
  {
    var w := Without(s, a);
    assert w[..b] == s[..a] + s[a + 1..b + 1] && w[b..] == s[b + 1..];
  }

  /** Removing takes out that entry alone; the one that plays cannot be removed, and positions outside the queue do nothing. */
  lemma RemovedIsGone<T>(q: Queue<T>, p: int)
    requires Valid(q)
    ensures var s, r := q.tracks, Apply(q, Edit<T>.Remove(p));
            if p < 0 || p >= |s| || p == q.index then r == q
            else
              && |r.tracks| == |s| - 1 && r.tracks[..p] == s[..p] && r.tracks[p..] == s[p + 1..]
              && r.index == (if p < q.index then q.index - 1 else q.index)
  {
  }

  /** Moving puts the entry where it was asked for; impossible positions do nothing. */
  lemma MovedIsThere<T>(q: Queue<T>, a: int, b: int)
    requires Valid(q)
    ensures var s, r := q.tracks, Apply(q, Edit<T>.Move(a, b));
            if !(0 <= a < |s| && 0 <= b < |s|) || a == b then r == q
            else
              && |r.tracks| == |s| && r.tracks[b] == s[a]
              && (a < b ==> r.tracks[..a] == s[..a] && r.tracks[a..b] == s[a + 1..b + 1] && r.tracks[b + 1..] == s[b + 1..])
              && (b < a ==> r.tracks[..b] == s[..b] && r.tracks[b + 1..a + 1] == s[b..a] && r.tracks[a + 1..] == s[a + 1..])
  {
    if 0 <= b < a < |q.tracks| { MovedForward(q.tracks, a, b); }
    if 0 <= a < b < |q.tracks| { MovedBackward(q.tracks, a, b); }
  }

  /** Clearing ends the queue behind the track that plays. */
  lemma ClearedEndsHere<T>(q: Queue<T>)
    requires Valid(q)
    ensures var r := Apply(q, Edit<T>.ClearUpcoming);
            && r.index == q.index && r.tracks == q.tracks[..Min(q.index + 1, |q.tracks|)]
            && !CanAdvance(r, false)
  {
  }

  /** Shuffling plays the upcoming tracks in the order that was drawn. */
  lemma ShuffledInOrder<T>(q: Queue<T>, order: seq<nat>, k: nat)
    requires Valid(q) && Allowed(q, Edit<T>.Shuffle(order)) && q.index + 1 + k < |q.tracks|
    ensures var i, r := q.index, Apply(q, Edit<T>.Shuffle(order));
            && r.index == i && |r.tracks| == |q.tracks| && r.tracks[..i + 1] == q.tracks[..i + 1]
            && order[k] < |q.tracks| - i - 1 && r.tracks[i + 1 + k] == q.tracks[i + 1 + order[k]]
  {
    var rest := q.tracks[q.index + 1..];
    assert Reordered(rest, order)[k] == rest[order[k]];
  }

  /** A replaced queue shows at most 500 consecutive tracks, from the first one or, when the selected one lies further back,
      from that one; it plays the selected track, or the first if there is no such track. */
  lemma ReplacedShowsWindow<T>(tracks: seq<T>, start: int)
    ensures var selected := if 0 <= start < |tracks| then start else 0;
            var from := if selected < 500 then 0 else selected;
            var r := Replace(tracks, start);
            && r.index == selected - from
            && |r.tracks| == Min(500, |tracks| - from) && r.tracks == tracks[from..from + |r.tracks|]
  {
  }

  /** Going on and going back: neither changes the tracks, each undoes the other inside the queue, and at the ends
      going on wraps around if the queue repeats and going back stays. */
  lemma NextAndPrevious<T>(q: Queue<T>, repeatAll: bool)
    requires Valid(q)
    ensures Advance(q, repeatAll).tracks == Back(q).tracks == q.tracks
    ensures q.index + 1 < |q.tracks| ==> Advance(q, repeatAll).index == q.index + 1 && Back(Advance(q, repeatAll)) == q
    ensures q.index + 1 >= |q.tracks| ==> Advance(q, repeatAll).index == if repeatAll then 0 else q.index
    ensures if q.index == 0 then Back(q) == q else Advance(Back(q), repeatAll) == q
    ensures CanAdvance(q, repeatAll) <==> q.index + 1 < |q.tracks| || (repeatAll && q.tracks != [])
  {
  }

  /** Selecting plays that position if there is one. */
  lemma SelectedPlays<T>(q: Queue<T>, i: int)
    ensures Select(q, i) == if 0 <= i < |q.tracks| then Queue(q.tracks, i) else q
  {
  }
}
