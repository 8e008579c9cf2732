/** The playback queue over any element type. That the operations do not look at the elements
    is what lets occurrences be told apart: label every entry with its position, run the same
    operation, and read off where each occurrence went. */
module QueueModel {
  import opened Common

  const CAPACITY: nat := 500

  datatype Queue<T> = Queue(tracks: seq<T>, index: nat)

  /** `Shuffle` carries the order the random source chose for the upcoming entries. */
  datatype Edit<T> =
    | InsertNext(track: T)
    | Append(track: T)
    | Remove(position: int)
    | PlayNext(position: int)
    | Move(source: int, destination: int)
    | ClearUpcoming
    | Shuffle(order: seq<nat>)

  predicate Within<T>(s: seq<T>, i: int) { 0 <= i < |s| }

  function Without<T>(s: seq<T>, p: nat): seq<T>
    requires p < |s|
  {
    s[..p] + s[p + 1..]
  }

  function With<T>(s: seq<T>, p: nat, t: T): seq<T>
    requires p <= |s|
  {
    s[..p] + [t] + s[p..]
  }

  /** The selected track opens a new window when it lies beyond the first 500. */
  function Replace<T>(tracks: seq<T>, start: int): Queue<T> {
    var selected := if Within(tracks, start) then start else 0;
    var lower := if selected >= CAPACITY then selected else 0;
    var rest := tracks[Min(lower, |tracks|)..];
    Queue(if |rest| <= CAPACITY then rest else rest[..CAPACITY], selected - lower)
  }

  /** A permutation of 0..n. */
  predicate IsOrder(order: seq<nat>, n: nat) {
    |order| == n && (forall i :: 0 <= i < n ==> order[i] < n)
    && (forall i, j :: 0 <= i < j < n ==> order[i] != order[j])
  }

  predicate Allowed<T>(q: Queue<T>, e: Edit<T>) {
    e.Shuffle? && q.index + 1 < |q.tracks| ==> IsOrder(e.order, |q.tracks| - q.index - 1)
  }

  function Reordered<T>(s: seq<T>, order: seq<nat>): seq<T>
    requires |order| == |s| && forall i :: 0 <= i < |s| ==> order[i] < |s|
  {
    seq(|s|, i requires 0 <= i < |s| => s[order[i]])
  }

  predicate Valid<T>(q: Queue<T>) {
    |q.tracks| <= CAPACITY && (if q.tracks == [] then q.index == 0 else q.index < |q.tracks|)
  }

  /** Whether the edit does anything. */
  predicate Takes<T>(q: Queue<T>, e: Edit<T>) {
    match e
    case InsertNext(_) => |q.tracks| < CAPACITY
    case Append(_) => |q.tracks| < CAPACITY
    case Remove(p) => Within(q.tracks, p) && p != q.index
    case PlayNext(p) => p > q.index + 1 && Within(q.tracks, p)
    case Move(a, b) => Within(q.tracks, a) && Within(q.tracks, b) && a != b
    case ClearUpcoming => q.index + 1 < |q.tracks|
    case Shuffle(_) => q.index + 1 < |q.tracks|
  }

  /** Where the index goes when an entry moves from a to b. */
  function MovedIndex(index: nat, a: nat, b: nat): nat {
    if a == index then b
    else if a < index && b >= index then index - 1
    else if a > index && b <= index then index + 1
    else index
  }

  function Apply<T>(q: Queue<T>, e: Edit<T>): Queue<T>
    requires Valid(q) && Allowed(q, e)
  {
    if !Takes(q, e) then q
    else
      match e
      case InsertNext(t) => Queue(With(q.tracks, if q.tracks == [] then 0 else q.index + 1, t), q.index)
      case Append(t) => Queue(q.tracks + [t], q.index)
      case Remove(p) => Queue(Without(q.tracks, p), if p < q.index then q.index - 1 else q.index)
      case PlayNext(p) => Queue(With(Without(q.tracks, p), q.index + 1, q.tracks[p]), q.index)
      case Move(a, b) => Queue(With(Without(q.tracks, a), b, q.tracks[a]), MovedIndex(q.index, a, b))
      case ClearUpcoming => Queue(q.tracks[..q.index + 1], q.index)
      case Shuffle(order) => Queue(q.tracks[..q.index + 1] + Reordered(q.tracks[q.index + 1..], order), q.index)
  }

  predicate CanAdvance<T>(q: Queue<T>, repeatAll: bool) {
    q.index + 1 < |q.tracks| || (repeatAll && q.tracks != [])
  }

  function Advance<T>(q: Queue<T>, repeatAll: bool): Queue<T> {
    if q.index + 1 < |q.tracks| then q.(index := q.index + 1)
    else if repeatAll && q.tracks != [] then q.(index := 0)
    else q
  }

  function Back<T>(q: Queue<T>): Queue<T> { q.(index := Max(0, q.index - 1)) }

  function Select<T>(q: Queue<T>, i: int): Queue<T> { if Within(q.tracks, i) then q.(index := i) else q }

  // ---- every operation keeps a valid, bounded queue ----

  lemma ReplaceIsValid<T>(tracks: seq<T>, start: int)
    ensures Valid(Replace(tracks, start))
    ensures Within(tracks, start) ==> Replace(tracks, start).tracks[Replace(tracks, start).index] == tracks[start]
  {
  }

  lemma ApplyIsValid<T>(q: Queue<T>, e: Edit<T>)
    requires Valid(q) && Allowed(q, e)
    ensures Valid(Apply(q, e))
  {
  }

  lemma NavigationIsValid<T>(q: Queue<T>, repeatAll: bool, i: int)
    requires Valid(q)
    ensures Valid(Advance(q, repeatAll)) && Valid(Back(q)) && Valid(Select(q, i))
  {
  }

  // ---- occurrences ----

  /** The queue with every entry labelled by its position. */
  function Labelled<T>(q: Queue<T>): Queue<(T, nat)> {
    Queue(seq(|q.tracks|, i requires 0 <= i < |q.tracks| => (q.tracks[i], i)), q.index)
  }

  /** The same edit on labelled entries; a new entry gets the first unused label. */
  function LabelledEdit<T>(q: Queue<T>, e: Edit<T>): Edit<(T, nat)> {
    match e
    case InsertNext(t) => InsertNext((t, |q.tracks|))
    case Append(t) => Append((t, |q.tracks|))
    case Remove(p) => Remove(p)
    case PlayNext(p) => PlayNext(p)
    case Move(a, b) => Move(a, b)
    case ClearUpcoming => ClearUpcoming
    case Shuffle(order) => Shuffle(order)
  }

  function Stripped<T>(s: seq<(T, nat)>): seq<T> { seq(|s|, i requires 0 <= i < |s| => s[i].0) }

  lemma StrippedWith<T>(s: seq<(T, nat)>, p: nat, t: (T, nat))
    requires p <= |s|
    ensures Stripped(With(s, p, t)) == With(Stripped(s), p, t.0)
  {
  }

  lemma StrippedWithout<T>(s: seq<(T, nat)>, p: nat)
    requires p < |s|
    ensures Stripped(Without(s, p)) == Without(Stripped(s), p)
  {
  }

  lemma StrippedMoved<T>(s: seq<(T, nat)>, a: nat, b: nat)
    requires a < |s| && b < |s|
    ensures Stripped(With(Without(s, a), b, s[a])) == With(Without(Stripped(s), a), b, Stripped(s)[a])
  {
    StrippedWithout(s, a);
    StrippedWith(Without(s, a), b, s[a]);
  }

  lemma StrippedShuffle<T>(s: seq<(T, nat)>, k: nat, order: seq<nat>)
    requires k <= |s| && IsOrder(order, |s| - k)
    ensures Stripped(s[..k] + Reordered(s[k..], order)) == Stripped(s)[..k] + Reordered(Stripped(s)[k..], order)
  {
    var r := s[..k] + Reordered(s[k..], order);
    forall i | 0 <= i < |s| ensures Stripped(r)[i] == (Stripped(s)[..k] + Reordered(Stripped(s)[k..], order))[i] {
      if i >= k {
        assert r[i] == s[k..][order[i - k]];
      }
    }
  }

  lemma PlayNextFollows<T>(q: Queue<T>, p: int)
    requires Valid(q) && Takes(q, Edit<T>.PlayNext(p))
    ensures var r := Apply(Labelled(q), PlayNext(p));
            Stripped(r.tracks) == Apply(q, PlayNext(p)).tracks && r.index == Apply(q, PlayNext(p)).index
  {
    var l := Labelled(q).tracks;
    assert Stripped(l) == q.tracks;
    StrippedMoved(l, p, q.index + 1);
  }

  lemma MoveFollows<T>(q: Queue<T>, a: int, b: int)
    requires Valid(q) && Takes(q, Edit<T>.Move(a, b))
    ensures var r := Apply(Labelled(q), Move(a, b));
            Stripped(r.tracks) == Apply(q, Move(a, b)).tracks && r.index == Apply(q, Move(a, b)).index
  {
    var l := Labelled(q).tracks;
    assert Stripped(l) == q.tracks;
    StrippedMoved(l, a, b);
  }

  lemma InsertsFollow<T>(q: Queue<T>, e: Edit<T>)
    requires Valid(q) && Takes(q, e) && (e.InsertNext? || e.Append?)
    ensures var r := Apply(Labelled(q), LabelledEdit(q, e));
            Stripped(r.tracks) == Apply(q, e).tracks && r.index == Apply(q, e).index
  {
    var l := Labelled(q).tracks;
    assert Stripped(l) == q.tracks;
    match e
    case InsertNext(t) => StrippedWith(l, if l == [] then 0 else q.index + 1, (t, |l|));
    case Append(t) => StrippedWith(l, |l|, (t, |l|)); assert With(q.tracks, |l|, t) == q.tracks + [t];
  }

  lemma RestFollows<T>(q: Queue<T>, e: Edit<T>)
    requires Valid(q) && Allowed(q, e) && Takes(q, e) && (e.Remove? || e.ClearUpcoming? || e.Shuffle?)
    ensures var r := Apply(Labelled(q), LabelledEdit(q, e));
            Stripped(r.tracks) == Apply(q, e).tracks && r.index == Apply(q, e).index
  {
    var l := Labelled(q).tracks;
    assert Stripped(l) == q.tracks;
    match e
    case Remove(p) => StrippedWithout(l, p);
    case ClearUpcoming =>
    case Shuffle(order) => StrippedShuffle(l, q.index + 1, order);
  }

  /** The labelled edit is the edit: it moves the occurrences and nothing else. */
  lemma LabelsFollow<T>(q: Queue<T>, e: Edit<T>)
    requires Valid(q) && Allowed(q, e)
    ensures var r := Apply(Labelled(q), LabelledEdit(q, e));
            Stripped(r.tracks) == Apply(q, e).tracks && r.index == Apply(q, e).index
  {
    var l := Labelled(q).tracks;
    assert Stripped(l) == q.tracks;
    if Takes(q, e) {
      if e.PlayNext? { PlayNextFollows(q, e.position); }
      else if e.Move? { MoveFollows(q, e.source, e.destination); }
      else if e.InsertNext? || e.Append? { InsertsFollow(q, e); }
      else { RestFollows(q, e); }
    }
  }

  /** The occurrence that plays in q is the one that plays in r. */
  ghost predicate StillPlays<T>(q: Queue<T>, r: Queue<(T, nat)>)
    requires q.index < |q.tracks|
  {
    r.index < |r.tracks| && r.tracks[r.index] == (q.tracks[q.index], q.index)
  }

  /** Inserting behind an entry, or taking out a later one, leaves it where it is. */
  lemma EntryStays<T>(s: seq<T>, k: nat, p: nat, t: T)
    requires k < p <= |s|
    ensures With(s, p, t)[k] == s[k]
    ensures p < |s| ==> Without(s, p)[k] == s[k]
  {
  }

  lemma InsertKeepsPlaying<T>(q: Queue<T>, e: Edit<T>)
    requires Valid(q) && q.tracks != [] && Takes(q, e) && (e.InsertNext? || e.Append?)
    ensures StillPlays(q, Apply(Labelled(q), LabelledEdit(q, e)))
  {
    EntryStays(Labelled(q).tracks, q.index, q.index + 1, (e.track, |q.tracks|));
  }

  lemma RemoveKeepsPlaying<T>(q: Queue<T>, p: int)
    requires Valid(q) && q.tracks != [] && Takes(q, Edit<T>.Remove(p))
    ensures StillPlays(q, Apply(Labelled(q), Remove(p)))
  {
    var l := Labelled(q).tracks;
    if p > q.index {
      assert Without(l, p)[q.index] == l[q.index];
    } else {
      assert Without(l, p)[q.index - 1] == l[q.index];
    }
  }

  lemma MoveKeepsPlaying<T>(q: Queue<T>, a: nat, b: nat)
    requires Valid(q) && a < |q.tracks| && b < |q.tracks| && a != b
    ensures StillPlays(q, Apply(Labelled(q), Move(a, b)))
  {
    var l := Labelled(q).tracks;
    var w := Without(l, a);
    var i, j := q.index, MovedIndex(q.index, a, b);
    if i != a {
      var k := if a < i then i - 1 else i;
      assert w[k] == l[i];
      assert j == if b <= k then k + 1 else k;
    }
    assert With(w, b, l[a])[j] == l[i];
  }

  lemma PlayNextKeepsPlaying<T>(q: Queue<T>, p: int)
    requires Valid(q) && q.tracks != [] && Takes(q, Edit<T>.PlayNext(p))
    ensures StillPlays(q, Apply(Labelled(q), PlayNext(p)))
  {
    var l := Labelled(q).tracks;
    EntryStays(l, q.index, p, l[p]);
    EntryStays(Without(l, p), q.index, q.index + 1, l[p]);
  }

  lemma TailKeepsPlaying<T>(q: Queue<T>, e: Edit<T>)
    requires Valid(q) && Allowed(q, e) && q.tracks != [] && Takes(q, e) && (e.ClearUpcoming? || e.Shuffle?)
    ensures StillPlays(q, Apply(Labelled(q), LabelledEdit(q, e)))
  {
    var l := Labelled(q).tracks;
    assert l[..q.index + 1][q.index] == l[q.index];
  }

  /** Every edit of a non-empty queue keeps the playing occurrence, not merely its track id. */
  lemma EditKeepsPlayingOccurrence<T>(q: Queue<T>, e: Edit<T>)
    requires Valid(q) && Allowed(q, e) && q.tracks != []
    ensures StillPlays(q, Apply(Labelled(q), LabelledEdit(q, e)))
  {
    if !Takes(q, e) {
      assert Apply(Labelled(q), LabelledEdit(q, e)) == Labelled(q);
    } else {
      match e
      case InsertNext(_) => InsertKeepsPlaying(q, e);
      case Append(_) => InsertKeepsPlaying(q, e);
      case Remove(p) => RemoveKeepsPlaying(q, p);
      case PlayNext(p) => PlayNextKeepsPlaying(q, p);
      case Move(a, b) => MoveKeepsPlaying(q, a, b);
      case _ => TailKeepsPlaying(q, e);
    }
  }

  /** So the playing track stays. */
  lemma EditKeepsPlayingTrack<T>(q: Queue<T>, e: Edit<T>)
    requires Valid(q) && Allowed(q, e) && q.tracks != []
    ensures var r := Apply(q, e); r.index < |r.tracks| && r.tracks[r.index] == q.tracks[q.index]
  {
    EditKeepsPlayingOccurrence(q, e);
    LabelsFollow(q, e);
    var r := Apply(Labelled(q), LabelledEdit(q, e));
    assert Stripped(r.tracks)[r.index] == r.tracks[r.index].0;
  }

  /** On an empty queue the inserted track becomes the current one. */
  lemma InsertIntoEmpty<T>(q: Queue<T>, t: T)
    requires Valid(q) && q.tracks == []
    ensures Apply(q, InsertNext(t)) == Apply(q, Append(t)) == Queue([t], 0)
  {
  }

  /** Moving keeps the others in their order: without the moved entry the lists are the same. */
  lemma MoveKeepsOthersInOrder<T>(q: Queue<T>, a: nat, b: nat)
    requires Valid(q) && a < |q.tracks| && b < |q.tracks| && a != b
    ensures var r := Apply(q, Move(a, b));
            && |r.tracks| == |q.tracks| && r.tracks[b] == q.tracks[a]
            && Without(r.tracks, b) == Without(q.tracks, a)
            && multiset(r.tracks) == multiset(q.tracks)
  {
    var r := Apply(q, Move(a, b)).tracks;
    WithWithout(Without(q.tracks, a), b, q.tracks[a]);
    MultisetWithout(q.tracks, a);
    MultisetWithout(r, b);
  }

  lemma WithWithout<T>(s: seq<T>, p: nat, t: T)
    requires p <= |s|
    ensures Without(With(s, p, t), p) == s && With(s, p, t)[p] == t
  {
  }

  lemma MultisetWithout<T>(s: seq<T>, p: nat)
    requires p < |s|
    ensures multiset(s) == multiset(Without(s, p)) + multiset{s[p]}
  {
    assert s == s[..p] + [s[p]] + s[p + 1..];
  }

  /** Moving there and back restores tracks and index. */
  lemma MoveBackRestores<T>(q: Queue<T>, a: nat, b: nat)
    requires Valid(q) && a < |q.tracks| && b < |q.tracks|
    ensures Valid(Apply(q, Move(a, b))) && Apply(Apply(q, Move(a, b)), Move(b, a)) == q
  {
    if a != b {
      var r := Apply(q, Move(a, b));
      WithWithout(Without(q.tracks, a), b, q.tracks[a]);
      assert With(Without(q.tracks, a), a, q.tracks[a]) == q.tracks;
    }
  }

  /** What the other edits do to the occurrences: playing next moves one entry up, removing
      takes out one occurrence, clearing keeps what was played, shuffling permutes the rest. */
  lemma EditsConserve<T>(q: Queue<T>, e: Edit<T>)
    requires Valid(q) && Allowed(q, e) && Takes(q, e)
    ensures var s, r := q.tracks, Apply(q, e).tracks;
            match e
            case InsertNext(t) => multiset(r) == multiset(s) + multiset{t}
            case Append(t) => r == s + [t]
            case Remove(p) => multiset(r) + multiset{s[p]} == multiset(s)
            case PlayNext(p) => Apply(q, e) == Apply(q, Move(p, q.index + 1)) && multiset(r) == multiset(s)
            case Move(_, _) => multiset(r) == multiset(s)
            case ClearUpcoming => r == s[..q.index + 1]
            case Shuffle(_) => r[..q.index + 1] == s[..q.index + 1] && multiset(r) == multiset(s)
  {
    match e
    case InsertNext(t) =>
      var p := if q.tracks == [] then 0 else q.index + 1;
      WithWithout(q.tracks, p, t);
      MultisetWithout(With(q.tracks, p, t), p);
    case Append(_) =>
    case Remove(p) => MultisetWithout(q.tracks, p);
    case PlayNext(p) => MoveKeepsOthersInOrder(q, p, q.index + 1);
    case Move(a, b) => MoveKeepsOthersInOrder(q, a, b);
    case ClearUpcoming =>
    case Shuffle(order) =>
      var rest := q.tracks[q.index + 1..];
      ReorderedConserves(rest, order);
      assert q.tracks == q.tracks[..q.index + 1] + rest;
  }

  lemma {:induction false} ReorderedConserves<T>(s: seq<T>, order: seq<nat>)
    requires IsOrder(order, |s|)
    ensures multiset(Reordered(s, order)) == multiset(s)
    decreases |s|
  {
    if s != [] {
      var n := |s| - 1;
      var p := FindLast(order, n);
      // bring the entry taken from the end of s to the end of the order
      var shorter := Without(order, p);
      DropLargest(order, p, n);
      ReorderedConserves(s[..n], shorter);
      var r := Reordered(s, order);
      assert Without(r, p) == Reordered(s[..n], shorter);
      MultisetWithout(r, p);
      assert s == s[..n] + [s[n]];
    }
  }

  /** A permutation of 0..n+1 takes the value n somewhere. */
  lemma FindLast(order: seq<nat>, n: nat) returns (p: nat)
    requires IsOrder(order, n + 1)
    ensures p < |order| && order[p] == n
  {
    if forall i :: 0 <= i < |order| ==> order[i] != n {
      Pigeonhole(order, n);
      assert false;
    }
    p :| 0 <= p < |order| && order[p] == n;
  }

  /** n + 1 distinct numbers do not fit below n. */
  lemma {:induction false} Pigeonhole(order: seq<nat>, n: nat)
    requires |order| == n + 1 && (forall i :: 0 <= i < |order| ==> order[i] < n)
    requires forall i, j :: 0 <= i < j < |order| ==> order[i] != order[j]
    ensures false
    decreases n
  {
    if n > 0 {
      if exists p :: 0 <= p < |order| && order[p] == n - 1 {
        var p :| 0 <= p < |order| && order[p] == n - 1;
        Pigeonhole(Without(order, p), n - 1);
      } else {
        Pigeonhole(order[..n], n - 1);
      }
    }
  }

  lemma DropLargest(order: seq<nat>, p: nat, n: nat)
    requires IsOrder(order, n + 1) && p < |order| && order[p] == n
    ensures IsOrder(Without(order, p), n)
  {
    var w := Without(order, p);
    forall i | 0 <= i < n ensures w[i] < n {
      var k := if i < p then i else i + 1;
      assert w[i] == order[k] && order[k] != order[p];
    }
  }
}
