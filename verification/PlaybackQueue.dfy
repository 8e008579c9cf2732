/** The playback queue as it is edited in place. */
module PlaybackQueueObjects {
  import opened Common
  import opened QueueModel

  class PlaybackQueue<T> {
    var tracks: seq<T>
    var index: nat

    ghost function Value(): Queue<T>
      reads this
    {
      Queue(tracks, index)
    }

    constructor ()
      ensures Value() == Queue([], 0)
    {
      tracks, index := [], 0;
    }

    method ReplaceAll(tracks: seq<T>, start: int)
      modifies this
      ensures Value() == Replace(tracks, start)
    {
      var selected: nat := 0;
      if 0 <= start < |tracks| { selected := start; }
      var lower := 0;
      if selected >= CAPACITY { lower := selected; }
      this.tracks := tracks[Min(lower, |tracks|)..];
      if |this.tracks| > CAPACITY { this.tracks := this.tracks[..CAPACITY]; }
      index := selected - lower;
    }

    method Append(track: T)
      requires Valid(Value())
      modifies this
      ensures Value() == Apply(old(Value()), Edit.Append(track))
    {
      if |tracks| < CAPACITY { tracks := tracks + [track]; }
    }

    method Insert(track: T, at: nat)
      requires at <= |tracks|
      modifies this`tracks
      ensures tracks == With(old(tracks), at, track)
    {
      tracks := tracks[..at] + [track] + tracks[at..];
    }

    method RemoveAt(at: nat) returns (track: T)
      requires at < |tracks|
      modifies this`tracks
      ensures tracks == Without(old(tracks), at) && track == old(tracks)[at]
    {
      track := tracks[at];
      tracks := tracks[..at] + tracks[at + 1..];
    }

    method InsertNext(track: T) returns (taken: bool)
      requires Valid(Value())
      modifies this
      ensures Value() == Apply(old(Value()), Edit.InsertNext(track))
      ensures taken == Takes(old(Value()), Edit.InsertNext(track))
    {
      if |tracks| >= CAPACITY { return false; }
      Insert(track, if |tracks| == 0 then 0 else index + 1);
      return true;
    }

    method Remove(position: int) returns (taken: bool)
      requires Valid(Value())
      modifies this
      ensures Value() == Apply(old(Value()), Edit.Remove(position))
      ensures taken == Takes(old(Value()), Edit.Remove(position))
    {
      if !(0 <= position < |tracks|) || position == index { return false; }
      var _ := RemoveAt(position);
      if position < index { index := index - 1; }
      return true;
    }

    method PlayNext(position: int) returns (taken: bool)
      requires Valid(Value())
      modifies this
      ensures Value() == Apply(old(Value()), Edit.PlayNext(position))
      ensures taken == Takes(old(Value()), Edit.PlayNext(position))
    {
      if !(position > index + 1 && 0 <= position < |tracks|) { return false; }
      var track := RemoveAt(position);
      Insert(track, index + 1);
      return true;
    }

    method Move(source: int, destination: int) returns (taken: bool)
      requires Valid(Value())
      modifies this
      ensures Value() == Apply(old(Value()), Edit.Move(source, destination))
      ensures taken == Takes(old(Value()), Edit.Move(source, destination))
    {
      if !(0 <= source < |tracks|) || !(0 <= destination < |tracks|) || source == destination { return false; }
      var track := RemoveAt(source);
      Insert(track, destination);
      if source == index { index := destination; }
      else if source < index && destination >= index { index := index - 1; }
      else if source > index && destination <= index { index := index + 1; }
      return true;
    }

    method ClearUpcoming() returns (taken: bool)
      requires Valid(Value())
      modifies this
      ensures Value() == Apply(old(Value()), Edit.ClearUpcoming)
      ensures taken == Takes(old(Value()), Edit.ClearUpcoming)
    {
      if index + 1 >= |tracks| { return false; }
      tracks := tracks[..index + 1];
      return true;
    }

    method Next(repeatAll: bool) returns (moved: bool)
      modifies this
      ensures Value() == Advance(old(Value()), repeatAll) && moved == CanAdvance(old(Value()), repeatAll)
    {
      if index + 1 < |tracks| { index := index + 1; return true; }
      if repeatAll && |tracks| != 0 { index := 0; return true; }
      return false;
    }

    method Previous()
      modifies this
      ensures Value() == Back(old(Value()))
    {
      index := Max(0, index - 1);
    }

    method SelectAt(i: int)
      modifies this
      ensures Value() == Select(old(Value()), i)
    {
      if 0 <= i < |tracks| { index := i; }
    }

    /** `order` is what the random source chose. */
    method ShuffleUpcoming(order: seq<nat>)
      requires Valid(Value()) && Allowed(Value(), Shuffle(order))
      modifies this
      ensures Value() == Apply(old(Value()), Shuffle(order))
    {
      if index + 1 < |tracks| {
        tracks := tracks[..index + 1] + Reordered(tracks[index + 1..], order);
      }
    }

    /** The call an edit stands for. */
    method Handle(e: Edit<T>)
      requires Valid(Value()) && Allowed(Value(), e)
      modifies this
      ensures Value() == Apply(old(Value()), e)
    {
      match e
      case InsertNext(track) => var _ := InsertNext(track);
      case Append(track) => Append(track);
      case Remove(position) => var _ := Remove(position);
      case PlayNext(position) => var _ := PlayNext(position);
      case Move(source, destination) => var _ := Move(source, destination);
      case ClearUpcoming => var _ := ClearUpcoming();
      case Shuffle(order) => ShuffleUpcoming(order);
    }

    /** Any sequence of edits keeps a valid queue of at most 500 tracks and the track that plays. An
        order that is no permutation of the upcoming entries is never drawn. */
    method HandleAll(es: seq<Edit<T>>)
      requires Valid(Value()) && tracks != []
      modifies this
      ensures Valid(Value()) && tracks != [] && tracks[index] == old(tracks[index])
    {
      for i := 0 to |es|
        invariant Valid(Value()) && tracks != [] && tracks[index] == old(tracks[index])
      {
        if Allowed(Queue(tracks, index), es[i]) {
          ApplyIsValid(Value(), es[i]);
          EditKeepsPlayingTrack(Value(), es[i]);
          Handle(es[i]);
        }
      }
    }
  }
}
