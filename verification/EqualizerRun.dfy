/** Publishing and refreshing at the same time. The main thread stores the low word and then
    the high word; the render thread loads the low word and then the high word. */
module EqualizerRun {
  import opened Common
  import opened EqualizerModel

  /** `published` lists every setting handed to publish; `low` and `high` index the setting
      each shared word belongs to, `loaded` the one of a low word just read, and `seenLow`
      and `seenHigh` the words of the last completed refresh. */
  datatype Shared = Shared(
    published: seq<Settings>,
    low: nat,
    high: nat,
    loaded: Option<nat>,
    seenLow: nat,
    seenHigh: nat)

  datatype Event = StoreLow(settings: Settings) | StoreHigh | LoadLow | LoadHigh

  function New(s: Settings): Shared { Shared([s], 0, 0, None, 0, 0) }

  /** The main thread finishes one publish before it starts the next. */
  predicate Enabled(s: Shared, e: Event) {
    match e
    case StoreLow(_) => s.high == s.low
    case StoreHigh => s.high < s.low
    case LoadLow => s.loaded.None?
    case LoadHigh => s.loaded.Some?
  }

  function Step(s: Shared, e: Event): Shared {
    if !Enabled(s, e) then s
    else
      match e
      case StoreLow(x) => s.(published := s.published + [x], low := |s.published|)
      case StoreHigh => s.(high := s.low)
      case LoadLow => s.(loaded := Some(s.low))
      case LoadHigh => s.(seenLow := s.loaded.value, seenHigh := s.high, loaded := None)
  }

  function Run(s: Shared, es: seq<Event>): Shared
    decreases |es|
  {
    if es == [] then s else Step(Run(s, es[..|es| - 1]), es[|es| - 1])
  }

  ghost predicate Inv(s: Shared) {
    && s.low + 1 == |s.published| && s.high <= s.low <= s.high + 1
    && (s.loaded.Some? ==> s.loaded.value <= s.high + 1 && s.loaded.value <= s.low)
    && s.seenLow <= s.low && s.seenHigh <= s.high && s.seenLow <= s.seenHigh + 1
  }

  lemma {:induction false} RunInv(s: Settings, es: seq<Event>)
    ensures Inv(Run(New(s), es))
    decreases |es|
  {
    if es != [] { RunInv(s, es[..|es| - 1]); }
  }

  /** What the last refresh decoded. */
  ghost function View(s: Shared): Decoded
    requires s.seenLow < |s.published| && s.seenHigh < |s.published|
  {
    Decode(LowWord(s.published[s.seenLow]), HighWord(s.published[s.seenHigh]))
  }

  /** In every interleaving each decoded field comes from a published setting: bands 0 to 7
      from one, bands 8 and 9, preamp and flags from one that is at most one older. */
  lemma EveryFieldWasPublished(s: Settings, es: seq<Event>)
    ensures var r := Run(New(s), es);
            && r.seenLow < |r.published| && r.seenHigh < |r.published| && r.seenLow <= r.seenHigh + 1
            && View(r) == Mixed(Quantised(r.published[r.seenLow]), Quantised(r.published[r.seenHigh]))
  {
    RunInv(s, es);
    var r := Run(New(s), es);
    TornReadIsMixed(r.published[r.seenLow], r.published[r.seenHigh]);
  }

  /** A refresh that no store interrupts, after the last publish is complete, decodes exactly
      the last setting. */
  lemma QuietRefreshIsCurrent(s: Settings, es: seq<Event>)
    requires var r := Run(New(s), es); r.loaded.None? && r.high == r.low
    ensures var r := Run(New(s), es);
            var t := Step(Step(r, LoadLow), LoadHigh);
            t.seenLow == t.seenHigh == r.low < |t.published| && View(t) == Quantised(r.published[|r.published| - 1])
  {
    RunInv(s, es);
    var r := Run(New(s), es);
    DecodeOfPublish(r.published[r.low]);
  }

  /** A refresh between the two stores of a publish is torn: it sees the lower eight bands of the new setting and everything else of
      the one before. */
  lemma RefreshBetweenStoresIsTorn(s: Settings, es: seq<Event>, x: Settings)
    requires var r := Run(New(s), es); r.loaded.None? && r.high == r.low
    ensures var r := Run(New(s), es);
            var t := Step(Step(Step(r, StoreLow(x)), LoadLow), LoadHigh);
            && t.seenLow < |t.published| && t.seenHigh < |t.published| && r.published != []
            && View(t) == Mixed(Quantised(x), Quantised(r.published[|r.published| - 1]))
  {
    RunInv(s, es);
    var r := Run(New(s), es);
    TornReadIsMixed(x, r.published[|r.published| - 1]);
  }

  /** What the render thread sees never goes back to an older setting. */
  lemma ViewOnlyMovesForward(s: Settings, es: seq<Event>, e: Event)
    ensures var r := Run(New(s), es);
            && r.seenHigh <= Step(r, e).seenHigh
            && Step(r, e).published[..|r.published|] == r.published
  {
    RunInv(s, es);
  }
}
