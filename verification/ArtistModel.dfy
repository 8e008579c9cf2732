/** Artist identity: which rows may denote the same artist, which row wins a merge, and the
    guard that a manual merge has to pass. */
module ArtistModel {
  import opened Common

  /** `legacy` is the source kind of a name-derived row. */
  datatype Candidate = Candidate(
    id: string,
    provider: string,
    sourceID: string,
    legacy: bool,
    imageURL: string,
    createdAt: int,
    releases: int,
    tracks: int,
    hasSub: bool)

  datatype Level = Ambiguous | StrongCandidate | SubscriptionProven | ExactSource

  const ARTIST_PREFIX: string := "artist:"

  // ---- text ----

  predicate IsSpace(c: char) {
    '\t' <= c <= '\r' || c == ' ' || c == '\U{85}' || c == '\U{A0}' || c == '\U{1680}' || '\U{2000}' <= c <= '\U{200A}'
    || c == '\U{2028}' || c == '\U{2029}' || c == '\U{202F}' || c == '\U{205F}' || c == '\U{3000}'
  }

  function TrimLeft(s: string): string {
    if s != "" && IsSpace(s[0]) then TrimLeft(s[1..]) else s
  }

  function TrimRight(s: string): string {
    if s != "" && IsSpace(s[|s| - 1]) then TrimRight(s[..|s| - 1]) else s
  }

  function Trim(s: string): string { TrimRight(TrimLeft(s)) }

  predicate Blank(s: string) { forall i :: 0 <= i < |s| ==> IsSpace(s[i]) }

  lemma {:induction false} TrimmedLeft(s: string) returns (a: string)
    ensures s == a + TrimLeft(s) && Blank(a) && (TrimLeft(s) != "" ==> !IsSpace(TrimLeft(s)[0]))
  {
    a := "";
    if s != "" && IsSpace(s[0]) {
      a := TrimmedLeft(s[1..]);
      a := [s[0]] + a;
      assert s == [s[0]] + s[1..];
    }
  }

  lemma {:induction false} TrimmedRight(s: string) returns (b: string)
    ensures s == TrimRight(s) + b && Blank(b) && (TrimRight(s) != "" ==> !IsSpace(TrimRight(s)[|TrimRight(s)| - 1]))
  {
    b := "";
    if s != "" && IsSpace(s[|s| - 1]) {
      b := TrimmedRight(s[..|s| - 1]);
      b := b + [s[|s| - 1]];
      assert s == s[..|s| - 1] + [s[|s| - 1]];
    }
  }

  /** Trimming takes off blanks at both ends, all of them and nothing else. */
  lemma TrimExactly(s: string) returns (a: string, b: string)
    ensures s == a + Trim(s) + b && Blank(a) && Blank(b)
    ensures Trim(s) != "" ==> !IsSpace(Trim(s)[0]) && !IsSpace(Trim(s)[|Trim(s)| - 1])
  {
    a := TrimmedLeft(s);
    b := TrimmedRight(TrimLeft(s));
    if Trim(s) != "" { assert TrimLeft(s)[0] == Trim(s)[0]; }
  }

  /** Order of text by code point. */
  predicate Less(s: string, t: string) {
    t != "" && (s == "" || s[0] < t[0] || (s[0] == t[0] && Less(s[1..], t[1..])))
  }

  lemma {:induction false} LessTransitive(s: string, t: string, u: string)
    requires Less(s, t) && Less(t, u)
    ensures Less(s, u)
  {
    if s != "" && s[0] == t[0] && t[0] == u[0] { LessTransitive(s[1..], t[1..], u[1..]); }
  }

  lemma {:induction false} LessTotal(s: string, t: string)
    ensures !(Less(s, t) && Less(t, s))
    ensures s == t <==> !Less(s, t) && !Less(t, s)
  {
    if s != "" && t != "" {
      LessTotal(s[1..], t[1..]);
      assert s == [s[0]] + s[1..] && t == [t[0]] + t[1..];
    }
  }

  /** At position k the first text has the smaller character, after a common beginning. */
  predicate SmallerAt(s: string, t: string, k: nat) { k < |s| && k < |t| && s[..k] == t[..k] && s[k] < t[k] }

  /** The first difference decides, and a text comes before every longer one it begins. */
  lemma {:induction false} LessExactly(s: string, t: string)
    ensures Less(s, t) <==> (s <= t && s != t) || exists k: nat :: SmallerAt(s, t, k)
  {
    if s != "" && t != "" {
      assert s == [s[0]] + s[1..] && t == [t[0]] + t[1..];
      if s[0] == t[0] {
        LessExactly(s[1..], t[1..]);
        if k: nat :| SmallerAt(s, t, k) {
          assert k != 0;
          TailsAgree(s, t, k);
          assert SmallerAt(s[1..], t[1..], k - 1);
        }
        if k: nat :| SmallerAt(s[1..], t[1..], k) { TailsAgree(s, t, k + 1); assert SmallerAt(s, t, k + 1); }
      } else if s[0] < t[0] {
        assert SmallerAt(s, t, 0);
      } else {
        forall k: nat | k < |s| && k < |t| ensures !SmallerAt(s, t, k) { HeadsDiffer(s, t, k); }
      }
    }
  }

  lemma HeadsDiffer(s: string, t: string, k: nat)
    requires s != "" && t != "" && s[0] > t[0] && k < |s| && k < |t|
    ensures !SmallerAt(s, t, k)
  {
    if k > 0 { assert s[..k][0] == s[0] && t[..k][0] == t[0]; }
  }

  lemma TailsAgree(s: string, t: string, k: nat)
    requires s != "" && t != "" && s[0] == t[0] && 0 < k < |s| && k < |t|
    ensures s[..k] == t[..k] <==> s[1..][..k - 1] == t[1..][..k - 1]
  {
    assert s[..k] == [s[0]] + s[1..][..k - 1] && t[..k] == [t[0]] + t[1..][..k - 1];
    assert s[1..][..k - 1] == s[..k][1..] && t[1..][..k - 1] == t[..k][1..];
  }

  // ---- identity rules ----

  predicate SyntheticSourceID(sourceID: string) {
    Trim(sourceID) == "" || ARTIST_PREFIX <= Trim(sourceID)
  }

  predicate IsSynthetic(c: Candidate) { c.legacy || SyntheticSourceID(c.sourceID) }

  function Classify(a: Candidate, b: Candidate): Level {
    if a.id != "" && a.id == b.id then ExactSource
    else if a.provider != "" && a.provider == b.provider && !IsSynthetic(a) && !IsSynthetic(b) then
      (if a.sourceID == b.sourceID then ExactSource else Ambiguous)
    else if a.provider != b.provider && !IsSynthetic(a) && !IsSynthetic(b) then Ambiguous
    else if a.provider == b.provider && IsSynthetic(a) != IsSynthetic(b) then
      (if a.hasSub || b.hasSub then SubscriptionProven else StrongCandidate)
    else if a.provider == b.provider && IsSynthetic(a) && IsSynthetic(b) && a.sourceID != "" && a.sourceID == b.sourceID then
      (if a.hasSub || b.hasSub then SubscriptionProven else StrongCandidate)
    else Ambiguous
  }

  function TotalItems(c: Candidate): int { c.releases + c.tracks }

  predicate HasImage(c: Candidate) { Trim(c.imageURL) != "" }

  predicate Better(a: Candidate, b: Candidate) {
    if a.hasSub != b.hasSub then a.hasSub
    else if IsSynthetic(a) != IsSynthetic(b) then !IsSynthetic(a)
    else if HasImage(a) != HasImage(b) then HasImage(a)
    else if TotalItems(a) != TotalItems(b) then TotalItems(a) > TotalItems(b)
    else if a.createdAt != b.createdAt then a.createdAt < b.createdAt
    else Less(a.id, b.id)
  }

  lemma BetterTransitive(a: Candidate, b: Candidate, c: Candidate)
    requires Better(a, b) && Better(b, c)
    ensures Better(a, c)
  {
    if Less(a.id, b.id) && Less(b.id, c.id) { LessTransitive(a.id, b.id, c.id); }
  }

  /** On candidates with distinct ids exactly one of two is better, and none is better than itself. */
  lemma BetterTotal(a: Candidate, b: Candidate)
    ensures !(Better(a, b) && Better(b, a))
    ensures a.id != b.id ==> Better(a, b) || Better(b, a)
  {
    LessTotal(a.id, b.id);
  }

  lemma ClassifySymmetric(a: Candidate, b: Candidate)
    ensures Classify(a, b) == Classify(b, a)
  {
  }

  /** Two rows are the same artist by source if they are one row, or real rows of one named provider with one source id. Beyond
      that only rows of one provider may be related, and only through a name-derived one: beside a real row, or
      beside another with the same source id; a subscription on either side makes that proven. Everything else,
      two different real rows in particular, is ambiguous. */
  lemma ClassifyExactly(a: Candidate, b: Candidate)
    ensures var exact := a.id == b.id != "" || (a.provider == b.provider != "" && !IsSynthetic(a) && !IsSynthetic(b) && a.sourceID == b.sourceID);
            var related := a.provider == b.provider && (IsSynthetic(a) || IsSynthetic(b))
                           && (IsSynthetic(a) && IsSynthetic(b) ==> a.sourceID == b.sourceID != "");
            && (Classify(a, b).ExactSource? <==> exact)
            && (Classify(a, b).SubscriptionProven? <==> !exact && related && (a.hasSub || b.hasSub))
            && (Classify(a, b).StrongCandidate? <==> !exact && related && !a.hasSub && !b.hasSub)
  {
  }

  // ---- the winner ----

  ghost predicate DistinctIds(cs: seq<Candidate>) {
    forall i, j :: 0 <= i < j < |cs| ==> cs[i].id != cs[j].id
  }

  /** The position of the winner among the first n candidates. */
  function WinnerIndex(cs: seq<Candidate>, n: nat): (w: nat)
    requires 0 < n <= |cs|
    ensures w < n
  {
    if n == 1 then 0
    else
      var w := WinnerIndex(cs, n - 1);
      if Better(cs[n - 1], cs[w]) then n - 1 else w
  }

  lemma {:induction false} WinnerIsUnbeaten(cs: seq<Candidate>, n: nat, j: nat)
    requires j < n <= |cs|
    ensures !Better(cs[j], cs[WinnerIndex(cs, n)])
  {
    BetterTotal(cs[j], cs[j]);
    if n > 1 {
      var w := WinnerIndex(cs, n - 1);
      if j < n - 1 {
        WinnerIsUnbeaten(cs, n - 1, j);
        if Better(cs[n - 1], cs[w]) && Better(cs[j], cs[n - 1]) { BetterTransitive(cs[j], cs[n - 1], cs[w]); }
      }
    }
  }

  function Winner(cs: seq<Candidate>): Candidate
    requires cs != []
  {
    cs[WinnerIndex(cs, |cs|)]
  }

  /** The winner beats every other candidate. */
  lemma WinnerBeatsAll(cs: seq<Candidate>, j: nat)
    requires DistinctIds(cs) && j < |cs| && j != WinnerIndex(cs, |cs|)
    ensures Better(Winner(cs), cs[j])
  {
    WinnerIsUnbeaten(cs, |cs|, j);
    BetterTotal(Winner(cs), cs[j]);
  }

  /** The winner has a subscription if any candidate has one; is real if any candidate is that agrees with it so far; has artwork if
      any of those has; and of those no other has more items, or as many and is older, or is as old with a smaller id. */
  lemma WinnerIsPreferred(cs: seq<Candidate>, c: Candidate)
    requires c in cs
    ensures var w := Winner(cs);
            && (c.hasSub ==> w.hasSub)
            && (c.hasSub == w.hasSub ==>
                  && (!IsSynthetic(c) ==> !IsSynthetic(w))
                  && (IsSynthetic(c) == IsSynthetic(w) ==>
                        && (Trim(c.imageURL) != "" ==> Trim(w.imageURL) != "")
                        && ((Trim(c.imageURL) != "") == (Trim(w.imageURL) != "") ==>
                              && c.releases + c.tracks <= w.releases + w.tracks
                              && (c.releases + c.tracks == w.releases + w.tracks ==>
                                    w.createdAt <= c.createdAt && (w.createdAt == c.createdAt ==> !Less(c.id, w.id))))))
  {
    OthersUnbeaten(cs, c);
  }

  /** The same candidates in any order have the same winner. */
  lemma WinnerIgnoresOrder(cs: seq<Candidate>, ds: seq<Candidate>)
    requires cs != [] && DistinctIds(cs) && multiset(cs) == multiset(ds)
    ensures ds != [] && Winner(cs) == Winner(ds)
  {
    assert cs[0] in multiset(cs);
    assert cs[0] in multiset(ds);
    var x, y := Winner(cs), Winner(ds);
    assert x in multiset(cs) && y in multiset(ds);
    assert x in multiset(ds) && y in multiset(cs);
    var i :| 0 <= i < |ds| && ds[i] == x;
    var j :| 0 <= j < |cs| && cs[j] == y;
    WinnerIsUnbeaten(ds, |ds|, i);
    WinnerIsUnbeaten(cs, |cs|, j);
    BetterTotal(x, y);
  }

  lemma TakenOut(cs: seq<Candidate>, w: nat)
    requires w < |cs|
    ensures multiset(cs) == multiset(cs[..w] + cs[w + 1..]) + multiset{cs[w]}
  {
    assert cs == cs[..w] + [cs[w]] + cs[w + 1..];
  }

  lemma OthersUnbeaten(cs: seq<Candidate>, d: Candidate)
    requires d in cs
    ensures !Better(d, Winner(cs))
  {
    var j :| 0 <= j < |cs| && cs[j] == d;
    WinnerIsUnbeaten(cs, |cs|, j);
  }

  datatype Choice = Choice(winner: Candidate, duplicates: seq<Candidate>)

  method Others(candidates: seq<Candidate>, winnerIdx: nat) returns (duplicates: seq<Candidate>)
    requires winnerIdx < |candidates|
    ensures duplicates == candidates[..winnerIdx] + candidates[winnerIdx + 1..]
  {
    duplicates := [];
    for i := 0 to |candidates|
      invariant duplicates == if i <= winnerIdx then candidates[..i] else candidates[..winnerIdx] + candidates[winnerIdx + 1..i]
    {
      if i != winnerIdx { duplicates := duplicates + [candidates[i]]; }
    }
  }

  /** The winner is taken out; the others keep their order. */
  method ChooseWinner(candidates: seq<Candidate>) returns (r: Option<Choice>)
    ensures r.None? <==> |candidates| <= 1
    ensures r.Some? ==>
              var w := WinnerIndex(candidates, |candidates|);
              r.value == Choice(candidates[w], candidates[..w] + candidates[w + 1..])
    ensures r.Some? ==> forall d :: d in r.value.duplicates ==> !Better(d, r.value.winner)
    ensures r.Some? ==> multiset(candidates) == multiset(r.value.duplicates) + multiset{r.value.winner}
  {
    if |candidates| <= 1 { return None; }
    var winnerIdx := 0;
    for i := 1 to |candidates|
      invariant winnerIdx == WinnerIndex(candidates, i)
    {
      if Better(candidates[i], candidates[winnerIdx]) { winnerIdx := i; }
    }
    var duplicates := Others(candidates, winnerIdx);
    TakenOut(candidates, winnerIdx);
    forall d | d in duplicates ensures !Better(d, candidates[winnerIdx]) { OthersUnbeaten(candidates, d); }
    return Some(Choice(candidates[winnerIdx], duplicates));
  }
}
