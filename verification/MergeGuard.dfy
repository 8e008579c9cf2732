/** The checks before a manual merge of artist rows. */
module MergeGuard {
  import opened Common
  import opened ArtistModel

  // ---- duplicate ids on the command line ----

  /** The distinct non-empty ids in order of first mention. */
  function Kept(raws: seq<string>): seq<string> {
    if raws == [] then []
    else
      var kept, d := Kept(raws[..|raws| - 1]), Trim(raws[|raws| - 1]);
      if d == "" || d in kept then kept else kept + [d]
  }

  ghost predicate Distinct(s: seq<string>) { forall i, j :: 0 <= i < j < |s| ==> s[i] != s[j] }

  /** The ids written on the command line. */
  function Named(raws: seq<string>): set<string> { set i | 0 <= i < |raws| :: Trim(raws[i]) }

  lemma NamedGrows(raws: seq<string>)
    requires raws != []
    ensures var n := |raws| - 1; Named(raws) == Named(raws[..n]) + {Trim(raws[n])}
  {
    var n := |raws| - 1;
    forall i | 0 <= i < |raws| ensures Trim(raws[i]) in Named(raws[..n]) + {Trim(raws[n])} {
      if i < n { assert raws[..n][i] == raws[i]; }
    }
    forall i | 0 <= i < n ensures Trim(raws[..n][i]) in Named(raws) { assert raws[..n][i] == raws[i]; }
    assert Trim(raws[n]) in Named(raws);
  }

  /** The kept ids are distinct and exactly the non-empty ones named. */
  lemma {:induction false} KeptExactly(raws: seq<string>)
    ensures Distinct(Kept(raws))
    ensures forall d :: d in Kept(raws) <==> d in Named(raws) && d != ""
  {
    if raws != [] {
      KeptExactly(raws[..|raws| - 1]);
      NamedGrows(raws);
    }
  }

  /** None when the canonical artist is named among its own duplicates. */
  method CollectDuplicates(canonicalID: string, raws: seq<string>) returns (r: Option<seq<string>>)
    ensures r.None? <==> exists i :: 0 <= i < |raws| && Trim(raws[i]) != "" && Trim(raws[i]) == canonicalID
    ensures r.Some? ==> r.value == Kept(raws) && canonicalID !in r.value
  {
    var seen: set<string> := {};
    var ids := [];
    for i := 0 to |raws|
      invariant ids == Kept(raws[..i]) && canonicalID !in ids
      invariant forall d :: d in seen <==> d in ids
      invariant forall k :: 0 <= k < i ==> Trim(raws[k]) == "" || Trim(raws[k]) != canonicalID
    {
      assert raws[..i + 1][..i] == raws[..i];
      var d := Trim(raws[i]);
      if d == "" { continue; }
      if d == canonicalID { return None; }
      if d !in seen {
        seen := seen + {d};
        ids := ids + [d];
      }
    }
    assert raws[..|raws|] == raws;
    return Some(ids);
  }

  // ---- the two safety checks ----

  /** The guard's own notion of a name-derived row: it does not trim before looking for the prefix. */
  predicate RowSynthetic(c: Candidate) { ARTIST_PREFIX <= c.sourceID || Trim(c.sourceID) == "" }

  predicate Conflict(a: Candidate, b: Candidate) {
    !RowSynthetic(a) && !RowSynthetic(b) && a.provider == b.provider && a.sourceID != b.sourceID
  }

  /** No two members have different real source ids on one provider. */
  ghost predicate Safe(members: seq<Candidate>) {
    forall i, j :: 0 <= i < |members| && 0 <= j < |members| ==> !Conflict(members[i], members[j])
  }

  /** First check: no duplicate conflicts with the canonical row. */
  method CheckCanonical(canonical: Candidate, dups: seq<Candidate>) returns (accepted: bool)
    ensures accepted <==> forall i :: 0 <= i < |dups| ==> !Conflict(canonical, dups[i])
  {
    for i := 0 to |dups|
      invariant forall k :: 0 <= k < i ==> !Conflict(canonical, dups[k])
    {
      if !RowSynthetic(canonical) && !RowSynthetic(dups[i]) && canonical.provider == dups[i].provider
         && canonical.sourceID != dups[i].sourceID { return false; }
    }
    return true;
  }

  /** The real source ids of the rows seen so far, for each provider. */
  ghost predicate Recorded(seen: map<string, map<string, string>>, dups: seq<Candidate>, n: nat)
    requires n <= |dups|
  {
    && (forall k :: 0 <= k < n && !RowSynthetic(dups[k]) ==>
          dups[k].provider in seen && dups[k].sourceID in seen[dups[k].provider])
    && (forall p, s :: p in seen && s in seen[p] ==>
          exists k :: 0 <= k < n && !RowSynthetic(dups[k]) && dups[k].provider == p && dups[k].sourceID == s)
  }

  method OnlySource(sources: map<string, string>, sourceID: string) returns (only: bool)
    ensures only <==> forall s :: s in sources ==> s == sourceID
  {
    var left := sources.Keys;
    while left != {}
      invariant left <= sources.Keys
      invariant forall s :: s in sources && s !in left ==> s == sourceID
      decreases left
    {
      var s :| s in left;
      if s != sourceID { return false; }
      left := left - {s};
    }
    return true;
  }

  /** A row fits those seen before it exactly when its provider has no other real source yet. */
  lemma FitsExactly(seen: map<string, map<string, string>>, dups: seq<Candidate>, i: nat)
    requires i < |dups| && Recorded(seen, dups, i) && !RowSynthetic(dups[i])
    ensures var p := dups[i].provider;
            (p in seen ==> forall s :: s in seen[p] ==> s == dups[i].sourceID)
            <==> forall k :: 0 <= k < i ==> !Conflict(dups[k], dups[i])
  {
    var p := dups[i].provider;
    if p in seen {
      forall s | s in seen[p] && s != dups[i].sourceID ensures exists k :: 0 <= k < i && Conflict(dups[k], dups[i]) {
        var k :| 0 <= k < i && !RowSynthetic(dups[k]) && dups[k].provider == p && dups[k].sourceID == s;
        assert Conflict(dups[k], dups[i]);
      }
    }
  }

  /** Second check: no two duplicates conflict. */
  method CheckDuplicates(dups: seq<Candidate>) returns (accepted: bool)
    ensures accepted <==> Safe(dups)
  {
    var seen: map<string, map<string, string>> := map[];
    for i := 0 to |dups|
      invariant Recorded(seen, dups, i) && Safe(dups[..i])
    {
      var d := dups[i];
      if !RowSynthetic(d) {
        var sources := if d.provider in seen then seen[d.provider] else map[];
        FitsExactly(seen, dups, i);
        var only := OnlySource(sources, d.sourceID);
        if !only { return false; }
        RecordedExtends(seen, dups, i, sources);
        seen := seen[d.provider := sources[d.sourceID := d.id]];
      }
      SafeExtends(dups, i);
    }
    assert dups[..|dups|] == dups;
    return true;
  }

  lemma SafeExtends(dups: seq<Candidate>, i: nat)
    requires i < |dups| && Safe(dups[..i])
    requires forall k :: 0 <= k < i ==> !Conflict(dups[k], dups[i])
    ensures Safe(dups[..i + 1])
  {
    var t := dups[..i + 1];
    forall a, b | 0 <= a < |t| && 0 <= b < |t| ensures !Conflict(t[a], t[b]) {
      if a < i && b < i { assert !Conflict(dups[..i][a], dups[..i][b]); }
      else if a < i { assert !Conflict(dups[a], dups[i]); }
      else if b < i { assert !Conflict(dups[b], dups[i]); }
    }
  }

  lemma RecordedExtends(seen: map<string, map<string, string>>, dups: seq<Candidate>, i: nat, sources: map<string, string>)
    requires i < |dups| && Recorded(seen, dups, i) && !RowSynthetic(dups[i])
    requires sources == if dups[i].provider in seen then seen[dups[i].provider] else map[]
    ensures Recorded(seen[dups[i].provider := sources[dups[i].sourceID := dups[i].id]], dups, i + 1)
  {
    var d := dups[i];
    var t := seen[d.provider := sources[d.sourceID := d.id]];
    forall p, s | p in t && s in t[p]
      ensures exists k :: 0 <= k < i + 1 && !RowSynthetic(dups[k]) && dups[k].provider == p && dups[k].sourceID == s
    {
      if p in seen && s in seen[p] {
        var k :| 0 <= k < i && !RowSynthetic(dups[k]) && dups[k].provider == p && dups[k].sourceID == s;
      } else {
        assert p == d.provider && s == d.sourceID;
      }
    }
  }

  lemma SafeGroup(canonical: Candidate, dups: seq<Candidate>)
    ensures Safe([canonical] + dups) <==>
            (forall i :: 0 <= i < |dups| ==> !Conflict(canonical, dups[i])) && Safe(dups)
  {
    var m := [canonical] + dups;
    if Safe(m) {
      forall i | 0 <= i < |dups| ensures !Conflict(canonical, dups[i]) { assert !Conflict(m[0], m[i + 1]); }
      forall i, j | 0 <= i < |dups| && 0 <= j < |dups| ensures !Conflict(dups[i], dups[j]) {
        assert !Conflict(m[i + 1], m[j + 1]);
      }
    }
  }

  /** The guard accepts exactly the groups in which no two members have different real source
      ids on one provider. */
  method Guard(canonical: Candidate, dups: seq<Candidate>) returns (accepted: bool)
    ensures accepted <==> Safe([canonical] + dups)
  {
    SafeGroup(canonical, dups);
    var first := CheckCanonical(canonical, dups);
    if !first { return false; }
    accepted := CheckDuplicates(dups);
  }

  // ---- guard and resolver ----

  lemma {:induction false} TrimKeepsHead(s: string)
    requires s != "" && !IsSpace(s[0])
    ensures TrimRight(s) != "" && TrimRight(s) <= s
  {
    if IsSpace(s[|s| - 1]) { TrimKeepsHead(s[..|s| - 1]); }
  }

  lemma {:induction false} TrimRightKeepsPrefix(s: string, prefix: string)
    requires prefix <= s && prefix != "" && !IsSpace(prefix[|prefix| - 1])
    ensures prefix <= TrimRight(s)
  {
    if IsSpace(s[|s| - 1]) {
      assert |s| > |prefix|;
      TrimRightKeepsPrefix(s[..|s| - 1], prefix);
    }
  }

  /** The guard takes every row for real that the resolver takes for real. */
  lemma GuardIsStricter(c: Candidate)
    requires RowSynthetic(c)
    ensures IsSynthetic(c)
  {
    if ARTIST_PREFIX <= c.sourceID {
      assert c.sourceID[0] == 'a';
      TrimRightKeepsPrefix(c.sourceID, ARTIST_PREFIX);
    }
  }

  /** The prefix stands behind white space. */
  predicate Disguised(sourceID: string) { !(ARTIST_PREFIX <= sourceID) && ARTIST_PREFIX <= TrimLeft(sourceID) }

  lemma {:induction false} TrimRightIsPrefix(s: string)
    ensures TrimRight(s) <= s
  {
    if s != "" && IsSpace(s[|s| - 1]) { TrimRightIsPrefix(s[..|s| - 1]); }
  }

  lemma TrimKeepsPrefixExactly(s: string)
    ensures ARTIST_PREFIX <= Trim(s) <==> ARTIST_PREFIX <= TrimLeft(s)
  {
    TrimRightIsPrefix(TrimLeft(s));
    if ARTIST_PREFIX <= TrimLeft(s) { TrimRightKeepsPrefix(TrimLeft(s), ARTIST_PREFIX); }
  }

  lemma {:induction false} TrimBlankExactly(s: string)
    ensures Trim(s) == "" <==> Blank(s)
  {
    var a, b := TrimExactly(s);
    if Trim(s) == "" {
      assert s == a + b;
    } else {
      assert s[|a|] == Trim(s)[0];
    }
  }

  /** A row is name-derived if its source marked it so, or if its id is blank or begins with the prefix behind any white space. */
  lemma SyntheticExactly(c: Candidate)
    ensures IsSynthetic(c) <==> c.legacy || Blank(c.sourceID) || "artist:" <= TrimLeft(c.sourceID)
  {
    TrimBlankExactly(c.sourceID);
    TrimKeepsPrefixExactly(c.sourceID);
  }

  lemma PrefixIsNotTrimmed(s: string)
    requires ARTIST_PREFIX <= s
    ensures TrimLeft(s) == s && Trim(s) != ""
  {
    assert s[0] == 'a';
    TrimRightKeepsPrefix(s, ARTIST_PREFIX);
  }

  /** A row the source did not mark as name-derived is name-derived for the resolver and real for
      the guard exactly when white space stands before the prefix of its id. */
  lemma NotionsDifferExactly(c: Candidate)
    requires !c.legacy
    ensures IsSynthetic(c) && !RowSynthetic(c) <==> Disguised(c.sourceID)
  {
    TrimKeepsPrefixExactly(c.sourceID);
    if Disguised(c.sourceID) { TrimRightKeepsPrefix(TrimLeft(c.sourceID), ARTIST_PREFIX); }
    if ARTIST_PREFIX <= c.sourceID { PrefixIsNotTrimmed(c.sourceID); }
  }

  /** For two rows the guard keeps apart, the resolver agrees that they are not the same artist
      unless the prefix of exactly one of them stands behind white space. */
  lemma GuardAndResolverAgreeExactly(a: Candidate, b: Candidate)
    requires Conflict(a, b) && a.id != b.id && !a.legacy && !b.legacy
    ensures Classify(a, b) == Ambiguous <==> (Disguised(a.sourceID) <==> Disguised(b.sourceID))
  {
    NotionsDifferExactly(a);
    NotionsDifferExactly(b);
  }

  /** Such rows exist: a blank before the prefix makes the row real for the guard only. */
  lemma GuardAndResolverDisagree()
    ensures var a := Candidate("1", "deezer", " artist:x", false, "", 0, 0, 0, false);
            var b := a.(id := "2", sourceID := "1158");
            Conflict(a, b) && Classify(a, b) == StrongCandidate
  {
    var s := " artist:x";
    assert s[1..] == "artist:x";
    assert TrimLeft(s) == TrimLeft(s[1..]) == "artist:x";
    assert TrimRight("artist:x") == "artist:x";
    assert ARTIST_PREFIX <= "artist:x";
    assert TrimLeft("1158") == "1158" && TrimRight("1158") == "1158";
    assert "1158"[0] == '1' && s[0] == ' ' && ARTIST_PREFIX[0] == 'a';
  }

  // ---- the whole preparation of a merge ----

  datatype Refusal = SelfMerge | NoDuplicates | CanonicalMissing | DuplicateMissing | UnsafeGroup

  datatype Plan = Refused(reason: Refusal) | Merge(canonical: Candidate, duplicates: seq<Candidate>)

  /** The row found for an id; a later row of the same id replaces an earlier one. */
  function Lookup(rows: seq<Candidate>, id: string): (c: Option<Candidate>)
    ensures c.Some? ==> c.value in rows && c.value.id == id
    ensures c.None? ==> forall i :: 0 <= i < |rows| ==> rows[i].id != id
  {
    if rows == [] then None
    else if rows[|rows| - 1].id == id then Some(rows[|rows| - 1])
    else Lookup(rows[..|rows| - 1], id)
  }

  function LookupAll(rows: seq<Candidate>, ids: seq<string>): (r: Option<seq<Candidate>>)
    ensures r.Some? ==> |r.value| == |ids| && forall i :: 0 <= i < |ids| ==> r.value[i].id == ids[i] && r.value[i] in rows
    ensures r.None? <==> exists i :: 0 <= i < |ids| && Lookup(rows, ids[i]).None?
  {
    if ids == [] then Some([])
    else
      var r, c := LookupAll(rows, ids[..|ids| - 1]), Lookup(rows, ids[|ids| - 1]);
      if r.None? || c.None? then None else Some(r.value + [c.value])
  }

  method FindDuplicates(ids: seq<string>, rows: seq<Candidate>) returns (r: Option<seq<Candidate>>)
    ensures r == LookupAll(rows, ids)
  {
    var found := [];
    for i := 0 to |ids|
      invariant LookupAll(rows, ids[..i]) == Some(found)
    {
      assert ids[..i + 1][..i] == ids[..i];
      var c := Lookup(rows, ids[i]);
      if c.None? { return None; }
      found := found + [c.value];
    }
    assert ids[..|ids|] == ids;
    return Some(found);
  }

  /** A merge touches distinct existing rows, the canonical one not among its duplicates, no
      two of them separate entries of one provider; and each refusal has its own cause. */
  method Prepare(canonicalRaw: string, raws: seq<string>, rows: seq<Candidate>) returns (plan: Plan)
    ensures plan.Merge? ==>
              && Lookup(rows, Trim(canonicalRaw)) == Some(plan.canonical)
              && LookupAll(rows, Kept(raws)) == Some(plan.duplicates) && plan.duplicates != []
              && DistinctIds([plan.canonical] + plan.duplicates)
              && Safe([plan.canonical] + plan.duplicates)
    ensures plan == Refused(SelfMerge) <==>
              exists i :: 0 <= i < |raws| && Trim(raws[i]) != "" && Trim(raws[i]) == Trim(canonicalRaw)
    ensures plan == Refused(NoDuplicates) ==> forall i :: 0 <= i < |raws| ==> Trim(raws[i]) == ""
    ensures plan == Refused(CanonicalMissing) ==> forall i :: 0 <= i < |rows| ==> rows[i].id != Trim(canonicalRaw)
    ensures plan == Refused(DuplicateMissing) ==>
              exists d :: d in Kept(raws) && forall i :: 0 <= i < |rows| ==> rows[i].id != d
    ensures plan == Refused(UnsafeGroup) ==>
              && Lookup(rows, Trim(canonicalRaw)).Some? && LookupAll(rows, Kept(raws)).Some?
              && !Safe([Lookup(rows, Trim(canonicalRaw)).value] + LookupAll(rows, Kept(raws)).value)
  {
    var canonicalID := Trim(canonicalRaw);
    var ids := CollectDuplicates(canonicalID, raws);
    if ids.None? { return Refused(SelfMerge); }
    KeptExactly(raws);
    forall i | 0 <= i < |raws| ensures Trim(raws[i]) in Named(raws) { }
    if |ids.value| == 0 { return Refused(NoDuplicates); }
    var canonical := Lookup(rows, canonicalID);
    if canonical.None? { return Refused(CanonicalMissing); }
    var dups := FindDuplicates(ids.value, rows);
    if dups.None? {
      var i :| 0 <= i < |ids.value| && Lookup(rows, ids.value[i]).None?;
      assert ids.value[i] in Kept(raws);
      return Refused(DuplicateMissing);
    }
    var accepted := Guard(canonical.value, dups.value);
    if !accepted { return Refused(UnsafeGroup); }
    return Merge(canonical.value, dups.value);
  }
}
