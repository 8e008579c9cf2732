/** What the recursion of pump and remove evicts, in which order and how far. */
module OfflineEviction {
  import opened Common
  import opened OfflineModel
  import opened OfflineProofs

  /** The records one pump evicts, in order. */
  function Evictions(s: Library, f: Faults): seq<Record>
    decreases |s.records|
  {
    var v := Victim(s);
    if v.None? || v.value.id in f.removals then []
    else
      EvictShrinks(s, v.value);
      [v.value] + Evictions(Evict(s, v.value.id), f)
  }

  function Ids(rs: seq<Record>): set<RecordId> { set r | r in rs :: r.id }

  /** Every evicted record was automatic, ready, unprotected and of the current account. */
  lemma {:induction false} EvictsOnlyCache(s: Library, f: Faults)
    requires UniqueIds(s.records)
    ensures forall r :: r in Evictions(s, f) ==> r in s.records && Evictable(r, s.scope, s.protectedTracks)
    decreases |s.records|
  {
    var v := Victim(s);
    if !(v.None? || v.value.id in f.removals) {
      EvictShrinks(s, v.value);
      WithoutKeeps(s.records, {v.value.id});
      EvictsOnlyCache(Evict(s, v.value.id), f);
      WithoutMembers(s.records, {v.value.id});
    }
  }

  lemma IdsCons(r: Record, rs: seq<Record>)
    ensures Ids([r] + rs) == {r.id} + Ids(rs)
  {
    forall id | id in {r.id} + Ids(rs) ensures id in Ids([r] + rs) {
      if id == r.id {
        assert r in [r] + rs;
      } else {
        var q :| q in rs && q.id == id;
        assert q in [r] + rs;
      }
    }
  }

  /** The records of t are those of rest, except that some queued ones were started or failed. */
  ghost predicate StartedOrFailed(rest: seq<Record>, t: seq<Record>) {
    && |t| == |rest|
    && forall i :: 0 <= i < |rest| ==>
      t[i] == rest[i]
      || (rest[i].state.Queued? && t[i].id == rest[i].id && (t[i].state.Downloading? || t[i].state.Failed?))
  }

  /** Pump is exactly the deletion of its evictions, in place, and at most a start or a
      failure of queued records beside it. */
  lemma {:induction false} PumpDeletesEvictions(s: Library, f: Faults)
    requires UniqueIds(s.records)
    ensures StartedOrFailed(Without(s.records, Ids(Evictions(s, f))), Pump(s, f).records)
    decreases |s.records|
  {
    var v := Victim(s);
    if v.None? || v.value.id in f.removals {
      PumpUnfold(s, f);
      WithoutNothing(s.records);
      assert Ids(Evictions(s, f)) == {};
    } else {
      var id := v.value.id;
      EvictShrinks(s, v.value);
      WithoutKeeps(s.records, {id});
      PumpDeletesEvictions(Evict(s, id), f);
      assert Pump(s, f) == Pump(Evict(s, id), f) by { PumpUnfold(s, f); }
      var later := Evictions(Evict(s, id), f);
      assert Ids(Evictions(s, f)) == {id} + Ids(later) by { IdsCons(v.value, later); }
      WithoutTwice(s.records, {id}, Ids(later));
    }
  }

  lemma {:induction false} WithoutNothing(rs: seq<Record>)
    ensures Without(rs, {}) == rs
  {
    if rs != [] { WithoutNothing(rs[1..]); }
  }

  /** Oldest first: an evicted record is no newer than the ones evicted after it, and nothing
      evictable that survives is older than it. */
  lemma {:induction false} EvictsOldestFirst(s: Library, f: Faults, k: nat)
    requires UniqueIds(s.records) && k < |Evictions(s, f)|
    ensures forall r :: r in Evictions(s, f)[k..] ==> Evictions(s, f)[k].date <= r.date
    ensures forall r :: r in Pump(s, f).records && Evictable(r, s.scope, s.protectedTracks) ==>
                          Evictions(s, f)[k].date <= r.date
    decreases k
  {
    var v := Victim(s).value;
    var t := Evict(s, v.id);
    EvictShrinks(s, v);
    WithoutKeeps(s.records, {v.id});
    assert Pump(s, f) == Pump(t, f) by { PumpUnfold(s, f); }
    if k > 0 {
      EvictsOldestFirst(t, f, k - 1);
      assert Evictions(s, f)[k..] == Evictions(t, f)[k - 1..];
    } else {
      EvictsOnlyCache(s, f);
      PumpKeepsEvictable(s, f);
    }
  }

  /** Pump creates no evictable record. */
  lemma PumpKeepsEvictable(s: Library, f: Faults)
    requires UniqueIds(s.records)
    ensures forall r :: r in Pump(s, f).records && Evictable(r, s.scope, s.protectedTracks) ==> r in s.records
  {
    PumpDeletesEvictions(s, f);
    var rest := Without(s.records, Ids(Evictions(s, f)));
    WithoutMembers(s.records, Ids(Evictions(s, f)));
    forall r | r in Pump(s, f).records && Evictable(r, s.scope, s.protectedTracks) ensures r in s.records {
      var i :| 0 <= i < |rest| && Pump(s, f).records[i] == r;
      assert rest[i] in s.records;
    }
  }

  /** No more than needed: before each eviction the budget was still exhausted. */
  lemma {:induction false} EvictsOnlyWhileFull(s: Library, f: Faults, k: nat)
    requires UniqueIds(s.records) && k < |Evictions(s, f)|
    ensures Total(Without(s.records, Ids(Evictions(s, f)[..k]))) >= LimitBytes(s.limitGB)
    decreases k
  {
    var v := Victim(s).value;
    var t := Evict(s, v.id);
    if k == 0 {
      WithoutNothing(s.records);
      assert Ids(Evictions(s, f)[..0]) == {};
    } else {
      EvictShrinks(s, v);
      WithoutKeeps(s.records, {v.id});
      EvictsOnlyWhileFull(t, f, k - 1);
      var before := Evictions(t, f)[..k - 1];
      assert Evictions(s, f)[..k] == [v] + before;
      IdsCons(v, before);
      WithoutTwice(s.records, {v.id}, Ids(before));
    }
  }

  /** Among records of the same date the first one goes first. */
  lemma {:induction false} OldestIsFirst(rs: seq<Record>, scope: Option<string>, protectedTracks: set<string>) returns (k: nat)
    requires Oldest(rs, scope, protectedTracks).Some?
    ensures k < |rs| && rs[k] == Oldest(rs, scope, protectedTracks).value
    ensures forall j :: 0 <= j < k && Evictable(rs[j], scope, protectedTracks) ==> rs[k].date < rs[j].date
  {
    var rest := Oldest(rs[1..], scope, protectedTracks);
    if Evictable(rs[0], scope, protectedTracks) && (rest.None? || rs[0].date <= rest.value.date) {
      k := 0;
    } else {
      k := OldestIsFirst(rs[1..], scope, protectedTracks);
      k := k + 1;
    }
  }
}
