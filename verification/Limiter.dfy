/** The limiter with its records on the heap. */
module LimiterObjects {
  import opened Common
  import opened LimiterModel

  class AttemptRecord {
    // the one key whose record this is
    ghost const key: string
    var timestamps: seq<int>

    constructor (ghost key: string)
      ensures timestamps == [] && this.key == key
    {
      this.key := key;
      timestamps := [];
    }
  }

  class Limiter {
    const maxAttempts: int
    const window: int
    var records: map<string, AttemptRecord>
    ghost var failures: map<string, seq<int>>
    ghost var clock: int
    // what the records hold, key by key
    ghost var kept: map<string, seq<int>>
    ghost var repr: set<AttemptRecord>

    /** No record serves two keys. */
    ghost predicate Valid()
      reads this, repr
    {
      && kept.Keys == records.Keys
      && (forall k :: k in records ==> records[k] in repr && records[k].key == k && records[k].timestamps == kept[k])
    }

    ghost function Abs(): State
      reads this
    {
      State(kept, failures, clock, maxAttempts, window)
    }

    constructor (maxAttempts: int, window: int, ghost now: int)
      ensures Valid() && repr == {} && Abs() == New(maxAttempts, window, now)
    {
      this.maxAttempts := if maxAttempts <= 0 then DEFAULT_ATTEMPTS else maxAttempts;
      this.window := if window <= 0 then DEFAULT_WINDOW else window;
      records, failures, clock, kept, repr := map[], map[], now, map[], {};
    }

    method Allow(key: string, now: int) returns (allowed: bool, retryAfter: int)
      requires Valid() && maxAttempts > 0
      modifies this, repr
      ensures Valid() && repr == old(repr)
      ensures Abs() == Step(old(Abs()), Event.Allow(key, now))
      ensures Verdict(allowed, retryAfter) == Answer(old(Abs()), key, now)
    {
      clock := now;
      if key !in records { return true, 0; }
      var valid := Filter(records[key].timestamps, now - window);
      Replace(key, valid);
      if |valid| >= maxAttempts {
        var oldest := valid[0];
        retryAfter := oldest + window - now;
        if retryAfter < 0 { retryAfter := 0; }
        return false, retryAfter;
      }
      return true, 0;
    }

    method Replace(key: string, timestamps: seq<int>)
      requires Valid() && key in records
      modifies this`kept, records[key]
      ensures Valid() && kept == old(kept)[key := timestamps]
    {
      kept := kept[key := timestamps];
      records[key].timestamps := timestamps;
    }

    method RecordFailure(key: string, now: int)
      requires Valid()
      modifies this, repr
      ensures Valid() && old(repr) <= repr && fresh(repr - old(repr))
      ensures Abs() == Step(old(Abs()), Failure(key, now))
    {
      if key in records {
        Replace(key, records[key].timestamps + [now]);
      } else {
        assert [] + [now] == [now];
        Insert(key, [now]);
      }
      failures := failures[key := Get(failures, key) + [now]];
      clock := now;
    }

    method Insert(key: string, timestamps: seq<int>)
      requires Valid() && key !in records
      modifies this`records, this`kept, this`repr
      ensures Valid() && old(repr) <= repr && fresh(repr - old(repr))
      ensures kept == old(kept)[key := timestamps]
    {
      var rec := new AttemptRecord(key);
      rec.timestamps := timestamps;
      records := records[key := rec];
      kept := kept[key := timestamps];
      repr := repr + {rec};
    }

    method RecordSuccess(key: string)
      requires Valid()
      modifies this
      ensures Valid() && repr == old(repr)
      ensures Abs() == Step(old(Abs()), Success(key))
    {
      records := records - {key};
      kept := kept - {key};
      failures := failures - {key};
    }

    /** One tick of the background cleanup. */
    method Cleanup(now: int)
      requires Valid()
      modifies this`records, this`kept, this`clock, repr
      ensures Valid() && repr == old(repr)
      ensures Abs() == Step(old(Abs()), Event.Cleanup(now))
    {
      clock := now;
      SweepAll(now - window);
    }

    method SweepAll(cutoff: int)
      requires Valid()
      modifies this`records, this`kept, repr
      ensures Valid() && kept == Swept(old(kept), cutoff)
    {
      ghost var was := kept;
      var keys := records.Keys;
      assert kept == PartlySwept(was, keys, cutoff) by { PartlySweptEnds(was, cutoff); }
      while keys != {}
        invariant keys <= was.Keys && Valid() && kept == PartlySwept(was, keys, cutoff)
        decreases keys
      {
        var k :| k in keys;
        Sweep(k, cutoff, was, keys);
        keys := keys - {k};
      }
      PartlySweptEnds(was, cutoff);
    }

    /** The body of the cleanup loop. */
    method Sweep(k: string, cutoff: int, ghost was: map<string, seq<int>>, ghost left: set<string>)
      requires Valid() && k in left && left <= was.Keys && kept == PartlySwept(was, left, cutoff)
      modifies this`records, this`kept, repr
      ensures Valid() && kept == PartlySwept(was, left - {k}, cutoff)
    {
      PartlySweptStep(was, left, k, cutoff, kept);
      var valid := Filter(records[k].timestamps, cutoff);
      if |valid| == 0 {
        records := records - {k};
        kept := kept - {k};
      } else {
        Replace(k, valid);
      }
    }
  }

  /** The sweep of one key. */
  ghost function Swept1(m: map<string, seq<int>>, k: string, cutoff: int): map<string, seq<int>>
    requires k in m
  {
    if After(m[k], cutoff) == [] then m - {k} else m[k := After(m[k], cutoff)]
  }

  /** The sweep with the keys in `left` still to come. */
  ghost function PartlySwept(m: map<string, seq<int>>, left: set<string>, cutoff: int): map<string, seq<int>> {
    map k | k in m && (k in left || After(m[k], cutoff) != []) :: if k in left then m[k] else After(m[k], cutoff)
  }

  lemma PartlySweptEnds(m: map<string, seq<int>>, cutoff: int)
    ensures PartlySwept(m, m.Keys, cutoff) == m && PartlySwept(m, {}, cutoff) == Swept(m, cutoff)
  {
  }

  lemma PartlySweptStep(m: map<string, seq<int>>, left: set<string>, k: string, cutoff: int, now: map<string, seq<int>>)
    requires k in left && left <= m.Keys && now == PartlySwept(m, left, cutoff)
    ensures k in now
    ensures PartlySwept(m, left - {k}, cutoff) == Swept1(now, k, cutoff)
  {
  }

  /** The filtering loop: each kept timestamp is written over one already read. */
  method Filter(timestamps: seq<int>, cutoff: int) returns (valid: seq<int>)
    ensures valid == After(timestamps, cutoff)
  {
    valid := [];
    for i := 0 to |timestamps|
      invariant valid == After(timestamps[..i], cutoff)
    {
      AfterAppend(timestamps[..i], timestamps[i], cutoff);
      assert timestamps[..i + 1] == timestamps[..i] + [timestamps[i]];
      if timestamps[i] > cutoff { valid := valid + [timestamps[i]]; }
    }
    assert timestamps[..|timestamps|] == timestamps;
  }

  /** The same loop in place, as Go runs it over one backing array: writing the kept timestamps
      to the front never overwrites one still to be read. */
  method FilterInPlace(timestamps: array<int>, n: nat, cutoff: int) returns (kept: nat)
    requires n <= timestamps.Length
    modifies timestamps
    ensures kept <= n && timestamps[..kept] == After(old(timestamps[..n]), cutoff)
    ensures timestamps[n..] == old(timestamps[n..])
  {
    kept := 0;
    ghost var was := timestamps[..n];
    var i := 0;
    while i < n
      invariant kept <= i <= n
      invariant timestamps[..kept] == After(was[..i], cutoff)
      invariant timestamps[i..n] == was[i..]
      invariant timestamps[n..] == old(timestamps[n..])
    {
      AfterAppend(was[..i], was[i], cutoff);
      assert was[..i + 1] == was[..i] + [was[i]];
      assert timestamps[i] == timestamps[i..n][0] == was[i];
      if timestamps[i] > cutoff {
        ghost var front := timestamps[..kept];
        timestamps[kept] := timestamps[i];
        assert timestamps[..kept + 1] == front + [was[i]];
        kept := kept + 1;
      }
      assert timestamps[i + 1..n] == was[i..][1..] == was[i + 1..];
      i := i + 1;
    }
    assert was[..n] == was;
  }
}
