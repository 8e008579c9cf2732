/** The admission quota as a sliding window over its whole history.

    `log` is a history variable: for every key, all admission times since the key was last
    dropped to make room. `records` is what the code keeps. */
module DeviceQuota {
  import opened Common
  import opened DeviceModel

  datatype Quota = Quota(records: Attempts, log: Attempts, pruned: int)

  /** A step on one quota map. */
  datatype Use = Refresh(now: int) | Ask(key: string, now: int, evicted: string)

  /** Every section prunes first; `Ask` then admits the key when it may. */
  function Apply(q: Quota, u: Use): Quota {
    var r := PruneAttempts(q.records, u.now);
    match u
    case Refresh(now) => Quota(r, q.log, now)
    case Ask(key, now, evicted) =>
      if !Admissible(r, key, MAX_ADMISSIONS) then Quota(r, q.log, now)
      else
        var full := key !in r && |r| >= MAX_QUOTA_KEYS;
        // dropping a key to make room ends its history
        var kept := if full then q.log - {evicted} else q.log;
        Quota(Admit(r, key, now, evicted), kept[key := Get(kept, key) + [now]], now)
  }

  /** A use the code can make: the clock does not run backwards, and a dropped key is a present one. */
  predicate Enabled(q: Quota, u: Use) {
    && q.pruned <= u.now
    && (u.Ask? ==>
          var r := PruneAttempts(q.records, u.now);
          u.key !in r && |r| >= MAX_QUOTA_KEYS ==> u.evicted in r)
  }

  ghost predicate Sorted(ts: seq<int>) {
    forall i, j :: 0 <= i <= j < |ts| ==> ts[i] <= ts[j]
  }

  /** Any MAX_ADMISSIONS + 1 consecutive admissions span a whole window. */
  ghost predicate Spread(ts: seq<int>) {
    forall i :: 0 <= i && i + MAX_ADMISSIONS < |ts| ==> ts[i + MAX_ADMISSIONS] - ts[i] >= DEVICE_TTL
  }

  ghost predicate Inv(q: Quota) {
    && |q.records| <= MAX_QUOTA_KEYS
    && (forall k :: k in q.records ==> k in q.log)
    && (forall k :: k in q.log ==> Faithful(Get(q.records, k), q.log[k], q.pruned))
  }

  /** The retained list is the history h cut to the window at `now`. */
  ghost predicate Faithful(retained: seq<int>, h: seq<int>, now: int) {
    && Sorted(h) && Spread(h)
    && (forall i :: 0 <= i < |h| ==> h[i] <= now)
    && retained == Recent(h, now)
  }

  lemma {:induction false} RecentAgain(ts: seq<int>, early: int, now: int)
    requires early <= now
    ensures Recent(Recent(ts, early), now) == Recent(ts, now)
  {
    if ts != [] {
      RecentAgain(ts[1..], early, now);
      if early - ts[0] < DEVICE_TTL {
        var r := [ts[0]] + Recent(ts[1..], early);
        assert r[1..] == Recent(ts[1..], early);
        assert Recent(r, now) == (if now - ts[0] < DEVICE_TTL then [ts[0]] else []) + Recent(r[1..], now);
      } else {
        assert Recent(ts, early) == Recent(ts[1..], early);
        assert Recent(ts, now) == Recent(ts[1..], now);
      }
    }
  }

  lemma {:induction false} RecentAppend(ts: seq<int>, t: int, now: int)
    ensures Recent(ts + [t], now) == Recent(ts, now) + (if now - t < DEVICE_TTL then [t] else [])
  {
    if ts == [] {
      assert ts + [t] == [t];
    } else {
      RecentAppend(ts[1..], t, now);
      assert (ts + [t])[1..] == ts[1..] + [t];
    }
  }

  /** In a sorted list everything from a recent element on is recent. */
  lemma {:induction false} RecentCounts(ts: seq<int>, now: int, j: nat)
    requires Sorted(ts) && j < |ts| && now - ts[j] < DEVICE_TTL
    ensures |Recent(ts, now)| >= |ts| - j
  {
    if j > 0 {
      RecentCounts(ts[1..], now, j - 1);
    } else if |ts| > 1 {
      assert now - ts[1] < DEVICE_TTL;
      RecentCounts(ts[1..], now, 0);
    }
  }

  lemma AppendSpread(ts: seq<int>, now: int)
    requires Sorted(ts) && Spread(ts) && |Recent(ts, now)| < MAX_ADMISSIONS
    requires forall i :: 0 <= i < |ts| ==> ts[i] <= now
    ensures Sorted(ts + [now]) && Spread(ts + [now])
  {
    if |ts| >= MAX_ADMISSIONS && now - ts[|ts| - MAX_ADMISSIONS] < DEVICE_TTL {
      RecentCounts(ts, now, |ts| - MAX_ADMISSIONS);
    }
  }

  lemma PruneShrinks(m: Attempts, now: int)
    ensures |PruneAttempts(m, now)| <= |m|
  {
    var p := PruneAttempts(m, now);
    assert p.Keys <= m.Keys;
    CardinalityOfSubset(p.Keys, m.Keys);
  }

  lemma {:induction false} CardinalityOfSubset(a: set<string>, b: set<string>)
    requires a <= b
    ensures |a| <= |b|
  {
    if a != {} {
      var x :| x in a;
      CardinalityOfSubset(a - {x}, b - {x});
    }
  }

  lemma PruneInv(q: Quota, now: int)
    requires Inv(q) && q.pruned <= now
    ensures Inv(Quota(PruneAttempts(q.records, now), q.log, now))
  {
    PruneShrinks(q.records, now);
    forall k | k in q.log ensures Faithful(Get(PruneAttempts(q.records, now), k), q.log[k], now) {
      RecentAgain(q.log[k], q.pruned, now);
      assert Faithful(Get(q.records, k), q.log[k], q.pruned);
    }
  }

  /** What every use keeps. */
  lemma ApplyInv(q: Quota, u: Use)
    requires Inv(q) && Enabled(q, u)
    ensures Inv(Apply(q, u))
  {
    PruneInv(q, u.now);
    var p := Quota(PruneAttempts(q.records, u.now), q.log, u.now);
    if u.Ask? && Admissible(p.records, u.key, MAX_ADMISSIONS) {
      AdmitInv(p, u.key, u.evicted);
    }
  }

  lemma AdmitInv(p: Quota, key: string, evicted: string)
    requires Inv(p) && Admissible(p.records, key, MAX_ADMISSIONS)
    requires key !in p.records && |p.records| >= MAX_QUOTA_KEYS ==> evicted in p.records
    ensures var full := key !in p.records && |p.records| >= MAX_QUOTA_KEYS;
            var kept := if full then p.log - {evicted} else p.log;
            Inv(Quota(Admit(p.records, key, p.pruned, evicted), kept[key := Get(kept, key) + [p.pruned]], p.pruned))
  {
    var full := key !in p.records && |p.records| >= MAX_QUOTA_KEYS;
    AdmitSize(p.records, key, p.pruned, evicted);
    if full {
      ForgetInv(p, evicted);
      AppendInv(Quota(p.records - {evicted}, p.log - {evicted}, p.pruned), key);
    } else {
      AppendInv(p, key);
    }
  }

  lemma ForgetInv(p: Quota, evicted: string)
    requires Inv(p) && evicted in p.records
    ensures Inv(Quota(p.records - {evicted}, p.log - {evicted}, p.pruned))
  {
    assert (p.records - {evicted}).Keys == p.records.Keys - {evicted};
    forall k | k in p.log - {evicted} ensures Faithful(Get(p.records - {evicted}, k), p.log[k], p.pruned) {
      assert Faithful(Get(p.records, k), p.log[k], p.pruned);
    }
  }

  lemma AppendInv(p: Quota, key: string)
    requires Inv(p) && Admissible(p.records, key, MAX_ADMISSIONS)
    ensures var records := p.records[key := Get(p.records, key) + [p.pruned]];
            |records| <= MAX_QUOTA_KEYS ==> Inv(Quota(records, p.log[key := Get(p.log, key) + [p.pruned]], p.pruned))
  {
    assert Faithful(Get(p.records, key), Get(p.log, key), p.pruned);
    AdmitHistory(Get(p.records, key), Get(p.log, key), p.pruned);
    var records, log := p.records[key := Get(p.records, key) + [p.pruned]], p.log[key := Get(p.log, key) + [p.pruned]];
    forall k | k in log ensures Faithful(Get(records, k), log[k], p.pruned) {
      if k != key { assert Faithful(Get(p.records, k), p.log[k], p.pruned); }
    }
  }

  /** One more admission at the time of the last prune, when the retained list has room. */
  lemma AdmitHistory(retained: seq<int>, h: seq<int>, now: int)
    requires Faithful(retained, h, now) && |retained| < MAX_ADMISSIONS
    ensures Faithful(retained + [now], h + [now], now)
  {
    AppendSpread(h, now);
    RecentAppend(h, now, now);
  }

  lemma AdmitSize(m: Attempts, key: string, now: int, evicted: string)
    requires |m| <= MAX_QUOTA_KEYS
    requires key !in m && |m| >= MAX_QUOTA_KEYS ==> evicted in m
    ensures |Admit(m, key, now, evicted)| <= MAX_QUOTA_KEYS
  {
    var n := if key !in m && |m| >= MAX_QUOTA_KEYS then m - {evicted} else m;
    assert Admit(m, key, now, evicted).Keys == n.Keys + {key};
    if key !in m && |m| >= MAX_QUOTA_KEYS {
      assert n.Keys == m.Keys - {evicted};
    }
  }

  // ---- runs ----

  function Run(q: Quota, us: seq<Use>): Quota
    decreases |us|
  {
    if us == [] then q else Run(Apply(q, us[0]), us[1..])
  }

  predicate Possible(q: Quota, us: seq<Use>)
    decreases |us|
  {
    us != [] ==> Enabled(q, us[0]) && Possible(Apply(q, us[0]), us[1..])
  }

  lemma {:induction false} RunInv(q: Quota, us: seq<Use>)
    requires Inv(q) && Possible(q, us)
    ensures Inv(Run(q, us))
    decreases |us|
  {
    if us != [] {
      ApplyInv(q, us[0]);
      RunInv(Apply(q, us[0]), us[1..]);
    }
  }

  /** After any run: at most MAX_QUOTA_KEYS keys are kept, the kept list of a key is exactly its
      admission history inside the window, and no window holds more than MAX_ADMISSIONS of them. */
  lemma QuotaIsSlidingWindow(t: int, us: seq<Use>, key: string, i: nat)
    requires Possible(Quota(map[], map[], t), us)
    ensures var q := Run(Quota(map[], map[], t), us);
            && |q.records| <= MAX_QUOTA_KEYS
            && Get(q.records, key) == Recent(Get(q.log, key), q.pruned)
            && (i + MAX_ADMISSIONS < |Get(q.log, key)| ==>
                  Get(q.log, key)[i + MAX_ADMISSIONS] - Get(q.log, key)[i] >= DEVICE_TTL)
  {
    RunInv(Quota(map[], map[], t), us);
    var q := Run(Quota(map[], map[], t), us);
    if key in q.log { assert Faithful(Get(q.records, key), q.log[key], q.pruned); }
  }

  /** An admission is refused exactly when the history already holds MAX_ADMISSIONS in the window. */
  lemma RefusedExactlyWhenFull(t: int, us: seq<Use>, key: string, now: int)
    requires Possible(Quota(map[], map[], t), us)
    requires Run(Quota(map[], map[], t), us).pruned <= now
    ensures var q := Run(Quota(map[], map[], t), us);
            Admissible(PruneAttempts(q.records, now), key, MAX_ADMISSIONS)
            <==> |Recent(Get(q.log, key), now)| < MAX_ADMISSIONS
  {
    RunInv(Quota(map[], map[], t), us);
    var q := Run(Quota(map[], map[], t), us);
    PruneInv(q, now);
    if key in q.log { assert Faithful(Get(PruneAttempts(q.records, now), key), q.log[key], now); }
  }

  /** An admission is noted at the end of its key's list, and no other key is lost but the one dropped to make room, which happens
      only for a new key when 1024 are held. */
  lemma AdmissionDropsExactly(m: Attempts, key: string, now: int, evicted: string, k: string)
    requires key !in m && |m| >= 1024 ==> evicted in m
    ensures var n := Admit(m, key, now, evicted);
            && key in n && n[key] == Get(m, key) + [now]
            && (k != key ==> (k in n <==> k in m && !(key !in m && |m| >= 1024 && k == evicted)) && (k in n ==> n[k] == m[k]))
  {
  }

  /** An admission counts for exactly five minutes. */
  lemma {:induction false} RecentExactly(ts: seq<int>, now: int, t: int)
    ensures multiset(Recent(ts, now))[t] == if now - t < 300 * SECOND then multiset(ts)[t] else 0
  {
    if ts != [] {
      RecentExactly(ts[1..], now, t);
      assert ts == [ts[0]] + ts[1..];
    }
  }
}
