/** The login limiter against its whole history.

    `records` is what the limiter keeps; `failures` is a history variable: for every key, all
    failures since its last success. A clock that does not run backwards is assumed. */
module LimiterModel {
  import opened Common

  datatype State = State(records: map<string, seq<int>>, failures: map<string, seq<int>>, clock: int,
                         maxAttempts: int, window: int)

  datatype Event = Allow(key: string, now: int) | Failure(key: string, now: int) | Success(key: string) | Cleanup(now: int)

  /** `retryAfter` is 0 when allowed. */
  datatype Verdict = Verdict(allowed: bool, retryAfter: int)

  const DEFAULT_ATTEMPTS: int := 5
  const DEFAULT_WINDOW: int := 300 * 1_000_000_000

  /** The timestamps strictly after the cutoff, in order. */
  function After(ts: seq<int>, cutoff: int): seq<int> {
    if ts == [] then [] else (if ts[0] > cutoff then [ts[0]] else []) + After(ts[1..], cutoff)
  }

  function Get(m: map<string, seq<int>>, key: string): seq<int> { if key in m then m[key] else [] }

  function New(maxAttempts: int, window: int, clock: int): State {
    State(map[], map[], clock, if maxAttempts <= 0 then DEFAULT_ATTEMPTS else maxAttempts,
          if window <= 0 then DEFAULT_WINDOW else window)
  }

  function Judge(valid: seq<int>, maxAttempts: int, window: int, now: int): Verdict
    requires maxAttempts > 0
  {
    if |valid| >= maxAttempts then Verdict(false, Max(0, valid[0] + window - now)) else Verdict(true, 0)
  }

  function Answer(s: State, key: string, now: int): Verdict
    requires s.maxAttempts > 0
  {
    if key !in s.records then Verdict(true, 0)
    else Judge(After(s.records[key], now - s.window), s.maxAttempts, s.window, now)
  }

  /** One cleanup pass: expired timestamps go, and keys left without any. */
  function Swept(m: map<string, seq<int>>, cutoff: int): map<string, seq<int>> {
    map k | k in m && After(m[k], cutoff) != [] :: After(m[k], cutoff)
  }

  function Step(s: State, e: Event): State {
    match e
    case Allow(key, now) =>
      if key !in s.records then s.(clock := now)
      else s.(records := s.records[key := After(s.records[key], now - s.window)], clock := now)
    case Failure(key, now) =>
      s.(records := s.records[key := Get(s.records, key) + [now]],
         failures := s.failures[key := Get(s.failures, key) + [now]], clock := now)
    case Success(key) => s.(records := s.records - {key}, failures := s.failures - {key})
    case Cleanup(now) => s.(records := Swept(s.records, now - s.window), clock := now)
  }

  predicate Enabled(s: State, e: Event) { e.Success? || s.clock <= e.now }

  ghost predicate AtLeast(ts: seq<int>, bound: int) { forall i :: 0 <= i < |ts| ==> ts[i] >= bound }

  ghost predicate AtMost(ts: seq<int>, bound: int) { forall i :: 0 <= i < |ts| ==> ts[i] <= bound }

  ghost predicate Sorted(ts: seq<int>) { ts != [] ==> AtLeast(ts[1..], ts[0]) && Sorted(ts[1..]) }

  /** The kept list of a key and its history agree on what still counts. */
  ghost predicate Agrees(s: State, k: string) {
    After(Get(s.records, k), s.clock - s.window) == After(Get(s.failures, k), s.clock - s.window)
  }

  /** Whatever was dropped from the kept list can no longer count. */
  ghost predicate Inv(s: State) {
    && s.maxAttempts > 0 && s.window > 0
    && (forall k :: Agrees(s, k))
    && (forall k :: k in s.failures ==> Sorted(s.failures[k]) && AtMost(s.failures[k], s.clock))
  }

  lemma {:induction false} AfterAgain(ts: seq<int>, early: int, late: int)
    requires early <= late
    ensures After(After(ts, early), late) == After(ts, late)
  {
    if ts != [] {
      AfterAgain(ts[1..], early, late);
      if ts[0] > early {
        var r := [ts[0]] + After(ts[1..], early);
        assert r[1..] == After(ts[1..], early);
        assert After(r, late) == (if ts[0] > late then [ts[0]] else []) + After(r[1..], late);
      } else {
        assert After(ts, early) == After(ts[1..], early);
        assert After(ts, late) == After(ts[1..], late);
      }
    }
  }

  lemma {:induction false} AfterAppend(ts: seq<int>, t: int, cutoff: int)
    ensures After(ts + [t], cutoff) == After(ts, cutoff) + (if t > cutoff then [t] else [])
  {
    if ts == [] {
      assert ts + [t] == [t];
    } else {
      AfterAppend(ts[1..], t, cutoff);
      assert (ts + [t])[1..] == ts[1..] + [t];
    }
  }

  lemma AfterHead(t: int, rest: seq<int>, cutoff: int)
    ensures After([t] + rest, cutoff) == (if t > cutoff then [t] else []) + After(rest, cutoff)
  {
    assert ([t] + rest)[1..] == rest;
  }

  lemma {:induction false} AfterConcat(a: seq<int>, b: seq<int>, cutoff: int)
    ensures After(a + b, cutoff) == After(a, cutoff) + After(b, cutoff)
  {
    if a == [] {
      assert a + b == b;
    } else {
      AfterConcat(a[1..], b, cutoff);
      assert a == [a[0]] + a[1..] && a + b == [a[0]] + (a[1..] + b);
      AfterHead(a[0], a[1..], cutoff);
      AfterHead(a[0], a[1..] + b, cutoff);
    }
  }

  lemma {:induction false} AfterBounds(ts: seq<int>, cutoff: int, bound: int)
    ensures AtLeast(ts, bound) ==> AtLeast(After(ts, cutoff), bound)
    ensures AtMost(ts, bound) ==> AtMost(After(ts, cutoff), bound)
    ensures AtLeast(After(ts, cutoff), cutoff + 1)
  {
    if ts != [] {
      AfterBounds(ts[1..], cutoff, bound);
      if AtLeast(ts, bound) { assert AtLeast(ts[1..], bound); }
      if AtMost(ts, bound) { assert AtMost(ts[1..], bound); }
    }
  }

  /** Nothing is dropped when everything is later. */
  lemma {:induction false} AfterAll(ts: seq<int>, cutoff: int)
    requires AtLeast(ts, cutoff + 1)
    ensures After(ts, cutoff) == ts
  {
    if ts != [] {
      assert AtLeast(ts[1..], cutoff + 1);
      AfterAll(ts[1..], cutoff);
    }
  }

  /** The first timestamp that counts is the oldest. */
  lemma {:induction false} FirstIsOldest(ts: seq<int>, cutoff: int)
    requires Sorted(ts)
    ensures After(ts, cutoff) != [] ==> AtLeast(After(ts, cutoff), After(ts, cutoff)[0])
  {
    if ts != [] {
      FirstIsOldest(ts[1..], cutoff);
      AfterBounds(ts[1..], cutoff, ts[0]);
      if ts[0] > cutoff {
        assert After(ts, cutoff) == [ts[0]] + After(ts[1..], cutoff);
      } else {
        assert After(ts, cutoff) == After(ts[1..], cutoff);
      }
    }
  }

  lemma {:induction false} SortedAppend(ts: seq<int>, t: int)
    requires Sorted(ts) && AtMost(ts, t)
    ensures Sorted(ts + [t]) && AtMost(ts + [t], t)
  {
    if ts != [] {
      assert AtMost(ts[1..], t);
      SortedAppend(ts[1..], t);
      assert (ts + [t])[1..] == ts[1..] + [t];
    }
  }

  /** Later cutoffs agree when earlier ones do. */
  lemma AgreeLater(a: seq<int>, b: seq<int>, early: int, late: int)
    requires early <= late && After(a, early) == After(b, early)
    ensures After(a, late) == After(b, late)
  {
    AfterAgain(a, early, late);
    AfterAgain(b, early, late);
  }

  lemma HistorySorted(s: State, e: Event)
    requires Inv(s) && Enabled(s, e)
    ensures var t := Step(s, e);
            forall k :: k in t.failures ==> Sorted(t.failures[k]) && AtMost(t.failures[k], t.clock)
  {
    if e.Failure? { SortedAppend(Get(s.failures, e.key), e.now); }
  }

  /** Time passes: what agreed before agrees at the later cutoff, filtered or not. */
  lemma LaterAgrees(s: State, k: string, now: int)
    requires Agrees(s, k) && s.clock <= now
    ensures Agrees(s.(clock := now), k)
    ensures After(After(Get(s.records, k), now - s.window), now - s.window) == After(Get(s.failures, k), now - s.window)
  {
    AgreeLater(Get(s.records, k), Get(s.failures, k), s.clock - s.window, now - s.window);
    AfterAgain(Get(s.records, k), now - s.window, now - s.window);
  }

  lemma FailureAgrees(s: State, key: string, now: int, k: string)
    requires Agrees(s, k) && s.clock <= now
    ensures Agrees(Step(s, Failure(key, now)), k)
  {
    LaterAgrees(s, k, now);
    AfterAppend(Get(s.records, k), now, now - s.window);
    AfterAppend(Get(s.failures, k), now, now - s.window);
  }

  /** Filtering a list at a cutoff does not change what it says at that cutoff. */
  lemma FilteredAgrees(kept: seq<int>, history: seq<int>, early: int, late: int)
    requires early <= late && After(kept, early) == After(history, early)
    ensures After(kept, late) == After(After(kept, late), late) == After(history, late)
  {
    AgreeLater(kept, history, early, late);
    AfterAgain(kept, late, late);
  }

  lemma AllowAgrees(s: State, key: string, now: int, k: string)
    requires Agrees(s, k) && s.clock <= now
    ensures Agrees(Step(s, Allow(key, now)), k)
  {
    var t := Step(s, Allow(key, now));
    FilteredAgrees(Get(s.records, k), Get(s.failures, k), s.clock - s.window, now - s.window);
    assert Get(t.records, k) in {Get(s.records, k), After(Get(s.records, k), now - s.window)};
  }

  lemma SweptAgrees(m: map<string, seq<int>>, k: string, history: seq<int>, early: int, late: int)
    requires early <= late && After(Get(m, k), early) == After(history, early)
    ensures After(Get(Swept(m, late), k), late) == After(history, late)
  {
    FilteredAgrees(Get(m, k), history, early, late);
    SweptGet(m, k, late);
  }

  lemma CleanupAgrees(s: State, now: int, k: string)
    requires Agrees(s, k) && s.clock <= now
    ensures Agrees(Step(s, Cleanup(now)), k)
  {
    var early, late := s.clock - s.window, now - s.window;
    var t := s.(records := Swept(s.records, late), clock := now);
    assert Step(s, Cleanup(now)) == t && t.clock - t.window == late;
    SweptAgrees(s.records, k, Get(s.failures, k), early, late);
  }

  lemma SuccessAgrees(s: State, key: string, k: string)
    requires Agrees(s, k)
    ensures Agrees(Step(s, Success(key)), k)
  {
    assert k != key ==> Get(s.records - {key}, k) == Get(s.records, k) && Get(s.failures - {key}, k) == Get(s.failures, k);
  }

  /** A swept key holds its filtered list, absent when that is empty. */
  lemma SweptGet(m: map<string, seq<int>>, k: string, cutoff: int)
    ensures Get(Swept(m, cutoff), k) == After(Get(m, k), cutoff)
  {
  }

  lemma StepInv(s: State, e: Event)
    requires Inv(s) && Enabled(s, e)
    ensures Inv(Step(s, e))
  {
    forall k ensures Agrees(Step(s, e), k) {
      assert Agrees(s, k);
      match e
      case Allow(key, now) => AllowAgrees(s, key, now, k);
      case Failure(key, now) => FailureAgrees(s, key, now, k);
      case Success(key) => SuccessAgrees(s, key, k);
      case Cleanup(now) => CleanupAgrees(s, now, k);
    }
    HistorySorted(s, e);
  }

  // ---- runs ----

  predicate Possible(s: State, es: seq<Event>)
    decreases |es|
  {
    es != [] ==> Enabled(s, es[0]) && Possible(Step(s, es[0]), es[1..])
  }

  function Run(s: State, es: seq<Event>): State
    decreases |es|
  {
    if es == [] then s else Run(Step(s, es[0]), es[1..])
  }

  lemma {:induction false} RunInv(s: State, es: seq<Event>)
    requires Inv(s) && Possible(s, es)
    ensures Inv(Run(s, es)) && Run(s, es).clock >= s.clock
    ensures Run(s, es).maxAttempts == s.maxAttempts && Run(s, es).window == s.window
    decreases |es|
  {
    if es != [] {
      StepInv(s, es[0]);
      RunInv(Step(s, es[0]), es[1..]);
    }
  }

  /** In every run, Allow at time t denies exactly when at least maxAttempts failures since the
      last success are later than t minus the window; filtering and cleanup never matter. */
  lemma DeniesExactly(maxAttempts: int, window: int, clock: int, es: seq<Event>, key: string, now: int)
    requires Possible(New(maxAttempts, window, clock), es)
    requires Run(New(maxAttempts, window, clock), es).clock <= now
    ensures var s := Run(New(maxAttempts, window, clock), es);
            && s.maxAttempts > 0 && s.window > 0
            && (!Answer(s, key, now).allowed <==> |After(Get(s.failures, key), now - s.window)| >= s.maxAttempts)
            && (!Answer(s, key, now).allowed ==> 0 < Answer(s, key, now).retryAfter <= s.window)
  {
    RunInv(New(maxAttempts, window, clock), es);
    JudgedByHistory(Run(New(maxAttempts, window, clock), es), key, now);
  }

  /** What still counts is read off the kept list. */
  lemma CountsAgree(s: State, key: string, now: int)
    requires Inv(s) && s.clock <= now
    ensures After(Get(s.records, key), now - s.window) == After(Get(s.failures, key), now - s.window)
  {
    assert Agrees(s, key);
    AgreeLater(Get(s.records, key), Get(s.failures, key), s.clock - s.window, now - s.window);
  }

  lemma JudgedByHistory(s: State, key: string, now: int)
    requires Inv(s) && s.clock <= now
    ensures Answer(s, key, now) == Judge(After(Get(s.failures, key), now - s.window), s.maxAttempts, s.window, now)
    ensures !Answer(s, key, now).allowed ==> 0 < Answer(s, key, now).retryAfter <= s.window
  {
    CountsAgree(s, key, now);
    HistoryInWindow(s, key, now);
    WaitIsPositive(After(Get(s.failures, key), now - s.window), s.maxAttempts, s.window, now);
  }

  lemma HistoryInWindow(s: State, key: string, now: int)
    requires Inv(s) && s.clock <= now
    ensures var valid := After(Get(s.failures, key), now - s.window); AtLeast(valid, now - s.window + 1) && AtMost(valid, now)
  {
    AfterBounds(Get(s.failures, key), now - s.window, now);
  }

  lemma WaitIsPositive(valid: seq<int>, maxAttempts: int, window: int, now: int)
    requires maxAttempts > 0 && AtLeast(valid, now - window + 1) && AtMost(valid, now)
    ensures var v := Judge(valid, maxAttempts, window, now); !v.allowed ==> 0 < v.retryAfter <= window
  {
  }

  /** Without a success of its own, the history of a key only grows at its end. */
  lemma {:induction false} HistoryGrows(s: State, es: seq<Event>, key: string)
    requires forall i :: 0 <= i < |es| ==> es[i] != Success(key)
    ensures Get(s.failures, key) <= Get(Run(s, es).failures, key)
    decreases |es|
  {
    if es != [] { HistoryGrows(Step(s, es[0]), es[1..], key); }
  }

  /** Every Allow of the key before t plus retryAfter, with no success of the key in between, is
      denied as well, whatever else happens. */
  lemma RetryAfterIsHonoured(s: State, es: seq<Event>, key: string, t: int, u: int)
    requires Inv(s) && s.clock <= t && !Answer(s, key, t).allowed
    requires Possible(Step(s, Allow(key, t)), es)
    requires forall i :: 0 <= i < |es| ==> es[i] != Success(key)
    requires Run(Step(s, Allow(key, t)), es).clock <= u < t + Answer(s, key, t).retryAfter
    ensures Run(Step(s, Allow(key, t)), es).maxAttempts > 0
    ensures !Answer(Run(Step(s, Allow(key, t)), es), key, u).allowed
  {
    var a := Step(s, Allow(key, t));
    var b := Run(a, es);
    StepInv(s, Allow(key, t));
    RunInv(a, es);
    HistoryGrows(a, es, key);
    StillDenied(s, b, key, t, u);
  }

  lemma StillDenied(s: State, b: State, key: string, t: int, u: int)
    requires Inv(s) && Inv(b) && b.maxAttempts == s.maxAttempts && b.window == s.window
    requires Get(s.failures, key) <= Get(b.failures, key)
    requires s.clock <= t <= u && b.clock <= u && !Answer(s, key, t).allowed && u < t + Answer(s, key, t).retryAfter
    ensures !Answer(b, key, u).allowed
  {
    JudgedByHistory(s, key, t);
    JudgedByHistory(b, key, u);
    StillCounts(Get(s.failures, key), Get(b.failures, key), t - s.window, u - s.window);
  }

  /** While the cutoff stays before the oldest timestamp that counted, all that counted still do. */
  lemma StillCounts(h: seq<int>, g: seq<int>, early: int, late: int)
    requires Sorted(h) && h <= g && early <= late
    requires After(h, early) != [] && late < After(h, early)[0]
    ensures |After(g, late)| >= |After(h, early)|
  {
    FirstIsOldest(h, early);
    AfterAll(After(h, early), late);
    AfterAgain(h, early, late);
    assert g == h + g[|h|..];
    AfterConcat(h, g[|h|..], late);
  }

  /** When retryAfter has passed and nothing was recorded for the key meanwhile, Allow permits
      exactly if fewer than maxAttempts failures are later than the oldest that counted. With
      more of them, which recording does not prevent, the promised wait is too short. */
  lemma RetryAfterSufficesExactly(s: State, es: seq<Event>, key: string, t: int)
    requires Inv(s) && s.clock <= t && !Answer(s, key, t).allowed
    requires Possible(Step(s, Allow(key, t)), es)
    requires forall i :: 0 <= i < |es| ==> es[i] != Success(key) && !(es[i].Failure? && es[i].key == key)
    requires Run(Step(s, Allow(key, t)), es).clock <= t + Answer(s, key, t).retryAfter
    ensures var valid := After(Get(s.failures, key), t - s.window);
            var b := Run(Step(s, Allow(key, t)), es);
            && |valid| >= s.maxAttempts > 0 && b.maxAttempts > 0
            && (Answer(b, key, t + Answer(s, key, t).retryAfter).allowed <==> |After(valid, valid[0])| < s.maxAttempts)
  {
    var a := Step(s, Allow(key, t));
    var b := Run(a, es);
    StepInv(s, Allow(key, t));
    RunInv(a, es);
    HistoryStays(a, es, key);
    JudgedLater(s, b, key, t);
  }

  lemma JudgedLater(s: State, b: State, key: string, t: int)
    requires Inv(s) && Inv(b) && b.maxAttempts == s.maxAttempts && b.window == s.window
    requires Get(b.failures, key) == Get(s.failures, key)
    requires s.clock <= t && !Answer(s, key, t).allowed && b.clock <= t + Answer(s, key, t).retryAfter
    ensures var valid := After(Get(s.failures, key), t - s.window);
            && |valid| >= s.maxAttempts
            && (Answer(b, key, t + Answer(s, key, t).retryAfter).allowed <==> |After(valid, valid[0])| < s.maxAttempts)
  {
    var u := t + Answer(s, key, t).retryAfter;
    JudgedByHistory(s, key, t);
    JudgedByHistory(b, key, u);
    AfterAgain(Get(s.failures, key), t - s.window, u - s.window);
  }

  lemma {:induction false} HistoryStays(s: State, es: seq<Event>, key: string)
    requires forall i :: 0 <= i < |es| ==> es[i] != Success(key) && !(es[i].Failure? && es[i].key == key)
    ensures Get(s.failures, key) == Get(Run(s, es).failures, key)
    decreases |es|
  {
    if es != [] { HistoryStays(Step(s, es[0]), es[1..], key); }
  }

  function ThreeFailures(a: int, b: int, c: int): seq<Event> { [Failure("key", a), Failure("key", b), Failure("key", c)] }

  lemma AfterThreeFailures(a: int, b: int, c: int)
    requires 0 <= a <= b <= c
    ensures Possible(New(2, 100, 0), ThreeFailures(a, b, c))
    ensures var s := Run(New(2, 100, 0), ThreeFailures(a, b, c));
            "key" in s.records && s.records["key"] == [a, b, c] && s.maxAttempts == 2 && s.window == 100 && s.clock == c
  {
    var s := New(2, 100, 0);
    var es := ThreeFailures(a, b, c);
    assert es[1..] == [es[1], es[2]] && es[1..][1..] == [es[2]] && es[1..][1..][1..] == [];
    var t := Step(Step(Step(s, es[0]), es[1]), es[2]);
    assert Possible(Step(Step(s, es[0]), es[1]), [es[2]]);
    assert Run(Step(Step(s, es[0]), es[1]), [es[2]]) == t;
    assert [] + [a] + [b] + [c] == [a, b, c];
  }

  lemma AfterOfThree(a: int, b: int, c: int, cutoff: int)
    ensures After([a, b, c], cutoff)
         == (if a > cutoff then [a] else []) + (if b > cutoff then [b] else []) + (if c > cutoff then [c] else [])
  {
    assert [a, b, c][1..] == [b, c] && [b, c][1..] == [c] && [c][1..] == [];
    assert After([c], cutoff) == if c > cutoff then [c] else [];
    assert After([b, c], cutoff) == (if b > cutoff then [b] else []) + After([c], cutoff);
  }

  /** Three failures where two are allowed: at the promised time Allow still denies. */
  lemma WaitCanBeTooShort()
    ensures Possible(New(2, 100, 0), ThreeFailures(0, 1, 2))
    ensures var s := Run(New(2, 100, 0), ThreeFailures(0, 1, 2));
            && s.maxAttempts > 0
            && Answer(s, "key", 2) == Verdict(false, 98)
            && !Answer(Step(s, Allow("key", 2)), "key", 2 + 98).allowed
  {
    AfterThreeFailures(0, 1, 2);
    AfterOfThree(0, 1, 2, 2 - 100);
    AfterOfThree(0, 1, 2, 100 - 100);
    assert [0] + [1] + [2] == [0, 1, 2];
  }

  /** The same number of failures, the oldest two at one instant: the promised wait is enough. */
  lemma WaitCanSufficeBeyondTheMaximum()
    ensures Possible(New(2, 100, 0), ThreeFailures(0, 0, 1))
    ensures var s := Run(New(2, 100, 0), ThreeFailures(0, 0, 1));
            && s.maxAttempts > 0
            && Answer(s, "key", 1) == Verdict(false, 99)
            && Answer(Step(s, Allow("key", 1)), "key", 1 + 99).allowed
  {
    AfterThreeFailures(0, 0, 1);
    AfterOfThree(0, 0, 1, 1 - 100);
    AfterOfThree(0, 0, 1, 100 - 100);
    assert [0] + [0] + [1] == [0, 0, 1];
  }
}
