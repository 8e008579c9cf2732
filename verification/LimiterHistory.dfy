/** The limiter judged by nothing but the events it saw. */
module LimiterHistory {
  import opened Common
  import opened LimiterModel

  /** The failures of the key since its last success, read off the events. */
  function FailuresOf(es: seq<Event>, key: string): seq<int> {
    if es == [] then []
    else
      var before, e := FailuresOf(es[..|es| - 1], key), es[|es| - 1];
      if e == Success(key) then [] else if e.Failure? && e.key == key then before + [e.now] else before
  }

  /** How many of these instants are later than the cutoff. */
  function CountLater(ts: seq<int>, cutoff: int): nat {
    if ts == [] then 0 else CountLater(ts[..|ts| - 1], cutoff) + if ts[|ts| - 1] > cutoff then 1 else 0
  }

  lemma {:induction false} AfterCounts(ts: seq<int>, cutoff: int)
    ensures |After(ts, cutoff)| == CountLater(ts, cutoff)
  {
    if ts != [] {
      var n := |ts| - 1;
      AfterCounts(ts[..n], cutoff);
      AfterAppend(ts[..n], ts[n], cutoff);
      assert ts == ts[..n] + [ts[n]];
    }
  }

  lemma {:induction false} RunLast(s: State, es: seq<Event>)
    requires es != []
    ensures Run(s, es) == Step(Run(s, es[..|es| - 1]), es[|es| - 1])
    decreases |es|
  {
    if |es| > 1 {
      RunLast(Step(s, es[0]), es[1..]);
      assert es[1..][..|es| - 2] == es[..|es| - 1][1..];
    } else {
      assert es[1..] == [];
    }
  }

  lemma {:induction false} HistoryIsEvents(maxAttempts: int, window: int, clock: int, es: seq<Event>, key: string)
    ensures Get(Run(New(maxAttempts, window, clock), es).failures, key) == FailuresOf(es, key)
    decreases |es|
  {
    if es != [] {
      RunLast(New(maxAttempts, window, clock), es);
      HistoryIsEvents(maxAttempts, window, clock, es[..|es| - 1], key);
    }
  }

  function Attempts(configured: int): int { if configured > 0 then configured else 5 }

  function Window(configured: int): int { if configured > 0 then configured else 300 * 1_000_000_000 }

  lemma SettingsStay(maxAttempts: int, window: int, clock: int, es: seq<Event>)
    requires Possible(New(maxAttempts, window, clock), es)
    ensures var s := Run(New(maxAttempts, window, clock), es);
            Inv(s) && s.maxAttempts == Attempts(maxAttempts) && s.window == Window(window)
  {
    RunInv(New(maxAttempts, window, clock), es);
  }

  /** What counts at this moment is counted by the events. */
  lemma CountedByEvents(maxAttempts: int, window: int, clock: int, es: seq<Event>, key: string, now: int)
    requires Possible(New(maxAttempts, window, clock), es)
    ensures var valid := After(Get(Run(New(maxAttempts, window, clock), es).failures, key), now - Window(window));
            valid == After(FailuresOf(es, key), now - Window(window)) && |valid| == CountLater(FailuresOf(es, key), now - Window(window))
  {
    HistoryIsEvents(maxAttempts, window, clock, es, key);
    AfterCounts(FailuresOf(es, key), now - Window(window));
  }

  /** In every run, whatever filtering, cleanups and other keys came in between: Allow at time t denies exactly when at least
      the maximum of the key's failures since its last success are later than t minus the window. Without a
      positive setting the maximum is five and the window five minutes. */
  lemma DeniesExactlyByEvents(maxAttempts: int, window: int, clock: int, es: seq<Event>, key: string, now: int)
    requires Possible(New(maxAttempts, window, clock), es)
    requires Run(New(maxAttempts, window, clock), es).clock <= now
    ensures Run(New(maxAttempts, window, clock), es).maxAttempts > 0
    ensures !Answer(Run(New(maxAttempts, window, clock), es), key, now).allowed
            <==> CountLater(FailuresOf(es, key), now - Window(window)) >= Attempts(maxAttempts)
  {
    SettingsStay(maxAttempts, window, clock, es);
    JudgedByHistory(Run(New(maxAttempts, window, clock), es), key, now);
    CountedByEvents(maxAttempts, window, clock, es, key, now);
  }

  /** Right after a cleanup the limiter holds exactly the keys with a failure that still counts, with those failures in order:
      memory is bounded by what can matter. */
  lemma CleanupKeepsExactly(maxAttempts: int, window: int, clock: int, es: seq<Event>, key: string, now: int)
    requires Possible(New(maxAttempts, window, clock), es)
    requires Run(New(maxAttempts, window, clock), es).clock <= now
    ensures var s := Step(Run(New(maxAttempts, window, clock), es), Cleanup(now));
            && (key in s.records <==> CountLater(FailuresOf(es, key), now - Window(window)) > 0)
            && (key in s.records ==> s.records[key] == After(FailuresOf(es, key), now - Window(window)))
  {
    var s := Run(New(maxAttempts, window, clock), es);
    SettingsStay(maxAttempts, window, clock, es);
    CountsAgree(s, key, now);
    CountedByEvents(maxAttempts, window, clock, es, key, now);
    assert Get(s.records, key) == if key in s.records then s.records[key] else [];
  }
}
