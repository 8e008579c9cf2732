/** The two quota maps of the sign-in table over every run of the protocol: each run of the
    protocol is a run of the quota machine on either map. */
module DeviceAdmission {
  import opened Common
  import opened DeviceModel
  import P = DeviceProtocol
  import Q = DeviceQuota

  datatype Map = Starts | Confirmations

  function Of(d: Table, which: Map): Attempts { if which.Starts? then d.starts else d.confirmations }

  /** Whether a start gets as far as asking the quota. */
  predicate AsksToStart(d: Table, name: string, now: int) {
    ValidName(name) && |PruneGrants(d.grants, now)| < MAX_DEVICE_GRANTS
  }

  /** What a section does to one of the maps: nothing, a prune, or a prune and an admission. */
  function Uses(s: P.System, e: P.Event, which: Map): seq<Q.Use> {
    match e
    case StartDevice(name, ip, now, evicted, _, _) =>
      if !ValidName(name) then []
      else if which.Starts? && AsksToStart(s.table, name, now) then [Q.Ask(ip, now, evicted)] else [Q.Refresh(now)]
    case PreviewDevice(_, user, now, evicted, _) =>
      if which.Confirmations? then [Q.Ask(user, now, evicted)] else [Q.Refresh(now)]
    case ConfirmDevice(_, user, _, authentic, now, evicted, _) =>
      if !authentic then []
      else if which.Confirmations? then [Q.Ask(user, now, evicted)] else [Q.Refresh(now)]
    case PollBegin(_, _, now) => [Q.Refresh(now)]
    case PollEnd(_, _, _, _, _, _) => []
  }

  /** The uses a run makes of one map. */
  function AllUses(s: P.System, es: seq<P.Event>, which: Map): seq<Q.Use>
    requires P.Possible(s, es)
    decreases |es|
  {
    if es == [] then [] else Uses(s, es[0], which) + AllUses(P.Step(s, es[0]), es[1..], which)
  }

  /** What a start leaves in the two maps. */
  lemma StartMaps(d: Table, name: string, ip: string, now: int, evicted: string, token: Option<string>, draws: seq<string>)
    requires ValidName(name)
    ensures var t := Start(d, name, ip, now, evicted, token, draws).0;
            var r := PruneAttempts(d.starts, now);
            && t.confirmations == PruneAttempts(d.confirmations, now)
            && t.starts == if AsksToStart(d, name, now) && Admissible(r, ip, MAX_ADMISSIONS) then Admit(r, ip, now, evicted) else r
  {
    var p := DeviceModel.Prune(d, now);
    if AsksToStart(d, name, now) && Admissible(p.starts, ip, MAX_ADMISSIONS) {
      var q := p.(starts := Admit(p.starts, ip, now, evicted));
      StartKeepsMaps(d, name, ip, now, evicted, token, draws, q);
    } else {
      assert Start(d, name, ip, now, evicted, token, draws).0 == p;
    }
  }

  lemma StartKeepsMaps(d: Table, name: string, ip: string, now: int, evicted: string, token: Option<string>, draws: seq<string>, q: Table)
    requires AsksToStart(d, name, now) && Admissible(DeviceModel.Prune(d, now).starts, ip, MAX_ADMISSIONS)
    requires q == DeviceModel.Prune(d, now).(starts := Admit(DeviceModel.Prune(d, now).starts, ip, now, evicted))
    ensures var t := Start(d, name, ip, now, evicted, token, draws).0; t.starts == q.starts && t.confirmations == q.confirmations
  {
  }

  lemma StartUses(s: P.System, e: P.Event, which: Map, q: Q.Quota)
    requires P.Enabled(s, e) && e.StartDevice? && q.records == Of(s.table, which)
    ensures Of(P.Step(s, e).table, which) == Q.Run(q, Uses(s, e, which)).records
  {
    if ValidName(e.name) {
      StartMaps(s.table, e.name, e.ip, e.now, e.evicted, e.token, e.draws);
      OneUse(q, Uses(s, e, which)[0]);
    }
  }

  lemma CodeUses(s: P.System, e: P.Event, which: Map, q: Q.Quota)
    requires P.Enabled(s, e) && (e.PreviewDevice? || e.ConfirmDevice?) && q.records == Of(s.table, which)
    ensures Of(P.Step(s, e).table, which) == Q.Run(q, Uses(s, e, which)).records
  {
    if Uses(s, e, which) != [] { OneUse(q, Uses(s, e, which)[0]); }
  }

  lemma PollUses(s: P.System, e: P.Event, which: Map, q: Q.Quota)
    requires P.Enabled(s, e) && (e.PollBegin? || e.PollEnd?) && q.records == Of(s.table, which)
    ensures Of(P.Step(s, e).table, which) == Q.Run(q, Uses(s, e, which)).records
  {
    if e.PollBegin? { OneUse(q, Q.Refresh(e.now)); }
  }

  lemma OneUse(q: Q.Quota, u: Q.Use)
    ensures Q.Run(q, [u]) == Q.Apply(q, u)
    ensures Q.Possible(q, [u]) <==> Q.Enabled(q, u)
  {
    assert [u][1..] == [];
    assert Q.Run(Q.Apply(q, u), []) == Q.Apply(q, u);
  }

  lemma UsesArePossible(s: P.System, e: P.Event, which: Map, q: Q.Quota)
    requires P.Enabled(s, e) && q.records == Of(s.table, which) && q.pruned <= s.clock
    ensures Q.Possible(q, Uses(s, e, which)) && Q.Run(q, Uses(s, e, which)).pruned <= P.Step(s, e).clock
  {
    if Uses(s, e, which) != [] {
      OneUse(q, Uses(s, e, which)[0]);
      ClockAdvances(s, e);
    }
  }

  lemma ClockAdvances(s: P.System, e: P.Event)
    requires P.Enabled(s, e)
    ensures P.Step(s, e).clock == e.now
  {
  }

  /** One section is exactly its uses, whatever the history so far. */
  lemma SectionIsItsUses(s: P.System, e: P.Event, which: Map, q: Q.Quota)
    requires P.Enabled(s, e) && q.records == Of(s.table, which) && q.pruned <= s.clock
    ensures var r := Q.Run(q, Uses(s, e, which));
            && Q.Possible(q, Uses(s, e, which))
            && r.records == Of(P.Step(s, e).table, which) && r.pruned <= P.Step(s, e).clock
  {
    UsesArePossible(s, e, which, q);
    match e
    case StartDevice(_, _, _, _, _, _) => StartUses(s, e, which, q);
    case PreviewDevice(_, _, _, _, _) => CodeUses(s, e, which, q);
    case ConfirmDevice(_, _, _, _, _, _, _) => CodeUses(s, e, which, q);
    case _ => PollUses(s, e, which, q);
  }

  lemma UsesCons(q: Q.Quota, u: Q.Use, us: seq<Q.Use>)
    ensures Q.Possible(q, [u] + us) <==> Q.Enabled(q, u) && Q.Possible(Q.Apply(q, u), us)
    ensures Q.Run(q, [u] + us) == Q.Run(Q.Apply(q, u), us)
  {
    assert ([u] + us)[1..] == us;
  }

  /** A section makes at most one use, which comes first. */
  lemma UsesCompose(q: Q.Quota, us: seq<Q.Use>, vs: seq<Q.Use>)
    requires |us| <= 1 && Q.Possible(q, us) && Q.Possible(Q.Run(q, us), vs)
    ensures Q.Possible(q, us + vs) && Q.Run(q, us + vs) == Q.Run(Q.Run(q, us), vs)
  {
    if us == [] {
      assert us + vs == vs;
    } else {
      assert us == [us[0]];
      OneUse(q, us[0]);
      UsesCons(q, us[0], vs);
    }
  }

  /** Every run of the protocol is a run of the quota machine on either map. */
  lemma {:induction false} RunIsQuotaRun(s: P.System, es: seq<P.Event>, which: Map, q: Q.Quota)
    requires P.Possible(s, es) && q.records == Of(s.table, which) && q.pruned <= s.clock
    ensures Q.Possible(q, AllUses(s, es, which))
    ensures var r := Q.Run(q, AllUses(s, es, which));
            r.records == Of(P.Run(s, es).table, which) && r.pruned <= P.Run(s, es).clock
    decreases |es|
  {
    if es != [] {
      SectionIsItsUses(s, es[0], which, q);
      var r := Q.Run(q, Uses(s, es[0], which));
      RunIsQuotaRun(P.Step(s, es[0]), es[1..], which, r);
      UsesCompose(q, Uses(s, es[0], which), AllUses(P.Step(s, es[0]), es[1..], which));
    }
  }

  function Fresh(clock: int): Q.Quota { Q.Quota(map[], map[], clock) }

  /** The admissions of a key over a run, since it was last dropped to make room. */
  function Admissions(clock: int, es: seq<P.Event>, which: Map, key: string): seq<int>
    requires P.Possible(P.Init(clock), es)
  {
    Get(Q.Run(Fresh(clock), AllUses(P.Init(clock), es, which)).log, key)
  }

  /** After every run of the protocol either map holds at most 1024 keys. */
  lemma KeysAreBounded(clock: int, es: seq<P.Event>, which: Map)
    requires P.Possible(P.Init(clock), es)
    ensures |Of(P.Run(P.Init(clock), es).table, which)| <= 1024
  {
    RunIsQuotaRun(P.Init(clock), es, which, Fresh(clock));
    Q.QuotaIsSlidingWindow(clock, AllUses(P.Init(clock), es, which), "", 0);
  }

  /** After every run of the protocol, on either map: the kept list of a key is its admissions cut
      to the window at the last prune, and any eleven consecutive admissions of a key
      span at least five minutes. */
  lemma AdmissionsAreSpread(clock: int, es: seq<P.Event>, which: Map, key: string, i: nat)
    requires P.Possible(P.Init(clock), es)
    ensures var h := Admissions(clock, es, which, key);
            && Get(Of(P.Run(P.Init(clock), es).table, which), key)
               == Recent(h, Q.Run(Fresh(clock), AllUses(P.Init(clock), es, which)).pruned)
            && (i + 10 < |h| ==> h[i + 10] - h[i] >= 300 * SECOND)
  {
    RunIsQuotaRun(P.Init(clock), es, which, Fresh(clock));
    Q.QuotaIsSlidingWindow(clock, AllUses(P.Init(clock), es, which), key, i);
  }

  /** The next section that asks for a key is refused exactly when the key's admissions already
      fill the window. */
  lemma RefusedExactlyWhenFull(clock: int, es: seq<P.Event>, which: Map, key: string, now: int)
    requires P.Possible(P.Init(clock), es) && P.Run(P.Init(clock), es).clock <= now
    ensures Admissible(PruneAttempts(Of(P.Run(P.Init(clock), es).table, which), now), key, MAX_ADMISSIONS)
            <==> |Recent(Admissions(clock, es, which, key), now)| < 10
  {
    RunIsQuotaRun(P.Init(clock), es, which, Fresh(clock));
    Q.RefusedExactlyWhenFull(clock, AllUses(P.Init(clock), es, which), key, now);
  }

  /** A start with a valid name is told Limited exactly when 128 unexpired grants are held or its address has had ten
      starts in the window. */
  lemma StartLimitedExactly(clock: int, es: seq<P.Event>, e: P.Event)
    requires P.Possible(P.Init(clock), es) && P.Enabled(P.Run(P.Init(clock), es), e) && e.StartDevice? && ValidName(e.name)
    ensures P.AnswerOf(P.Run(P.Init(clock), es), e).Limited?
            <==> |PruneGrants(P.Run(P.Init(clock), es).table.grants, e.now)| >= 128
                 || |Recent(Admissions(clock, es, Starts, e.ip), e.now)| >= 10
  {
    RefusedExactlyWhenFull(clock, es, Starts, e.ip, e.now);
  }

  /** A preview, or a confirmation by an authenticated user, is told Limited exactly when the window of the user is full. */
  lemma CodeLimitedExactly(clock: int, es: seq<P.Event>, e: P.Event)
    requires P.Possible(P.Init(clock), es) && P.Enabled(P.Run(P.Init(clock), es), e)
    requires e.PreviewDevice? || (e.ConfirmDevice? && e.authentic)
    ensures P.AnswerOf(P.Run(P.Init(clock), es), e).Limited?
            <==> |Recent(Admissions(clock, es, Confirmations, e.user), e.now)| >= 10
  {
    RefusedExactlyWhenFull(clock, es, Confirmations, e.user, e.now);
  }
}
