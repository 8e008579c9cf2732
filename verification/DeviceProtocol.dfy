/** Concurrent sign-in: browsers confirm, devices poll, and an approved grant is exchanged
    outside the lock. Every run is an interleaving of locked sections; `inflight` holds the
    grants that polls have taken and not yet settled. */
module DeviceProtocol {
  import opened Common
  import opened DeviceModel

  datatype Exchange = Exchange(key: string, grant: Grant, at: int)
  datatype Approval = Approval(user: string, session: string)
  datatype Issue = Issue(key: string, user: string)

  /** `used`, `approvals`, `sessions` and `answered` are history: all tokens ever started, who
      confirmed which grant, the sessions issued, and when a grant last got an answer
      other than slow_down. */
  datatype System = System(
    table: Table,
    inflight: map<nat, Exchange>,
    used: set<string>,
    approvals: map<string, Approval>,
    sessions: seq<Issue>,
    answered: map<string, int>,
    clock: int)

  datatype Event =
    | StartDevice(name: string, ip: string, now: int, evicted: string, token: Option<string>, draws: seq<string>)
    | PreviewDevice(code: string, user: string, now: int, evicted: string, pick: string)
    | ConfirmDevice(code: string, user: string, session: string, authentic: bool, now: int, evicted: string, pick: string)
    | PollBegin(poll: nat, key: string, now: int)
    | PollEnd(poll: nat, sessionRow: Option<SessionRow>, userRow: Option<UserRow>, inactivity: int, created: bool, now: int)

  function Init(clock: int): System { System(EMPTY, map[], {}, map[], [], map[], clock) }

  /** Map iteration meets some matching grant when there is one. */
  predicate Picked(d: Table, code: string, now: int, pick: string) {
    var m := Matches(Prune(d, now).grants, code);
    m != {} ==> pick in m
  }

  /** When the quota map is full, the key dropped for a new one is a present one. */
  predicate Evicts(m: Attempts, key: string, now: int, evicted: string) {
    var r := PruneAttempts(m, now);
    key !in r && |r| >= MAX_QUOTA_KEYS ==> evicted in r
  }

  /** The environment: the clock does not run backwards, tokens are fresh, map iteration meets
      present keys, authenticated users have non-empty ids, and a user row carries the id
      it was asked for. */
  predicate Enabled(s: System, e: Event) {
    && s.clock <= e.now
    && match e
       case StartDevice(_, ip, now, evicted, token, _) =>
         (token.Some? ==> token.value !in s.used) && Evicts(s.table.starts, ip, now, evicted)
       case PreviewDevice(code, user, now, evicted, pick) =>
         Picked(s.table, code, now, pick) && Evicts(s.table.confirmations, user, now, evicted)
       case ConfirmDevice(code, user, _, authentic, now, evicted, pick) =>
         Picked(s.table, code, now, pick) && Evicts(s.table.confirmations, user, now, evicted) && (authentic ==> user != "")
       case PollBegin(poll, _, _) => poll !in s.inflight
       case PollEnd(poll, _, user, _, _, _) =>
         poll in s.inflight && (user.Some? ==> user.value.id == s.inflight[poll].grant.userID)
  }

  function AnswerOf(s: System, e: Event): Answer {
    match e
    case StartDevice(name, ip, now, evicted, token, draws) => Start(s.table, name, ip, now, evicted, token, draws).1
    case PreviewDevice(code, user, now, evicted, pick) => PreviewGrant(s.table, code, user, now, evicted, pick).1
    case ConfirmDevice(code, user, session, authentic, now, evicted, pick) =>
      Confirm(s.table, code, user, session, authentic, now, evicted, pick).1
    case PollBegin(_, key, now) => Poll(s.table, key, now).1
    case PollEnd(_, _, _, _, _, _) => Invalid
  }

  /** Whether the second half of a poll issues a session. */
  predicate Issues(s: System, e: Event) {
    e.PollEnd? && e.poll in s.inflight
    && ApproverStands(s.inflight[e.poll].grant, s.inflight[e.poll].at, e.sessionRow, e.userRow, e.inactivity) && e.created
  }

  function Step(s: System, e: Event): System
    requires Enabled(s, e)
  {
    match e
    case StartDevice(name, ip, now, evicted, token, draws) =>
      var (t, a) := Start(s.table, name, ip, now, evicted, token, draws);
      s.(table := t, clock := now, used := if a.Started? then s.used + {token.value} else s.used)
    case PreviewDevice(code, user, now, evicted, pick) =>
      s.(table := PreviewGrant(s.table, code, user, now, evicted, pick).0, clock := now)
    case ConfirmDevice(code, user, session, authentic, now, evicted, pick) =>
      var (t, a) := Confirm(s.table, code, user, session, authentic, now, evicted, pick);
      s.(table := t, clock := now,
         approvals := if a.Confirmed? then s.approvals[pick := Approval(user, session)] else s.approvals)
    case PollBegin(poll, key, now) =>
      var (t, a) := Poll(s.table, key, now);
      s.(table := t, clock := now,
         inflight := if a.Taken? then s.inflight[poll := Exchange(key, a.grant, now)] else s.inflight,
         answered := if a.Taken? || a.Pending? then s.answered[key := now] else s.answered)
    case PollEnd(poll, session, user, inactivity, created, now) =>
      var x := s.inflight[poll];
      var t := s.(inflight := s.inflight - {poll}, clock := now);
      if !ApproverStands(x.grant, x.at, session, user, inactivity) then t
      else if created then t.(sessions := s.sessions + [Issue(x.key, user.value.id)])
      else t.(table := PutBack(s.table, x.key, x.grant, now))
  }

  // ---- invariants ----

  /** No two unconfirmed grants show the same code. */
  ghost predicate CodesUnique(m: map<string, Grant>) {
    forall k, l :: k in m && l in m && k != l && m[k].userID == "" && m[l].userID == "" ==> m[k].codeHash != m[l].codeHash
  }

  /** Each grant is in one place only: the table, one exchange, or one issued session. */
  ghost predicate OnePlace(tabled: set<string>, inflight: map<nat, Exchange>, sessions: seq<Issue>, used: set<string>) {
    && tabled <= used
    && (forall p :: p in inflight ==> inflight[p].key in used && inflight[p].key !in tabled)
    && (forall p, q :: p in inflight && q in inflight && p != q ==> inflight[p].key != inflight[q].key)
    && (forall i :: 0 <= i < |sessions| ==> sessions[i].key in used && sessions[i].key !in tabled)
    && (forall i, p :: 0 <= i < |sessions| && p in inflight ==> inflight[p].key != sessions[i].key)
    && (forall i, j :: 0 <= i < j < |sessions| ==> sessions[i].key != sessions[j].key)
  }

  /** What a grant carries is the approval recorded for it. */
  ghost predicate ApprovedBy(approvals: map<string, Approval>, key: string, g: Grant) {
    key in approvals && approvals[key] == Approval(g.userID, g.sessionID) && g.userID != ""
  }

  ghost predicate TableApprovals(grants: map<string, Grant>, approvals: map<string, Approval>) {
    forall k :: k in grants ==> if grants[k].userID == "" then k !in approvals else ApprovedBy(approvals, k, grants[k])
  }

  ghost predicate ExchangeApprovals(inflight: map<nat, Exchange>, sessions: seq<Issue>, approvals: map<string, Approval>) {
    && (forall p :: p in inflight ==> ApprovedBy(approvals, inflight[p].key, inflight[p].grant))
    && (forall i :: 0 <= i < |sessions| ==>
          sessions[i].key in approvals && approvals[sessions[i].key].user == sessions[i].user)
  }

  /** A grant answered at t will not be answered otherwise than slow_down before t + DEVICE_INTERVAL. */
  ghost predicate Paced(g: Grant, t: int) {
    g.nextPoll.Some? && g.nextPoll.value >= t + DEVICE_INTERVAL
  }

  ghost predicate TablePaced(grants: map<string, Grant>, answered: map<string, int>) {
    forall k :: k in grants && k in answered ==> Paced(grants[k], answered[k])
  }

  ghost predicate ExchangePaced(inflight: map<nat, Exchange>, answered: map<string, int>) {
    forall p :: p in inflight && inflight[p].key in answered ==> Paced(inflight[p].grant, answered[inflight[p].key])
  }

  ghost predicate Inv(s: System) {
    && CodesUnique(s.table.grants)
    && OnePlace(s.table.grants.Keys, s.inflight, s.sessions, s.used)
    && TableApprovals(s.table.grants, s.approvals)
    && ExchangeApprovals(s.inflight, s.sessions, s.approvals)
    && s.approvals.Keys <= s.used && s.answered.Keys <= s.used
    && (forall k :: k in s.answered ==> s.answered[k] <= s.clock)
    && TablePaced(s.table.grants, s.answered)
    && ExchangePaced(s.inflight, s.answered)
  }

  // ---- every step keeps them ----

  // The predicates one at a time, on the parts of the state they speak about.

  lemma CodesFewer(m: map<string, Grant>, n: map<string, Grant>)
    requires CodesUnique(m) && forall k :: k in n ==> k in m && n[k] == m[k]
    ensures CodesUnique(n)
  {
  }

  /** A grant that is, or becomes, confirmed may show any code. */
  lemma CodesConfirmed(m: map<string, Grant>, key: string, g: Grant)
    requires CodesUnique(m) && g.userID != ""
    ensures CodesUnique(m[key := g])
  {
  }

  lemma CodesFresh(m: map<string, Grant>, key: string, g: Grant)
    requires CodesUnique(m) && !CodeTaken(m, g.codeHash)
    ensures CodesUnique(m[key := g])
  {
    assert forall k :: k in m ==> m[k].codeHash != g.codeHash;
  }

  lemma CodesRetimed(m: map<string, Grant>, key: string, g: Grant)
    requires CodesUnique(m) && key in m && g.codeHash == m[key].codeHash && g.userID == m[key].userID
    ensures CodesUnique(m[key := g])
  {
  }

  lemma PlaceFewer(tabled: set<string>, fewer: set<string>, inflight: map<nat, Exchange>, sessions: seq<Issue>, used: set<string>)
    requires OnePlace(tabled, inflight, sessions, used) && fewer <= tabled
    ensures OnePlace(fewer, inflight, sessions, used)
  {
  }

  lemma PlaceStarted(tabled: set<string>, inflight: map<nat, Exchange>, sessions: seq<Issue>, used: set<string>, key: string)
    requires OnePlace(tabled, inflight, sessions, used) && key !in used
    ensures OnePlace(tabled + {key}, inflight, sessions, used + {key})
  {
  }

  lemma PlaceTaken(tabled: set<string>, inflight: map<nat, Exchange>, sessions: seq<Issue>, used: set<string>, poll: nat, x: Exchange)
    requires OnePlace(tabled, inflight, sessions, used) && x.key in tabled && poll !in inflight
    ensures OnePlace(tabled - {x.key}, inflight[poll := x], sessions, used)
  {
  }

  lemma PlaceDropped(tabled: set<string>, inflight: map<nat, Exchange>, sessions: seq<Issue>, used: set<string>, poll: nat)
    requires OnePlace(tabled, inflight, sessions, used)
    ensures OnePlace(tabled, inflight - {poll}, sessions, used)
  {
  }

  lemma PlaceReturned(tabled: set<string>, inflight: map<nat, Exchange>, sessions: seq<Issue>, used: set<string>, poll: nat)
    requires OnePlace(tabled, inflight, sessions, used) && poll in inflight
    ensures OnePlace(tabled + {inflight[poll].key}, inflight - {poll}, sessions, used)
  {
  }

  lemma PlaceIssued(tabled: set<string>, inflight: map<nat, Exchange>, sessions: seq<Issue>, used: set<string>, poll: nat, user: string)
    requires OnePlace(tabled, inflight, sessions, used) && poll in inflight
    ensures OnePlace(tabled, inflight - {poll}, sessions + [Issue(inflight[poll].key, user)], used)
  {
    var more := sessions + [Issue(inflight[poll].key, user)];
    assert forall i :: 0 <= i < |more| ==> more[i] == if i < |sessions| then sessions[i] else Issue(inflight[poll].key, user);
  }

  /** Expiry and quota bookkeeping. */
  lemma PrunedInv(s: System, t: Table, now: int)
    requires Inv(s) && s.clock <= now
    requires forall k :: k in t.grants ==> k in s.table.grants && t.grants[k] == s.table.grants[k]
    ensures Inv(s.(table := t, clock := now))
  {
    CodesFewer(s.table.grants, t.grants);
    PlaceFewer(s.table.grants.Keys, t.grants.Keys, s.inflight, s.sessions, s.used);
  }

  lemma AddGrantInv(s: System, key: string, g: Grant)
    requires Inv(s) && key !in s.used
    requires g.userID == "" && !CodeTaken(s.table.grants, g.codeHash)
    ensures Inv(s.(table := s.table.(grants := s.table.grants[key := g]), used := s.used + {key}))
  {
    CodesFresh(s.table.grants, key, g);
    PlaceStarted(s.table.grants.Keys, s.inflight, s.sessions, s.used, key);
    assert s.table.grants[key := g].Keys == s.table.grants.Keys + {key};
  }

  lemma ApproveInv(s: System, key: string, user: string, session: string)
    requires Inv(s) && key in s.table.grants && s.table.grants[key].userID == "" && user != ""
    ensures var g := s.table.grants[key].(userID := user, sessionID := session);
            Inv(s.(table := s.table.(grants := s.table.grants[key := g]),
                   approvals := s.approvals[key := Approval(user, session)]))
  {
    var g := s.table.grants[key].(userID := user, sessionID := session);
    var grants, approvals := s.table.grants[key := g], s.approvals[key := Approval(user, session)];
    assert grants.Keys == s.table.grants.Keys;
    CodesConfirmed(s.table.grants, key, g);
    assert TableApprovals(grants, approvals) by {
      forall k | k in grants ensures if grants[k].userID == "" then k !in approvals else ApprovedBy(approvals, k, grants[k]) {
        if k != key { assert k in s.table.grants; }
      }
    }
    assert ExchangeApprovals(s.inflight, s.sessions, approvals);
    assert approvals.Keys <= s.used;
    assert TablePaced(grants, s.answered) by {
      assert forall k :: k in grants ==> grants[k].nextPoll == s.table.grants[k].nextPoll;
    }
  }

  function Retimed(d: Table, key: string, next: int): Table
    requires key in d.grants
  {
    d.(grants := d.grants[key := d.grants[key].(nextPoll := Some(next))])
  }

  function Deferred(s: System, key: string, next: int, answered: map<string, int>): System
    requires key in s.table.grants
  {
    s.(table := Retimed(s.table, key, next), answered := answered)
  }

  lemma PacedRetimed(grants: map<string, Grant>, answered: map<string, int>, noted: map<string, int>, key: string, g: Grant, t: int)
    requires TablePaced(grants, answered) && key in grants && Paced(g, t)
    requires noted == answered || noted == answered[key := t]
    requires key in answered ==> answered[key] <= t
    ensures TablePaced(grants[key := g], noted)
  {
  }

  /** A grant is told to come back later; `answered` is noted unless it was told slow_down. */
  lemma RetimeInv(s: System, key: string, next: int, answered: map<string, int>)
    requires Inv(s) && key in s.table.grants
    requires next >= s.clock + DEVICE_INTERVAL
    requires answered == s.answered || answered == s.answered[key := s.clock]
    ensures Inv(Deferred(s, key, next, answered))
  {
    var g := s.table.grants[key].(nextPoll := Some(next));
    var grants := s.table.grants[key := g];
    assert grants.Keys == s.table.grants.Keys;
    CodesRetimed(s.table.grants, key, g);
    PacedRetimed(s.table.grants, s.answered, answered, key, g, s.clock);
    assert TableApprovals(grants, s.approvals) by { assert forall k :: k in grants ==> k in s.table.grants; }
    assert ExchangePaced(s.inflight, answered) by {
      assert forall p :: p in s.inflight ==> s.inflight[p].key != key;
    }
  }

  function Taking(v: System, poll: nat, key: string): System
    requires key in v.table.grants
  {
    v.(table := v.table.(grants := v.table.grants - {key}),
       inflight := v.inflight[poll := Exchange(key, v.table.grants[key], v.clock)])
  }

  lemma TakeInv(s: System, poll: nat, key: string)
    requires Inv(s) && poll !in s.inflight && key in s.table.grants && s.table.grants[key].userID != ""
    ensures Inv(Taking(s, poll, key))
  {
    var x := Exchange(key, s.table.grants[key], s.clock);
    CodesFewer(s.table.grants, s.table.grants - {key});
    PlaceTaken(s.table.grants.Keys, s.inflight, s.sessions, s.used, poll, x);
    assert (s.table.grants - {key}).Keys == s.table.grants.Keys - {key};
    assert ExchangeApprovals(s.inflight[poll := x], s.sessions, s.approvals);
    assert ExchangePaced(s.inflight[poll := x], s.answered);
  }

  lemma DropInv(s: System, poll: nat)
    requires Inv(s)
    ensures Inv(s.(inflight := s.inflight - {poll}))
  {
    PlaceDropped(s.table.grants.Keys, s.inflight, s.sessions, s.used, poll);
  }

  lemma IssueInv(s: System, poll: nat)
    requires Inv(s) && poll in s.inflight
    ensures var x := s.inflight[poll];
            Inv(s.(inflight := s.inflight - {poll}, sessions := s.sessions + [Issue(x.key, x.grant.userID)]))
  {
    var x := s.inflight[poll];
    PlaceIssued(s.table.grants.Keys, s.inflight, s.sessions, s.used, poll, x.grant.userID);
    var more := s.sessions + [Issue(x.key, x.grant.userID)];
    assert ApprovedBy(s.approvals, x.key, x.grant);
    assert forall i :: 0 <= i < |more| ==> more[i] == if i < |s.sessions| then s.sessions[i] else Issue(x.key, x.grant.userID);
    assert ExchangeApprovals(s.inflight - {poll}, more, s.approvals);
  }

  lemma ReturnInv(s: System, poll: nat)
    requires Inv(s) && poll in s.inflight
    ensures var x := s.inflight[poll];
            Inv(s.(inflight := s.inflight - {poll}, table := s.table.(grants := s.table.grants[x.key := x.grant])))
  {
    var x := s.inflight[poll];
    var grants := s.table.grants[x.key := x.grant];
    assert ApprovedBy(s.approvals, x.key, x.grant);
    CodesConfirmed(s.table.grants, x.key, x.grant);
    PlaceReturned(s.table.grants.Keys, s.inflight, s.sessions, s.used, poll);
    assert grants.Keys == s.table.grants.Keys + {x.key};
    assert TableApprovals(grants, s.approvals) by {
      forall k | k in grants ensures if grants[k].userID == "" then k !in s.approvals else ApprovedBy(s.approvals, k, grants[k]) {
        if k != x.key { assert k in s.table.grants; }
      }
    }
    assert TablePaced(grants, s.answered);
  }

  lemma StartInv(s: System, e: Event)
    requires Inv(s) && Enabled(s, e) && e.StartDevice?
    ensures Inv(Step(s, e))
  {
    var (t, a) := Start(s.table, e.name, e.ip, e.now, e.evicted, e.token, e.draws);
    var p := PruneGrants(s.table.grants, e.now);
    if a.Started? {
      PrunedInv(s, t.(grants := p), e.now);
      AddGrantInv(s.(table := t.(grants := p), clock := e.now), e.token.value, t.grants[e.token.value]);
    } else {
      PrunedInv(s, t, e.now);
    }
  }

  lemma ConfirmInv(s: System, e: Event)
    requires Inv(s) && Enabled(s, e) && e.ConfirmDevice?
    ensures Inv(Step(s, e))
  {
    var (t, a) := Confirm(s.table, e.code, e.user, e.session, e.authentic, e.now, e.evicted, e.pick);
    var p := PruneGrants(s.table.grants, e.now);
    if a.Confirmed? {
      PrunedInv(s, t.(grants := p), e.now);
      ApproveInv(s.(table := t.(grants := p), clock := e.now), e.pick, e.user, e.session);
    } else {
      PrunedInv(s, t, e.now);
    }
  }

  /** The first half of a poll on an already pruned table: nothing, slow_down, an answer, or a take. */
  function Polled(u: System, poll: nat, key: string): System {
    if key !in u.table.grants then u
    else if TooSoon(u.table.grants[key], u.clock)
    then Deferred(u, key, u.clock + 2 * DEVICE_INTERVAL, u.answered)
    else
      var v := Deferred(u, key, u.clock + DEVICE_INTERVAL, u.answered[key := u.clock]);
      if u.table.grants[key].userID == "" then v else Taking(v, poll, key)
  }

  lemma PollBeginIsPolled(s: System, e: Event)
    requires Enabled(s, e) && e.PollBegin?
    ensures Step(s, e) == Polled(s.(table := Prune(s.table, e.now), clock := e.now), e.poll, e.key)
  {
    var g := Prune(s.table, e.now).grants;
    if e.key in g && !TooSoon(g[e.key], e.now) && g[e.key].userID != "" {
      assert g[e.key := g[e.key].(nextPoll := Some(e.now + DEVICE_INTERVAL))] - {e.key} == g - {e.key};
    }
  }

  /** The three ways a poll of a known grant goes, each from the state it leaves. */
  lemma SlowedInv(u: System, v: System, poll: nat, key: string)
    requires key in u.table.grants && TooSoon(u.table.grants[key], u.clock)
    requires Inv(v) && v == Deferred(u, key, u.clock + 2 * DEVICE_INTERVAL, u.answered)
    ensures Inv(Polled(u, poll, key))
  {
    assert Polled(u, poll, key) == v;
  }

  lemma PendingInv(u: System, v: System, poll: nat, key: string)
    requires key in u.table.grants && !TooSoon(u.table.grants[key], u.clock) && u.table.grants[key].userID == ""
    requires Inv(v) && v == Deferred(u, key, u.clock + DEVICE_INTERVAL, u.answered[key := u.clock])
    ensures Inv(Polled(u, poll, key))
  {
    assert Polled(u, poll, key) == v;
  }

  lemma TakenInv(u: System, v: System, poll: nat, key: string)
    requires key in u.table.grants && !TooSoon(u.table.grants[key], u.clock) && u.table.grants[key].userID != ""
    requires Inv(v) && v == Deferred(u, key, u.clock + DEVICE_INTERVAL, u.answered[key := u.clock]) && poll !in v.inflight
    ensures Inv(Polled(u, poll, key))
  {
    TakeInv(v, poll, key);
    assert Polled(u, poll, key) == Taking(v, poll, key);
  }

  lemma AnsweredInv(u: System, poll: nat, key: string)
    requires Inv(u) && poll !in u.inflight && key in u.table.grants && !TooSoon(u.table.grants[key], u.clock)
    ensures Inv(Polled(u, poll, key))
  {
    var answered := u.answered[key := u.clock];
    var v := Deferred(u, key, u.clock + DEVICE_INTERVAL, answered);
    RetimeInv(u, key, u.clock + DEVICE_INTERVAL, answered);
    if u.table.grants[key].userID == "" { PendingInv(u, v, poll, key); } else { TakenInv(u, v, poll, key); }
  }

  lemma PolledInv(u: System, poll: nat, key: string)
    requires Inv(u) && poll !in u.inflight
    ensures Inv(Polled(u, poll, key))
  {
    if key in u.table.grants {
      if TooSoon(u.table.grants[key], u.clock) {
        RetimeInv(u, key, u.clock + 2 * DEVICE_INTERVAL, u.answered);
        SlowedInv(u, Deferred(u, key, u.clock + 2 * DEVICE_INTERVAL, u.answered), poll, key);
      } else {
        AnsweredInv(u, poll, key);
      }
    }
  }

  lemma PollBeginInv(s: System, e: Event)
    requires Inv(s) && Enabled(s, e) && e.PollBegin?
    ensures Inv(Step(s, e))
  {
    var u := s.(table := Prune(s.table, e.now), clock := e.now);
    PrunedInv(s, u.table, e.now);
    PolledInv(u, e.poll, e.key);
    PollBeginIsPolled(s, e);
  }

  lemma PollEndInv(s: System, e: Event)
    requires Inv(s) && Enabled(s, e) && e.PollEnd?
    ensures Inv(Step(s, e))
  {
    var x := s.inflight[e.poll];
    if !ApproverStands(x.grant, x.at, e.sessionRow, e.userRow, e.inactivity) {
      DropInv(s, e.poll);
    } else if e.created {
      IssueInv(s, e.poll);
    } else if e.now < x.grant.expires {
      ReturnInv(s, e.poll);
    } else {
      DropInv(s, e.poll);
    }
  }

  lemma StepInv(s: System, e: Event)
    requires Inv(s) && Enabled(s, e)
    ensures Inv(Step(s, e))
  {
    match e
    case StartDevice(_, _, _, _, _, _) => StartInv(s, e);
    case PreviewDevice(_, _, _, _, _) => PrunedInv(s, Step(s, e).table, e.now);
    case ConfirmDevice(_, _, _, _, _, _, _) => ConfirmInv(s, e);
    case PollBegin(_, _, _) => PollBeginInv(s, e);
    case PollEnd(_, _, _, _, _, _) => PollEndInv(s, e);
  }

  // ---- runs ----

  predicate Possible(s: System, es: seq<Event>)
    decreases |es|
  {
    es != [] ==> Enabled(s, es[0]) && Possible(Step(s, es[0]), es[1..])
  }

  function Run(s: System, es: seq<Event>): System
    requires Possible(s, es)
    decreases |es|
  {
    if es == [] then s else Run(Step(s, es[0]), es[1..])
  }

  lemma {:induction false} RunInv(s: System, es: seq<Event>)
    requires Inv(s) && Possible(s, es)
    ensures Inv(Run(s, es))
    decreases |es|
  {
    if es != [] {
      StepInv(s, es[0]);
      RunInv(Step(s, es[0]), es[1..]);
    }
  }

  /** In every interleaving each grant yields at most one session, and that session belongs to
      the user whose confirmation of this grant is on record. */
  lemma ExactlyOnceExchange(clock: int, es: seq<Event>, i: nat, j: nat)
    requires Possible(Init(clock), es)
    requires i < |Run(Init(clock), es).sessions| && j < |Run(Init(clock), es).sessions|
    ensures var s := Run(Init(clock), es);
            && (s.sessions[i].key == s.sessions[j].key ==> i == j)
            && s.sessions[i].key in s.approvals
            && s.approvals[s.sessions[i].key].user == s.sessions[i].user
  {
    RunInv(Init(clock), es);
  }

  lemma StepKeepsApproval(s: System, e: Event, key: string)
    requires TableApprovals(s.table.grants, s.approvals) && Enabled(s, e) && key in s.approvals
    ensures key in Step(s, e).approvals && Step(s, e).approvals[key] == s.approvals[key]
  {
    if e.ConfirmDevice? && AnswerOf(s, e).Confirmed? {
      assert e.pick in s.table.grants && s.table.grants[e.pick].userID == "";
    }
  }

  /** A confirmation is never reassigned: once a grant is approved its approver stays. */
  lemma {:induction false} ApprovalIsFinal(s: System, es: seq<Event>, key: string)
    requires Inv(s) && Possible(s, es) && key in s.approvals
    ensures key in Run(s, es).approvals && Run(s, es).approvals[key] == s.approvals[key]
    decreases |es|
  {
    if es != [] {
      StepInv(s, es[0]);
      StepKeepsApproval(s, es[0], key);
      ApprovalIsFinal(Step(s, es[0]), es[1..], key);
    }
  }

  /** Whatever order map iteration takes, a code selects at most one grant to preview or confirm. */
  lemma CodeSelectsOneGrant(clock: int, es: seq<Event>, code: string, now: int, k: string, l: string)
    requires Possible(Init(clock), es)
    requires var m := Matches(Prune(Run(Init(clock), es).table, now).grants, code); k in m && l in m
    ensures k == l
  {
    RunInv(Init(clock), es);
  }

  /** What settling poll `e` may do: issue its session, put its grant back unchanged where nothing
      else is and before it expires, or neither. */
  ghost predicate SettlesSafely(s: System, e: Event, t: System)
    requires e.PollEnd? && e.poll in s.inflight
  {
    var x := s.inflight[e.poll];
    && x.key !in s.table.grants
    && (x.key in t.table.grants ==>
          && t.table.grants == s.table.grants[x.key := x.grant]
          && e.now < x.grant.expires
          && t.sessions == s.sessions)
    && (|t.sessions| > |s.sessions| <==> Issues(s, e))
    && (Issues(s, e) ==> t.table == s.table && t.sessions == s.sessions + [Issue(x.key, x.grant.userID)])
  }

  lemma SettlingIsSafe(s: System, e: Event)
    requires Enabled(s, e) && e.PollEnd? && OnePlace(s.table.grants.Keys, s.inflight, s.sessions, s.used)
    ensures SettlesSafely(s, e, Step(s, e))
  {
  }

  /** Settling a failed exchange: the grant comes back unchanged, in a place nothing else took,
      and only while it has not expired. */
  lemma PutBackIsSafe(clock: int, es: seq<Event>, e: Event)
    requires Possible(Init(clock), es) && Enabled(Run(Init(clock), es), e) && e.PollEnd?
    ensures var s := Run(Init(clock), es); SettlesSafely(s, e, Step(s, e))
  {
    RunInv(Init(clock), es);
    SettlingIsSafe(Run(Init(clock), es), e);
  }

  /** A poll answered otherwise than `Invalid` meets a grant that has not expired. */
  lemma ExpiredGrantsAreInvalid(s: System, e: Event)
    requires Inv(s) && Enabled(s, e) && e.PollBegin?
    ensures !AnswerOf(s, e).Invalid? <==> e.key in s.table.grants && e.now < s.table.grants[e.key].expires
  {
  }

  /** Answers other than slow_down for one grant are at least DEVICE_INTERVAL apart. */
  lemma AnswersAreSpaced(clock: int, es: seq<Event>, e: Event)
    requires Possible(Init(clock), es) && Enabled(Run(Init(clock), es), e) && e.PollBegin?
    requires var a := AnswerOf(Run(Init(clock), es), e); a.Pending? || a.Taken?
    requires e.key in Run(Init(clock), es).answered
    ensures e.now >= Run(Init(clock), es).answered[e.key] + DEVICE_INTERVAL
  {
    RunInv(Init(clock), es);
  }
}
