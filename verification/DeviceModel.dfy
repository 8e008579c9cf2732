/** Device sign-in grants: the state behind `deviceGrants.mu` and what each locked section
    does to it. Token and code hashes are taken to be collision free, so a hash is an
    opaque string. */
module DeviceModel {
  import opened Common

  const SECOND: int := 1_000_000_000
  const DEVICE_TTL: int := 300 * SECOND
  const DEVICE_INTERVAL: int := 5 * SECOND
  const MAX_DEVICE_GRANTS: nat := 128
  const MAX_QUOTA_KEYS: nat := 1024
  const MAX_ADMISSIONS: nat := 10
  const CODE_ATTEMPTS: nat := 8

  /** `nextPoll` is None for the zero time. */
  datatype Grant = Grant(
    codeHash: string,
    name: string,
    userID: string,
    sessionID: string,
    expires: int,
    nextPoll: Option<int>)

  type Attempts = map<string, seq<int>>

  datatype Table = Table(grants: map<string, Grant>, starts: Attempts, confirmations: Attempts)

  datatype Answer = Invalid | Limited | Failed | Started(code: string) | Preview(name: string, expires: int)
                  | Confirmed | Pending | SlowDown | Taken(grant: Grant)

  const EMPTY: Table := Table(map[], map[], map[])

  // ---- admission ----

  /** The attempts still inside the window at `now`, in order. */
  function Recent(ts: seq<int>, now: int): seq<int> {
    if ts == [] then []
    else (if now - ts[0] < DEVICE_TTL then [ts[0]] else []) + Recent(ts[1..], now)
  }

  function PruneAttempts(m: Attempts, now: int): Attempts {
    map k | k in m && Recent(m[k], now) != [] :: Recent(m[k], now)
  }

  function PruneGrants(m: map<string, Grant>, now: int): map<string, Grant> {
    map k | k in m && now < m[k].expires :: m[k]
  }

  function Prune(d: Table, now: int): Table {
    Table(PruneGrants(d.grants, now), PruneAttempts(d.starts, now), PruneAttempts(d.confirmations, now))
  }

  /** The list of a key, empty when it is absent. */
  function Get(m: Attempts, key: string): seq<int> { if key in m then m[key] else [] }

  predicate Admissible(m: Attempts, key: string, maximum: nat) { |Get(m, key)| < maximum }

  /** Record an admission; `evicted` is the key that map iteration happens to meet first. */
  function Admit(m: Attempts, key: string, now: int, evicted: string): Attempts {
    var n := if key !in m && |m| >= MAX_QUOTA_KEYS then m - {evicted} else m;
    n[key := Get(n, key) + [now]]
  }

  // ---- the locked sections ----

  predicate ValidName(name: string) {
    0 < |name| <= 64 && '\r' !in name && '\n' !in name && '\t' !in name
  }

  predicate CodeTaken(m: map<string, Grant>, code: string) {
    exists k :: k in m && m[k].codeHash == code
  }

  /** The first drawn code no present grant uses. */
  function FreeCode(m: map<string, Grant>, draws: seq<string>): (r: Option<string>)
    ensures r.Some? ==> !CodeTaken(m, r.value)
  {
    if draws == [] then None
    else if CodeTaken(m, draws[0]) then FreeCode(m, draws[1..])
    else Some(draws[0])
  }

  /** `token` is the hash of the fresh device token, or None when the generator failed;
      `draws` are the code hashes drawn before the generator failed, if it did. */
  function Start(d: Table, name: string, ip: string, now: int, evicted: string,
                 token: Option<string>, draws: seq<string>): (Table, Answer)
  {
    if !ValidName(name) then (d, Invalid)
    else
      var p := Prune(d, now);
      if |p.grants| >= MAX_DEVICE_GRANTS || !Admissible(p.starts, ip, MAX_ADMISSIONS) then (p, Limited)
      else
        var q := p.(starts := Admit(p.starts, ip, now, evicted));
        if token.None? then (q, Failed)
        else
          var code := FreeCode(q.grants, if |draws| <= CODE_ATTEMPTS then draws else draws[..CODE_ATTEMPTS]);
          if code.None? then (q, Failed)
          else (q.(grants := q.grants[token.value := Grant(code.value, name, "", "", now + DEVICE_TTL, None)]),
                Started(code.value))
  }

  /** The unconfirmed grants that show this code. */
  function Matches(m: map<string, Grant>, code: string): set<string> {
    set k | k in m && m[k].codeHash == code && m[k].userID == ""
  }

  /** `pick` is the matching grant map iteration meets first. */
  function PreviewGrant(d: Table, code: string, user: string, now: int, evicted: string, pick: string): (Table, Answer) {
    var p := Prune(d, now);
    if !Admissible(p.confirmations, user, MAX_ADMISSIONS) then (p, Limited)
    else
      var q := p.(confirmations := Admit(p.confirmations, user, now, evicted));
      if pick in Matches(q.grants, code) then (q, Preview(q.grants[pick].name, q.grants[pick].expires)) else (q, Invalid)
  }

  /** `authentic`: an enabled user with a session of its own asks. */
  function Confirm(d: Table, code: string, user: string, session: string, authentic: bool, now: int,
                   evicted: string, pick: string): (Table, Answer)
  {
    if !authentic then (d, Invalid)
    else
      var p := Prune(d, now);
      if !Admissible(p.confirmations, user, MAX_ADMISSIONS) then (p, Limited)
      else
        var q := p.(confirmations := Admit(p.confirmations, user, now, evicted));
        if pick in Matches(q.grants, code)
        then (q.(grants := q.grants[pick := q.grants[pick].(userID := user, sessionID := session)]), Confirmed)
        else (q, Invalid)
  }

  predicate TooSoon(g: Grant, now: int) { g.nextPoll.Some? && now < g.nextPoll.value }

  /** The first half of a poll: answer at once, or take an approved grant out of the table. */
  function Poll(d: Table, key: string, now: int): (Table, Answer) {
    var p := Prune(d, now);
    if key !in p.grants then (p, Invalid)
    else
      var g := p.grants[key];
      if TooSoon(g, now)
      then (p.(grants := p.grants[key := g.(nextPoll := Some(now + 2 * DEVICE_INTERVAL))]), SlowDown)
      else
        var h := g.(nextPoll := Some(now + DEVICE_INTERVAL));
        if h.userID == "" then (p.(grants := p.grants[key := h]), Pending)
        else (p.(grants := p.grants - {key}), Taken(h))
  }

  /** The second half after `createSession` failed: put the grant back unless it expired. */
  function PutBack(d: Table, key: string, g: Grant, now: int): Table {
    if now < g.expires then d.(grants := d.grants[key := g]) else d
  }

  // ---- the exchange ----

  datatype SessionRow = SessionRow(userID: string, expiresAt: int, lastSeenAt: int)
  datatype UserRow = UserRow(id: string, enabled: bool)

  /** The approving session and its user still stand, judged at the time of the poll. */
  predicate ApproverStands(g: Grant, at: int, session: Option<SessionRow>, user: Option<UserRow>, inactivity: int) {
    && session.Some? && session.value.userID == g.userID
    && at < session.value.expiresAt && at - session.value.lastSeenAt <= inactivity
    && user.Some? && user.value.enabled
  }

  // ---- the client ----

  /** Retryable: a timeout, a dropped connection or a 5xx answer; Rejected: a definite refusal. */
  datatype Reply = Authorized | AuthorizationPending | ToldSlowDown | Retryable | Rejected

  /** How the polling client changes its waiting time, in seconds. */
  function NextInterval(interval: int, r: Reply): int {
    if r.ToldSlowDown? then Min(30, interval + 5) else interval
  }
}
