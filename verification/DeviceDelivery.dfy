/** What a device that behaves is given: its code, its approval and its session, in every
    interleaving with everyone else. */
module DeviceDelivery {
  import opened Common
  import opened DeviceModel
  import opened DeviceProtocol
  import opened DevicePolling

  // ---- what stays while nobody polls a grant ----

  lemma {:induction false} ClockOfRun(s: System, es: seq<Event>)
    requires Possible(s, es)
    ensures s.clock <= Run(s, es).clock
    decreases |es|
  {
    if es != [] { ClockOfRun(Step(s, es[0]), es[1..]); }
  }

  /** The grant of s under this key is there in t as it was, except that it may have been confirmed. */
  ghost predicate Stays(s: System, t: System, key: string)
    requires key in s.table.grants
  {
    key in t.table.grants && GrantStays(s.table.grants[key], t.table.grants[key])
  }

  ghost predicate GrantStays(g: Grant, h: Grant) {
    h == g || (g.userID == "" && h.userID != "" && h == g.(userID := h.userID, sessionID := h.sessionID))
  }

  lemma StartStays(s: System, e: Event, key: string)
    requires key in s.used && Enabled(s, e) && e.StartDevice? && key in s.table.grants && e.now < s.table.grants[key].expires
    ensures Stays(s, Step(s, e), key)
  {
  }

  lemma CodeStays(s: System, e: Event, key: string)
    requires Enabled(s, e) && (e.PreviewDevice? || e.ConfirmDevice?) && key in s.table.grants && e.now < s.table.grants[key].expires
    ensures Stays(s, Step(s, e), key)
  {
  }

  lemma OtherPolled(u: System, poll: nat, other: string, key: string)
    requires other != key && key in u.table.grants
    ensures key in Polled(u, poll, other).table.grants && Polled(u, poll, other).table.grants[key] == u.table.grants[key]
  {
  }

  lemma PollStays(s: System, e: Event, key: string)
    requires Enabled(s, e) && e.PollBegin? && e.key != key && key in s.table.grants && e.now < s.table.grants[key].expires
    ensures Stays(s, Step(s, e), key)
  {
    var u := s.(table := Prune(s.table, e.now), clock := e.now);
    assert u.table.grants[key] == s.table.grants[key];
    OtherPolled(u, e.poll, e.key, key);
    PollBeginIsPolled(s, e);
  }

  lemma SettleStays(s: System, e: Event, key: string)
    requires Enabled(s, e) && e.PollEnd? && s.inflight[e.poll].key != key && key in s.table.grants
    ensures Stays(s, Step(s, e), key)
  {
  }

  lemma StepStays(s: System, e: Event, key: string)
    requires Inv(s) && Enabled(s, e) && !Polls(e, key) && key in s.table.grants && e.now < s.table.grants[key].expires
    ensures Stays(s, Step(s, e), key)
  {
    match e
    case PollBegin(_, _, _) => PollStays(s, e, key);
    case PollEnd(_, _, _, _, _, _) => SettleStays(s, e, key);
    case StartDevice(_, _, _, _, _, _) => StartStays(s, e, key);
    case _ => CodeStays(s, e, key);
  }

  /** Whatever others do, an unexpired grant nobody polls stays, and a confirmed one is not changed at all. */
  lemma {:induction false} RunStays(s: System, es: seq<Event>, key: string)
    requires Inv(s) && Possible(s, es) && key in s.table.grants && Run(s, es).clock < s.table.grants[key].expires
    requires forall i :: 0 <= i < |es| ==> !Polls(es[i], key)
    ensures Stays(s, Run(s, es), key)
    decreases |es|
  {
    if es != [] {
      ClockOfRun(Step(s, es[0]), es[1..]);
      var t := Step(s, es[0]);
      StepStays(s, es[0], key);
      StepInv(s, es[0]);
      RunStays(t, es[1..], key);
      StaysTwice(s, t, Run(t, es[1..]), key);
    }
  }

  lemma StaysTwice(s: System, t: System, u: System, key: string)
    requires key in s.table.grants && Stays(s, t, key) && Stays(t, u, key)
    ensures Stays(s, u, key)
  {
  }

  // ---- pacing, exactly ----

  /** The interval the server asks for with this answer. */
  function Asked(a: Answer): int { if a.SlowDown? then 2 * DEVICE_INTERVAL else DEVICE_INTERVAL }

  lemma PollTimes(s: System, e: Event)
    requires Enabled(s, e) && e.PollBegin? && (AnswerOf(s, e).Pending? || AnswerOf(s, e).SlowDown?)
    ensures var t := Step(s, e).table.grants;
            && e.key in s.table.grants && e.key in t
            && t[e.key] == s.table.grants[e.key].(nextPoll := Some(e.now + Asked(AnswerOf(s, e))))
  {
    PollBeginIsPolled(s, e);
  }

  lemma PollAnswer(s: System, e: Event)
    requires Enabled(s, e) && e.PollBegin? && e.key in s.table.grants && e.now < s.table.grants[e.key].expires
    ensures var g := s.table.grants[e.key];
            AnswerOf(s, e) == if g.nextPoll.Some? && e.now < g.nextPoll.value then SlowDown
                              else if g.userID == "" then Pending
                              else Taken(g.(nextPoll := Some(e.now + DEVICE_INTERVAL)))
  {
  }

  /** After a poll that was told to wait, the next poll of the grant is told slow_down exactly if it comes
      before the interval asked for is over: five seconds after an answer, ten after a slow_down. */
  lemma SlowedExactly(s: System, e: Event, es: seq<Event>, f: Event)
    requires Inv(s) && Enabled(s, e) && e.PollBegin? && (AnswerOf(s, e).Pending? || AnswerOf(s, e).SlowDown?)
    requires Possible(Step(s, e), es) && (forall i :: 0 <= i < |es| ==> !Polls(es[i], e.key))
    requires Enabled(Run(Step(s, e), es), f) && Polls(f, e.key)
    requires e.key in s.table.grants && f.now < s.table.grants[e.key].expires
    ensures AnswerOf(Run(Step(s, e), es), f).SlowDown? <==> f.now < e.now + (if AnswerOf(s, e).SlowDown? then 10 else 5) * SECOND
  {
    PollTimes(s, e);
    StepInv(s, e);
    RunStays(Step(s, e), es, e.key);
    PollAnswer(Run(Step(s, e), es), f);
  }

  // ---- a failed exchange can be tried again ----

  /** The exchange of poll e failed although the approver stands, before the grant expired. */
  predicate FailsInTime(s: System, e: Event) {
    && e.PollEnd? && e.poll in s.inflight && !e.created && e.now < s.inflight[e.poll].grant.expires
    && ApproverStands(s.inflight[e.poll].grant, s.inflight[e.poll].at, e.sessionRow, e.userRow, e.inactivity)
  }

  /** In every run a failed exchange returns the grant unchanged. */
  lemma FailedExchangeReturnsGrant(clock: int, es: seq<Event>, e: Event)
    requires Possible(Init(clock), es) && Enabled(Run(Init(clock), es), e) && FailsInTime(Run(Init(clock), es), e)
    ensures var s := Run(Init(clock), es);
            var x := s.inflight[e.poll];
            var t := Step(s, e);
            && x.key !in s.table.grants && t.table.grants == s.table.grants[x.key := x.grant] && t.sessions == s.sessions
  {
    RunInv(Init(clock), es);
    FailedExchange(Run(Init(clock), es), e);
  }

  lemma FailedExchange(s: System, e: Event)
    requires Enabled(s, e) && FailsInTime(s, e) && OnePlace(s.table.grants.Keys, s.inflight, s.sessions, s.used)
    ensures var x := s.inflight[e.poll];
            var t := Step(s, e);
            x.key !in s.table.grants && t.table.grants == s.table.grants[x.key := x.grant] && t.sessions == s.sessions
  {
  }

  /** So the device can try again: whatever others do meanwhile, its next poll once the interval is over and
      before the grant expires takes the same approval. */
  lemma ReturnedGrantIsTakenAgain(clock: int, es: seq<Event>, e: Event, more: seq<Event>, f: Event)
    requires Possible(Init(clock), es) && Enabled(Run(Init(clock), es), e) && FailsInTime(Run(Init(clock), es), e)
    requires var s := Run(Init(clock), es);
             var x := s.inflight[e.poll];
             && Possible(Step(s, e), more) && (forall i :: 0 <= i < |more| ==> !Polls(more[i], x.key))
             && Enabled(Run(Step(s, e), more), f) && Polls(f, x.key)
             && f.now < x.grant.expires && (x.grant.nextPoll.Some? ==> x.grant.nextPoll.value <= f.now)
    ensures var x := Run(Init(clock), es).inflight[e.poll];
            AnswerOf(Run(Step(Run(Init(clock), es), e), more), f) == Taken(x.grant.(nextPoll := Some(f.now + DEVICE_INTERVAL)))
  {
    var s := Run(Init(clock), es);
    var x := s.inflight[e.poll];
    RunInv(Init(clock), es);
    FailedExchangeReturnsGrant(clock, es, e);
    StepInv(s, e);
    assert ApprovedBy(s.approvals, x.key, x.grant);
    ApprovedIsTaken(Step(s, e), more, f, x.key);
  }

  /** An approved grant that nobody polls is taken by the next poll after its interval and before it expires. */
  lemma ApprovedIsTaken(s: System, es: seq<Event>, f: Event, key: string)
    requires Inv(s) && key in s.table.grants && s.table.grants[key].userID != ""
    requires Possible(s, es) && (forall i :: 0 <= i < |es| ==> !Polls(es[i], key))
    requires Enabled(Run(s, es), f) && Polls(f, key) && f.now < s.table.grants[key].expires
    requires s.table.grants[key].nextPoll.Some? ==> s.table.grants[key].nextPoll.value <= f.now
    ensures AnswerOf(Run(s, es), f) == Taken(s.table.grants[key].(nextPoll := Some(f.now + DEVICE_INTERVAL)))
  {
    RunStays(s, es, key);
    PollAnswer(Run(s, es), f);
  }

  // ---- the approver ----

  /** A settled exchange issues a session exactly if the approving session still belongs to the approver, had neither
      expired nor been inactive for too long when the poll came, the approver is an enabled user, and
      the session could be created; it is then a session of the approver. */
  lemma IssuedExactly(clock: int, es: seq<Event>, e: Event)
    requires Possible(Init(clock), es) && Enabled(Run(Init(clock), es), e) && e.PollEnd?
    ensures var s := Run(Init(clock), es);
            var x := s.inflight[e.poll];
            && Step(s, e).sessions == s.sessions + (if Approves(x, e) && e.created then [Issue(x.key, x.grant.userID)] else [])
            && (!Approves(x, e) ==> Step(s, e).table == s.table && x.key !in s.table.grants)
  {
    RunInv(Init(clock), es);
    SettledExactly(Run(Init(clock), es), e);
  }

  /** What the rows read while poll e is settled say about the approver of exchange x. */
  predicate Approves(x: Exchange, e: Event)
    requires e.PollEnd?
  {
    && e.sessionRow.Some? && e.sessionRow.value.userID == x.grant.userID
    && x.at < e.sessionRow.value.expiresAt && x.at - e.sessionRow.value.lastSeenAt <= e.inactivity
    && e.userRow.Some? && e.userRow.value.enabled
  }

  lemma SettledExactly(s: System, e: Event)
    requires Enabled(s, e) && e.PollEnd? && OnePlace(s.table.grants.Keys, s.inflight, s.sessions, s.used)
    ensures var x := s.inflight[e.poll];
            && Step(s, e).sessions == s.sessions + (if Approves(x, e) && e.created then [Issue(x.key, x.grant.userID)] else [])
            && (!Approves(x, e) ==> Step(s, e).table == s.table && x.key !in s.table.grants)
  {
  }

  // ---- from the start to the session ----

  /** A name a device may have. */
  predicate Nameable(name: string) {
    name != "" && |name| <= 64 && forall i :: 0 <= i < |name| ==> name[i] != '\r' && name[i] != '\n' && name[i] != '\t'
  }

  /** A start is invalid exactly if the name is empty, longer than 64 bytes or broken into lines or columns, and then changes
      nothing. */
  lemma StartInvalidExactly(s: System, e: Event)
    requires Enabled(s, e) && e.StartDevice?
    ensures AnswerOf(s, e).Invalid? <==> !Nameable(e.name)
    ensures AnswerOf(s, e).Invalid? ==> Step(s, e).table == s.table
  {
  }

  /** A start that may go on fails exactly if no token or, among the first eight draws, no free code can be had; it has then used up
      one of the address's starts and made no grant. */
  lemma StartFailsExactly(s: System, e: Event)
    requires Enabled(s, e) && e.StartDevice? && Nameable(e.name) && !AnswerOf(s, e).Limited?
    ensures AnswerOf(s, e).Failed? <==> e.token.None? || forall j :: 0 <= j < |e.draws| && j < 8 ==> ShownNow(s, e.draws[j], e.now)
    ensures AnswerOf(s, e).Failed? ==> Step(s, e).table.grants == PruneGrants(s.table.grants, e.now)
    ensures e.ip in Step(s, e).table.starts && Step(s, e).table.starts[e.ip] == Get(PruneAttempts(s.table.starts, e.now), e.ip) + [e.now]
  {
    var p := PruneGrants(s.table.grants, e.now);
    var draws := if |e.draws| <= CODE_ATTEMPTS then e.draws else e.draws[..CODE_ATTEMPTS];
    FreeCodeExactly(p, draws);
    forall j | 0 <= j < |draws| ensures CodeTaken(p, draws[j]) <==> ShownNow(s, e.draws[j], e.now) {
      ShownIsTaken(s, e.draws[j], e.now);
    }
  }

  lemma {:induction false} FreeCodeExactly(m: map<string, Grant>, draws: seq<string>)
    ensures FreeCode(m, draws).None? <==> forall j :: 0 <= j < |draws| ==> CodeTaken(m, draws[j])
  {
    if draws != [] { FreeCodeExactly(m, draws[1..]); }
  }

  /** A start that is not refused and whose draws hold a code no unexpired grant shows is given the first such code,
      among the first eight. */
  lemma StartSucceeds(s: System, e: Event, k: nat)
    requires Enabled(s, e) && e.StartDevice? && Nameable(e.name) && !AnswerOf(s, e).Limited? && e.token.Some?
    requires k < |e.draws| && k < 8 && !ShownNow(s, e.draws[k], e.now) && forall j :: 0 <= j < k ==> ShownNow(s, e.draws[j], e.now)
    ensures AnswerOf(s, e) == Started(e.draws[k])
    ensures var t := Step(s, e).table.grants;
            e.token.value in t && t[e.token.value] == Grant(e.draws[k], e.name, "", "", e.now + DEVICE_TTL, None)
  {
    var p := PruneGrants(s.table.grants, e.now);
    var draws := if |e.draws| <= CODE_ATTEMPTS then e.draws else e.draws[..CODE_ATTEMPTS];
    forall j | 0 <= j <= k ensures CodeTaken(p, draws[j]) <==> j < k {
      assert draws[j] == e.draws[j];
      ShownIsTaken(s, draws[j], e.now);
    }
    FirstFreeCode(p, draws, k);
  }

  /** An unexpired grant shows this code. */
  ghost predicate ShownNow(s: System, code: string, now: int) {
    exists key :: key in s.table.grants && now < s.table.grants[key].expires && s.table.grants[key].codeHash == code
  }

  lemma ShownIsTaken(s: System, code: string, now: int)
    ensures ShownNow(s, code, now) <==> CodeTaken(PruneGrants(s.table.grants, now), code)
  {
    var p := PruneGrants(s.table.grants, now);
    if ShownNow(s, code, now) {
      var key :| key in s.table.grants && now < s.table.grants[key].expires && s.table.grants[key].codeHash == code;
      assert key in p && p[key].codeHash == code;
    }
    if CodeTaken(p, code) {
      var key :| key in p && p[key].codeHash == code;
      assert key in s.table.grants;
    }
  }

  lemma {:induction false} FirstFreeCode(m: map<string, Grant>, draws: seq<string>, k: nat)
    requires k < |draws| && !CodeTaken(m, draws[k]) && forall j :: 0 <= j < k ==> CodeTaken(m, draws[j])
    ensures FreeCode(m, draws) == Some(draws[k])
  {
    if k > 0 { FirstFreeCode(m, draws[1..], k - 1); }
  }

  /** The grant a code is for: unexpired, unconfirmed, showing it. */
  predicate Offered(s: System, key: string, code: string, now: int) {
    && key in s.table.grants && now < s.table.grants[key].expires
    && s.table.grants[key].codeHash == code && s.table.grants[key].userID == ""
  }

  lemma OfferedMatches(s: System, key: string, code: string, now: int)
    ensures Offered(s, key, code, now) <==> key in Matches(Prune(s.table, now).grants, code)
  {
  }

  lemma PickIsOffered(s: System, e: Event, key: string)
    requires CodesUnique(s.table.grants) && Enabled(s, e) && (e.PreviewDevice? || e.ConfirmDevice?) && Offered(s, key, e.code, e.now)
    ensures e.pick == key
  {
    OfferedMatches(s, key, e.code, e.now);
    OfferedMatches(s, e.pick, e.code, e.now);
  }

  /** A preview that is not refused shows the name given at the start and the expiry of the grant the code is for, and
      is invalid if there is none; it approves nothing. */
  lemma PreviewAnswersExactly(clock: int, es: seq<Event>, e: Event, key: string)
    requires Possible(Init(clock), es) && Enabled(Run(Init(clock), es), e) && e.PreviewDevice?
    ensures var s := Run(Init(clock), es);
            var a := AnswerOf(s, e);
            && Step(s, e).approvals == s.approvals
            && (!a.Limited? && Offered(s, key, e.code, e.now) ==> a == Preview(s.table.grants[key].name, s.table.grants[key].expires))
            && (a.Preview? ==> Offered(s, e.pick, e.code, e.now))
  {
    RunInv(Init(clock), es);
    var s := Run(Init(clock), es);
    OfferedMatches(s, e.pick, e.code, e.now);
    if Offered(s, key, e.code, e.now) { PickIsOffered(s, e, key); }
  }

  /** A confirmation by an authenticated user that is not refused approves the grant the code is for, for exactly
      this user and session, and is invalid if there is none; no other grant is approved. */
  lemma ConfirmAnswersExactly(clock: int, es: seq<Event>, e: Event, key: string)
    requires Possible(Init(clock), es) && Enabled(Run(Init(clock), es), e) && e.ConfirmDevice?
    ensures var s := Run(Init(clock), es);
            var a := AnswerOf(s, e);
            && (!e.authentic ==> a.Invalid? && Step(s, e).table == s.table)
            && (e.authentic && !a.Limited? && Offered(s, key, e.code, e.now) ==>
                  a.Confirmed? && Approved(s, Step(s, e), key, e.user, e.session))
            && (a.Confirmed? ==> Offered(s, e.pick, e.code, e.now) && e.authentic)
  {
    RunInv(Init(clock), es);
    ConfirmedExactly(Run(Init(clock), es), e, key);
  }

  lemma ConfirmedExactly(s: System, e: Event, key: string)
    requires CodesUnique(s.table.grants) && Enabled(s, e) && e.ConfirmDevice?
    ensures var a := AnswerOf(s, e);
            && (!e.authentic ==> a.Invalid? && Step(s, e).table == s.table)
            && (e.authentic && !a.Limited? && Offered(s, key, e.code, e.now) ==>
                  a.Confirmed? && Approved(s, Step(s, e), key, e.user, e.session))
            && (a.Confirmed? ==> Offered(s, e.pick, e.code, e.now) && e.authentic)
  {
    OfferedMatches(s, e.pick, e.code, e.now);
    if Offered(s, key, e.code, e.now) { PickIsOffered(s, e, key); }
  }

  /** Grant `key` of s is approved in t, and every other grant of t is as it was in s. */
  ghost predicate Approved(s: System, t: System, key: string, user: string, session: string)
    requires key in s.table.grants
  {
    && key in t.table.grants && t.table.grants[key] == s.table.grants[key].(userID := user, sessionID := session)
    && (forall k :: k in t.table.grants && k != key ==> k in s.table.grants && t.table.grants[k] == s.table.grants[k])
  }

  lemma UnconfirmedStep(s: System, e: Event, key: string)
    requires Inv(s) && Enabled(s, e) && key in s.table.grants && e.now < s.table.grants[key].expires
    requires s.table.grants[key].userID == "" && key !in Step(s, e).approvals
    ensures var t := Step(s, e).table.grants; key in t && t[key] == s.table.grants[key].(nextPoll := t[key].nextPoll)
  {
    if Polls(e, key) {
      PollAnswer(s, e);
      PollTimes(s, e);
    } else {
      StepStays(s, e, key);
      StepInv(s, e);
      UnapprovedStays(Step(s, e), s.table.grants[key], key);
    }
  }

  lemma UnapprovedStays(t: System, g: Grant, key: string)
    requires TableApprovals(t.table.grants, t.approvals) && key !in t.approvals
    requires key in t.table.grants && GrantStays(g, t.table.grants[key])
    ensures t.table.grants[key] == g.(nextPoll := t.table.grants[key].nextPoll)
  {
  }

  /** Until somebody confirms it, a started grant stays on offer with its code, name and expiry, polled or not. */
  lemma {:induction false} OfferStays(s: System, es: seq<Event>, key: string)
    requires Inv(s) && Possible(s, es) && key in s.table.grants && s.table.grants[key].userID == ""
    requires key !in Run(s, es).approvals && Run(s, es).clock < s.table.grants[key].expires
    ensures var t := Run(s, es).table.grants; key in t && t[key] == s.table.grants[key].(nextPoll := t[key].nextPoll)
    decreases |es|
  {
    if es != [] {
      var u := Step(s, es[0]);
      ClockOfRun(u, es[1..]);
      StepInv(s, es[0]);
      if key in u.approvals { ApprovalIsFinal(u, es[1..], key); }
      UnconfirmedStep(s, es[0], key);
      OfferStays(u, es[1..], key);
    }
  }

  lemma StepKeepsExchange(s: System, e: Event, poll: nat)
    requires Enabled(s, e) && poll in s.inflight && !(e.PollEnd? && e.poll == poll)
    ensures poll in Step(s, e).inflight && Step(s, e).inflight[poll] == s.inflight[poll]
  {
  }

  lemma {:induction false} RunKeepsExchange(s: System, es: seq<Event>, poll: nat)
    requires Possible(s, es) && poll in s.inflight && forall i :: 0 <= i < |es| ==> !(es[i].PollEnd? && es[i].poll == poll)
    ensures poll in Run(s, es).inflight && Run(s, es).inflight[poll] == s.inflight[poll]
    decreases |es|
  {
    if es != [] {
      StepKeepsExchange(s, es[0], poll);
      RunKeepsExchange(Step(s, es[0]), es[1..], poll);
    }
  }

  /** The poll p takes the approved grant of s once it is rested, whatever others did in between. */
  ghost predicate TakesApproved(s: System, wait: seq<Event>, p: Event)
    requires Possible(s, wait)
  {
    && p.PollBegin? && p.key in s.table.grants && s.table.grants[p.key].userID != ""
    && (forall i :: 0 <= i < |wait| ==> !Polls(wait[i], p.key))
    && Enabled(Run(s, wait), p) && p.now < s.table.grants[p.key].expires
    && (s.table.grants[p.key].nextPoll.Some? ==> s.table.grants[p.key].nextPoll.value <= p.now)
  }

  lemma ApprovedIsInFlight(s: System, wait: seq<Event>, p: Event)
    requires Inv(s) && Possible(s, wait) && TakesApproved(s, wait, p)
    ensures var t := Step(Run(s, wait), p);
            p.poll in t.inflight
            && t.inflight[p.poll] == Exchange(p.key, s.table.grants[p.key].(nextPoll := Some(p.now + DEVICE_INTERVAL)), p.now)
  {
    ApprovedIsTaken(s, wait, p, p.key);
  }

  /** Every approved device gets its session: in every run, a grant somebody confirmed is taken by the device's next
      rested poll before it expires, and when that exchange succeeds a session of the recorded approver is
      issued, however many events of others come in between. */
  lemma ApprovedDeviceIsSignedIn(clock: int, es: seq<Event>, wait: seq<Event>, p: Event, during: seq<Event>, e: Event)
    requires Possible(Init(clock), es) && Possible(Run(Init(clock), es), wait) && TakesApproved(Run(Init(clock), es), wait, p)
    requires var t := Step(Run(Run(Init(clock), es), wait), p);
             && Possible(t, during) && (forall i :: 0 <= i < |during| ==> !(during[i].PollEnd? && during[i].poll == p.poll))
             && e.PollEnd? && e.poll == p.poll && Enabled(Run(t, during), e) && e.created && Approves(Run(t, during).inflight[p.poll], e)
    ensures var s := Run(Init(clock), es);
            var u := Run(Step(Run(s, wait), p), during);
            p.key in s.approvals && Step(u, e).sessions == u.sessions + [Issue(p.key, s.approvals[p.key].user)]
  {
    var s := Run(Init(clock), es);
    RunInv(Init(clock), es);
    RunInv(s, wait);
    var t := Step(Run(s, wait), p);
    StepInv(Run(s, wait), p);
    RunInv(t, during);
    ApprovedIsInFlight(s, wait, p);
    RunKeepsExchange(t, during, p.poll);
    SettledExactly(Run(t, during), e);
    assert ApprovedBy(s.approvals, p.key, s.table.grants[p.key]);
  }
}
