/** The polling client against the server's pacing. */
module DevicePolling {
  import opened Common
  import opened DeviceModel
  import opened DeviceProtocol

  predicate Polls(e: Event, key: string) { e.PollBegin? && e.key == key }

  /** Wherever the grant is, it may be polled again from `until` on. */
  ghost predicate Rested(s: System, key: string, until: int) {
    && (key in s.table.grants && s.table.grants[key].nextPoll.Some? ==> s.table.grants[key].nextPoll.value <= until)
    && (forall p :: p in s.inflight && s.inflight[p].key == key && s.inflight[p].grant.nextPoll.Some? ==>
          s.inflight[p].grant.nextPoll.value <= until)
  }

  lemma OtherPollKeepsRested(u: System, poll: nat, other: string, key: string, until: int)
    requires other != key && poll !in u.inflight && Rested(u, key, until)
    ensures Rested(Polled(u, poll, other), key, until)
  {
  }

  /** A table without newly timed grants is as rested as before. */
  lemma SameTimesKeepRested(s: System, t: System, key: string, until: int)
    requires Rested(s, key, until) && t.inflight == s.inflight
    requires key in t.table.grants ==>
               t.table.grants[key].nextPoll.None?
               || (key in s.table.grants && t.table.grants[key].nextPoll == s.table.grants[key].nextPoll)
    ensures Rested(t, key, until)
  {
  }

  lemma StartKeepsRested(s: System, e: Event, key: string, until: int)
    requires Enabled(s, e) && e.StartDevice? && Rested(s, key, until)
    ensures Rested(Step(s, e), key, until)
  {
    SameTimesKeepRested(s, Step(s, e), key, until);
  }

  lemma CodeKeepsRested(s: System, e: Event, key: string, until: int)
    requires Enabled(s, e) && (e.PreviewDevice? || e.ConfirmDevice?) && Rested(s, key, until)
    ensures Rested(Step(s, e), key, until)
  {
    SameTimesKeepRested(s, Step(s, e), key, until);
  }

  lemma PollKeepsRested(s: System, e: Event, key: string, until: int)
    requires Enabled(s, e) && e.PollBegin? && e.key != key && Rested(s, key, until)
    ensures Rested(Step(s, e), key, until)
  {
    var u := s.(table := Prune(s.table, e.now), clock := e.now);
    SameTimesKeepRested(s, u, key, until);
    OtherPollKeepsRested(u, e.poll, e.key, key, until);
    PollBeginIsPolled(s, e);
  }

  /** Only polls of the grant itself move its next poll. */
  lemma OthersKeepRested(s: System, e: Event, key: string, until: int)
    requires Enabled(s, e) && !Polls(e, key) && Rested(s, key, until)
    ensures Rested(Step(s, e), key, until)
  {
    match e
    case StartDevice(_, _, _, _, _, _) => StartKeepsRested(s, e, key, until);
    case PollBegin(_, _, _) => PollKeepsRested(s, e, key, until);
    case PollEnd(_, _, _, _, _, _) => SettleKeepsRested(s, e, key, until);
    case _ => CodeKeepsRested(s, e, key, until);
  }

  lemma SettleKeepsRested(s: System, e: Event, key: string, until: int)
    requires Enabled(s, e) && e.PollEnd? && Rested(s, key, until)
    ensures Rested(Step(s, e), key, until)
  {
  }

  /** A poll after a rest is not told slow_down, and asks for one interval of rest. */
  lemma RestedPoll(s: System, e: Event, key: string, until: int)
    requires Inv(s) && Enabled(s, e) && Polls(e, key) && Rested(s, key, until) && until <= e.now
    ensures !AnswerOf(s, e).SlowDown?
    ensures Rested(Step(s, e), key, e.now + DEVICE_INTERVAL)
  {
    PollBeginIsPolled(s, e);
  }

  /** A run in which every poll of the grant comes from one client that waits `interval`
      seconds after its previous poll, which it sent at `last`. */
  predicate SolePoller(s: System, es: seq<Event>, key: string, last: Option<int>, interval: int)
    requires Possible(s, es)
    decreases |es|
  {
    es != [] ==>
      if Polls(es[0], key) then
        && (last.Some? ==> es[0].now >= last.value + interval * SECOND)
        && SolePoller(Step(s, es[0]), es[1..], key, Some(es[0].now),
                      NextInterval(interval, if AnswerOf(s, es[0]).SlowDown? then ToldSlowDown else AuthorizationPending))
      else SolePoller(Step(s, es[0]), es[1..], key, last, interval)
  }

  ghost predicate NeverSlowed(s: System, es: seq<Event>, key: string)
    requires Possible(s, es)
    decreases |es|
  {
    es != [] ==>
      && !(Polls(es[0], key) && AnswerOf(s, es[0]).SlowDown?)
      && NeverSlowed(Step(s, es[0]), es[1..], key)
  }

  lemma {:induction false} SolePollerStep(s: System, es: seq<Event>, key: string, last: Option<int>, interval: int, until: int)
    requires Inv(s) && Possible(s, es) && SolePoller(s, es, key, last, interval)
    requires interval >= 5 && Rested(s, key, until)
    requires if last.Some? then until <= last.value + DEVICE_INTERVAL else until <= s.clock
    ensures NeverSlowed(s, es, key)
    decreases |es|
  {
    if es != [] {
      StepInv(s, es[0]);
      if Polls(es[0], key) {
        RestedPoll(s, es[0], key, until);
        SolePollerStep(Step(s, es[0]), es[1..], key, Some(es[0].now), interval, es[0].now + DEVICE_INTERVAL);
      } else {
        OthersKeepRested(s, es[0], key, until);
        SolePollerStep(Step(s, es[0]), es[1..], key, last, interval, until);
      }
    }
  }

  /** A client that alone polls a grant and waits its interval after each answer is never told
      slow_down, whatever everyone else does in between. */
  lemma SolePollerIsNeverSlowed(clock: int, es: seq<Event>, key: string, interval: int)
    requires interval >= 5 && Possible(Init(clock), es) && SolePoller(Init(clock), es, key, None, interval)
    ensures NeverSlowed(Init(clock), es, key)
  {
    SolePollerStep(Init(clock), es, key, None, interval, clock);
  }

  lemma {:induction false} QuietRunKeepsRested(s: System, es: seq<Event>, key: string, until: int)
    requires Inv(s) && Possible(s, es) && Rested(s, key, until)
    requires forall i :: 0 <= i < |es| ==> !Polls(es[i], key)
    ensures Inv(Run(s, es)) && Rested(Run(s, es), key, until)
    decreases |es|
  {
    if es != [] {
      StepInv(s, es[0]);
      OthersKeepRested(s, es[0], key, until);
      QuietRunKeepsRested(Step(s, es[0]), es[1..], key, until);
    }
  }

  /** A poll that came too soon asks for two intervals of rest. */
  lemma SlowedRests(s: System, e: Event, key: string)
    requires Inv(s) && Enabled(s, e) && Polls(e, key) && AnswerOf(s, e).SlowDown?
    ensures Rested(Step(s, e), key, e.now + 2 * DEVICE_INTERVAL)
  {
    PollBeginIsPolled(s, e);
  }

  /** After a slow_down, a client that waits its raised interval is not told slow_down again
      unless somebody else polled in between. */
  lemma RaisedIntervalSuffices(s: System, e: Event, es: seq<Event>, f: Event, key: string, interval: int)
    requires Inv(s) && Enabled(s, e) && Polls(e, key) && AnswerOf(s, e).SlowDown? && interval >= 5
    requires Possible(Step(s, e), es) && forall i :: 0 <= i < |es| ==> !Polls(es[i], key)
    requires Enabled(Run(Step(s, e), es), f) && Polls(f, key)
    requires f.now >= e.now + NextInterval(interval, ToldSlowDown) * SECOND
    ensures !AnswerOf(Run(Step(s, e), es), f).SlowDown?
  {
    StepInv(s, e);
    SlowedRests(s, e, key);
    QuietRunKeepsRested(Step(s, e), es, key, e.now + 2 * DEVICE_INTERVAL);
    RestedPoll(Run(Step(s, e), es), f, key, e.now + 2 * DEVICE_INTERVAL);
  }

  // ---- the client's loop ----

  /** One round of the loop as the environment plays it: how much longer than asked the sleep
      took, how long the request travelled, and what came back. */
  datatype Round = Round(oversleep: nat, travel: nat, reply: Reply)

  /** One request: sent after the wait, answered later. */
  datatype Attempt = Attempt(sent: int, answered: int, waited: int, reply: Reply)

  datatype Outcome = Approved | Expired | Refused

  /** The waiting time in force and the instant from which it is waited, after requests t. */
  function Waiting(t: seq<Attempt>, interval: int): int {
    if t == [] then interval else NextInterval(t[|t| - 1].waited, t[|t| - 1].reply)
  }

  function Since(t: seq<Attempt>, start: int): int {
    if t == [] then start else t[|t| - 1].answered
  }

  /** Each request waits the interval in force after the previous answer, at least five seconds. */
  ghost predicate Patient(t: seq<Attempt>, start: int, interval: int) {
    forall i :: 0 <= i < |t| ==>
      && t[i].waited == Waiting(t[..i], interval) >= 5
      && t[i].sent >= Since(t[..i], start) + t[i].waited * SECOND
      && t[i].answered >= t[i].sent
  }

  /** The requests after which the client went on. */
  ghost predicate WentOn(t: seq<Attempt>, deadline: int) {
    forall i :: 0 <= i < |t| ==>
      !t[i].reply.Authorized? && !t[i].reply.Rejected? && (i < |t| - 1 ==> t[i].answered < deadline)
  }

  lemma PatientAppend(t: seq<Attempt>, a: Attempt, start: int, interval: int)
    requires Patient(t, start, interval)
    requires a.waited == Waiting(t, interval) >= 5 && a.answered >= a.sent >= Since(t, start) + a.waited * SECOND
    ensures Patient(t + [a], start, interval)
  {
    forall i | 0 <= i < |t| + 1 ensures (t + [a])[..i] == t[..i] { }
  }

  lemma WentOnAppend(t: seq<Attempt>, a: Attempt, deadline: int)
    requires WentOn(t, deadline) && (t != [] ==> t[|t| - 1].answered < deadline)
    ensures !a.reply.Authorized? && !a.reply.Rejected? ==> WentOn(t + [a], deadline)
  {
  }

  /** Poll until approved, definitely refused or expired; `rounds` is what the environment plays. */
  method CompleteDeviceSignIn(expiresIn: int, offered: int, start: int, rounds: seq<Round>)
    returns (outcome: Outcome, trace: seq<Attempt>)
    ensures Patient(trace, start, Max(5, offered))
    ensures outcome.Approved? ==> trace != [] && trace[|trace| - 1].reply.Authorized?
    ensures outcome.Refused? ==> trace != [] && trace[|trace| - 1].reply.Rejected?
    ensures outcome.Expired? ==> WentOn(trace, start + expiresIn * SECOND)
    ensures !outcome.Expired? ==> WentOn(trace[..|trace| - 1], start + expiresIn * SECOND)
    ensures outcome.Expired? && |trace| < |rounds| ==> Since(trace, start) >= start + expiresIn * SECOND
  {
    var deadline := start + expiresIn * SECOND;
    var interval := Max(5, offered);
    var now := start;
    outcome, trace := Expired, [];
    while now < deadline && |trace| < |rounds|
      invariant |trace| <= |rounds| && outcome.Expired?
      invariant Patient(trace, start, Max(5, offered)) && WentOn(trace, deadline)
      invariant now == Since(trace, start)
      invariant interval == Waiting(trace, Max(5, offered)) >= 5
      decreases |rounds| - |trace|
    {
      var round := rounds[|trace|];
      var attempt := Attempt(now + interval * SECOND + round.oversleep,
                             now + interval * SECOND + round.oversleep + round.travel, interval, round.reply);
      PatientAppend(trace, attempt, start, Max(5, offered));
      WentOnAppend(trace, attempt, deadline);
      assert (trace + [attempt])[..|trace|] == trace;
      trace := trace + [attempt];
      now := attempt.answered;
      if round.reply.Rejected? { return Refused, trace; }
      if round.reply.Authorized? { return Approved, trace; }
      if round.reply.ToldSlowDown? { interval := Min(30, interval + 5); }
    }
  }

  // ---- the client's requests in a run of the server ----

  /** The polls of the grant in this run are requests of the trace: from request n on, the k-th
      poll is request served[k], handled while that request was under way. A client is told
      slow_down only by an answer it got; requests in between never arrived. */
  ghost predicate Carries(s: System, es: seq<Event>, key: string, t: seq<Attempt>, n: nat, served: seq<nat>)
    requires Possible(s, es)
    decreases |es|
  {
    es != [] ==>
      if Polls(es[0], key) then
        && served != [] && n <= served[0] < |t|
        && (forall j :: n <= j < served[0] ==> !t[j].reply.ToldSlowDown?)
        && t[served[0]].sent <= es[0].now <= t[served[0]].answered
        && (t[served[0]].reply.ToldSlowDown? ==> AnswerOf(s, es[0]).SlowDown?)
        && Carries(Step(s, es[0]), es[1..], key, t, served[0] + 1, served[1..])
      else Carries(Step(s, es[0]), es[1..], key, t, n, served)
  }

  /** While nobody is told slow_down, every request waits the interval of the first. */
  lemma {:induction false} WaitsStayTheSame(t: seq<Attempt>, start: int, interval: int, k: nat)
    requires Patient(t, start, interval) && k < |t| && forall j :: 0 <= j < k ==> !t[j].reply.ToldSlowDown?
    ensures t[k].waited == interval
  {
    assert t[k].waited == Waiting(t[..k], interval);
    if k > 0 {
      assert t[..k][k - 1] == t[k - 1];
      WaitsStayTheSame(t, start, interval, k - 1);
    }
  }

  /** A later request is sent an interval after an earlier one was answered. */
  lemma {:induction false} RequestsAreApart(t: seq<Attempt>, start: int, interval: int, i: nat, k: nat)
    requires Patient(t, start, interval) && i < k < |t| && forall j :: 0 <= j < k ==> !t[j].reply.ToldSlowDown?
    ensures t[k].sent >= t[i].answered + interval * SECOND
    decreases k
  {
    WaitsStayTheSame(t, start, interval, k);
    assert Since(t[..k], start) == t[k - 1].answered;
    if i < k - 1 {
      RequestsAreApart(t, start, interval, i, k - 1);
      assert t[k - 1].answered >= t[k - 1].sent && interval >= 5;
    }
  }

  /** Where the client stands after n requests, the last of which to be handled was at `last`. */
  ghost predicate Standing(t: seq<Attempt>, n: nat, last: Option<int>, until: int, clock: int) {
    && n <= |t| && (forall j :: 0 <= j < n ==> !t[j].reply.ToldSlowDown?)
    && if last.Some? then n > 0 && last.value <= t[n - 1].answered && until <= last.value + DEVICE_INTERVAL else until <= clock
  }

  lemma NextRequestIsLater(t: seq<Attempt>, start: int, interval: int, n: nat, last: Option<int>, until: int, clock: int,
                           k: nat, now: int)
    requires Patient(t, start, interval) && interval >= 5 && Standing(t, n, last, until, clock)
    requires n <= k < |t| && (forall j :: n <= j < k ==> !t[j].reply.ToldSlowDown?) && clock <= now && t[k].sent <= now
    ensures until <= now && (last.Some? ==> now >= last.value + interval * SECOND)
  {
    if last.Some? { RequestsAreApart(t, start, interval, n - 1, k); }
  }

  lemma FoldPoll(s: System, es: seq<Event>, key: string, last: Option<int>, interval: int)
    requires Possible(s, es) && es != [] && Polls(es[0], key) && !AnswerOf(s, es[0]).SlowDown?
    requires last.Some? ==> es[0].now >= last.value + interval * SECOND
    requires SolePoller(Step(s, es[0]), es[1..], key, Some(es[0].now), interval) && NeverSlowed(Step(s, es[0]), es[1..], key)
    ensures SolePoller(s, es, key, last, interval) && NeverSlowed(s, es, key)
  {
  }

  lemma FoldOther(s: System, es: seq<Event>, key: string, last: Option<int>, interval: int)
    requires Possible(s, es) && (es != [] ==> !Polls(es[0], key))
    requires es != [] ==> SolePoller(Step(s, es[0]), es[1..], key, last, interval) && NeverSlowed(Step(s, es[0]), es[1..], key)
    ensures SolePoller(s, es, key, last, interval) && NeverSlowed(s, es, key)
  {
  }

  lemma PollStep(s: System, e: Event, key: string, until: int)
    requires Inv(s) && Enabled(s, e) && Polls(e, key) && Rested(s, key, until) && until <= e.now
    ensures Inv(Step(s, e)) && Rested(Step(s, e), key, e.now + DEVICE_INTERVAL) && !AnswerOf(s, e).SlowDown?
    ensures Step(s, e).clock == e.now
  {
    StepInv(s, e);
    RestedPoll(s, e, key, until);
  }

  lemma OtherStep(s: System, e: Event, key: string, until: int)
    requires Inv(s) && Enabled(s, e) && !Polls(e, key) && Rested(s, key, until)
    ensures Inv(Step(s, e)) && Rested(Step(s, e), key, until) && Step(s, e).clock >= s.clock
  {
    StepInv(s, e);
    OthersKeepRested(s, e, key, until);
  }

  lemma CarriedPoll(s: System, es: seq<Event>, key: string, t: seq<Attempt>, n: nat, served: seq<nat>)
    requires Possible(s, es) && Carries(s, es, key, t, n, served) && es != [] && Polls(es[0], key)
    ensures served != [] && n <= served[0] < |t| && (forall j :: n <= j < served[0] ==> !t[j].reply.ToldSlowDown?)
    ensures t[served[0]].sent <= es[0].now <= t[served[0]].answered
    ensures t[served[0]].reply.ToldSlowDown? ==> AnswerOf(s, es[0]).SlowDown?
    ensures Carries(Step(s, es[0]), es[1..], key, t, served[0] + 1, served[1..])
  {
  }

  /** The first poll of what is left is answered, and everything stands for the next. */
  lemma PatientPoll(s: System, e: Event, key: string, t: seq<Attempt>, start: int, interval: int, n: nat, k: nat,
                    last: Option<int>, until: int)
    requires Inv(s) && Enabled(s, e) && Polls(e, key) && Patient(t, start, interval) && interval >= 5
    requires Rested(s, key, until) && Standing(t, n, last, until, s.clock)
    requires n <= k < |t| && (forall j :: n <= j < k ==> !t[j].reply.ToldSlowDown?) && t[k].sent <= e.now <= t[k].answered
    requires t[k].reply.ToldSlowDown? ==> AnswerOf(s, e).SlowDown?
    ensures Inv(Step(s, e)) && Rested(Step(s, e), key, e.now + DEVICE_INTERVAL) && !AnswerOf(s, e).SlowDown?
    ensures last.Some? ==> e.now >= last.value + interval * SECOND
    ensures Standing(t, k + 1, Some(e.now), e.now + DEVICE_INTERVAL, Step(s, e).clock)
  {
    NextRequestIsLater(t, start, interval, n, last, until, s.clock, k, e.now);
    PollStep(s, e, key, until);
  }

  /** Server and client stand so that the next request of the client will find the grant rested. */
  ghost predicate InStep(s: System, key: string, t: seq<Attempt>, n: nat, last: Option<int>, until: int) {
    Inv(s) && Rested(s, key, until) && Standing(t, n, last, until, s.clock)
  }

  lemma InStepAfterPoll(s: System, e: Event, key: string, t: seq<Attempt>, start: int, interval: int, n: nat, k: nat,
                        last: Option<int>, until: int)
    requires InStep(s, key, t, n, last, until) && Enabled(s, e) && Polls(e, key) && Patient(t, start, interval) && interval >= 5
    requires n <= k < |t| && (forall j :: n <= j < k ==> !t[j].reply.ToldSlowDown?) && t[k].sent <= e.now <= t[k].answered
    requires t[k].reply.ToldSlowDown? ==> AnswerOf(s, e).SlowDown?
    ensures InStep(Step(s, e), key, t, k + 1, Some(e.now), e.now + DEVICE_INTERVAL)
    ensures !AnswerOf(s, e).SlowDown? && (last.Some? ==> e.now >= last.value + interval * SECOND)
  {
    PatientPoll(s, e, key, t, start, interval, n, k, last, until);
  }

  lemma InStepAfterOther(s: System, e: Event, key: string, t: seq<Attempt>, n: nat, last: Option<int>, until: int)
    requires InStep(s, key, t, n, last, until) && Enabled(s, e) && !Polls(e, key)
    ensures InStep(Step(s, e), key, t, n, last, until)
  {
    OtherStep(s, e, key, until);
  }

  lemma {:induction false} PatientStep(s: System, es: seq<Event>, key: string, t: seq<Attempt>, start: int, interval: int,
                                      n: nat, served: seq<nat>, last: Option<int>, until: int)
    requires Possible(s, es) && Patient(t, start, interval) && interval >= 5
    requires Carries(s, es, key, t, n, served) && InStep(s, key, t, n, last, until)
    ensures SolePoller(s, es, key, last, interval) && NeverSlowed(s, es, key)
    decreases |es|, 1
  {
    if es == [] {
      FoldOther(s, es, key, last, interval);
    } else if Polls(es[0], key) {
      PatientStepPoll(s, es, key, t, start, interval, n, served, last, until);
    } else {
      PatientStepOther(s, es, key, t, start, interval, n, served, last, until);
    }
  }

  /** One poll of the client: what is left is carried and in step again. */
  lemma PatientAdvance(s: System, es: seq<Event>, key: string, t: seq<Attempt>, start: int, interval: int, n: nat,
                       served: seq<nat>, last: Option<int>, until: int)
    requires Possible(s, es) && Patient(t, start, interval) && interval >= 5 && es != [] && Polls(es[0], key)
    requires Carries(s, es, key, t, n, served) && InStep(s, key, t, n, last, until)
    ensures served != [] && Carries(Step(s, es[0]), es[1..], key, t, served[0] + 1, served[1..])
    ensures InStep(Step(s, es[0]), key, t, served[0] + 1, Some(es[0].now), es[0].now + DEVICE_INTERVAL)
    ensures !AnswerOf(s, es[0]).SlowDown? && (last.Some? ==> es[0].now >= last.value + interval * SECOND)
  {
    CarriedPoll(s, es, key, t, n, served);
    InStepAfterPoll(s, es[0], key, t, start, interval, n, served[0], last, until);
  }

  lemma {:induction false} PatientStepPoll(s: System, es: seq<Event>, key: string, t: seq<Attempt>, start: int, interval: int,
                                          n: nat, served: seq<nat>, last: Option<int>, until: int)
    requires Possible(s, es) && Patient(t, start, interval) && interval >= 5 && es != [] && Polls(es[0], key)
    requires Carries(s, es, key, t, n, served) && InStep(s, key, t, n, last, until)
    ensures SolePoller(s, es, key, last, interval) && NeverSlowed(s, es, key)
    decreases |es|, 0
  {
    PatientAdvance(s, es, key, t, start, interval, n, served, last, until);
    PatientStep(Step(s, es[0]), es[1..], key, t, start, interval, served[0] + 1, served[1..], Some(es[0].now),
                es[0].now + DEVICE_INTERVAL);
    FoldPoll(s, es, key, last, interval);
  }

  lemma {:induction false} PatientStepOther(s: System, es: seq<Event>, key: string, t: seq<Attempt>, start: int, interval: int,
                                           n: nat, served: seq<nat>, last: Option<int>, until: int)
    requires Possible(s, es) && Patient(t, start, interval) && interval >= 5 && es != [] && !Polls(es[0], key)
    requires Carries(s, es, key, t, n, served) && InStep(s, key, t, n, last, until)
    ensures SolePoller(s, es, key, last, interval) && NeverSlowed(s, es, key)
    decreases |es|, 0
  {
    InStepAfterOther(s, es[0], key, t, n, last, until);
    PatientStep(Step(s, es[0]), es[1..], key, t, start, interval, n, served, last, until);
    FoldOther(s, es, key, last, interval);
  }

  /** Client and server together: when all polls of a grant are requests of one client that keeps
      to its intervals, whatever requests or answers are lost, the server takes it for the
      sole poller it is and never tells it slow_down. */
  lemma PatientClientIsNeverSlowed(clock: int, es: seq<Event>, key: string, t: seq<Attempt>, start: int, interval: int,
                                   served: seq<nat>)
    requires Possible(Init(clock), es) && Patient(t, start, interval) && interval >= 5
    requires Carries(Init(clock), es, key, t, 0, served)
    ensures SolePoller(Init(clock), es, key, None, interval) && NeverSlowed(Init(clock), es, key)
  {
    PatientStep(Init(clock), es, key, t, start, interval, 0, served, None, clock);
  }

  // ---- the waiting time in closed form ----

  /** How often the client was told slow_down. */
  function Slowdowns(t: seq<Attempt>): nat {
    if t == [] then 0 else Slowdowns(t[..|t| - 1]) + (if t[|t| - 1].reply.ToldSlowDown? then 1 else 0)
  }

  /** Before its request k the client waits the first interval, and after n slow_downs five seconds more for each,
      up to half a minute. */
  lemma {:induction false} WaitCountsSlowdowns(t: seq<Attempt>, start: int, interval: int, k: nat)
    requires Patient(t, start, interval) && k < |t|
    ensures t[k].waited == if Slowdowns(t[..k]) == 0 then interval else Min(30, interval + 5 * Slowdowns(t[..k]))
  {
    assert t[k].waited == Waiting(t[..k], interval);
    if k > 0 {
      assert t[..k][..k - 1] == t[..k - 1] && t[..k][k - 1] == t[k - 1];
      WaitCountsSlowdowns(t, start, interval, k - 1);
    }
  }
}
