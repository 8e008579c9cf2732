/** The transfer budget: concurrent progress reports raise a shared maximum by compare-and-swap
    and the first report above the limit cancels the transfer. */
module BudgetModel {
  import opened Common

  /** Where one call of observe stands. `Swapping` holds the value it loaded. */
  datatype Place = Loading | Swapping(current: int) | Checking | Cancelling | Done

  datatype Call = Call(downloaded: int, place: Place)

  datatype Budget = Budget(maxBytes: int, observed: int, tripped: bool, cancels: nat, calls: seq<Call>)

  /** A report arrives, or call k performs its next atomic action. */
  datatype Event = Report(downloaded: int) | Act(k: nat)

  function New(maxBytes: int): Budget { Budget(maxBytes, 0, false, 0, []) }

  predicate Exceeds(maxBytes: int, downloaded: int) { maxBytes > 0 && downloaded > maxBytes }

  function Put(b: Budget, k: nat, place: Place): Budget
    requires k < |b.calls|
  {
    b.(calls := b.calls[k := b.calls[k].(place := place)])
  }

  function Step(b: Budget, e: Event): Budget {
    match e
    case Report(d) => b.(calls := b.calls + [Call(d, if d <= 0 then Done else Loading)])
    case Act(k) =>
      if k >= |b.calls| then b
      else
        var d := b.calls[k].downloaded;
        match b.calls[k].place
        case Loading => Put(b, k, if d <= b.observed then Checking else Swapping(b.observed))
        case Swapping(c) =>
          if b.observed == c then Put(b.(observed := d), k, Checking) else Put(b, k, Loading)
        case Checking =>
          if Exceeds(b.maxBytes, d) && !b.tripped then Put(b.(tripped := true), k, Cancelling) else Put(b, k, Done)
        case Cancelling => Put(b.(cancels := b.cancels + 1), k, Done)
        case Done => b
  }

  function Run(b: Budget, es: seq<Event>): Budget
    decreases |es|
  {
    if es == [] then b else Step(Run(b, es[..|es| - 1]), es[|es| - 1])
  }

  // ---- invariant ----

  predicate PastSwap(c: Call) { c.place.Checking? || c.place.Cancelling? || (c.place.Done? && c.downloaded > 0) }

  predicate PastCheck(c: Call) { c.place.Cancelling? || (c.place.Done? && c.downloaded > 0) }

  /** What one call knows about the shared values. */
  ghost predicate CallSound(c: Call, maxBytes: int, observed: int, tripped: bool) {
    && (!c.place.Done? ==> c.downloaded > 0)
    && (c.place.Swapping? ==> c.place.current < c.downloaded && c.place.current <= observed)
    && (PastSwap(c) ==> c.downloaded <= observed)
    && (PastCheck(c) && Exceeds(maxBytes, c.downloaded) ==> tripped)
    && (c.place.Cancelling? ==> tripped)
  }

  ghost predicate Attained(observed: int, calls: seq<Call>) {
    observed == 0 || exists k :: 0 <= k < |calls| && calls[k].downloaded == observed && PastSwap(calls[k])
  }

  function CancelCount(calls: seq<Call>): nat {
    if calls == [] then 0 else (if calls[0].place.Cancelling? then 1 else 0) + CancelCount(calls[1..])
  }

  ghost predicate Inv(b: Budget) {
    && b.observed >= 0
    && (forall k :: 0 <= k < |b.calls| ==> CallSound(b.calls[k], b.maxBytes, b.observed, b.tripped))
    && Attained(b.observed, b.calls)
    && (b.tripped ==> Exceeds(b.maxBytes, b.observed))
    && b.cancels + CancelCount(b.calls) == if b.tripped then 1 else 0
  }

  lemma {:induction false} CancellingPut(calls: seq<Call>, k: nat, c: Call)
    requires k < |calls|
    ensures CancelCount(calls[k := c]) + (if calls[k].place.Cancelling? then 1 else 0)
         == CancelCount(calls) + (if c.place.Cancelling? then 1 else 0)
  {
    if k == 0 {
      assert calls[k := c][1..] == calls[1..];
    } else {
      CancellingPut(calls[1..], k - 1, c);
      assert calls[k := c][1..] == calls[1..][k - 1 := c];
    }
  }

  lemma {:induction false} CancellingAppend(calls: seq<Call>, c: Call)
    ensures CancelCount(calls + [c]) == CancelCount(calls) + (if c.place.Cancelling? then 1 else 0)
  {
    if calls == [] {
      assert calls + [c] == [c];
    } else {
      CancellingAppend(calls[1..], c);
      assert (calls + [c])[1..] == calls[1..] + [c];
    }
  }

  lemma AttainedPut(b: Budget, k: nat, place: Place)
    requires k < |b.calls| && Attained(b.observed, b.calls)
    requires PastSwap(b.calls[k]) ==> PastSwap(b.calls[k].(place := place))
    ensures Attained(b.observed, Put(b, k, place).calls)
  {
    if b.observed != 0 {
      var j :| 0 <= j < |b.calls| && b.calls[j].downloaded == b.observed && PastSwap(b.calls[j]);
      assert PastSwap(Put(b, k, place).calls[j]);
    }
  }

  lemma ReportInv(b: Budget, d: int)
    requires Inv(b)
    ensures Inv(Step(b, Report(d)))
  {
    var t := Step(b, Report(d));
    CancellingAppend(b.calls, t.calls[|b.calls|]);
    if b.observed != 0 {
      var j :| 0 <= j < |b.calls| && b.calls[j].downloaded == b.observed && PastSwap(b.calls[j]);
      assert t.calls[j] == b.calls[j];
    }
  }

  lemma ActAttained(b: Budget, k: nat)
    requires Inv(b) && k < |b.calls|
    ensures Attained(Step(b, Act(k)).observed, Step(b, Act(k)).calls)
  {
    var t := Step(b, Act(k));
    assert CallSound(b.calls[k], b.maxBytes, b.observed, b.tripped);
    if t.observed == b.observed {
      AttainedPut(b, k, t.calls[k].place);
    } else {
      assert PastSwap(t.calls[k]) && t.calls[k].downloaded == t.observed;
    }
  }

  /** What a call knows survives when the shared values only grow. */
  lemma SoundLater(c: Call, maxBytes: int, observed: int, later: int, tripped: bool, trippedLater: bool)
    requires CallSound(c, maxBytes, observed, tripped) && observed <= later && (tripped ==> trippedLater)
    ensures CallSound(c, maxBytes, later, trippedLater)
  {
  }

  lemma ActSound(b: Budget, k: nat)
    requires Inv(b) && k < |b.calls|
    ensures var t := Step(b, Act(k));
            && b.observed <= t.observed && (b.tripped ==> t.tripped)
            && CallSound(t.calls[k], t.maxBytes, t.observed, t.tripped)
            && |t.calls| == |b.calls| && t.maxBytes == b.maxBytes
            && (forall j :: 0 <= j < |b.calls| && j != k ==> t.calls[j] == b.calls[j])
            && (t.tripped ==> Exceeds(t.maxBytes, t.observed))
  {
    assert CallSound(b.calls[k], b.maxBytes, b.observed, b.tripped);
  }

  lemma ActInv(b: Budget, k: nat)
    requires Inv(b) && k < |b.calls|
    ensures Inv(Step(b, Act(k)))
  {
    var t := Step(b, Act(k));
    ActSound(b, k);
    ActAttained(b, k);
    CancellingPut(b.calls, k, t.calls[k]);
    forall j | 0 <= j < |t.calls| ensures CallSound(t.calls[j], t.maxBytes, t.observed, t.tripped) {
      if j != k { SoundLater(b.calls[j], b.maxBytes, b.observed, t.observed, b.tripped, t.tripped); }
    }
  }

  lemma {:induction false} RunInv(maxBytes: int, es: seq<Event>)
    ensures Inv(Run(New(maxBytes), es)) && Run(New(maxBytes), es).maxBytes == maxBytes
    decreases |es|
  {
    if es != [] {
      var b, e := Run(New(maxBytes), es[..|es| - 1]), es[|es| - 1];
      RunInv(maxBytes, es[..|es| - 1]);
      if e.Report? { ReportInv(b, e.downloaded); }
      else if e.k < |b.calls| { ActInv(b, e.k); }
    }
  }

  // ---- results ----

  ghost predicate Quiescent(b: Budget) { forall k :: 0 <= k < |b.calls| ==> b.calls[k].place.Done? }

  /** No interleaving ever lowers the observed value, nor takes back a cancellation. */
  lemma ObservedNeverDecreases(maxBytes: int, es: seq<Event>, e: Event)
    ensures var b := Run(New(maxBytes), es);
            && Step(b, e).observed >= b.observed
            && (b.tripped ==> Step(b, e).tripped)
            && Step(b, e).cancels >= b.cancels
  {
    RunInv(maxBytes, es);
    var b := Run(New(maxBytes), es);
    if e.Act? && e.k < |b.calls| { assert CallSound(b.calls[e.k], b.maxBytes, b.observed, b.tripped); }
  }

  /** Once every call has returned, the observed value is the largest positive report. */
  lemma ObservedIsMaximum(maxBytes: int, es: seq<Event>)
    requires Quiescent(Run(New(maxBytes), es))
    ensures var b := Run(New(maxBytes), es);
            && (forall k :: 0 <= k < |b.calls| ==> b.calls[k].downloaded <= b.observed)
            && (b.observed == 0 || exists k :: 0 <= k < |b.calls| && b.calls[k].downloaded == b.observed)
  {
    RunInv(maxBytes, es);
    var b := Run(New(maxBytes), es);
    forall k | 0 <= k < |b.calls| ensures b.calls[k].downloaded <= b.observed {
      assert CallSound(b.calls[k], b.maxBytes, b.observed, b.tripped);
    }
  }

  /** Once every call has returned, the kind is set exactly when some report exceeded the
      limit, and the transfer has then been cancelled exactly once. */
  lemma TrippedExactly(maxBytes: int, es: seq<Event>)
    requires Quiescent(Run(New(maxBytes), es))
    ensures var b := Run(New(maxBytes), es);
            && (b.tripped <==> exists k :: 0 <= k < |b.calls| && Exceeds(maxBytes, b.calls[k].downloaded))
            && b.cancels == if b.tripped then 1 else 0
  {
    RunInv(maxBytes, es);
    var b := Run(New(maxBytes), es);
    if b.tripped {
      var j :| 0 <= j < |b.calls| && b.calls[j].downloaded == b.observed && PastSwap(b.calls[j]);
      assert Exceeds(maxBytes, b.calls[j].downloaded);
    }
    forall k | 0 <= k < |b.calls| && Exceeds(maxBytes, b.calls[k].downloaded) ensures b.tripped {
      assert CallSound(b.calls[k], b.maxBytes, b.observed, b.tripped);
    }
    NoneCancelling(b.calls);
  }

  lemma {:induction false} NoneCancelling(calls: seq<Call>)
    requires forall k :: 0 <= k < |calls| ==> !calls[k].place.Cancelling?
    ensures CancelCount(calls) == 0
  {
    if calls != [] { NoneCancelling(calls[1..]); }
  }

  /** At every moment the transfer has been cancelled at most once, and only if the observed
      value was above the limit. */
  lemma CancelledAtMostOnce(maxBytes: int, es: seq<Event>)
    ensures var b := Run(New(maxBytes), es);
            && b.cancels <= 1
            && (b.cancels == 1 ==> b.tripped)
            && (b.tripped ==> 0 < maxBytes < b.observed)
  {
    RunInv(maxBytes, es);
  }

  /** A failed swap means another call has raised the observed value since it was loaded, so
      a retrying call comes strictly closer to its own report. */
  lemma RetryMeansProgress(maxBytes: int, es: seq<Event>, k: nat)
    requires var b := Run(New(maxBytes), es);
             k < |b.calls| && b.calls[k].place.Swapping? && Step(b, Act(k)).calls[k].place.Loading?
    ensures var b := Run(New(maxBytes), es); b.observed > b.calls[k].place.current
  {
    RunInv(maxBytes, es);
    var b := Run(New(maxBytes), es);
    assert CallSound(b.calls[k], b.maxBytes, b.observed, b.tripped);
  }

  // ---- the reason a stopped transfer reports ----

  datatype Failure = Timeout | FileTooLarge | Other

  datatype Outcome = NoError | Own(failure: Failure) | BudgetExceeded(cause: Option<Failure>)

  function Classify(tripped: bool, parentEnded: bool, err: Option<Failure>): Outcome {
    if err.None? then NoError
    else if parentEnded then Own(err.value)
    else if tripped then BudgetExceeded(None)
    else
      match err.value
      case Timeout => BudgetExceeded(Some(Timeout))
      case FileTooLarge => BudgetExceeded(Some(FileTooLarge))
      case Other => Own(Other)
  }

  /** What a failed transfer reports: its own error if the caller ended the job, and otherwise that the budget was exceeded,
      without the error after a report above the limit and with it for a timeout or an oversized file;
      every other error stays its own, and a transfer without an error has none. */
  lemma ReportsExactly(tripped: bool, parentEnded: bool, err: Option<Failure>)
    ensures Classify(tripped, parentEnded, err).NoError? <==> err.None?
    ensures err.Some? ==>
              var r := Classify(tripped, parentEnded, err);
              && (r == Own(err.value) <==> parentEnded || (!tripped && err.value.Other?))
              && (r == BudgetExceeded(None) <==> !parentEnded && tripped)
              && (r == BudgetExceeded(err) <==> !parentEnded && !tripped && (err.value.Timeout? || err.value.FileTooLarge?))
  {
  }

  /** Call k has returned after reporting more than the limit. */
  predicate ReportedExcess(b: Budget, k: nat)
    requires k < |b.calls|
  {
    b.calls[k].place.Done? && Exceeds(b.maxBytes, b.calls[k].downloaded)
  }

  /** Blaming the budget without a cause is justified by a report above the limit, and once
      the call that made such a report has returned, every failure is blamed on it unless
      the caller ended the job. */
  lemma BlameIsJustified(maxBytes: int, es: seq<Event>, parentEnded: bool, err: Failure)
    ensures var b := Run(New(maxBytes), es);
            var r := Classify(b.tripped, parentEnded, Some(err));
            && (r == BudgetExceeded(None) ==>
                  !parentEnded && exists k :: 0 <= k < |b.calls| && Exceeds(maxBytes, b.calls[k].downloaded))
            && (forall k :: 0 <= k < |b.calls| && ReportedExcess(b, k) && !parentEnded ==> r == BudgetExceeded(None))
  {
    RunInv(maxBytes, es);
    var b := Run(New(maxBytes), es);
    if b.tripped {
      var j :| 0 <= j < |b.calls| && b.calls[j].downloaded == b.observed && PastSwap(b.calls[j]);
      assert Exceeds(maxBytes, b.calls[j].downloaded);
    }
    forall k | 0 <= k < |b.calls| && ReportedExcess(b, k) ensures b.tripped {
      assert CallSound(b.calls[k], b.maxBytes, b.observed, b.tripped);
    }
  }
}
