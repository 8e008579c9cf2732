/** Controlled shutdown: one stamped budget, one stop sequence, and the phases of close, run
    beside the stop goroutine, the health drainer and whatever still queues snapshots.

    The pool's calls are contracts: sealing makes every later queueing a no-op, and
    `AwaitHealthPersistIdle` reports true only at a moment when nothing is queued or being written. */
module ShutdownModel {
  import opened Common

  const SECOND: int := 1_000_000_000
  const FALLBACK_TIMEOUT: int := 10 * SECOND
  const MAX_PHASE_RESERVE: int := 5 * SECOND

  // ---- the budget ----

  function Timeout(configured: int): int { if configured > 0 then configured else FALLBACK_TIMEOUT }

  /** Durations are non-negative here, so Go's division truncates as this one does. */
  function Reserve(configured: int): int { Min(Timeout(configured) / 4, MAX_PHASE_RESERVE) }

  function DrainBy(configured: int, final: int): int { final - 2 * Reserve(configured) }

  function WorkersBy(configured: int, final: int): int { final - Reserve(configured) }

  /** A positive configured value is the whole budget and anything else means ten seconds. The phases are in order,
      each tail phase gets a quarter of the budget rounded down, up to five seconds, and so the drain keeps at
      least half. */
  lemma BudgetIsOrdered(configured: int, start: int)
    ensures var final := start + Timeout(configured);
            && start < final
            && start <= DrainBy(configured, final) <= WorkersBy(configured, final) <= final
            && 2 * (DrainBy(configured, final) - start) >= final - start
            && final - start == (if configured > 0 then configured else 10 * SECOND)
            && WorkersBy(configured, final) - DrainBy(configured, final) == final - WorkersBy(configured, final) <= 5 * SECOND
            && (final - WorkersBy(configured, final) == 5 * SECOND
                || 4 * (final - WorkersBy(configured, final)) <= final - start < 4 * (final - WorkersBy(configured, final) + 1))
            && (final - WorkersBy(configured, final) == 5 * SECOND ==> final - start >= 20 * SECOND)
  {
  }

  // ---- the machine ----

  /** Where the main goroutine stands. */
  datatype Main =
    | Serving            // select on the listener and the signal
    | Draining           // server.Shutdown with the drain deadline
    | DrainWait          // awaitWorkers(drainDeadline), past its first look
    | Returning          // serve is about to return
    | CloseWait          // close: awaitWorkers(workersDeadline), past its first look
    | Flushing(down: bool)
    | IdleWait(down: bool)
    | Closing(down: bool, quiescent: bool)
    | Stopped

  /** The stop sequence in its order. */
  datatype Stop = NotStarted | StopScheduler | StopSubscriptions | StopManager | StopLibrary | WorkersDown

  datatype Component = Scheduler | Subscriptions | Manager | LibraryService

  /** What a controlled shutdown stops, in this order. */
  const SEQUENCE: seq<Component> := [Scheduler, Subscriptions, Manager, LibraryService]

  /** The component whose Stop is being called. */
  function Called(s: Stop): Component
    requires !s.NotStarted? && !s.WorkersDown?
  {
    match s
    case StopScheduler => Scheduler
    case StopSubscriptions => Subscriptions
    case StopManager => Manager
    case StopLibrary => LibraryService
  }

  /** How many Stop calls have returned. */
  function Position(s: Stop): nat {
    match s
    case NotStarted => 0
    case StopScheduler => 0
    case StopSubscriptions => 1
    case StopManager => 2
    case StopLibrary => 3
    case WorkersDown => 4
  }

  /** `starts` and `stamps` count how often the sequence was started and the deadline set;
      `returned` are the components whose Stop has returned, in order. */
  datatype App = App(
    configured: int,
    clock: int,
    main: Main,
    deadline: Option<int>,
    stamps: nat,
    stop: Stop,
    starts: nat,
    returned: seq<Component>,
    sealed: bool,
    queued: nat,
    writing: bool,
    databaseOpen: bool)

  datatype Event =
    | Tick(now: int)
    | ListenerFailed
    | Signal
    | DrainReturned
    | DrainDone(down: bool)
    | BeginClose
    | CloseDone(down: bool)
    | FlushReturned
    | IdleReported(quiescent: bool)
    | CloseDatabase
    | StopAdvances
    | QueueSnapshot(fromWorker: bool)
    | DrainerTakes
    | DrainerDone

  function Init(configured: int, clock: int): App {
    App(configured, clock, Serving, None, 0, NotStarted, 0, [], false, 0, false, true)
  }

  /** beginShutdownBudget: stamp on first use. */
  function Stamped(a: App): App {
    if a.deadline.Some? then a
    else a.(deadline := Some(a.clock + Timeout(a.configured)), stamps := a.stamps + 1)
  }

  /** stopWorkers: start the sequence on first use. */
  function Stopping(a: App): App {
    if a.stop.NotStarted? then a.(stop := StopScheduler, starts := a.starts + 1) else a
  }

  /** Workers exist until the manager's Stop has returned. */
  predicate WorkersMayRun(a: App) { Manager !in a.returned }

  predicate Idle(a: App) { a.queued == 0 && !a.writing }

  function NextStop(s: Stop): Stop {
    match s
    case NotStarted => NotStarted
    case StopScheduler => StopSubscriptions
    case StopSubscriptions => StopManager
    case StopManager => StopLibrary
    case StopLibrary => WorkersDown
    case WorkersDown => WorkersDown
  }

  /** After a wait for the workers in close: seal only when they are down. */
  function AfterWait(a: App, down: bool): App {
    a.(main := Flushing(down), sealed := a.sealed || down)
  }

  predicate Enabled(a: App, e: Event) {
    match e
    case Tick(now) => a.clock <= now
    case ListenerFailed => a.main.Serving?
    case Signal => a.main.Serving?
    case DrainReturned => a.main.Draining?
    case DrainDone(down) =>
      a.main.DrainWait? && a.deadline.Some?
      && (if down then a.stop.WorkersDown? else a.clock >= DrainBy(a.configured, a.deadline.value))
    case BeginClose => a.main.Returning?
    case CloseDone(down) =>
      a.main.CloseWait? && a.deadline.Some?
      && (if down then a.stop.WorkersDown? else a.clock >= WorkersBy(a.configured, a.deadline.value))
    case FlushReturned => a.main.Flushing?
    case IdleReported(quiescent) => a.main.IdleWait? && (quiescent ==> Idle(a))
    case CloseDatabase => a.main.Closing?
    case StopAdvances => !a.stop.NotStarted? && !a.stop.WorkersDown?
    case QueueSnapshot(fromWorker) => fromWorker ==> WorkersMayRun(a)
    case DrainerTakes => a.queued > 0 && !a.writing
    case DrainerDone => a.writing
  }

  function Step(a: App, e: Event): App
    requires Enabled(a, e)
  {
    match e
    case Tick(now) => a.(clock := now)
    case ListenerFailed => a.(main := Returning)
    case Signal => Stopping(Stamped(a)).(main := Draining)
    case DrainReturned =>
      // awaitWorkers looks once without waiting
      if a.stop.WorkersDown? then a.(main := Returning) else a.(main := DrainWait)
    case DrainDone(_) => a.(main := Returning)
    case BeginClose =>
      var b := Stopping(Stamped(a));
      if b.stop.WorkersDown? then AfterWait(b, true) else b.(main := CloseWait)
    case CloseDone(down) => AfterWait(a, down)
    case FlushReturned => a.(main := IdleWait(a.main.down))
    case IdleReported(quiescent) => a.(main := Closing(a.main.down, quiescent))
    case CloseDatabase =>
      a.(databaseOpen := a.databaseOpen && !(a.main.down && a.main.quiescent), main := Stopped)
    case StopAdvances => a.(stop := NextStop(a.stop), returned := a.returned + [Called(a.stop)])
    case QueueSnapshot(_) => if a.sealed then a else a.(queued := a.queued + 1)
    case DrainerTakes => a.(queued := a.queued - 1, writing := true)
    case DrainerDone => a.(writing := false)
  }

  // ---- invariant ----

  predicate InClose(m: Main) { m.CloseWait? || m.Flushing? || m.IdleWait? || m.Closing? || m.Stopped? }

  ghost predicate Inv(a: App) {
    && a.stamps == (if a.deadline.Some? then 1 else 0)
    && a.starts == (if a.stop.NotStarted? then 0 else 1)
    && a.returned == SEQUENCE[..Position(a.stop)]
    && (a.main.Draining? || a.main.DrainWait? || InClose(a.main) ==> a.deadline.Some? && !a.stop.NotStarted?)
    && (a.sealed ==> a.stop.WorkersDown?)
    && ((a.main.Flushing? || a.main.IdleWait? || a.main.Closing?) && a.main.down ==> a.sealed)
    && (a.main.Closing? && a.main.down && a.main.quiescent ==> Idle(a))
    && (!a.databaseOpen ==> a.sealed && Idle(a))
    && ((a.main.Flushing? || a.main.IdleWait? || a.main.Closing?) && a.sealed ==> a.main.down)
    && (a.sealed ==> InClose(a.main) && !a.main.CloseWait?)
    && (a.main.Serving? ==> a.deadline.None?)
  }

  predicate OfMain(e: Event) {
    !(e.Tick? || e.StopAdvances? || e.QueueSnapshot? || e.DrainerTakes? || e.DrainerDone?)
  }

  lemma MainInv(a: App, e: Event)
    requires Inv(a) && Enabled(a, e) && OfMain(e)
    ensures Inv(Step(a, e))
  {
  }

  lemma BackgroundInv(a: App, e: Event)
    requires Inv(a) && Enabled(a, e) && !OfMain(e)
    ensures Inv(Step(a, e))
  {
  }

  lemma StepInv(a: App, e: Event)
    requires Inv(a) && Enabled(a, e)
    ensures Inv(Step(a, e))
  {
    if OfMain(e) { MainInv(a, e); } else { BackgroundInv(a, e); }
  }

  /** The deadline stays once stamped, and a closed database stays closed. */
  lemma StepKeepsStamp(a: App, e: Event)
    requires Enabled(a, e)
    ensures a.deadline.Some? ==> Step(a, e).deadline == a.deadline
    ensures !a.databaseOpen ==> !Step(a, e).databaseOpen
    ensures Step(a, e).configured == a.configured
  {
  }

  predicate Possible(a: App, es: seq<Event>)
    decreases |es|
  {
    es != [] ==> Enabled(a, es[0]) && Possible(Step(a, es[0]), es[1..])
  }

  function Run(a: App, es: seq<Event>): App
    requires Possible(a, es)
    decreases |es|
  {
    if es == [] then a else Run(Step(a, es[0]), es[1..])
  }

  lemma {:induction false} RunInv(a: App, es: seq<Event>)
    requires Inv(a) && Possible(a, es)
    ensures Inv(Run(a, es)) && Run(a, es).configured == a.configured
    ensures a.deadline.Some? ==> Run(a, es).deadline == a.deadline
    ensures !a.databaseOpen ==> !Run(a, es).databaseOpen
    decreases |es|
  {
    if es != [] {
      StepInv(a, es[0]);
      StepKeepsStamp(a, es[0]);
      RunInv(Step(a, es[0]), es[1..]);
    }
  }

  /** Over every interleaving the stop sequence starts at most once and the deadline is stamped
      at most once, never to change. */
  lemma StartedAndStampedOnce(configured: int, clock: int, es: seq<Event>, more: seq<Event>)
    requires Possible(Init(configured, clock), es) && Possible(Run(Init(configured, clock), es), more)
    ensures var a := Run(Init(configured, clock), es);
            && a.starts <= 1 && a.stamps <= 1
            && (a.deadline.Some? ==> Run(a, more).deadline == a.deadline)
  {
    RunInv(Init(configured, clock), es);
    RunInv(Run(Init(configured, clock), es), more);
  }

  /** The database is closed only when scheduler, subscriptions, manager and library service have been stopped, in this
      order, and health persistence is sealed and idle, and whatever happens afterwards nothing is ever queued
      or written again. */
  lemma ClosedMeansQuiescentForever(configured: int, clock: int, es: seq<Event>, more: seq<Event>)
    requires Possible(Init(configured, clock), es) && Possible(Run(Init(configured, clock), es), more)
    requires !Run(Init(configured, clock), es).databaseOpen
    ensures var b := Run(Run(Init(configured, clock), es), more);
            !b.databaseOpen && b.returned == [Scheduler, Subscriptions, Manager, LibraryService] && b.sealed && Idle(b)
  {
    RunInv(Init(configured, clock), es);
    RunInv(Run(Init(configured, clock), es), more);
  }

  /** Close releases the database exactly when the workers came down in time and the pool
      reported rest; otherwise it is left to process exit. */
  lemma ClosesExactlyWhenSafe(configured: int, clock: int, es: seq<Event>)
    requires Possible(Init(configured, clock), es)
    requires var a := Run(Init(configured, clock), es); a.main.Closing? && a.databaseOpen
    ensures var a := Run(Init(configured, clock), es);
            && Enabled(a, CloseDatabase)
            && (!Step(a, CloseDatabase).databaseOpen <==> a.main.down && a.main.quiescent)
            && (a.main.down && a.main.quiescent ==> a.returned == SEQUENCE && a.sealed && Idle(a))
  {
    RunInv(Init(configured, clock), es);
  }

  /** In every run the components are stopped one after the other in their order, the workers count as down exactly
      when the last of them has stopped, and persistence is sealed only behind that: from the wait of close on,
      exactly if the workers came down in time. */
  lemma StopsInOrder(configured: int, clock: int, es: seq<Event>)
    requires Possible(Init(configured, clock), es)
    ensures var a := Run(Init(configured, clock), es);
            && a.returned <= [Scheduler, Subscriptions, Manager, LibraryService]
            && (a.stop.WorkersDown? <==> |a.returned| == 4)
            && (a.sealed ==> |a.returned| == 4)
            && (a.main.Flushing? || a.main.IdleWait? || a.main.Closing? ==> (a.sealed <==> a.main.down))
  {
    RunInv(Init(configured, clock), es);
  }

  /** A signal, and close at the latest, stamps the deadline from that moment on unless it was stamped before, and
      has the stop sequence running. */
  lemma ShutdownBeginsAtOnce(configured: int, clock: int, es: seq<Event>, e: Event)
    requires Possible(Init(configured, clock), es) && Enabled(Run(Init(configured, clock), es), e) && (e.Signal? || e.BeginClose?)
    ensures var a := Run(Init(configured, clock), es);
            var b := Step(a, e);
            && !b.stop.NotStarted?
            && b.deadline == (if a.deadline.Some? then a.deadline else Some(a.clock + if configured > 0 then configured else 10 * SECOND))
            && (e.Signal? ==> a.deadline.None?)
  {
    RunInv(Init(configured, clock), es);
  }

  predicate CanLeaveDrainWait(a: App) { Enabled(a, DrainDone(true)) || Enabled(a, DrainDone(false)) }

  predicate CanLeaveCloseWait(a: App) { Enabled(a, CloseDone(true)) || Enabled(a, CloseDone(false)) }

  /** The waits for the workers end exactly when the last component has stopped or their own deadline has passed. */
  lemma WaitsEndExactly(configured: int, clock: int, es: seq<Event>)
    requires Possible(Init(configured, clock), es)
    ensures var a := Run(Init(configured, clock), es);
            && (a.main.DrainWait? || a.main.CloseWait? ==> a.deadline.Some?)
            && (a.main.DrainWait? ==> (CanLeaveDrainWait(a) <==> |a.returned| == 4 || a.clock >= DrainBy(configured, a.deadline.value)))
            && (a.main.CloseWait? ==> (CanLeaveCloseWait(a) <==> |a.returned| == 4 || a.clock >= WorkersBy(configured, a.deadline.value)))
  {
    RunInv(Init(configured, clock), es);
  }

  /** Neither serve nor close goes on before the workers are down or the deadline of its own wait has passed, and close takes
      them for down exactly if that is not for the deadline alone. */
  lemma WaitsAreKept(configured: int, clock: int, es: seq<Event>, e: Event)
    requires Possible(Init(configured, clock), es) && Enabled(Run(Init(configured, clock), es), e)
    ensures var a := Run(Init(configured, clock), es);
            var b := Step(a, e);
            && ((a.main.Draining? || a.main.DrainWait?) && b.main.Returning? ==>
                  a.deadline.Some? && (|a.returned| == 4 || a.clock >= DrainBy(configured, a.deadline.value)))
            && (!a.main.Flushing? && b.main.Flushing? ==>
                  && b.deadline.Some?
                  && (if b.main.down then |a.returned| == 4 else a.clock >= WorkersBy(configured, b.deadline.value)))
  {
    RunInv(Init(configured, clock), es);
  }

  /** What close found out is what it acts on. */
  lemma FindingsAreKept(a: App, e: Event)
    requires Enabled(a, e) && (a.main.Flushing? || a.main.IdleWait?) && Step(a, e).main != a.main
    ensures var b := Step(a, e).main;
            if a.main.Flushing? then b == IdleWait(a.main.down) else e.IdleReported? && b == Closing(a.main.down, e.quiescent)
  {
  }

  // ---- no snapshot is lost ----

  /** The snapshots handed in before sealing, and those written. */
  function Accepted(a: App, es: seq<Event>): nat
    requires Possible(a, es)
    decreases |es|
  {
    if es == [] then 0 else (if es[0].QueueSnapshot? && !a.sealed then 1 else 0) + Accepted(Step(a, es[0]), es[1..])
  }

  function Written(es: seq<Event>): nat {
    if es == [] then 0 else (if es[0].DrainerDone? then 1 else 0) + Written(es[1..])
  }

  function Unwritten(a: App): nat { a.queued + if a.writing then 1 else 0 }

  lemma {:induction false} SnapshotsAreConserved(a: App, es: seq<Event>)
    requires Possible(a, es)
    ensures Unwritten(a) + Accepted(a, es) == Unwritten(Run(a, es)) + Written(es)
    decreases |es|
  {
    if es != [] { SnapshotsAreConserved(Step(a, es[0]), es[1..]); }
  }

  /** When the database is closed every health snapshot that was handed in before sealing has been written. */
  lemma ClosedLosesNothing(configured: int, clock: int, es: seq<Event>)
    requires Possible(Init(configured, clock), es) && !Run(Init(configured, clock), es).databaseOpen
    ensures Written(es) == Accepted(Init(configured, clock), es)
  {
    RunInv(Init(configured, clock), es);
    SnapshotsAreConserved(Init(configured, clock), es);
  }

  /** The main goroutine's own next event when nobody else moves: calls bounded by their context
      return, and waits end by their deadline or at once. */
  function OwnMove(a: App): Event
    requires !a.main.Serving? && !a.main.Stopped?
  {
    match a.main
    case Draining => DrainReturned
    case DrainWait => DrainDone(false)
    case Returning => BeginClose
    case CloseWait => CloseDone(false)
    case Flushing(_) => FlushReturned
    case IdleWait(_) => IdleReported(false)
    case Closing(_, _) => CloseDatabase
  }

  /** How many moves of its own the main goroutine still has to make at most. */
  function MovesLeft(m: Main): nat {
    match m
    case Serving => 8
    case Draining => 7
    case DrainWait => 6
    case Returning => 5
    case CloseWait => 4
    case Flushing(_) => 3
    case IdleWait(_) => 2
    case Closing(_, _) => 1
    case Stopped => 0
  }

  lemma OwnMoveAdvances(a: App)
    requires Inv(a) && !a.main.Serving? && !a.main.Stopped? && a.deadline.Some? && a.clock >= a.deadline.value
    ensures Enabled(a, OwnMove(a))
    ensures var b := Step(a, OwnMove(a));
            MovesLeft(b.main) < MovesLeft(a.main) && !b.main.Serving? && b.deadline == a.deadline && b.clock == a.clock
  {
    BudgetIsOrdered(a.configured, 0);
  }

  lemma {:induction false} FinishesAlone(a: App) returns (es: seq<Event>)
    requires Inv(a) && !a.main.Serving? && a.deadline.Some? && a.clock >= a.deadline.value
    ensures Possible(a, es) && |es| <= MovesLeft(a.main) && Run(a, es).main.Stopped? && Run(a, es).clock == a.clock
    decreases MovesLeft(a.main)
  {
    if a.main.Stopped? {
      es := [];
    } else {
      OwnMoveAdvances(a);
      StepInv(a, OwnMove(a));
      var rest := FinishesAlone(Step(a, OwnMove(a)));
      es := [OwnMove(a)] + rest;
      assert es[1..] == rest;
    }
  }

  /** The shutdown never hangs past its budget: from every state reached after the deadline was
      stamped and has passed, the main goroutine gets to the end by at most seven moves of its
      own, however the stop sequence, the drainer and the workers behave. */
  lemma ShutdownEndsByItsDeadline(configured: int, clock: int, es: seq<Event>) returns (own: seq<Event>)
    requires Possible(Init(configured, clock), es)
    requires var a := Run(Init(configured, clock), es); a.deadline.Some? && a.clock >= a.deadline.value
    ensures var a := Run(Init(configured, clock), es);
            Possible(a, own) && |own| <= 7 && Run(a, own).main.Stopped? && Run(a, own).clock == a.clock
  {
    RunInv(Init(configured, clock), es);
    NotServingOnceStamped(Init(configured, clock), es);
    own := FinishesAlone(Run(Init(configured, clock), es));
  }

  lemma {:induction false} NotServingOnceStamped(a: App, es: seq<Event>)
    requires Possible(a, es) && (a.deadline.Some? ==> !a.main.Serving?)
    ensures Run(a, es).deadline.Some? ==> !Run(a, es).main.Serving?
    decreases |es|
  {
    if es != [] { NotServingOnceStamped(Step(a, es[0]), es[1..]); }
  }
}
