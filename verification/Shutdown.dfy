/** The application object's share of a shutdown: the stamped deadline and the stop sequence. */
module ShutdownObjects {
  import opened Common
  import opened ShutdownModel

  class Application {
    const configured: int
    var shutdownDeadline: Option<int>
    // stopWorkersOnce, and how far its goroutine has come
    var stop: Stop
    ghost var starts: nat
    ghost var stamps: nat
    // the components whose Stop has returned
    ghost var returned: seq<Component>

    ghost predicate Valid()
      reads this
    {
      returned == SEQUENCE[..Position(stop)] && starts == (if stop.NotStarted? then 0 else 1) && stamps == (if shutdownDeadline.Some? then 1 else 0)
    }

    constructor (configured: int)
      ensures Valid() && this.configured == configured && shutdownDeadline.None? && stop.NotStarted?
    {
      this.configured := configured;
      shutdownDeadline, stop, starts, stamps, returned := None, NotStarted, 0, 0, [];
    }

    method ShutdownTimeout() returns (d: int)
      ensures d == Timeout(configured) > 0
    {
      if configured > 0 { return configured; }
      return FALLBACK_TIMEOUT;
    }

    method PhaseReserve() returns (reserve: int)
      ensures reserve == Reserve(configured)
      ensures 0 <= reserve <= MAX_PHASE_RESERVE && 4 * reserve <= Timeout(configured)
    {
      var t := ShutdownTimeout();
      reserve := t / 4;
      if reserve > MAX_PHASE_RESERVE { reserve := MAX_PHASE_RESERVE; }
    }

    /** Stamps the deadline on first use and returns it unchanged ever after. */
    method BeginShutdownBudget(now: int) returns (deadline: int)
      requires Valid()
      modifies this`shutdownDeadline, this`stamps
      ensures Valid() && shutdownDeadline == Some(deadline)
      ensures deadline == if old(shutdownDeadline).Some? then old(shutdownDeadline).value else now + Timeout(configured)
    {
      if shutdownDeadline.None? {
        var t := ShutdownTimeout();
        shutdownDeadline := Some(now + t);
        stamps := stamps + 1;
      }
      deadline := shutdownDeadline.value;
    }

    method DrainDeadline(now: int) returns (deadline: int)
      requires Valid()
      modifies this`shutdownDeadline, this`stamps
      ensures Valid() && shutdownDeadline.Some? && deadline == DrainBy(configured, shutdownDeadline.value)
      ensures old(shutdownDeadline).Some? ==> shutdownDeadline == old(shutdownDeadline)
      ensures old(shutdownDeadline).None? ==> now <= deadline <= shutdownDeadline.value
    {
      var final := BeginShutdownBudget(now);
      var reserve := PhaseReserve();
      deadline := final - 2 * reserve;
    }

    method WorkersDeadline(now: int) returns (deadline: int)
      requires Valid()
      modifies this`shutdownDeadline, this`stamps
      ensures Valid() && shutdownDeadline.Some? && deadline == WorkersBy(configured, shutdownDeadline.value)
      ensures old(shutdownDeadline).Some? ==> shutdownDeadline == old(shutdownDeadline)
      ensures DrainBy(configured, shutdownDeadline.value) <= deadline <= shutdownDeadline.value
    {
      var final := BeginShutdownBudget(now);
      var reserve := PhaseReserve();
      deadline := final - reserve;
    }

    /** Starts the stop sequence unless it was started before. */
    method StopWorkers()
      requires Valid()
      modifies this`stop, this`starts
      ensures Valid() && starts == 1
      ensures stop == if old(stop).NotStarted? then StopScheduler else old(stop)
    {
      if stop.NotStarted? {
        stop := StopScheduler;
        starts := starts + 1;
      }
    }

    /** The goroutine of the sequence finishes one of its calls; the workers are down with the last one. */
    method StopAdvances()
      requires Valid() && !stop.NotStarted? && !stop.WorkersDown?
      modifies this`stop, this`returned
      ensures Valid() && stop == NextStop(old(stop)) && !stop.NotStarted?
      ensures returned == old(returned) + [Called(old(stop))]
      ensures stop.WorkersDown? <==> returned == [Scheduler, Subscriptions, Manager, LibraryService]
    {
      returned := returned + [Called(stop)];
      stop := NextStop(stop);
    }
  }
}
