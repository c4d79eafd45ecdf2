/**
 * What the handlers promise, one request or a sequence of requests at a time,
 * and the invariant that every reachable site keeps.
 */
module Properties {

  import opened Wrappers
  import opened Php
  import opened Transients
  import opened TaskKeys
  import opened Handlers

  /** A missing or "0" range is refused by every entry point and changes nothing. */
  lemma EmptyRangeRejected(w: World, dateRange: string)
    requires Empty(dateRange)
    ensures Schedule(w, dateRange) == Step(w, Error(Message(MissingRangeMessage)))
    ensures Reset(w, dateRange) == Step(w, Error(Message(MissingRangeMessage)))
    ensures StatusCheck(w, dateRange) == Error(Message(MissingRangeMessage))
    ensures Shortcode(w, dateRange) == MissingRangePage
  {
  }

  /** Before anything is scheduled, the as-written status check answers pending for every range. */
  lemma StatusCheckOnEmptySiteIsPending(start: int, dateRange: string)
    requires !Empty(dateRange)
    ensures StatusCheck(World(map[], start, []), dateRange) == Success(StatusData(Pending, None))
  {
  }

  /** Scheduling while the lock is held answers "already running" and changes nothing. */
  lemma ScheduleRefusedWhileLocked(w: World, dateRange: string)
    requires !Empty(dateRange) && LockHeld(w, LockKey(dateRange))
    ensures Schedule(w, dateRange) == Step(w, Error(Message(AlreadyRunningMessage)))
  {
  }

  /**
   * A successful schedule takes the lock for exactly one hour, enqueues exactly
   * one event for the range, and leaves every other key as it reads at any time.
   */
  lemma ScheduleTakesLock(w: World, dateRange: string, at: int, other: string)
    requires !Empty(dateRange) && !LockHeld(w, LockKey(dateRange))
    ensures Schedule(w, dateRange).reply == Success(Message(ScheduledMessage))
    ensures Get(Schedule(w, dateRange).world.store, at, LockKey(dateRange))
         == if at <= w.now + HourInSeconds then Some(RunningMarker) else None
    ensures Schedule(w, dateRange).world.queue == w.queue + [Event(w.now, TaskHook, ArgsFor(dateRange))]
    ensures other != LockKey(dateRange) ==>
      Get(Schedule(w, dateRange).world.store, at, other) == Get(w.store, at, other)
    ensures Get(Schedule(w, dateRange).world.store, at, CacheKey(dateRange)) == Get(w.store, at, CacheKey(dateRange))
  {
  }

  /** Two schedule requests in a row for one range: the second is refused and changes nothing. */
  lemma ScheduleTwiceRefusesSecond(w: World, dateRange: string)
    requires Schedule(w, dateRange).reply.Success?
    ensures var w1 := Schedule(w, dateRange).world;
      Schedule(w1, dateRange) == Step(w1, Error(Message(AlreadyRunningMessage)))
  {
  }

  /** The status check reports complete with exactly the cached HTML whenever a cache entry is live, whatever the locks say. */
  lemma CacheWinsOverLock(w: World, dateRange: string)
    requires !Empty(dateRange)
    requires Get(w.store, w.now, CacheKey(dateRange)).Some?
    ensures StatusCheck(w, dateRange) == Success(StatusData(Complete, Get(w.store, w.now, CacheKey(dateRange))))
    ensures IntendedStatusCheck(w, dateRange) == StatusCheck(w, dateRange)
    ensures Shortcode(w, dateRange) == CachedReport(Get(w.store, w.now, CacheKey(dateRange)).value, dateRange)
  {
  }

  /** Reset removes both keys of the range, always succeeds, and leaves every other key alone. */
  lemma ResetClears(w: World, dateRange: string, at: int, other: string)
    requires !Empty(dateRange)
    ensures Reset(w, dateRange).reply == Success(Message(ClearedMessage))
    ensures Get(Reset(w, dateRange).world.store, at, CacheKey(dateRange)) == None
    ensures Get(Reset(w, dateRange).world.store, at, LockKey(dateRange)) == None
    ensures other != CacheKey(dateRange) && other != LockKey(dateRange) ==>
      Get(Reset(w, dateRange).world.store, at, other) == Get(w.store, at, other)
  {
  }

  /** After a reset the range is pending, whatever state it was in: on the page and for the intended status check. */
  lemma ResetThenPending(w: World, dateRange: string)
    requires !Empty(dateRange)
    ensures var w1 := Reset(w, dateRange).world;
      && Shortcode(w1, dateRange) == TaskForm(dateRange, Pending, StylesFor(Pending))
      && IntendedStatusCheck(w1, dateRange) == Success(StatusData(Pending, None))
  {
  }

  /**
   * As written, the status check after a reset answers pending unless its own
   * key `'status-' . $date_range`, which reset does not delete, holds a lock.
   */
  lemma ResetThenStatusCheckAsWritten(w: World, dateRange: string)
    requires !Empty(dateRange)
    ensures var w1 := Reset(w, dateRange).world;
      StatusCheck(w1, dateRange)
        == Success(StatusData(if LockHeld(w, StatusCheckLockKey(dateRange)) then Running else Pending, None))
  {
  }

  /**
   * The cron hook with complete arguments caches the rendered report for one day
   * and then drops the lock, leaving every other key as it reads at any time;
   * with the arguments schedule enqueues, the range is then complete on the page
   * and for both status checks.
   */
  lemma CronExecCompletes(w: World, dateRange: string, dateText: string, render: (string, string) -> string, at: int, other: string)
    requires !Empty(dateRange)
    ensures var w1 := CronExec(w, ArgsFor(dateRange), dateText, render);
      var html := render(dateRange, ReportText(dateRange, dateText));
      && Get(w1.store, at, CacheKey(dateRange)) == (if at <= w.now + DayInSeconds then Some(html) else None)
      && Get(w1.store, at, LockKey(dateRange)) == None
      && StatusCheck(w1, dateRange) == Success(StatusData(Complete, Some(html)))
      && IntendedStatusCheck(w1, dateRange) == Success(StatusData(Complete, Some(html)))
      && Shortcode(w1, dateRange) == CachedReport(html, dateRange)
      && (other != CacheKey(dateRange) && other != LockKey(dateRange) ==>
            Get(w1.store, at, other) == Get(w.store, at, other))
  {
  }

  /** On the page, the form and the run button show exactly when pending, the running notice exactly when running, the result buttons never. */
  lemma ShortcodeVisibility(w: World, dateRange: string)
    requires !Empty(dateRange) && Get(w.store, w.now, CacheKey(dateRange)).None?
    ensures var p := Shortcode(w, dateRange);
      && p.TaskForm?
      && (p.styles.form == Block <==> p.status == Pending)
      && (p.styles.runButton == InlineBlock <==> p.status == Pending)
      && (p.styles.runningMessage == Block <==> p.status == Running)
      && p.styles.showButton == Hidden && p.styles.resetButton == Hidden
  {
  }

  /**
   * What every reachable site satisfies: the store holds only cache and lock
   * keys, every live lock holds "running" and times out within the hour, and
   * every queued event carries the arguments schedule builds for a non-empty range.
   */
  ghost predicate Invariant(w: World)
  {
    && (forall k :: k in w.store ==> IsCacheKey(k) || IsLockKey(k))
    && (forall k :: k in w.store && IsLockKey(k) ==>
          w.store[k].value == RunningMarker
          && w.store[k].timeout.Some? && w.store[k].timeout.value <= w.now + HourInSeconds)
    && (forall i :: 0 <= i < |w.queue| ==>
          w.queue[i].hook == TaskHook && !Empty(w.queue[i].args.dateRange)
          && w.queue[i].args == ArgsFor(w.queue[i].args.dateRange))
  }

  /** A fresh site satisfies the invariant. */
  lemma InitialInvariant(start: int)
    ensures Invariant(World(map[], start, []))
  {
  }

  lemma ScheduleKeepsInvariant(w: World, dateRange: string)
    requires Invariant(w)
    ensures Invariant(Schedule(w, dateRange).world)
  {
  }

  lemma ResetKeepsInvariant(w: World, dateRange: string)
    requires Invariant(w)
    ensures Invariant(Reset(w, dateRange).world)
  {
  }

  lemma TickKeepsInvariant(w: World, seconds: nat)
    requires Invariant(w)
    ensures Invariant(w.(now := w.now + seconds))
  {
  }

  /** The cron hook keeps the invariant when it runs an event that schedule enqueued. */
  lemma CronExecKeepsInvariant(w: World, i: nat, dateText: string, render: (string, string) -> string)
    requires Invariant(w) && i < |w.queue|
    ensures Invariant(CronExec(w, w.queue[i].args, dateText, render))
  {
    KeyKinds(w.queue[i].args.dateRange);
  }

  /** Running any enqueued event completes its range. */
  lemma QueuedEventCompletes(w: World, i: nat, dateText: string, render: (string, string) -> string)
    requires Invariant(w) && i < |w.queue|
    ensures var r := w.queue[i].args.dateRange;
      PageStatus(Shortcode(CronExec(w, w.queue[i].args, dateText, render), r)) == Some(Complete)
  {
  }

  /**
   * Self-healing: more than an hour after the last request, no lock of a
   * reachable site is live, so no range shows as running; a range without a
   * cached result is pending again with no reset.
   */
  lemma LocksExpireWithinHour(w: World, dateRange: string, seconds: nat)
    requires Invariant(w) && !Empty(dateRange)
    requires seconds > HourInSeconds
    ensures var later := w.(now := w.now + seconds);
      && !LockHeld(later, LockKey(dateRange))
      && PageStatus(Shortcode(later, dateRange)) != Some(Running)
      && (Get(w.store, later.now, CacheKey(dateRange)).None? ==>
            Shortcode(later, dateRange) == TaskForm(dateRange, Pending, StylesFor(Pending)))
  {
  }

  /**
   * The lock left by a crashed job: one hour after a successful schedule with no
   * cache written, the page and the intended status check are back to pending.
   */
  lemma CrashedJobBecomesPending(w: World, dateRange: string, seconds: nat)
    requires !Empty(dateRange) && Schedule(w, dateRange).reply.Success?
    requires Get(w.store, w.now + seconds, CacheKey(dateRange)).None?
    requires seconds > HourInSeconds
    ensures var later := Schedule(w, dateRange).world.(now := w.now + seconds);
      && Shortcode(later, dateRange) == TaskForm(dateRange, Pending, StylesFor(Pending))
      && IntendedStatusCheck(later, dateRange) == Success(StatusData(Pending, None))
  {
  }

  /**
   * In a reachable site the as-written status check reports running only for a
   * range that starts with "daterange-", whose lock key is another range's lock.
   */
  lemma AsWrittenRunningOnlyViaAlias(w: World, dateRange: string)
    requires Invariant(w)
    requires StatusCheck(w, dateRange) == Success(StatusData(Running, None))
    ensures IsCacheKey(dateRange)
    ensures StatusCheckLockKey(dateRange) == LockKey(dateRange[|CachePrefix|..])
  {
    var k := StatusCheckLockKey(dateRange);
    assert k in w.store;
    assert !IsCacheKey(k) by {
      assert k[0] == 's';
    }
    StatusCheckSeesLockOnlyViaPrefix(dateRange);
  }

  /** A state-changing request, handled one at a time: the two AJAX writers, time passing, and the cron hook running the queued event at `index`. */
  datatype Request =
    | ScheduleRequest(dateRange: string)
    | ResetRequest(dateRange: string)
    | Wait(seconds: nat)
    | RunEvent(index: nat, dateText: string)

  /** The site after one request; an index past the end of the queue runs nothing. */
  function Apply(w: World, req: Request, render: (string, string) -> string): World
  {
    match req
    case ScheduleRequest(r) => Schedule(w, r).world
    case ResetRequest(r) => Reset(w, r).world
    case Wait(seconds) => w.(now := w.now + seconds)
    case RunEvent(i, dateText) =>
      if i < |w.queue| then CronExec(w, w.queue[i].args, dateText, render) else w
  }

  /** The site after a sequence of requests. */
  function Run(w: World, reqs: seq<Request>, render: (string, string) -> string): World
    decreases |reqs|
  {
    if reqs == [] then w else Run(Apply(w, reqs[0], render), reqs[1..], render)
  }

  /** Every site reached from an empty store by any sequence of requests satisfies the invariant. */
  lemma {:induction false} RunKeepsInvariant(w: World, reqs: seq<Request>, render: (string, string) -> string)
    requires Invariant(w)
    ensures Invariant(Run(w, reqs, render))
    decreases |reqs|
  {
    if reqs != [] {
      assert Invariant(Apply(w, reqs[0], render)) by {
        match reqs[0]
        case ScheduleRequest(r) => ScheduleKeepsInvariant(w, r);
        case ResetRequest(r) => ResetKeepsInvariant(w, r);
        case Wait(seconds) => TickKeepsInvariant(w, seconds);
        case RunEvent(i, dateText) =>
          if i < |w.queue| {
            CronExecKeepsInvariant(w, i, dateText, render);
          }
      }
      RunKeepsInvariant(Apply(w, reqs[0], render), reqs[1..], render);
    }
  }

  /**
   * On every reachable site, the as-written status check answers running only
   * for a range that starts with "daterange-", and more than an hour of quiet
   * leaves no range running on the page.
   */
  lemma ReachableSites(start: int, reqs: seq<Request>, render: (string, string) -> string, dateRange: string, seconds: nat)
    requires !Empty(dateRange) && seconds > HourInSeconds
    ensures var w := Run(World(map[], start, []), reqs, render);
      && (StatusCheck(w, dateRange) == Success(StatusData(Running, None)) ==> IsCacheKey(dateRange))
      && PageStatus(Shortcode(w.(now := w.now + seconds), dateRange)) != Some(Running)
  {
    var w := Run(World(map[], start, []), reqs, render);
    InitialInvariant(start);
    RunKeepsInvariant(World(map[], start, []), reqs, render);
    if StatusCheck(w, dateRange) == Success(StatusData(Running, None)) {
      AsWrittenRunningOnlyViaAlias(w, dateRange);
    }
    LocksExpireWithinHour(w, dateRange, seconds);
  }

}
