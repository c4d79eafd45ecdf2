/**
 * The AJAX status check builds its lock key as `'status-' . $date_range`, while
 * schedule, reset and the shortcode use `'status-daterange-' . $date_range`.
 * The as-written handler therefore never reports its own range as running;
 * `IntendedStatusCheck` uses the shared key and does.
 */
module Findings {

  import opened Wrappers
  import opened Php
  import opened Transients
  import opened TaskKeys
  import opened Handlers
  import opened Properties

  /**
   * As written: right after a successful schedule, with no cached result and no
   * entry under the handler's own key, the status check answers pending.
   */
  lemma StatusCheckAfterScheduleIsPending(w: World, dateRange: string)
    requires Schedule(w, dateRange).reply.Success?
    requires Get(w.store, w.now, CacheKey(dateRange)).None?
    requires !LockHeld(w, StatusCheckLockKey(dateRange))
    ensures StatusCheck(Schedule(w, dateRange).world, dateRange) == Success(StatusData(Pending, None))
  {
  }

  /** As written, on a concrete site: schedule one range on an empty store, and the status check still says pending. */
  lemma StatusCheckMissesLockExample(start: int)
    ensures var w1 := Schedule(World(map[], start, []), "2025-01-01_2025-01-31").world;
      && LockHeld(w1, LockKey("2025-01-01_2025-01-31"))
      && StatusCheck(w1, "2025-01-01_2025-01-31") == Success(StatusData(Pending, None))
  {
  }

  /**
   * As written, the check for range `'daterange-' . x` reads the lock of range
   * `x`: scheduling `x` makes that other range report running.
   */
  lemma StatusCheckReadsOtherRangesLock(w: World, x: string)
    requires Schedule(w, x).reply.Success?
    requires Get(w.store, w.now, CacheKey(CacheKey(x))).None?
    ensures StatusCheck(Schedule(w, x).world, CacheKey(x)) == Success(StatusData(Running, None))
  {
  }

  /**
   * As written, a reset does not return every range to pending: after
   * scheduling `x`, resetting range `'daterange-' . x` leaves the lock of `x`
   * in place, and the status check for that range still answers running.
   */
  lemma ResetLeavesAliasedLock(w: World, x: string)
    requires Schedule(w, x).reply.Success?
    ensures var w1 := Reset(Schedule(w, x).world, CacheKey(x)).world;
      StatusCheck(w1, CacheKey(x)) == Success(StatusData(Running, None))
  {
  }

  /** As written, on a concrete site: schedule "2025-01", reset "daterange-2025-01", and its status check still says running. */
  lemma ResetLeavesAliasedLockExample(start: int)
    ensures var w1 := Schedule(World(map[], start, []), "2025-01").world;
      StatusCheck(Reset(w1, "daterange-2025-01").world, "daterange-2025-01") == Success(StatusData(Running, None))
  {
    assert CacheKey("2025-01") == "daterange-2025-01";
    assert !Empty("2025-01");
    ResetLeavesAliasedLock(World(map[], start, []), "2025-01");
  }

  /**
   * Corrected: right after a successful schedule the intended check answers
   * running, or complete with the cached HTML; never pending.
   */
  lemma IntendedStatusAfterSchedule(w: World, dateRange: string)
    requires Schedule(w, dateRange).reply.Success?
    ensures var r := IntendedStatusCheck(Schedule(w, dateRange).world, dateRange);
      && r.Success?
      && r.data.status != Pending
      && (r.data.status == Running <==> Get(w.store, w.now, CacheKey(dateRange)).None?)
  {
  }

  /**
   * The scenario of one report from start to finish, with the intended check:
   * pending, scheduled and running, complete with the rendered report, and
   * pending again after a reset.
   */
  lemma ReportLifecycle(start: int, dateText: string, render: (string, string) -> string)
    ensures var r := "2025-01-01_2025-01-31";
      var w0 := World(map[], start, []);
      var s1 := Schedule(w0, r);
      var w2 := CronExec(s1.world, s1.world.queue[0].args, dateText, render);
      var s3 := Reset(w2, r);
      && IntendedStatusCheck(w0, r) == Success(StatusData(Pending, None))
      && s1.reply == Success(Message(ScheduledMessage))
      && |s1.world.queue| == 1
      && IntendedStatusCheck(s1.world, r) == Success(StatusData(Running, None))
      && IntendedStatusCheck(w2, r) == Success(StatusData(Complete, Some(render(r, ReportText(r, dateText)))))
      && s3.reply == Success(Message(ClearedMessage))
      && IntendedStatusCheck(s3.world, r) == Success(StatusData(Pending, None))
  {
    var r := "2025-01-01_2025-01-31";
    var w0 := World(map[], start, []);
    assert !Empty(r);
    var s1 := Schedule(w0, r);
    IntendedStatusAfterSchedule(w0, r);
    assert s1.world.queue[0].args == ArgsFor(r);
    CronExecCompletes(s1.world, r, dateText, render, start, "");
    ResetThenPending(CronExec(s1.world, ArgsFor(r), dateText, render), r);
  }

}
