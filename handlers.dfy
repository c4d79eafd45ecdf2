/**
 * The plugin's request handlers as functions of the site state: the transient
 * store, the clock and the queue of single cron events. Each handler returns
 * the state after the request and the JSON reply it sends; `wp_send_json_error`
 * and `wp_send_json_success` end the request, so each is an early return.
 */
module Handlers {

  import opened Wrappers
  import opened Php
  import opened Transients
  import opened TaskKeys

  const HourInSeconds: nat := 3600
  const DayInSeconds: nat := 86400
  const RunningMarker: string := "running"
  const TaskHook: string := "my_actual_task_hook"

  const MissingRangeMessage: string := "Date range is missing."
  const AlreadyRunningMessage: string := "This task is already running."
  const ScheduledMessage: string := "Task has been scheduled! It is now running in the background."
  const ClearedMessage: string := "Task cache has been cleared."

  /** The three entries of the argument array handed to the cron hook; a missing entry reads as "". */
  datatype CronArgs = CronArgs(dateRange: string, cacheKey: string, statusKey: string)

  /** One `wp_schedule_single_event` call: when, which hook, with which arguments. */
  datatype Event = Event(time: int, hook: string, args: CronArgs)

  /** Everything the handlers read or write. */
  datatype World = World(store: Store, now: int, queue: seq<Event>)

  datatype Status = Pending | Running | Complete

  /** The `data` member of a JSON reply: a message, or a status with the cached HTML when complete. */
  datatype Data = Message(message: string) | StatusData(status: Status, html: Option<string>)

  datatype Reply = Success(data: Data) | Error(data: Data)

  /** The state after a request and the reply it sent. */
  datatype Step = Step(world: World, reply: Reply)

  /** Truthy `get_transient($key)`: how every handler tests a lock. */
  predicate LockHeld(w: World, key: string)
    ensures LockHeld(w, key) ==> key in w.store && Live(w.store[key], w.now) && Truthy(w.store[key].value)
    ensures key !in w.store ==> !LockHeld(w, key)
  {
    var v := Get(w.store, w.now, key); v.Some? && Truthy(v.value)
  }

  /** The status table: a cached result wins over any lock; a lock alone means running. */
  function Classify(resultPresent: bool, lockPresent: bool): Status
  {
    match (resultPresent, lockPresent)
    case (true, _) => Complete
    case (false, true) => Running
    case (false, false) => Pending
  }

  /** The argument array that schedule hands to the cron event for `dateRange`. */
  function ArgsFor(dateRange: string): (a: CronArgs)
    ensures a.dateRange == dateRange && a.cacheKey == CacheKey(dateRange) && a.statusKey == LockKey(dateRange)
    ensures !Empty(dateRange) ==> !Empty(a.dateRange) && !Empty(a.cacheKey) && !Empty(a.statusKey)
  {
    CronArgs(dateRange, CacheKey(dateRange), LockKey(dateRange))
  }

  /**
   * `my_task_schedule_handler`: refuse a missing range, refuse while the lock is
   * held, otherwise take the lock for an hour and enqueue one cron event.
   */
  function Schedule(w: World, dateRange: string): (s: Step)
    ensures s.world.now == w.now
    ensures s.reply.Success? <==> !Empty(dateRange) && !LockHeld(w, LockKey(dateRange))
    ensures s.reply.Error? ==> s.world == w
    ensures s.reply.Success? ==> s.world.queue == w.queue + [Event(w.now, TaskHook, ArgsFor(dateRange))]
  {
    if Empty(dateRange) then
      Step(w, Error(Message(MissingRangeMessage)))
    else
      var cacheKey := CacheKey(dateRange);
      var statusKey := StatusPrefix + cacheKey;
      if LockHeld(w, statusKey) then
        Step(w, Error(Message(AlreadyRunningMessage)))
      else
        var store := Set(w.store, w.now, statusKey, RunningMarker, HourInSeconds);
        var queue := w.queue + [Event(w.now, TaskHook, CronArgs(dateRange, cacheKey, statusKey))];
        Step(World(store, w.now, queue), Success(Message(ScheduledMessage)))
  }

  /**
   * `my_task_status_check_handler`, as written: the cache decides first, then the
   * lock under the handler's own key `'status-' . $date_range`. Read-only.
   */
  function StatusCheck(w: World, dateRange: string): (r: Reply)
    ensures Empty(dateRange) ==> r == Error(Message(MissingRangeMessage))
    ensures !Empty(dateRange) ==>
      r == Success(StatusData(
             Classify(Get(w.store, w.now, CacheKey(dateRange)).Some?, LockHeld(w, StatusCheckLockKey(dateRange))),
             Get(w.store, w.now, CacheKey(dateRange))))
  {
    if Empty(dateRange) then
      Error(Message(MissingRangeMessage))
    else
      var cacheKey := CacheKey(dateRange);
      var statusKey := StatusPrefix + dateRange;
      var cached := Get(w.store, w.now, cacheKey);
      if cached.Some? then
        Success(StatusData(Complete, cached))
      else if LockHeld(w, statusKey) then
        Success(StatusData(Running, None))
      else
        Success(StatusData(Pending, None))
  }

  /** `my_task_reset_handler`: delete the cache and the lock; deleting absent keys is not an error. */
  function Reset(w: World, dateRange: string): (s: Step)
    ensures s.world.now == w.now && s.world.queue == w.queue
    ensures s.reply.Success? <==> !Empty(dateRange)
    ensures s.reply.Error? ==> s.world == w
  {
    if Empty(dateRange) then
      Step(w, Error(Message(MissingRangeMessage)))
    else
      var cacheKey := CacheKey(dateRange);
      var statusKey := StatusPrefix + cacheKey;
      var store := Delete(Delete(w.store, cacheKey), statusKey);
      Step(World(store, w.now, w.queue), Success(Message(ClearedMessage)))
  }

  /** `$results_string` of the job body, with the output of `date(...)` passed in. */
  function ReportText(dateRange: string, dateText: string): (r: string)
    ensures var head := "Report for '"; |r| > |head| + |dateRange| && r[..|head|] == head && r[|head|..|head| + |dateRange|] == dateRange
    ensures var tail := "1,234 entries processed.\n"; |r| >= |tail| && r[|r| - |tail|..] == tail
  {
    "Report for '" + dateRange + "' generated on: " + dateText + "\n" + "1,234 entries processed.\n"
  }

  /**
   * `my_task_cron_exec`: with any argument empty, nothing happens; otherwise
   * cache the rendered report for a day and then release the lock.
   * `render` stands for `my_task_generate_cached_html`.
   */
  function CronExec(w: World, args: CronArgs, dateText: string, render: (string, string) -> string): (w': World)
    ensures w'.now == w.now && w'.queue == w.queue
    ensures Empty(args.dateRange) || Empty(args.cacheKey) || Empty(args.statusKey) ==> w' == w
    ensures forall k :: k != args.cacheKey && k != args.statusKey ==> (k in w'.store <==> k in w.store)
    ensures forall k :: k in w'.store && k != args.cacheKey ==> k in w.store && w'.store[k] == w.store[k]
  {
    if Empty(args.dateRange) || Empty(args.cacheKey) || Empty(args.statusKey) then
      w
    else
      var html := render(args.dateRange, ReportText(args.dateRange, dateText));
      var store := Set(w.store, w.now, args.cacheKey, html, DayInSeconds);
      World(Delete(store, args.statusKey), w.now, w.queue)
  }

  /** Inline styles of the five controls of the pending/running page. */
  datatype Styles = Styles(form: string, runButton: string, runningMessage: string, showButton: string, resetButton: string)

  const Hidden: string := "display: none;"
  const Block: string := "display: block;"
  const InlineBlock: string := "display: inline-block;"

  /** What the `[my_task_page]` shortcode renders. */
  datatype Page =
    | MissingRangePage
      /** The cached report, to be returned with `data-daterange` set to this range on its wrapper. */
    | CachedReport(html: string, dateRange: string)
    | TaskForm(dateRange: string, status: Status, styles: Styles)

  /** The style selection of the shortcode for a task that has no cached result. */
  function StylesFor(status: Status): (s: Styles)
    ensures s.form != Hidden <==> status == Pending
    ensures s.runButton != Hidden <==> status == Pending
    ensures s.runningMessage != Hidden <==> status == Running
    ensures s.showButton == Hidden && s.resetButton == Hidden
  {
    Styles(
      if status == Pending then Block else Hidden,
      if status == Pending then InlineBlock else Hidden,
      if status == Running then Block else Hidden,
      Hidden,
      Hidden)
  }

  /** `my_task_page_shortcode`: the cached report if there is one, otherwise the form in the running or pending state. */
  function Shortcode(w: World, dateRange: string): (p: Page)
    ensures Empty(dateRange) <==> p == MissingRangePage
    ensures !Empty(dateRange) ==>
      (Get(w.store, w.now, CacheKey(dateRange)).Some? <==> p.CachedReport?)
    ensures p.CachedReport? ==>
      Some(p.html) == Get(w.store, w.now, CacheKey(dateRange)) && p.dateRange == dateRange
    ensures p.TaskForm? ==> p.dateRange == dateRange && p.status != Complete
    ensures p.TaskForm? ==> (p.status == Running <==> LockHeld(w, LockKey(dateRange)))
  {
    if Empty(dateRange) then
      MissingRangePage
    else
      var cacheKey := CacheKey(dateRange);
      var statusKey := StatusPrefix + cacheKey;
      var cached := Get(w.store, w.now, cacheKey);
      if cached.Some? then
        CachedReport(cached.value, dateRange)
      else
        var status := if LockHeld(w, statusKey) then Running else Pending;
        TaskForm(dateRange, status, StylesFor(status))
  }

  /** The status a rendered page shows: the cached report is complete. */
  function PageStatus(p: Page): Option<Status>
  {
    match p
    case MissingRangePage => None
    case CachedReport(_, _) => Some(Complete)
    case TaskForm(_, status, _) => Some(status)
  }

  /**
   * The status check with the lock key the other handlers use,
   * `'status-daterange-' . $date_range`: what the handler evidently intends.
   */
  function IntendedStatusCheck(w: World, dateRange: string): (r: Reply)
    ensures Empty(dateRange) ==> r == Error(Message(MissingRangeMessage))
    ensures !Empty(dateRange) ==> r.Success? && r.data.StatusData?
    ensures !Empty(dateRange) ==> Some(r.data.status) == PageStatus(Shortcode(w, dateRange))
  {
    if Empty(dateRange) then
      Error(Message(MissingRangeMessage))
    else
      var cached := Get(w.store, w.now, CacheKey(dateRange));
      if cached.Some? then
        Success(StatusData(Complete, cached))
      else if LockHeld(w, LockKey(dateRange)) then
        Success(StatusData(Running, None))
      else
        Success(StatusData(Pending, None))
  }

}
