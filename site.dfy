/**
 * The running site: one transient store, a clock, and the cron queue, changed in
 * place by the AJAX handlers and the cron hook. Each method is proved against the
 * matching function of `Handlers`.
 */
module Plugin {

  import opened Wrappers
  import opened Php
  import opened Transients
  import opened TaskKeys
  import opened Handlers

  class Site {
    var store: Store
    var now: int
    var queue: seq<Event>

    /** The site as a value, for the specification functions and the lemmas. */
    function State(): World
      reads this
    {
      World(store, now, queue)
    }

    constructor (start: int)
      ensures State() == World(map[], start, [])
    {
      store := map[];
      now := start;
      queue := [];
    }

    /** Let `seconds` of wall-clock time pass. */
    method Tick(seconds: nat)
      modifies this
      ensures State() == old(State()).(now := old(now) + seconds)
    {
      now := now + seconds;
    }

    /** `get_transient($key)`. */
    method GetTransient(key: string) returns (value: Option<string>)
      ensures value == Get(store, now, key)
    {
      if key in store && Live(store[key], now) {
        value := Some(store[key].value);
      } else {
        value := None;
      }
    }

    /** `set_transient($key, $value, $ttl)`. */
    method SetTransient(key: string, value: string, ttl: nat)
      modifies this
      ensures store == Set(old(store), now, key, value, ttl)
      ensures now == old(now) && queue == old(queue)
    {
      store := store[key := Entry(value, if ttl > 0 then Some(now + ttl) else None)];
    }

    /** `delete_transient($key)`. */
    method DeleteTransient(key: string)
      modifies this
      ensures store == Delete(old(store), key)
      ensures now == old(now) && queue == old(queue)
    {
      store := store - {key};
    }

    /** `my_task_schedule_handler`. */
    method ScheduleHandler(dateRange: string) returns (reply: Reply)
      modifies this
      ensures Step(State(), reply) == Schedule(old(State()), dateRange)
    {
      if Empty(dateRange) {
        return Error(Message(MissingRangeMessage));
      }
      var cacheKey := CacheKey(dateRange);
      var statusKey := StatusPrefix + cacheKey;
      var lock := GetTransient(statusKey);
      if lock.Some? && Truthy(lock.value) {
        return Error(Message(AlreadyRunningMessage));
      }
      SetTransient(statusKey, RunningMarker, HourInSeconds);
      queue := queue + [Event(now, TaskHook, CronArgs(dateRange, cacheKey, statusKey))];
      return Success(Message(ScheduledMessage));
    }

    /** `my_task_status_check_handler`, with its own lock key. Changes nothing. */
    method StatusCheckHandler(dateRange: string) returns (reply: Reply)
      ensures reply == StatusCheck(State(), dateRange)
    {
      if Empty(dateRange) {
        return Error(Message(MissingRangeMessage));
      }
      var cacheKey := CacheKey(dateRange);
      var statusKey := StatusPrefix + dateRange;
      var cached := GetTransient(cacheKey);
      if cached.Some? {
        return Success(StatusData(Complete, cached));
      }
      var lock := GetTransient(statusKey);
      if lock.Some? && Truthy(lock.value) {
        return Success(StatusData(Running, None));
      }
      return Success(StatusData(Pending, None));
    }

    /** `my_task_reset_handler`. */
    method ResetHandler(dateRange: string) returns (reply: Reply)
      modifies this
      ensures Step(State(), reply) == Reset(old(State()), dateRange)
    {
      if Empty(dateRange) {
        return Error(Message(MissingRangeMessage));
      }
      var cacheKey := CacheKey(dateRange);
      var statusKey := StatusPrefix + cacheKey;
      DeleteTransient(cacheKey);
      DeleteTransient(statusKey);
      return Success(Message(ClearedMessage));
    }

    /** `my_task_cron_exec`, with the output of `date(...)` and the HTML builder passed in. */
    method CronExecHook(args: CronArgs, dateText: string, render: (string, string) -> string)
      modifies this
      ensures State() == CronExec(old(State()), args, dateText, render)
    {
      if Empty(args.dateRange) || Empty(args.cacheKey) || Empty(args.statusKey) {
        return;
      }
      var resultsString := ReportText(args.dateRange, dateText);
      var finalHtml := render(args.dateRange, resultsString);
      SetTransient(args.cacheKey, finalHtml, DayInSeconds);
      DeleteTransient(args.statusKey);
    }

    /** `my_task_page_shortcode`. Changes nothing. */
    method PageShortcode(dateRange: string) returns (page: Page)
      ensures page == Shortcode(State(), dateRange)
    {
      if Empty(dateRange) {
        return MissingRangePage;
      }
      var cacheKey := CacheKey(dateRange);
      var statusKey := StatusPrefix + cacheKey;
      var cached := GetTransient(cacheKey);
      if cached.Some? {
        return CachedReport(cached.value, dateRange);
      }
      var lock := GetTransient(statusKey);
      var status := if lock.Some? && Truthy(lock.value) then Running else Pending;
      return TaskForm(dateRange, status, StylesFor(status));
    }
  }

}
