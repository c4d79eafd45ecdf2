# wp-task-scheduler, modelled in Dafny

The WordPress plugin `wp-task-scheduler.php` runs a slow report in the background. Each date range has two transients. A transient is a WordPress key-value entry with an expiry time.

- the cache key `'daterange-' . $range` holds the finished report HTML for one day;
- the lock key `'status-daterange-' . $range` holds `'running'` for one hour while a job is in flight.

The model covers five server-side operations on that store. **Schedule** takes the lock and enqueues one cron event. **Status check** reads the keys and reports complete, running or pending. **Reset** deletes both keys. **Cron exec** writes the cache and then drops the lock. **Page shortcode** picks what the page shows.

Layout:

- `wrappers.dfy`: `Option`, standing for PHP's `false`-or-value.
- `php.dfy`: PHP's `empty()` and truthiness on strings. Both treat `""` and `"0"` as false.
- `transients.dfy`: `get_transient`, `set_transient` and `delete_transient` over a map with timeouts, and how lookups behave.
- `task_keys.dfy`: how keys are derived, including the status check's different lock key.
- `handlers.dfy`: each handler as a function from the site state (store, clock, cron queue) to the new state and the JSON reply.
- `site.dfy`: class `Plugin.Site`. Its fields are the store, the clock and the queue. Each method changes them step by step and is proved equal to the matching `Handlers` function.
- `properties.dfy`: lemmas about single requests and sequences of requests. It also holds an invariant that every site reached from an empty store, by any sequence of requests, keeps.
- `findings.dfy`: the status-key mismatch, first as written and then corrected.

Details of the source that the model keeps exactly:

- A range of `"0"` counts as missing, like `""`, because the handlers test it with PHP `empty()` (wp-task-scheduler.php:41, :58, :120, :158). Cron exec tests its three arguments the same way (wp-task-scheduler.php:97).
- A lock counts as held only when its value is truthy, because schedule, the status check and the shortcode test the value of `get_transient` for truthiness (wp-task-scheduler.php:76, :128, :175).
- A cached entry counts as present whenever it exists, because the source tests `!== false` (wp-task-scheduler.php:67, :168).
- The status check builds its lock key as `'status-' . $date_range` (wp-task-scheduler.php:63). Every other handler builds `'status-daterange-' . $date_range`. So the status check does not see the lock that schedule sets (see Findings).

The handlers take the date range after `sanitize_text_field`. `my_task_generate_cached_html` and the output of `date(...)` are parameters of the cron hook. The clock is a field, moved forward by `Site.Tick`.

## Model

| member | source | states |
|---|---|---|
| Transients.GetAfterSet | wp-task-scheduler.php:134 | a transient set with a positive expiration reads back its value up to and including now + ttl, and reads as absent afterwards |
| Transients.SetKeepsOthers | wp-task-scheduler.php:134 | setting one transient changes no other key's lookup, at any time |
| Transients.GetAfterDelete | wp-task-scheduler.php:49-50 | a deleted key reads as absent; all other keys read as before |
| Transients.AbsentStaysAbsent | wp-task-scheduler.php:132-134 | once a key reads as absent it stays absent as the clock advances, if nothing writes it |
| Transients.PurgeExpiredInvisible | wp-task-scheduler.php:66 | deleting an expired entry, as `get_transient` does, changes no lookup then or later |
| Php.Empty | wp-task-scheduler.php:41 | `empty()` on a string: only "" and "0" are empty, so every string of two or more characters is a real range |
| Php.Truthy | wp-task-scheduler.php:128 | `if ($s)` on a string: every string of two or more characters is truthy, and "" never is |
| Transients.Get | wp-task-scheduler.php:66 | a lookup returns only a stored value, and always finds an entry that has no timeout |
| Transients.Set | wp-task-scheduler.php:134 | the store gains exactly the key, with the given value, and every other entry stays as it was |
| Transients.Delete | wp-task-scheduler.php:49-50 | the store loses exactly the key, and every remaining entry stays as it was |
| TaskKeys.CacheKey | wp-task-scheduler.php:45 | the cache key is cache-shaped, and the range can be read back from it |
| TaskKeys.LockKey | wp-task-scheduler.php:125 | the lock key is lock-shaped, and the range can be read back from it |
| TaskKeys.StatusCheckLockKey | wp-task-scheduler.php:63 | the status check's key is 'status-' followed by the bare range |
| TaskKeys.KeyKinds | wp-task-scheduler.php:45-46 | a cache key is of the cache kind and not the lock kind, and a lock key the reverse |
| TaskKeys.KeysInjective | wp-task-scheduler.php:124-125 | distinct ranges have distinct cache keys and distinct lock keys, and no cache key equals a lock key |
| TaskKeys.StatusCheckKeyMisses | wp-task-scheduler.php:62-63 | the status check's lock key differs from the lock key schedule sets for the same range |
| TaskKeys.StatusCheckKeyAlias | wp-task-scheduler.php:63 | the status check for r reads the lock of range x exactly when r = 'daterange-' . x |
| TaskKeys.StatusCheckSeesLockOnlyViaPrefix | wp-task-scheduler.php:63 | if the status check's key is lock-shaped, the range starts with 'daterange-' and the key is the lock of the rest of the range |
| Handlers.LockHeld | wp-task-scheduler.php:128 | a held lock is a stored, live entry with a truthy value; an absent key is never held |
| Handlers.ArgsFor | wp-task-scheduler.php:137-141 | the event arguments carry the range, its cache key and its lock key, and for a non-empty range none of them is empty, so cron exec's guard lets them through |
| Handlers.ReportText | wp-task-scheduler.php:103-104 | the report begins with "Report for '" followed by its range, and ends with the "1,234 entries processed." line |
| Handlers.Schedule | wp-task-scheduler.php:116-145 | succeeds iff the range is non-empty and the lock is not held; on error nothing changes; on success exactly one event with the range, cache key and lock key is appended at the current time; the clock never moves |
| Handlers.StatusCheck | wp-task-scheduler.php:54-89 | a missing range is an error; otherwise the status follows the table (cache → complete with its value, else own lock → running, else pending), using the handler's own key 'status-' . range |
| Handlers.Reset | wp-task-scheduler.php:37-53 | succeeds iff the range is non-empty; errors change nothing; the clock and queue never change |
| Handlers.CronExec | wp-task-scheduler.php:90-115 | any empty argument leaves the site unchanged; otherwise only the cache key and the lock key named by the arguments change, and every other entry is untouched; the clock and queue never change |
| Handlers.StylesFor | wp-task-scheduler.php:177-183 | form and run button are visible iff pending, the running notice iff running, the show and reset buttons never |
| Handlers.Shortcode | wp-task-scheduler.php:147-183 | a missing range gives the error paragraph; a live cache gives the cached HTML tagged with the range; otherwise the form, running iff the lock 'status-daterange-' . range is held |
| Handlers.IntendedStatusCheck | wp-task-scheduler.php:62-88 | the status check with the shared lock key; it always agrees with the status the page shows |
| Plugin.Site.Tick | wp-task-scheduler.php:142 | the clock that `time()` reads moves forward by the given seconds, and the store and queue are unchanged |
| Plugin.Site.GetTransient | wp-task-scheduler.php:66 | returns the stored value while live, nothing otherwise |
| Plugin.Site.SetTransient | wp-task-scheduler.php:134 | the store gains the entry, with timeout now + ttl for a positive ttl and no timeout for ttl 0; clock and queue unchanged |
| Plugin.Site.DeleteTransient | wp-task-scheduler.php:49-50 | the store loses the key; clock and queue unchanged |
| Plugin.Site.ScheduleHandler | wp-task-scheduler.php:116-145 | the new state and the reply are those of Handlers.Schedule |
| Plugin.Site.StatusCheckHandler | wp-task-scheduler.php:54-89 | changes nothing and answers as Handlers.StatusCheck |
| Plugin.Site.ResetHandler | wp-task-scheduler.php:37-53 | the new state and the reply are those of Handlers.Reset |
| Plugin.Site.CronExecHook | wp-task-scheduler.php:90-115 | the new state is that of Handlers.CronExec |
| Plugin.Site.PageShortcode | wp-task-scheduler.php:147-183 | changes nothing and renders as Handlers.Shortcode |
| Properties.EmptyRangeRejected | wp-task-scheduler.php:40-43 | an empty or "0" range is refused by schedule, reset, status check and shortcode, and nothing changes |
| Properties.StatusCheckOnEmptySiteIsPending | wp-task-scheduler.php:83-88 | before anything is scheduled, the status check answers pending for every non-empty range |
| Properties.ScheduleRefusedWhileLocked | wp-task-scheduler.php:128-130 | with the lock held, schedule answers "already running" and changes neither the store nor the queue |
| Properties.ScheduleTakesLock | wp-task-scheduler.php:134-144 | a successful schedule makes the lock read 'running' until now + 3600 and absent after; appends exactly one event; leaves the cache key and every other key reading as before |
| Properties.ScheduleTwiceRefusesSecond | wp-task-scheduler.php:128-134 | two schedules in a row: the second is refused and changes nothing |
| Properties.CacheWinsOverLock | wp-task-scheduler.php:66-73 | a live cache gives complete with exactly the cached value, whatever the locks hold, in both status checks and on the page |
| Properties.ResetClears | wp-task-scheduler.php:45-52 | reset always succeeds for a non-empty range, leaves both keys absent at every time, and leaves every other key alone |
| Properties.ResetThenPending | wp-task-scheduler.php:45-52 | after a reset, the page shows the range as pending, and so does the intended status check |
| Properties.ResetThenStatusCheckAsWritten | wp-task-scheduler.php:45-52 | as written, the status check after a reset answers pending exactly when the status check's own key 'status-' . range held no lock before the reset, and running otherwise |
| Properties.CronExecCompletes | wp-task-scheduler.php:107-114 | cron exec with the scheduled arguments caches the rendered report until now + 86400, deletes the lock, leaves every other key reading as before at any time, and then both status checks and the page report complete with that HTML |
| Properties.ShortcodeVisibility | wp-task-scheduler.php:175-183 | with no cache, the page shows the form and run button iff pending, the running notice iff running, and never the show or reset buttons |
| Properties.InitialInvariant | wp-task-scheduler.php:45-46 | an empty site, the starting state of every request trace, satisfies the invariant, whose key-kind part is about the keys derived here |
| Properties.ScheduleKeepsInvariant | wp-task-scheduler.php:124-142 | schedule keeps the invariant: only cache and lock keys; locks hold 'running' and expire within the hour; queued events carry well-formed arguments |
| Properties.ResetKeepsInvariant | wp-task-scheduler.php:45-50 | reset keeps the invariant |
| Properties.TickKeepsInvariant | wp-task-scheduler.php:134 | time passing keeps the invariant |
| Properties.CronExecKeepsInvariant | wp-task-scheduler.php:111-114 | running a queued event keeps the invariant |
| Properties.QueuedEventCompletes | wp-task-scheduler.php:137-142 | running any queued event leaves its range complete on the page |
| Properties.LocksExpireWithinHour | wp-task-scheduler.php:133-134 | in a reachable site, more than an hour later no lock is held, no range shows as running, and a range without a cache is pending |
| Properties.CrashedJobBecomesPending | wp-task-scheduler.php:134 | if a scheduled job never writes its cache, the page and the intended check are back to pending after an hour, with no reset |
| Properties.AsWrittenRunningOnlyViaAlias | wp-task-scheduler.php:63 | in a reachable site, the as-written check answers running only for a range starting with 'daterange-', and then it is reading another range's lock |
| Properties.RunKeepsInvariant | wp-task-scheduler.php:116-145 | any sequence of schedule, reset, waiting and cron runs of queued events keeps the invariant |
| Properties.ReachableSites | wp-task-scheduler.php:54-89 | on every site reached from an empty store, the as-written check answers running only for ranges starting with 'daterange-', and after more than an hour of quiet no range shows as running on the page |
| Findings.StatusCheckAfterScheduleIsPending | wp-task-scheduler.php:63 | as written: right after a successful schedule with no cache, and no lock under the check's own key 'status-' . range, the status check answers pending |
| Findings.StatusCheckMissesLockExample | wp-task-scheduler.php:63 | as written: after scheduling "2025-01-01_2025-01-31" on an empty site the lock is held, and the status check still says pending |
| Findings.StatusCheckReadsOtherRangesLock | wp-task-scheduler.php:63 | as written: scheduling x makes the check for 'daterange-' . x answer running, when there is no cache for 'daterange-' . x |
| Findings.ResetLeavesAliasedLock | wp-task-scheduler.php:45-52 | as written: after scheduling x, resetting range 'daterange-' . x leaves the lock of x, and that range's status check still answers running |
| Findings.ResetLeavesAliasedLockExample | wp-task-scheduler.php:63 | as written: schedule "2025-01", reset "daterange-2025-01", and the status check for "daterange-2025-01" answers running |
| Findings.IntendedStatusAfterSchedule | wp-task-scheduler.php:62-88 | corrected: right after a successful schedule the check is never pending; it is running iff there is no cache |
| Findings.ReportLifecycle | wp-task-scheduler.php:116-145 | corrected, for one range from start to finish: pending, then scheduled with one event and running, then complete with the rendered report after the cron hook, then pending after reset |

## Left out

- `my_task_enqueue_scripts` (both copies): script registration and localisation are WordPress I/O.
- `check_ajax_referer` and the nonce are not modelled. `sanitize_text_field`, `esc_attr` and `esc_html` are not modelled either: the handlers receive the sanitised range.
- The markup built by output buffering is not modelled, and neither is `my_task_generate_cached_html`. The HTML builder is a function parameter of the cron hook.
- The `str_replace` that adds `data-daterange` to cached HTML: the page keeps the cached HTML and the range side by side.
- `sleep(10)` and `date(...)` in the job body: the date text is a parameter, and the cache is written at the current clock value.
- The WP-Cron runner: events are only appended to the queue. Running one means calling the cron hook with its arguments. WordPress's refusal of a duplicate single event within ten minutes is not modelled.
- Concurrent schedule requests: requests are sequential, so the race between the lock check and the lock write cannot be expressed.
- `get_transient`'s deletion of expired entries: the model's lookup only reads. `Transients.PurgeExpiredInvisible` shows that this deletion cannot be observed.
- The object-cache backends and `set_transient` failures: the store is a map.
- The file registers no `wp_ajax_` actions and no cron hook action. The model assumes the handlers are wired to those entry points.
- Properties.QueuedEventCompletes assumes that the cron hook reaches `my_task_cron_exec` with the whole argument array that schedule builds (wp-task-scheduler.php:137-142). WP-Cron passes each value of that array as a separate parameter instead. With a plain `add_action('my_actual_task_hook', 'my_task_cron_exec')`, `$args` would be the date-range string, `$args['date_range'] ?? ''` would be `''`, and the function would return at wp-task-scheduler.php:97-98. No cache would be written, and the lock would stay for its hour. Findings.ReportLifecycle and Properties.RunKeepsInvariant rest on the same assumption. Since the hook registration is not in the file, this is not claimed as a finding.
- Properties.AsWrittenRunningOnlyViaAlias and Properties.ReachableSites treat the transient store as owned by this plugin alone: `Properties.Invariant` says every stored key is a cache key or a lock key of this plugin. A transient named `status-<range>` written by other code would also make the as-written status check answer running.
- Transients.Set models `set_transient` with a positive expiration, and with expiration 0 on a new key. WordPress keeps an existing timeout when it updates a key with expiration 0. The plugin always passes a positive expiration (wp-task-scheduler.php:111, :134), so that case is not modelled.
- `js/wp-task-scheduler.js`, the client poller: DOM updates, `fetch`, the polling interval and page reloads are UI and timer plumbing.

## Findings

| source | as written | input that shows it | evidently intended | confidence | as-written member | corrected member |
|---|---|---|---|---|---|---|
| wp-task-scheduler.php:63 | the status check reads the lock at `'status-' . $date_range` | schedule "2025-01-01_2025-01-31" on an empty store, then check its status: the answer is pending, though the lock `status-daterange-2025-01-01_2025-01-31` is held | read `'status-' . $cache_key`, like schedule, reset and the shortcode, so that a scheduled job reports running | high (not executed) | Findings.StatusCheckMissesLockExample | Findings.IntendedStatusAfterSchedule |
| wp-task-scheduler.php:63 | reset deletes `'status-daterange-' . $date_range`, but the status check reads `'status-' . $date_range`, so reset does not clear what the check reads | schedule "2025-01", then reset "daterange-2025-01", then check the status of "daterange-2025-01": the answer is running | after reset, the status check answers pending, because it reads the same lock key that reset deletes | high (not executed) | Findings.ResetLeavesAliasedLockExample | Properties.ResetThenPending |
