/**
 * WordPress transients: a key-value store in which every entry may carry an
 * expiry time. `set_transient` with a positive expiration stores the timeout
 * `time() + expiration`; a new key set with expiration 0 never expires.
 * `get_transient` treats an entry whose timeout lies strictly in the past as
 * absent (it returns `false`).
 */
module Transients {

  import opened Wrappers

  /** A stored value and, when it was set with a positive expiration, its timeout (seconds). */
  datatype Entry = Entry(value: string, timeout: Option<int>)

  type Store = map<string, Entry>

  /** An entry is still visible at second `now` unless its timeout has passed. */
  predicate Live(e: Entry, now: int)
  {
    e.timeout.None? || now <= e.timeout.value
  }

  /** `get_transient($key)`: the value while it is live, `None` (PHP `false`) otherwise. */
  function Get(store: Store, now: int, key: string): (r: Option<string>)
    ensures r.Some? ==> key in store && store[key].value == r.value
    ensures key in store && store[key].timeout.None? ==> r.Some?
  {
    if key in store && Live(store[key], now) then Some(store[key].value) else None
  }

  /** `set_transient($key, $value, $ttl)` at second `now`, for a positive `ttl` or a new key. */
  function Set(store: Store, now: int, key: string, value: string, ttl: nat): (r: Store)
    ensures r.Keys == store.Keys + {key} && r[key].value == value
    ensures forall k :: k in store && k != key ==> r[k] == store[k]
  {
    store[key := Entry(value, if ttl > 0 then Some(now + ttl) else None)]
  }

  /** `delete_transient($key)`; deleting an absent key is a no-op. */
  function Delete(store: Store, key: string): (r: Store)
    ensures r.Keys == store.Keys - {key}
    ensures forall k :: k in r ==> r[k] == store[k]
  {
    store - {key}
  }

  /** A key set with a positive expiration reads back its value up to and including its timeout, and nothing after. */
  lemma GetAfterSet(store: Store, now: int, key: string, value: string, ttl: nat, later: int)
    requires ttl > 0
    ensures Get(Set(store, now, key, value, ttl), later, key)
         == if later <= now + ttl then Some(value) else None
  {
  }

  /** Setting one key leaves every other key reading as before, at every time. */
  lemma SetKeepsOthers(store: Store, now: int, key: string, value: string, ttl: nat, other: string, at: int)
    requires other != key
    ensures Get(Set(store, now, key, value, ttl), at, other) == Get(store, at, other)
  {
  }

  /** A deleted key reads as absent; every other key reads as before. */
  lemma GetAfterDelete(store: Store, key: string, other: string, at: int)
    ensures Get(Delete(store, key), at, key) == None
    ensures other != key ==> Get(Delete(store, key), at, other) == Get(store, at, other)
  {
  }

  /** Once an entry reads as absent it stays absent while nobody writes it: the clock only removes entries. */
  lemma AbsentStaysAbsent(store: Store, key: string, now: int, later: int)
    requires now <= later
    requires Get(store, now, key) == None
    ensures Get(store, later, key) == None
  {
  }

  /**
   * `get_transient` also deletes an entry it finds expired. Doing so changes no
   * lookup at that time or after, so the model reads without deleting.
   */
  lemma PurgeExpiredInvisible(store: Store, now: int, key: string, other: string, later: int)
    requires key in store && !Live(store[key], now)
    requires now <= later
    ensures Get(Delete(store, key), later, other) == Get(store, later, other)
  {
  }

}
