/**
 * How the plugin names its two transients for a date range. Schedule, reset and
 * the page shortcode derive the lock key from the cache key; the AJAX status
 * check derives its own lock key from the bare date range, so the two keys differ.
 */
module TaskKeys {

  const CachePrefix: string := "daterange-"
  const StatusPrefix: string := "status-"

  /** `'daterange-' . $date_range`: where the finished report HTML is cached. */
  function CacheKey(dateRange: string): (k: string)
    ensures IsCacheKey(k) && k[|CachePrefix|..] == dateRange
  {
    CachePrefix + dateRange
  }

  /** `'status-' . $cache_key`: the "running" lock, as schedule, reset and the shortcode build it. */
  function LockKey(dateRange: string): (k: string)
    ensures IsLockKey(k) && k[|StatusPrefix + CachePrefix|..] == dateRange
  {
    StatusPrefix + CacheKey(dateRange)
  }

  /** `'status-' . $date_range`: the lock key as the status-check handler builds it. */
  function StatusCheckLockKey(dateRange: string): (k: string)
    ensures |k| == |StatusPrefix| + |dateRange|
    ensures k[..|StatusPrefix|] == StatusPrefix && k[|StatusPrefix|..] == dateRange
  {
    StatusPrefix + dateRange
  }

  /** A store key of the cache kind. */
  predicate IsCacheKey(k: string)
  {
    |k| >= |CachePrefix| && k[..|CachePrefix|] == CachePrefix
  }

  /** A store key of the lock kind. */
  predicate IsLockKey(k: string)
  {
    |k| >= |StatusPrefix + CachePrefix| && k[..|StatusPrefix + CachePrefix|] == StatusPrefix + CachePrefix
  }

  /** Cache keys and lock keys are recognised as such, and no key is both. */
  lemma KeyKinds(dateRange: string)
    ensures IsCacheKey(CacheKey(dateRange)) && !IsLockKey(CacheKey(dateRange))
    ensures IsLockKey(LockKey(dateRange)) && !IsCacheKey(LockKey(dateRange))
  {
    assert CacheKey(dateRange)[..|CachePrefix|] == CachePrefix;
    assert LockKey(dateRange)[..|StatusPrefix + CachePrefix|] == StatusPrefix + CachePrefix;
    assert CacheKey(dateRange)[0] == 'd';
    assert LockKey(dateRange)[0] == 's';
  }

  /** Distinct date ranges never share a cache key or a lock key, and no cache key is a lock key. */
  lemma {:induction false} KeysInjective(r1: string, r2: string)
    ensures CacheKey(r1) == CacheKey(r2) <==> r1 == r2
    ensures LockKey(r1) == LockKey(r2) <==> r1 == r2
    ensures CacheKey(r1) != LockKey(r2)
  {
    if CacheKey(r1) == CacheKey(r2) {
      assert r1 == CacheKey(r1)[|CachePrefix|..];
    }
    if LockKey(r1) == LockKey(r2) {
      assert r1 == LockKey(r1)[|StatusPrefix + CachePrefix|..];
    }
    assert CacheKey(r1)[0] != LockKey(r2)[0];
  }

  /** The status check never looks at the lock that schedule sets for the same range. */
  lemma StatusCheckKeyMisses(dateRange: string)
    ensures StatusCheckLockKey(dateRange) != LockKey(dateRange)
  {
  }

  /**
   * The status check for `r` reads the lock of range `x` exactly when
   * `r` is `'daterange-' . x`: it sees some other range's lock, never its own.
   */
  lemma StatusCheckKeyAlias(r: string, x: string)
    ensures StatusCheckLockKey(r) == LockKey(x) <==> r == CacheKey(x)
  {
  }

  /** Any lock-kind key the status check can read belongs to a range that itself starts with `'daterange-'`. */
  lemma StatusCheckSeesLockOnlyViaPrefix(r: string)
    requires IsLockKey(StatusCheckLockKey(r))
    ensures IsCacheKey(r)
    ensures StatusCheckLockKey(r) == LockKey(r[|CachePrefix|..])
  {
  }

}
