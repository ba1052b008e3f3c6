/**
 * The staleness gate of `rebuildIndexes`: the rebuild is skipped when the
 * index's `write.lock.file` was touched within the last day and the request
 * carries no `flush` parameter.
 */
module StalenessGate {

  const SecondsPerDay: int := 60 * 60 * 24

  /**
   * The lock file counts as fresh when it exists and its modification time is
   * strictly after `now - SecondsPerDay`: its age is below one day.
   */
  function LockFileFresh(lockExists: bool, lockMtime: int, now: int): (isFresh: bool)
    ensures isFresh <==> lockExists && now - lockMtime < SecondsPerDay
  {
    lockExists && lockMtime > now - SecondsPerDay
  }

  /**
   * Whether the task returns early without touching the index. `flush` is
   * whether the request has a `flush` parameter at all, whatever its value.
   */
  function SkipRebuild(lockExists: bool, lockMtime: int, now: int, flush: bool): (skip: bool)
    ensures skip <==> lockExists && !flush && now - lockMtime < SecondsPerDay
    ensures !lockExists ==> !skip
    ensures flush ==> !skip
  {
    LockFileFresh(lockExists, lockMtime, now) && !flush
  }

  /**
   * The comparison is strict: a lock file exactly one day old is stale, one
   * second younger is still fresh.
   */
  lemma DayOldLockIsStale(now: int, flush: bool)
    ensures !LockFileFresh(true, now - SecondsPerDay, now)
    ensures !SkipRebuild(true, now - SecondsPerDay, now, flush)
    ensures LockFileFresh(true, now - SecondsPerDay + 1, now)
    ensures SkipRebuild(true, now - SecondsPerDay + 1, now, false)
  {
  }
}
