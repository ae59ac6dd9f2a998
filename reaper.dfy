/**
  The two timer callbacks that reap protocol sessions from the server's
  session pool. The pool is a set of opaque session identities; what a
  callback returns decides whether its timeout source stays armed.
 */
module Reaper {

  /** A protocol session in the server's pool, known only by identity. */
  type SessionId = nat

  /** GstRTSPFilterResult */
  datatype FilterResult = Remove | Keep | Ref

  /** What a timer callback leaves behind: the pool afterwards, and whether
      its source stays armed (TRUE) or is removed (FALSE). */
  datatype TimerOutcome = TimerOutcome(pool: set<SessionId>, rearm: bool)

  /** The period, in seconds, of the idle-cleanup source. */
  const CleanupPeriod: nat := 2
  /** The period, in seconds, of the evict-everything source. */
  const EvictPeriod: nat := 10

  /** remove_func: the filter that answers REMOVE whatever the session. */
  function RemoveFunc(session: SessionId): (r: FilterResult)
    ensures r == Remove
  {
    Remove
  }

  /** gst_rtsp_session_pool_filter: every session the filter answers REMOVE
      for leaves the pool, the others stay. */
  function FilterPool(pool: set<SessionId>, filter: SessionId -> FilterResult): (kept: set<SessionId>)
    ensures kept <= pool
    ensures forall s :: s in pool ==> (s in kept <==> filter(s) != Remove)
  {
    set s | s in pool && filter(s) != Remove
  }

  /** remove_sessions: filters the pool with remove_func and answers FALSE. */
  function RemoveSessions(pool: set<SessionId>): (r: TimerOutcome)
    ensures r.pool == {}
    ensures !r.rearm
  {
    TimerOutcome(FilterPool(pool, RemoveFunc), false)
  }

  /** timeout: the pool's cleanup drops the sessions whose idle time ran out
      (which ones is the engine's clock to decide) and the callback answers
      TRUE. */
  function Timeout(pool: set<SessionId>, expired: set<SessionId>): (r: TimerOutcome)
    ensures r.rearm
    ensures r.pool <= pool && r.pool !! expired
    ensures forall s :: s in pool && s !in expired ==> s in r.pool
  {
    TimerOutcome(pool - expired, true)
  }

  /** How many times a timeout source of the given period has run its
      callback after `elapsed` seconds, when the callback answers `rearm`
      every time: a FALSE answer removes the source after that run. */
  function Dispatches(period: nat, rearm: bool, elapsed: nat): (n: nat)
    requires period > 0
    ensures n == 0 <==> elapsed < period
    ensures !rearm ==> n <= 1
    decreases elapsed
  {
    if elapsed < period then 0
    else if !rearm then 1
    else 1 + Dispatches(period, rearm, elapsed - period)
  }

  /** A source whose callback always answers TRUE never stops: it has run
      once per full period. */
  lemma {:induction false} RearmedSourceNeverStops(period: nat, elapsed: nat)
    requires period > 0
    ensures var n := Dispatches(period, true, elapsed);
            n * period <= elapsed < (n + 1) * period
  {
    if elapsed >= period {
      RearmedSourceNeverStops(period, elapsed - period);
      var n' := Dispatches(period, true, elapsed - period);
      assert (n' + 1) * period == n' * period + period;
      assert (n' + 2) * period == (n' + 1) * period + period;
    }
  }

  /** The idle cleanup runs every two seconds for as long as the loop runs;
      the full eviction runs once, at ten seconds, and never again. */
  lemma ReaperSchedule(pool: set<SessionId>, expired: set<SessionId>, elapsed: nat)
    ensures Dispatches(CleanupPeriod, Timeout(pool, expired).rearm, elapsed) == elapsed / 2
    ensures Dispatches(EvictPeriod, RemoveSessions(pool).rearm, elapsed) == if elapsed < 10 then 0 else 1
  {
    RearmedSourceNeverStops(CleanupPeriod, elapsed);
  }
}
