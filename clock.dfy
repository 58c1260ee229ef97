/**
 * Instants are whole seconds counted from Go's zero time, so `time.Time.IsZero`
 * holds exactly at 0. Everything is in UTC, where every day has 86400 seconds,
 * so `AddDate(0, 0, n)` adds n days exactly.
 */
module Clock {
  const Day: int := 86400

  /** `t.AddDate(0, 0, days)` in UTC. */
  function AddDays(t: int, days: int): int
  {
    t + days * Day
  }

  /** The day number of an instant: midnight truncation in UTC. */
  function DayOf(t: int): int
  {
    t / Day
  }

  function Pow2(n: nat): (p: nat)
    ensures p >= 1
  {
    if n == 0 then 1 else 2 * Pow2(n - 1)
  }
}
