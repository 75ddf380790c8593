/** The admission gate in front of the status probe: a request is served only
    when at least the configured number of seconds has passed since the last
    stamp; otherwise the requester is told how many seconds to wait. Instants
    and durations are integer nanoseconds. */
module Cooldown {

  import opened Wrappers

  /** An instant or a duration, in nanoseconds. */
  type Instant = int

  const NANOS_PER_SECOND: int := 1_000_000_000

  /** `int(d.Seconds())` in Go: the whole seconds of a duration, truncated
      toward zero. */
  function WholeSeconds(d: int): (s: int)
    ensures d >= 0 ==> 0 <= s && s * NANOS_PER_SECOND <= d < (s + 1) * NANOS_PER_SECOND
    ensures d < 0 ==> s <= 0 && (s - 1) * NANOS_PER_SECOND < d <= s * NANOS_PER_SECOND
  {
    if d >= 0 then d / NANOS_PER_SECOND else -((-d) / NANOS_PER_SECOND)
  }

  /** The gate: `time.Since(last) < interval` rejects. An unset stamp (Go's
      zero time) lies further back than any interval, so it always admits. */
  predicate Admitted(last: Option<Instant>, now: Instant, intervalSeconds: int) {
    last.None? || now - last.value >= intervalSeconds * NANOS_PER_SECOND
  }

  /** The number of seconds quoted to a rejected requester. For a stamp that
      is not in the future it lies between 1 and the interval, is never less
      than the time still to wait, and overstates it by less than a second. */
  function WaitSeconds(last: Instant, now: Instant, intervalSeconds: int): (wait: int)
    ensures !Admitted(Some(last), now, intervalSeconds) && last <= now ==>
              && 1 <= wait <= intervalSeconds
              && (wait - 1) * NANOS_PER_SECOND < intervalSeconds * NANOS_PER_SECOND - (now - last)
              && intervalSeconds * NANOS_PER_SECOND - (now - last) <= wait * NANOS_PER_SECOND
  {
    intervalSeconds - WholeSeconds(now - last)
  }

  /** Coming back after the quoted number of seconds is always admitted, and
      coming back one second earlier never is. */
  lemma WaitingSuffices(last: Instant, now: Instant, intervalSeconds: int)
    requires !Admitted(Some(last), now, intervalSeconds) && last <= now
    ensures Admitted(Some(last), now + WaitSeconds(last, now, intervalSeconds) * NANOS_PER_SECOND, intervalSeconds)
    ensures !Admitted(Some(last), now + (WaitSeconds(last, now, intervalSeconds) - 1) * NANOS_PER_SECOND, intervalSeconds)
  {
    var wait := WaitSeconds(last, now, intervalSeconds);
    assert intervalSeconds * NANOS_PER_SECOND - (now - last) <= wait * NANOS_PER_SECOND;
  }

  /** A second request `now - last` nanoseconds after an admitted one, still
      inside the window, is rejected with the interval minus the whole
      seconds elapsed. */
  lemma SecondRequestInsideWindow(last: Instant, now: Instant, intervalSeconds: int)
    requires 0 <= now - last < intervalSeconds * NANOS_PER_SECOND
    ensures !Admitted(Some(last), now, intervalSeconds)
    ensures WaitSeconds(last, now, intervalSeconds) == intervalSeconds - (now - last) / NANOS_PER_SECOND
  {
  }
}
