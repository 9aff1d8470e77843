/** The clocks of a maintenance window: everything is measured from one recorded stop instant, and the
    only allowances beyond it are a one-minute probe and a bounded clean-up. */
module StopWindow {
  import opened Outcomes

  const COPY_SECONDS := 25 * 60
  const WINDOW_SECONDS := 30 * 60
  const CLEANUP_SECONDS := 240
  const PROBE_SECONDS := 60

  predicate OnTime(now: int, stop: int) {
    0 <= now - stop < COPY_SECONDS
  }

  predicate InWindow(now: int, stop: int) {
    0 <= now - stop < WINDOW_SECONDS
  }

  /** What is left of a budget of some seconds; before the instant and after the budget there is nothing. */
  method Remaining(now: int, stop: int, seconds: int) returns (r: Outcome<int>)
    ensures r.Done? <==> 0 <= now - stop < seconds
    ensures r.Done? ==> 0 < r.value && now + r.value == stop + seconds
    ensures !r.Crashed?
  {
    var elapsed := now - stop;
    r := if elapsed < 0 || elapsed >= seconds then Raised else Done(seconds - elapsed);
  }

  /** The time allowance of a deployment subprocess (host_budget). */
  datatype Budget =
    | Window(stop: int)
    | RecoveryProbe(stop: int, from: int)
    | Cleanup(from: int)

  predicate Allows(budget: Budget, now: int) {
    match budget
    case Window(stop) => InWindow(now, stop)
    case RecoveryProbe(stop, from) => InWindow(now, stop) || now - from < PROBE_SECONDS
    case Cleanup(from) => now - from < CLEANUP_SECONDS
  }
}
