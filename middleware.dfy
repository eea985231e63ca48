/** The sandbox's request middleware (sandbox/app/core/middleware.py):
  * every API request extends an active timeout unless the user has taken
  * control of it, and is then forwarded unchanged. */
module Middleware {
  import opened Wrappers
  import opened PyStr
  import Supervisor

  /** The guard of `auto_extend_timeout_middleware`. */
  predicate ShouldExtend(defaultMinutes: Option<int>, timeoutActive: bool, path: string, autoExpand: bool)
  {
    defaultMinutes.Some? && timeoutActive && StartsWith(path, "/api/")
    && !StartsWith(path, "/api/v1/supervisor/timeout/") && autoExpand
  }

  /** The timeout-management routes never extend the timeout, whatever the
    * state. */
  lemma TimeoutRoutesExempt(defaultMinutes: Option<int>, timeoutActive: bool, rest: string, autoExpand: bool)
    ensures !ShouldExtend(defaultMinutes, timeoutActive, "/api/v1/supervisor/timeout/" + rest, autoExpand)
  {
    var p := "/api/v1/supervisor/timeout/" + rest;
    assert p[..|"/api/v1/supervisor/timeout/"|] == "/api/v1/supervisor/timeout/";
  }

  /** `auto_extend_timeout_middleware` for a request to `path` at time
    * `now`: the timeout is extended by the default when the guard holds
    * (a failure would only be logged), and the response of `callNext` is
    * returned as it is. */
  method Handle<Response>(s: Supervisor.SupervisorService, path: string, now: int,
                          callNext: string -> Response) returns (response: Response)
    requires s.Valid()
    modifies s
    ensures s.Valid()
    ensures response == callNext(path)
    ensures s.autoExpandEnabled == old(s.autoExpandEnabled)
    ensures ShouldExtend(s.defaultMinutes, old(s.timeoutActive), path, old(s.autoExpandEnabled)) ==>
              s.timeoutActive && s.shutdownTime == Some(now + 60 * s.defaultMinutes.value)
    ensures !ShouldExtend(s.defaultMinutes, old(s.timeoutActive), path, old(s.autoExpandEnabled)) ==>
              s.timeoutActive == old(s.timeoutActive) && s.shutdownTime == old(s.shutdownTime)
              && s.timerFiresAt == old(s.timerFiresAt)
  {
    if ShouldExtend(s.defaultMinutes, s.timeoutActive, path, s.autoExpandEnabled) {
      var _ := s.ExtendTimeout(None, now);
    }
    response := callNext(path);
  }
}
