/** The sandbox's service-timeout state (sandbox/app/services/supervisor.py):
  * whether a timeout is active, when the services shut down, the pending
  * shutdown timer and whether API requests may extend the timeout. Time is
  * in whole seconds and passed in; supervisord's RPC interface is not part
  * of this model. */
module Supervisor {
  import opened Wrappers

  /** `SupervisorTimeout`. */
  datatype TimeoutReport = TimeoutReport(status: Option<string>, active: bool, shutdownTime: Option<int>,
                                         timeoutMinutes: Option<int>, remainingSeconds: Option<int>)

  const NoDefault: string := "Timeout not specified, and system default is no timeout"

  /** `minutes or settings.SERVICE_TIMEOUT_MINUTES`: a missing or zero
    * request falls back to the default. */
  function EffectiveMinutes(minutes: Option<int>, default: Option<int>): (r: Option<int>)
    ensures minutes.Some? && minutes.value != 0 ==> r == minutes
    ensures (minutes.None? || minutes.value == 0) ==> r == default
  {
    if minutes.None? || minutes.value == 0 then default else minutes
  }

  /** `max(0, shutdown_time - now)`. */
  function Remaining(shutdownTime: int, now: int): (r: nat)
    ensures r >= shutdownTime - now
    ensures r == 0 || r == shutdownTime - now
  {
    if shutdownTime - now > 0 then shutdownTime - now else 0
  }

  class SupervisorService {
    /** `settings.SERVICE_TIMEOUT_MINUTES`. */
    const defaultMinutes: Option<int>
    var timeoutActive: bool
    var shutdownTime: Option<int>
    /** When the pending shutdown timer fires, if one is pending. */
    var timerFiresAt: Option<int>
    var autoExpandEnabled: bool

    /** A timeout is active exactly when a shutdown time is set, and the
      * pending timer fires at that time. */
    predicate Valid()
      reads this
    {
      (timeoutActive <==> shutdownTime.Some?) && timerFiresAt == shutdownTime
    }

    /** `__init__` at time `now`: active iff a default is configured, with
      * the shutdown that many minutes ahead; auto-expand starts enabled. */
    constructor(defaultMinutes: Option<int>, now: int)
      ensures this.defaultMinutes == defaultMinutes
      ensures timeoutActive <==> defaultMinutes.Some?
      ensures defaultMinutes.Some? ==> shutdownTime == Some(now + 60 * defaultMinutes.value)
      ensures defaultMinutes.None? ==> shutdownTime.None?
      ensures autoExpandEnabled
      ensures Valid()
    {
      this.defaultMinutes := defaultMinutes;
      timeoutActive := defaultMinutes.Some?;
      autoExpandEnabled := true;
      if defaultMinutes.Some? {
        shutdownTime := Some(now + 60 * defaultMinutes.value);
        timerFiresAt := Some(now + 60 * defaultMinutes.value);
      } else {
        shutdownTime := None;
        timerFiresAt := None;
      }
    }

    /** `activate_timeout` and `extend_timeout` (`status` is
      * "timeout_activated" or "timeout_extended"): the shutdown moves to
      * `now` plus the effective minutes and the timer is re-armed; with
      * neither a request nor a default they raise and change nothing. */
    method SetTimeout(minutes: Option<int>, now: int, status: string) returns (r: Result<TimeoutReport, string>)
      requires Valid()
      modifies this
      ensures Valid()
      ensures autoExpandEnabled == old(autoExpandEnabled)
      ensures var m := EffectiveMinutes(minutes, defaultMinutes);
              if m.None? then
                r == Err(NoDefault) && timeoutActive == old(timeoutActive) && shutdownTime == old(shutdownTime)
                && timerFiresAt == old(timerFiresAt)
              else
                timeoutActive && shutdownTime == Some(now + 60 * m.value)
                && r == Ok(TimeoutReport(Some(status), true, shutdownTime, m, None))
    {
      var m := EffectiveMinutes(minutes, defaultMinutes);
      if m.None? {
        return Err(NoDefault);
      }
      timeoutActive := true;
      shutdownTime := Some(now + 60 * m.value);
      timerFiresAt := shutdownTime;
      return Ok(TimeoutReport(Some(status), true, shutdownTime, m, None));
    }

    method ActivateTimeout(minutes: Option<int>, now: int) returns (r: Result<TimeoutReport, string>)
      requires Valid()
      modifies this
      ensures Valid()
      ensures autoExpandEnabled == old(autoExpandEnabled)
      ensures var m := EffectiveMinutes(minutes, defaultMinutes);
              if m.None? then
                r == Err(NoDefault) && timeoutActive == old(timeoutActive) && shutdownTime == old(shutdownTime)
              else
                timeoutActive && shutdownTime == Some(now + 60 * m.value)
                && r == Ok(TimeoutReport(Some("timeout_activated"), true, shutdownTime, m, None))
    {
      r := SetTimeout(minutes, now, "timeout_activated");
    }

    method ExtendTimeout(minutes: Option<int>, now: int) returns (r: Result<TimeoutReport, string>)
      requires Valid()
      modifies this
      ensures Valid()
      ensures autoExpandEnabled == old(autoExpandEnabled)
      ensures var m := EffectiveMinutes(minutes, defaultMinutes);
              if m.None? then
                r == Err(NoDefault) && timeoutActive == old(timeoutActive) && shutdownTime == old(shutdownTime)
              else
                timeoutActive && shutdownTime == Some(now + 60 * m.value)
                && r == Ok(TimeoutReport(Some("timeout_extended"), true, shutdownTime, m, None))
    {
      r := SetTimeout(minutes, now, "timeout_extended");
    }

    /** `cancel_timeout`: with no active timeout nothing changes; otherwise
      * the timer is cancelled, the timeout cleared and auto-expand enabled
      * again. */
    method CancelTimeout() returns (r: TimeoutReport)
      requires Valid()
      modifies this
      ensures Valid()
      ensures !old(timeoutActive) ==>
                r == TimeoutReport(Some("no_timeout_active"), false, None, None, None)
                && timeoutActive == old(timeoutActive) && shutdownTime == old(shutdownTime)
                && timerFiresAt == old(timerFiresAt) && autoExpandEnabled == old(autoExpandEnabled)
      ensures old(timeoutActive) ==>
                r == TimeoutReport(Some("timeout_cancelled"), false, None, None, None)
                && !timeoutActive && shutdownTime.None? && timerFiresAt.None? && autoExpandEnabled
    {
      if !timeoutActive {
        return TimeoutReport(Some("no_timeout_active"), false, None, None, None);
      }
      timerFiresAt := None;
      timeoutActive := false;
      shutdownTime := None;
      autoExpandEnabled := true;
      return TimeoutReport(Some("timeout_cancelled"), false, None, None, None);
    }

    /** `get_timeout_status` at time `now`: inactive, or the shutdown time
      * and the seconds left, never negative. */
    function TimeoutStatus(now: int): (r: TimeoutReport)
      reads this
      ensures r.active == timeoutActive
      ensures !timeoutActive ==> r == TimeoutReport(None, false, None, None, None)
      ensures timeoutActive && shutdownTime.Some? ==>
                r.shutdownTime == shutdownTime && r.remainingSeconds.Some?
                && r.remainingSeconds.value >= 0 && r.remainingSeconds.value >= shutdownTime.value - now
                && (r.remainingSeconds.value == 0 || r.remainingSeconds.value == shutdownTime.value - now)
    {
      if !timeoutActive then TimeoutReport(None, false, None, None, None)
      else
        var remaining := if shutdownTime.Some? then Remaining(shutdownTime.value, now) else 0;
        TimeoutReport(None, true, shutdownTime, None, Some(remaining))
    }

    method DisableAutoExpand()
      modifies this
      ensures !autoExpandEnabled
      ensures timeoutActive == old(timeoutActive) && shutdownTime == old(shutdownTime)
      ensures timerFiresAt == old(timerFiresAt)
    {
      autoExpandEnabled := false;
    }

    /** The `/timeout/activate` and `/timeout/extend` routes
      * (sandbox/app/api/v1/supervisor.py): the user takes control of the
      * timeout, so auto-expand is switched off after a successful call. */
    method TimeoutRoute(extend: bool, minutes: Option<int>, now: int) returns (r: Result<TimeoutReport, string>)
      requires Valid()
      modifies this
      ensures Valid()
      ensures var m := EffectiveMinutes(minutes, defaultMinutes);
              if m.None? then
                r == Err(NoDefault) && autoExpandEnabled == old(autoExpandEnabled)
                && timeoutActive == old(timeoutActive) && shutdownTime == old(shutdownTime)
              else
                !autoExpandEnabled && timeoutActive && shutdownTime == Some(now + 60 * m.value)
                && r == Ok(TimeoutReport(Some(if extend then "timeout_extended" else "timeout_activated"), true,
                                         shutdownTime, m, None))
    {
      if extend {
        r := ExtendTimeout(minutes, now);
      } else {
        r := ActivateTimeout(minutes, now);
      }
      if r.Ok? {
        DisableAutoExpand();
      }
    }
  }

  /** A cancel followed by a status query reports no active timeout, and a
    * second cancel reports that nothing was active. */
  method CancelThenStatus(s: SupervisorService, now: int) returns (status: TimeoutReport, again: TimeoutReport)
    requires s.Valid()
    modifies s
    ensures !status.active
    ensures again.status == Some("no_timeout_active")
  {
    var _ := s.CancelTimeout();
    status := s.TimeoutStatus(now);
    again := s.CancelTimeout();
  }
}
