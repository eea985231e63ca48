/** A chat session (backend/app/domain/models/session.py). */
module Sessions {
  import opened Wrappers
  import opened Plans
  import opened Events

  datatype SessionStatus = SessionPending | SessionRunning | SessionWaiting | SessionCompleted

  datatype Session = Session(
    id: string,
    userId: string,
    agentId: string,
    title: Option<string>,
    unreadMessageCount: int,
    events: seq<Event>,
    files: seq<FileInfo>,
    status: SessionStatus)

  /** A session as constructed with only its ids. */
  function NewSession(id: string, userId: string, agentId: string): (s: Session)
    ensures s.status == SessionPending && s.unreadMessageCount == 0
    ensures s.events == [] && s.files == [] && s.title.None?
    ensures LastPlan(s.events).None?
  {
    Session(id, userId, agentId, None, 0, [], [], SessionPending)
  }

  /** `get_last_plan`: the plan of the last `PlanEvent`, searching backwards. */
  function LastPlan(events: seq<Event>): Option<Plan>
  {
    if events == [] then None
    else if events[|events| - 1].PlanEvent? then Some(events[|events| - 1].plan)
    else LastPlan(events[..|events| - 1])
  }

  /** The plan of the last plan event, and None exactly when there is no
    * plan event. */
  lemma {:induction false} LastPlanSpec(events: seq<Event>)
    ensures var r := LastPlan(events);
            (r.None? <==> forall i :: 0 <= i < |events| ==> !events[i].PlanEvent?)
            && (r.Some? ==> exists i :: 0 <= i < |events| && events[i].PlanEvent? && events[i].plan == r.value
                                       && forall j :: i < j < |events| ==> !events[j].PlanEvent?)
    decreases |events|
  {
    if events != [] {
      var n := |events| - 1;
      if events[n].PlanEvent? {
        assert events[n].plan == LastPlan(events).value;
      } else {
        var pre := events[..n];
        LastPlanSpec(pre);
        assert forall i :: 0 <= i < n ==> pre[i] == events[i];
        var r := LastPlan(pre);
        assert LastPlan(events) == r;
        if r.Some? {
          var i :| 0 <= i < n && pre[i].PlanEvent? && pre[i].plan == r.value
                   && forall j :: i < j < n ==> !pre[j].PlanEvent?;
          assert events[i].PlanEvent? && events[i].plan == r.value;
          assert forall j :: i < j < |events| ==> !events[j].PlanEvent?;
        }
      }
    }
  }

  /** Events that follow the last plan event do not change the result. */
  lemma {:induction false} LastPlanIgnoresTail(events: seq<Event>, tail: seq<Event>)
    requires forall i :: 0 <= i < |tail| ==> !tail[i].PlanEvent?
    decreases |tail|
    ensures LastPlan(events + tail) == LastPlan(events)
  {
    if tail != [] {
      var shorter := tail[..|tail| - 1];
      assert (events + tail)[..|events + tail| - 1] == events + shorter;
      LastPlanIgnoresTail(events, shorter);
    } else {
      assert events + tail == events;
    }
  }

  /** A newly appended plan event determines the last plan. */
  lemma LastPlanOfAppended(events: seq<Event>, p: Plan, st: PlanStatus, step: Option<Step>)
    ensures LastPlan(events + [PlanEvent(p, st, step)]) == Some(p)
  {
  }
}
