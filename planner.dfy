/** The planner agent's plan creation and plan update
  * (backend/app/domain/services/agents/planner.py). The events of its inner
  * `execute` run and the parsing of the reply into a plan are inputs. */
module Planner {
  import opened Wrappers
  import opened Plans
  import opened Events

  /** `create_plan`: each reply becomes a CREATED plan event, other events
    * pass; a reply that does not parse ends the stream with an exception. */
  function CreatePlan(inner: seq<Event>, parse: string -> Result<Plan, string>): (r: (seq<Event>, Option<string>))
    ensures r.1.None? ==> |r.0| == |inner|
    ensures r.1.None? ==> forall i :: 0 <= i < |inner| && !inner[i].MessageEvent? ==> r.0[i] == inner[i]
    ensures r.1.None? ==> forall i :: 0 <= i < |inner| && inner[i].MessageEvent? ==>
      parse(inner[i].message).Ok? && r.0[i] == PlanEvent(parse(inner[i].message).value, PlanCreated, None)
    ensures r.1.Some? ==> exists i :: 0 <= i < |inner| && inner[i].MessageEvent? && parse(inner[i].message) == Err(r.1.value)
  {
    if inner == [] then ([], None)
    else
      var e := inner[0];
      if e.MessageEvent? && parse(e.message).Err? then ([], Some(parse(e.message).error))
      else
        var head := if e.MessageEvent? then PlanEvent(parse(e.message).value, PlanCreated, None) else e;
        var rest := CreatePlan(inner[1..], parse);
        assert rest.1.Some? ==> exists i :: 1 <= i < |inner| && inner[i].MessageEvent? && parse(inner[i].message) == Err(rest.1.value) by {
          if rest.1.Some? {
            var i :| 0 <= i < |inner[1..]| && inner[1..][i].MessageEvent? && parse(inner[1..][i].message) == Err(rest.1.value);
            assert inner[i + 1] == inner[1..][i];
          }
        }
        ([head] + rest.0, rest.1)
  }

  /** The steps after an update: the steps before the first one that is not
    * done are kept and everything from there on is replaced by the new
    * steps; with every step done, nothing changes. */
  function MergedSteps(steps: seq<Step>, newSteps: seq<Step>): (r: seq<Step>)
    ensures (forall j :: 0 <= j < |steps| ==> steps[j].IsDone()) ==> r == steps
    ensures var k := FirstPending(steps);
      k.Some? ==> k.value <= |r| && r[..k.value] == steps[..k.value] && r[k.value..] == newSteps
    ensures forall j :: 0 <= j < |r| - |newSteps| ==> r[j].IsDone()
  {
    var k := FirstPending(steps);
    if k.None? then steps else steps[..k.value] + newSteps
  }

  /** The loop of `update_plan` that finds the first step not done and
    * splices the new steps in there. */
  method UpdateSteps(steps: seq<Step>, newSteps: seq<Step>) returns (r: seq<Step>)
    ensures r == MergedSteps(steps, newSteps)
  {
    var first: Option<nat> := None;
    var i := 0;
    while i < |steps|
      invariant 0 <= i <= |steps|
      invariant forall j :: 0 <= j < i ==> steps[j].IsDone()
    {
      if !steps[i].IsDone() {
        first := Some(i);
        break;
      }
      i := i + 1;
    }
    assert first.Some? ==> first == FirstPending(steps) by {
      if first.Some? {
        FirstPendingUnique(steps, first.value);
      }
    }
    if first.Some? {
      r := steps[..first.value] + newSteps;
    } else {
      r := steps;
    }
  }

  /** A position whose predecessors are done and which is not done is the
    * first pending position. */
  lemma FirstPendingUnique(steps: seq<Step>, k: nat)
    requires k < |steps| && !steps[k].IsDone()
    requires forall j :: 0 <= j < k ==> steps[j].IsDone()
    ensures FirstPending(steps) == Some(k)
  {
  }

  /** A done prefix survives an update. */
  lemma MergeKeepsDonePrefix(steps: seq<Step>, newSteps: seq<Step>, k: nat)
    requires k <= |steps|
    requires forall j :: 0 <= j < k ==> steps[j].IsDone()
    ensures k <= |MergedSteps(steps, newSteps)|
    ensures MergedSteps(steps, newSteps)[..k] == steps[..k]
  {
    var f := FirstPending(steps);
    if f.Some? {
      assert k <= f.value;
      var r := MergedSteps(steps, newSteps);
      assert r[..k] == r[..f.value][..k];
    }
  }

  /** Applying the same update twice changes nothing more when the new
    * steps start with a step still to do. */
  lemma MergeStable(steps: seq<Step>, newSteps: seq<Step>)
    requires newSteps != [] && !newSteps[0].IsDone()
    ensures MergedSteps(MergedSteps(steps, newSteps), newSteps) == MergedSteps(steps, newSteps)
  {
    var r := MergedSteps(steps, newSteps);
    var f := FirstPending(steps);
    if f.Some? {
      var k := f.value;
      assert r == steps[..k] + newSteps;
      assert r[k] == newSteps[0];
      FirstPendingUnique(r, k);
      assert r[..k] + newSteps == r;
    }
  }

  /** What `update_plan` yields and the plan it leaves behind. */
  datatype Update = Update(events: seq<Event>, plan: Plan, error: Option<string>)

  /** `update_plan`: each reply is parsed into a plan whose steps are merged
    * into the current plan, which is then shown as UPDATED; other events
    * pass; a reply that does not parse ends the stream with an exception. */
  function UpdatePlan(plan: Plan, inner: seq<Event>, parse: string -> Result<Plan, string>): (r: Update)
    decreases |inner|
    ensures r.error.None? ==> |r.events| == |inner|
  {
    if inner == [] then Update([], plan, None)
    else
      var e := inner[0];
      if !e.MessageEvent? then
        var rest := UpdatePlan(plan, inner[1..], parse);
        Update([e] + rest.events, rest.plan, rest.error)
      else
        var parsed := parse(e.message);
        if parsed.Err? then Update([], plan, Some(parsed.error))
        else
          var p := plan.(steps := MergedSteps(plan.steps, parsed.value.steps));
          var rest := UpdatePlan(p, inner[1..], parse);
          Update([PlanEvent(p, PlanUpdated, None)] + rest.events, rest.plan, rest.error)
  }

  /** The update changes only the steps of the plan. */
  lemma {:induction false} UpdateOnlySteps(plan: Plan, inner: seq<Event>, parse: string -> Result<Plan, string>)
    decreases |inner|
    ensures UpdatePlan(plan, inner, parse).plan == plan.(steps := UpdatePlan(plan, inner, parse).plan.steps)
  {
    if inner != [] && (!inner[0].MessageEvent? || parse(inner[0].message).Ok?) {
      var p := if !inner[0].MessageEvent? then plan
               else plan.(steps := MergedSteps(plan.steps, parse(inner[0].message).value.steps));
      UpdateOnlySteps(p, inner[1..], parse);
    }
  }

  /** Without an exception every event is passed in its place and every
    * reply shows up there as an UPDATED plan. */
  lemma {:induction false} UpdateEventsInPlace(plan: Plan, inner: seq<Event>, parse: string -> Result<Plan, string>)
    decreases |inner|
    ensures var r := UpdatePlan(plan, inner, parse);
            r.error.None? ==>
              |r.events| == |inner|
              && (forall i :: 0 <= i < |inner| && !inner[i].MessageEvent? ==> r.events[i] == inner[i])
              && (forall i :: 0 <= i < |inner| && inner[i].MessageEvent? ==>
                    r.events[i].PlanEvent? && r.events[i].planStatus == PlanUpdated)
  {
    if inner != [] && (!inner[0].MessageEvent? || parse(inner[0].message).Ok?) {
      var e := inner[0];
      var tail := inner[1..];
      var p := if !e.MessageEvent? then plan
               else plan.(steps := MergedSteps(plan.steps, parse(e.message).value.steps));
      var head := if !e.MessageEvent? then e else PlanEvent(p, PlanUpdated, None);
      UpdateEventsInPlace(p, tail, parse);
      var rest := UpdatePlan(p, tail, parse);
      var r := UpdatePlan(plan, inner, parse);
      assert r == Update([head] + rest.events, rest.plan, rest.error);
      if r.error.None? {
        forall i | 0 <= i < |inner|
          ensures !inner[i].MessageEvent? ==> r.events[i] == inner[i]
          ensures inner[i].MessageEvent? ==> r.events[i].PlanEvent? && r.events[i].planStatus == PlanUpdated
        {
          if i > 0 {
            assert r.events[i] == rest.events[i - 1] && inner[i] == tail[i - 1];
          }
        }
      }
    }
  }

  /** An update that sees no reply changes nothing and does not raise. */
  lemma {:induction false} UpdateWithoutReplies(plan: Plan, inner: seq<Event>, parse: string -> Result<Plan, string>)
    requires forall i :: 0 <= i < |inner| ==> !inner[i].MessageEvent?
    decreases |inner|
    ensures UpdatePlan(plan, inner, parse).plan == plan && UpdatePlan(plan, inner, parse).error.None?
  {
    if inner != [] {
      assert forall i :: 0 <= i < |inner| - 1 ==> inner[1..][i] == inner[i + 1];
      UpdateWithoutReplies(plan, inner[1..], parse);
    }
  }

  /** However many replies the update sees, the steps done before the first
    * pending step of the original plan stay where they were. */
  lemma {:induction false} UpdateKeepsDonePrefix(plan: Plan, inner: seq<Event>, parse: string -> Result<Plan, string>, k: nat)
    requires k <= |plan.steps|
    requires forall j :: 0 <= j < k ==> plan.steps[j].IsDone()
    decreases |inner|
    ensures k <= |UpdatePlan(plan, inner, parse).plan.steps|
    ensures UpdatePlan(plan, inner, parse).plan.steps[..k] == plan.steps[..k]
  {
    if inner != [] {
      var e := inner[0];
      if !e.MessageEvent? {
        UpdateKeepsDonePrefix(plan, inner[1..], parse, k);
      } else if parse(e.message).Ok? {
        var ms := MergedSteps(plan.steps, parse(e.message).value.steps);
        MergeKeepsDonePrefix(plan.steps, parse(e.message).value.steps, k);
        assert forall j :: 0 <= j < k ==> ms[j].IsDone() by {
          forall j | 0 <= j < k
            ensures ms[j].IsDone()
          {
            assert ms[j] == ms[..k][j];
          }
        }
        UpdateKeepsDonePrefix(plan.(steps := ms), inner[1..], parse, k);
        assert ms[..k] == plan.steps[..k];
      }
    }
  }
}
