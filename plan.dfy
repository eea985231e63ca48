/** Steps and plans of the agent (backend/app/domain/models/plan.py). */
module Plans {
  import opened Wrappers

  datatype ExecutionStatus = Pending | Running | Completed | Failed

  /** A step or plan is finished once it has completed or failed. */
  predicate IsDoneStatus(s: ExecutionStatus)
  {
    s == Completed || s == Failed
  }

  datatype Step = Step(
    id: string,
    description: string,
    status: ExecutionStatus,
    result: Option<string>,
    error: Option<string>,
    success: bool,
    attachments: seq<string>)
  {
    predicate IsDone()
    {
      IsDoneStatus(status)
    }
  }

  datatype Plan = Plan(
    id: string,
    title: string,
    goal: string,
    language: Option<string>,
    steps: seq<Step>,
    message: Option<string>,
    status: ExecutionStatus,
    error: Option<string>)
  {
    predicate IsDone()
    {
      IsDoneStatus(status)
    }

    /** `get_next_step`: the first step, in order, that is not done. */
    function NextStep(): (r: Option<Step>)
      ensures r.None? <==> forall j :: 0 <= j < |steps| ==> steps[j].IsDone()
      ensures r.Some? ==> !r.value.IsDone()
      ensures r.Some? ==> exists i :: (0 <= i < |steps| && steps[i] == r.value
                                       && forall j :: 0 <= j < i ==> steps[j].IsDone())
    {
      var i := FirstPending(steps);
      if i.Some? then Some(steps[i.value]) else None
    }
  }

  /** Position of the first step that is not done, if any. */
  function FirstPending(steps: seq<Step>): (r: Option<nat>)
    ensures r.None? <==> forall j :: 0 <= j < |steps| ==> steps[j].IsDone()
    ensures r.Some? ==> r.value < |steps| && !steps[r.value].IsDone()
    ensures r.Some? ==> forall j :: 0 <= j < r.value ==> steps[j].IsDone()
  {
    if steps == [] then None
    else if !steps[0].IsDone() then Some(0)
    else
      var rest := FirstPending(steps[1..]);
      if rest.Some? then Some(rest.value + 1) else None
  }

  /** A step as constructed with only an id and a description. */
  function NewStep(id: string, description: string): (s: Step)
    ensures s.status == Pending && !s.IsDone()
    ensures !s.success && s.attachments == [] && s.result.None? && s.error.None?
  {
    Step(id, description, Pending, None, None, false, [])
  }

  /** A plan as constructed with only an id: no title or goal, language "en",
    * no steps, pending. */
  function NewPlan(id: string): (p: Plan)
    ensures p.status == Pending && p.steps == [] && p.language == Some("en")
    ensures p.title == "" && p.goal == "" && p.message.None?
  {
    Plan(id, "", "", Some("en"), [], None, Pending, None)
  }

  /** On a plan whose steps are all fresh, the next step is the first one;
    * on a plan with no steps there is none. */
  lemma NextStepOfFreshPlan(p: Plan)
    requires forall j :: 0 <= j < |p.steps| ==> p.steps[j].status == Pending
    ensures p.steps == [] ==> p.NextStep() == None
    ensures p.steps != [] ==> p.NextStep() == Some(p.steps[0])
  {
  }
}
