/** The plan-and-act flow (backend/app/domain/services/flows/plan_act.py):
  * a state machine that plans with the planner agent, runs each pending
  * step with the execution agent, updates the plan after each step and
  * finally summarizes. */
module PlanAct {
  import opened Wrappers
  import P = Plans
  import opened Events
  import Sessions
  import Memories
  import BaseAgent
  import Execution
  import Planner

  datatype AgentStatus = Idle | Planning | Executing | Summarizing | Completed | Updating

  /** The moves of the state machine. */
  predicate Transition(a: AgentStatus, b: AgentStatus)
  {
    match a
    case Idle => b == Planning
    case Planning => b == Executing || b == AgentStatus.Completed
    case Executing => b == Summarizing || b == Updating
    case Updating => b == Executing
    case Summarizing => b == AgentStatus.Completed
    case Completed => b == Idle
  }

  /** The state `run` resumes in: a running session plans again, a waiting
    * one goes on executing, any other keeps the flow's state. */
  function StartStatus(session: Sessions.SessionStatus, current: AgentStatus): (r: AgentStatus)
    ensures session == Sessions.SessionRunning ==> r == Planning
    ensures session == Sessions.SessionWaiting ==> r == Executing
    ensures session == Sessions.SessionPending || session == Sessions.SessionCompleted ==> r == current
  {
    if session == Sessions.SessionRunning then Planning
    else if session == Sessions.SessionWaiting then Executing
    else current
  }

  predicate AllDone(steps: seq<P.Step>)
  {
    forall j :: 0 <= j < |steps| ==> steps[j].IsDone()
  }

  /** Length of the leading run of done steps. */
  function DonePrefix(steps: seq<P.Step>): (k: nat)
    ensures k <= |steps|
    ensures forall j :: 0 <= j < k ==> steps[j].IsDone()
    ensures k < |steps| ==> !steps[k].IsDone()
  {
    var f := P.FirstPending(steps);
    if f.Some? then f.value else |steps|
  }

  predicate IsCreated(e: Event)
  {
    e.PlanEvent? && e.planStatus == PlanCreated
  }

  /** What the planning state shows and the plan it keeps. */
  datatype Shown = Shown(events: seq<Event>, plan: Option<P.Plan>, error: Option<string>)

  /** The planning state's handling of `create_plan`: each CREATED plan
    * becomes the flow's plan and is announced by its title and its message
    * before the plan event itself; a plan without a message cannot be
    * announced and raises. */
  function Announce(evs: seq<Event>, plan: Option<P.Plan>): Shown
  {
    if evs == [] then Shown([], plan, None)
    else
      var e := evs[0];
      if !IsCreated(e) then
        var rest := Announce(evs[1..], plan);
        Shown([e] + rest.events, rest.plan, rest.error)
      else if e.plan.message.None? then
        Shown([TitleEvent(e.plan.title)], Some(e.plan), Some("MessageEvent needs a string message"))
      else
        var rest := Announce(evs[1..], Some(e.plan));
        Shown([TitleEvent(e.plan.title), MessageEvent("assistant", e.plan.message.value, None), e] + rest.events,
              rest.plan, rest.error)
  }

  /** Without a CREATED plan event, the events pass through and the plan is
    * kept. */
  lemma {:induction false} AnnounceUnchanged(evs: seq<Event>, plan: Option<P.Plan>)
    requires forall i :: 0 <= i < |evs| ==> !IsCreated(evs[i])
    ensures Announce(evs, plan) == Shown(evs, plan, None)
    decreases |evs|
  {
    if evs != [] {
      assert !IsCreated(evs[0]);
      assert forall i :: 0 <= i < |evs| - 1 ==> evs[1..][i] == evs[i + 1];
      AnnounceUnchanged(evs[1..], plan);
      assert evs == [evs[0]] + evs[1..];
    }
  }

  lemma LastThree(a: seq<Event>, b: seq<Event>)
    requires |b| >= 3
    ensures (a + b)[|a + b| - 3..] == b[|b| - 3..]
  {
  }

  /** When the last event is a CREATED plan and nothing raised, that plan
    * is the flow's plan and the shown events end with its title, its
    * message and the plan event. */
  lemma {:induction false} AnnounceLast(evs: seq<Event>, plan: Option<P.Plan>)
    requires evs != [] && IsCreated(evs[|evs| - 1]) && Announce(evs, plan).error.None?
    ensures var r := Announce(evs, plan);
            var last := evs[|evs| - 1];
            r.plan == Some(last.plan) && last.plan.message.Some? && |r.events| >= 3
            && r.events[|r.events| - 3..]
               == [TitleEvent(last.plan.title), MessageEvent("assistant", last.plan.message.value, None), last]
    decreases |evs|
  {
    var e := evs[0];
    var last := evs[|evs| - 1];
    var r := Announce(evs, plan);
    if |evs| == 1 {
      assert last == e;
    } else {
      var tail := evs[1..];
      assert tail[|tail| - 1] == last;
      var head := if !IsCreated(e) then [e]
                  else [TitleEvent(e.plan.title), MessageEvent("assistant", e.plan.message.value, None), e];
      var prior := if !IsCreated(e) then plan else Some(e.plan);
      var rest := Announce(tail, prior);
      assert r == Shown(head + rest.events, rest.plan, rest.error);
      AnnounceLast(tail, prior);
      LastThree(head, rest.events);
    }
  }

  datatype RunOutcome = Finished | Raised(error: string) | OutOfFuel

  class Flow {
    var status: AgentStatus
    var plan: Option<P.Plan>
    const planner: BaseAgent.Agent
    const executor: BaseAgent.Agent
    /** The prompts of the two agents, filled in from their templates. */
    const createPrompt: ChatInput -> string
    const executePrompt: (P.Plan, P.Step, ChatInput) -> string
    const updatePrompt: (P.Plan, P.Step) -> string
    const summarizePrompt: string
    /** `json_parser.parse` followed by the model validation of the reply;
      * `Err` raises. */
    const parsePlan: string -> Result<P.Plan, string>
    const parseStep: string -> Result<Execution.StepReply, string>
    const parseSummary: string -> Result<Execution.SummaryReply, string>

    /** The two agents keep separate memories. */
    predicate Valid()
    {
      planner != executor && planner.memory != executor.memory
    }

    constructor (planner: BaseAgent.Agent, executor: BaseAgent.Agent,
                 createPrompt: ChatInput -> string, executePrompt: (P.Plan, P.Step, ChatInput) -> string,
                 updatePrompt: (P.Plan, P.Step) -> string, summarizePrompt: string,
                 parsePlan: string -> Result<P.Plan, string>,
                 parseStep: string -> Result<Execution.StepReply, string>,
                 parseSummary: string -> Result<Execution.SummaryReply, string>)
      requires planner != executor && planner.memory != executor.memory
      ensures Valid() && status == Idle && plan.None?
      ensures this.planner == planner && this.executor == executor
      ensures this.createPrompt == createPrompt && this.executePrompt == executePrompt
      ensures this.updatePrompt == updatePrompt && this.summarizePrompt == summarizePrompt
      ensures this.parsePlan == parsePlan && this.parseStep == parseStep && this.parseSummary == parseSummary
    {
      this.planner := planner;
      this.executor := executor;
      this.createPrompt := createPrompt;
      this.executePrompt := executePrompt;
      this.updatePrompt := updatePrompt;
      this.summarizePrompt := summarizePrompt;
      this.parsePlan := parsePlan;
      this.parseStep := parseStep;
      this.parseSummary := parseSummary;
      status := Idle;
      plan := None;
    }

    /** `is_done`. */
    predicate IsDone()
      reads this
    {
      status == Idle
    }

    /** The start of `run`: both agents roll back unless the session is
      * pending, the state follows the session, and the plan is the
      * session's last one. */
    method Resume(session: Sessions.Session, input: ChatInput)
      requires Valid()
      modifies this, planner.memory, executor.memory
      ensures session.status != Sessions.SessionPending ==>
        planner.memory.messages == BaseAgent.RolledBack(old(planner.memory.messages), input)
        && executor.memory.messages == BaseAgent.RolledBack(old(executor.memory.messages), input)
      ensures session.status == Sessions.SessionPending ==>
        planner.memory.messages == old(planner.memory.messages) && executor.memory.messages == old(executor.memory.messages)
      ensures status == StartStatus(session.status, old(status))
      ensures plan == Sessions.LastPlan(session.events)
    {
      if session.status != Sessions.SessionPending {
        executor.RollBack(input);
        planner.RollBack(input);
      }
      status := StartStatus(session.status, status);
      plan := Sessions.LastPlan(session.events);
    }

    /** PLANNING: ask the planner for a plan, announce it and go on
      * executing it, or finish at once when it has no steps. The check on
      * the number of steps looks at the last event `create_plan` yielded. */
    method CreatePlan(input: ChatInput) returns (events: seq<Event>, raised: Option<string>)
      requires Valid() && status == Planning
      modifies this, planner, planner.memory
      ensures status == Planning || status == Executing || status == AgentStatus.Completed
      ensures raised.None? ==> status != Planning
      ensures raised.None? && status == AgentStatus.Completed ==> plan.Some? && plan.value.steps == []
      ensures raised.None? && status == Executing ==> plan.Some?
    {
      var inner, _, _, _, err := planner.Execute(createPrompt(input), false);
      var created := Planner.CreatePlan(inner, parsePlan);
      var prior := plan;
      var shown := Announce(created.0, prior);
      events := shown.events;
      plan := shown.plan;
      if shown.error.Some? {
        return events, shown.error;
      }
      if created.1.Some? {
        return events, created.1;
      }
      if err.Some? {
        return events, err;
      }
      status := Executing;
      if created.0 == [] {
        return events, Some("no plan event to read the steps from");
      }
      var last := created.0[|created.0| - 1];
      if !last.PlanEvent? {
        return events, Some("the last event has no plan");
      }
      if IsCreated(last) {
        AnnounceLast(created.0, prior);
      }
      if last.plan.steps == [] {
        status := AgentStatus.Completed;
      }
      raised := None;
    }

    /** EXECUTING: run the next pending step with the execution agent,
      * recording what happened to it in the plan, and compact the
      * executor's memory; with no step left, go on to summarize. */
    method ExecuteNext(input: ChatInput, step: Option<P.Step>)
      returns (events: seq<Event>, stepOut: Option<P.Step>, raised: Option<string>)
      requires Valid() && status == Executing
      modifies this, executor, executor.memory
      ensures status == Executing || status == Summarizing || status == Updating
      ensures raised.None? ==> status != Executing
      ensures old(plan).None? ==> raised.Some? && events == [] && plan.None?
      ensures raised.None? && status == Summarizing ==> plan.Some? && AllDone(plan.value.steps) && stepOut.None?
      ensures old(plan).Some? ==>
        plan.Some? && plan.value.status == P.Running
        && plan.value == old(plan).value.(status := P.Running, steps := plan.value.steps)
      ensures old(plan).Some? && !AllDone(old(plan).value.steps) ==>
        var k := DonePrefix(old(plan).value.steps);
        |plan.value.steps| == |old(plan).value.steps|
        && plan.value.steps[..k] == old(plan).value.steps[..k] && plan.value.steps[k + 1..] == old(plan).value.steps[k + 1..]
        && stepOut == Some(plan.value.steps[k])
        && events != [] && events[0] == StepEvent(old(plan).value.steps[k].(status := P.Running), StepStarted)
      ensures raised.None? && status == Updating ==> executor.memory.messages == Memories.Compacted(executor.memory.messages)
    {
      stepOut := step;
      if plan.None? {
        return [], stepOut, Some("there is no plan to execute");
      }
      var p := plan.value.(status := P.Running);
      plan := Some(p);
      var k := P.FirstPending(p.steps);
      if k.None? {
        status := Summarizing;
        return [], None, None;
      }
      var current := p.steps[k.value];
      var inner, _, _, _, err := executor.Execute(executePrompt(p, current, input), true);
      var run := Execution.ExecuteStep(current, inner, parseStep, err.None?);
      plan := Some(p.(steps := p.steps[k.value := run.step]));
      events := run.events;
      stepOut := Some(run.step);
      if run.flow.Raise? {
        return events, stepOut, Some(run.flow.error);
      }
      if err.Some? && run.flow.Continue? {
        return events, stepOut, err;
      }
      label Compacting:
      executor.memory.Compact();
      Memories.CompactIdempotent(old@Compacting(executor.memory.messages));
      status := Updating;
      raised := None;
    }

    /** UPDATING: let the planner revise the remaining steps after the step
      * just run; the steps already done before it stay as they were. */
    method UpdatePlan(step: Option<P.Step>) returns (events: seq<Event>, raised: Option<string>)
      requires Valid() && status == Updating
      modifies this, planner, planner.memory
      ensures status == Updating || status == Executing
      ensures raised.None? <==> status == Executing
      ensures old(plan).None? || step.None? ==> raised.Some? && events == [] && plan == old(plan)
      ensures old(plan).Some? && step.Some? ==>
        plan.Some? && plan.value == old(plan).value.(steps := plan.value.steps)
        && var k := DonePrefix(old(plan).value.steps);
           k <= |plan.value.steps| && plan.value.steps[..k] == old(plan).value.steps[..k]
    {
      if plan.None? {
        return [], Some("there is no plan to update");
      }
      if step.None? {
        return [], Some("there is no step to report");
      }
      var p := plan.value;
      var inner, _, _, _, err := planner.Execute(updatePrompt(p, step.value), false);
      var u := Planner.UpdatePlan(p, inner, parsePlan);
      Planner.UpdateOnlySteps(p, inner, parsePlan);
      Planner.UpdateKeepsDonePrefix(p, inner, parsePlan, DonePrefix(p.steps));
      plan := Some(u.plan);
      events := u.events;
      if u.error.Some? {
        return events, u.error;
      }
      if err.Some? {
        return events, err;
      }
      status := Executing;
      raised := None;
    }

    /** SUMMARIZING: the executor's summary, then the flow completes. */
    method Summarize() returns (events: seq<Event>, raised: Option<string>)
      requires Valid() && status == Summarizing
      modifies this, executor, executor.memory
      ensures plan == old(plan)
      ensures raised.None? <==> status == AgentStatus.Completed
      ensures raised.Some? ==> status == Summarizing
    {
      var inner, _, _, _, err := executor.Execute(summarizePrompt, false);
      var s := Execution.Summarize(inner, parseSummary);
      events := s.0;
      if s.1.Some? {
        return events, s.1;
      }
      if err.Some? {
        return events, err;
      }
      status := AgentStatus.Completed;
      raised := None;
    }

    /** COMPLETED: the plan is marked completed and shown, and the flow is
      * idle again. */
    method Complete() returns (events: seq<Event>, raised: Option<string>)
      requires status == AgentStatus.Completed
      modifies this
      ensures old(plan).None? ==> raised.Some? && events == [] && status == old(status) && plan == old(plan)
      ensures old(plan).Some? ==>
        raised.None? && status == Idle
        && plan == Some(old(plan).value.(status := P.Completed))
        && events == [PlanEvent(plan.value, PlanCompleted, None)]
    {
      if plan.None? {
        return [], Some("there is no plan to complete");
      }
      var p := plan.value.(status := P.Completed);
      plan := Some(p);
      status := Idle;
      return [PlanEvent(p, PlanCompleted, None)], None;
    }

    /** One turn of the loop of `run`: the work of the current state and
      * the move to the next. `exit` is the break after COMPLETED. */
    method Tick(input: ChatInput, step: Option<P.Step>)
      returns (events: seq<Event>, stepOut: Option<P.Step>, raised: Option<string>, exit: bool)
      requires Valid()
      modifies this, planner, executor, planner.memory, executor.memory
      ensures raised.None? ==> Transition(old(status), status)
      ensures raised.Some? ==> status == old(status) || Transition(old(status), status)
      ensures exit <==> old(status) == AgentStatus.Completed && raised.None?
      ensures exit ==>
        status == Idle && old(plan).Some? && plan == Some(old(plan).value.(status := P.Completed))
        && events == [PlanEvent(plan.value, PlanCompleted, None)]
      ensures raised.None? && status == Summarizing ==> plan.Some? && AllDone(plan.value.steps)
      ensures raised.None? && status == AgentStatus.Completed && old(status) == Planning ==>
        plan.Some? && plan.value.steps == []
      ensures old(status) == Summarizing ==> plan == old(plan)
    {
      stepOut := step;
      exit := false;
      match status
      case Idle =>
        status := Planning;
        return [], stepOut, None, false;
      case Planning =>
        events, raised := CreatePlan(input);
      case Executing =>
        events, stepOut, raised := ExecuteNext(input, step);
      case Updating =>
        events, raised := UpdatePlan(step);
      case Summarizing =>
        events, raised := Summarize();
      case Completed =>
        events, raised := Complete();
        exit := raised.None?;
    }

    /** `run`: resume from the session, then turn the state machine until
      * it completes (at most `fuel` turns), ending the stream with a
      * DoneEvent. `trace` is the sequence of states the flow went
      * through. */
    method Run(session: Sessions.Session, input: ChatInput, fuel: nat)
      returns (events: seq<Event>, outcome: RunOutcome, ghost trace: seq<AgentStatus>)
      requires Valid()
      modifies this, planner, executor, planner.memory, executor.memory
      ensures trace != [] && trace[0] == StartStatus(session.status, old(status)) && trace[|trace| - 1] == status
      ensures forall i :: 0 <= i < |trace| - 1 ==> Transition(trace[i], trace[i + 1])
      ensures outcome == Finished ==>
        IsDone() && plan.Some? && plan.value.status == P.Completed
        && |events| >= 2 && events[|events| - 1] == DoneEvent
        && events[|events| - 2] == PlanEvent(plan.value, PlanCompleted, None)
        && |trace| >= 2 && trace[|trace| - 2] == AgentStatus.Completed
      ensures outcome == Finished && trace[0] in {Idle, Planning, Executing} ==> AllDone(plan.value.steps)
    {
      Resume(session, input);
      trace := [status];
      ghost var goodStart := status in {Idle, Planning, Executing};
      events := [];
      var step: Option<P.Step> := None;
      var n := 0;
      while n < fuel
        invariant trace != [] && trace[0] == StartStatus(session.status, old(status)) && trace[|trace| - 1] == status
        invariant goodStart <==> trace[0] in {Idle, Planning, Executing}
        invariant forall i :: 0 <= i < |trace| - 1 ==> Transition(trace[i], trace[i + 1])
        invariant goodStart && (status == Summarizing || status == AgentStatus.Completed) ==>
          plan.Some? && AllDone(plan.value.steps)
      {
        var before := status;
        var evs, next, raised, exit := Tick(input, step);
        events := events + evs;
        if status != before {
          trace := trace + [status];
        }
        if raised.Some? {
          return events, Raised(raised.value), trace;
        }
        if exit {
          return events + [DoneEvent], Finished, trace;
        }
        step := next;
        n := n + 1;
      }
      outcome := OutOfFuel;
    }
  }
}
