/** The executor agent's step driver
  * (backend/app/domain/services/agents/execution.py): it turns the events of
  * one `execute` run into step status updates and the events the flow shows.
  * The inner run's events and the parsing of its final reply are inputs. */
module Execution {
  import opened Wrappers
  import J = Json
  import opened Plans
  import opened Events

  /** The fields `Step.model_validate` takes from the parsed final reply. */
  datatype StepReply = StepReply(success: bool, result: Option<string>, attachments: seq<string>)

  /** The summary reply: `Message.model_validate` of the parsed reply. */
  datatype SummaryReply = SummaryReply(message: string, attachments: seq<string>)

  /** How the handling of an event ends: go on, stop after a WaitEvent, or an
    * exception escaping the generator. */
  datatype Flow = Continue | Wait | Raise(error: string)

  datatype StepRun = StepRun(events: seq<Event>, step: Step, flow: Flow)

  predicate IsAskUser(e: Event)
  {
    e.ToolEvent? && e.functionName == "message_ask_user"
  }

  /** `event.function_args.get("text", "")`, which must be a string to build
    * a MessageEvent. */
  function AskUserText(args: seq<(string, J.Json)>): Result<string, string>
  {
    var v := J.Lookup(args, "text");
    if v.None? then Ok("")
    else if v.value.JStr? then Ok(v.value.s)
    else Err("MessageEvent needs a string message")
  }

  /** What `execute_step` does with one event of the inner run. */
  function Handle(step: Step, e: Event, parse: string -> Result<StepReply, string>): (r: StepRun)
    ensures r.flow.Wait? ==> r.events == [WaitEvent]
    ensures r.flow.Raise? ==> r.events == []
    ensures !e.MessageEvent? && !e.ErrorEvent? ==> r.step == step
  {
    match e
    case ErrorEvent(err) =>
      var s := step.(status := Failed, error := Some(err));
      StepRun([StepEvent(s, StepFailed), e], s, Continue)
    case MessageEvent(_, msg, _) =>
      var reply := parse(msg);
      if reply.Err? then StepRun([], step.(status := Completed), Raise(reply.error))
      else
        var s := step.(status := Completed, success := reply.value.success,
                       result := reply.value.result, attachments := reply.value.attachments);
        var shown := if s.result.Some? && s.result.value != "" then [MessageEvent("assistant", s.result.value, None)] else [];
        StepRun([StepEvent(s, StepCompleted)] + shown, s, Continue)
    case ToolEvent(_, _, functionName, args, toolStatus, _) =>
      if functionName != "message_ask_user" then StepRun([e], step, Continue)
      else if toolStatus == Calling then
        var text := AskUserText(args);
        if text.Err? then StepRun([], step, Raise(text.error))
        else StepRun([MessageEvent("assistant", text.value, None)], step, Continue)
      else StepRun([WaitEvent], step, Wait)
    case _ => StepRun([e], step, Continue)
  }

  /** The inner run's events handled in order until one stops the step; a
    * run that is not stopped ends with the step COMPLETED, unless the inner
    * run itself ended with an exception (`!finished`). */
  function RunInner(step: Step, inner: seq<Event>, parse: string -> Result<StepReply, string>, finished: bool): (r: StepRun)
    decreases |inner|
    ensures r.flow.Continue? && finished ==> r.step.status == Completed
  {
    if inner == [] then StepRun([], if finished then step.(status := Completed) else step, Continue)
    else
      var h := Handle(step, inner[0], parse);
      if !h.flow.Continue? then h
      else
        var rest := RunInner(h.step, inner[1..], parse, finished);
        StepRun(h.events + rest.events, rest.step, rest.flow)
  }

  /** `execute_step`: RUNNING and a STARTED event first, then the inner run. */
  function ExecuteStepSpec(step: Step, inner: seq<Event>, parse: string -> Result<StepReply, string>, finished: bool): (r: StepRun)
    ensures r.events != [] && r.events[0] == StepEvent(step.(status := Running), StepStarted)
    ensures r.flow.Continue? && finished ==> r.step.status == Completed
  {
    var running := step.(status := Running);
    var r := RunInner(running, inner, parse, finished);
    StepRun([StepEvent(running, StepStarted)] + r.events, r.step, r.flow)
  }

  /** One unfolding of `RunInner` behind the events already shown. */
  lemma RunInnerCons(shown: seq<Event>, step: Step, inner: seq<Event>, parse: string -> Result<StepReply, string>, finished: bool)
    requires inner != []
    ensures var h := Handle(step, inner[0], parse);
            var r := RunInner(step, inner, parse, finished);
            var rest := RunInner(h.step, inner[1..], parse, finished);
            StepRun(shown + r.events, r.step, r.flow)
            == if h.flow.Continue? then StepRun((shown + h.events) + rest.events, rest.step, rest.flow)
               else StepRun(shown + h.events, h.step, h.flow)
  {
    var h := Handle(step, inner[0], parse);
    if h.flow.Continue? {
      var rest := RunInner(h.step, inner[1..], parse, finished);
      assert shown + (h.events + rest.events) == (shown + h.events) + rest.events;
    }
  }

  /** `execute_step`, consuming the inner run's events one by one. */
  method ExecuteStep(step: Step, inner: seq<Event>, parse: string -> Result<StepReply, string>, finished: bool)
    returns (run: StepRun)
    ensures run == ExecuteStepSpec(step, inner, parse, finished)
    ensures run.events != [] && run.events[0] == StepEvent(step.(status := Running), StepStarted)
  {
    var current := step.(status := Running);
    var events := [StepEvent(current, StepStarted)];
    var i := 0;
    while i < |inner|
      invariant 0 <= i <= |inner|
      invariant events != [] && events[0] == StepEvent(step.(status := Running), StepStarted)
      invariant var r := RunInner(current, inner[i..], parse, finished);
        ExecuteStepSpec(step, inner, parse, finished) == StepRun(events + r.events, r.step, r.flow)
    {
      RunInnerCons(events, current, inner[i..], parse, finished);
      assert inner[i..][0] == inner[i] && inner[i..][1..] == inner[i + 1..];
      var h := Handle(current, inner[i], parse);
      if !h.flow.Continue? {
        return StepRun(events + h.events, h.step, h.flow);
      }
      events := events + h.events;
      current := h.step;
      i := i + 1;
    }
    return StepRun(events, if finished then current.(status := Completed) else current, Continue);
  }

  /** Events an inner run passes through unchanged: everything but
    * messages, `message_ask_user` calls and the step/wait events the step
    * driver generates itself. */
  predicate Passed(e: Event)
  {
    !e.MessageEvent? && !IsAskUser(e) && !e.StepEvent? && !e.WaitEvent?
  }

  function FilterPassed(evs: seq<Event>): (r: seq<Event>)
    ensures forall i :: 0 <= i < |r| ==> Passed(r[i])
  {
    if evs == [] then [] else (if Passed(evs[0]) then [evs[0]] else []) + FilterPassed(evs[1..])
  }

  lemma {:induction false} FilterPassedAppend(a: seq<Event>, b: seq<Event>)
    ensures FilterPassed(a + b) == FilterPassed(a) + FilterPassed(b)
  {
    if a != [] {
      assert (a + b)[1..] == a[1..] + b;
      FilterPassedAppend(a[1..], b);
    } else {
      assert a + b == b;
    }
  }

  /** One event that neither answers an ask-user call nor fails to parse
    * lets the step go on and passes its tool or error event unchanged. */
  lemma HandlePassesThrough(step: Step, e: Event, parse: string -> Result<StepReply, string>)
    requires !(IsAskUser(e) && e.toolStatus == Called)
    requires IsAskUser(e) ==> AskUserText(e.functionArgs).Ok?
    requires e.MessageEvent? ==> parse(e.message).Ok?
    ensures Handle(step, e, parse).flow == Continue
    ensures FilterPassed(Handle(step, e, parse).events) == FilterPassed([e])
  {
    var h := Handle(step, e, parse);
    if e.ErrorEvent? {
      assert h.events == [StepEvent(h.step, StepFailed)] + [e];
      FilterPassedAppend([StepEvent(h.step, StepFailed)], [e]);
    } else if e.MessageEvent? {
      var shown := h.events[1..];
      assert h.events == [h.events[0]] + shown;
      FilterPassedAppend([h.events[0]], shown);
    }
  }

  /** When no ask-user call is answered and every reply parses, the step
    * never stops early and ends COMPLETED once the inner run has finished,
    * even after an earlier failure, and the tool and error events of the
    * inner run come out unchanged and in order. */
  lemma {:induction false} RunInnerPassesThrough(step: Step, inner: seq<Event>, parse: string -> Result<StepReply, string>, finished: bool)
    requires forall i :: 0 <= i < |inner| ==> !(IsAskUser(inner[i]) && inner[i].toolStatus == Called)
    requires forall i :: 0 <= i < |inner| && IsAskUser(inner[i]) ==> AskUserText(inner[i].functionArgs).Ok?
    requires forall i :: 0 <= i < |inner| && inner[i].MessageEvent? ==> parse(inner[i].message).Ok?
    decreases |inner|
    ensures RunInner(step, inner, parse, finished).flow == Continue
    ensures finished ==> RunInner(step, inner, parse, finished).step.status == Completed
    ensures FilterPassed(RunInner(step, inner, parse, finished).events) == FilterPassed(inner)
  {
    if inner != [] {
      var e := inner[0];
      HandlePassesThrough(step, e, parse);
      var h := Handle(step, e, parse);
      RunInnerPassesThrough(h.step, inner[1..], parse, finished);
      var rest := RunInner(h.step, inner[1..], parse, finished);
      assert RunInner(step, inner, parse, finished).events == h.events + rest.events;
      FilterPassedAppend(h.events, rest.events);
      assert inner == [e] + inner[1..];
      FilterPassedAppend([e], inner[1..]);
    }
  }

  /** Every ErrorEvent of the inner run marks the step FAILED with its error. */
  lemma ErrorMarksFailed(step: Step, err: string, parse: string -> Result<StepReply, string>)
    ensures Handle(step, ErrorEvent(err), parse).step.status == Failed
    ensures Handle(step, ErrorEvent(err), parse).step.error == Some(err)
    ensures Handle(step, ErrorEvent(err), parse).events[1] == ErrorEvent(err)
  {
  }

  /** A step stopped by a WaitEvent ends with that event. */
  lemma {:induction false} WaitIsLast(step: Step, inner: seq<Event>, parse: string -> Result<StepReply, string>, finished: bool)
    decreases |inner|
    ensures var r := RunInner(step, inner, parse, finished);
      r.flow == Wait ==> r.events != [] && r.events[|r.events| - 1] == WaitEvent
  {
    if inner != [] {
      var h := Handle(step, inner[0], parse);
      if h.flow.Continue? {
        WaitIsLast(h.step, inner[1..], parse, finished);
      }
    }
  }

  /** `summarize`: each reply becomes the summary message with its
    * attachments as files; other events pass; a reply that does not parse
    * ends the stream with an exception. */
  function Summarize(inner: seq<Event>, parse: string -> Result<SummaryReply, string>): (r: (seq<Event>, Option<string>))
    ensures r.1.None? ==> |r.0| == |inner|
    ensures r.1.None? ==> forall i :: 0 <= i < |inner| && !inner[i].MessageEvent? ==> r.0[i] == inner[i]
    ensures r.1.None? ==> forall i :: 0 <= i < |inner| && inner[i].MessageEvent? ==>
      var m := parse(inner[i].message);
      m.Ok? && r.0[i] == MessageEvent("assistant", m.value.message,
                                      Some(seq(|m.value.attachments|, j requires 0 <= j < |m.value.attachments| => FileInfo(Some(m.value.attachments[j])))))
  {
    if inner == [] then ([], None)
    else
      var e := inner[0];
      var head: Result<Event, string> :=
        if e.MessageEvent? then
          var m := parse(e.message);
          if m.Err? then Err(m.error)
          else Ok(MessageEvent("assistant", m.value.message,
                               Some(seq(|m.value.attachments|, j requires 0 <= j < |m.value.attachments| => FileInfo(Some(m.value.attachments[j]))))))
        else Ok(e);
      if head.Err? then ([], Some(head.error))
      else
        var rest := Summarize(inner[1..], parse);
        ([head.value] + rest.0, rest.1)
  }
}
