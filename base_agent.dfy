/** The agent loop shared by the planner and the executor
  * (backend/app/domain/services/agents/base.py): tool retries, the bounded
  * tool-calling loop, memory bookkeeping, reply filtering and roll-back. The
  * LLM is an oracle answering the `k`-th request given the memory sent. */
module BaseAgent {
  import opened Wrappers
  import J = Json
  import opened ToolResults
  import opened Memories
  import opened Events
  import ToolsBase
  import PyStr

  const MaxIterations: nat := 100
  const MaxRetries: nat := 3
  const MaxIterationsError: string := "Maximum iteration count reached, failed to complete the task"

  /** Python truthiness of an optional string. */
  predicate Truthy(s: Option<string>)
  {
    s.Some? && s.value != ""
  }

  /** What `invoke_tool` settles on, attempting from number `start` with
    * `left` retries to go: the first result returned, or else a failed
    * result carrying the last error; paired with the number of attempts. */
  function Invoked(methods: seq<ToolsBase.ToolMethod>, functionName: string, args: ToolsBase.Kwargs,
                   start: nat, left: nat): (r: (ToolResult, nat))
    decreases left
    ensures 1 <= r.1 <= left + 1
  {
    var a := ToolsBase.Attempt(methods, functionName, args, start);
    if a.Returned? then (a.result, 1)
    else if left == 0 then (ToolResult(false, Some(a.error), None), 1)
    else
      var rest := Invoked(methods, functionName, args, start + 1, left - 1);
      (rest.0, rest.1 + 1)
  }

  /** The retry discipline of `invoke_tool`: at most `left + 1` attempts,
    * each before the last one raised, and the result is that of the last
    * attempt, or its error when every attempt raised. */
  lemma {:induction false} InvokedRetries(methods: seq<ToolsBase.ToolMethod>, functionName: string,
                                          args: ToolsBase.Kwargs, start: nat, left: nat)
    decreases left
    ensures var (r, tries) := Invoked(methods, functionName, args, start, left);
      (forall k :: start <= k < start + tries - 1 ==> ToolsBase.Attempt(methods, functionName, args, k).Raised?)
      && var last := ToolsBase.Attempt(methods, functionName, args, start + tries - 1);
      (last.Returned? ==> r == last.result)
      && (last.Raised? ==> tries == left + 1 && r == ToolResult(false, Some(last.error), None))
  {
    if !ToolsBase.Attempt(methods, functionName, args, start).Returned? && left > 0 {
      InvokedRetries(methods, functionName, args, start + 1, left - 1);
    }
  }

  /** `invoke_tool`: attempts numbered from `start`, with a pause between
    * consecutive attempts, settling on `Invoked`'s result. */
  method InvokeTool(tool: ToolsBase.BaseTool, functionName: string, args: ToolsBase.Kwargs,
                    start: nat, maxRetries: nat)
    returns (r: ToolResult, tries: nat, sleeps: nat)
    ensures (r, tries) == Invoked(tool.methods, functionName, args, start, maxRetries)
    ensures sleeps == tries - 1
  {
    var retries := 0;
    sleeps := 0;
    var lastError := "";
    while retries <= maxRetries
      invariant 0 <= retries <= maxRetries + 1
      invariant sleeps == retries
      invariant retries <= maxRetries ==>
        var rest := Invoked(tool.methods, functionName, args, start + retries, maxRetries - retries);
        Invoked(tool.methods, functionName, args, start, maxRetries) == (rest.0, rest.1 + retries)
      invariant retries == maxRetries + 1 ==>
        Invoked(tool.methods, functionName, args, start, maxRetries) == (ToolResult(false, Some(lastError), None), retries)
    {
      var outcome := tool.InvokeFunction(functionName, args, start + retries);
      var asRaised := if outcome.Err? then ToolsBase.Raised(outcome.error) else outcome.value;
      if asRaised.Returned? {
        return asRaised.result, retries + 1, sleeps;
      }
      lastError := asRaised.error;
      retries := retries + 1;
      if retries <= maxRetries {
        sleeps := sleeps + 1;
      } else {
        break;
      }
    }
    return ToolResult(false, Some(lastError), None), retries, retries - 1;
  }

  /** `get_tool`: the first tool offering the function. */
  function GetTool(tools: seq<ToolsBase.BaseTool>, functionName: string): (r: Option<nat>)
    ensures r.None? <==> forall i :: 0 <= i < |tools| ==> !ToolsBase.HasFunction(tools[i].methods, functionName)
    ensures r.Some? ==> r.value < |tools| && ToolsBase.HasFunction(tools[r.value].methods, functionName)
    ensures r.Some? ==> forall i :: 0 <= i < r.value ==> !ToolsBase.HasFunction(tools[i].methods, functionName)
  {
    if tools == [] then None
    else if ToolsBase.HasFunction(tools[0].methods, functionName) then Some(0)
    else
      var r := GetTool(tools[1..], functionName);
      if r.Some? then Some(r.value + 1)
      else
        assert forall i :: 1 <= i < |tools| ==> tools[i] == tools[1..][i - 1];
        None
  }

  /** An assistant reply with neither content nor tool calls. */
  predicate IsEmptyReply(m: Message)
  {
    m.role == Some("assistant") && !Truthy(m.content) && !m.HasToolCalls()
  }

  /** The message `ask_with_messages` keeps of a non-empty reply: for an
    * assistant, its role, content and at most its first tool call; any other
    * reply as it came. */
  function FilterReply(m: Message): (r: Message)
    requires !IsEmptyReply(m)
    ensures m.role != Some("assistant") ==> r == m
    ensures m.role == Some("assistant") ==>
      r.role == m.role && r.content == m.content && r.toolCallId.None? && r.functionName.None?
      && (m.HasToolCalls() <==> r.toolCalls.Some?)
      && (r.toolCalls.Some? ==> r.toolCalls.value == [m.toolCalls.value[0]])
  {
    if m.role == Some("assistant") then
      Message(Some("assistant"), m.content, if m.HasToolCalls() then Some(m.toolCalls.value[..1]) else None, None, None)
    else m
  }

  /** The tool-reply message `execute` sends back for one call. */
  function ToolResponse(functionName: string, toolCallId: string, result: ToolResult): Message
  {
    Message(Some("tool"), Some(Dump(result)), None, Some(toolCallId), Some(functionName))
  }

  /** Event `i` is a CALLING event followed by the CALLED event of the same call. */
  predicate PairedAt(evs: seq<Event>, i: nat)
    requires i + 1 < |evs|
  {
    var a, b := evs[i], evs[i + 1];
    a.ToolEvent? && b.ToolEvent? && a.toolStatus == Calling && b.toolStatus == Called
    && b.toolCallId == a.toolCallId && b.functionName == a.functionName
    && b.functionArgs == a.functionArgs && b.toolName == a.toolName
    && a.functionResult.None? && b.functionResult.Some?
  }

  /** Consecutive CALLING/CALLED pairs for the same call. */
  predicate WellPaired(evs: seq<Event>)
  {
    |evs| % 2 == 0 && forall i: nat :: i + 1 < |evs| && i % 2 == 0 ==> PairedAt(evs, i)
  }

  lemma WellPairedConcat(a: seq<Event>, b: seq<Event>)
    requires WellPaired(a) && WellPaired(b)
    ensures WellPaired(a + b)
  {
    var e := a + b;
    forall i: nat | i + 1 < |e| && i % 2 == 0 ensures PairedAt(e, i) {
      if i + 1 < |a| {
        assert PairedAt(a, i);
        assert e[i] == a[i] && e[i + 1] == a[i + 1];
      } else {
        assert PairedAt(b, i - |a|);
        assert e[i] == b[i - |a|] && e[i + 1] == b[i - |a| + 1];
      }
    }
  }

  lemma WellPairedAppend(evs: seq<Event>, a: Event, b: Event)
    requires WellPaired(evs)
    requires PairedAt([a, b], 0)
    ensures WellPaired(evs + [a, b])
  {
    var e := evs + [a, b];
    forall i: nat | i + 1 < |e| && i % 2 == 0 ensures PairedAt(e, i) {
      if i + 1 < |evs| {
        assert PairedAt(evs, i);
        assert e[i] == evs[i] && e[i + 1] == evs[i + 1];
      } else {
        assert i == |evs|;
        assert e[i] == a && e[i + 1] == b;
      }
    }
  }

  /** Each tool reply is the dumped result of the CALLED event of its pair. */
  predicate Answered(evs: seq<Event>, responses: seq<Message>)
  {
    |evs| == 2 * |responses|
    && forall k :: 0 <= k < |responses| ==>
      var called := evs[2 * k + 1];
      called.ToolEvent? && called.functionResult.Some?
      && responses[k] == ToolResponse(called.functionName, called.toolCallId, called.functionResult.value)
  }

  lemma AnsweredConcat(a: seq<Event>, ra: seq<Message>, b: seq<Event>, rb: seq<Message>)
    requires Answered(a, ra) && Answered(b, rb)
    ensures Answered(a + b, ra + rb)
  {
    var e, r := a + b, ra + rb;
    forall k | 0 <= k < |r|
      ensures e[2 * k + 1].ToolEvent? && e[2 * k + 1].functionResult.Some?
              && r[k] == ToolResponse(e[2 * k + 1].functionName, e[2 * k + 1].toolCallId, e[2 * k + 1].functionResult.value)
    {
      if k < |ra| {
        assert e[2 * k + 1] == a[2 * k + 1] && r[k] == ra[k];
      } else {
        var m := k - |ra|;
        assert e[2 * k + 1] == b[2 * m + 1] && r[k] == rb[m];
      }
    }
  }

  /** Pair `k` of `evs` is for call `w[k]`: the same function and, when the
    * call carries a non-empty id, the same id. */
  predicate Covers(evs: seq<Event>, w: seq<ToolCall>)
  {
    2 * |w| <= |evs|
    && forall k :: 0 <= k < |w| ==>
      var calling := evs[2 * k];
      w[k].fn.Some? && calling.ToolEvent? && calling.functionName == w[k].fn.value.name
      && (Truthy(w[k].id) ==> calling.toolCallId == w[k].id.value)
  }

  lemma CoversPrepend(a: seq<Event>, b: seq<Event>, c: ToolCall, w: seq<ToolCall>)
    requires |a| == 2 && c.fn.Some? && a[0].ToolEvent? && a[0].functionName == c.fn.value.name
    requires Truthy(c.id) ==> a[0].toolCallId == c.id.value
    requires Covers(b, w)
    ensures Covers(a + b, [c] + w)
  {
    var e, v := a + b, [c] + w;
    forall k | 0 <= k < |v|
      ensures v[k].fn.Some? && e[2 * k].ToolEvent? && e[2 * k].functionName == v[k].fn.value.name
              && (Truthy(v[k].id) ==> e[2 * k].toolCallId == v[k].id.value)
    {
      if k > 0 {
        assert e[2 * k] == b[2 * (k - 1)] && v[k] == w[k - 1];
      }
    }
  }

  /** The calls of a reply that name a function; `execute` skips the rest. */
  function WithFunction(calls: seq<ToolCall>): (r: seq<ToolCall>)
    ensures |r| <= |calls| && forall c :: c in r ==> c in calls && c.fn.Some?
  {
    if calls == [] then []
    else if calls[0].fn.None? then WithFunction(calls[1..])
    else [calls[0]] + WithFunction(calls[1..])
  }

  /** What one round of `execute` contributes: the CALLING/CALLED events, the
    * tool replies, whether the stream stops at `message_ask_user`, the
    * exception that ended it, and the tool-attempt counter afterwards. */
  datatype Round = Round(added: seq<Event>, responses: seq<Message>, stop: bool, err: Option<string>, attempts: nat)

  /** `r` after the events and replies already collected. */
  function Behind(added: seq<Event>, responses: seq<Message>, r: Round): Round
  {
    Round(added + r.added, responses + r.responses, r.stop, r.err, r.attempts)
  }

  /** What a round of tool calls guarantees: attempts numbered from `at`
    * never go back, every call answered by its CALLED event, and a round
    * stopped by `message_ask_user` ends on that call's CALLED event. */
  predicate Shaped(r: Round, stopOnAskUser: bool, at: nat)
  {
    at <= r.attempts && WellPaired(r.added) && Answered(r.added, r.responses)
    && (r.stop ==> stopOnAskUser && r.err.None? && |r.added| >= 2)
    && (r.stop ==> var e := r.added[|r.added| - 1];
          e.ToolEvent? && e.functionName == "message_ask_user" && e.toolStatus == Called)
  }

  /** Answered, paired calls put in front keep a round shaped. */
  lemma ShapedBehind(added: seq<Event>, responses: seq<Message>, r: Round, stopOnAskUser: bool, at: nat, mid: nat)
    requires WellPaired(added) && Answered(added, responses) && at <= mid
    requires Shaped(r, stopOnAskUser, mid)
    ensures Shaped(Behind(added, responses, r), stopOnAskUser, at)
  {
    WellPairedConcat(added, r.added);
    AnsweredConcat(added, responses, r.added, r.responses);
    if r.stop {
      LastOfConcat(added, r.added);
    }
  }

  lemma LastOfConcat(a: seq<Event>, b: seq<Event>)
    requires b != []
    ensures |a + b| >= |b| && (a + b)[|a + b| - 1] == b[|b| - 1]
  {
  }

  lemma BehindBehind(a: seq<Event>, ra: seq<Message>, b: seq<Event>, rb: seq<Message>, r: Round)
    ensures Behind(a, ra, Behind(b, rb, r)) == Behind(a + b, ra + rb, r)
  {
    assert a + (b + r.added) == (a + b) + r.added;
    assert ra + (rb + r.responses) == (ra + rb) + r.responses;
  }

  /** The memory after `roll_back` with the user's new message: a last
    * message that asked for tools is answered when its first call is
    * `message_ask_user` and dropped otherwise; any other memory stays. */
  function RolledBack(ms: seq<Message>, input: ChatInput): (r: seq<Message>)
    ensures ms == [] || !ms[|ms| - 1].HasToolCalls() ==> r == ms
    ensures ms != [] && ms[|ms| - 1].HasToolCalls() ==>
      var call := ms[|ms| - 1].toolCalls.value[0];
      if call.fn.Some? && call.fn.value.name == "message_ask_user" then
        |r| == |ms| + 1 && r[..|ms|] == ms && !r[|ms|].HasToolCalls()
        && r[|ms|].role == Some("tool") && r[|ms|].content == Some(input.Dump()) && r[|ms|].toolCallId == call.id
      else r == ms[..|ms| - 1]
  {
    if ms == [] || !ms[|ms| - 1].HasToolCalls() then ms
    else
      var call := ms[|ms| - 1].toolCalls.value[0];
      if call.fn.Some? && call.fn.value.name == "message_ask_user" then
        ms + [Message(Some("tool"), Some(input.Dump()), None, call.id, Some("message_ask_user"))]
      else ms[..|ms| - 1]
  }

  /** A pending question is answered once: rolling back again, with any
    * message, changes nothing. */
  lemma RollBackAnswersOnce(ms: seq<Message>, a: ChatInput, b: ChatInput)
    requires ms != [] && ms[|ms| - 1].HasToolCalls()
    requires var call := ms[|ms| - 1].toolCalls.value[0];
      call.fn.Some? && call.fn.value.name == "message_ask_user"
    ensures RolledBack(RolledBack(ms, a), b) == RolledBack(ms, a)
  {
    var r := RolledBack(ms, a);
    assert !r[|r| - 1].HasToolCalls();
  }

  class Agent {
    const systemPrompt: string
    const tools: seq<ToolsBase.BaseTool>
    const maxIterations: nat
    const maxRetries: nat
    const memory: Memory
    /** The LLM: its reply to the `k`-th request, given the messages sent. */
    const llm: (nat, seq<Message>) -> Message
    /** `json_parser.parse` of a tool call's argument string; `Err` raises. */
    const parseArgs: string -> Result<ToolsBase.Kwargs, string>
    /** `str(uuid.uuid4())` for the `k`-th tool invocation. */
    const freshId: nat -> string
    var llmCalls: nat
    var toolAttempts: nat

    constructor (systemPrompt: string, tools: seq<ToolsBase.BaseTool>, memory: Memory,
                 llm: (nat, seq<Message>) -> Message,
                 parseArgs: string -> Result<ToolsBase.Kwargs, string>, freshId: nat -> string)
      ensures this.systemPrompt == systemPrompt && this.tools == tools && this.memory == memory
      ensures this.llm == llm && this.parseArgs == parseArgs && this.freshId == freshId
      ensures maxIterations == MaxIterations && maxRetries == MaxRetries
      ensures llmCalls == 0 && toolAttempts == 0
    {
      this.systemPrompt := systemPrompt;
      this.tools := tools;
      this.memory := memory;
      this.llm := llm;
      this.parseArgs := parseArgs;
      this.freshId := freshId;
      maxIterations := MaxIterations;
      maxRetries := MaxRetries;
      llmCalls := 0;
      toolAttempts := 0;
    }

    /** `_add_to_memory`: the system prompt goes first exactly when the
      * memory is empty. */
    method AddToMemory(ms: seq<Message>)
      modifies memory
      ensures old(memory.messages) == [] ==> memory.messages == [Plain("system", systemPrompt)] + ms
      ensures old(memory.messages) != [] ==> memory.messages == old(memory.messages) + ms
    {
      if memory.Empty() {
        memory.AddMessage(Plain("system", systemPrompt));
      }
      memory.AddMessages(ms);
    }

    /** `ask_with_messages`: adds `ms`, then asks at most `maxRetries`
      * times; an empty assistant reply is answered with a placeholder pair
      * and asked again; the first other reply is filtered, remembered and
      * returned. `Err` is the exception raised when every reply was empty. */
    method AskWithMessages(ms: seq<Message>) returns (r: Result<Message, string>, ghost sent: seq<seq<Message>>)
      modifies memory, this`llmCalls
      ensures llmCalls == old(llmCalls) + |sent| && |sent| <= maxRetries
      ensures r.Err? ==> |sent| == maxRetries
      ensures r.Err? ==> r.error == "Empty response from LLM after " + PyStr.NatToStr(maxRetries) + " retries"
      ensures forall i :: 0 <= i < |sent| && (r.Err? || i < |sent| - 1) ==> IsEmptyReply(llm(old(llmCalls) + i, sent[i]))
      ensures r.Ok? ==>
        |sent| > 0 && !IsEmptyReply(llm(llmCalls - 1, sent[|sent| - 1])) && r.value == FilterReply(llm(llmCalls - 1, sent[|sent| - 1]))
      ensures r.Ok? ==> memory.messages != [] && memory.messages[|memory.messages| - 1] == r.value
    {
      AddToMemory(ms);
      sent := [];
      var tries := 0;
      while tries < maxRetries
        invariant tries == |sent| <= maxRetries
        invariant llmCalls == old(llmCalls) + |sent|
        invariant forall i :: 0 <= i < |sent| ==> IsEmptyReply(llm(old(llmCalls) + i, sent[i]))
      {
        var reply := llm(llmCalls, memory.messages);
        sent := sent + [memory.messages];
        tries := tries + 1;
        llmCalls := llmCalls + 1;
        if IsEmptyReply(reply) {
          AddToMemory([Plain("assistant", ""), Plain("user", "no thinking, please continue")]);
          continue;
        }
        var filtered := FilterReply(reply);
        AddToMemory([filtered]);
        return Ok(filtered), sent;
      }
      return Err("Empty response from LLM after " + PyStr.NatToStr(maxRetries) + " retries"), sent;
    }

    /** One call that names a function, tool attempts numbered from `at`:
      * its arguments are parsed and its tool looked up (either failure is
      * the round's error), the tool is invoked, and a CALLING and a CALLED
      * event carrying the result are emitted with the tool reply; the round
      * stops here for `message_ask_user` when `stopOnAskUser`. */
    function Step(call: ToolCall, stopOnAskUser: bool, at: nat): Round
      requires call.fn.Some?
    {
      var name := call.fn.value.name;
      var id := if Truthy(call.id) then call.id.value else freshId(at);
      var args := parseArgs(call.fn.value.arguments);
      if args.Err? then Round([], [], false, Some(args.error), at)
      else
        var t := GetTool(tools, name);
        if t.None? then Round([], [], false, Some("Unknown tool: " + name), at)
        else
          var tool := tools[t.value];
          var invoked := Invoked(tool.methods, name, args.value, at, maxRetries);
          var calling := ToolEvent(id, tool.name, name, args.value, Calling, None);
          var called := ToolEvent(id, tool.name, name, args.value, Called, Some(invoked.0));
          Round([calling, called], [ToolResponse(name, id, invoked.0)], stopOnAskUser && name == "message_ask_user",
                None, at + invoked.1)
    }

    /** A failed call adds nothing; a successful one adds one calling/called
      * pair for its function and id, and the tool reply of the result. */
    lemma StepShape(call: ToolCall, stopOnAskUser: bool, at: nat)
      requires call.fn.Some?
      ensures var r := Step(call, stopOnAskUser, at);
        at <= r.attempts && WellPaired(r.added) && Answered(r.added, r.responses)
        && (r.err.Some? ==> r == Round([], [], false, r.err, at))
        && (r.err.None? ==> |r.added| == 2 && r.added[0].ToolEvent? && r.added[0].functionName == call.fn.value.name)
        && (r.err.None? && Truthy(call.id) ==> r.added[0].toolCallId == call.id.value)
        && (r.stop <==> r.err.None? && stopOnAskUser && call.fn.value.name == "message_ask_user")
    {
      var r := Step(call, stopOnAskUser, at);
      if r.err.None? {
        assert PairedAt(r.added, 0) && Answered(r.added, r.responses);
      }
    }

    /** One round of `execute` over `calls`, tool attempts numbered from
      * `at`: calls without a function are skipped, the others handled by
      * `Step` in order until one fails or stops the round. */
    function Rounds(calls: seq<ToolCall>, stopOnAskUser: bool, at: nat): Round
      decreases |calls|
    {
      if calls == [] then Round([], [], false, None, at)
      else if calls[0].fn.None? then Rounds(calls[1..], stopOnAskUser, at)
      else
        var st := Step(calls[0], stopOnAskUser, at);
        if st.err.Some? || st.stop then st
        else Behind(st.added, st.responses, Rounds(calls[1..], stopOnAskUser, st.attempts))
    }

    /** A round's events come in calling/called pairs, each tool reply is
      * the dump of its CALLED event's result, and a round stops only right
      * after an ask-user call. */
    lemma {:induction false} RoundsShape(calls: seq<ToolCall>, stopOnAskUser: bool, at: nat)
      decreases |calls|
      ensures Shaped(Rounds(calls, stopOnAskUser, at), stopOnAskUser, at)
    {
      if calls != [] {
        RoundsHead(calls, stopOnAskUser, at);
        if calls[0].fn.None? {
          RoundsShape(calls[1..], stopOnAskUser, at);
        } else {
          var st := Step(calls[0], stopOnAskUser, at);
          StepShape(calls[0], stopOnAskUser, at);
          if st.stop {
            assert PairedAt(st.added, 0);
          } else if st.err.None? {
            RoundsShape(calls[1..], stopOnAskUser, st.attempts);
            ShapedBehind(st.added, st.responses, Rounds(calls[1..], stopOnAskUser, st.attempts), stopOnAskUser, at, st.attempts);
          }
        }
      }
    }

    lemma RoundsHead(calls: seq<ToolCall>, stopOnAskUser: bool, at: nat)
      requires calls != []
      ensures calls[0].fn.None? ==> Rounds(calls, stopOnAskUser, at) == Rounds(calls[1..], stopOnAskUser, at)
      ensures calls[0].fn.Some? ==> var st := Step(calls[0], stopOnAskUser, at);
        Rounds(calls, stopOnAskUser, at)
        == if st.err.Some? || st.stop then st else Behind(st.added, st.responses, Rounds(calls[1..], stopOnAskUser, st.attempts))
    {
    }

    /** A call without a function contributes nothing to a round. */
    lemma {:induction false} RoundsSkipNoFunction(calls: seq<ToolCall>, stopOnAskUser: bool, at: nat)
      decreases |calls|
      ensures Rounds(calls, stopOnAskUser, at) == Rounds(WithFunction(calls), stopOnAskUser, at)
    {
      if calls != [] {
        RoundsSkipNoFunction(calls[1..], stopOnAskUser, at);
        if calls[0].fn.Some? {
          var w := WithFunction(calls);
          assert w[0] == calls[0] && w[1..] == WithFunction(calls[1..]);
          forall at' ensures Rounds(calls[1..], stopOnAskUser, at') == Rounds(w[1..], stopOnAskUser, at') {
            RoundsSkipNoFunction(calls[1..], stopOnAskUser, at');
          }
        }
      }
    }

    /** A round that neither failed nor stopped invoked every call with a
      * function, in order: the `k`-th pair is for the `k`-th such call. */
    lemma {:induction false} RoundsCoverCalls(calls: seq<ToolCall>, stopOnAskUser: bool, at: nat)
      decreases |calls|
      ensures var r := Rounds(calls, stopOnAskUser, at);
        r.err.None? && !r.stop ==> |r.responses| == |WithFunction(calls)| && Covers(r.added, WithFunction(calls))
    {
      if calls != [] {
        RoundsHead(calls, stopOnAskUser, at);
        if calls[0].fn.None? {
          RoundsCoverCalls(calls[1..], stopOnAskUser, at);
        } else {
          var st := Step(calls[0], stopOnAskUser, at);
          StepShape(calls[0], stopOnAskUser, at);
          if st.err.None? && !st.stop {
            RoundsCoverCalls(calls[1..], stopOnAskUser, st.attempts);
            var rest := Rounds(calls[1..], stopOnAskUser, st.attempts);
            if rest.err.None? && !rest.stop {
              CoversPrepend(st.added, rest.added, calls[0], WithFunction(calls[1..]));
            }
          }
        }
      }
    }

    /** The body of `execute`'s loop for one call that names a function. */
    method CallTool(call: ToolCall, stopOnAskUser: bool)
      returns (pair: seq<Event>, reply: seq<Message>, stop: bool, err: Option<string>)
      requires call.fn.Some?
      modifies this`toolAttempts
      ensures Round(pair, reply, stop, err, toolAttempts) == Step(call, stopOnAskUser, old(toolAttempts))
    {
      var name := call.fn.value.name;
      var id := if Truthy(call.id) then call.id.value else freshId(toolAttempts);
      var args := parseArgs(call.fn.value.arguments);
      if args.Err? {
        return [], [], false, Some(args.error);
      }
      var t := GetTool(tools, name);
      if t.None? {
        return [], [], false, Some("Unknown tool: " + name);
      }
      var tool := tools[t.value];
      var calling := ToolEvent(id, tool.name, name, args.value, Calling, None);
      var result, tries, _ := InvokeTool(tool, name, args.value, toolAttempts, maxRetries);
      toolAttempts := toolAttempts + tries;
      var called := ToolEvent(id, tool.name, name, args.value, Called, Some(result));
      return [calling, called], [ToolResponse(name, id, result)], stopOnAskUser && name == "message_ask_user", None;
    }

    /** One round of `execute` (the loop over a reply's tool calls); `Err`
      * is an exception. */
    method CallTools(calls: seq<ToolCall>, stopOnAskUser: bool)
      returns (added: seq<Event>, responses: seq<Message>, stop: bool, err: Option<string>)
      modifies this`toolAttempts
      ensures Round(added, responses, stop, err, toolAttempts) == Rounds(calls, stopOnAskUser, old(toolAttempts))
    {
      added := [];
      responses := [];
      stop := false;
      err := None;
      var j := 0;
      while j < |calls|
        invariant 0 <= j <= |calls|
        invariant Rounds(calls, stopOnAskUser, old(toolAttempts))
                  == Behind(added, responses, Rounds(calls[j..], stopOnAskUser, toolAttempts))
      {
        var call := calls[j];
        assert calls[j..][0] == call && calls[j..][1..] == calls[j + 1..];
        RoundsHead(calls[j..], stopOnAskUser, toolAttempts);
        j := j + 1;
        if call.fn.None? {
          continue;
        }
        var pair, reply, stopHere, callErr := CallTool(call, stopOnAskUser);
        if callErr.Some? {
          return added, responses, false, callErr;
        }
        BehindBehind(added, responses, pair, reply, Rounds(calls[j..], stopOnAskUser, toolAttempts));
        added := added + pair;
        responses := responses + reply;
        if stopHere {
          stop := true;
          return;
        }
      }
    }

    /** The tool calls of one reply inside `execute`'s loop, with the facts
      * about their events that the loop relies on. */
    method ToolRound(calls: seq<ToolCall>, stopOnAskUser: bool)
      returns (added: seq<Event>, responses: seq<Message>, stop: bool, err: Option<string>)
      modifies this`toolAttempts
      ensures WellPaired(added)
      ensures stop ==> stopOnAskUser && err.None? && |added| >= 2
      ensures stop ==> var e := added[|added| - 1];
        e.ToolEvent? && e.functionName == "message_ask_user" && e.toolStatus == Called
    {
      ghost var at := toolAttempts;
      added, responses, stop, err := CallTools(calls, stopOnAskUser);
      RoundsShape(calls, stopOnAskUser, at);
    }

    /** `execute`: at most `maxIterations` rounds of tool calls; the stream
      * ends with the reply's content as a MessageEvent, preceded by an
      * ErrorEvent exactly when every round still asked for tools. `Err` is
      * an exception escaping the generator. With `stopOnAskUser` the
      * consumer closes the stream right after a `message_ask_user` call has
      * been answered (`closed`), before its tool reply reaches the memory. */
    method Execute(request: string, stopOnAskUser: bool)
      returns (events: seq<Event>, rounds: nat, exhausted: bool, closed: bool, err: Option<string>)
      modifies memory, this`llmCalls, this`toolAttempts
      ensures rounds <= maxIterations
      ensures closed ==> stopOnAskUser && err.None?
      ensures closed ==> |events| >= 2 && WellPaired(events)
      ensures closed ==> var e := events[|events| - 1];
        e.ToolEvent? && e.functionName == "message_ask_user" && e.toolStatus == Called
      ensures closed ==> memory.messages != [] && memory.messages[|memory.messages| - 1].HasToolCalls()
      ensures err.None? && !closed ==> (exhausted <==> rounds == maxIterations)
      ensures err.None? && !closed ==> |events| >= 1 && events[|events| - 1].MessageEvent?
      ensures err.None? && !closed ==> var ms, e := memory.messages, events[|events| - 1];
        ms != [] && e == MessageEvent("assistant", e.message, None) && ms[|ms| - 1].content == Some(e.message)
      ensures err.None? && !closed && !exhausted ==> !memory.messages[|memory.messages| - 1].HasToolCalls()
      ensures err.None? && !closed && !exhausted ==> WellPaired(events[..|events| - 1])
      ensures err.None? && !closed && exhausted ==>
        |events| >= 2 && events[|events| - 2] == ErrorEvent(MaxIterationsError) && WellPaired(events[..|events| - 2])
    {
      events := [];
      rounds := 0;
      exhausted := true;
      closed := false;
      var first, _ := AskWithMessages([Plain("user", request)]);
      if first.Err? {
        return events, rounds, exhausted, closed, Some(first.error);
      }
      var message := first.value;
      while rounds < maxIterations
        invariant rounds <= maxIterations
        invariant WellPaired(events)
        invariant memory.messages != [] && memory.messages[|memory.messages| - 1] == message
        invariant !closed
      {
        if !message.HasToolCalls() {
          exhausted := false;
          break;
        }
        var added, responses, stop, callErr := ToolRound(message.toolCalls.value, stopOnAskUser);
        if callErr.Some? {
          return events + added, rounds, exhausted, closed, callErr;
        }
        WellPairedConcat(events, added);
        if stop {
          LastOfConcat(events, added);
          ghost var e := added[|added| - 1];
          assert e.ToolEvent? && e.functionName == "message_ask_user" && e.toolStatus == Called;
          events := events + added;
          assert events[|events| - 1] == e;
          closed := true;
          return events, rounds, exhausted, closed, None;
        }
        events := events + added;
        var next, _ := AskWithMessages(responses);
        if next.Err? {
          return events, rounds, exhausted, closed, Some(next.error);
        }
        message := next.value;
        rounds := rounds + 1;
      }
      var paired := events;
      if exhausted {
        events := events + [ErrorEvent(MaxIterationsError)];
      }
      if message.content.None? {
        return events, rounds, exhausted, closed, Some("MessageEvent needs a string message");
      }
      events := events + [MessageEvent("assistant", message.content.value, None)];
      err := None;
      assert exhausted ==> events[..|events| - 2] == paired;
      assert !exhausted ==> events[..|events| - 1] == paired;
    }

    /** `roll_back`: when the last message asked for tools, answer a pending
      * `message_ask_user` call with the user's message, or else drop that
      * message. */
    method RollBack(input: ChatInput)
      modifies memory
      ensures memory.messages == RolledBack(old(memory.messages), input)
    {
      var last := memory.LastMessage();
      if last.None? || !last.value.HasToolCalls() {
        return;
      }
      var call := last.value.toolCalls.value[0];
      var functionName := if call.fn.Some? then Some(call.fn.value.name) else None;
      if functionName == Some("message_ask_user") {
        memory.AddMessage(Message(Some("tool"), Some(input.Dump()), None, call.id, functionName));
      } else {
        memory.RollBack();
      }
    }
  }
}
