/** An agent's conversation memory (backend/app/domain/models/memory.py):
  * a list of chat messages that is appended to, trimmed and compacted in
  * place. */
module Memories {
  import opened Wrappers
  import PyStr
  import ToolResults

  /** The function part of an LLM tool call. */
  datatype FunctionCall = FunctionCall(name: string, arguments: string)

  /** One entry of an assistant message's `tool_calls`; `fn` is absent
    * when the entry has no (or an empty) "function" object. */
  datatype ToolCall = ToolCall(id: Option<string>, fn: Option<FunctionCall>)

  /** A chat message dictionary; absent keys are `None`. */
  datatype Message = Message(
    role: Option<string>,
    content: Option<string>,
    toolCalls: Option<seq<ToolCall>>,
    toolCallId: Option<string>,
    functionName: Option<string>)
  {
    /** `message.get("tool_calls")` is truthy. */
    predicate HasToolCalls()
    {
      toolCalls.Some? && toolCalls.value != []
    }
  }

  function Plain(role: string, content: string): Message
  {
    Message(Some(role), Some(content), None, None, None)
  }

  /** Tool outputs that compaction discards. */
  predicate IsCompactable(m: Message)
  {
    m.role == Some("tool")
    && (m.functionName == Some("browser_view") || m.functionName == Some("browser_navigate"))
  }

  /** The content compaction stores: the JSON of `ToolResult(success=True, data='(removed)')`. */
  function RemovedContent(): string
  {
    ToolResults.Dump(ToolResults.Removed)
  }

  /** A message as `compact` leaves it: only a browser tool output's
    * content changes, to the placeholder. */
  function CompactMessage(m: Message): (r: Message)
    ensures r == m.(content := r.content)
    ensures IsCompactable(m) ==> r.content == Some(RemovedContent())
    ensures !IsCompactable(m) ==> r == m
  {
    if IsCompactable(m) then m.(content := Some(RemovedContent())) else m
  }

  /** The message list after `compact`: browser tool outputs replaced by the
    * placeholder, every other message, the count and the order unchanged. */
  function Compacted(ms: seq<Message>): (r: seq<Message>)
    ensures |r| == |ms|
    ensures forall i :: 0 <= i < |ms| && !IsCompactable(ms[i]) ==> r[i] == ms[i]
    ensures forall i :: 0 <= i < |ms| && IsCompactable(ms[i]) ==>
      r[i] == ms[i].(content := Some(RemovedContent()))
  {
    seq(|ms|, i requires 0 <= i < |ms| => CompactMessage(ms[i]))
  }

  /** Compacting twice is the same as compacting once. */
  lemma CompactIdempotent(ms: seq<Message>)
    ensures Compacted(Compacted(ms)) == Compacted(ms)
  {
    var once := Compacted(ms);
    forall i | 0 <= i < |ms|
      ensures Compacted(once)[i] == once[i]
    {
      if IsCompactable(ms[i]) {
        assert IsCompactable(once[i]);
      }
    }
  }

  /** `messages[:-1]` drops exactly the last message, and leaves an empty
    * list empty. */
  lemma DropLastSlice(ms: seq<Message>)
    ensures ms == [] ==> PyStr.Slice(ms, None, Some(-1)) == []
    ensures ms != [] ==> PyStr.Slice(ms, None, Some(-1)) + [ms[|ms| - 1]] == ms
  {
  }

  class Memory {
    var messages: seq<Message>

    constructor ()
      ensures messages == []
    {
      messages := [];
    }

    predicate Empty()
      reads this
    {
      |messages| == 0
    }

    /** `get_last_message`. */
    function LastMessage(): (r: Option<Message>)
      reads this
      ensures r.None? <==> Empty()
      ensures r.Some? ==> r.value == messages[|messages| - 1]
    {
      if |messages| > 0 then Some(messages[|messages| - 1]) else None
    }

    method AddMessage(m: Message)
      modifies this
      ensures messages == old(messages) + [m]
    {
      messages := messages + [m];
    }

    method AddMessages(ms: seq<Message>)
      modifies this
      ensures messages == old(messages) + ms
    {
      messages := messages + ms;
    }

    /** `roll_back`: `messages = messages[:-1]`. */
    method RollBack()
      modifies this
      ensures messages == PyStr.Slice(old(messages), None, Some(-1))
      ensures old(messages) != [] ==> messages + [old(messages)[|old(messages)| - 1]] == old(messages)
      ensures old(messages) == [] ==> messages == []
    {
      DropLastSlice(messages);
      messages := PyStr.Slice(messages, None, Some(-1));
    }

    /** `compact`, rewriting the matching messages one at a time. */
    method Compact()
      modifies this
      ensures messages == Compacted(old(messages))
    {
      var i := 0;
      while i < |messages|
        invariant 0 <= i <= |messages| == |old(messages)|
        invariant forall j :: 0 <= j < i ==> messages[j] == CompactMessage(old(messages)[j])
        invariant forall j :: i <= j < |messages| ==> messages[j] == old(messages)[j]
      {
        if messages[i].role == Some("tool") {
          if messages[i].functionName == Some("browser_view") || messages[i].functionName == Some("browser_navigate") {
            messages := messages[i := messages[i].(content := Some(RemovedContent()))];
          }
        }
        i := i + 1;
      }
    }
  }
}
