/** The agent's event stream (backend/app/domain/models/event.py). */
module Events {
  import opened Wrappers
  import opened Plans
  import J = Json
  import ToolResults

  datatype PlanStatus = PlanCreated | PlanUpdated | PlanCompleted
  datatype StepStatus = StepStarted | StepFailed | StepCompleted
  datatype ToolStatus = Calling | Called

  /** The fields of `FileInfo` the agents fill in. */
  datatype FileInfo = FileInfo(filePath: Option<string>)

  /** A user's chat input (backend/app/domain/models/message.py). */
  datatype ChatInput = ChatInput(message: string, attachments: seq<string>)
  {
    /** `model_dump_json()`. */
    function Dump(): (r: string)
      ensures |r| >= 2 && r[0] == '{' && r[|r| - 1] == '}'
    {
      J.Render(J.JObj([("message", J.JStr(message)),
                       ("attachments", J.JArr(seq(|attachments|, i requires 0 <= i < |attachments| => J.JStr(attachments[i]))))]))
    }
  }

  datatype Event =
    | ErrorEvent(error: string)
    | PlanEvent(plan: Plan, planStatus: PlanStatus, step: Option<Step>)
    | ToolEvent(toolCallId: string, toolName: string, functionName: string,
                functionArgs: seq<(string, J.Json)>, toolStatus: ToolStatus,
                functionResult: Option<ToolResults.ToolResult>)
    | StepEvent(stepValue: Step, stepStatus: StepStatus)
    | MessageEvent(role: string, message: string, attachments: Option<seq<FileInfo>>)
    | DoneEvent
    | TitleEvent(title: string)
    | WaitEvent
}
