/** Model messages and tool calls (runtime/internal/model/provider.go). */
module Messages {
  import opened Common
  import opened Json
  import opened Text

  datatype ToolCall = ToolCall(id: string, name: string, arguments: Option<JsonMap>)

  datatype ToolStatus = NoStatus | Succeeded | Invalid | Skipped | Rejected | Failed | Cancelled | Interrupted

  datatype ToolResult = ToolResult(toolCallId: string, name: string, status: ToolStatus, code: string,
                                   output: Option<JsonMap>)

  datatype Role = User | Assistant | Tool

  datatype Message = Message(role: Role, content: string, toolCalls: seq<ToolCall>, toolResults: seq<ToolResult>)

  // The ids the runtime compares: trimmed.
  function CallIds(calls: seq<ToolCall>): (ids: seq<string>)
    ensures |ids| == |calls|
  {
    seq(|calls|, i requires 0 <= i < |calls| => TrimSpace(calls[i].id))
  }

  function ResultIds(results: seq<ToolResult>): (ids: seq<string>)
    ensures |ids| == |results|
  {
    seq(|results|, i requires 0 <= i < |results| => TrimSpace(results[i].toolCallId))
  }

  // Every id is present and none occurs twice.
  predicate DistinctIds(ids: seq<string>) {
    && (forall i | 0 <= i < |ids| :: ids[i] != "")
    && (forall i, j | 0 <= i < j < |ids| :: ids[i] != ids[j])
  }
}
