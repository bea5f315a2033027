/** Values shared by the agent harness, the tool executors and the agent service. */
module AgentTypes {
  import opened Wrappers

  /** Row identifiers; NIL plays the part of the nil UUID. */
  type Id = nat
  const NIL: Id := 0

  /** Token accounting of one turn. The counters are unbounded here. */
  datatype Usage = Usage(prompt: int, completion: int, total: int)

  const NO_USAGE := Usage(0, 0, 0)

  function AddUsage(total: Usage, u: Option<Usage>): Usage {
    match u
    case None => total
    case Some(v) => Usage(total.prompt + v.prompt, total.completion + v.completion, total.total + v.total)
  }

  function UsageOrNil(total: Usage): Option<Usage> {
    if total.prompt == 0 && total.completion == 0 && total.total == 0 then None else Some(total)
  }

  /** One tool call requested by the model, as echoed back to it. */
  datatype ModelCall = ModelCall(id: string, name: string, args: string)

  /** A streamed event. A tool call is addressed by the model's own call id
      inside the harness and by its row id once the service has stored it. */
  datatype CallRef = FromModel(callId: string) | FromRow(row: Id)

  datatype Event =
    | Text(text: string)
    | ToolCall(tool: string, args: string, ref: CallRef, result: string)
    | ToolResult(tool: string, ref: CallRef, result: string)
    | Done(usage: Option<Usage>)
    | Error(message: string)

  /** What a tool executor returns. */
  datatype ToolOutcome = Returned(result: string) | Raised(error: string)

  function ErrJson(error: string): string {
    "{\"error\":\"" + error + "\"}"
  }

  /** The JSON text recorded for an outcome: the result, or the error wrapped. */
  function Recorded(o: ToolOutcome): string {
    match o
    case Returned(result) => result
    case Raised(error) => ErrJson(error)
  }

  /** An error is recorded under the key error, so that no two are recorded alike and none
      as the empty result. */
  lemma ErrorsAreTold(error: string, other: string)
    ensures Recorded(Raised(error)) == "{\"error\":\"" + error + "\"}"
    ensures Recorded(Raised(error)) != ""
    ensures Recorded(Raised(error)) == Recorded(Raised(other)) ==> error == other
  {
    assert Recorded(Raised(error))[10..10 + |error|] == error;
    assert Recorded(Raised(other))[10..10 + |other|] == other;
  }

  datatype ToolDescriptor = ToolDescriptor(name: string, description: string, destructive: bool)
}
