/** The values that the agent loop, the agent and the proxy pass around. */
module Messages {

  datatype Option<+T> = None | Some(value: T)

  datatype StopReason = Stop | Length | ToolUse | Error | Aborted

  datatype ToolCall = ToolCall(id: string, name: string, arguments: string)

  datatype Part = Text(text: string) | Thinking(thinking: string) | Call(call: ToolCall)

  /** `Custom` stands for the message types that a host adds to the union. */
  datatype Message =
    | User(content: string)
    | Custom(content: string)
    | Assistant(parts: seq<Part>, stopReason: StopReason, errorMessage: Option<string>)
    | ToolResult(callId: string, toolName: string, content: string, details: string, isError: bool, timestamp: nat)

  type AssistantMessage = m: Message | m.Assistant? witness Assistant([], Stop, None)

  /** What a tool returns; `terminate` may be missing. */
  datatype ToolOutput = ToolOutput(content: string, details: string, terminate: Option<bool>)

  /** A batch of messages that was queued by one call. */
  type Batch = seq<Message>

  datatype Event =
    | AgentStart
    | AgentEnd(messages: seq<Message>)
    | TurnStart
    | TurnEnd(message: Message, toolResults: seq<Message>)
    | MessageStart(message: Message)
    | MessageUpdate(message: Message)
    | MessageEnd(message: Message)
    | ToolStart(id: string, name: string, arguments: string)
    | ToolUpdate(id: string)
    | ToolEnd(id: string, name: string, output: ToolOutput, isError: bool)

  /** The tool calls of an assistant message, in source order. */
  function ToolCalls(parts: seq<Part>): seq<ToolCall> {
    if parts == [] then []
    else (if parts[0].Call? then [parts[0].call] else []) + ToolCalls(parts[1..])
  }

  function CallsOf(reply: Message): seq<ToolCall> {
    if reply.Assistant? then ToolCalls(reply.parts) else []
  }

  /** True for the replies after which the loop ends the run at once. */
  predicate Failed(reply: Message) {
    reply.Assistant? && (reply.stopReason.Error? || reply.stopReason.Aborted?)
  }

  function Flatten<T>(batches: seq<seq<T>>): seq<T> {
    if batches == [] then [] else batches[0] + Flatten(batches[1..])
  }

  lemma {:induction false} FlattenAppend<T>(a: seq<seq<T>>, b: seq<seq<T>>)
    ensures Flatten(a + b) == Flatten(a) + Flatten(b)
  {
    if a == [] {
      assert a + b == b;
    } else {
      FlattenAppend(a[1..], b);
      assert (a + b)[0] == a[0] && (a + b)[1..] == a[1..] + b;
      var x, y, z := a[0], Flatten(a[1..]), Flatten(b);
      assert x + (y + z) == (x + y) + z;
    }
  }

  lemma FlattenSnoc<T>(a: seq<seq<T>>, last: seq<T>)
    ensures Flatten(a + [last]) == Flatten(a) + last
  {
    FlattenAppend(a, [last]);
    assert Flatten([last]) == last + Flatten([]);
  }
}
