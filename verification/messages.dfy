/** The conversation log shared by both chat handlers: messages with a role,
    optional text, the tool calls an assistant message declares and the id a
    tool result answers. The handlers keep them as dicts; here they are values. */
module Messages {
  import opened Base

  datatype Role = System | User | Assistant | Tool

  /** The function part of a tool call. In a streamed fragment any field may be missing. */
  datatype FunctionCall = FunctionCall(name: Option<string>, arguments: Option<string>)

  /** A tool call as the model reports it. A streamed fragment has the same
      shape, and the handlers keep the first fragment of each index as the call
      itself, so one type serves both. */
  datatype ToolCall = ToolCall(index: int, id: Option<string>, fn: Option<FunctionCall>)

  /** One entry of the history. The `tool_calls` key is present only on an
      assistant message that asked for tools, and is null there when the
      reply asked for tools without naming any; `toolCallId` is present only
      on a tool result. */
  datatype Message = Message(
    role: Role,
    content: Option<string>,
    toolCalls: Field<seq<ToolCall>>,
    toolCallId: Option<string>)

  /** A tool as offered to the model: {type, function: {name, description, parameters}}. */
  datatype ToolSpec = ToolSpec(kind: string, name: string, description: Option<string>, parameters: string)

  /** What one call of the model receives. */
  datatype ChatRequest = ChatRequest(messages: seq<Message>, tools: seq<ToolSpec>)

  function UserMessage(text: string): Message
  {
    Message(User, Some(text), Missing, None)
  }

  function SystemMessage(text: string): Message
  {
    Message(System, Some(text), Missing, None)
  }

  /** A final answer: content only, no tool_calls key. */
  function AnswerMessage(content: Option<string>): Message
  {
    Message(Assistant, content, Missing, None)
  }

  /** The assistant message that declares the tool calls its results will answer. */
  function CallingMessage(content: Option<string>, calls: seq<ToolCall>): Message
  {
    Message(Assistant, content, Given(calls), None)
  }

  /** The assistant message stored for a `tool_calls` finish whose reply
      carries no tool calls: the key is written, with a null value. */
  function NullCallsMessage(content: Option<string>): (m: Message)
    ensures m.role == Assistant && m.content == content && m != AnswerMessage(content)
  {
    Message(Assistant, content, Null, None)
  }

  function ToolResult(content: string, callId: Option<string>): Message
  {
    Message(Tool, Some(content), Missing, callId)
  }

  /** The system messages of `h`, in order. */
  function Systems(h: seq<Message>): (r: seq<Message>)
    ensures |r| <= |h|
    ensures forall i :: 0 <= i < |r| ==> r[i].role == System
  {
    if h == [] then []
    else (if h[0].role == System then [h[0]] else []) + Systems(h[1..])
  }

  /** The messages of `h` that are not system messages, in order. */
  function NonSystems(h: seq<Message>): (r: seq<Message>)
    ensures |r| <= |h|
    ensures forall i :: 0 <= i < |r| ==> r[i].role != System
  {
    if h == [] then []
    else (if h[0].role != System then [h[0]] else []) + NonSystems(h[1..])
  }

  /** How many messages of `h` have role `role`. */
  function CountRole(h: seq<Message>, role: Role): nat
  {
    if h == [] then 0
    else (if h[0].role == role then 1 else 0) + CountRole(h[1..], role)
  }

  lemma {:induction false} SystemsAppend(a: seq<Message>, b: seq<Message>)
    ensures Systems(a + b) == Systems(a) + Systems(b)
  {
    if a == [] {
      assert a + b == b;
    } else {
      assert (a + b)[1..] == a[1..] + b;
      SystemsAppend(a[1..], b);
    }
  }

  lemma {:induction false} NonSystemsAppend(a: seq<Message>, b: seq<Message>)
    ensures NonSystems(a + b) == NonSystems(a) + NonSystems(b)
  {
    if a == [] {
      assert a + b == b;
    } else {
      assert (a + b)[1..] == a[1..] + b;
      NonSystemsAppend(a[1..], b);
    }
  }

  lemma {:induction false} CountRoleAppend(a: seq<Message>, b: seq<Message>, role: Role)
    ensures CountRole(a + b, role) == CountRole(a, role) + CountRole(b, role)
  {
    if a == [] {
      assert a + b == b;
    } else {
      assert (a + b)[1..] == a[1..] + b;
      CountRoleAppend(a[1..], b, role);
    }
  }

  /** The partition and the role counts distribute over concatenation. */
  lemma PartitionAppend(a: seq<Message>, b: seq<Message>)
    ensures Systems(a + b) == Systems(a) + Systems(b)
    ensures NonSystems(a + b) == NonSystems(a) + NonSystems(b)
    ensures forall role :: CountRole(a + b, role) == CountRole(a, role) + CountRole(b, role)
  {
    SystemsAppend(a, b);
    NonSystemsAppend(a, b);
    forall role ensures CountRole(a + b, role) == CountRole(a, role) + CountRole(b, role) {
      CountRoleAppend(a, b, role);
    }
  }

  /** A sequence with no system message is its own non-system part. */
  lemma {:induction false} NonSystemsIdentity(h: seq<Message>)
    requires forall i :: 0 <= i < |h| ==> h[i].role != System
    ensures NonSystems(h) == h
    ensures Systems(h) == []
  {
    if h != [] {
      NonSystemsIdentity(h[1..]);
    }
  }

  /** A sequence of system messages is its own system part. */
  lemma {:induction false} SystemsIdentity(h: seq<Message>)
    requires forall i :: 0 <= i < |h| ==> h[i].role == System
    ensures Systems(h) == h
    ensures NonSystems(h) == []
  {
    if h != [] {
      SystemsIdentity(h[1..]);
    }
  }

  /** System messages followed by others: the partition gives back the two parts. */
  lemma SystemsThenOthers(head: seq<Message>, rest: seq<Message>)
    requires forall i :: 0 <= i < |head| ==> head[i].role == System
    requires forall i :: 0 <= i < |rest| ==> rest[i].role != System
    ensures Systems(head + rest) == head && NonSystems(head + rest) == rest
  {
    SystemsIdentity(head);
    NonSystemsIdentity(rest);
    PartitionAppend(head, rest);
  }

  /** The partition keeps every message: the two parts together are as long as the log. */
  lemma {:induction false} PartitionSizes(h: seq<Message>)
    ensures |Systems(h)| + |NonSystems(h)| == |h|
    ensures |Systems(h)| == CountRole(h, System)
  {
    if h != [] {
      PartitionSizes(h[1..]);
    }
  }
}
