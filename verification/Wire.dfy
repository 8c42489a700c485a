/** Decoded OpenAI chat-completion traffic, whole replies and stream lines alike. */
module OpenAI {
  import opened Common

  datatype Usage = Usage(promptTokens: int, completionTokens: int)

  const NoUsage := Usage(0, 0)

  datatype ToolCall = ToolCall(id: string, typ: string, name: string, arguments: string)

  datatype Message = Message(role: string, content: string, toolCalls: seq<ToolCall>, toolCallId: string)

  datatype Function = Function(typ: string, name: string, description: string, parameters: string)

  datatype ChatRequest = ChatRequest(model: string, messages: seq<Message>, maxTokens: int, temperature: Option<real>,
                             topP: Option<real>, stream: bool, tools: seq<Function>, toolChoice: string,
                             stop: seq<string>)

  datatype ReplyChoice = ReplyChoice(message: Message, finishReason: string)

  datatype ChatResponse = ChatResponse(choices: seq<ReplyChoice>, usage: Usage)

  // ---------------------------------------------------------------- streams

  // `key` is the tool call's position in the upstream message.
  datatype ToolDelta = ToolDelta(key: int, id: string, name: string, args: string)

  datatype StreamChoice = StreamChoice(content: string, toolCalls: seq<ToolDelta>, finishReason: string)

  datatype Chunk = Chunk(choices: seq<StreamChoice>, usage: Option<Usage>)

  // A scanned line: something to skip (no data prefix, or undecodable JSON), the end marker, or a chunk.
  datatype Line = Noise | Done | Data(chunk: Chunk)

  // What one delta asks for: say some text, or feed a tool call.
  datatype Atom = Say(text: string) | Call(d: ToolDelta)

  // The lines the translator looks at: everything before the first end marker.
  function Live(lines: seq<Line>): seq<Line> {
    if lines == [] || lines[0].Done? then [] else [lines[0]] + Live(lines[1..])
  }

  function Calls(ds: seq<ToolDelta>): seq<Atom> {
    seq(|ds|, i requires 0 <= i < |ds| => Call(ds[i]))
  }

  function LineAtoms(line: Line): seq<Atom> {
    if line.Data? && line.chunk.choices != [] then
      [Say(line.chunk.choices[0].content)] + Calls(line.chunk.choices[0].toolCalls)
    else []
  }

  function AtomsOf(live: seq<Line>): seq<Atom> {
    FlatMap(LineAtoms, live)
  }

  function Atoms(lines: seq<Line>): seq<Atom> {
    AtomsOf(Live(lines))
  }

  function LineFinish(l: Line): Option<string> {
    if l.Data? && l.chunk.choices != [] && l.chunk.choices[0].finishReason != ""
    then Some(l.chunk.choices[0].finishReason) else None
  }

  // The last finish reason that was not empty.
  function FinishIn(live: seq<Line>): string {
    Latest(LineFinish, "", live)
  }

  function FinishOf(lines: seq<Line>): string {
    FinishIn(Live(lines))
  }

  function LineUsage(l: Line): Option<Usage> {
    if l.Data? then l.chunk.usage else None
  }

  // The last usage report.
  function UsageIn(live: seq<Line>): Usage {
    Latest(LineUsage, NoUsage, live)
  }

  function UsageOf(lines: seq<Line>): Usage {
    UsageIn(Live(lines))
  }
}

/** The Anthropic side: messages made of content blocks, and stop reasons. */
module Anthropic {
  import opened Common

  // A tool result's content: absent, a string, blocks, or JSON that is neither.
  datatype ToolContent = NoContent | TextContent(text: string) | BlockContent(blocks: seq<ContentBlock>) | RawContent(raw: string)

  // `input` is the raw JSON of the tool arguments.
  datatype ContentBlock =
    | Text(text: string)
    | ToolUse(id: string, name: string, input: string)
    | ToolResult(toolUseId: string, content: ToolContent, isError: bool)
    | Image
    | OtherBlock

  // A message's content field, decoded.
  datatype Content = Absent | Plain(text: string) | Blocks(blocks: seq<ContentBlock>) | Malformed

  datatype Msg = Msg(role: string, content: Content)

  datatype ToolDef = ToolDef(name: string, description: string, inputSchema: string)

  datatype Request = Request(maxTokens: int, temperature: Option<real>, topP: Option<real>, stream: bool,
                             system: Content, messages: seq<Msg>, tools: seq<ToolDef>, toolChoice: string,
                             stopSeqs: seq<string>)

  datatype Response = Response(id: string, model: string, content: seq<ContentBlock>, stopReason: string,
                               inputTokens: int, outputTokens: int)

  function MapFinishReason(openaiFinish: string): (stop: string)
    ensures stop == "tool_use" <==> openaiFinish in {"tool_calls", "function_call"}
    ensures stop == "max_tokens" <==> openaiFinish == "length"
    ensures stop in {"tool_use", "max_tokens", "end_turn"}
  {
    if openaiFinish == "tool_calls" || openaiFinish == "function_call" then "tool_use"
    else if openaiFinish == "length" then "max_tokens"
    else "end_turn"
  }
}
