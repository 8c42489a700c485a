/** Whole-message translation, both ways. */
module Translate {
  import opened Common
  import Lines
  import OpenAI
  import Anthropic

  type OMsg = OpenAI.Message
  type Block = Anthropic.ContentBlock

  // The k-th random identifier drawn.
  type Rand = nat -> string

  // ---------------------------------------------------------------- request: what each part becomes

  // Add a part to a text under construction, on a line of its own unless the text is still empty.
  function Glue(text: string, part: string): string {
    if text == "" then part else text + "\n" + part
  }

  const IMAGE_NOTE := "[image omitted — proxy does not forward images to local models]"

  // The text and image blocks of a user message, after its string form.
  function UserText(start: string, blocks: seq<Block>): string {
    if blocks == [] then start
    else
      var before := UserText(start, ButLast(blocks));
      match Last(blocks)
      case Text(t) => Glue(before, t)
      case Image => Glue(before, IMAGE_NOTE)
      case _ => before
  }

  function AssistantText(start: string, blocks: seq<Block>): string {
    if blocks == [] then start
    else
      var before := AssistantText(start, ButLast(blocks));
      if Last(blocks).Text? then Glue(before, Last(blocks).text) else before
  }

  // Text blocks only; with skipEmpty, empty ones leave no line behind.
  function JoinText(blocks: seq<Block>, skipEmpty: bool): string {
    if blocks == [] then ""
    else
      var before := JoinText(ButLast(blocks), skipEmpty);
      match Last(blocks)
      case Text(t) => if skipEmpty && t == "" then before else Glue(before, t)
      case _ => before
  }

  function SystemText(system: Anthropic.Content): string {
    match system
    case Plain(s) => s
    case Blocks(bs) => JoinText(bs, true)
    case _ => ""
  }

  function ResultText(content: Anthropic.ToolContent, isError: bool): string {
    match content
    case NoContent => ""
    case TextContent(s) => if isError then "ERROR: " + s else s
    case BlockContent(bs) => if isError then "ERROR: " + JoinText(bs, false) else JoinText(bs, false)
    case RawContent(raw) => raw
  }

  function ToolMessages(blocks: seq<Block>): seq<OMsg> {
    if blocks == [] then []
    else
      ToolMessages(ButLast(blocks)) +
      match Last(blocks)
      case ToolResult(id, content, isError) => [OpenAI.Message("tool", ResultText(content, isError), [], id)]
      case _ => []
  }

  function OrEmptyObject(json: string): string {
    if json == "" then "{}" else json
  }

  function ToolCalls(blocks: seq<Block>): seq<OpenAI.ToolCall> {
    if blocks == [] then []
    else
      ToolCalls(ButLast(blocks)) +
      match Last(blocks)
      case ToolUse(id, name, input) => [OpenAI.ToolCall(id, "function", name, OrEmptyObject(input))]
      case _ => []
  }

  function BlocksOf(c: Anthropic.Content): seq<Block> {
    if c.Blocks? then c.blocks else []
  }

  function PlainOf(c: Anthropic.Content): string {
    if c.Plain? then c.text else ""
  }

  // Free text first, then one message per tool result.
  function UserOut(text: string, blocks: seq<Block>): seq<OMsg> {
    var t := UserText(text, blocks);
    (if t != "" then [OpenAI.Message("user", t, [], "")] else []) + ToolMessages(blocks)
  }

  function AssistantOut(text: string, blocks: seq<Block>): OMsg {
    OpenAI.Message("assistant", AssistantText(text, blocks), ToolCalls(blocks), "")
  }

  function MessageOut(m: Anthropic.Msg): seq<OMsg> {
    if m.role == "user" then UserOut(PlainOf(m.content), BlocksOf(m.content))
    else if m.role == "assistant" then [AssistantOut(PlainOf(m.content), BlocksOf(m.content))]
    else []
  }

  function MessagesOut(ms: seq<Anthropic.Msg>): seq<OMsg> {
    FlatMap(MessageOut, ms)
  }

  function SystemOut(system: Anthropic.Content): seq<OMsg> {
    if SystemText(system) != "" then [OpenAI.Message("system", SystemText(system), [], "")] else []
  }

  function FunctionOut(t: Anthropic.ToolDef): OpenAI.Function {
    OpenAI.Function("function", t.name, t.description, t.inputSchema)
  }

  predicate Readable(ms: seq<Anthropic.Msg>) {
    forall i | 0 <= i < |ms| :: !ms[i].content.Malformed?
  }

  // ---------------------------------------------------------------- request: what the texts are

  // The lines without those that are empty from the start on.
  function Trimmed(ts: seq<string>): seq<string> {
    if ts == [] || ts[0] != "" then ts else Trimmed(ts[1..])
  }

  lemma {:induction false} TrimmedSnoc(ts: seq<string>, t: string)
    ensures Trimmed(ts + [t]) == if Trimmed(ts) == [] then (if t == "" then [] else [t]) else Trimmed(ts) + [t]
    ensures Trimmed(ts) != [] ==> Trimmed(ts)[0] != ""
  {
    if ts != [] && ts[0] == "" {
      assert (ts + [t])[1..] == ts[1..] + [t];
      TrimmedSnoc(ts[1..], t);
    } else if ts == [] {
      assert ts + [t] == [t] && [t][1..] == [];
    }
  }

  lemma {:induction false} JoinedIsEmpty(ts: seq<string>)
    requires ts != [] && ts[0] != ""
    ensures Lines.Join(ts) != ""
  {
    if |ts| > 1 {
      JoinedIsEmpty(ButLast(ts));
    }
  }

  // Gluing a part to what is there so far is adding a line.
  lemma GlueJoins(ts: seq<string>, t: string)
    ensures Glue(Lines.Join(Trimmed(ts)), t) == Lines.Join(Trimmed(ts + [t]))
  {
    TrimmedSnoc(ts, t);
    if Trimmed(ts) != [] {
      JoinedIsEmpty(Trimmed(ts));
      SnocParts(Trimmed(ts), t);
    }
  }

  function TextPart(b: Block): seq<string> {
    if b.Text? then [b.text] else []
  }

  function UserPart(b: Block): seq<string> {
    if b.Image? then [IMAGE_NOTE] else TextPart(b)
  }

  function NonEmptyPart(b: Block): seq<string> {
    if b.Text? && b.text != "" then [b.text] else []
  }

  // The text of a list of blocks that go by `part`, after some lines.
  lemma PartJoins(part: Block -> seq<string>, start: seq<string>, blocks: seq<Block>)
    requires blocks != [] && |part(Last(blocks))| <= 1
    ensures
      var ts, p := start + FlatMap(part, ButLast(blocks)), part(Last(blocks));
      Lines.Join(Trimmed(start + FlatMap(part, blocks)))
      == if p == [] then Lines.Join(Trimmed(ts)) else Glue(Lines.Join(Trimmed(ts)), p[0])
  {
    var p := part(Last(blocks));
    if p == [] {
      assert FlatMap(part, ButLast(blocks)) + p == FlatMap(part, ButLast(blocks));
    } else {
      var ts := start + FlatMap(part, ButLast(blocks));
      assert p == [p[0]] && start + (FlatMap(part, ButLast(blocks)) + p) == ts + [p[0]];
      GlueJoins(ts, p[0]);
    }
  }

  /** A user's text is its string form and its text and image blocks, a line each, without leading empty lines. */
  lemma {:induction false} UserTextJoins(start: string, blocks: seq<Block>)
    ensures UserText(start, blocks) == Lines.Join(Trimmed([start] + FlatMap(UserPart, blocks)))
  {
    if blocks == [] {
      assert [start] + FlatMap(UserPart, blocks) == [start] && [start][1..] == [];
    } else {
      UserTextJoins(start, ButLast(blocks));
      PartJoins(UserPart, [start], blocks);
    }
  }

  /** An assistant's text is its string form and its text blocks, likewise. */
  lemma {:induction false} AssistantTextJoins(start: string, blocks: seq<Block>)
    ensures AssistantText(start, blocks) == Lines.Join(Trimmed([start] + FlatMap(TextPart, blocks)))
  {
    if blocks == [] {
      assert [start] + FlatMap(TextPart, blocks) == [start] && [start][1..] == [];
    } else {
      AssistantTextJoins(start, ButLast(blocks));
      PartJoins(TextPart, [start], blocks);
    }
  }

  // The lines a list of text blocks contributes; with skipEmpty, no empty one.
  function TextLines(blocks: seq<Block>, skipEmpty: bool): seq<string> {
    FlatMap(if skipEmpty then NonEmptyPart else TextPart, blocks)
  }

  lemma {:induction false} NoEmptyLines(blocks: seq<Block>)
    ensures Trimmed(TextLines(blocks, true)) == TextLines(blocks, true)
    ensures forall i | 0 <= i < |TextLines(blocks, true)| :: TextLines(blocks, true)[i] != ""
  {
    if blocks != [] {
      NoEmptyLines(ButLast(blocks));
    }
  }

  lemma PartJoinsAlone(part: Block -> seq<string>, blocks: seq<Block>)
    requires blocks != [] && |part(Last(blocks))| <= 1
    ensures
      var before, p := Lines.Join(Trimmed(FlatMap(part, ButLast(blocks)))), part(Last(blocks));
      Lines.Join(Trimmed(FlatMap(part, blocks))) == if p == [] then before else Glue(before, p[0])
  {
    PartJoins(part, [], blocks);
    assert [] + FlatMap(part, blocks) == FlatMap(part, blocks);
    assert [] + FlatMap(part, ButLast(blocks)) == FlatMap(part, ButLast(blocks));
  }

  /** A tool result's text is its text blocks, a line each, without leading empty lines; a system text is its non-empty
      text blocks, a line each. */
  lemma {:induction false} JoinTextJoins(blocks: seq<Block>, skipEmpty: bool)
    ensures JoinText(blocks, skipEmpty) == Lines.Join(Trimmed(TextLines(blocks, skipEmpty)))
  {
    if blocks != [] {
      JoinTextJoins(ButLast(blocks), skipEmpty);
      PartJoinsAlone(if skipEmpty then NonEmptyPart else TextPart, blocks);
    }
  }

  // ---------------------------------------------------------------- request: turn by turn

  function UserSays(c: Anthropic.Content): string {
    match c
    case Plain(s) => s
    case Blocks(bs) => Lines.Join(Trimmed(FlatMap(UserPart, bs)))
    case _ => ""
  }

  function AssistantSays(c: Anthropic.Content): string {
    match c
    case Plain(s) => s
    case Blocks(bs) => Lines.Join(Trimmed(FlatMap(TextPart, bs)))
    case _ => ""
  }

  function SystemSays(c: Anthropic.Content): string {
    match c
    case Plain(s) => s
    case Blocks(bs) => Lines.Join(FlatMap(NonEmptyPart, bs))
    case _ => ""
  }

  // The id and the text of a tool result.
  function ResultPart(b: Block): seq<(string, string)> {
    if b.ToolResult? then [(b.toolUseId, ResultText(b.content, b.isError))] else []
  }

  function CallPart(b: Block): seq<OpenAI.ToolCall> {
    if b.ToolUse? then [OpenAI.ToolCall(b.id, "function", b.name, if b.input == "" then "{}" else b.input)] else []
  }

  function PartsOf<T>(part: Block -> seq<T>, c: Anthropic.Content): seq<T> {
    match c
    case Blocks(bs) => FlatMap(part, bs)
    case _ => []
  }

  // One message under a tool's role for each result.
  predicate ResultMessages(results: seq<(string, string)>, out: seq<OMsg>) {
    |out| == |results| && forall i | 0 <= i < |results| :: out[i] == OpenAI.Message("tool", results[i].1, [], results[i].0)
  }

  // A user's turn: one message with the text, if there is any, then one for each tool result, and nothing else.
  predicate UserTurn(said: string, results: seq<(string, string)>, out: seq<OMsg>) {
    if said == "" then ResultMessages(results, out)
    else out != [] && out[0] == OpenAI.Message("user", said, [], "") && ResultMessages(results, out[1..])
  }

  // What one message of the request has become, by its role.
  predicate Turn(m: Anthropic.Msg, out: seq<OMsg>) {
    if m.role == "user" then UserTurn(UserSays(m.content), PartsOf(ResultPart, m.content), out)
    else if m.role == "assistant" then
      out == [OpenAI.Message("assistant", AssistantSays(m.content), PartsOf(CallPart, m.content), "")]
    else out == []
  }

  // The messages, one turn after another.
  ghost predicate Turns(ms: seq<Anthropic.Msg>, out: seq<OMsg>) {
    if ms == [] then out == []
    else exists k :: 0 <= k <= |out| && Turns(ButLast(ms), out[..k]) && Turn(Last(ms), out[k..])
  }

  lemma PlainJoins(s: string)
    ensures Lines.Join(Trimmed([s])) == s
  {
    assert [s][1..] == [];
  }

  lemma EmptyStart(ts: seq<string>)
    ensures Trimmed([""] + ts) == Trimmed(ts)
  {
    assert ([""] + ts)[1..] == ts;
  }

  lemma UserTextSays(c: Anthropic.Content)
    ensures UserText(PlainOf(c), BlocksOf(c)) == UserSays(c)
  {
    UserTextJoins(PlainOf(c), BlocksOf(c));
    if c.Blocks? {
      EmptyStart(FlatMap(UserPart, c.blocks));
    } else {
      assert [PlainOf(c)] + FlatMap(UserPart, []) == [PlainOf(c)];
      PlainJoins(PlainOf(c));
    }
  }

  lemma AssistantTextSays(c: Anthropic.Content)
    ensures AssistantText(PlainOf(c), BlocksOf(c)) == AssistantSays(c)
  {
    AssistantTextJoins(PlainOf(c), BlocksOf(c));
    if c.Blocks? {
      EmptyStart(FlatMap(TextPart, c.blocks));
    } else {
      assert [PlainOf(c)] + FlatMap(TextPart, []) == [PlainOf(c)];
      PlainJoins(PlainOf(c));
    }
  }

  lemma SystemTextSays(c: Anthropic.Content)
    ensures SystemText(c) == SystemSays(c)
  {
    if c.Blocks? {
      JoinTextJoins(c.blocks, true);
      NoEmptyLines(c.blocks);
    }
  }

  lemma {:induction false} ToolMessagesAre(blocks: seq<Block>)
    ensures ResultMessages(FlatMap(ResultPart, blocks), ToolMessages(blocks))
  {
    if blocks != [] {
      ToolMessagesAre(ButLast(blocks));
    }
  }

  lemma {:induction false} ToolCallsAre(blocks: seq<Block>)
    ensures ToolCalls(blocks) == FlatMap(CallPart, blocks)
  {
    if blocks != [] {
      ToolCallsAre(ButLast(blocks));
    }
  }

  lemma TurnOfParts(said: string, results: seq<(string, string)>, tools: seq<OMsg>)
    requires ResultMessages(results, tools)
    ensures UserTurn(said, results, (if said != "" then [OpenAI.Message("user", said, [], "")] else []) + tools)
  {
    assert [] + tools == tools;
    assert ([OpenAI.Message("user", said, [], "")] + tools)[1..] == tools;
  }

  lemma UserOutIsTurn(text: string, blocks: seq<Block>)
    ensures UserTurn(Lines.Join(Trimmed([text] + FlatMap(UserPart, blocks))), FlatMap(ResultPart, blocks), UserOut(text, blocks))
  {
    UserTextJoins(text, blocks);
    ToolMessagesAre(blocks);
    TurnOfParts(UserText(text, blocks), FlatMap(ResultPart, blocks), ToolMessages(blocks));
  }

  lemma AssistantOutIs(text: string, blocks: seq<Block>)
    ensures AssistantOut(text, blocks)
            == OpenAI.Message("assistant", Lines.Join(Trimmed([text] + FlatMap(TextPart, blocks))), FlatMap(CallPart, blocks), "")
  {
    AssistantTextJoins(text, blocks);
    ToolCallsAre(blocks);
  }

  /** Each message of the request becomes its turn: a user's text and results, an assistant's one message, nothing for any
      other role. */
  lemma MessageIsTurn(m: Anthropic.Msg)
    ensures Turn(m, MessageOut(m))
  {
    var text, blocks := PlainOf(m.content), BlocksOf(m.content);
    if m.role == "user" {
      UserOutIsTurn(text, blocks);
      UserTextJoins(text, blocks);
      UserTextSays(m.content);
    } else if m.role == "assistant" {
      AssistantOutIs(text, blocks);
      AssistantTextJoins(text, blocks);
      AssistantTextSays(m.content);
    }
  }

  lemma TurnMore(ms: seq<Anthropic.Msg>, m: Anthropic.Msg, out: seq<OMsg>, turn: seq<OMsg>)
    requires Turns(ms, out) && Turn(m, turn)
    ensures Turns(ms + [m], out + turn)
  {
    SnocParts(ms, m);
    var all, k := out + turn, |out|;
    assert all[..k] == out && all[k..] == turn;
  }

  lemma OneTurnMore(ms: seq<Anthropic.Msg>, m: Anthropic.Msg)
    requires Turns(ms, MessagesOut(ms))
    ensures Turns(ms + [m], MessagesOut(ms + [m]))
  {
    MessageIsTurn(m);
    FlatMapSnoc(MessageOut, ms, m);
    TurnMore(ms, m, MessagesOut(ms), MessageOut(m));
  }

  /** The messages are translated turn by turn. */
  lemma {:induction false} MessagesAreTurns(ms: seq<Anthropic.Msg>)
    ensures Turns(ms, MessagesOut(ms))
  {
    if ms != [] {
      MessagesAreTurns(ButLast(ms));
      OneTurnMore(ButLast(ms), Last(ms));
      assert ms == ButLast(ms) + [Last(ms)];
    }
  }

  // ---------------------------------------------------------------- request: who says what

  // The texts of the messages of one role, in order.
  function SaidAs(role: string, out: seq<OMsg>): seq<string> {
    if out == [] then [] else SaidAs(role, ButLast(out)) + if Last(out).role == role then [Last(out).content] else []
  }

  lemma {:induction false} SaidConcat(role: string, a: seq<OMsg>, b: seq<OMsg>)
    ensures SaidAs(role, a + b) == SaidAs(role, a) + SaidAs(role, b)
  {
    if b == [] {
      assert a + b == a;
    } else {
      SaidConcat(role, a, ButLast(b));
      ConcatParts(a, b);
    }
  }

  lemma SaidOne(role: string, m: OMsg)
    ensures SaidAs(role, [m]) == if m.role == role then [m.content] else []
  {
    assert ButLast([m]) == [];
  }

  predicate AllTools(out: seq<OMsg>) {
    forall i | 0 <= i < |out| :: out[i].role == "tool"
  }

  lemma {:induction false} SaidByTools(role: string, out: seq<OMsg>)
    requires role != "tool" && AllTools(out)
    ensures SaidAs(role, out) == []
  {
    if out != [] {
      SaidByTools(role, ButLast(out));
    }
  }

  // What one message of the request says under a role: its non-empty text for a user, its text for an assistant.
  function SaysAs(role: string, m: Anthropic.Msg): seq<string> {
    if m.role != role then []
    else if role == "user" then (if UserSays(m.content) == "" then [] else [UserSays(m.content)])
    else if role == "assistant" then [AssistantSays(m.content)]
    else []
  }

  function AllSayAs(role: string, ms: seq<Anthropic.Msg>): seq<string> {
    if ms == [] then [] else AllSayAs(role, ButLast(ms)) + SaysAs(role, Last(ms))
  }

  lemma ResultsAreTools(results: seq<(string, string)>, out: seq<OMsg>)
    requires ResultMessages(results, out)
    ensures AllTools(out)
  {
    forall i | 0 <= i < |out| ensures out[i].role == "tool" {
      assert out[i] == OpenAI.Message("tool", results[i].1, [], results[i].0);
    }
  }

  lemma UserTurnSays(role: string, said: string, results: seq<(string, string)>, out: seq<OMsg>)
    requires UserTurn(said, results, out) && role != "tool"
    ensures SaidAs(role, out) == if role == "user" && said != "" then [said] else []
  {
    if said == "" {
      ResultsAreTools(results, out);
      SaidByTools(role, out);
    } else {
      ResultsAreTools(results, out[1..]);
      SaidByTools(role, out[1..]);
      SaidOne(role, out[0]);
      SaidConcat(role, [out[0]], out[1..]);
      assert out == [out[0]] + out[1..];
    }
  }

  lemma TurnSays(role: string, m: Anthropic.Msg, out: seq<OMsg>)
    requires Turn(m, out) && role in {"user", "assistant", "system"}
    ensures SaidAs(role, out) == SaysAs(role, m)
  {
    if m.role == "user" {
      UserTurnSays(role, UserSays(m.content), PartsOf(ResultPart, m.content), out);
    } else if m.role == "assistant" {
      SaidOne(role, out[0]);
    }
  }

  lemma SaidInParts(role: string, out: seq<OMsg>, k: nat)
    requires k <= |out|
    ensures SaidAs(role, out) == SaidAs(role, out[..k]) + SaidAs(role, out[k..])
  {
    assert out == out[..k] + out[k..];
    SaidConcat(role, out[..k], out[k..]);
  }

  /** The messages under a user's role are the non-empty texts of the users' turns, those under an assistant's the texts of the
      assistants' turns, one each; in order, none lost and no others. No turn gives a system message. */
  lemma {:induction false} TurnsSay(role: string, ms: seq<Anthropic.Msg>, out: seq<OMsg>)
    requires Turns(ms, out) && role in {"user", "assistant", "system"}
    ensures SaidAs(role, out) == AllSayAs(role, ms)
  {
    if ms != [] {
      var k :| 0 <= k <= |out| && Turns(ButLast(ms), out[..k]) && Turn(Last(ms), out[k..]);
      TurnsSay(role, ButLast(ms), out[..k]);
      TurnSays(role, Last(ms), out[k..]);
      SaidInParts(role, out, k);
    }
  }

  lemma {:induction false} NobodySays(ms: seq<Anthropic.Msg>)
    ensures AllSayAs("system", ms) == []
  {
    if ms != [] {
      NobodySays(ButLast(ms));
    }
  }

  // A whole request: the system text first, if there is any, then turn by turn.
  ghost predicate Conversation(system: Anthropic.Content, ms: seq<Anthropic.Msg>, out: seq<OMsg>) {
    var n := if SystemSays(system) == "" then 0 else 1;
    && n <= |out| && (n == 1 ==> out[0] == OpenAI.Message("system", SystemSays(system), [], ""))
    && Turns(ms, out[n..])
  }

  lemma ConversationSays(role: string, system: Anthropic.Content, ms: seq<Anthropic.Msg>, out: seq<OMsg>)
    requires Conversation(system, ms, out) && role in {"user", "assistant", "system"}
    ensures SaidAs(role, out)
            == if role == "system" then (if SystemSays(system) == "" then [] else [SystemSays(system)]) else AllSayAs(role, ms)
  {
    var n := if SystemSays(system) == "" then 0 else 1;
    assert out == out[..n] + out[n..];
    SaidConcat(role, out[..n], out[n..]);
    TurnsSay(role, ms, out[n..]);
    NobodySays(ms);
    if n == 1 {
      assert out[..n] == [out[0]];
      SaidOne(role, out[0]);
    }
  }

  lemma RequestConverses(system: Anthropic.Content, ms: seq<Anthropic.Msg>)
    ensures Conversation(system, ms, SystemOut(system) + MessagesOut(ms))
  {
    var out := SystemOut(system) + MessagesOut(ms);
    SystemTextSays(system);
    MessagesAreTurns(ms);
    assert out[|SystemOut(system)|..] == MessagesOut(ms);
  }

  // ---------------------------------------------------------------- request: the loops

  method ToolResultText(content: Anthropic.ToolContent, isError: bool) returns (r: string)
    ensures r == ResultText(content, isError)
    ensures
      var mark := if isError then "ERROR: " else "";
      match content
      case NoContent => r == ""
      case TextContent(s) => r == mark + s
      case BlockContent(bs) => r == mark + Lines.Join(Trimmed(FlatMap(TextPart, bs)))
      case RawContent(raw) => r == raw
  {
    if content.BlockContent? {
      JoinTextJoins(content.blocks, false);
    }
    match content
    case NoContent => return "";
    case TextContent(s) =>
      if isError { return "ERROR: " + s; }
      return s;
    case RawContent(raw) => return raw;
    case BlockContent(bs) =>
      var sb := "";
      for i := 0 to |bs|
        invariant sb == JoinText(bs[..i], false)
      {
        assert bs[..i + 1] == bs[..i] + [bs[i]];
        if bs[i].Text? {
          if |sb| > 0 { sb := sb + "\n"; }
          sb := sb + bs[i].text;
        }
      }
      assert bs[..|bs|] == bs;
      if isError { return "ERROR: " + sb; }
      return sb;
  }

  method FlattenTextMaybeBlocks(system: Anthropic.Content) returns (r: string)
    ensures r == SystemText(system) == SystemSays(system)
  {
    SystemTextSays(system);
    match system
    case Plain(s) => return s;
    case Blocks(bs) =>
      var b := "";
      for i := 0 to |bs|
        invariant b == JoinText(bs[..i], true)
      {
        assert bs[..i + 1] == bs[..i] + [bs[i]];
        if bs[i].Text? && bs[i].text != "" {
          if |b| > 0 { b := b + "\n"; }
          b := b + bs[i].text;
        }
      }
      assert bs[..|bs|] == bs;
      return b;
    case _ => return "";
  }

  // The loop over a user's blocks: the text they add up to, and a message for each tool result.
  method GatherUser(text: string, blocks: seq<Block>) returns (userText: string, tailToolMsgs: seq<OMsg>)
    ensures userText == UserText(text, blocks) && tailToolMsgs == ToolMessages(blocks)
  {
    userText, tailToolMsgs := text, [];
    for i := 0 to |blocks|
      invariant userText == UserText(text, blocks[..i])
      invariant tailToolMsgs == ToolMessages(blocks[..i])
    {
      assert blocks[..i + 1] == blocks[..i] + [blocks[i]];
      match blocks[i] {
        case Text(t) =>
          if |userText| > 0 { userText := userText + "\n"; }
          userText := userText + t;
        case ToolResult(id, content, isError) =>
          var t := ToolResultText(content, isError);
          tailToolMsgs := tailToolMsgs + [OpenAI.Message("tool", t, [], id)];
        case Image =>
          if |userText| > 0 { userText := userText + "\n"; }
          userText := userText + IMAGE_NOTE;
        case _ =>
      }
    }
    assert blocks[..|blocks|] == blocks;
  }

  method UserMessages(text: string, blocks: seq<Block>) returns (out: seq<OMsg>)
    ensures out == UserOut(text, blocks)
    ensures UserTurn(Lines.Join(Trimmed([text] + FlatMap(UserPart, blocks))), FlatMap(ResultPart, blocks), out)
  {
    var userText, tailToolMsgs := GatherUser(text, blocks);
    out := [];
    if |userText| > 0 {
      out := out + [OpenAI.Message("user", userText, [], "")];
    }
    out := out + tailToolMsgs;
    UserOutIsTurn(text, blocks);
  }

  method AssistantMessage(text: string, blocks: seq<Block>) returns (msg: OMsg)
    ensures msg == AssistantOut(text, blocks)
    ensures msg == OpenAI.Message("assistant", Lines.Join(Trimmed([text] + FlatMap(TextPart, blocks))),
                                  FlatMap(CallPart, blocks), "")
  {
    var textBuf, calls := text, [];
    for i := 0 to |blocks|
      invariant textBuf == AssistantText(text, blocks[..i])
      invariant calls == ToolCalls(blocks[..i])
    {
      assert blocks[..i + 1] == blocks[..i] + [blocks[i]];
      match blocks[i] {
        case Text(t) =>
          if |textBuf| > 0 { textBuf := textBuf + "\n"; }
          textBuf := textBuf + t;
        case ToolUse(id, name, input) =>
          var args := input;
          if args == "" { args := "{}"; }
          calls := calls + [OpenAI.ToolCall(id, "function", name, args)];
        case _ =>
      }
    }
    assert blocks[..|blocks|] == blocks;
    msg := OpenAI.Message("assistant", textBuf, calls, "");
    AssistantOutIs(text, blocks);
  }

  // The switch on a message's role.
  method TranslateMessage(m: Anthropic.Msg) returns (out: seq<OMsg>)
    ensures out == MessageOut(m) && Turn(m, out)
  {
    MessageIsTurn(m);
    var blocks, asText := BlocksOf(m.content), PlainOf(m.content);
    if m.role == "user" {
      out := UserMessages(asText, blocks);
    } else if m.role == "assistant" {
      var msg := AssistantMessage(asText, blocks);
      out := [msg];
    } else {
      out := [];
    }
  }

  lemma MessagesSnoc(ms: seq<Anthropic.Msg>, i: nat)
    requires i < |ms|
    ensures MessagesOut(ms[..i + 1]) == MessagesOut(ms[..i]) + MessageOut(ms[i])
  {
    assert ms[..i + 1] == ms[..i] + [ms[i]];
    FlatMapSnoc(MessageOut, ms[..i], ms[i]);
  }

  method TranslateMessages(ms: seq<Anthropic.Msg>) returns (r: Option<seq<OMsg>>)
    ensures r.Some? <==> Readable(ms)
    ensures r.Some? ==> r.value == MessagesOut(ms)
  {
    var out := [];
    assert ms[..0] == [];
    for i := 0 to |ms|
      invariant forall j | 0 <= j < i :: !ms[j].content.Malformed?
      invariant out == MessagesOut(ms[..i])
    {
      if ms[i].content.Malformed? {
        return None;
      }
      var msgs := TranslateMessage(ms[i]);
      MessagesSnoc(ms, i);
      out := out + msgs;
    }
    assert ms[..|ms|] == ms;
    return Some(out);
  }

  method TranslateTools(defs: seq<Anthropic.ToolDef>) returns (tools: seq<OpenAI.Function>)
    ensures |tools| == |defs| && forall i | 0 <= i < |defs| :: tools[i] == FunctionOut(defs[i])
    ensures forall i | 0 <= i < |defs| ::
              && tools[i].typ == "function" && tools[i].name == defs[i].name
              && tools[i].description == defs[i].description && tools[i].parameters == defs[i].inputSchema
  {
    tools := [];
    for i := 0 to |defs|
      invariant |tools| == i && forall j | 0 <= j < i :: tools[j] == FunctionOut(defs[j])
    {
      tools := tools + [OpenAI.Function("function", defs[i].name, defs[i].description, defs[i].inputSchema)];
    }
  }

  /** `anthropicToOpenAI`: fails exactly when some message's content does not decode. */
  method AnthropicToOpenAI(req: Anthropic.Request, model: string) returns (r: Option<OpenAI.ChatRequest>)
    ensures r.Some? <==> Readable(req.messages)
    ensures r.Some? ==>
              var o := r.value;
              && o.messages == SystemOut(req.system) + MessagesOut(req.messages)
              && o.model == model && o.toolChoice == req.toolChoice && o.stop == req.stopSeqs
              && o.maxTokens == req.maxTokens && o.stream == req.stream
              && o.temperature == req.temperature && o.topP == req.topP
              && |o.tools| == |req.tools| && forall i | 0 <= i < |req.tools| :: o.tools[i] == FunctionOut(req.tools[i])
    ensures r.Some? ==> Conversation(req.system, req.messages, r.value.messages)
    ensures r.Some? ==>
              && SaidAs("user", r.value.messages) == AllSayAs("user", req.messages)
              && SaidAs("assistant", r.value.messages) == AllSayAs("assistant", req.messages)
              && SaidAs("system", r.value.messages) == if SystemSays(req.system) == "" then [] else [SystemSays(req.system)]
    ensures r.Some? ==> forall i | 0 <= i < |req.tools| ::
                          && r.value.tools[i].typ == "function" && r.value.tools[i].name == req.tools[i].name
                          && r.value.tools[i].description == req.tools[i].description
                          && r.value.tools[i].parameters == req.tools[i].inputSchema
  {
    var out := [];
    var sys := FlattenTextMaybeBlocks(req.system);
    if sys != "" {
      out := out + [OpenAI.Message("system", sys, [], "")];
    }
    var msgs := TranslateMessages(req.messages);
    if msgs.None? {
      return None;
    }
    out := out + msgs.value;
    RequestConverses(req.system, req.messages);
    ConversationSays("user", req.system, req.messages, out);
    ConversationSays("assistant", req.system, req.messages, out);
    ConversationSays("system", req.system, req.messages, out);
    var tools := TranslateTools(req.tools);
    return Some(OpenAI.ChatRequest(model, out, req.maxTokens, req.temperature, req.topP, req.stream, tools,
                               req.toolChoice, req.stopSeqs));
  }

  // ---------------------------------------------------------------- response

  // How many of the calls before index n had no id of their own.
  function Nameless(calls: seq<OpenAI.ToolCall>): nat {
    if calls == [] then 0 else Nameless(ButLast(calls)) + if Last(calls).id == "" then 1 else 0
  }

  function ReplyTool(c: OpenAI.ToolCall, random: string): Block {
    Anthropic.ToolUse(if c.id == "" then "toolu_" + random else c.id, c.name, OrEmptyObject(c.arguments))
  }

  // Draw 0 is the message id; calls without an id draw 1, 2, ... in order.
  function ReplyTools(calls: seq<OpenAI.ToolCall>, rand: Rand): seq<Block> {
    if calls == [] then []
    else ReplyTools(ButLast(calls), rand) + [ReplyTool(Last(calls), rand(1 + Nameless(ButLast(calls))))]
  }

  function ReplyText(content: string): seq<Block> {
    if Blank(content) then [] else [Anthropic.Text(content)]
  }

  function ReplyContent(resp: OpenAI.ChatResponse, rand: Rand): seq<Block> {
    if resp.choices == [] then []
    else ReplyText(resp.choices[0].message.content) + ReplyTools(resp.choices[0].message.toolCalls, rand)
  }

  function ReplyStop(resp: OpenAI.ChatResponse): string {
    if resp.choices == [] then "end_turn" else Anthropic.MapFinishReason(resp.choices[0].finishReason)
  }

  function Reply(resp: OpenAI.ChatResponse, model: string, rand: Rand): Anthropic.Response {
    Anthropic.Response("msg_" + rand(0), model, ReplyContent(resp, rand), ReplyStop(resp),
                       resp.usage.promptTokens, resp.usage.completionTokens)
  }

  lemma ReplySnoc(calls: seq<OpenAI.ToolCall>, i: nat, rand: Rand)
    requires i < |calls|
    ensures ReplyTools(calls[..i + 1], rand)
            == ReplyTools(calls[..i], rand) + [ReplyTool(calls[i], rand(1 + Nameless(calls[..i])))]
    ensures Nameless(calls[..i + 1]) == Nameless(calls[..i]) + if calls[i].id == "" then 1 else 0
  {
    assert calls[..i + 1] == calls[..i] + [calls[i]];
    SnocParts(calls[..i], calls[i]);
  }

  // The calls before position i that bring no id.
  function NamelessBefore(calls: seq<OpenAI.ToolCall>, i: nat): set<nat>
    requires i <= |calls|
  {
    set j: nat | j < i && calls[j].id == ""
  }

  // A call of a reply as a block: its own id or the next random one, and at least the empty object for arguments.
  predicate IsCallBlock(b: Block, calls: seq<OpenAI.ToolCall>, i: nat, rand: Rand)
    requires i < |calls|
  {
    && b.ToolUse? && b.name == calls[i].name
    && b.id == (if calls[i].id != "" then calls[i].id else "toolu_" + rand(1 + |NamelessBefore(calls, i)|))
    && b.input == if calls[i].arguments != "" then calls[i].arguments else "{}"
  }

  // The first n calls as blocks, in order.
  predicate CallBlocks(bs: seq<Block>, calls: seq<OpenAI.ToolCall>, n: nat, rand: Rand) {
    |bs| == n <= |calls| && forall i: nat | i < n :: IsCallBlock(bs[i], calls, i, rand)
  }

  // The blocks of a reply: its text unless that is all white space, then its calls.
  predicate ReplyBlocks(msg: OMsg, rand: Rand, content: seq<Block>) {
    if Blank(msg.content) then CallBlocks(content, msg.toolCalls, |msg.toolCalls|, rand)
    else content != [] && content[0] == Anthropic.Text(msg.content)
         && CallBlocks(content[1..], msg.toolCalls, |msg.toolCalls|, rand)
  }

  lemma NamelessMore(calls: seq<OpenAI.ToolCall>, i: nat)
    requires i < |calls|
    ensures |NamelessBefore(calls, i + 1)| == |NamelessBefore(calls, i)| + if calls[i].id == "" then 1 else 0
  {
    var before := NamelessBefore(calls, i);
    assert NamelessBefore(calls, i + 1) == if calls[i].id == "" then before + {i} else before;
  }

  lemma {:induction false} NamelessCount(calls: seq<OpenAI.ToolCall>, i: nat, rand: Rand)
    requires i <= |calls|
    ensures |NamelessBefore(calls, i)| == Nameless(calls[..i])
  {
    if i > 0 {
      NamelessCount(calls, i - 1, rand);
      NamelessMore(calls, i - 1);
      ReplySnoc(calls, i - 1, rand);
    }
  }

  lemma CallBlockAt(calls: seq<OpenAI.ToolCall>, i: nat, draw: nat, rand: Rand)
    requires i < |calls| && draw == |NamelessBefore(calls, i)|
    ensures IsCallBlock(ReplyTool(calls[i], rand(1 + draw)), calls, i, rand)
  {
  }

  lemma CallBlocksMore(bs: seq<Block>, b: Block, calls: seq<OpenAI.ToolCall>, n: nat, rand: Rand)
    requires CallBlocks(bs, calls, n, rand) && n < |calls| && IsCallBlock(b, calls, n, rand)
    ensures CallBlocks(bs + [b], calls, n + 1, rand)
  {
  }

  lemma OneCallMore(calls: seq<OpenAI.ToolCall>, n: nat, before: seq<Block>, after: seq<Block>, draw: nat, rand: Rand)
    requires n < |calls| && CallBlocks(before, calls, n, rand) && draw == |NamelessBefore(calls, n)|
    requires after == before + [ReplyTool(calls[n], rand(1 + draw))]
    ensures CallBlocks(after, calls, n + 1, rand)
  {
    CallBlockAt(calls, n, draw, rand);
    CallBlocksMore(before, ReplyTool(calls[n], rand(1 + draw)), calls, n, rand);
  }

  lemma {:induction false} ReplyToolsAre(calls: seq<OpenAI.ToolCall>, n: nat, rand: Rand)
    requires n <= |calls|
    ensures CallBlocks(ReplyTools(calls[..n], rand), calls, n, rand)
  {
    if n > 0 {
      var i := n - 1;
      ReplyToolsAre(calls, i, rand);
      ReplySnoc(calls, i, rand);
      NamelessCount(calls, i, rand);
      OneCallMore(calls, i, ReplyTools(calls[..i], rand), ReplyTools(calls[..n], rand), Nameless(calls[..i]), rand);
    }
  }

  lemma ReplyIs(msg: OMsg, rand: Rand)
    ensures ReplyBlocks(msg, rand, ReplyText(msg.content) + ReplyTools(msg.toolCalls, rand))
  {
    var tools := ReplyTools(msg.toolCalls, rand);
    ReplyToolsAre(msg.toolCalls, |msg.toolCalls|, rand);
    assert msg.toolCalls[..|msg.toolCalls|] == msg.toolCalls;
    assert [] + tools == tools && ([Anthropic.Text(msg.content)] + tools)[1..] == tools;
  }

  // The answer a reply is turned into, field by field.
  predicate Answers(resp: OpenAI.ChatResponse, model: string, rand: Rand, r: Anthropic.Response) {
    && r.id == "msg_" + rand(0) && r.model == model
    && r.inputTokens == resp.usage.promptTokens && r.outputTokens == resp.usage.completionTokens
    && if resp.choices == [] then r.content == [] && r.stopReason == "end_turn"
       else
         && ReplyBlocks(resp.choices[0].message, rand, r.content)
         && r.stopReason == Anthropic.MapFinishReason(resp.choices[0].finishReason)
  }

  lemma ReplyAnswers(resp: OpenAI.ChatResponse, model: string, rand: Rand)
    ensures Answers(resp, model, rand, Reply(resp, model, rand))
  {
    if resp.choices != [] {
      ReplyIs(resp.choices[0].message, rand);
    }
  }

  // The loop over the tool calls of a reply.
  method ReplyCalls(calls: seq<OpenAI.ToolCall>, rand: Rand) returns (content: seq<Block>)
    ensures content == ReplyTools(calls, rand)
  {
    content := [];
    var draws := 1;
    for i := 0 to |calls|
      invariant draws == 1 + Nameless(calls[..i]) && content == ReplyTools(calls[..i], rand)
    {
      ReplySnoc(calls, i, rand);
      var input := calls[i].arguments;
      if |input| == 0 { input := "{}"; }
      var id := calls[i].id;
      if id == "" {
        id := "toolu_" + rand(draws);
        draws := draws + 1;
      }
      content := content + [Anthropic.ToolUse(id, calls[i].name, input)];
    }
    assert calls[..|calls|] == calls;
  }

  method OpenAIToAnthropicResponse(resp: OpenAI.ChatResponse, model: string, rand: Rand) returns (r: Anthropic.Response)
    ensures r == Reply(resp, model, rand)
    ensures Answers(resp, model, rand, r)
  {
    ReplyAnswers(resp, model, rand);
    var id, usage := "msg_" + rand(0), resp.usage;
    if |resp.choices| == 0 {
      return Anthropic.Response(id, model, [], "end_turn", usage.promptTokens, usage.completionTokens);
    }
    var msg := resp.choices[0].message;
    var content := [];
    if !Blank(msg.content) {
      content := content + [Anthropic.Text(msg.content)];
    }
    var tools := ReplyCalls(msg.toolCalls, rand);
    content := content + tools;
    return Anthropic.Response(id, model, content, Anthropic.MapFinishReason(resp.choices[0].finishReason),
                              usage.promptTokens, usage.completionTokens);
  }

  // ---------------------------------------------------------------- tool traffic

  datatype Traffic = Use(id: string, name: string, args: string) | Result(id: string, text: string)

  // The tool calls of an assistant turn, the tool results of a user turn; other blocks carry no traffic.
  function BlockTraffic(role: string, b: Block): seq<Traffic> {
    match b
    case ToolUse(id, name, input) => if role == "assistant" then [Use(id, name, OrEmptyObject(input))] else []
    case ToolResult(id, content, isError) => if role == "user" then [Result(id, ResultText(content, isError))] else []
    case _ => []
  }

  function BlocksTraffic(role: string, blocks: seq<Block>): seq<Traffic> {
    if blocks == [] then [] else BlocksTraffic(role, ButLast(blocks)) + BlockTraffic(role, Last(blocks))
  }

  function TrafficIn(ms: seq<Anthropic.Msg>): seq<Traffic> {
    if ms == [] then [] else TrafficIn(ButLast(ms)) + BlocksTraffic(Last(ms).role, BlocksOf(Last(ms).content))
  }

  function CallsTraffic(calls: seq<OpenAI.ToolCall>): seq<Traffic> {
    if calls == [] then []
    else CallsTraffic(ButLast(calls)) + [Use(Last(calls).id, Last(calls).name, Last(calls).arguments)]
  }

  function MessageTraffic(m: OMsg): seq<Traffic> {
    CallsTraffic(m.toolCalls) + if m.role == "tool" then [Result(m.toolCallId, m.content)] else []
  }

  function TrafficOut(ms: seq<OMsg>): seq<Traffic> {
    FlatMap(MessageTraffic, ms)
  }

  lemma TrafficOutConcat(a: seq<OMsg>, b: seq<OMsg>)
    ensures TrafficOut(a + b) == TrafficOut(a) + TrafficOut(b)
  {
    FlatMapConcat(MessageTraffic, a, b);
  }

  lemma TrafficOutOne(m: OMsg)
    ensures TrafficOut([m]) == MessageTraffic(m)
  {
    FlatMapOne(MessageTraffic, m);
  }

  lemma {:induction false} AssistantTraffic(blocks: seq<Block>)
    ensures CallsTraffic(ToolCalls(blocks)) == BlocksTraffic("assistant", blocks)
  {
    if blocks != [] {
      AssistantTraffic(ButLast(blocks));
      if Last(blocks).ToolUse? {
        assert ButLast(ToolCalls(blocks)) == ToolCalls(ButLast(blocks));
      } else {
        assert ToolCalls(blocks) == ToolCalls(ButLast(blocks));
      }
    }
  }

  lemma {:induction false} ResultTraffic(blocks: seq<Block>)
    ensures TrafficOut(ToolMessages(blocks)) == BlocksTraffic("user", blocks)
  {
    if blocks != [] {
      ResultTraffic(ButLast(blocks));
      if Last(blocks).ToolResult? {
        var m := Last(ToolMessages(blocks));
        assert ButLast(ToolMessages(blocks)) == ToolMessages(ButLast(blocks));
        assert MessageTraffic(m) == CallsTraffic([]) + [Result(m.toolCallId, m.content)];
      } else {
        assert ToolMessages(blocks) == ToolMessages(ButLast(blocks));
      }
    }
  }

  lemma {:induction false} NoTraffic(role: string, blocks: seq<Block>)
    requires role != "user" && role != "assistant"
    ensures BlocksTraffic(role, blocks) == []
  {
    if blocks != [] {
      NoTraffic(role, ButLast(blocks));
    }
  }

  lemma MessageKeepsTraffic(m: Anthropic.Msg)
    ensures TrafficOut(MessageOut(m)) == BlocksTraffic(m.role, BlocksOf(m.content))
  {
    var text, blocks := PlainOf(m.content), BlocksOf(m.content);
    if m.role == "user" {
      var t := UserText(text, blocks);
      ResultTraffic(blocks);
      TrafficOutConcat([OpenAI.Message("user", t, [], "")], ToolMessages(blocks));
      TrafficOutOne(OpenAI.Message("user", t, [], ""));
      assert [] + ToolMessages(blocks) == ToolMessages(blocks);
    } else if m.role == "assistant" {
      AssistantTraffic(blocks);
      TrafficOutOne(AssistantOut(text, blocks));
    } else {
      NoTraffic(m.role, blocks);
    }
  }

  /** Tool calls and tool results come through with ids, names, arguments and texts, in one common order. */
  lemma {:induction false} TrafficKept(ms: seq<Anthropic.Msg>)
    ensures TrafficOut(MessagesOut(ms)) == TrafficIn(ms)
  {
    if ms != [] {
      TrafficKept(ButLast(ms));
      MessageKeepsTraffic(Last(ms));
      TrafficOutConcat(MessagesOut(ButLast(ms)), MessageOut(Last(ms)));
    }
  }

  // Every result is preceded by the call it answers.
  predicate Answered(t: seq<Traffic>) {
    forall j | 0 <= j < |t| && t[j].Result? :: exists i | 0 <= i < j :: t[i].Use? && t[i].id == t[j].id
  }

  /** A request whose results follow their calls is translated to one whose results follow their calls, and only then. */
  lemma AnsweredKept(system: Anthropic.Content, ms: seq<Anthropic.Msg>)
    ensures Answered(TrafficOut(SystemOut(system) + MessagesOut(ms))) <==> Answered(TrafficIn(ms))
  {
    TrafficKept(ms);
    TrafficOutConcat(SystemOut(system), MessagesOut(ms));
    if SystemOut(system) != [] {
      TrafficOutOne(SystemOut(system)[0]);
    }
    assert [] + TrafficIn(ms) == TrafficIn(ms);
  }

  // ---------------------------------------------------------------- reply, then request

  // A tool call as it comes back: an id of its own, arguments at least the empty object.
  function Normalized(calls: seq<OpenAI.ToolCall>, rand: Rand): seq<OpenAI.ToolCall> {
    if calls == [] then []
    else
      var c := Last(calls);
      Normalized(ButLast(calls), rand) +
      [OpenAI.ToolCall(if c.id == "" then "toolu_" + rand(1 + Nameless(ButLast(calls))) else c.id,
                       "function", c.name, OrEmptyObject(c.arguments))]
  }

  lemma {:induction false} ToolsRoundTrip(text: seq<Block>, calls: seq<OpenAI.ToolCall>, rand: Rand)
    requires forall i | 0 <= i < |text| :: text[i].Text?
    ensures ToolCalls(text + ReplyTools(calls, rand)) == Normalized(calls, rand)
    ensures AssistantText("", text + ReplyTools(calls, rand)) == AssistantText("", text)
  {
    if calls == [] {
      assert text + ReplyTools(calls, rand) == text;
      NoCallsInText(text);
    } else {
      ToolsRoundTrip(text, ButLast(calls), rand);
      var before := text + ReplyTools(ButLast(calls), rand);
      var b := Last(ReplyTools(calls, rand));
      assert text + ReplyTools(calls, rand) == before + [b];
      SnocParts(before, b);
    }
  }

  lemma {:induction false} NoCallsInText(text: seq<Block>)
    requires forall i | 0 <= i < |text| :: text[i].Text?
    ensures ToolCalls(text) == []
  {
    if text != [] {
      NoCallsInText(ButLast(text));
    }
  }

  /** Sending a translated reply back, after any history, restores the model's own message up to blank text, missing ids and empty arguments. */
  lemma ReplyRoundTrip(history: seq<Anthropic.Msg>, resp: OpenAI.ChatResponse, model: string, rand: Rand)
    requires resp.choices != []
    ensures
      var msg := resp.choices[0].message;
      var turn := Anthropic.Msg("assistant", Anthropic.Blocks(Reply(resp, model, rand).content));
      MessagesOut(history + [turn])
      == MessagesOut(history) + [OpenAI.Message("assistant", if Blank(msg.content) then "" else msg.content,
                                                Normalized(msg.toolCalls, rand), "")]
  {
    var msg := resp.choices[0].message;
    var text := ReplyText(msg.content);
    ToolsRoundTrip(text, msg.toolCalls, rand);
    FlatMapSnoc(MessageOut, history, Anthropic.Msg("assistant", Anthropic.Blocks(Reply(resp, model, rand).content)));
    if text != [] {
      assert ButLast(text) == [];
    }
  }

  predicate Settled(c: OpenAI.ToolCall) {
    c.id != "" && c.typ == "function" && c.arguments != ""
  }

  /** The calls come back unchanged exactly when each had an id, arguments and the one call type. */
  lemma {:induction false} NormalizedIsIdentity(calls: seq<OpenAI.ToolCall>, rand: Rand)
    ensures (forall i | 0 <= i < |calls| :: Settled(calls[i])) <==> Normalized(calls, rand) == calls
  {
    if calls != [] {
      NormalizedIsIdentity(ButLast(calls), rand);
      var n := Normalized(calls, rand);
      assert ButLast(n) == Normalized(ButLast(calls), rand);
      assert calls == ButLast(calls) + [Last(calls)];
      assert n == ButLast(n) + [Last(n)];
      if n == calls {
        assert Last(n) == Last(calls) && ButLast(n) == ButLast(calls);
      }
      assert (forall i | 0 <= i < |calls| :: Settled(calls[i]))
        <==> (forall i | 0 <= i < |ButLast(calls)| :: Settled(ButLast(calls)[i])) && Settled(Last(calls));
    }
  }
}
