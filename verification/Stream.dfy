/** The streaming translator: OpenAI delta lines in, Anthropic block events out. */
module Stream {
  import opened Common
  import opened OpenAI
  import opened Anthropic

  // ---------------------------------------------------------------- events

  datatype Head = TextHead | ToolHead(id: string, name: string)

  datatype Delta = TextDelta(text: string) | JsonDelta(json: string)

  datatype Event =
    | MessageStart(id: string, model: string)
    | BlockStart(index: int, head: Head)
    | BlockDelta(index: int, delta: Delta)
    | BlockStop(index: int)
    | MessageDelta(stopReason: string, usage: Usage)
    | MessageStop

  predicate IsBlockEvent(e: Event) {
    e.BlockStart? || e.BlockDelta? || e.BlockStop?
  }

  // ---------------------------------------------------------------- the machine

  datatype Tool = Tool(index: int, id: string, name: string, args: string, started: bool)

  datatype Machine = Machine(textIndex: int, textOpen: bool, tools: map<int, Tool>, nextIndex: nat,
                             draws: nat, out: seq<Event>)

  // The k-th random identifier drawn; draw 0 is spent on the message id.
  type Rand = nat -> string

  const Idle := Machine(-1, false, map[], 0, 1, [])

  function OnText(m: Machine, text: string): Machine {
    if text == "" then m
    else if m.textOpen then
      m.(out := m.out + [BlockDelta(m.textIndex, TextDelta(text))])
    else
      m.(textIndex := m.nextIndex, textOpen := true, nextIndex := m.nextIndex + 1,
         out := m.out + [BlockStart(m.nextIndex, TextHead)] + [BlockDelta(m.nextIndex, TextDelta(text))])
  }

  // First sight of a tool call: close the text block, allocate an index.
  function Admit(m: Machine, d: ToolDelta): Machine {
    if d.key in m.tools then m
    else
      var m1 := if m.textOpen then m.(textOpen := false, out := m.out + [BlockStop(m.textIndex)]) else m;
      m1.(tools := m1.tools[d.key := Tool(m1.nextIndex, d.id, d.name, "", false)], nextIndex := m1.nextIndex + 1)
  }

  // A later delta may supply a missing id or name.
  function Fill(m: Machine, d: ToolDelta): Machine
    requires d.key in m.tools
  {
    var t := m.tools[d.key];
    var t1 := if d.id != "" && t.id == "" then t.(id := d.id) else t;
    var t2 := if d.name != "" && t1.name == "" then t1.(name := d.name) else t1;
    m.(tools := m.tools[d.key := t2])
  }

  function Open(m: Machine, key: int, rand: Rand): Machine
    requires key in m.tools
  {
    var t := m.tools[key];
    if t.started || t.name == "" then m
    else
      var id := if t.id == "" then "toolu_" + rand(m.draws) else t.id;
      m.(tools := m.tools[key := t.(id := id, started := true)],
         draws := if t.id == "" then m.draws + 1 else m.draws,
         out := m.out + [BlockStart(t.index, ToolHead(id, t.name))])
  }

  function Append(m: Machine, d: ToolDelta): Machine
    requires d.key in m.tools
  {
    var t := m.tools[d.key];
    if d.args == "" || !t.started then m
    else
      m.(tools := m.tools[d.key := t.(args := t.args + d.args)],
         out := m.out + [BlockDelta(t.index, JsonDelta(d.args))])
  }

  function OnTool(m: Machine, d: ToolDelta, rand: Rand): Machine {
    Append(Open(Fill(Admit(m, d), d), d.key, rand), d)
  }

  function Step(m: Machine, a: Atom, rand: Rand): Machine {
    match a
    case Say(text) => OnText(m, text)
    case Call(d) => OnTool(m, d, rand)
  }

  // The machine after the atoms of a stream, oldest first.
  function Feed(atoms: seq<Atom>, rand: Rand): Machine {
    if atoms == [] then Idle else Step(Feed(ButLast(atoms), rand), Last(atoms), rand)
  }

  lemma FeedSnoc(atoms: seq<Atom>, a: Atom, rand: Rand)
    ensures Feed(atoms + [a], rand) == Step(Feed(atoms, rand), a, rand)
  {
    SnocParts(atoms, a);
  }

  // ---------------------------------------------------------------- the whole trace

  ghost predicate IsCloseOrder(m: Machine, order: seq<int>) {
    && (forall k :: k in order <==> k in m.tools && m.tools[k].started)
    && (forall i, j | 0 <= i < j < |order| :: order[i] != order[j])
  }

  function CloseText(m: Machine): seq<Event> {
    if m.textOpen then [BlockStop(m.textIndex)] else []
  }

  function CloseTools(m: Machine, order: seq<int>): seq<Event>
    requires forall k | k in order :: k in m.tools
  {
    if order == [] then [] else var k := Last(order); assert k in order; CloseTools(m, ButLast(order)) + [BlockStop(m.tools[k].index)]
  }

  // The stop events written when the input ends, for one order of the tool table.
  function Closing(m: Machine, order: seq<int>): seq<Event>
    requires forall k | k in order :: k in m.tools
  {
    CloseText(m) + CloseTools(m, order)
  }

  function Frame(first: Event, body: seq<Event>, last: seq<Event>): seq<Event> {
    [first] + body + last
  }

  ghost function Trace(lines: seq<Line>, model: string, rand: Rand, order: seq<int>): seq<Event>
    requires IsCloseOrder(Feed(Atoms(lines), rand), order)
  {
    var m := Feed(Atoms(lines), rand);
    Frame(MessageStart("msg_" + rand(0), model), m.out + Closing(m, order),
          [MessageDelta(MapFinishReason(FinishOf(lines)), UsageOf(lines)), MessageStop])
  }
}
