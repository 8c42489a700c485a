/** Nothing a stream carries is lost, invented or misfiled, except argument fragments sent before the tool's name. */
module StreamConservation {
  import opened Common
  import opened OpenAI
  import opened Anthropic
  import opened Stream
  import opened StreamLifecycle

  // ---------------------------------------------------------------- what the input says about one tool

  predicate Mentions(a: Atom, k: int) {
    a.Call? && a.d.key == k
  }

  predicate Called(atoms: seq<Atom>, k: int) {
    exists i | 0 <= i < |atoms| :: Mentions(atoms[i], k)
  }

  function FirstId(atoms: seq<Atom>, k: int): string {
    if atoms == [] then ""
    else
      var id := FirstId(ButLast(atoms), k);
      if id == "" && Mentions(Last(atoms), k) then Last(atoms).d.id else id
  }

  function FirstName(atoms: seq<Atom>, k: int): string {
    if atoms == [] then ""
    else
      var name := FirstName(ButLast(atoms), k);
      if name == "" && Mentions(Last(atoms), k) then Last(atoms).d.name else name
  }

  // All argument fragments of one tool, joined.
  function ArgsOf(atoms: seq<Atom>, k: int): string {
    if atoms == [] then ""
    else ArgsOf(ButLast(atoms), k) + if Mentions(Last(atoms), k) then Last(atoms).d.args else ""
  }

  predicate Names(a: Atom, k: int) {
    Mentions(a, k) && a.d.name != ""
  }

  // Where the tool is first named; the end of the input if it never is.
  function NamePos(atoms: seq<Atom>, k: int): (p: nat)
    ensures p <= |atoms|
    ensures forall i | 0 <= i < p :: !Names(atoms[i], k)
    ensures p < |atoms| ==> Names(atoms[p], k)
  {
    if atoms == [] then 0
    else
      var p := NamePos(ButLast(atoms), k);
      if p < |atoms| - 1 || Names(Last(atoms), k) then p else |atoms|
  }

  // The fragments from the naming delta on.
  function StreamedArgs(atoms: seq<Atom>, k: int): string {
    ArgsOf(atoms[NamePos(atoms, k)..], k)
  }

  lemma StreamedArgsSnoc(atoms: seq<Atom>, a: Atom, k: int)
    ensures StreamedArgs(atoms + [a], k)
            == StreamedArgs(atoms, k) + if Mentions(a, k) && FirstName(atoms + [a], k) != "" then a.d.args else ""
  {
    var all, p := atoms + [a], NamePos(atoms, k);
    SnocParts(atoms, a);
    NamedIffPos(atoms, k);
    if p < |atoms| {
      assert all[p..] == atoms[p..] + [a];
      SnocParts(atoms[p..], a);
    } else if Names(a, k) {
      assert all[p..] == [a] && [a] == [] + [a];
      SnocParts([], a);
      assert atoms[p..] == [];
    } else {
      assert all[NamePos(all, k)..] == [] == atoms[p..];
    }
  }

  lemma {:induction false} NamedIffPos(atoms: seq<Atom>, k: int)
    ensures FirstName(atoms, k) != "" <==> NamePos(atoms, k) < |atoms|
    ensures NamePos(atoms, k) < |atoms| ==> FirstName(atoms, k) == atoms[NamePos(atoms, k)].d.name
  {
    if atoms != [] {
      NamedIffPos(ButLast(atoms), k);
    }
  }

  // ---------------------------------------------------------------- what the machine knows about it

  // The id a tool block is announced with: the first one seen by the time it is named, else a random one.
  ghost predicate AnnouncedId(id: string, atoms: seq<Atom>, k: int, rand: Rand) {
    var p := NamePos(atoms, k);
    p < |atoms| && var known := FirstId(atoms[..p + 1], k);
    if known != "" then id == known else exists n: nat :: id == "toolu_" + rand(n)
  }

  ghost predicate Tracks(t: Tool, atoms: seq<Atom>, k: int, rand: Rand) {
    && t.name == FirstName(atoms, k)
    && t.args == StreamedArgs(atoms, k)
    && (t.started <==> t.name != "")
    && if t.started then AnnouncedId(t.id, atoms, k, rand) else t.id == FirstId(atoms, k)
  }

  lemma StepOther(m: Machine, a: Atom, rand: Rand, k: int)
    requires !Mentions(a, k)
    ensures var m' := Step(m, a, rand);
            (k in m'.tools <==> k in m.tools) && (k in m.tools ==> m'.tools[k] == m.tools[k])
  {
  }

  // One delta as its own tool sees it; n is the draw a missing id would use.
  function Advance(t: Tool, d: ToolDelta, randomId: string): Tool {
    var id := if t.id == "" then d.id else t.id;
    var name := if t.name == "" then d.name else t.name;
    var started := t.started || name != "";
    t.(id := if started && id == "" then randomId else id, name := name, started := started,
       args := if started then t.args + d.args else t.args)
  }

  lemma StepSame(m: Machine, d: ToolDelta, rand: Rand)
    requires d.key in m.tools && m.tools[d.key].started ==> m.tools[d.key].id != "" && m.tools[d.key].name != ""
    ensures
      var t := if d.key in m.tools then m.tools[d.key] else Tool(m.nextIndex, "", "", "", false);
      var m' := Step(m, Call(d), rand);
      d.key in m'.tools && m'.tools[d.key] == Advance(t, d, "toolu_" + rand(m.draws))
  {
  }

  lemma OtherAtom(atoms: seq<Atom>, a: Atom, k: int, t: Tool, rand: Rand)
    requires !Mentions(a, k) && Tracks(t, atoms, k, rand)
    ensures Tracks(t, atoms + [a], k, rand)
  {
    var all, p := atoms + [a], NamePos(atoms, k);
    SnocParts(atoms, a);
    StreamedArgsSnoc(atoms, a, k);
    NamedIffPos(atoms, k);
    if t.started {
      assert all[..p + 1] == atoms[..p + 1];
    }
  }

  lemma OwnAtom(atoms: seq<Atom>, d: ToolDelta, t: Tool, rand: Rand, n: nat)
    requires Tracks(t, atoms, d.key, rand)
    ensures Tracks(Advance(t, d, "toolu_" + rand(n)), atoms + [Call(d)], d.key, rand)
  {
    var k, a := d.key, Call(d);
    var all, p := atoms + [a], NamePos(atoms, k);
    SnocParts(atoms, a);
    StreamedArgsSnoc(atoms, a, k);
    NamedIffPos(atoms, k);
    if t.started {
      assert all[..p + 1] == atoms[..p + 1];
    } else if d.name != "" {
      assert NamePos(all, k) == |atoms| && all[..|atoms| + 1] == all;
    }
  }

  // The tool's entry, or the blank one it starts from.
  function Entry(m: Machine, k: int): Tool {
    if k in m.tools then m.tools[k] else Tool(m.nextIndex, "", "", "", false)
  }

  lemma {:induction false} ToolHistory(atoms: seq<Atom>, rand: Rand, k: int)
    ensures k in Feed(atoms, rand).tools <==> Called(atoms, k)
    ensures Tracks(Entry(Feed(atoms, rand), k), atoms, k, rand)
  {
    if atoms != [] {
      var m, a := Feed(ButLast(atoms), rand), Last(atoms);
      ToolHistory(ButLast(atoms), rand, k);
      assert atoms == ButLast(atoms) + [a];
      if Mentions(a, k) {
        Reachable(ButLast(atoms), rand, 0);
        StepSame(m, a.d, rand);
        OwnAtom(ButLast(atoms), a.d, Entry(m, k), rand, m.draws);
        assert Mentions(atoms[|atoms| - 1], k);
      } else {
        StepOther(m, a, rand, k);
        OtherAtom(ButLast(atoms), a, k, Entry(m, k), rand);
      }
    }
  }

  // ---------------------------------------------------------------- text

  // Everything the stream says, in order.
  function Said(atoms: seq<Atom>): string {
    if atoms == [] then "" else Said(ButLast(atoms)) + if Last(atoms).Say? then Last(atoms).text else ""
  }

  // All text deltas of a trace, whatever their block.
  function TextOf(tr: seq<Event>): string {
    if tr == [] then ""
    else TextOf(ButLast(tr)) + if Last(tr).BlockDelta? && Last(tr).delta.TextDelta? then Last(tr).delta.text else ""
  }

  lemma TextSnoc(tr: seq<Event>, e: Event)
    ensures TextOf(tr + [e])
            == TextOf(tr) + if e.BlockDelta? && e.delta.TextDelta? then e.delta.text else ""
  {
    SnocParts(tr, e);
  }

  lemma {:induction false} TextOfNoText(tr: seq<Event>, more: seq<Event>)
    requires forall i | 0 <= i < |more| :: !(more[i].BlockDelta? && more[i].delta.TextDelta?)
    ensures TextOf(tr + more) == TextOf(tr)
  {
    if more == [] {
      assert tr + more == tr;
    } else {
      TextOfNoText(tr, ButLast(more));
      assert tr + more == (tr + ButLast(more)) + [Last(more)];
      TextSnoc(tr + ButLast(more), Last(more));
    }
  }

  lemma TextStepText(m: Machine, text: string)
    ensures TextOf(OnText(m, text).out) == TextOf(m.out) + text
  {
    if text != "" {
      if m.textOpen {
        TextSnoc(m.out, BlockDelta(m.textIndex, TextDelta(text)));
      } else {
        TextSnoc(m.out, BlockStart(m.nextIndex, TextHead));
        TextSnoc(m.out + [BlockStart(m.nextIndex, TextHead)], BlockDelta(m.nextIndex, TextDelta(text)));
      }
    }
  }

  lemma AdmitSaysNothing(m: Machine, d: ToolDelta)
    ensures TextOf(Admit(m, d).out) == TextOf(m.out)
  {
    TextSnoc(m.out, BlockStop(m.textIndex));
  }

  lemma OpenSaysNothing(m: Machine, key: int, rand: Rand)
    requires key in m.tools
    ensures TextOf(Open(m, key, rand).out) == TextOf(m.out)
  {
    var t := m.tools[key];
    TextSnoc(m.out, BlockStart(t.index, ToolHead(Open(m, key, rand).tools[key].id, t.name)));
  }

  lemma AppendSaysNothing(m: Machine, d: ToolDelta)
    requires d.key in m.tools
    ensures TextOf(Append(m, d).out) == TextOf(m.out)
  {
    TextSnoc(m.out, BlockDelta(m.tools[d.key].index, JsonDelta(d.args)));
  }

  lemma ToolSaysNothing(m: Machine, d: ToolDelta, rand: Rand)
    ensures TextOf(OnTool(m, d, rand).out) == TextOf(m.out)
  {
    var m1 := Fill(Admit(m, d), d);
    AdmitSaysNothing(m, d);
    OpenSaysNothing(m1, d.key, rand);
    AppendSaysNothing(Open(m1, d.key, rand), d);
  }

  lemma {:induction false} TextHistory(atoms: seq<Atom>, rand: Rand)
    ensures TextOf(Feed(atoms, rand).out) == Said(atoms)
  {
    if atoms != [] {
      var m := Feed(ButLast(atoms), rand);
      TextHistory(ButLast(atoms), rand);
      match Last(atoms)
      case Say(text) => TextStepText(m, text);
      case Call(d) => ToolSaysNothing(m, d, rand);
    }
  }
}
