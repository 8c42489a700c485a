/** What must hold of a stream, any stream, for its reading to equal the one-shot translation; and streams for which it fails. */
module StreamDifferences {
  import opened Common
  import opened OpenAI
  import opened Anthropic
  import opened Stream
  import opened StreamLifecycle
  import opened StreamConservation
  import opened StreamTheorems
  import opened StreamRefinement
  import opened SortedKeys
  import Translate

  // ---------------------------------------------------------------- counting tool blocks

  function ToolBlocks(bs: seq<ContentBlock>): nat {
    if bs == [] then 0 else ToolBlocks(ButLast(bs)) + if Last(bs).ToolUse? then 1 else 0
  }

  function ToolsIn(l: seq<Slot>): nat {
    if l == [] then 0 else ToolsIn(ButLast(l)) + if Last(l).ToolSlot? then 1 else 0
  }

  lemma {:induction false} ToolBlocksAll(text: seq<ContentBlock>, tools: seq<ContentBlock>)
    requires forall i | 0 <= i < |tools| :: tools[i].ToolUse?
    ensures ToolBlocks(text + tools) == ToolBlocks(text) + |tools|
  {
    if tools == [] {
      assert text + tools == text;
    } else {
      ToolBlocksAll(text, ButLast(tools));
      ConcatParts(text, tools);
      assert tools[|tools| - 1].ToolUse?;
    }
  }

  lemma {:induction false} BatchTools(atoms: seq<Atom>, ks: seq<int>, rand: Rand)
    ensures var tools := Translate.ReplyTools(WholeCalls(atoms, ks), rand);
            |tools| == |ks| && forall i | 0 <= i < |tools| :: tools[i].ToolUse?
  {
    if ks != [] {
      BatchTools(atoms, ButLast(ks), rand);
      SnocParts(WholeCalls(atoms, ButLast(ks)), WholeCall(atoms, Last(ks)));
    }
  }

  lemma {:induction false} SortedSize(ks: set<int>)
    ensures |Sorted(ks)| == |ks|
  {
    if ks != {} {
      var x := Last(Sorted(ks));
      assert exists x :: IsMax(x, ks) by { var m := MaxExists(ks); }
      SortedSize(ks - {x});
    }
  }

  lemma {:induction false} OrderSize(atoms: seq<Atom>)
    ensures |Elements(OrderOf(atoms))| == |OrderOf(atoms)| == ToolsIn(Layout(atoms))
  {
    if atoms != [] {
      var before, a := ButLast(atoms), Last(atoms);
      OrderSize(before);
      var l, ks := Layout(before), OrderOf(before);
      match a
      case Say(text) =>
        if text != "" {
          if l != [] && Last(l).TextSlot? { SnocParts(ButLast(l), TextSlot(Last(l).text + text)); } else { SnocParts(l, TextSlot(text)); }
        }
      case Call(d) =>
        OrderIsCalls(before, d.key);
        SlotsAreCalls(before, d.key);
        SnocParts(l, ToolSlot(d.key));
        assert Elements(ks + [d.key]) == Elements(ks) + {d.key};
    }
  }

  // Every tool mentioned, once.
  function CallKeys(atoms: seq<Atom>): set<int> {
    Elements(OrderOf(atoms))
  }

  lemma BatchToolCount(atoms: seq<Atom>, rand: Rand)
    ensures var tools := Translate.ReplyTools(WholeCalls(atoms, Sorted(CallKeys(atoms))), rand);
            |tools| == ToolsIn(Layout(atoms)) && forall i | 0 <= i < |tools| :: tools[i].ToolUse?
  {
    BatchTools(atoms, Sorted(CallKeys(atoms)), rand);
    SortedSize(CallKeys(atoms));
    OrderSize(atoms);
  }

  lemma NoToolInText(content: string)
    ensures ToolBlocks(Translate.ReplyText(content)) == 0
  {
    assert ButLast([Text(content)]) == [];
  }

  // The one-shot content: at most one text block, then one tool block for every tool mentioned.
  lemma BatchShape(lines: seq<Line>, rand: Rand) returns (text: seq<ContentBlock>, tools: seq<ContentBlock>)
    ensures Translate.ReplyContent(Accumulated(lines), rand) == text + tools && text == Translate.ReplyText(Said(Atoms(lines)))
    ensures |tools| == ToolsIn(Layout(Atoms(lines))) && forall i | 0 <= i < |tools| :: tools[i].ToolUse?
    ensures ToolBlocks(text + tools) == |tools|
  {
    var atoms := Atoms(lines);
    text, tools := Translate.ReplyText(Said(atoms)), Translate.ReplyTools(WholeCalls(atoms, Sorted(CallKeys(atoms))), rand);
    BatchToolCount(atoms, rand);
    ToolBlocksAll(text, tools);
    NoToolInText(Said(atoms));
  }

  // ---------------------------------------------------------------- the client's blocks, slot by slot

  // What index i shows, if anything, is of its slot's kind.
  predicate OfKind(tr: seq<Event>, i: int, s: Slot) {
    At(tr, i) != [] ==> if s.ToolSlot? then BlockOf(At(tr, i)).ToolUse? else BlockOf(At(tr, i)).Text?
  }

  lemma SlotKind(lines: seq<Line>, model: string, rand: Rand, order: seq<int>, i: int)
    requires IsCloseOrder(Feed(Atoms(lines), rand), order) && 0 <= i < |Layout(Atoms(lines))|
    ensures OfKind(Trace(lines, model, rand, order), i, Layout(Atoms(lines))[i])
  {
    StreamAt(lines, model, rand, order, i);
    if At(Trace(lines, model, rand, order), i) != [] {
      KindOfSettled(At(Trace(lines, model, rand, order), i), Feed(Atoms(lines), rand), Layout(Atoms(lines)), i);
    }
  }

  lemma KindOfSettled(view: seq<Event>, m: Machine, l: seq<Slot>, i: int)
    requires 0 <= i < |l| && Settled(view, m, l, i) && view != []
    ensures if l[i].ToolSlot? then BlockOf(view).ToolUse? else BlockOf(view).Text?
  {
    match l[i]
    case TextSlot(_) => RunningHead(ButLast(view), TextHead);
    case ToolSlot(k) => RunningHead(ButLast(view), ToolHead(m.tools[k].id, m.tools[k].name));
  }

  lemma ToolBlocksSnoc(bs: seq<ContentBlock>, b: ContentBlock)
    ensures ToolBlocks(bs + [b]) == ToolBlocks(bs) + if b.ToolUse? then 1 else 0
  {
    SnocParts(bs, b);
  }

  lemma ToolsInPrefix(l: seq<Slot>, n: nat)
    requires 0 < n <= |l|
    ensures ToolsIn(l[..n]) == ToolsIn(l[..n - 1]) + if l[n - 1].ToolSlot? then 1 else 0
  {
    assert ButLast(l[..n]) == l[..n - 1];
  }

  // A tool slot that the trace shows nothing for.
  predicate Missing(tr: seq<Event>, s: Slot, i: int) {
    s.ToolSlot? && At(tr, i) == []
  }

  lemma ClientToolsStep(tr: seq<Event>, l: seq<Slot>, n: nat)
    requires 0 < n <= |l| && OfKind(tr, n - 1, l[n - 1])
    ensures ToolBlocks(ContentUpTo(tr, n)) - ToolBlocks(ContentUpTo(tr, n - 1))
            == ToolsIn(l[..n]) - ToolsIn(l[..n - 1]) - if Missing(tr, l[n - 1], n - 1) then 1 else 0
  {
    var before := ContentUpTo(tr, n - 1);
    ToolsInPrefix(l, n);
    if At(tr, n - 1) == [] {
      assert before + [] == before;
    } else {
      ToolBlocksSnoc(before, BlockOf(At(tr, n - 1)));
    }
  }

  // How many tool slots below n the trace shows nothing for.
  function MissingBelow(tr: seq<Event>, l: seq<Slot>, n: nat): nat
    requires n <= |l|
  {
    if n == 0 then 0 else MissingBelow(tr, l, n - 1) + if Missing(tr, l[n - 1], n - 1) then 1 else 0
  }

  lemma {:induction false} MissingCounts(tr: seq<Event>, l: seq<Slot>, n: nat, i: nat)
    requires i < n <= |l| && Missing(tr, l[i], i)
    ensures MissingBelow(tr, l, n) > 0
  {
    if i < n - 1 {
      MissingCounts(tr, l, n - 1, i);
    }
  }

  lemma ClientToolsMore(tr: seq<Event>, l: seq<Slot>, n: nat)
    requires 0 < n <= |l| && OfKind(tr, n - 1, l[n - 1])
    requires ToolBlocks(ContentUpTo(tr, n - 1)) + MissingBelow(tr, l, n - 1) == ToolsIn(l[..n - 1])
    ensures ToolBlocks(ContentUpTo(tr, n)) + MissingBelow(tr, l, n) == ToolsIn(l[..n])
  {
    ClientToolsStep(tr, l, n);
  }

  // OfKind for every slot below n.
  predicate KindsBelow(tr: seq<Event>, l: seq<Slot>, n: nat)
    requires n <= |l|
  {
    n == 0 || (KindsBelow(tr, l, n - 1) && OfKind(tr, n - 1, l[n - 1]))
  }

  lemma {:induction false} AllKinds(tr: seq<Event>, l: seq<Slot>, n: nat)
    requires n <= |l| && forall i | 0 <= i < |l| :: OfKind(tr, i, l[i])
    ensures KindsBelow(tr, l, n)
  {
    if n > 0 {
      AllKinds(tr, l, n - 1);
    }
  }

  lemma {:induction false} ClientTools(tr: seq<Event>, l: seq<Slot>, n: nat)
    requires n <= |l| && KindsBelow(tr, l, n)
    ensures ToolBlocks(ContentUpTo(tr, n)) + MissingBelow(tr, l, n) == ToolsIn(l[..n])
  {
    if n == 0 {
      assert l[..0] == [];
    } else {
      ClientTools(tr, l, n - 1);
      ClientToolsMore(tr, l, n);
    }
  }

  lemma {:induction false} ContentPast(tr: seq<Event>, b: nat, n: nat)
    requires b <= n && forall i | b <= i < n :: At(tr, i) == []
    ensures ContentUpTo(tr, n) == ContentUpTo(tr, b)
  {
    if b < n {
      ContentPast(tr, b, n - 1);
    }
  }

  lemma ContentAll(tr: seq<Event>, n: nat)
    requires forall i | n <= i :: At(tr, i) == []
    ensures ClientContent(tr) == ContentUpTo(tr, n)
  {
    BoundIsTight(tr, 0);
    forall i | Bound(tr) <= i < n ensures At(tr, i) == [] {
      BoundIsTight(tr, i);
    }
    ContentPast(tr, Bound(tr), n);
  }

  lemma ClientUpTo(lines: seq<Line>, model: string, rand: Rand, order: seq<int>)
    requires IsCloseOrder(Feed(Atoms(lines), rand), order)
    ensures var tr := Trace(lines, model, rand, order);
            ClientContent(tr) == ContentUpTo(tr, |Layout(Atoms(lines))|)
  {
    forall i | |Layout(Atoms(lines))| <= i ensures At(Trace(lines, model, rand, order), i) == [] {
      UsedIndex(lines, model, rand, order, i);
    }
    ContentAll(Trace(lines, model, rand, order), |Layout(Atoms(lines))|);
  }

  lemma {:induction false} UsedContent(tr: seq<Event>, n: nat, i: nat)
    requires i < n && forall j | 0 <= j < n :: At(tr, j) != []
    ensures |ContentUpTo(tr, n)| == n && ContentUpTo(tr, n)[i] == BlockOf(At(tr, i))
  {
    if n > 1 {
      UsedContent(tr, n - 1, if i < n - 1 then i else 0);
    }
  }

  // ---------------------------------------------------------------- what equality needs

  lemma ClientToolsOf(lines: seq<Line>, model: string, rand: Rand, order: seq<int>, i: int)
    requires IsCloseOrder(Feed(Atoms(lines), rand), order) && 0 <= i < |Layout(Atoms(lines))|
    ensures
      var content, l := ClientContent(Trace(lines, model, rand, order)), Layout(Atoms(lines));
      ToolBlocks(content) <= ToolsIn(l) && (!Used(Atoms(lines), i) ==> ToolBlocks(content) < ToolsIn(l))
  {
    var tr, l := Trace(lines, model, rand, order), Layout(Atoms(lines));
    forall j | 0 <= j < |l| ensures OfKind(tr, j, l[j]) {
      SlotKind(lines, model, rand, order, j);
    }
    AllKinds(tr, l, |l|);
    ClientUpTo(lines, model, rand, order);
    UsedIndex(lines, model, rand, order, i);
    ClientTools(tr, l, |l|);
    assert l[..|l|] == l;
    if Missing(tr, l[i], i) {
      MissingCounts(tr, l, |l|, i);
    }
  }

  lemma AllNamed(lines: seq<Line>, model: string, rand: Rand, order: seq<int>, other: Rand)
    requires IsCloseOrder(Feed(Atoms(lines), rand), order)
    requires ClientContent(Trace(lines, model, rand, order)) == Translate.ReplyContent(Accumulated(lines), other)
    ensures forall i | 0 <= i < |Layout(Atoms(lines))| :: Used(Atoms(lines), i)
  {
    var text, tools := BatchShape(lines, other);
    forall i | 0 <= i < |Layout(Atoms(lines))| ensures Used(Atoms(lines), i) {
      ClientToolsOf(lines, model, rand, order, i);
    }
  }

  // Block i of the client's content is of slot i's kind when every slot is used.
  lemma BlockKind(lines: seq<Line>, model: string, rand: Rand, order: seq<int>, i: nat)
    requires IsCloseOrder(Feed(Atoms(lines), rand), order)
    requires i < |Layout(Atoms(lines))| && forall j | 0 <= j < |Layout(Atoms(lines))| :: Used(Atoms(lines), j)
    ensures var c := ClientContent(Trace(lines, model, rand, order));
            |c| == |Layout(Atoms(lines))| && (c[i].Text? <==> Layout(Atoms(lines))[i].TextSlot?)
  {
    var tr, n := Trace(lines, model, rand, order), |Layout(Atoms(lines))|;
    forall j | 0 <= j < n ensures At(tr, j) != [] {
      UsedIndex(lines, model, rand, order, j);
    }
    ClientUpTo(lines, model, rand, order);
    UsedContent(tr, n, i);
    SlotKind(lines, model, rand, order, i);
  }

  // No text among the tools.
  lemma NoLateText(content: seq<ContentBlock>, text: seq<ContentBlock>, tools: seq<ContentBlock>, i: nat)
    requires content == text + tools && |text| <= i < |content| && forall j | 0 <= j < |tools| :: tools[j].ToolUse?
    ensures !content[i].Text?
  {
    assert content[i] == tools[i - |text|];
  }

  lemma NoTextAt(lines: seq<Line>, model: string, rand: Rand, order: seq<int>, other: Rand, i: nat)
    requires IsCloseOrder(Feed(Atoms(lines), rand), order)
    requires ClientContent(Trace(lines, model, rand, order)) == Translate.ReplyContent(Accumulated(lines), other)
    requires |Translate.ReplyText(Said(Atoms(lines)))| <= i < |Layout(Atoms(lines))|
    ensures !Layout(Atoms(lines))[i].TextSlot?
  {
    AllNamed(lines, model, rand, order, other);
    var text, tools := BatchShape(lines, other);
    BlockKind(lines, model, rand, order, i);
    NoLateText(ClientContent(Trace(lines, model, rand, order)), text, tools, i);
  }

  /** For every stream, in good order or not: if its reading equals the one-shot translation, whatever random ids either
      draws, then every tool is named, no text follows a tool call, and the text is empty or not all white space. */
  lemma EqualContentsNeed(lines: seq<Line>, model: string, rand: Rand, order: seq<int>, other: Rand)
    requires IsCloseOrder(Feed(Atoms(lines), rand), order)
    requires ClientContent(Trace(lines, model, rand, order)) == Translate.Reply(Accumulated(lines), model, other).content
    ensures forall k | Called(Atoms(lines), k) :: FirstName(Atoms(lines), k) != ""
    ensures TextFirst(Atoms(lines)) && (Said(Atoms(lines)) == "" || !Blank(Said(Atoms(lines))))
  {
    var atoms := Atoms(lines);
    AllNamed(lines, model, rand, order, other);
    AllUsedIffNamed(atoms);
    if !TextFirst(atoms) {
      LateTextLayout(atoms);
      var i :| 1 <= i < |Layout(atoms)| && Layout(atoms)[i].TextSlot?;
      NoTextAt(lines, model, rand, order, other, i);
    } else if Said(atoms) != "" && Blank(Said(atoms)) {
      TextFirstLayout(atoms);
      NoTextAt(lines, model, rand, order, other, 0);
    }
  }

  // ---------------------------------------------------------------- streams for which it fails

  function Saying(text: string): Line {
    Data(Chunk([StreamChoice(text, [], "")], None))
  }

  function Calling(d: ToolDelta): Line {
    Data(Chunk([StreamChoice("", [d], "")], None))
  }

  lemma AtomsOfOne(line: Line)
    requires line.Data?
    ensures Live([line]) == [line] && Atoms([line]) == LineAtoms(line)
  {
    assert [line][1..] == [];
    assert Live([line]) == [line] + Live([]) == [line];
    FlatMapOne(LineAtoms, line);
  }

  lemma AtomsOfTwo(a: Line, b: Line)
    requires a.Data? && b.Data?
    ensures Atoms([a, b]) == LineAtoms(a) + LineAtoms(b)
  {
    AtomsOfOne(a);
    AtomsOfOne(b);
    assert [a, b][1..] == [b];
    assert Live([a, b]) == [a] + Live([b]) == [a] + [b];
    FlatMapSnoc(LineAtoms, [a], b);
  }

  const WEATHER := ToolDelta(0, "id", "weather", "{}")

  const LATE := [Calling(WEATHER), Saying("hi")]

  lemma LateAtoms()
    ensures Atoms(LATE) == [Say(""), Call(WEATHER), Say("hi")] && !TextFirst(Atoms(LATE))
  {
    AtomsOfTwo(Calling(WEATHER), Saying("hi"));
    var atoms := Atoms(LATE);
    assert atoms == [Say(""), Call(WEATHER)] + [Say("hi")];
    assert atoms[1].Call? && atoms[2].Say? && atoms[2].text != "";
  }

  /** Text after a tool call, as in LATE: the client has a block of text behind a tool's. */
  lemma LateTextFails(lines: seq<Line>, model: string, rand: Rand, order: seq<int>, other: Rand)
    requires IsCloseOrder(Feed(Atoms(lines), rand), order) && !TextFirst(Atoms(lines))
    ensures ClientContent(Trace(lines, model, rand, order)) != Translate.Reply(Accumulated(lines), model, other).content
  {
    if ClientContent(Trace(lines, model, rand, order)) == Translate.Reply(Accumulated(lines), model, other).content {
      EqualContentsNeed(lines, model, rand, order, other);
    }
  }

  const BLANK := [Saying(" ")]

  lemma SaidOne(text: string)
    ensures Said([Say(text)]) == text
  {
    assert [Say(text)] == [] + [Say(text)] && "" + text == text;
    SnocParts([], Say(text));
  }

  lemma BlankSaid()
    ensures Said(Atoms(BLANK)) == " "
  {
    AtomsOfOne(Saying(" "));
    assert LineAtoms(Saying(" ")) == [Say(" ")];
    SaidOne(" ");
  }

  /** Nothing but white space, as in BLANK: the client has a block that the one-shot translator leaves out. */
  lemma BlankTextFails(lines: seq<Line>, model: string, rand: Rand, order: seq<int>, other: Rand)
    requires IsCloseOrder(Feed(Atoms(lines), rand), order) && Said(Atoms(lines)) != "" && Blank(Said(Atoms(lines)))
    ensures ClientContent(Trace(lines, model, rand, order)) != Translate.Reply(Accumulated(lines), model, other).content
  {
    if ClientContent(Trace(lines, model, rand, order)) == Translate.Reply(Accumulated(lines), model, other).content {
      EqualContentsNeed(lines, model, rand, order, other);
    }
  }

  // What one more atom adds to what is known of a tool.
  lemma KnownSnoc(atoms: seq<Atom>, a: Atom, k: int)
    ensures FirstId(atoms + [a], k) == if FirstId(atoms, k) == "" && Mentions(a, k) then a.d.id else FirstId(atoms, k)
    ensures FirstName(atoms + [a], k) == if FirstName(atoms, k) == "" && Mentions(a, k) then a.d.name else FirstName(atoms, k)
    ensures ArgsOf(atoms + [a], k) == ArgsOf(atoms, k) + if Mentions(a, k) then a.d.args else ""
  {
    SnocParts(atoms, a);
  }

  // The atoms of one tool's two deltas, a line each.
  function TwoDeltas(c: ToolDelta, d: ToolDelta): seq<Atom> {
    [Say(""), Call(c), Say(""), Call(d)]
  }

  lemma TwoCalls(c: ToolDelta, d: ToolDelta)
    ensures Atoms([Calling(c), Calling(d)]) == TwoDeltas(c, d)
  {
    AtomsOfTwo(Calling(c), Calling(d));
    assert LineAtoms(Calling(c)) == [Say(""), Call(c)] && LineAtoms(Calling(d)) == [Say(""), Call(d)];
  }

  lemma FirstDelta(c: ToolDelta)
    ensures FirstId([Say(""), Call(c)], c.key) == c.id && FirstName([Say(""), Call(c)], c.key) == c.name
    ensures ArgsOf([Say(""), Call(c)], c.key) == c.args
  {
    var said: seq<Atom> := [Say("")];
    assert said == [] + [Say("")] && [Say(""), Call(c)] == said + [Call(c)] && "" + c.args == c.args;
    KnownSnoc([], Say(""), c.key);
    KnownSnoc(said, Call(c), c.key);
  }

  lemma TwoDeltasKnow(c: ToolDelta, d: ToolDelta)
    requires c.key == d.key
    ensures var atoms := TwoDeltas(c, d);
            && FirstId(atoms, c.key) == (if c.id == "" then d.id else c.id)
            && FirstName(atoms, c.key) == (if c.name == "" then d.name else c.name)
            && ArgsOf(atoms[..3], c.key) == c.args && FirstId(atoms[..2], c.key) == c.id
  {
    var atoms := TwoDeltas(c, d);
    FirstDelta(c);
    assert atoms[..2] == [Say(""), Call(c)] && atoms[..3] == atoms[..2] + [Say("")] && atoms == atoms[..3] + [Call(d)];
    KnownSnoc(atoms[..2], Say(""), c.key);
    assert c.args + "" == c.args;
    KnownSnoc(atoms[..3], Call(d), c.key);
  }

  lemma TwoDeltasNamed(c: ToolDelta, d: ToolDelta)
    requires c.key == d.key
    ensures Called(TwoDeltas(c, d), c.key)
    ensures c.name != "" ==> NamePos(TwoDeltas(c, d), c.key) == 1
    ensures c.name == "" && d.name != "" ==> NamePos(TwoDeltas(c, d), c.key) == 3
  {
    var atoms := TwoDeltas(c, d);
    assert Mentions(atoms[1], c.key) && !Names(atoms[0], c.key) && !Names(atoms[2], c.key);
    assert Names(atoms[1], c.key) <==> c.name != "";
    assert Names(atoms[3], c.key) <==> d.name != "";
  }

  const EARLY_ARGS := ToolDelta(0, "id", "", "x")

  const NAME_LAST := ToolDelta(0, "", "weather", "y")

  const EARLY := [Calling(EARLY_ARGS), Calling(NAME_LAST)]

  lemma EarlyFacts()
    ensures var atoms := Atoms(EARLY);
            Called(atoms, 0) && NamePos(atoms, 0) <= |atoms| && ArgsOf(atoms[..NamePos(atoms, 0)], 0) == "x"
  {
    TwoCalls(EARLY_ARGS, NAME_LAST);
    TwoDeltasKnow(EARLY_ARGS, NAME_LAST);
    TwoDeltasNamed(EARLY_ARGS, NAME_LAST);
  }

  /** A fragment before the tool's name, as in EARLY: the tool's block is not all its arguments. */
  lemma EarlyArgumentLost(lines: seq<Line>, model: string, rand: Rand, order: seq<int>, k: int)
    requires IsCloseOrder(Feed(Atoms(lines), rand), order) && Called(Atoms(lines), k)
    requires ArgsOf(Atoms(lines)[..NamePos(Atoms(lines), k)], k) != ""
    ensures Payload(At(Trace(lines, model, rand, order), BlockIndex(Atoms(lines), k))) != ArgsOf(Atoms(lines), k)
  {
    ArgumentsKept(lines, model, rand, order, k);
  }

  // The tool has a name, and no id by then.
  predicate LateId(atoms: seq<Atom>, k: int) {
    FirstName(atoms, k) != "" && NamePos(atoms, k) < |atoms| && FirstId(atoms[..NamePos(atoms, k) + 1], k) == ""
  }

  const NAME_FIRST := ToolDelta(0, "", "weather", "")

  const ID_LAST := ToolDelta(0, "id", "", "y")

  const LATE_ID := [Calling(NAME_FIRST), Calling(ID_LAST)]

  lemma LateIdFacts()
    ensures
      var atoms := Atoms(LATE_ID);
      Called(atoms, 0) && LateId(atoms, 0) && FirstName(atoms, 0) == "weather" && FirstId(atoms, 0) == "id"
  {
    TwoCalls(NAME_FIRST, ID_LAST);
    TwoDeltasKnow(NAME_FIRST, ID_LAST);
    TwoDeltasNamed(NAME_FIRST, ID_LAST);
  }

  // A finished block announced with a random id.
  ghost predicate RandomlyAnnounced(view: seq<Event>, name: string, rand: Rand) {
    exists n: nat :: Finished(view, ToolHead("toolu_" + rand(n), name))
  }

  lemma RandomHead(view: seq<Event>, atoms: seq<Atom>, k: int, rand: Rand)
    requires Conserved(view, atoms, k, rand) && LateId(atoms, k)
    ensures RandomlyAnnounced(view, FirstName(atoms, k), rand)
  {
    var id :| AnnouncedId(id, atoms, k, rand) && Finished(view, ToolHead(id, FirstName(atoms, k)));
    var n: nat :| id == "toolu_" + rand(n);
  }

  /** An id only after the name, as in LATE_ID: the tool's block has a random one. */
  lemma LateIdReplaced(lines: seq<Line>, model: string, rand: Rand, order: seq<int>, k: int)
    requires IsCloseOrder(Feed(Atoms(lines), rand), order) && Called(Atoms(lines), k)
    requires LateId(Atoms(lines), k)
    ensures RandomlyAnnounced(At(Trace(lines, model, rand, order), BlockIndex(Atoms(lines), k)),
                              FirstName(Atoms(lines), k), rand)
  {
    ToolConserved(lines, model, rand, order, k);
    RandomHead(At(Trace(lines, model, rand, order), BlockIndex(Atoms(lines), k)), Atoms(lines), k, rand);
  }

  const UNNAMED := [Calling(EARLY_ARGS)]

  lemma UnnamedFacts()
    ensures Called(Atoms(UNNAMED), 0) && FirstName(Atoms(UNNAMED), 0) == "" && ArgsOf(Atoms(UNNAMED), 0) == "x"
  {
    AtomsOfOne(Calling(EARLY_ARGS));
    assert LineAtoms(Calling(EARLY_ARGS)) == [Say(""), Call(EARLY_ARGS)];
    assert Mentions(Atoms(UNNAMED)[1], 0);
    FirstDelta(EARLY_ARGS);
  }

  /** A tool never named, as in UNNAMED: nothing of it is streamed, and the one-shot translator has it. */
  lemma UnnamedLost(lines: seq<Line>, model: string, rand: Rand, order: seq<int>, other: Rand, k: int)
    requires IsCloseOrder(Feed(Atoms(lines), rand), order) && Called(Atoms(lines), k) && FirstName(Atoms(lines), k) == ""
    ensures At(Trace(lines, model, rand, order), BlockIndex(Atoms(lines), k)) == []
    ensures ClientContent(Trace(lines, model, rand, order)) != Translate.Reply(Accumulated(lines), model, other).content
  {
    ToolConserved(lines, model, rand, order, k);
    if ClientContent(Trace(lines, model, rand, order)) == Translate.Reply(Accumulated(lines), model, other).content {
      EqualContentsNeed(lines, model, rand, order, other);
    }
  }
}
