/** Reading a stream's events back gives the message the one-shot translator would have produced. */
module StreamRefinement {
  import opened Common
  import opened OpenAI
  import opened Anthropic
  import opened Stream
  import opened StreamLifecycle
  import opened StreamConservation
  import opened StreamTheorems
  import opened SortedKeys
  import Translate

  // ---------------------------------------------------------------- the client's reading of a trace

  // A finished block, from its start and its deltas; no arguments at all reads as the empty object.
  function BlockOf(view: seq<Event>): ContentBlock
    requires view != []
  {
    match view[0]
    case BlockStart(_, TextHead) => Text(Payload(view))
    case BlockStart(_, ToolHead(id, name)) => ToolUse(id, name, Translate.OrEmptyObject(Payload(view)))
    case _ => OtherBlock
  }

  // The blocks below index n that occur, by index.
  function ContentUpTo(tr: seq<Event>, n: nat): seq<ContentBlock> {
    if n == 0 then []
    else ContentUpTo(tr, n - 1) + if At(tr, n - 1) == [] then [] else [BlockOf(At(tr, n - 1))]
  }

  // One more than the highest index in use.
  function Bound(tr: seq<Event>): nat {
    if tr == [] then 0
    else
      var b := Bound(ButLast(tr));
      if IsBlockEvent(Last(tr)) && Last(tr).index >= b then Last(tr).index + 1 else b
  }

  function ClientContent(tr: seq<Event>): seq<ContentBlock> {
    ContentUpTo(tr, Bound(tr))
  }

  lemma {:induction false} BoundIsTight(tr: seq<Event>, i: int)
    ensures i >= Bound(tr) ==> At(tr, i) == []
    ensures Bound(tr) > 0 ==> At(tr, Bound(tr) - 1) != []
  {
    if tr != [] {
      BoundIsTight(ButLast(tr), i);
      assert Bound(tr) > 0 ==> At(tr, Bound(tr) - 1) != [] by {
        BoundIsTight(ButLast(tr), 0);
      }
    }
  }

  lemma ContiguousBound(tr: seq<Event>, n: nat)
    requires Contiguous(tr, n)
    ensures Bound(tr) == n
  {
    BoundIsTight(tr, Bound(tr));
    BoundIsTight(tr, n - 1);
  }

  // ---------------------------------------------------------------- the message a stream adds up to

  // Keys of the tool calls, in order of first appearance.
  function OrderOf(atoms: seq<Atom>): seq<int> {
    if atoms == [] then []
    else
      var before := OrderOf(ButLast(atoms));
      if Last(atoms).Call? && Last(atoms).d.key !in before then before + [Last(atoms).d.key] else before
  }

  // One tool call, with everything its deltas say.
  function WholeCall(atoms: seq<Atom>, k: int): ToolCall {
    ToolCall(FirstId(atoms, k), "function", FirstName(atoms, k), ArgsOf(atoms, k))
  }

  function WholeCalls(atoms: seq<Atom>, ks: seq<int>): seq<ToolCall> {
    if ks == [] then [] else WholeCalls(atoms, ButLast(ks)) + [WholeCall(atoms, Last(ks))]
  }

  // The reply the upstream would have sent unstreamed: all text, then the calls by position.
  ghost function Accumulated(lines: seq<Line>): OpenAI.ChatResponse {
    var atoms := Atoms(lines);
    OpenAI.ChatResponse(
      [ReplyChoice(Message("assistant", Said(atoms), WholeCalls(atoms, Sorted(Elements(OrderOf(atoms)))), ""),
                   FinishOf(lines))],
      UsageOf(lines))
  }

  // ---------------------------------------------------------------- streams whose tools arrive in good order

  // By the delta that names it a tool has its id and has lost no arguments.
  ghost predicate Prompt(atoms: seq<Atom>, k: int) {
    var p := NamePos(atoms, k);
    p < |atoms| && FirstId(atoms[..p + 1], k) != "" && ArgsOf(atoms[..p], k) == ""
  }

  ghost predicate ToolsInOrder(atoms: seq<Atom>) {
    (forall k | Called(atoms, k) :: Prompt(atoms, k)) && Ascending(OrderOf(atoms))
  }

  // No text after a tool call has begun.
  predicate TextFirst(atoms: seq<Atom>) {
    forall i, j | 0 <= i < j < |atoms| && atoms[i].Call? && atoms[j].Say? :: atoms[j].text == ""
  }

  lemma {:induction false} FirstIdPrefix(atoms: seq<Atom>, n: nat, k: int)
    requires n <= |atoms| && FirstId(atoms[..n], k) != ""
    ensures FirstId(atoms, k) == FirstId(atoms[..n], k)
  {
    if n == |atoms| {
      assert atoms[..n] == atoms;
    } else {
      assert ButLast(atoms)[..n] == atoms[..n];
      FirstIdPrefix(ButLast(atoms), n, k);
    }
  }

  lemma {:induction false} ArgsConcat(a: seq<Atom>, b: seq<Atom>, k: int)
    ensures ArgsOf(a + b, k) == ArgsOf(a, k) + ArgsOf(b, k)
  {
    if b == [] {
      assert a + b == a;
    } else {
      ArgsConcat(a, ButLast(b), k);
      assert a + b == (a + ButLast(b)) + [Last(b)];
      SnocParts(a + ButLast(b), Last(b));
    }
  }

  lemma PromptArgs(atoms: seq<Atom>, k: int)
    requires Prompt(atoms, k)
    ensures StreamedArgs(atoms, k) == ArgsOf(atoms, k)
  {
    var p := NamePos(atoms, k);
    ArgsConcat(atoms[..p], atoms[p..], k);
    assert atoms == atoms[..p] + atoms[p..];
  }

  lemma SuffixIsAll(before: string, rest: string)
    ensures rest == before + rest <==> before == ""
  {
    if before != "" {
      assert |before + rest| > |rest|;
    } else {
      assert before + rest == rest;
    }
  }

  // The streamed fragments are all fragments exactly when there were none before the name.
  lemma StreamedIsAll(atoms: seq<Atom>, k: int)
    ensures StreamedArgs(atoms, k) == ArgsOf(atoms, k) <==> ArgsOf(atoms[..NamePos(atoms, k)], k) == ""
  {
    var p := NamePos(atoms, k);
    ArgsConcat(atoms[..p], atoms[p..], k);
    assert atoms == atoms[..p] + atoms[p..];
    SuffixIsAll(ArgsOf(atoms[..p], k), ArgsOf(atoms[p..], k));
  }

  /** A tool's block carries all its arguments exactly when none came before its name; a tool never named loses them all. */
  lemma ArgumentsKept(lines: seq<Line>, model: string, rand: Rand, order: seq<int>, k: int)
    requires IsCloseOrder(Feed(Atoms(lines), rand), order) && Called(Atoms(lines), k)
    ensures
      var atoms := Atoms(lines);
      Payload(At(Trace(lines, model, rand, order), BlockIndex(atoms, k))) == ArgsOf(atoms, k)
      <==> ArgsOf(atoms[..NamePos(atoms, k)], k) == ""
  {
    ToolConserved(lines, model, rand, order, k);
    StreamedIsAll(Atoms(lines), k);
  }

  lemma PromptId(atoms: seq<Atom>, k: int)
    requires Prompt(atoms, k)
    ensures FirstName(atoms, k) != ""
    ensures FirstId(atoms, k) == FirstId(atoms[..NamePos(atoms, k) + 1], k) != ""
  {
    NamedIffPos(atoms, k);
    FirstIdPrefix(atoms, NamePos(atoms, k) + 1, k);
  }

  // ---------------------------------------------------------------- reading back, slot by slot

  function CallBlock(c: ToolCall): ContentBlock {
    ToolUse(c.id, c.name, Translate.OrEmptyObject(c.arguments))
  }

  function SlotBlock(atoms: seq<Atom>, s: Slot): ContentBlock {
    match s
    case TextSlot(text) => Text(text)
    case ToolSlot(k) => CallBlock(WholeCall(atoms, k))
  }

  function SlotBlocks(atoms: seq<Atom>, l: seq<Slot>): seq<ContentBlock> {
    if l == [] then [] else SlotBlocks(atoms, ButLast(l)) + [SlotBlock(atoms, Last(l))]
  }

  // The events of index i read back as this block.
  ghost predicate ReadsAs(tr: seq<Event>, i: int, b: ContentBlock) {
    At(tr, i) != [] && BlockOf(At(tr, i)) == b
  }

  // A settled view reads back as the slot it belongs to.
  lemma SettledReads(view: seq<Event>, atoms: seq<Atom>, m: Machine, l: seq<Slot>, i: int, rand: Rand)
    requires 0 <= i < |l| && Settled(view, m, l, i)
    requires l[i].ToolSlot? ==> Tracks(m.tools[l[i].key], atoms, l[i].key, rand) && Prompt(atoms, l[i].key)
    ensures view != [] && BlockOf(view) == SlotBlock(atoms, l[i])
  {
    match l[i]
    case TextSlot(text) =>
      RunningHead(ButLast(view), TextHead);
    case ToolSlot(k) =>
      PromptArgs(atoms, k);
      PromptId(atoms, k);
      RunningHead(ButLast(view), ToolHead(m.tools[k].id, m.tools[k].name));
  }

  lemma SlotReadBack(lines: seq<Line>, model: string, rand: Rand, order: seq<int>, i: int)
    requires IsCloseOrder(Feed(Atoms(lines), rand), order)
    requires forall k | Called(Atoms(lines), k) :: Prompt(Atoms(lines), k)
    requires 0 <= i < |Layout(Atoms(lines))|
    ensures ReadsAs(Trace(lines, model, rand, order), i, SlotBlock(Atoms(lines), Layout(Atoms(lines))[i]))
  {
    var atoms := Atoms(lines);
    StreamAt(lines, model, rand, order, i);
    if Layout(atoms)[i].ToolSlot? {
      SlotsAreCalls(atoms, Layout(atoms)[i].key);
      ToolHistory(atoms, rand, Layout(atoms)[i].key);
    }
    SettledReads(At(Trace(lines, model, rand, order), i), atoms, Feed(atoms, rand), Layout(atoms), i, rand);
  }

  lemma {:induction false} ContentReadBack(tr: seq<Event>, atoms: seq<Atom>, l: seq<Slot>, n: nat)
    requires n <= |l| && forall i | 0 <= i < n :: ReadsAs(tr, i, SlotBlock(atoms, l[i]))
    ensures ContentUpTo(tr, n) == SlotBlocks(atoms, l[..n])
  {
    if n > 0 {
      ContentReadBack(tr, atoms, l, n - 1);
      assert ReadsAs(tr, n - 1, SlotBlock(atoms, l[n - 1]));
      assert ButLast(l[..n]) == l[..n - 1];
    }
  }

  lemma ClientReadsSlots(lines: seq<Line>, model: string, rand: Rand, order: seq<int>)
    requires IsCloseOrder(Feed(Atoms(lines), rand), order)
    requires forall k | Called(Atoms(lines), k) :: Prompt(Atoms(lines), k)
    ensures ClientContent(Trace(lines, model, rand, order)) == SlotBlocks(Atoms(lines), Layout(Atoms(lines)))
  {
    var atoms := Atoms(lines);
    var tr, l := Trace(lines, model, rand, order), Layout(atoms);
    forall k | Called(atoms, k) ensures FirstName(atoms, k) != "" {
      NamedIffPos(atoms, k);
    }
    IndicesContiguous(lines, model, rand, order);
    ContiguousBound(tr, |l|);
    forall i | 0 <= i < |l| ensures ReadsAs(tr, i, SlotBlock(atoms, l[i])) {
      SlotReadBack(lines, model, rand, order, i);
    }
    ContentReadBack(tr, atoms, l, |l|);
    assert l[..|l|] == l;
  }

  // ---------------------------------------------------------------- layouts of text-first streams

  function Lead(text: string): seq<Slot> {
    if text == "" then [] else [TextSlot(text)]
  }

  function ToolSlots(ks: seq<int>): seq<Slot> {
    if ks == [] then [] else ToolSlots(ButLast(ks)) + [ToolSlot(Last(ks))]
  }

  lemma {:induction false} ToolSlotsIn(ks: seq<int>, k: int)
    ensures |ToolSlots(ks)| == |ks|
    ensures ToolSlot(k) in ToolSlots(ks) <==> k in ks
    ensures ks != [] ==> Last(ToolSlots(ks)) == ToolSlot(Last(ks))
  {
    if ks != [] {
      ToolSlotsIn(ButLast(ks), k);
      assert ks == ButLast(ks) + [Last(ks)];
    }
  }

  lemma {:induction false} OrderNonEmpty(atoms: seq<Atom>)
    ensures OrderOf(atoms) != [] <==> exists i :: 0 <= i < |atoms| && atoms[i].Call?
  {
    if atoms != [] {
      OrderNonEmpty(ButLast(atoms));
      assert (exists i :: 0 <= i < |atoms| && atoms[i].Call?)
        <==> (exists i :: 0 <= i < |ButLast(atoms)| && ButLast(atoms)[i].Call?) || Last(atoms).Call? by {
        if i :| 0 <= i < |ButLast(atoms)| && ButLast(atoms)[i].Call? {
          assert atoms[i].Call?;
        }
        assert Last(atoms).Call? ==> atoms[|atoms| - 1].Call?;
      }
    }
  }

  lemma CallExtends(lead: seq<Slot>, ks: seq<int>, d: ToolDelta)
    requires forall i | 0 <= i < |lead| :: lead[i].TextSlot?
    ensures Extend(lead + ToolSlots(ks), Call(d)) == lead + ToolSlots(if d.key in ks then ks else ks + [d.key])
  {
    ToolSlotsIn(ks, d.key);
    SnocParts(ks, d.key);
    assert ToolSlot(d.key) in lead + ToolSlots(ks) <==> d.key in ks;
    assert lead + (ToolSlots(ks) + [ToolSlot(d.key)]) == lead + ToolSlots(ks) + [ToolSlot(d.key)];
  }

  lemma SayExtends(said: string, text: string)
    requires text != ""
    ensures Extend(Lead(said), Say(text)) == Lead(said + text) + ToolSlots([])
  {
    assert said == "" ==> said + text == text;
  }

  lemma {:induction false} TextFirstLayout(atoms: seq<Atom>)
    requires TextFirst(atoms)
    ensures Layout(atoms) == Lead(Said(atoms)) + ToolSlots(OrderOf(atoms))
  {
    if atoms != [] {
      var before, a := ButLast(atoms), Last(atoms);
      TextFirstLayout(before);
      var ks, l := OrderOf(before), Layout(before);
      assert Said(before) + "" == Said(before);
      match a
      case Say(text) =>
        if text != "" {
          OrderNonEmpty(before);
          SayExtends(Said(before), text);
          assert l == Lead(Said(before)) && OrderOf(atoms) == [];
        }
      case Call(d) =>
        CallExtends(Lead(Said(before)), ks, d);
    }
  }

  ghost predicate HasLateText(l: seq<Slot>) {
    exists i :: 1 <= i < |l| && l[i].TextSlot?
  }

  lemma LateTextStays(l: seq<Slot>, a: Atom)
    requires HasLateText(l)
    ensures HasLateText(Extend(l, a))
  {
    var i :| 1 <= i < |l| && l[i].TextSlot?;
    assert Extend(l, a)[i].TextSlot?;
  }

  // The first text after a call opens a block of its own.
  lemma LateTextStarts(before: seq<Atom>, i: int, text: string)
    requires TextFirst(before) && 0 <= i < |before| && before[i].Call? && text != ""
    ensures HasLateText(Extend(Layout(before), Say(text)))
  {
    var l, ks := Layout(before), OrderOf(before);
    OrderNonEmpty(before);
    TextFirstLayout(before);
    ToolSlotsIn(ks, 0);
    assert Last(l) == Last(ToolSlots(ks));
    assert Extend(l, Say(text))[|l|] == TextSlot(text);
  }

  lemma {:induction false} LateTextLayout(atoms: seq<Atom>)
    requires !TextFirst(atoms)
    ensures HasLateText(Layout(atoms))
  {
    var before := ButLast(atoms);
    if !TextFirst(before) {
      LateTextLayout(before);
      LateTextStays(Layout(before), Last(atoms));
    } else {
      var i, j :| 0 <= i < j < |atoms| && atoms[i].Call? && atoms[j].Say? && atoms[j].text != "";
      OnlyLastIsLate(atoms, i, j);
      LateTextStarts(before, i, atoms[j].text);
    }
  }

  lemma OnlyLastIsLate(atoms: seq<Atom>, i: int, j: int)
    requires 0 <= i < j < |atoms| && TextFirst(ButLast(atoms))
    requires atoms[i].Call? && atoms[j].Say? && atoms[j].text != ""
    ensures j == |atoms| - 1 && ButLast(atoms)[i] == atoms[i]
  {
    var before := ButLast(atoms);
    assert forall x | 0 <= x < |before| :: before[x] == atoms[x];
  }

  // ---------------------------------------------------------------- the two contents compared

  lemma {:induction false} SlotBlocksIndex(atoms: seq<Atom>, l: seq<Slot>, i: nat)
    requires i < |l|
    ensures |SlotBlocks(atoms, l)| == |l| && SlotBlocks(atoms, l)[i] == SlotBlock(atoms, l[i])
  {
    if i < |l| - 1 {
      SlotBlocksIndex(atoms, ButLast(l), i);
    } else if |l| > 1 {
      SlotBlocksIndex(atoms, ButLast(l), 0);
    }
  }

  lemma {:induction false} SlotBlocksConcat(atoms: seq<Atom>, a: seq<Slot>, b: seq<Slot>)
    ensures SlotBlocks(atoms, a + b) == SlotBlocks(atoms, a) + SlotBlocks(atoms, b)
  {
    if b == [] {
      assert a + b == a;
    } else {
      SlotBlocksConcat(atoms, a, ButLast(b));
      assert a + b == (a + ButLast(b)) + [Last(b)];
      SnocParts(a + ButLast(b), Last(b));
    }
  }

  lemma OneToolAgrees(atoms: seq<Atom>, k: int, random: string)
    requires FirstId(atoms, k) != ""
    ensures Translate.ReplyTool(WholeCall(atoms, k), random) == SlotBlock(atoms, ToolSlot(k))
  {
  }

  lemma {:induction false} ToolsAgree(atoms: seq<Atom>, ks: seq<int>, rand: Rand)
    requires forall i | 0 <= i < |ks| :: FirstId(atoms, ks[i]) != ""
    ensures Translate.ReplyTools(WholeCalls(atoms, ks), rand) == SlotBlocks(atoms, ToolSlots(ks))
    ensures forall i | 0 <= i < |SlotBlocks(atoms, ToolSlots(ks))| :: SlotBlocks(atoms, ToolSlots(ks))[i].ToolUse?
  {
    if ks != [] {
      var before, k := ButLast(ks), Last(ks);
      ToolsAgree(atoms, before, rand);
      SnocParts(WholeCalls(atoms, before), WholeCall(atoms, k));
      SnocParts(ToolSlots(before), ToolSlot(k));
      assert k == ks[|ks| - 1];
      OneToolAgrees(atoms, k, rand(1 + Translate.Nameless(WholeCalls(atoms, before))));
    }
  }

  lemma {:induction false} OrderIsCalls(atoms: seq<Atom>, k: int)
    ensures k in OrderOf(atoms) <==> Called(atoms, k)
  {
    if atoms != [] {
      OrderIsCalls(ButLast(atoms), k);
      assert atoms == ButLast(atoms) + [Last(atoms)];
      CalledSnoc(ButLast(atoms), Last(atoms), k);
      if Last(atoms).Call? {
        OrderIsCalls(ButLast(atoms), Last(atoms).d.key);
      }
    }
  }

  lemma BatchContent(lines: seq<Line>, rand: Rand)
    requires ToolsInOrder(Atoms(lines))
    ensures
      var atoms := Atoms(lines);
      var tools := SlotBlocks(atoms, ToolSlots(OrderOf(atoms)));
      && Translate.ReplyContent(Accumulated(lines), rand) == Translate.ReplyText(Said(atoms)) + tools
      && forall i | 0 <= i < |tools| :: tools[i].ToolUse?
  {
    var atoms := Atoms(lines);
    var ks := OrderOf(atoms);
    AscendingIsSorted(ks);
    forall i | 0 <= i < |ks| ensures FirstId(atoms, ks[i]) != "" {
      OrderIsCalls(atoms, ks[i]);
      PromptId(atoms, ks[i]);
    }
    ToolsAgree(atoms, ks, rand);
  }

  // Slots against text-then-tools, for arbitrary slots.
  lemma LateTextDiffers(atoms: seq<Atom>, text: seq<ContentBlock>, tools: seq<ContentBlock>)
    requires !TextFirst(atoms) && |text| <= 1
    requires forall i | 0 <= i < |tools| :: tools[i].ToolUse?
    ensures SlotBlocks(atoms, Layout(atoms)) != text + tools
  {
    LateTextLayout(atoms);
    var i :| 1 <= i < |Layout(atoms)| && Layout(atoms)[i].TextSlot?;
    SlotBlocksIndex(atoms, Layout(atoms), i);
    assert i < |text + tools| ==> (text + tools)[i] == tools[i - |text|];
  }

  lemma TextFirstCompared(atoms: seq<Atom>, tools: seq<ContentBlock>)
    requires TextFirst(atoms) && tools == SlotBlocks(atoms, ToolSlots(OrderOf(atoms)))
    ensures SlotBlocks(atoms, Layout(atoms)) == Translate.ReplyText(Said(atoms)) + tools
            <==> Said(atoms) == "" || !Blank(Said(atoms))
  {
    TextFirstLayout(atoms);
    var text := Said(atoms);
    SlotBlocksConcat(atoms, Lead(text), ToolSlots(OrderOf(atoms)));
    if text != "" {
      SlotBlocksIndex(atoms, Lead(text), 0);
      assert SlotBlocks(atoms, Lead(text)) == [Text(text)];
      assert |[Text(text)] + tools| != |[] + tools|;
    }
  }

  /** For tools in good order, streaming gives the batch translator's content exactly when text comes first and is not mere white space. */
  lemma StreamRefinesBatch(lines: seq<Line>, model: string, rand: Rand, order: seq<int>, other: Rand)
    requires IsCloseOrder(Feed(Atoms(lines), rand), order)
    requires ToolsInOrder(Atoms(lines))
    ensures ClientContent(Trace(lines, model, rand, order)) == Translate.Reply(Accumulated(lines), model, other).content
            <==> TextFirst(Atoms(lines)) && (Said(Atoms(lines)) == "" || !Blank(Said(Atoms(lines))))
  {
    var atoms := Atoms(lines);
    var tools := SlotBlocks(atoms, ToolSlots(OrderOf(atoms)));
    ClientReadsSlots(lines, model, rand, order);
    BatchContent(lines, other);
    if TextFirst(atoms) {
      TextFirstCompared(atoms, tools);
    } else {
      LateTextDiffers(atoms, Translate.ReplyText(Said(atoms)), tools);
    }
  }

  // The reason is that of the last chunk that gave one, the usage that of the last chunk that reported any.
  ghost predicate LatestEnvelope(live: seq<Line>, e: Event) {
    exists reason, usage ::
      && IsLatest(LineFinish, "", live, reason) && IsLatest(LineUsage, NoUsage, live, usage)
      && e == MessageDelta(MapFinishReason(reason), usage)
  }

  lemma EnvelopeIsLatest(live: seq<Line>)
    ensures LatestEnvelope(live, MessageDelta(MapFinishReason(FinishIn(live)), UsageIn(live)))
  {
    LatestIsLatest(LineFinish, "", live);
    LatestIsLatest(LineUsage, NoUsage, live);
  }

  /** For every stream the model, stop reason and usage agree with the one-shot translator: the reason is that of the last
      chunk that gave one, the usage that of the last chunk that reported any. */
  lemma EnvelopeRefinesBatch(lines: seq<Line>, model: string, rand: Rand, order: seq<int>, other: Rand)
    requires IsCloseOrder(Feed(Atoms(lines), rand), order)
    ensures
      var tr, reply := Trace(lines, model, rand, order), Translate.Reply(Accumulated(lines), model, other);
      && |tr| >= 3 && tr[0].MessageStart? && tr[0].model == reply.model
      && tr[|tr| - 2] == MessageDelta(reply.stopReason, Usage(reply.inputTokens, reply.outputTokens))
    ensures LatestEnvelope(Live(lines), Trace(lines, model, rand, order)[|Trace(lines, model, rand, order)| - 2])
  {
    var u := UsageOf(lines);
    assert u == Usage(u.promptTokens, u.completionTokens);
    EnvelopeIsLatest(Live(lines));
  }
}
