/** What a stream's trace carries, told from the lines themselves: each line before the end marker that brings a choice says
    that choice's content and then feeds its tool-call deltas. */
module StreamInput {
  import opened Common
  import opened OpenAI
  import opened Anthropic
  import opened Stream
  import opened StreamLifecycle
  import opened StreamConservation
  import opened StreamTheorems

  // ---------------------------------------------------------------- what the lines say

  // How many lines come before the first end marker.
  function EndOf(lines: seq<Line>): (n: nat)
    ensures n <= |lines| && (n < |lines| ==> lines[n].Done?)
    ensures forall i | 0 <= i < n :: !lines[i].Done?
  {
    if lines == [] || lines[0].Done? then 0 else 1 + EndOf(lines[1..])
  }

  predicate BringsChoice(line: Line) {
    match line
    case Data(chunk) => |chunk.choices| > 0
    case _ => false
  }

  function ContentOf(line: Line): string {
    if BringsChoice(line) then line.chunk.choices[0].content else ""
  }

  function DeltasOf(line: Line): seq<ToolDelta> {
    if BringsChoice(line) then line.chunk.choices[0].toolCalls else []
  }

  // The content of the first n lines.
  function Heard(lines: seq<Line>, n: nat): string
    requires n <= |lines|
  {
    if n == 0 then "" else Heard(lines, n - 1) + ContentOf(lines[n - 1])
  }

  // The tool-call deltas of the first n lines.
  function Asked(lines: seq<Line>, n: nat): seq<ToolDelta>
    requires n <= |lines|
  {
    if n == 0 then [] else Asked(lines, n - 1) + DeltasOf(lines[n - 1])
  }

  // Those of one tool call.
  function OfTool(ds: seq<ToolDelta>, k: int): seq<ToolDelta> {
    if ds == [] then [] else OfTool(ButLast(ds), k) + if Last(ds).key == k then [Last(ds)] else []
  }

  // ---------------------------------------------------------------- what the machine is fed

  // The tool-call deltas among some atoms.
  function Fed(atoms: seq<Atom>): seq<ToolDelta> {
    if atoms == [] then [] else Fed(ButLast(atoms)) + if Last(atoms).Call? then [Last(atoms).d] else []
  }

  lemma {:induction false} SaidConcat(a: seq<Atom>, b: seq<Atom>)
    ensures Said(a + b) == Said(a) + Said(b)
  {
    if b == [] {
      assert a + b == a;
    } else {
      SaidConcat(a, ButLast(b));
      ConcatParts(a, b);
    }
  }

  lemma {:induction false} FedConcat(a: seq<Atom>, b: seq<Atom>)
    ensures Fed(a + b) == Fed(a) + Fed(b)
  {
    if b == [] {
      assert a + b == a;
    } else {
      FedConcat(a, ButLast(b));
      ConcatParts(a, b);
    }
  }

  lemma {:induction false} CallsAlone(ds: seq<ToolDelta>)
    ensures Said(Calls(ds)) == "" && Fed(Calls(ds)) == ds
  {
    if ds != [] {
      CallsAlone(ButLast(ds));
      assert ButLast(Calls(ds)) == Calls(ButLast(ds));
    }
  }

  lemma SayAlone(text: string)
    ensures Said([Say(text)]) == text && Fed([Say(text)]) == []
  {
    assert ButLast([Say(text)]) == [];
  }

  lemma LineGives(line: Line)
    ensures Said(LineAtoms(line)) == ContentOf(line) && Fed(LineAtoms(line)) == DeltasOf(line)
  {
    if BringsChoice(line) {
      var c, ds := line.chunk.choices[0].content, line.chunk.choices[0].toolCalls;
      SaidConcat([Say(c)], Calls(ds));
      FedConcat([Say(c)], Calls(ds));
      SayAlone(c);
      CallsAlone(ds);
    }
  }

  lemma {:induction false} LiveIs(lines: seq<Line>, n: nat)
    requires n <= |lines| && forall i | 0 <= i < n :: !lines[i].Done?
    requires n < |lines| ==> lines[n].Done?
    ensures Live(lines) == lines[..n]
  {
    if n > 0 {
      LiveIs(lines[1..], n - 1);
      assert lines[..n] == [lines[0]] + lines[1..][..n - 1];
    }
  }

  lemma AtomsMore(live: seq<Line>, line: Line)
    ensures AtomsOf(live + [line]) == AtomsOf(live) + LineAtoms(line)
  {
    FlatMapSnoc(LineAtoms, live, line);
  }

  lemma AtomsUpTo(lines: seq<Line>, n: nat)
    requires n < |lines|
    ensures AtomsOf(lines[..n + 1]) == AtomsOf(lines[..n]) + LineAtoms(lines[n])
  {
    assert lines[..n + 1] == lines[..n] + [lines[n]];
    AtomsMore(lines[..n], lines[n]);
  }

  // What some atoms say and feed, with those of one more line.
  lemma GivesMore(atoms: seq<Atom>, all: seq<Atom>, line: Line)
    requires all == atoms + LineAtoms(line)
    ensures Said(all) == Said(atoms) + ContentOf(line) && Fed(all) == Fed(atoms) + DeltasOf(line)
  {
    SaidConcat(atoms, LineAtoms(line));
    FedConcat(atoms, LineAtoms(line));
    LineGives(line);
  }

  // Some atoms give what the first n lines do.
  predicate Gives(atoms: seq<Atom>, lines: seq<Line>, n: nat) {
    n <= |lines| && Said(atoms) == Heard(lines, n) && Fed(atoms) == Asked(lines, n)
  }

  lemma GivesNext(atoms: seq<Atom>, all: seq<Atom>, lines: seq<Line>, n: nat)
    requires n < |lines| && Gives(atoms, lines, n) && all == atoms + LineAtoms(lines[n])
    ensures Gives(all, lines, n + 1)
  {
    GivesMore(atoms, all, lines[n]);
  }

  lemma {:induction false} PrefixGives(lines: seq<Line>, n: nat)
    requires n <= |lines|
    ensures Gives(AtomsOf(lines[..n]), lines, n)
  {
    if n > 0 {
      PrefixGives(lines, n - 1);
      AtomsUpTo(lines, n - 1);
      GivesNext(AtomsOf(lines[..n - 1]), AtomsOf(lines[..n]), lines, n - 1);
    }
  }

  lemma LinesGive(lines: seq<Line>)
    ensures Said(Atoms(lines)) == Heard(lines, EndOf(lines))
    ensures Fed(Atoms(lines)) == Asked(lines, EndOf(lines))
  {
    LiveIs(lines, EndOf(lines));
    PrefixGives(lines, EndOf(lines));
  }

  /** The text of the trace is the content of every line with a choice before the end marker, one after another. */
  lemma TextHeard(lines: seq<Line>, model: string, rand: Rand, order: seq<int>)
    requires IsCloseOrder(Feed(Atoms(lines), rand), order)
    ensures TextOf(Trace(lines, model, rand, order)) == Heard(lines, EndOf(lines))
  {
    TextConserved(lines, model, rand, order);
    LinesGive(lines);
  }

  // ---------------------------------------------------------------- within a line

  predicate IsText(e: Event) {
    (e.BlockStart? && e.head.TextHead?) || (e.BlockDelta? && e.delta.TextDelta?)
  }

  predicate OnlyText(es: seq<Event>) {
    forall i | 0 <= i < |es| :: IsText(es[i])
  }

  predicate NoText(es: seq<Event>) {
    forall i | 0 <= i < |es| :: !IsText(es[i])
  }

  lemma TextAdds(m: Machine, text: string) returns (said: seq<Event>)
    ensures OnText(m, text).out == m.out + said && OnlyText(said) && TextOf(said) == text
  {
    if text == "" {
      said := [];
      assert m.out + said == m.out;
    } else if m.textOpen {
      said := [BlockDelta(m.textIndex, TextDelta(text))];
      TextSnoc([], said[0]);
      assert [] + [said[0]] == said;
    } else {
      var b, e := BlockStart(m.nextIndex, TextHead), BlockDelta(m.nextIndex, TextDelta(text));
      said := [b] + [e];
      TextSnoc([], b);
      TextSnoc([b], e);
      assert [] + [b] == [b] && m.out + [b] + [e] == m.out + said;
    }
  }

  // From one trace to a longer one, with no text in what is added.
  predicate Adds(before: seq<Event>, after: seq<Event>) {
    before <= after && NoText(after[|before|..])
  }

  lemma AddsMore(a: seq<Event>, b: seq<Event>, c: seq<Event>)
    requires Adds(a, b) && Adds(b, c)
    ensures Adds(a, c)
  {
    assert c == b + c[|b|..] && b == a + b[|a|..];
    assert c[|a|..] == b[|a|..] + c[|b|..];
  }

  lemma AdmitAdds(m: Machine, d: ToolDelta)
    ensures Adds(m.out, Admit(m, d).out)
  {
  }

  lemma OpenAdds(m: Machine, key: int, rand: Rand)
    requires key in m.tools
    ensures Adds(m.out, Open(m, key, rand).out)
  {
  }

  lemma AppendAdds(m: Machine, d: ToolDelta)
    requires d.key in m.tools
    ensures Adds(m.out, Append(m, d).out)
  {
  }

  lemma ToolAdds(m: Machine, d: ToolDelta, rand: Rand)
    ensures Adds(m.out, OnTool(m, d, rand).out)
  {
    var m1 := Fill(Admit(m, d), d);
    var m2 := Open(m1, d.key, rand);
    AdmitAdds(m, d);
    OpenAdds(m1, d.key, rand);
    AppendAdds(m2, d);
    AddsMore(m.out, m1.out, m2.out);
    AddsMore(m.out, m2.out, Append(m2, d).out);
  }

  lemma CallAdds(atoms: seq<Atom>, d: ToolDelta, rand: Rand)
    ensures Adds(Feed(atoms, rand).out, Feed(atoms + [Call(d)], rand).out)
  {
    FeedSnoc(atoms, Call(d), rand);
    ToolAdds(Feed(atoms, rand), d, rand);
  }

  lemma {:induction false} CallsAdd(atoms: seq<Atom>, ds: seq<ToolDelta>, rand: Rand)
    ensures Adds(Feed(atoms, rand).out, Feed(atoms + Calls(ds), rand).out)
  {
    if ds == [] {
      assert atoms + Calls(ds) == atoms;
    } else {
      var all := atoms + Calls(ButLast(ds));
      CallsAdd(atoms, ButLast(ds), rand);
      assert atoms + Calls(ds) == all + [Call(Last(ds))];
      CallAdds(all, Last(ds), rand);
      AddsMore(Feed(atoms, rand).out, Feed(all, rand).out, Feed(atoms + Calls(ds), rand).out);
    }
  }

  // A line adds its content first, then whatever its calls give rise to.
  ghost predicate AddsInOrder(before: seq<Event>, after: seq<Event>, line: Line) {
    exists said, called ::
      after == before + said + called && OnlyText(said) && TextOf(said) == ContentOf(line) && NoText(called)
  }

  lemma AddsAs(before: seq<Event>, said: seq<Event>, middle: seq<Event>, after: seq<Event>, line: Line)
    requires middle == before + said && OnlyText(said) && TextOf(said) == ContentOf(line) && Adds(middle, after)
    ensures AddsInOrder(before, after, line)
  {
    var called := after[|middle|..];
    assert after == before + said + called && NoText(called);
  }

  lemma ChoiceAdds(atoms: seq<Atom>, line: Line, rand: Rand)
    requires BringsChoice(line)
    ensures AddsInOrder(Feed(atoms, rand).out, Feed(atoms + LineAtoms(line), rand).out, line)
  {
    var c, ds := line.chunk.choices[0].content, line.chunk.choices[0].toolCalls;
    Assoc(atoms, [Say(c)], Calls(ds));
    FeedSnoc(atoms, Say(c), rand);
    var said := TextAdds(Feed(atoms, rand), c);
    CallsAdd(atoms + [Say(c)], ds, rand);
    AddsAs(Feed(atoms, rand).out, said, Feed(atoms + [Say(c)], rand).out, Feed(atoms + LineAtoms(line), rand).out, line);
  }

  lemma LineAdds(atoms: seq<Atom>, line: Line, rand: Rand)
    ensures AddsInOrder(Feed(atoms, rand).out, Feed(atoms + LineAtoms(line), rand).out, line)
  {
    if BringsChoice(line) {
      ChoiceAdds(atoms, line, rand);
    } else {
      var out := Feed(atoms, rand).out;
      assert atoms + LineAtoms(line) == atoms && out == out + [] && TextOf([]) == "";
      AddsAs(out, [], out, out, line);
    }
  }

  lemma AllLive(lines: seq<Line>)
    requires forall i | 0 <= i < |lines| :: !lines[i].Done?
    ensures Atoms(lines) == AtomsOf(lines)
  {
    LiveIs(lines, |lines|);
    assert lines[..|lines|] == lines;
  }

  lemma NextLine(before: seq<Line>, line: Line)
    requires EndOf(before + [line]) == |before| + 1
    ensures Atoms(before + [line]) == Atoms(before) + LineAtoms(line)
  {
    forall i | 0 <= i < |before| ensures !before[i].Done? {
      assert (before + [line])[i] == before[i];
    }
    AllLive(before);
    AllLive(before + [line]);
    AtomsMore(before, line);
  }

  /** Within a line the content comes before the calls, and nothing written earlier changes. */
  lemma LineInOrder(before: seq<Line>, line: Line, rand: Rand)
    requires EndOf(before + [line]) == |before| + 1
    ensures AddsInOrder(Feed(Atoms(before), rand).out, Feed(Atoms(before + [line]), rand).out, line)
  {
    NextLine(before, line);
    LineAdds(Atoms(before), line, rand);
  }

  // ---------------------------------------------------------------- one tool call

  function ArgsIn(ds: seq<ToolDelta>): string {
    if ds == [] then "" else ArgsIn(ButLast(ds)) + Last(ds).args
  }

  // The first delta that gives a name; the end if none does.
  function NamedAt(ds: seq<ToolDelta>): (p: nat)
    ensures p <= |ds| && (p < |ds| ==> ds[p].name != "") && forall i | 0 <= i < p :: ds[i].name == ""
  {
    if ds == [] || ds[0].name != "" then 0 else 1 + NamedAt(ds[1..])
  }

  predicate NoIds(ds: seq<ToolDelta>) {
    forall i | 0 <= i < |ds| :: ds[i].id == ""
  }

  predicate FirstIdAt(ds: seq<ToolDelta>, i: int) {
    0 <= i < |ds| && ds[i].id != "" && NoIds(ds[..i])
  }

  // The first id that some deltas give; a random one if they give none.
  ghost predicate IdFrom(id: string, ds: seq<ToolDelta>, rand: Rand) {
    if NoIds(ds) then exists n: nat :: id == "toolu_" + rand(n) else exists i :: FirstIdAt(ds, i) && ds[i].id == id
  }

  // The events of a tool call fed these deltas: none without a name, else a block under its first name and the first id
  // known by then, with all arguments from there on.
  ghost predicate Delivers(view: seq<Event>, ds: seq<ToolDelta>, rand: Rand) {
    var p := NamedAt(ds);
    if p == |ds| then view == []
    else
      && Payload(view) == ArgsIn(ds[p..])
      && exists id :: Finished(view, ToolHead(id, ds[p].name)) && IdFrom(id, ds[..p + 1], rand)
  }

  function Own(atoms: seq<Atom>, k: int): seq<ToolDelta> {
    OfTool(Fed(atoms), k)
  }

  lemma OwnSnoc(atoms: seq<Atom>, a: Atom, k: int)
    ensures Own(atoms + [a], k) == Own(atoms, k) + if Mentions(a, k) then [a.d] else []
  {
    SnocParts(atoms, a);
    if a.Call? {
      SnocParts(Fed(atoms), a.d);
    } else {
      assert Fed(atoms) + [] == Fed(atoms) && Own(atoms, k) + [] == Own(atoms, k);
    }
  }

  lemma {:induction false} OwnConcat(a: seq<Atom>, b: seq<Atom>, k: int)
    ensures Own(a + b, k) == Own(a, k) + Own(b, k)
  {
    if b == [] {
      assert a + b == a;
    } else {
      OwnConcat(a, ButLast(b), k);
      assert a + b == (a + ButLast(b)) + [Last(b)] && b == ButLast(b) + [Last(b)];
      OwnSnoc(a + ButLast(b), Last(b), k);
      OwnSnoc(ButLast(b), Last(b), k);
    }
  }

  function FirstIdIn(ds: seq<ToolDelta>): string {
    if ds == [] then "" else if FirstIdIn(ButLast(ds)) == "" then Last(ds).id else FirstIdIn(ButLast(ds))
  }

  lemma FirstIdStays(ds: seq<ToolDelta>, d: ToolDelta, i: int)
    requires FirstIdAt(ds, i)
    ensures FirstIdAt(ds + [d], i) && (ds + [d])[i] == ds[i]
  {
    assert (ds + [d])[..i] == ds[..i];
  }

  lemma FirstIdLast(ds: seq<ToolDelta>, d: ToolDelta)
    requires NoIds(ds)
    ensures if d.id == "" then NoIds(ds + [d]) else FirstIdAt(ds + [d], |ds|)
  {
    assert (ds + [d])[..|ds|] == ds;
  }

  lemma {:induction false} FirstIdIsFirst(ds: seq<ToolDelta>)
    ensures if FirstIdIn(ds) == "" then NoIds(ds) else exists i :: FirstIdAt(ds, i) && ds[i].id == FirstIdIn(ds)
  {
    if ds != [] {
      var before, d := ButLast(ds), Last(ds);
      FirstIdIsFirst(before);
      assert ds == before + [d];
      if FirstIdIn(before) != "" {
        var i :| FirstIdAt(before, i) && before[i].id == FirstIdIn(before);
        FirstIdStays(before, d, i);
      } else {
        FirstIdLast(before, d);
      }
    }
  }

  // What the atoms say of a tool is what its own deltas say.
  lemma {:induction false} OwnSays(atoms: seq<Atom>, k: int)
    ensures ArgsOf(atoms, k) == ArgsIn(Own(atoms, k)) && FirstId(atoms, k) == FirstIdIn(Own(atoms, k))
    ensures Called(atoms, k) <==> Own(atoms, k) != []
  {
    if atoms != [] {
      var a := Last(atoms);
      OwnSays(ButLast(atoms), k);
      assert atoms == ButLast(atoms) + [a];
      OwnSnoc(ButLast(atoms), a, k);
      CalledSnoc(ButLast(atoms), a, k);
      if Mentions(a, k) {
        SnocParts(Own(ButLast(atoms), k), a.d);
      } else {
        assert Own(atoms, k) == Own(ButLast(atoms), k);
      }
    }
  }

  lemma {:induction false} Nameless(atoms: seq<Atom>, k: int)
    requires forall i | 0 <= i < |atoms| :: !Names(atoms[i], k)
    ensures forall i | 0 <= i < |Own(atoms, k)| :: Own(atoms, k)[i].name == ""
  {
    if atoms != [] {
      Nameless(ButLast(atoms), k);
      assert atoms == ButLast(atoms) + [Last(atoms)];
      OwnSnoc(ButLast(atoms), Last(atoms), k);
    }
  }

  // A list of deltas around the first that gives a name.
  lemma NamedBetween(before: seq<ToolDelta>, d: ToolDelta, after: seq<ToolDelta>)
    requires d.name != "" && forall i | 0 <= i < |before| :: before[i].name == ""
    ensures var ds := before + ([d] + after);
            NamedAt(ds) == |before| && ds[|before|..] == [d] + after && ds[..|before| + 1] == before + [d]
  {
    var ds := before + ([d] + after);
    assert ds[|before|] == d && forall i | 0 <= i < |before| :: ds[i] == before[i];
  }

  // A tool's own deltas around one of them.
  lemma OwnAround(atoms: seq<Atom>, k: int, p: nat)
    requires p < |atoms| && Mentions(atoms[p], k)
    ensures
      var before, d, after := Own(atoms[..p], k), atoms[p].d, Own(atoms[p + 1..], k);
      && Own(atoms[p..], k) == [d] + after && Own(atoms[..p + 1], k) == before + [d]
      && Own(atoms, k) == before + ([d] + after)
  {
    assert atoms == atoms[..p] + atoms[p..] && atoms[p..] == [atoms[p]] + atoms[p + 1..];
    assert atoms[..p + 1] == atoms[..p] + [atoms[p]] && [atoms[p]] == [] + [atoms[p]];
    OwnSnoc([], atoms[p], k);
    OwnSnoc(atoms[..p], atoms[p], k);
    OwnConcat([atoms[p]], atoms[p + 1..], k);
    OwnConcat(atoms[..p], atoms[p..], k);
  }

  // The naming delta splits a tool's own deltas where it splits the atoms.
  lemma OwnParts(atoms: seq<Atom>, k: int)
    requires NamePos(atoms, k) < |atoms|
    ensures
      var p, ds := NamePos(atoms, k), Own(atoms, k);
      var q := NamedAt(ds);
      && q < |ds| && ds[q] == atoms[p].d && Own(atoms[p..], k) == ds[q..] && Own(atoms[..p + 1], k) == ds[..q + 1]
  {
    var p := NamePos(atoms, k);
    Nameless(atoms[..p], k);
    OwnAround(atoms, k, p);
    NamedBetween(Own(atoms[..p], k), atoms[p].d, Own(atoms[p + 1..], k));
  }

  // A random id if no delta gives one.
  ghost predicate Announces(id: string, known: string, rand: Rand) {
    if known != "" then id == known else exists n: nat :: id == "toolu_" + rand(n)
  }

  lemma KnownIsFrom(id: string, ds: seq<ToolDelta>, rand: Rand)
    requires Announces(id, FirstIdIn(ds), rand)
    ensures IdFrom(id, ds, rand)
  {
    FirstIdIsFirst(ds);
  }

  lemma IdIsFirst(id: string, atoms: seq<Atom>, k: int, rand: Rand)
    requires AnnouncedId(id, atoms, k, rand)
    ensures var ds := Own(atoms, k);
            NamedAt(ds) < |ds| && IdFrom(id, ds[..NamedAt(ds) + 1], rand)
  {
    var known := atoms[..NamePos(atoms, k) + 1];
    OwnParts(atoms, k);
    OwnSays(known, k);
    assert Announces(id, FirstIdIn(Own(known, k)), rand);
    KnownIsFrom(id, Own(known, k), rand);
  }

  lemma ArgsFromName(atoms: seq<Atom>, k: int)
    requires NamePos(atoms, k) < |atoms|
    ensures var ds := Own(atoms, k);
            var q := NamedAt(ds);
            q < |ds| && ds[q].name == FirstName(atoms, k) && ArgsIn(ds[q..]) == StreamedArgs(atoms, k)
  {
    NamedIffPos(atoms, k);
    OwnParts(atoms, k);
    OwnSays(atoms[NamePos(atoms, k)..], k);
  }

  lemma ConservedDelivers(view: seq<Event>, atoms: seq<Atom>, k: int, rand: Rand)
    requires Conserved(view, atoms, k, rand)
    ensures Delivers(view, Own(atoms, k), rand)
  {
    NamedIffPos(atoms, k);
    if view == [] {
      Nameless(atoms, k);
    } else {
      ArgsFromName(atoms, k);
      var id :| AnnouncedId(id, atoms, k, rand) && Finished(view, ToolHead(id, FirstName(atoms, k)));
      IdIsFirst(id, atoms, k, rand);
    }
  }

  // If some line has a delta for this tool call, a block of the trace delivers exactly what all of them, in order, ask for.
  ghost predicate HearsTool(lines: seq<Line>, tr: seq<Event>, rand: Rand, k: int) {
    var ds := OfTool(Asked(lines, EndOf(lines)), k);
    ds != [] ==> exists i :: Delivers(At(tr, i), ds, rand)
  }

  /** The tool calls of a stream are those that some line has a delta for, and the block of each delivers what its own
      deltas ask for. */
  lemma ToolHeard(lines: seq<Line>, model: string, rand: Rand, order: seq<int>, k: int)
    requires IsCloseOrder(Feed(Atoms(lines), rand), order)
    ensures var ds := OfTool(Asked(lines, EndOf(lines)), k);
            && (Called(Atoms(lines), k) <==> ds != [])
            && (ds != [] ==> Delivers(At(Trace(lines, model, rand, order), BlockIndex(Atoms(lines), k)), ds, rand))
    ensures HearsTool(lines, Trace(lines, model, rand, order), rand, k)
  {
    LinesGive(lines);
    OwnSays(Atoms(lines), k);
    if Called(Atoms(lines), k) {
      ToolConserved(lines, model, rand, order, k);
      ConservedDelivers(At(Trace(lines, model, rand, order), BlockIndex(Atoms(lines), k)), Atoms(lines), k, rand);
    }
  }

  // ---------------------------------------------------------------- random ids

  // The tool was named before any id of it was known.
  predicate Drawn(atoms: seq<Atom>, k: int) {
    var p := NamePos(atoms, k);
    p < |atoms| && FirstId(atoms[..p + 1], k) == ""
  }

  // Each such tool has a draw of its own, not that of the message id.
  ghost predicate Draws(draw: map<int, nat>, m: Machine, atoms: seq<Atom>, rand: Rand) {
    && (forall k :: k in draw <==> Drawn(atoms, k))
    && (forall k | k in draw :: 0 < draw[k] < m.draws && k in m.tools && m.tools[k].id == "toolu_" + rand(draw[k]))
    && (forall k, l | k in draw && l in draw && draw[k] == draw[l] :: k == l)
    && m.draws > 0
  }

  lemma DrawnOther(atoms: seq<Atom>, a: Atom, k: int)
    requires !Names(a, k) || FirstName(atoms, k) != ""
    ensures Drawn(atoms + [a], k) <==> Drawn(atoms, k)
  {
    var all, p := atoms + [a], NamePos(atoms, k);
    SnocParts(atoms, a);
    NamedIffPos(atoms, k);
    if p < |atoms| {
      assert all[..p + 1] == atoms[..p + 1];
    }
  }

  lemma DrawnNow(atoms: seq<Atom>, a: Atom, k: int)
    requires Names(a, k) && FirstName(atoms, k) == ""
    ensures !Drawn(atoms, k)
    ensures Drawn(atoms + [a], k) <==> FirstId(atoms, k) == "" && a.d.id == ""
  {
    var all := atoms + [a];
    SnocParts(atoms, a);
    NamedIffPos(atoms, k);
    assert NamePos(all, k) == |atoms| && all[..|atoms| + 1] == all;
  }

  // What a delta does to the table and to the count of draws.
  lemma StepDraws(m: Machine, d: ToolDelta, rand: Rand)
    requires d.key in m.tools && m.tools[d.key].started ==> m.tools[d.key].id != "" && m.tools[d.key].name != ""
    ensures
      var m' := OnTool(m, d, rand);
      var t := if d.key in m.tools then m.tools[d.key] else Tool(m.nextIndex, "", "", "", false);
      var draws := !t.started && (t.name != "" || d.name != "") && t.id == "" && d.id == "";
      && m'.draws == m.draws + (if draws then 1 else 0)
      && d.key in m'.tools && m'.tools.Keys == m.tools.Keys + {d.key}
      && m'.tools[d.key].id == (if draws then "toolu_" + rand(m.draws) else if t.id == "" then d.id else t.id)
      && forall k | k in m.tools && k != d.key :: m'.tools[k] == m.tools[k]
  {
  }

  lemma SameDraws(draw: map<int, nat>, m: Machine, m': Machine, atoms: seq<Atom>, atoms': seq<Atom>, rand: Rand)
    requires Draws(draw, m, atoms, rand) && m'.draws >= m.draws
    requires forall k | Drawn(atoms, k) :: k in m'.tools && m'.tools[k].id == m.tools[k].id
    requires forall k :: Drawn(atoms', k) <==> Drawn(atoms, k)
    ensures Draws(draw, m', atoms', rand)
  {
  }

  lemma OneMoreDraw(draw: map<int, nat>, m: Machine, m': Machine, atoms: seq<Atom>, atoms': seq<Atom>, k: int, rand: Rand)
    requires Draws(draw, m, atoms, rand) && m'.draws == m.draws + 1 && k !in draw
    requires forall l | Drawn(atoms, l) :: l in m'.tools && m'.tools[l].id == m.tools[l].id
    requires k in m'.tools && m'.tools[k].id == "toolu_" + rand(m.draws)
    requires forall l :: Drawn(atoms', l) <==> Drawn(atoms, l) || l == k
    ensures Draws(draw[k := m.draws], m', atoms', rand)
  {
  }

  lemma TextDraws(draw: map<int, nat>, m: Machine, atoms: seq<Atom>, text: string, rand: Rand)
    requires Draws(draw, m, atoms, rand)
    ensures Draws(draw, OnText(m, text), atoms + [Say(text)], rand)
  {
    forall k ensures Drawn(atoms + [Say(text)], k) <==> Drawn(atoms, k) {
      DrawnOther(atoms, Say(text), k);
    }
    SameDraws(draw, m, OnText(m, text), atoms, atoms + [Say(text)], rand);
  }

  lemma CallDraws(draw: map<int, nat>, m: Machine, atoms: seq<Atom>, d: ToolDelta, rand: Rand) returns (more: map<int, nat>)
    requires Draws(draw, m, atoms, rand) && Tracks(Entry(m, d.key), atoms, d.key, rand)
    requires d.key in m.tools && m.tools[d.key].started ==> m.tools[d.key].id != "" && m.tools[d.key].name != ""
    ensures Draws(more, OnTool(m, d, rand), atoms + [Call(d)], rand)
  {
    var m', all, k := OnTool(m, d, rand), atoms + [Call(d)], d.key;
    StepDraws(m, d, rand);
    forall l | l != k ensures Drawn(all, l) <==> Drawn(atoms, l) {
      DrawnOther(atoms, Call(d), l);
    }
    if d.name == "" || FirstName(atoms, k) != "" {
      DrawnOther(atoms, Call(d), k);
      SameDraws(draw, m, m', atoms, all, rand);
      more := draw;
    } else {
      DrawnNow(atoms, Call(d), k);
      if Drawn(all, k) {
        OneMoreDraw(draw, m, m', atoms, all, k, rand);
        more := draw[k := m.draws];
      } else {
        SameDraws(draw, m, m', atoms, all, rand);
        more := draw;
      }
    }
  }

  lemma {:induction false} DrawsAreOwn(atoms: seq<Atom>, rand: Rand) returns (draw: map<int, nat>)
    ensures Draws(draw, Feed(atoms, rand), atoms, rand)
  {
    if atoms == [] {
      draw := map[];
    } else {
      var before, a := ButLast(atoms), Last(atoms);
      draw := DrawsAreOwn(before, rand);
      assert atoms == before + [a];
      match a
      case Say(text) => TextDraws(draw, Feed(before, rand), before, text, rand);
      case Call(d) =>
        Reachable(before, rand, 0);
        ToolHistory(before, rand, d.key);
        draw := CallDraws(draw, Feed(before, rand), before, d, rand);
    }
  }

  /** Two tools that have to be given random ids are given two draws, so different ids whenever draws differ. */
  lemma RandomIdsDiffer(atoms: seq<Atom>, rand: Rand, k: int, l: int)
    requires k != l && Drawn(atoms, k) && Drawn(atoms, l)
    ensures var m := Feed(atoms, rand);
            k in m.tools && l in m.tools
            && exists i: nat, j: nat ::
                 i > 0 && j > 0 && i != j && m.tools[k].id == "toolu_" + rand(i) && m.tools[l].id == "toolu_" + rand(j)
  {
    var draw := DrawsAreOwn(atoms, rand);
    assert draw[k] != draw[l];
  }

  // ---------------------------------------------------------------- how the message ends

  // The last finish reason that a line before position n gives; none is the empty one.
  ghost predicate LastFinish(lines: seq<Line>, n: nat, reason: string)
    requires n <= |lines|
  {
    if forall i | 0 <= i < n && BringsChoice(lines[i]) :: lines[i].chunk.choices[0].finishReason == "" then reason == ""
    else
      exists i :: 0 <= i < n && BringsChoice(lines[i]) && lines[i].chunk.choices[0].finishReason == reason != ""
                  && forall j | i < j < n && BringsChoice(lines[j]) :: lines[j].chunk.choices[0].finishReason == ""
  }

  // The last usage report before position n.
  ghost predicate LastUsage(lines: seq<Line>, n: nat, usage: Usage)
    requires n <= |lines|
  {
    if forall i | 0 <= i < n && lines[i].Data? :: lines[i].chunk.usage.None? then usage == Usage(0, 0)
    else
      exists i :: 0 <= i < n && lines[i].Data? && lines[i].chunk.usage == Some(usage)
                  && forall j | i < j < n && lines[j].Data? :: lines[j].chunk.usage.None?
  }

  lemma FinishIsLast(lines: seq<Line>, n: nat, reason: string)
    requires n <= |lines| && IsLatest(LineFinish, "", lines[..n], reason)
    ensures LastFinish(lines, n, reason)
  {
    var live := lines[..n];
    if i :| 0 <= i < n && LineFinish(live[i]) == Some(reason) && forall j | i < j < n :: LineFinish(live[j]).None? {
      assert lines[i] == live[i] && lines[i].chunk.choices[0].finishReason == reason;
      forall j | i < j < n && BringsChoice(lines[j]) ensures lines[j].chunk.choices[0].finishReason == "" {
        assert LineFinish(live[j]).None?;
      }
    } else {
      forall i | 0 <= i < n && BringsChoice(lines[i]) ensures lines[i].chunk.choices[0].finishReason == "" {
        assert LineFinish(live[i]).None?;
      }
    }
  }

  lemma UsageIsLast(lines: seq<Line>, n: nat, usage: Usage)
    requires n <= |lines| && IsLatest(LineUsage, NoUsage, lines[..n], usage)
    ensures LastUsage(lines, n, usage)
  {
    var live := lines[..n];
    if i :| 0 <= i < n && LineUsage(live[i]) == Some(usage) && forall j | i < j < n :: LineUsage(live[j]).None? {
      assert lines[i] == live[i] && lines[i].chunk.usage == Some(usage);
      forall j | i < j < n && lines[j].Data? ensures lines[j].chunk.usage.None? {
        assert LineUsage(live[j]).None?;
      }
    } else {
      forall i | 0 <= i < n && lines[i].Data? ensures lines[i].chunk.usage.None? {
        assert LineUsage(live[i]).None?;
      }
    }
  }

  // The message begins under its own random id and the model asked for; it ends with the stop reason for the last finish
  // reason given, and the last usage reported, before the end marker.
  ghost predicate Enveloped(lines: seq<Line>, tr: seq<Event>, model: string, rand: Rand) {
    && |tr| >= 3 && tr[0] == MessageStart("msg_" + rand(0), model)
    && exists reason, usage ::
         && LastFinish(lines, EndOf(lines), reason) && LastUsage(lines, EndOf(lines), usage)
         && tr[|tr| - 2] == MessageDelta(MapFinishReason(reason), usage)
  }

  lemma EnvelopeHeard(lines: seq<Line>, model: string, rand: Rand, order: seq<int>)
    requires IsCloseOrder(Feed(Atoms(lines), rand), order)
    ensures Enveloped(lines, Trace(lines, model, rand, order), model, rand)
  {
    var n := EndOf(lines);
    LiveIs(lines, n);
    LatestIsLatest(LineFinish, "", lines[..n]);
    LatestIsLatest(LineUsage, NoUsage, lines[..n]);
    FinishIsLast(lines, n, FinishOf(lines));
    UsageIsLast(lines, n, UsageOf(lines));
  }

  // ---------------------------------------------------------------- the closing events

  lemma KeepsTextSlots(l: seq<Slot>, a: Atom, i: int)
    requires 0 <= i < |l| && l[i].TextSlot?
    ensures i < |Extend(l, a)| && Extend(l, a)[i].TextSlot?
  {
  }

  // So far only text blocks have been stopped.
  predicate StopsText(out: seq<Event>, l: seq<Slot>) {
    forall p | 0 <= p < |out| && out[p].BlockStop? :: 0 <= out[p].index < |l| && l[out[p].index].TextSlot?
  }

  lemma StopsStayText(out: seq<Event>, l: seq<Slot>, a: Atom)
    requires StopsText(out, l)
    ensures StopsText(out, Extend(l, a))
  {
    forall p | 0 <= p < |out| && out[p].BlockStop?
      ensures 0 <= out[p].index < |Extend(l, a)| && Extend(l, a)[out[p].index].TextSlot? {
      KeepsTextSlots(l, a, out[p].index);
    }
  }

  lemma ToolStopsText(m: Machine, l: seq<Slot>, d: ToolDelta, rand: Rand)
    requires Book(m, l) && StopsText(m.out, l) && StopsText(m.out, Extend(l, Call(d)))
    ensures StopsText(OnTool(m, d, rand).out, Extend(l, Call(d)))
  {
    var m1, l1 := Admit(m, d), Extend(l, Call(d));
    if d.key !in m.tools && m.textOpen {
      KeepsTextSlots(l, Call(d), m.textIndex);
    }
    assert StopsText(m1.out, l1);
    var m2 := Open(Fill(m1, d), d.key, rand);
    assert StopsText(m2.out, l1);
  }

  lemma {:induction false} OutStopsText(atoms: seq<Atom>, rand: Rand)
    ensures StopsText(Feed(atoms, rand).out, Layout(atoms))
  {
    if atoms != [] {
      var m, l, a := Feed(ButLast(atoms), rand), Layout(ButLast(atoms)), Last(atoms);
      OutStopsText(ButLast(atoms), rand);
      StopsStayText(m.out, l, a);
      if a.Call? {
        Reachable(ButLast(atoms), rand, 0);
        ToolStopsText(m, l, a.d, rand);
      }
    }
  }

  predicate StopsTools(out: seq<Event>, l: seq<Slot>) {
    forall p | 0 <= p < |out| :: out[p].BlockStop? && 0 <= out[p].index < |l| && l[out[p].index].ToolSlot?
  }

  lemma {:induction false} CloseStopsTools(m: Machine, l: seq<Slot>, order: seq<int>)
    requires Book(m, l) && forall k | k in order :: k in m.tools
    ensures StopsTools(CloseTools(m, order), l)
  {
    if order != [] {
      assert order == ButLast(order) + [Last(order)];
      CloseStopsTools(m, l, ButLast(order));
    }
  }

  // Where the final stops of tool blocks begin.
  ghost predicate ToolStopsFrom(tr: seq<Event>, l: seq<Slot>, c: int) {
    && 0 <= c <= |tr| - 2 && StopsText(tr[..c], l) && StopsTools(tr[c..|tr| - 2], l)
  }

  // The parts of a trace before and after that point.
  lemma FrameParts(first: Event, out: seq<Event>, text: seq<Event>, tools: seq<Event>, last: seq<Event>)
    requires |last| == 2
    ensures var tr, c := Frame(first, out + (text + tools), last), 1 + |out| + |text|;
            c <= |tr| - 2 && tr[..c] == [first] + out + text && tr[c..|tr| - 2] == tools
  {
  }

  lemma StopsTextMore(first: Event, out: seq<Event>, m: Machine, l: seq<Slot>)
    requires Book(m, l) && StopsText(out, l) && !first.BlockStop?
    ensures StopsText([first] + out + CloseText(m), l)
  {
    var all := [first] + out + CloseText(m);
    forall p | 0 <= p < |all| && all[p].BlockStop? ensures 0 <= all[p].index < |l| && l[all[p].index].TextSlot? {
      if 1 <= p <= |out| {
        assert all[p] == out[p - 1];
      }
    }
  }

  lemma ToolStopsAfter(first: Event, out: seq<Event>, m: Machine, order: seq<int>, last: seq<Event>, l: seq<Slot>)
    requires Book(m, l) && StopsText(out, l) && !first.BlockStop? && |last| == 2
    requires forall k | k in order :: k in m.tools
    ensures ToolStopsFrom(Frame(first, out + Closing(m, order), last), l, 1 + |out| + |CloseText(m)|)
  {
    FrameParts(first, out, CloseText(m), CloseTools(m, order), last);
    StopsTextMore(first, out, m, l);
    CloseStopsTools(m, l, order);
  }

  lemma FedToolStops(first: Event, atoms: seq<Atom>, rand: Rand, order: seq<int>, last: seq<Event>) returns (c: int)
    requires IsCloseOrder(Feed(atoms, rand), order) && !first.BlockStop? && |last| == 2
    ensures ToolStopsFrom(Frame(first, Feed(atoms, rand).out + Closing(Feed(atoms, rand), order), last), Layout(atoms), c)
  {
    var m := Feed(atoms, rand);
    Reachable(atoms, rand, 0);
    OutStopsText(atoms, rand);
    ToolStopsAfter(first, m.out, m, order, last, Layout(atoms));
    c := 1 + |m.out| + |CloseText(m)|;
  }

  lemma ToolStopsLast(lines: seq<Line>, model: string, rand: Rand, order: seq<int>) returns (c: int)
    requires IsCloseOrder(Feed(Atoms(lines), rand), order)
    ensures ToolStopsFrom(Trace(lines, model, rand, order), Layout(Atoms(lines)), c)
  {
    c := FedToolStops(MessageStart("msg_" + rand(0), model), Atoms(lines), rand, order,
                      [MessageDelta(MapFinishReason(FinishOf(lines)), UsageOf(lines)), MessageStop]);
  }

  lemma HeadUnique(view: seq<Event>, g: Head, h: Head)
    requires Finished(view, g) && Finished(view, h)
    ensures g == h
  {
    RunningHead(ButLast(view), g);
    RunningHead(ButLast(view), h);
  }

  lemma TextSlotIff(lines: seq<Line>, model: string, rand: Rand, order: seq<int>, i: int)
    requires IsCloseOrder(Feed(Atoms(lines), rand), order)
    ensures var l := Layout(Atoms(lines));
            Finished(At(Trace(lines, model, rand, order), i), TextHead) <==> 0 <= i < |l| && l[i].TextSlot?
  {
    var view, m := At(Trace(lines, model, rand, order), i), Feed(Atoms(lines), rand);
    StreamAt(lines, model, rand, order, i);
    var l := Layout(Atoms(lines));
    if 0 <= i < |l| && l[i].ToolSlot? && view != [] && Finished(view, TextHead) {
      HeadUnique(view, TextHead, ToolHead(m.tools[l[i].key].id, m.tools[l[i].key].name));
    }
  }

  /** Tool blocks are stopped after everything else: a text block never after a tool block. */
  lemma TextStopsFirst(lines: seq<Line>, model: string, rand: Rand, order: seq<int>, p: int, q: int)
    requires IsCloseOrder(Feed(Atoms(lines), rand), order)
    requires var tr := Trace(lines, model, rand, order);
             0 <= p < q < |tr| && tr[p].BlockStop? && tr[q].BlockStop? && Finished(At(tr, tr[q].index), TextHead)
    ensures var tr := Trace(lines, model, rand, order);
            Finished(At(tr, tr[p].index), TextHead)
  {
    var tr, l := Trace(lines, model, rand, order), Layout(Atoms(lines));
    var c := ToolStopsLast(lines, model, rand, order);
    TextSlotIff(lines, model, rand, order, tr[p].index);
    TextSlotIff(lines, model, rand, order, tr[q].index);
    StopPlaces(tr, l, c, p, q);
  }

  lemma StopPlaces(tr: seq<Event>, l: seq<Slot>, c: int, p: int, q: int)
    requires ToolStopsFrom(tr, l, c) && 0 <= p < q < |tr| && tr[p].BlockStop? && tr[q].BlockStop?
    requires tr[|tr| - 2].MessageDelta? && tr[|tr| - 1].MessageStop?
    requires 0 <= tr[q].index < |l| && l[tr[q].index].TextSlot?
    ensures 0 <= tr[p].index < |l| && l[tr[p].index].TextSlot?
  {
    assert forall x | c <= x < |tr| - 2 :: tr[c..|tr| - 2][x - c] == tr[x];
    assert forall x | 0 <= x < c :: tr[..c][x] == tr[x];
  }
}
