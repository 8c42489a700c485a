/** The scan loop itself, proved against the machine and, through it, against the stream theorems. */
module StreamMethod {
  import opened Common
  import opened OpenAI
  import opened Anthropic
  import opened Stream
  import opened StreamLifecycle
  import opened StreamConservation
  import opened StreamTheorems
  import opened StreamInput

  lemma AtomsSnoc(live: seq<Line>, line: Line)
    ensures AtomsOf(live + [line])
            == AtomsOf(live) + if BringsChoice(line) then [Say(ContentOf(line))] + Calls(DeltasOf(line)) else []
    ensures FinishIn(live + [line]) == if LineFinish(line).Some? then LineFinish(line).value else FinishIn(live)
    ensures UsageIn(live + [line]) == if LineUsage(line).Some? then LineUsage(line).value else UsageIn(live)
  {
    AtomsMore(live, line);
    LatestSnoc(LineFinish, "", live, line);
    LatestSnoc(LineUsage, NoUsage, live, line);
  }

  // First sight of a tool call: the open text block is stopped and an index taken.
  method AdmitTool(ghost m: Machine, d: ToolDelta, textIndex: int, textOpenIn: bool, toolStatesIn: map<int, Tool>,
                   nextIndexIn: nat)
    returns (textOpen: bool, toolStates: map<int, Tool>, nextIndex: nat, written: seq<Event>)
    requires m == Machine(textIndex, textOpenIn, toolStatesIn, nextIndexIn, m.draws, m.out)
    ensures Admit(m, d) == Machine(textIndex, textOpen, toolStates, nextIndex, m.draws, m.out + written)
  {
    textOpen, toolStates, nextIndex, written := textOpenIn, toolStatesIn, nextIndexIn, [];
    if d.key !in toolStates {
      if textOpen {
        written := written + [BlockStop(textIndex)];
        textOpen := false;
      }
      toolStates := toolStates[d.key := Tool(nextIndex, d.id, d.name, "", false)];
      nextIndex := nextIndex + 1;
    }
  }

  // Fill in the header, open the block once it has a name, pass its arguments on.
  method AdvanceTool(ghost m: Machine, d: ToolDelta, rand: Rand, toolStatesIn: map<int, Tool>, drawsIn: nat)
    returns (toolStates: map<int, Tool>, draws: nat, written: seq<Event>)
    requires m.tools == toolStatesIn && m.draws == drawsIn && d.key in toolStatesIn
    ensures Append(Open(Fill(m, d), d.key, rand), d) == m.(tools := toolStates, draws := draws, out := m.out + written)
  {
    draws, written := drawsIn, [];
    var st := toolStatesIn[d.key];
    if d.id != "" && st.id == "" {
      st := st.(id := d.id);
    }
    if d.name != "" && st.name == "" {
      st := st.(name := d.name);
    }
    toolStates := toolStatesIn[d.key := st];
    ghost var m1 := Fill(m, d);
    assert m1 == m.(tools := toolStates);
    if !st.started && st.name != "" {
      var id := st.id;
      if id == "" {
        id := "toolu_" + rand(draws);
        draws := draws + 1;
      }
      written := written + [BlockStart(st.index, ToolHead(id, st.name))];
      st := st.(id := id, started := true);
      toolStates := toolStates[d.key := st];
    }
    ghost var m2 := Open(m1, d.key, rand);
    assert m2 == m.(tools := toolStates, draws := draws, out := m.out + written);
    if d.args != "" && st.started {
      toolStates := toolStates[d.key := st.(args := st.args + d.args)];
      written := written + [BlockDelta(st.index, JsonDelta(d.args))];
    }
  }

  // The stop events for the tools still in the table, in whatever order the table yields them.
  method StopTools(ghost m: Machine, toolStates: map<int, Tool>) returns (written: seq<Event>, ghost order: seq<int>)
    requires m.tools == toolStates
    ensures IsCloseOrder(m, order) && written == CloseTools(m, order)
  {
    written, order := [], [];
    var remaining := toolStates.Keys;
    while remaining != {}
      invariant remaining <= toolStates.Keys
      invariant forall k | k in order :: k in toolStates && k !in remaining && toolStates[k].started
      invariant forall k | k in toolStates && k !in remaining && toolStates[k].started :: k in order
      invariant forall i, j | 0 <= i < j < |order| :: order[i] != order[j]
      invariant written == CloseTools(m, order)
    {
      assert exists k :: k in remaining by { var k := Member(remaining); }
      var k :| k in remaining;
      remaining := remaining - {k};
      if toolStates[k].started {
        SnocParts(order, k);
        order := order + [k];
        written := written + [BlockStop(toolStates[k].index)];
      }
    }
  }

  // One tool-call delta: the body of the inner loop.
  method FeedCall(ghost atoms: seq<Atom>, d: ToolDelta, rand: Rand, textIndex: int, textOpenIn: bool,
                  toolStatesIn: map<int, Tool>, nextIndexIn: nat, drawsIn: nat, writtenIn: seq<Event>)
    returns (textOpen: bool, toolStates: map<int, Tool>, nextIndex: nat, draws: nat, written: seq<Event>)
    requires Feed(atoms, rand) == Machine(textIndex, textOpenIn, toolStatesIn, nextIndexIn, drawsIn, writtenIn)
    ensures Feed(atoms + [Call(d)], rand) == Machine(textIndex, textOpen, toolStates, nextIndex, draws, written)
  {
    ghost var m := Machine(textIndex, textOpenIn, toolStatesIn, nextIndexIn, drawsIn, writtenIn);
    FeedSnoc(atoms, Call(d), rand);
    var admitted, fed;
    textOpen, toolStates, nextIndex, admitted := AdmitTool(m, d, textIndex, textOpenIn, toolStatesIn, nextIndexIn);
    toolStates, draws, fed := AdvanceTool(Admit(m, d), d, rand, toolStates, drawsIn);
    written := writtenIn + admitted + fed;
  }

  lemma CallsSnoc(calls: seq<ToolDelta>, j: nat)
    requires j < |calls|
    ensures Calls(calls[..j + 1]) == Calls(calls[..j]) + [Call(calls[j])]
  {
  }

  // The inner loop over one delta's tool calls.
  method FeedCalls(ghost atoms: seq<Atom>, calls: seq<ToolDelta>, rand: Rand, textIndex: int, textOpenIn: bool,
                   toolStatesIn: map<int, Tool>, nextIndexIn: nat, drawsIn: nat, writtenIn: seq<Event>)
    returns (textOpen: bool, toolStates: map<int, Tool>, nextIndex: nat, draws: nat, written: seq<Event>)
    requires Feed(atoms, rand) == Machine(textIndex, textOpenIn, toolStatesIn, nextIndexIn, drawsIn, writtenIn)
    ensures Feed(atoms + Calls(calls), rand) == Machine(textIndex, textOpen, toolStates, nextIndex, draws, written)
  {
    textOpen, toolStates, nextIndex, draws, written := textOpenIn, toolStatesIn, nextIndexIn, drawsIn, writtenIn;
    ghost var fed := atoms;
    for j := 0 to |calls|
      invariant fed == atoms + Calls(calls[..j])
      invariant Feed(fed, rand) == Machine(textIndex, textOpen, toolStates, nextIndex, draws, written)
    {
      textOpen, toolStates, nextIndex, draws, written :=
        FeedCall(fed, calls[j], rand, textIndex, textOpen, toolStates, nextIndex, draws, written);
      CallsSnoc(calls, j);
      assert fed + [Call(calls[j])] == atoms + (Calls(calls[..j]) + [Call(calls[j])]);
      fed := fed + [Call(calls[j])];
    }
    assert calls[..|calls|] == calls;
  }

  // The text part of a delta.
  method FeedText(ghost atoms: seq<Atom>, content: string, rand: Rand, textIndexIn: int, textOpenIn: bool,
                  toolStates: map<int, Tool>, nextIndexIn: nat, draws: nat, writtenIn: seq<Event>)
    returns (textIndex: int, textOpen: bool, nextIndex: nat, written: seq<Event>)
    requires Feed(atoms, rand) == Machine(textIndexIn, textOpenIn, toolStates, nextIndexIn, draws, writtenIn)
    ensures Feed(atoms + [Say(content)], rand) == Machine(textIndex, textOpen, toolStates, nextIndex, draws, written)
  {
    textIndex, textOpen, nextIndex, written := textIndexIn, textOpenIn, nextIndexIn, writtenIn;
    FeedSnoc(atoms, Say(content), rand);
    if content != "" {
      if !textOpen {
        textIndex, nextIndex, textOpen := nextIndex, nextIndex + 1, true;
        written := written + [BlockStart(textIndex, TextHead)];
      }
      written := written + [BlockDelta(textIndex, TextDelta(content))];
    }
  }

  // One choice's delta: its text, then its tool calls.
  method FeedChoice(ghost atoms: seq<Atom>, ch: StreamChoice, rand: Rand, textIndexIn: int, textOpenIn: bool,
                    toolStatesIn: map<int, Tool>, nextIndexIn: nat, drawsIn: nat, writtenIn: seq<Event>)
    returns (textIndex: int, textOpen: bool, toolStates: map<int, Tool>, nextIndex: nat, draws: nat, written: seq<Event>)
    requires Feed(atoms, rand) == Machine(textIndexIn, textOpenIn, toolStatesIn, nextIndexIn, drawsIn, writtenIn)
    ensures Feed(atoms + ([Say(ch.content)] + Calls(ch.toolCalls)), rand)
            == Machine(textIndex, textOpen, toolStates, nextIndex, draws, written)
  {
    textIndex, textOpen, nextIndex, written :=
      FeedText(atoms, ch.content, rand, textIndexIn, textOpenIn, toolStatesIn, nextIndexIn, drawsIn, writtenIn);
    textOpen, toolStates, nextIndex, draws, written :=
      FeedCalls(atoms + [Say(ch.content)], ch.toolCalls, rand, textIndex, textOpen, toolStatesIn, nextIndex, drawsIn, written);
    assert atoms + [Say(ch.content)] + Calls(ch.toolCalls) == atoms + ([Say(ch.content)] + Calls(ch.toolCalls));
  }

  // One line of the stream.
  method FeedLine(ghost atoms: seq<Atom>, line: Line, rand: Rand, textIndexIn: int, textOpenIn: bool,
                  toolStatesIn: map<int, Tool>, nextIndexIn: nat, drawsIn: nat, writtenIn: seq<Event>)
    returns (textIndex: int, textOpen: bool, toolStates: map<int, Tool>, nextIndex: nat, draws: nat, written: seq<Event>)
    requires Feed(atoms, rand) == Machine(textIndexIn, textOpenIn, toolStatesIn, nextIndexIn, drawsIn, writtenIn)
    ensures Feed(atoms + if BringsChoice(line) then [Say(ContentOf(line))] + Calls(DeltasOf(line)) else [], rand)
            == Machine(textIndex, textOpen, toolStates, nextIndex, draws, written)
  {
    if line.Data? && |line.chunk.choices| != 0 {
      textIndex, textOpen, toolStates, nextIndex, draws, written :=
        FeedChoice(atoms, line.chunk.choices[0], rand, textIndexIn, textOpenIn, toolStatesIn, nextIndexIn, drawsIn, writtenIn);
    } else {
      textIndex, textOpen, toolStates, nextIndex, draws, written :=
        textIndexIn, textOpenIn, toolStatesIn, nextIndexIn, drawsIn, writtenIn;
      assert atoms + [] == atoms;
    }
  }

  // The scan loop: up to the end marker or the end of input.
  method ScanLines(lines: seq<Line>, rand: Rand)
    returns (textIndex: int, textOpen: bool, toolStates: map<int, Tool>, finishReason: string, usage: Usage,
             written: seq<Event>)
    ensures var m := Feed(Atoms(lines), rand);
            m.textIndex == textIndex && m.textOpen == textOpen && m.tools == toolStates && m.out == written
    ensures finishReason == FinishOf(lines) && usage == UsageOf(lines)
  {
    textIndex, textOpen, toolStates, written := -1, false, map[], [];
    finishReason, usage := "", NoUsage;
    var nextIndex: nat, draws: nat := 0, 1;
    var n := 0;
    ghost var live, fed := [], [];
    while n < |lines| && !lines[n].Done?
      invariant n <= |lines| && live == lines[..n] && forall i | 0 <= i < n :: !lines[i].Done?
      invariant fed == AtomsOf(live)
      invariant Feed(fed, rand) == Machine(textIndex, textOpen, toolStates, nextIndex, draws, written)
      invariant finishReason == FinishIn(live) && usage == UsageIn(live)
    {
      var line := lines[n];
      AtomsSnoc(live, line);
      if line.Data? && line.chunk.usage.Some? {
        usage := line.chunk.usage.value;
      }
      if line.Data? && |line.chunk.choices| != 0 && line.chunk.choices[0].finishReason != "" {
        finishReason := line.chunk.choices[0].finishReason;
      }
      textIndex, textOpen, toolStates, nextIndex, draws, written :=
        FeedLine(fed, line, rand, textIndex, textOpen, toolStates, nextIndex, draws, written);
      fed, live, n := AtomsOf(live + [line]), live + [line], n + 1;
    }
    LiveIs(lines, n);
  }

  /** `streamOpenAIToAnthropic`: the events it writes form one of the traces, hence keep every promise made of them. */
  method StreamOpenAIToAnthropic(lines: seq<Line>, model: string, rand: Rand)
    returns (trace: seq<Event>, ghost order: seq<int>)
    ensures IsCloseOrder(Feed(Atoms(lines), rand), order) && trace == Trace(lines, model, rand, order)
    ensures WellFormed(trace)
    ensures TextOf(trace) == Heard(lines, EndOf(lines))
    ensures forall k :: HearsTool(lines, trace, rand, k)
    ensures Enveloped(lines, trace, model, rand)
  {
    trace := [MessageStart("msg_" + rand(0), model)];
    var textIndex, textOpen, toolStates, finishReason, usage, written := ScanLines(lines, rand);
    ghost var m := Feed(Atoms(lines), rand);
    var last := if textOpen then [BlockStop(textIndex)] else [];
    var stops;
    stops, order := StopTools(m, toolStates);
    trace := trace + (written + (last + stops));
    trace := trace + [MessageDelta(MapFinishReason(finishReason), usage), MessageStop];
    StreamIsWellFormed(lines, model, rand, order);
    TextHeard(lines, model, rand, order);
    EnvelopeHeard(lines, model, rand, order);
    forall k ensures HearsTool(lines, trace, rand, k) {
      ToolHeard(lines, model, rand, order, k);
    }
  }
}
