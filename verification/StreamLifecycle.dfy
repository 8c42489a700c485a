/** Block lifecycles: what the trace of any stream looks like at each block index. */
module StreamLifecycle {
  import opened Common
  import opened OpenAI
  import opened Anthropic
  import opened Stream

  // ---------------------------------------------------------------- views of a trace

  predicate Hits(e: Event, i: int) {
    IsBlockEvent(e) && e.index == i
  }

  // The block events of one index, in order.
  function At(tr: seq<Event>, i: int): seq<Event> {
    if tr == [] then [] else At(ButLast(tr), i) + if Hits(Last(tr), i) then [Last(tr)] else []
  }

  lemma AtSnoc(tr: seq<Event>, e: Event, i: int)
    ensures At(tr + [e], i) == if Hits(e, i) then At(tr, i) + [e] else At(tr, i)
  {
    SnocParts(tr, e);
  }

  lemma {:induction false} AtConcat(a: seq<Event>, b: seq<Event>, i: int)
    ensures At(a + b, i) == At(a, i) + At(b, i)
  {
    if b == [] {
      assert a + b == a;
    } else {
      AtConcat(a, ButLast(b), i);
      assert a + b == (a + ButLast(b)) + [Last(b)];
      AtSnoc(a + ButLast(b), Last(b), i);
    }
  }

  // What the deltas of a block add up to.
  function Payload(s: seq<Event>): string {
    if s == [] then ""
    else Payload(ButLast(s)) + match Last(s)
                            case BlockDelta(_, TextDelta(t)) => t
                            case BlockDelta(_, JsonDelta(j)) => j
                            case _ => ""
  }

  lemma PayloadSnoc(s: seq<Event>, e: Event)
    ensures Payload(s + [e]) == Payload(s) + match e
                                             case BlockDelta(_, TextDelta(t)) => t
                                             case BlockDelta(_, JsonDelta(j)) => j
                                             case _ => ""
  {
    SnocParts(s, e);
  }

  predicate DeltaOf(e: Event, head: Head) {
    e.BlockDelta? && (e.delta.TextDelta? <==> head.TextHead?)
  }

  // A start with this head followed by deltas of its own kind.
  predicate Running(s: seq<Event>, head: Head) {
    && s != []
    && if |s| == 1 then s[0].BlockStart? && s[0].head == head
       else DeltaOf(Last(s), head) && Running(ButLast(s), head)
  }

  lemma {:induction false} RunningHead(view: seq<Event>, h: Head)
    requires Running(view, h)
    ensures view[0].BlockStart? && view[0].head == h
  {
    if |view| > 1 {
      RunningHead(ButLast(view), h);
    }
  }

  // A running block that has been stopped.
  predicate Finished(s: seq<Event>, head: Head) {
    s != [] && Last(s).BlockStop? && Running(ButLast(s), head)
  }

  // ---------------------------------------------------------------- who owns each index

  datatype Slot = TextSlot(text: string) | ToolSlot(key: int)

  // Block indices in allocation order: a run of text, or a tool call at its first delta.
  function Layout(atoms: seq<Atom>): seq<Slot> {
    if atoms == [] then [] else Extend(Layout(ButLast(atoms)), Last(atoms))
  }

  function Extend(l: seq<Slot>, a: Atom): seq<Slot> {
    match a
    case Say(text) =>
      if text == "" then l
      else if l != [] && Last(l).TextSlot? then ButLast(l) + [TextSlot(Last(l).text + text)]
      else l + [TextSlot(text)]
    case Call(d) => if ToolSlot(d.key) in l then l else l + [ToolSlot(d.key)]
  }

  // The machine's counters and tables agree with the layout.
  ghost predicate Book(m: Machine, l: seq<Slot>) {
    && m.nextIndex == |l|
    && (m.textOpen <==> l != [] && Last(l).TextSlot?)
    && (m.textOpen ==> m.textIndex == |l| - 1)
    && (forall k | k in m.tools :: 0 <= m.tools[k].index < |l| && l[m.tools[k].index] == ToolSlot(k))
    && (forall i | 0 <= i < |l| && l[i].ToolSlot? :: l[i].key in m.tools && m.tools[l[i].key].index == i)
    && (forall k | k in m.tools && m.tools[k].started :: m.tools[k].id != "" && m.tools[k].name != "")
  }

  predicate TextShape(view: seq<Event>, text: string, open: bool) {
    && Payload(view) == text && text != ""
    && if open then Running(view, TextHead) else Finished(view, TextHead)
  }

  predicate ToolShape(view: seq<Event>, t: Tool) {
    Payload(view) == t.args && if t.started then Running(view, ToolHead(t.id, t.name)) else view == []
  }

  // The events of index i are what its owner accounts for.
  ghost predicate Shape(m: Machine, l: seq<Slot>, i: int)
    requires Book(m, l)
  {
    if !(0 <= i < |l|) then At(m.out, i) == []
    else match l[i]
         case TextSlot(text) => TextShape(At(m.out, i), text, m.textOpen && i == m.textIndex)
         case ToolSlot(k) => ToolShape(At(m.out, i), m.tools[k])
  }

  lemma TextKeepsBook(m: Machine, l: seq<Slot>, text: string)
    requires Book(m, l)
    ensures Book(OnText(m, text), Extend(l, Say(text)))
  {
  }

  lemma MoreTextShape(view: seq<Event>, i: int, text: string, more: string)
    requires TextShape(view, text, true) && more != ""
    ensures TextShape(view + [BlockDelta(i, TextDelta(more))], text + more, true)
  {
    PayloadSnoc(view, BlockDelta(i, TextDelta(more)));
    SnocParts(view, BlockDelta(i, TextDelta(more)));
  }

  lemma NewTextShape(i: int, text: string)
    requires text != ""
    ensures TextShape([BlockStart(i, TextHead)] + [BlockDelta(i, TextDelta(text))], text, true)
  {
    var b, e := BlockStart(i, TextHead), BlockDelta(i, TextDelta(text));
    PayloadSnoc([], b);
    PayloadSnoc([b], e);
    SnocParts([b], e);
    assert [] + [b] == [b] && "" + text == text;
  }

  lemma TextKeepsShape(m: Machine, l: seq<Slot>, text: string, i: int)
    requires Book(m, l) && Book(OnText(m, text), Extend(l, Say(text))) && Shape(m, l, i)
    ensures Shape(OnText(m, text), Extend(l, Say(text)), i)
  {
    if text != "" {
      var j := if m.textOpen then m.textIndex else m.nextIndex;
      var b, e := BlockStart(j, TextHead), BlockDelta(j, TextDelta(text));
      if m.textOpen {
        AtSnoc(m.out, e, i);
        if i == j {
          MoreTextShape(At(m.out, i), i, l[i].text, text);
        }
      } else {
        AtSnoc(m.out, b, i);
        AtSnoc(m.out + [b], e, i);
        if i == j {
          NewTextShape(i, text);
        }
      }
    }
  }

  lemma AdmitKeepsBook(m: Machine, l: seq<Slot>, d: ToolDelta)
    requires Book(m, l)
    ensures Book(Admit(m, d), Extend(l, Call(d))) && d.key in Admit(m, d).tools
  {
    if ToolSlot(d.key) in l {
      var i :| 0 <= i < |l| && l[i] == ToolSlot(d.key);
    } else {
      assert d.key !in m.tools;
      assert Last(Extend(l, Call(d))) == ToolSlot(d.key);
    }
  }

  lemma AdmitKeepsShape(m: Machine, l: seq<Slot>, d: ToolDelta, i: int)
    requires Book(m, l) && Book(Admit(m, d), Extend(l, Call(d))) && Shape(m, l, i)
    ensures Shape(Admit(m, d), Extend(l, Call(d)), i)
  {
    if d.key !in m.tools {
      assert ToolSlot(d.key) !in l;
      if m.textOpen {
        var e := BlockStop(m.textIndex);
        AtSnoc(m.out, e, i);
        PayloadSnoc(At(m.out, i), e);
        SnocParts(At(m.out, i), e);
      }
    } else {
      assert l[m.tools[d.key].index] == ToolSlot(d.key);
    }
  }

  lemma FillKeeps(m: Machine, l: seq<Slot>, d: ToolDelta, i: int)
    requires Book(m, l) && d.key in m.tools && Shape(m, l, i)
    ensures Book(Fill(m, d), l) && Shape(Fill(m, d), l, i)
  {
    var t, t' := m.tools[d.key], Fill(m, d).tools[d.key];
    assert t.started ==> t' == t;
  }

  lemma OpenKeepsBook(m: Machine, l: seq<Slot>, key: int, rand: Rand)
    requires Book(m, l) && key in m.tools
    ensures Book(Open(m, key, rand), l)
  {
  }

  lemma StartedShape(i: int, t: Tool)
    requires t.started && t.args == ""
    ensures ToolShape([BlockStart(i, ToolHead(t.id, t.name))], t)
  {
    var e := BlockStart(i, ToolHead(t.id, t.name));
    PayloadSnoc([], e);
    assert [] + [e] == [e];
  }

  lemma OpenKeepsShape(m: Machine, l: seq<Slot>, key: int, rand: Rand, i: int)
    requires Book(m, l) && key in m.tools && Book(Open(m, key, rand), l) && Shape(m, l, i)
    requires Shape(m, l, m.tools[key].index)
    ensures Shape(Open(m, key, rand), l, i)
  {
    var m', t := Open(m, key, rand), m.tools[key];
    if !t.started && t.name != "" {
      AtSnoc(m.out, BlockStart(t.index, ToolHead(m'.tools[key].id, t.name)), i);
      assert l[t.index] == ToolSlot(key) && ToolShape(At(m.out, t.index), t);
      if i == t.index {
        assert t.args == "" by {
          assert At(m.out, i) == [];
        }
        StartedShape(i, m'.tools[key]);
      } else if 0 <= i < |l| && l[i].ToolSlot? {
        assert l[i].key != key;
      }
    }
  }

  lemma AppendKeepsBook(m: Machine, l: seq<Slot>, d: ToolDelta)
    requires Book(m, l) && d.key in m.tools
    ensures Book(Append(m, d), l)
  {
  }

  // One more fragment in a running tool block.
  lemma MoreArgsShape(view: seq<Event>, t: Tool, more: string)
    requires ToolShape(view, t) && t.started
    ensures ToolShape(view + [BlockDelta(t.index, JsonDelta(more))], t.(args := t.args + more))
  {
    var e := BlockDelta(t.index, JsonDelta(more));
    PayloadSnoc(view, e);
    SnocParts(view, e);
  }

  lemma AppendKeepsShape(m: Machine, l: seq<Slot>, d: ToolDelta, i: int)
    requires Book(m, l) && d.key in m.tools && Shape(m, l, i)
    ensures Book(Append(m, d), l) && Shape(Append(m, d), l, i)
  {
    var t := m.tools[d.key];
    AppendKeepsBook(m, l, d);
    if t.started && d.args != "" {
      AtSnoc(m.out, BlockDelta(t.index, JsonDelta(d.args)), i);
      if i == t.index {
        MoreArgsShape(At(m.out, i), t, d.args);
      } else if 0 <= i < |l| && l[i].ToolSlot? {
        assert l[i].key != d.key;
      }
    }
  }

  lemma {:induction false} Reachable(atoms: seq<Atom>, rand: Rand, i: int)
    ensures Book(Feed(atoms, rand), Layout(atoms)) && Shape(Feed(atoms, rand), Layout(atoms), i)
  {
    if atoms != [] {
      var m, l := Feed(ButLast(atoms), rand), Layout(ButLast(atoms));
      Reachable(ButLast(atoms), rand, i);
      match Last(atoms)
      case Say(text) =>
        TextKeepsBook(m, l, text);
        TextKeepsShape(m, l, text, i);
      case Call(d) =>
        var m1, l1 := Admit(m, d), Extend(l, Call(d));
        AdmitKeepsBook(m, l, d);
        AdmitKeepsShape(m, l, d, i);
        FillKeeps(m1, l1, d, i);
        var j := Fill(m1, d).tools[d.key].index;
        if j != i {
          Reachable(ButLast(atoms), rand, j);
          AdmitKeepsShape(m, l, d, j);
          FillKeeps(m1, l1, d, j);
        }
        OpenKeepsBook(Fill(m1, d), l1, d.key, rand);
        OpenKeepsShape(Fill(m1, d), l1, d.key, rand, i);
        AppendKeepsShape(Open(Fill(m1, d), d.key, rand), l1, d, i);
    }
  }

  // ---------------------------------------------------------------- the closing events

  lemma {:induction false} CloseToolsAt(m: Machine, l: seq<Slot>, order: seq<int>, i: int)
    requires Book(m, l)
    requires forall k | k in order :: k in m.tools
    requires forall a, b | 0 <= a < b < |order| :: order[a] != order[b]
    ensures At(CloseTools(m, order), i)
            == if exists k :: k in order && m.tools[k].index == i then [BlockStop(i)] else []
  {
    if order != [] {
      var k := Last(order);
      assert order == ButLast(order) + [k];
      CloseToolsAt(m, l, ButLast(order), i);
      AtSnoc(CloseTools(m, ButLast(order)), BlockStop(m.tools[k].index), i);
    }
  }

  // What has to hold of the events of index i once the stream is over.
  predicate Settled(view: seq<Event>, m: Machine, l: seq<Slot>, i: int) {
    if !(0 <= i < |l|) then view == []
    else match l[i]
         case TextSlot(text) => text != "" && Finished(view, TextHead) && Payload(view) == text
         case ToolSlot(k) =>
           && k in m.tools && Payload(view) == m.tools[k].args
           && if m.tools[k].started then Finished(view, ToolHead(m.tools[k].id, m.tools[k].name)) else view == []
  }

  lemma StopSettles(view: seq<Event>, i: int)
    ensures Payload(view + [BlockStop(i)]) == Payload(view)
    ensures forall h :: Running(view, h) ==> Finished(view + [BlockStop(i)], h)
  {
    SnocParts(view, BlockStop(i));
    PayloadSnoc(view, BlockStop(i));
  }

  lemma CloseTextAt(m: Machine, i: int)
    ensures At(CloseText(m), i) == if m.textOpen && i == m.textIndex then [BlockStop(i)] else []
  {
    AtSnoc([], BlockStop(m.textIndex), i);
    assert [] + [BlockStop(m.textIndex)] == [BlockStop(m.textIndex)];
  }

  // Whether index i is still running when the input ends.
  predicate Pending(m: Machine, l: seq<Slot>, i: int) {
    0 <= i < |l| && match l[i]
                    case TextSlot(_) => m.textOpen && i == m.textIndex
                    case ToolSlot(k) => k in m.tools && m.tools[k].started
  }

  // The tool stopped at index i, if any, is the one that owns it.
  lemma StoppedAt(m: Machine, l: seq<Slot>, order: seq<int>, i: int)
    requires Book(m, l) && IsCloseOrder(m, order)
    ensures (exists k :: k in order && m.tools[k].index == i)
            <==> 0 <= i < |l| && l[i].ToolSlot? && l[i].key in m.tools && m.tools[l[i].key].started
  {
    if k :| k in order && m.tools[k].index == i {
      assert l[i] == ToolSlot(k);
    } else if 0 <= i < |l| && l[i].ToolSlot? {
      assert m.tools[l[i].key].index == i;
    }
  }

  lemma ClosingAt(m: Machine, l: seq<Slot>, order: seq<int>, i: int)
    requires Book(m, l) && IsCloseOrder(m, order)
    ensures At(Closing(m, order), i) == if Pending(m, l, i) then [BlockStop(i)] else []
  {
    AtConcat(CloseText(m), CloseTools(m, order), i);
    CloseToolsAt(m, l, order, i);
    CloseTextAt(m, i);
    StoppedAt(m, l, order, i);
  }

  lemma TextSettles(view: seq<Event>, text: string, open: bool, i: int)
    requires TextShape(view, text, open)
    ensures var all := view + if open then [BlockStop(i)] else [];
            Finished(all, TextHead) && Payload(all) == text
  {
    StopSettles(view, i);
    assert view + [] == view;
  }

  lemma ToolSettles(view: seq<Event>, t: Tool, i: int)
    requires ToolShape(view, t)
    ensures var all := view + if t.started then [BlockStop(i)] else [];
            Payload(all) == t.args && if t.started then Finished(all, ToolHead(t.id, t.name)) else all == []
  {
    StopSettles(view, i);
    assert view + [] == view;
  }

  lemma ClosingSettles(m: Machine, l: seq<Slot>, order: seq<int>, i: int)
    requires Book(m, l) && Shape(m, l, i) && IsCloseOrder(m, order)
    ensures Settled(At(m.out + Closing(m, order), i), m, l, i)
  {
    ClosingAt(m, l, order, i);
    AtConcat(m.out, Closing(m, order), i);
    if 0 <= i < |l| {
      match l[i]
      case TextSlot(text) => TextSettles(At(m.out, i), text, m.textOpen && i == m.textIndex, i);
      case ToolSlot(k) => ToolSettles(At(m.out, i), m.tools[k], i);
    }
  }

  // The events of index i over a whole stream, whatever order the final stops come in.
  lemma BodyAt(atoms: seq<Atom>, rand: Rand, m: Machine, order: seq<int>, i: int)
    requires m == Feed(atoms, rand) && IsCloseOrder(m, order)
    ensures Book(m, Layout(atoms)) && Settled(At(m.out + Closing(m, order), i), m, Layout(atoms), i)
  {
    Reachable(atoms, rand, i);
    ClosingSettles(m, Layout(atoms), order, i);
  }
}
