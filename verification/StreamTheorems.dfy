/** The promises of the streaming translator, about whole traces of arbitrary streams. */
module StreamTheorems {
  import opened Common
  import opened OpenAI
  import opened Anthropic
  import opened Stream
  import opened StreamLifecycle
  import opened StreamConservation

  // ---------------------------------------------------------------- well-formedness

  // message_start, block events, one message_delta, message_stop.
  ghost predicate Framed(tr: seq<Event>) {
    && |tr| >= 3
    && tr[0].MessageStart? && tr[|tr| - 2].MessageDelta? && tr[|tr| - 1].MessageStop?
    && forall i | 1 <= i < |tr| - 2 :: IsBlockEvent(tr[i])
  }

  // No events at all, or one start, deltas of the same kind, one stop.
  ghost predicate Lifecycle(view: seq<Event>) {
    view == [] || exists h :: Finished(view, h)
  }

  ghost predicate WellFormed(tr: seq<Event>) {
    Framed(tr) && forall i :: Lifecycle(At(tr, i))
  }

  predicate AllBlocks(tr: seq<Event>) {
    forall i | 0 <= i < |tr| :: IsBlockEvent(tr[i])
  }

  lemma {:induction false} OutIsBlocks(atoms: seq<Atom>, rand: Rand)
    ensures AllBlocks(Feed(atoms, rand).out)
  {
    if atoms != [] {
      OutIsBlocks(ButLast(atoms), rand);
      match Last(atoms)
      case Say(text) =>
      case Call(d) =>
        var m1 := Admit(Feed(ButLast(atoms), rand), d);
        assert AllBlocks(m1.out);
        assert AllBlocks(Open(Fill(m1, d), d.key, rand).out);
    }
  }

  lemma {:induction false} ClosingIsBlocks(m: Machine, order: seq<int>)
    requires forall k | k in order :: k in m.tools
    ensures AllBlocks(CloseTools(m, order)) && AllBlocks(Closing(m, order))
  {
    if order != [] {
      ClosingIsBlocks(m, ButLast(order));
    }
  }

  lemma {:induction false} AtNothing(tr: seq<Event>, i: int)
    requires forall j | 0 <= j < |tr| :: !IsBlockEvent(tr[j])
    ensures At(tr, i) == []
  {
    if tr != [] {
      AtNothing(ButLast(tr), i);
      assert tr == ButLast(tr) + [Last(tr)];
      AtSnoc(ButLast(tr), Last(tr), i);
    }
  }

  // The three framing events touch no block.
  lemma TraceAt(first: Event, body: seq<Event>, last: seq<Event>, i: int)
    requires !IsBlockEvent(first) && |last| == 2 && !IsBlockEvent(last[0]) && !IsBlockEvent(last[1])
    ensures At(Frame(first, body, last), i) == At(body, i)
  {
    AtConcat([first] + body, last, i);
    AtConcat([first], body, i);
    AtNothing([first], i);
    AtNothing(last, i);
  }

  lemma FramedSettled(first: Event, body: seq<Event>, last: seq<Event>, m: Machine, l: seq<Slot>, i: int)
    requires !IsBlockEvent(first) && |last| == 2 && !IsBlockEvent(last[0]) && !IsBlockEvent(last[1])
    requires Settled(At(body, i), m, l, i)
    ensures Settled(At(Frame(first, body, last), i), m, l, i)
  {
    TraceAt(first, body, last, i);
  }

  lemma FedSettled(first: Event, atoms: seq<Atom>, rand: Rand, order: seq<int>, last: seq<Event>, i: int)
    requires !IsBlockEvent(first) && |last| == 2 && !IsBlockEvent(last[0]) && !IsBlockEvent(last[1])
    requires IsCloseOrder(Feed(atoms, rand), order)
    ensures Book(Feed(atoms, rand), Layout(atoms))
    ensures Settled(At(Frame(first, Feed(atoms, rand).out + Closing(Feed(atoms, rand), order), last), i),
                    Feed(atoms, rand), Layout(atoms), i)
  {
    var m := Feed(atoms, rand);
    BodyAt(atoms, rand, m, order, i);
    FramedSettled(first, m.out + Closing(m, order), last, m, Layout(atoms), i);
  }

  lemma StreamAt(lines: seq<Line>, model: string, rand: Rand, order: seq<int>, i: int)
    requires IsCloseOrder(Feed(Atoms(lines), rand), order)
    ensures Book(Feed(Atoms(lines), rand), Layout(Atoms(lines)))
    ensures Settled(At(Trace(lines, model, rand, order), i), Feed(Atoms(lines), rand), Layout(Atoms(lines)), i)
  {
    FedSettled(MessageStart("msg_" + rand(0), model), Atoms(lines), rand, order,
               [MessageDelta(MapFinishReason(FinishOf(lines)), UsageOf(lines)), MessageStop], i);
  }

  lemma FramedBody(first: Event, body: seq<Event>, last: seq<Event>)
    requires first.MessageStart? && |last| == 2 && last[0].MessageDelta? && last[1].MessageStop? && AllBlocks(body)
    ensures Framed(Frame(first, body, last))
  {
    var tr := Frame(first, body, last);
    forall i | 1 <= i < |tr| - 2 ensures IsBlockEvent(tr[i]) {
      assert tr[i] == body[i - 1];
    }
  }

  lemma SettledIsLifecycle(view: seq<Event>, m: Machine, l: seq<Slot>, i: int)
    requires Settled(view, m, l, i)
    ensures Lifecycle(view)
  {
  }

  /** Every stream, however broken, comes out as a framed sequence of complete block lifecycles. */
  lemma StreamIsWellFormed(lines: seq<Line>, model: string, rand: Rand, order: seq<int>)
    requires IsCloseOrder(Feed(Atoms(lines), rand), order)
    ensures WellFormed(Trace(lines, model, rand, order))
  {
    var atoms, m := Atoms(lines), Feed(Atoms(lines), rand);
    OutIsBlocks(atoms, rand);
    ClosingIsBlocks(m, order);
    FramedBody(MessageStart("msg_" + rand(0), model), m.out + Closing(m, order),
               [MessageDelta(MapFinishReason(FinishOf(lines)), UsageOf(lines)), MessageStop]);
    var tr := Trace(lines, model, rand, order);
    forall i ensures Lifecycle(At(tr, i)) {
      StreamAt(lines, model, rand, order, i);
      SettledIsLifecycle(At(tr, i), m, Layout(atoms), i);
    }
  }

  // ---------------------------------------------------------------- conservation

  // The index a tool call gets: how many blocks were allocated before its first delta.
  function BlockIndex(atoms: seq<Atom>, k: int): nat
    requires Called(atoms, k)
  {
    if Called(ButLast(atoms), k) then BlockIndex(ButLast(atoms), k) else |Layout(ButLast(atoms))|
  }

  lemma CalledSnoc(atoms: seq<Atom>, a: Atom, k: int)
    ensures Called(atoms + [a], k) <==> Called(atoms, k) || Mentions(a, k)
  {
    var all := atoms + [a];
    if i :| 0 <= i < |atoms| && Mentions(atoms[i], k) {
      assert Mentions(all[i], k);
    }
    if Mentions(a, k) {
      assert Mentions(all[|atoms|], k);
    }
  }

  lemma {:induction false} SlotsAreCalls(atoms: seq<Atom>, k: int)
    ensures ToolSlot(k) in Layout(atoms) <==> Called(atoms, k)
  {
    if atoms != [] {
      assert atoms == ButLast(atoms) + [Last(atoms)];
      CalledSnoc(ButLast(atoms), Last(atoms), k);
      SlotsAreCalls(ButLast(atoms), k);
      var l := Layout(ButLast(atoms));
      assert l != [] ==> l == ButLast(l) + [Last(l)];
    }
  }

  lemma {:induction false} BlockIndexOwned(atoms: seq<Atom>, k: int)
    requires Called(atoms, k)
    ensures BlockIndex(atoms, k) < |Layout(atoms)| && Layout(atoms)[BlockIndex(atoms, k)] == ToolSlot(k)
  {
    SlotsAreCalls(ButLast(atoms), k);
    if Called(ButLast(atoms), k) {
      BlockIndexOwned(ButLast(atoms), k);
    } else {
      assert atoms == ButLast(atoms) + [Last(atoms)];
      CalledSnoc(ButLast(atoms), Last(atoms), k);
    }
  }

  /** No text is lost or reordered, however tool calls interrupt it. */
  lemma TextConserved(lines: seq<Line>, model: string, rand: Rand, order: seq<int>)
    requires IsCloseOrder(Feed(Atoms(lines), rand), order)
    ensures TextOf(Trace(lines, model, rand, order)) == Said(Atoms(lines))
  {
    var m := Feed(Atoms(lines), rand);
    var first := [MessageStart("msg_" + rand(0), model)];
    var last := [MessageDelta(MapFinishReason(FinishOf(lines)), UsageOf(lines)), MessageStop];
    TextHistory(Atoms(lines), rand);
    CloseSaysNothing(m, order);
    TextOfNoText(m.out, Closing(m, order));
    TextOfPrefixed(first[0], m.out + Closing(m, order));
    TextOfNoText(first + (m.out + Closing(m, order)), last);
  }

  lemma {:induction false} CloseSaysNothing(m: Machine, order: seq<int>)
    requires forall k | k in order :: k in m.tools
    ensures forall i | 0 <= i < |CloseTools(m, order)| :: CloseTools(m, order)[i].BlockStop?
    ensures forall i | 0 <= i < |Closing(m, order)| :: Closing(m, order)[i].BlockStop?
  {
    if order != [] {
      CloseSaysNothing(m, ButLast(order));
    }
  }

  lemma {:induction false} TextOfPrefixed(first: Event, tr: seq<Event>)
    requires !IsBlockEvent(first)
    ensures TextOf([first] + tr) == TextOf(tr)
  {
    if tr == [] {
      TextSnoc([], first);
      assert [] + [first] == [first] == [first] + tr;
    } else {
      TextOfPrefixed(first, ButLast(tr));
      assert [first] + tr == ([first] + ButLast(tr)) + [Last(tr)];
      TextSnoc([first] + ButLast(tr), Last(tr));
    }
  }

  // Nothing if the tool is never named, else its header and the fragments from its naming on.
  ghost predicate Conserved(view: seq<Event>, atoms: seq<Atom>, k: int, rand: Rand) {
    && Payload(view) == StreamedArgs(atoms, k)
    && (view == [] <==> FirstName(atoms, k) == "")
    && (view != [] ==> exists id :: AnnouncedId(id, atoms, k, rand) && Finished(view, ToolHead(id, FirstName(atoms, k))))
  }

  /** Each tool call fills exactly its own block: nothing if never named, else its header and the fragments from its naming on. */
  lemma ToolConserved(lines: seq<Line>, model: string, rand: Rand, order: seq<int>, k: int)
    requires IsCloseOrder(Feed(Atoms(lines), rand), order) && Called(Atoms(lines), k)
    ensures Conserved(At(Trace(lines, model, rand, order), BlockIndex(Atoms(lines), k)), Atoms(lines), k, rand)
  {
    var atoms := Atoms(lines);
    var m, i := Feed(atoms, rand), BlockIndex(atoms, k);
    StreamAt(lines, model, rand, order, i);
    BlockIndexOwned(atoms, k);
    ToolHistory(atoms, rand, k);
  }

  /** Two tool calls never share a block. */
  lemma BlocksDistinct(atoms: seq<Atom>, k: int, k': int)
    requires Called(atoms, k) && Called(atoms, k') && k != k'
    ensures BlockIndex(atoms, k) != BlockIndex(atoms, k')
  {
    BlockIndexOwned(atoms, k);
    BlockIndexOwned(atoms, k');
  }

  // Block i appears in the output unless it belongs to a tool that was never named.
  predicate Used(atoms: seq<Atom>, i: int) {
    0 <= i < |Layout(atoms)| &&
    (Layout(atoms)[i].ToolSlot? ==> FirstName(atoms, Layout(atoms)[i].key) != "")
  }

  lemma UsedIndex(lines: seq<Line>, model: string, rand: Rand, order: seq<int>, i: int)
    requires IsCloseOrder(Feed(Atoms(lines), rand), order)
    ensures At(Trace(lines, model, rand, order), i) != [] <==> Used(Atoms(lines), i)
  {
    StreamAt(lines, model, rand, order, i);
    if 0 <= i < |Layout(Atoms(lines))| && Layout(Atoms(lines))[i].ToolSlot? {
      ToolHistory(Atoms(lines), rand, Layout(Atoms(lines))[i].key);
    }
  }

  lemma AllUsedIffNamed(atoms: seq<Atom>)
    ensures (forall i | 0 <= i < |Layout(atoms)| :: Used(atoms, i))
            <==> (forall k :: Called(atoms, k) ==> FirstName(atoms, k) != "")
  {
    if forall i | 0 <= i < |Layout(atoms)| :: Used(atoms, i) {
      forall k | Called(atoms, k) ensures FirstName(atoms, k) != "" {
        BlockIndexOwned(atoms, k);
        assert Used(atoms, BlockIndex(atoms, k));
      }
    } else {
      var i :| 0 <= i < |Layout(atoms)| && !Used(atoms, i);
      SlotsAreCalls(atoms, Layout(atoms)[i].key);
    }
  }

  // The indices in use are exactly 0, 1, ..., n-1.
  ghost predicate Contiguous(tr: seq<Event>, n: nat) {
    forall i :: At(tr, i) != [] <==> 0 <= i < n
  }

  lemma ContiguousIffAllUsed(tr: seq<Event>, atoms: seq<Atom>)
    requires forall i :: At(tr, i) != [] <==> Used(atoms, i)
    ensures Contiguous(tr, |Layout(atoms)|) <==> (forall i | 0 <= i < |Layout(atoms)| :: Used(atoms, i))
  {
  }

  /** The allocated indices are all used, without a gap, exactly when every tool gets a name. */
  lemma IndicesContiguous(lines: seq<Line>, model: string, rand: Rand, order: seq<int>)
    requires IsCloseOrder(Feed(Atoms(lines), rand), order)
    ensures Contiguous(Trace(lines, model, rand, order), |Layout(Atoms(lines))|)
            <==> (forall k :: Called(Atoms(lines), k) ==> FirstName(Atoms(lines), k) != "")
  {
    forall i ensures At(Trace(lines, model, rand, order), i) != [] <==> Used(Atoms(lines), i) {
      UsedIndex(lines, model, rand, order, i);
    }
    ContiguousIffAllUsed(Trace(lines, model, rand, order), Atoms(lines));
    AllUsedIffNamed(Atoms(lines));
  }
}
