/** The output buffer of a task run: last bytes kept, live subscribers fed without blocking the writers.
    Each step below is one critical section or one channel operation; a run is any interleaving of them. */
module RingBuffer {
  import opened Common

  const CHANNEL_CAP := 64

  // A char stands for one byte.
  type Bytes = string

  // ---------------------------------------------------------------- state

  // A subscriber's channel. It is registered with the buffer exactly while open.
  datatype Chan = Chan(queue: seq<Bytes>, open: bool)

  // A write between its critical section and its last send: which append it made, and the channels still to be offered it.
  datatype Sending = Sending(index: nat, targets: set<nat>)

  datatype Append = Append(writer: nat, bytes: Bytes)

  // What has happened to one subscription: appends before it, appends sent to it (in order), appends dropped for it,
  // how many were received, how many appends its snapshot covers, and the appends there were when it was closed.
  datatype History = History(since: nat, sent: seq<nat>, dropped: set<nat>, received: nat, snapAt: Option<nat>,
                             snapshot: Bytes, until: Option<nat>)

  datatype State = State(max: nat, data: Bytes, chans: map<nat, Chan>, nextId: nat, closed: bool,
                         sending: map<nat, Sending>, log: seq<Append>, hist: map<nat, History>)

  function Initial(max: nat): State {
    State(max, "", map[], 0, false, map[], [], map[])
  }

  function LastBytes(s: Bytes, max: nat): Bytes {
    if |s| > max then s[|s| - max..] else s
  }

  // All bytes ever appended.
  function AllBytes(log: seq<Append>): Bytes {
    if log == [] then "" else AllBytes(ButLast(log)) + Last(log).bytes
  }

  // ---------------------------------------------------------------- steps

  datatype Step =
    | Write(writer: nat, chunk: Bytes)
    | Offer(writer: nat, id: nat)
    | Subscribe
    | Snapshot(id: nat)
    | Receive(id: nat)
    | Unsubscribe(id: nat)
    | Close

  function OpenIds(s: State): set<nat> {
    set id | id in s.chans && s.chans[id].open
  }

  // No send to this channel is still to come: the condition under which it may be closed.
  predicate Quiet(s: State, id: nat) {
    forall w | w in s.sending :: id !in s.sending[w].targets
  }

  predicate Enabled(s: State, step: Step) {
    match step
    case Write(w, chunk) => chunk != "" && w !in s.sending
    case Offer(w, id) => w in s.sending && id in s.sending[w].targets && id in s.chans && id in s.hist
    case Subscribe => true
    case Snapshot(id) => id in s.hist && s.hist[id].snapAt.None?
    case Receive(id) => id in s.chans && id in s.hist && s.chans[id].queue != []
    case Unsubscribe(id) => id in s.chans && id in s.hist && s.chans[id].open && Quiet(s, id)
    case Close => !s.closed && s.sending == map[] && s.chans.Keys <= s.hist.Keys
  }

  function OnWrite(s: State, w: nat, chunk: Bytes): State {
    var targets := OpenIds(s);
    s.(data := LastBytes(s.data + chunk, s.max),
       sending := if targets == {} then s.sending else s.sending[w := Sending(|s.log|, targets)],
       log := s.log + [Append(w, chunk)])
  }

  function Remaining(sending: map<nat, Sending>, w: nat, id: nat): map<nat, Sending>
    requires w in sending
  {
    var targets := sending[w].targets - {id};
    if targets == {} then sending - {w} else sending[w := sending[w].(targets := targets)]
  }

  function OnOffer(s: State, w: nat, id: nat): State
    requires Enabled(s, Offer(w, id))
  {
    var c, h, j := s.chans[id], s.hist[id], s.sending[w].index;
    var s1 := s.(sending := Remaining(s.sending, w, id));
    if |c.queue| < CHANNEL_CAP && j < |s.log| then
      s1.(chans := s.chans[id := c.(queue := c.queue + [s.log[j].bytes])], hist := s.hist[id := h.(sent := h.sent + [j])])
    else
      s1.(hist := s.hist[id := h.(dropped := h.dropped + {j})])
  }

  function OnSubscribe(s: State): State {
    var id := s.nextId + 1;
    s.(nextId := id, chans := s.chans[id := Chan([], !s.closed)],
       hist := s.hist[id := History(|s.log|, [], {}, 0, None, "", if s.closed then Some(|s.log|) else None)])
  }

  function Shut(s: State, id: nat): State
    requires id in s.chans && id in s.hist
  {
    s.(chans := s.chans[id := s.chans[id].(open := false)], hist := s.hist[id := s.hist[id].(until := Some(|s.log|))])
  }

  function OnClose(s: State): State
    requires s.chans.Keys <= s.hist.Keys
  {
    s.(closed := true,
       chans := map id | id in s.chans :: s.chans[id].(open := false),
       hist := map id | id in s.hist ::
                 if id in s.chans && s.chans[id].open then s.hist[id].(until := Some(|s.log|)) else s.hist[id])
  }

  // A step that is not enabled does not happen.
  function Do(s: State, step: Step): State {
    if !Enabled(s, step) then s
    else match step
         case Write(w, chunk) => OnWrite(s, w, chunk)
         case Offer(w, id) => OnOffer(s, w, id)
         case Subscribe => OnSubscribe(s)
         case Snapshot(id) =>
           s.(hist := s.hist[id := s.hist[id].(snapAt := Some(|s.log|), snapshot := s.data)])
         case Receive(id) =>
           s.(chans := s.chans[id := s.chans[id].(queue := s.chans[id].queue[1..])],
              hist := s.hist[id := s.hist[id].(received := s.hist[id].received + 1)])
         case Unsubscribe(id) => Shut(s, id)
         case Close => OnClose(s)
  }

  // Every interleaving: the state after any sequence of steps, oldest first.
  function Run(max: nat, steps: seq<Step>): State {
    if steps == [] then Initial(max) else Do(Run(max, ButLast(steps)), Last(steps))
  }

  // ---------------------------------------------------------------- what every reachable state keeps

  lemma LastBytesAgain(a: Bytes, b: Bytes, max: nat)
    ensures LastBytes(LastBytes(a, max) + b, max) == LastBytes(a + b, max)
  {
  }

  // A send of append j to subscription id is still to come.
  predicate PendingFor(s: State, id: nat, j: nat) {
    j < |s.log| && var w := s.log[j].writer;
    w in s.sending && s.sending[w].index == j && id in s.sending[w].targets
  }

  // The appends a subscription is owed.
  predicate Owed(h: History, j: nat) {
    h.since <= j && (h.until.Some? ==> j < h.until.value)
  }

  // Each append owed to a subscription is in exactly one place, and no other append is anywhere.
  predicate Placed(s: State, id: nat, j: nat)
    requires id in s.hist
  {
    var h := s.hist[id];
    var sent, dropped, pending := j in h.sent, j in h.dropped, PendingFor(s, id, j);
    && (Owed(h, j) <==> sent || dropped || pending)
    && !(sent && dropped) && !(sent && pending) && !(dropped && pending)
  }

  predicate Bytewise(s: State, c: Chan, h: History) {
    && h.received <= |h.sent| && |c.queue| == |h.sent| - h.received <= CHANNEL_CAP
    && (forall i | 0 <= i < |h.sent| :: h.sent[i] < |s.log|) && (forall j | j in h.dropped :: j < |s.log|)
    && (forall i | 0 <= i < |c.queue| :: c.queue[i] == s.log[h.sent[h.received + i]].bytes)
  }

  // Chunks of one writer reach a channel in the order they were written, and never twice.
  predicate WriterOrder(log: seq<Append>, sent: seq<nat>)
    requires forall i | 0 <= i < |sent| :: sent[i] < |log|
  {
    forall a, b | 0 <= a < b < |sent| && log[sent[a]].writer == log[sent[b]].writer :: sent[a] < sent[b]
  }

  ghost predicate SubOk(s: State, id: nat)
    requires id in s.chans && id in s.hist
  {
    var c, h := s.chans[id], s.hist[id];
    && h.since <= |s.log|
    && (c.open <==> h.until.None?) && (h.until.Some? ==> h.since <= h.until.value <= |s.log|)
    && Bytewise(s, c, h) && WriterOrder(s.log, h.sent)
    && (forall j: nat | j < |s.log| :: Placed(s, id, j))
    && (h.snapAt.Some? ==> h.since <= h.snapAt.value <= |s.log|
                           && h.snapshot == LastBytes(AllBytes(s.log[..h.snapAt.value]), s.max))
  }

  // A writer in mid-send is on its latest append, and its targets are open.
  predicate SendingOk(s: State, w: nat)
    requires w in s.sending
  {
    var p := s.sending[w];
    && p.index < |s.log| && s.log[p.index].writer == w
    && (forall j | p.index < j < |s.log| :: s.log[j].writer != w)
    && (forall id | id in p.targets :: id in s.chans && s.chans[id].open)
  }

  predicate SendersOk(s: State) {
    forall w | w in s.sending :: SendingOk(s, w)
  }

  ghost predicate SubsOk(s: State) {
    s.chans.Keys == s.hist.Keys && forall id | id in s.chans :: SubOk(s, id)
  }

  predicate IdsOk(s: State) {
    forall id | id in s.chans :: id <= s.nextId && (s.closed ==> !s.chans[id].open)
  }

  ghost predicate Inv(s: State) {
    && s.data == LastBytes(AllBytes(s.log), s.max)
    && IdsOk(s) && SendersOk(s) && SubsOk(s)
  }

  // Indices in `sent` only grow within one writer, so an append can be sent to a channel once.
  lemma WriteKeepsSub(s: State, w: nat, chunk: Bytes, id: nat)
    requires Inv(s) && Enabled(s, Write(w, chunk)) && id in s.chans
    ensures SubOk(OnWrite(s, w, chunk), id)
  {
    var s', h := OnWrite(s, w, chunk), s.hist[id];
    var n := |s.log|;
    assert SubOk(s, id);
    forall j: nat | j < |s'.log| ensures Placed(s', id, j) {
      if j < n {
        assert Placed(s, id, j);
        assert s'.log[j] == s.log[j];
        assert PendingFor(s', id, j) <==> PendingFor(s, id, j);
      } else {
        assert s'.log[j].writer == w;
        assert id in OpenIds(s) <==> s.chans[id].open;
        assert PendingFor(s', id, j) <==> id in OpenIds(s);
        assert j !in h.sent && j !in h.dropped;
      }
    }
    if h.snapAt.Some? {
      assert s'.log[..h.snapAt.value] == s.log[..h.snapAt.value];
    }
  }

  lemma WriteKeepsInv(s: State, w: nat, chunk: Bytes)
    requires Inv(s) && Enabled(s, Write(w, chunk))
    ensures Inv(OnWrite(s, w, chunk))
  {
    var s' := OnWrite(s, w, chunk);
    LastBytesAgain(AllBytes(s.log), chunk, s.max);
    SnocParts(s.log, Append(w, chunk));
    forall v | v in s'.sending ensures SendingOk(s', v) {
      if v != w {
        assert SendingOk(s, v);
      }
    }
    forall id | id in s'.chans ensures SubOk(s', id) {
      WriteKeepsSub(s, w, chunk, id);
    }
  }

  // What one offer does to the sends still to come: that one is no longer among them.
  lemma OfferPending(s: State, w: nat, id: nat, k: nat, j: nat)
    requires Enabled(s, Offer(w, id)) && SendingOk(s, w) && j < |s.log|
    ensures PendingFor(s, id, s.sending[w].index)
    ensures PendingFor(OnOffer(s, w, id), k, j) <==> PendingFor(s, k, j) && !(k == id && j == s.sending[w].index)
  {
    var i := s.sending[w].index;
    var rest := s.sending[w].targets - {id};
    var after := Remaining(s.sending, w, id);
    assert w in after <==> rest != {};
    assert OnOffer(s, w, id).sending == after;
    if s.log[j].writer == w && k in rest {
      assert rest != {};
    }
  }

  lemma OfferPlaces(s: State, w: nat, id: nat, k: nat, j: nat)
    requires Enabled(s, Offer(w, id)) && SendingOk(s, w) && k in s.hist && j < |s.log|
    requires Placed(s, k, j) && Placed(s, id, s.sending[w].index)
    ensures Placed(OnOffer(s, w, id), k, j)
  {
    OfferPending(s, w, id, k, j);
  }

  lemma SentInOrder(s: State, w: nat, id: nat)
    requires Enabled(s, Offer(w, id)) && SendingOk(s, w) && id in s.chans && SubOk(s, id)
    ensures WriterOrder(s.log, s.hist[id].sent + [s.sending[w].index])
  {
    var h, i := s.hist[id], s.sending[w].index;
    OfferPending(s, w, id, id, i);
    assert Placed(s, id, i);
    forall a | 0 <= a < |h.sent| && s.log[h.sent[a]].writer == w ensures h.sent[a] < i {
      assert h.sent[a] in h.sent;
    }
  }

  lemma OfferKeepsPlaces(s: State, w: nat, id: nat, k: nat)
    requires Enabled(s, Offer(w, id)) && SendingOk(s, w) && k in s.hist
    requires forall j: nat | j < |s.log| :: Placed(s, k, j) && Placed(s, id, j)
    ensures forall j: nat | j < |s.log| :: Placed(OnOffer(s, w, id), k, j)
  {
    forall j: nat | j < |s.log| ensures Placed(OnOffer(s, w, id), k, j) {
      assert Placed(s, k, j) && Placed(s, id, s.sending[w].index);
      OfferPlaces(s, w, id, k, j);
    }
  }

  lemma OfferKeepsBytes(s: State, w: nat, id: nat)
    requires Enabled(s, Offer(w, id)) && SendingOk(s, w) && Bytewise(s, s.chans[id], s.hist[id])
    ensures var s' := OnOffer(s, w, id); Bytewise(s', s'.chans[id], s'.hist[id])
  {
  }

  lemma OfferKeepsTarget(s: State, w: nat, id: nat)
    requires Enabled(s, Offer(w, id)) && SendingOk(s, w) && SubOk(s, id)
    ensures SubOk(OnOffer(s, w, id), id)
  {
    OfferKeepsBytes(s, w, id);
    SentInOrder(s, w, id);
    OfferKeepsPlaces(s, w, id, id);
  }

  lemma OfferKeepsOther(s: State, w: nat, id: nat, k: nat)
    requires Enabled(s, Offer(w, id)) && SendingOk(s, w) && SubOk(s, id)
    requires k != id && k in s.chans && k in s.hist && SubOk(s, k)
    ensures SubOk(OnOffer(s, w, id), k)
  {
    OfferKeepsPlaces(s, w, id, k);
  }

  lemma OfferKeepsSender(s: State, w: nat, id: nat, v: nat)
    requires Enabled(s, Offer(w, id)) && v in OnOffer(s, w, id).sending && SendersOk(s)
    ensures SendingOk(OnOffer(s, w, id), v)
  {
    assert SendingOk(s, v);
  }

  lemma OfferKeepsSenders(s: State, w: nat, id: nat)
    requires Enabled(s, Offer(w, id)) && SendersOk(s)
    ensures SendersOk(OnOffer(s, w, id))
  {
    forall v | v in OnOffer(s, w, id).sending ensures SendingOk(OnOffer(s, w, id), v) {
      OfferKeepsSender(s, w, id, v);
    }
  }

  lemma OfferKeepsIds(s: State, w: nat, id: nat)
    requires Enabled(s, Offer(w, id)) && IdsOk(s)
    ensures IdsOk(OnOffer(s, w, id))
  {
  }

  lemma OfferKeepsSubs(s: State, w: nat, id: nat)
    requires SubsOk(s) && Enabled(s, Offer(w, id)) && SendingOk(s, w)
    ensures SubsOk(OnOffer(s, w, id))
  {
    var s' := OnOffer(s, w, id);
    assert SubOk(s, id);
    forall k | k in s'.chans ensures SubOk(s', k) {
      if k == id { OfferKeepsTarget(s, w, id); } else { OfferKeepsOther(s, w, id, k); }
    }
  }

  lemma OfferKeepsInv(s: State, w: nat, id: nat)
    requires Inv(s) && Enabled(s, Offer(w, id))
    ensures Inv(OnOffer(s, w, id))
  {
    assert SendingOk(s, w);
    OfferKeepsSenders(s, w, id);
    OfferKeepsIds(s, w, id);
    OfferKeepsSubs(s, w, id);
  }

  // Steps that neither append nor send leave every append where it is.
  predicate Still(s: State, t: State) {
    t.max == s.max && t.log == s.log && t.sending == s.sending && t.data == s.data
  }

  lemma SamePlaces(s: State, t: State, id: nat)
    requires Still(s, t) && id in s.hist && id in t.hist
    requires s.hist[id].sent == t.hist[id].sent && s.hist[id].dropped == t.hist[id].dropped
    requires s.hist[id].since == t.hist[id].since
    requires t.hist[id].until == s.hist[id].until || (s.hist[id].until.None? && t.hist[id].until == Some(|s.log|))
    requires forall j: nat | j < |s.log| :: Placed(s, id, j)
    ensures forall j: nat | j < |s.log| :: Placed(t, id, j)
  {
    forall j: nat | j < |s.log| ensures Placed(t, id, j) {
      assert Placed(s, id, j);
      assert PendingFor(t, id, j) == PendingFor(s, id, j);
    }
  }

  lemma Untouched(s: State, t: State, id: nat)
    requires Still(s, t) && id in s.chans && id in s.hist && SubOk(s, id)
    requires id in t.chans && id in t.hist && t.chans[id] == s.chans[id] && t.hist[id] == s.hist[id]
    ensures SubOk(t, id)
  {
    SamePlaces(s, t, id);
  }

  lemma ShutKeepsSub(s: State, t: State, id: nat)
    requires Still(s, t) && id in s.chans && id in s.hist && SubOk(s, id) && s.chans[id].open
    requires id in t.chans && id in t.hist && t.chans[id] == s.chans[id].(open := false)
    requires t.hist[id] == s.hist[id].(until := Some(|s.log|))
    ensures SubOk(t, id)
  {
    SamePlaces(s, t, id);
  }

  lemma SendersStill(s: State, t: State, w: nat)
    requires Still(s, t) && w in s.sending && SendingOk(s, w)
    requires forall id | id in s.sending[w].targets :: id in t.chans && t.chans[id].open
    ensures SendingOk(t, w)
  {
  }

  lemma NewSub(s: State, j: nat)
    requires Inv(s) && j < |s.log|
    ensures s.nextId + 1 !in s.chans && !PendingFor(s, s.nextId + 1, j)
  {
    assert PendingFor(s, s.nextId + 1, j) ==> SendingOk(s, s.log[j].writer);
  }

  lemma NewSubOk(s: State)
    requires Inv(s)
    ensures SubOk(OnSubscribe(s), s.nextId + 1)
  {
    var s', id := OnSubscribe(s), s.nextId + 1;
    forall j: nat | j < |s.log| ensures Placed(s', id, j) {
      NewSub(s, j);
      assert PendingFor(s', id, j) == PendingFor(s, id, j);
    }
  }

  lemma SubscribeKeepsInv(s: State)
    requires Inv(s)
    ensures Inv(OnSubscribe(s))
  {
    var s', id := OnSubscribe(s), s.nextId + 1;
    assert id !in s.chans;
    NewSubOk(s);
    forall w | w in s'.sending ensures SendingOk(s', w) {
      assert SendingOk(s, w);
      SendersStill(s, s', w);
    }
    forall k | k in s'.chans ensures SubOk(s', k) {
      if k != id {
        Untouched(s, s', k);
      }
    }
  }

  lemma SnapshotKeepsSub(s: State, id: nat)
    requires Enabled(s, Snapshot(id)) && id in s.chans && SubOk(s, id)
    requires s.data == LastBytes(AllBytes(s.log), s.max)
    ensures SubOk(Do(s, Snapshot(id)), id)
  {
    SamePlaces(s, Do(s, Snapshot(id)), id);
    assert s.log[..|s.log|] == s.log;
  }

  // Only this subscription changes; if its channel closes, no send to it is pending.
  predicate OnlyAt(s: State, t: State, id: nat) {
    && Still(s, t) && t.nextId == s.nextId && t.closed == s.closed
    && t.chans.Keys == s.chans.Keys && t.hist.Keys == s.hist.Keys
    && (forall k | k in s.chans && k != id :: t.chans[k] == s.chans[k])
    && (forall k | k in s.hist && k != id :: t.hist[k] == s.hist[k])
    && (id in s.chans ==> t.chans[id].open == s.chans[id].open || (s.chans[id].open && Quiet(s, id)))
  }

  lemma OnlyAtSenders(s: State, t: State, id: nat, w: nat)
    requires OnlyAt(s, t, id) && w in s.sending && SendingOk(s, w)
    ensures SendingOk(t, w)
  {
    SendersStill(s, t, w);
  }

  lemma OnlyAtKeepsSenders(s: State, t: State, id: nat)
    requires SendersOk(s) && OnlyAt(s, t, id)
    ensures SendersOk(t)
  {
    forall w | w in t.sending ensures SendingOk(t, w) {
      OnlyAtSenders(s, t, id, w);
    }
  }

  lemma OnlyAtKeepsIds(s: State, t: State, id: nat)
    requires IdsOk(s) && OnlyAt(s, t, id)
    ensures IdsOk(t)
  {
  }

  lemma OnlyAtKeepsSubs(s: State, t: State, id: nat)
    requires SubsOk(s) && OnlyAt(s, t, id) && id in s.chans && SubOk(t, id)
    ensures SubsOk(t)
  {
    forall k | k in t.chans ensures SubOk(t, k) {
      if k != id {
        assert SubOk(s, k);
        Untouched(s, t, k);
      }
    }
  }

  lemma OnlyAtKeepsInv(s: State, t: State, id: nat)
    requires Inv(s) && OnlyAt(s, t, id) && id in s.chans && SubOk(t, id)
    ensures Inv(t)
  {
    OnlyAtKeepsSenders(s, t, id);
    OnlyAtKeepsIds(s, t, id);
    OnlyAtKeepsSubs(s, t, id);
  }

  lemma ReceiveKeepsSub(s: State, id: nat)
    requires Enabled(s, Receive(id)) && SubOk(s, id)
    ensures SubOk(Do(s, Receive(id)), id)
  {
    SamePlaces(s, Do(s, Receive(id)), id);
  }

  lemma SnapshotKeepsInv(s: State, id: nat)
    requires Inv(s) && Enabled(s, Snapshot(id))
    ensures Inv(Do(s, Snapshot(id)))
  {
    SnapshotKeepsSub(s, id);
    OnlyAtKeepsInv(s, Do(s, Snapshot(id)), id);
  }

  lemma ReceiveKeepsInv(s: State, id: nat)
    requires Inv(s) && Enabled(s, Receive(id))
    ensures Inv(Do(s, Receive(id)))
  {
    ReceiveKeepsSub(s, id);
    OnlyAtKeepsInv(s, Do(s, Receive(id)), id);
  }

  lemma UnsubscribeKeepsInv(s: State, id: nat)
    requires Inv(s) && Enabled(s, Unsubscribe(id))
    ensures Inv(Shut(s, id))
  {
    ShutKeepsSub(s, Shut(s, id), id);
    OnlyAtKeepsInv(s, Shut(s, id), id);
  }

  lemma CloseKeepsInv(s: State)
    requires Inv(s) && Enabled(s, Close)
    ensures Inv(OnClose(s))
  {
    var s' := OnClose(s);
    forall k | k in s'.chans ensures SubOk(s', k) {
      assert SubOk(s, k);
      if s.chans[k].open { ShutKeepsSub(s, s', k); } else { Untouched(s, s', k); }
    }
  }

  lemma StepKeepsInv(s: State, step: Step)
    requires Inv(s) && Enabled(s, step)
    ensures Inv(Do(s, step))
  {
    match step
    case Write(w, chunk) => WriteKeepsInv(s, w, chunk);
    case Offer(w, id) => OfferKeepsInv(s, w, id);
    case Subscribe => SubscribeKeepsInv(s);
    case Snapshot(id) => SnapshotKeepsInv(s, id);
    case Receive(id) => ReceiveKeepsInv(s, id);
    case Unsubscribe(id) => UnsubscribeKeepsInv(s, id);
    case Close => CloseKeepsInv(s);
  }

  /** In every reachable state of every interleaving the invariant holds. */
  lemma {:induction false} Reachable(max: nat, steps: seq<Step>)
    ensures Inv(Run(max, steps)) && Run(max, steps).max == max
  {
    if steps != [] {
      Reachable(max, ButLast(steps));
      if Enabled(Run(max, ButLast(steps)), Last(steps)) {
        StepKeepsInv(Run(max, ButLast(steps)), Last(steps));
      }
    }
  }

  // The end of some text, all of it or `max` bytes.
  predicate IsTail(data: Bytes, all: Bytes, max: nat) {
    HasSuffix(all, data) && |data| == if |all| < max then |all| else max
  }

  lemma LastBytesIsTail(all: Bytes, max: nat)
    ensures IsTail(LastBytes(all, max), all, max)
  {
    if |all| <= max {
      assert all[0..] == all;
    }
  }

  /** The buffer is always the last `max` bytes of everything written, or everything if that is less. */
  lemma BufferIsTail(max: nat, steps: seq<Step>)
    ensures IsTail(Run(max, steps).data, AllBytes(Run(max, steps).log), max)
  {
    Reachable(max, steps);
    LastBytesIsTail(AllBytes(Run(max, steps).log), max);
  }

  // Which channels there are after a step, and which of them are open.
  predicate Opens(s: State, step: Step, t: State, id: nat) {
    && (t.closed <==> s.closed || step == Close)
    && (id in t.chans <==> id in s.chans || (step == Subscribe && id == s.nextId + 1))
    && (id in t.chans ==>
          (t.chans[id].open <==> if id in s.chans then s.chans[id].open && step != Unsubscribe(id) && step != Close
                                 else !s.closed))
  }

  lemma StepOpens(s: State, step: Step, id: nat)
    requires Enabled(s, step) && s.nextId + 1 !in s.chans
    ensures Opens(s, step, Do(s, step), id)
  {
    match step
    case Write(_, _) =>
    case Offer(_, _) =>
    case Subscribe =>
    case Snapshot(_) =>
    case Receive(_) =>
    case Unsubscribe(_) =>
    case Close =>
  }

  lemma NextIdFree(s: State)
    requires IdsOk(s)
    ensures s.nextId + 1 !in s.chans
  {
  }

  /** A channel is open from its subscription on, unless the buffer was closed before it, and until it is unsubscribed or the
      buffer is closed; no other step opens or closes one, and the buffer stays closed. */
  lemma OpenUntilClosed(max: nat, steps: seq<Step>, step: Step, id: nat)
    requires Enabled(Run(max, steps), step)
    ensures Opens(Run(max, steps), step, Do(Run(max, steps), step), id)
  {
    Reachable(max, steps);
    NextIdFree(Run(max, steps));
    StepOpens(Run(max, steps), step, id);
  }

  /** Subscribe, then snapshot, leaves no gap: the snapshot is the last `max` bytes of everything appended up to some
      point not before the subscription, and every append from the subscription on - so every one the snapshot cannot
      hold - was sent, or dropped, or is about to be offered; exactly one of the three. When one is dropped the channel is
      full (DroppedOnlyWhenFull). */
  lemma NoGap(max: nat, steps: seq<Step>, id: nat, j: nat)
    requires id in Run(max, steps).hist && j < |Run(max, steps).log|
    ensures
      var s := Run(max, steps);
      var h := s.hist[id];
      && (h.snapAt.Some? ==> h.since <= h.snapAt.value <= |s.log|
                             && IsTail(h.snapshot, AllBytes(s.log[..h.snapAt.value]), max))
      && (Owed(h, j) <==> j in h.sent || j in h.dropped || PendingFor(s, id, j))
      && !(j in h.sent && j in h.dropped) && !(j in h.sent && PendingFor(s, id, j))
      && !(j in h.dropped && PendingFor(s, id, j))
  {
    Reachable(max, steps);
    assert SubOk(Run(max, steps), id) && Placed(Run(max, steps), id, j);
    var s := Run(max, steps);
    if s.hist[id].snapAt.Some? {
      LastBytesIsTail(AllBytes(s.log[..s.hist[id].snapAt.value]), max);
    }
  }

  // The bytes of some appends, in the order given.
  function BytesOf(log: seq<Append>, js: seq<nat>): seq<Bytes>
    requires forall i | 0 <= i < |js| :: js[i] < |log|
  {
    seq(|js|, i requires 0 <= i < |js| => log[js[i]].bytes)
  }

  // At this point of the run append j is offered to the channel, which has no room for it.
  predicate RefusedAt(max: nat, steps: seq<Step>, n: nat, id: nat, j: nat) {
    n < |steps| && steps[n].Offer? && steps[n].id == id
    && var s := Run(max, steps[..n]);
       Enabled(s, steps[n]) && s.sending[steps[n].writer].index == j && |s.chans[id].queue| == CHANNEL_CAP
  }

  lemma OfferDrops(s: State, w: nat, id: nat, k: nat, j: nat)
    requires Enabled(s, Offer(w, id)) && SendingOk(s, w) && Bytewise(s, s.chans[id], s.hist[id])
    requires k in s.hist && j in OnOffer(s, w, id).hist[k].dropped && j !in s.hist[k].dropped
    ensures k == id && s.sending[w].index == j && |s.chans[id].queue| == CHANNEL_CAP
  {
  }

  lemma OtherDrops(s: State, step: Step, id: nat, j: nat)
    requires !step.Offer? && id in Do(s, step).hist && j in Do(s, step).hist[id].dropped
    ensures id in s.hist && j in s.hist[id].dropped
  {
  }

  lemma DropStep(s: State, step: Step, id: nat, j: nat)
    requires Inv(s) && id in Do(s, step).hist && j in Do(s, step).hist[id].dropped
    requires id in s.hist ==> j !in s.hist[id].dropped
    ensures Enabled(s, step) && step.Offer? && step.id == id && s.sending[step.writer].index == j
    ensures id in s.chans && |s.chans[id].queue| == CHANNEL_CAP
  {
    if !step.Offer? {
      OtherDrops(s, step, id, j);
    } else if Enabled(s, step) {
      assert SendingOk(s, step.writer) && SubOk(s, step.id);
      OfferDrops(s, step.writer, step.id, id, j);
    }
  }

  lemma RefusedEarlier(max: nat, before: seq<Step>, step: Step, n: nat, id: nat, j: nat)
    requires RefusedAt(max, before, n, id, j)
    ensures RefusedAt(max, before + [step], n, id, j)
  {
    assert (before + [step])[..n] == before[..n];
  }

  /** An append is dropped for a subscriber only when it is offered to a channel that holds 64 chunks. */
  lemma {:induction false} DroppedOnlyWhenFull(max: nat, steps: seq<Step>, id: nat, j: nat)
    requires id in Run(max, steps).hist && j in Run(max, steps).hist[id].dropped
    ensures exists n: nat :: RefusedAt(max, steps, n, id, j)
    decreases |steps|, 0
  {
    assert steps != [] && steps == ButLast(steps) + [Last(steps)];
    Reachable(max, ButLast(steps));
    DroppedBy(max, ButLast(steps), Last(steps), Run(max, ButLast(steps)), id, j);
  }

  lemma {:induction false} DroppedBy(max: nat, before: seq<Step>, step: Step, s: State, id: nat, j: nat)
    requires s == Run(max, before) && Inv(s) && id in Do(s, step).hist && j in Do(s, step).hist[id].dropped
    ensures exists n: nat :: RefusedAt(max, before + [step], n, id, j)
    decreases |before|, 1
  {
    if id in s.hist && j in s.hist[id].dropped {
      DroppedOnlyWhenFull(max, before, id, j);
      var n: nat :| RefusedAt(max, before, n, id, j);
      RefusedEarlier(max, before, step, n, id, j);
    } else {
      DropStep(s, step, id, j);
      assert (before + [step])[..|before|] == before;
      assert RefusedAt(max, before + [step], |before|, id, j);
    }
  }

  /** What waits in a channel is what was sent and not yet received, in order, at most the channel's capacity;
      and one writer's appends are sent in the order it made them, none twice. */
  lemma ChannelIsFaithful(max: nat, steps: seq<Step>, id: nat)
    requires id in Run(max, steps).hist
    ensures
      var s := Run(max, steps);
      var h := s.hist[id];
      && id in s.chans && h.received <= |h.sent| && (forall i | 0 <= i < |h.sent| :: h.sent[i] < |s.log|)
      && s.chans[id].queue == BytesOf(s.log, h.sent[h.received..]) && |s.chans[id].queue| <= CHANNEL_CAP
      && WriterOrder(s.log, h.sent)
  {
    Reachable(max, steps);
    var s := Run(max, steps);
    assert SubOk(s, id);
    assert s.chans[id].queue == BytesOf(s.log, s.hist[id].sent[s.hist[id].received..]);
  }

  // Within a write: appended, and this many sends to go.
  ghost predicate Midway(before: State, s: State, w: nat, chunk: Bytes, subs: set<nat>) {
    && Inv(s) && s.data == LastBytes(before.data + chunk, before.max) && s.log == before.log + [Append(w, chunk)]
    && if subs == {} then w !in s.sending else w in s.sending && s.sending[w] == Sending(|before.log|, subs)
  }

  lemma MidwayOffer(before: State, s: State, w: nat, chunk: Bytes, subs: set<nat>, id: nat)
    requires Midway(before, s, w, chunk, subs) && id in subs
    ensures Enabled(s, Offer(w, id)) && s.sending[w].index < |s.log| && s.log[s.sending[w].index].bytes == chunk
    ensures Midway(before, Do(s, Offer(w, id)), w, chunk, subs - {id})
  {
    assert SendingOk(s, w);
    OfferKeepsInv(s, w, id);
  }

  // A channel after a chunk was offered to it.
  function Offered(c: Chan, chunk: Bytes): Chan {
    if c.open && |c.queue| < CHANNEL_CAP then c.(queue := c.queue + [chunk]) else c
  }

  // The chunk has been offered to every channel but these, and nothing else has happened to any channel.
  predicate Reached(before: State, s: State, chunk: Bytes, subs: set<nat>) {
    && s.chans.Keys == before.chans.Keys && s.nextId == before.nextId && s.closed == before.closed
    && forall id | id in s.chans :: s.chans[id] == if id in subs then before.chans[id] else Offered(before.chans[id], chunk)
  }

  lemma ReachedOffer(before: State, s: State, w: nat, chunk: Bytes, subs: set<nat>, id: nat)
    requires Reached(before, s, chunk, subs) && subs <= OpenIds(before) && id in subs
    requires Enabled(s, Offer(w, id)) && s.sending[w].index < |s.log| && s.log[s.sending[w].index].bytes == chunk
    ensures Reached(before, Do(s, Offer(w, id)), chunk, subs - {id})
  {
  }

  // ---------------------------------------------------------------- the buffer object

  class Buffer {
    const max: nat
    var data: Bytes
    var chans: map<nat, Chan>
    var nextId: nat
    var closed: bool
    ghost var sending: map<nat, Sending>
    ghost var log: seq<Append>
    ghost var hist: map<nat, History>

    ghost function Abs(): State
      reads this
    {
      State(max, data, chans, nextId, closed, sending, log, hist)
    }

    constructor (max: nat)
      ensures Abs() == Initial(max)
    {
      this.max := max;
      data, chans, nextId, closed, sending, log, hist := "", map[], 0, false, map[], [], map[];
    }

    /** The critical section of `write`: append, trim, and note the subscribers to send to. */
    method WriteLocked(w: nat, chunk: Bytes) returns (subs: set<nat>)
      requires w !in sending
      modifies this
      ensures Abs() == Do(old(Abs()), Write(w, chunk))
      ensures subs == if chunk == "" then {} else OpenIds(old(Abs()))
      ensures if chunk == "" then data == old(data) else IsTail(data, old(data) + chunk, max)
    {
      if |chunk| == 0 {
        return {};
      }
      LastBytesIsTail(data + chunk, max);
      data := data + chunk;
      if |data| > max {
        data := data[|data| - max..];
      }
      subs := set id | id in chans && chans[id].open;
      if subs != {} {
        sending := sending[w := Sending(|log|, subs)];
      }
      log := log + [Append(w, chunk)];
    }

    /** One non-blocking send of `write`'s loop. */
    method TrySend(w: nat, id: nat, cp: Bytes)
      requires Enabled(Abs(), Offer(w, id))
      requires sending[w].index < |log| && log[sending[w].index].bytes == cp
      modifies this
      ensures Abs() == Do(old(Abs()), Offer(w, id))
    {
      ghost var h, j := hist[id], sending[w].index;
      if |chans[id].queue| < CHANNEL_CAP {
        chans := chans[id := chans[id].(queue := chans[id].queue + [cp])];
        hist := hist[id := h.(sent := h.sent + [j])];
      } else {
        hist := hist[id := h.(dropped := h.dropped + {j})];
      }
      sending := Remaining(sending, w, id);
    }

    /** `write`, run without interruption: no send is left over, the new chunk is in the buffer, and every open channel
        has it unless it was full. */
    method WriteAll(w: nat, chunk: Bytes)
      requires Inv(Abs()) && w !in sending
      modifies this
      ensures Inv(Abs()) && w !in sending && data == LastBytes(old(data) + chunk, max)
      ensures log == if chunk == "" then old(log) else old(log) + [Append(w, chunk)]
      ensures chans.Keys == old(chans).Keys && nextId == old(nextId) && closed == old(closed)
      ensures forall id | id in chans :: chans[id] == if chunk == "" then old(chans)[id] else Offered(old(chans)[id], chunk)
    {
      ghost var before := Abs();
      var subs := WriteLocked(w, chunk);
      if chunk == "" {
        assert old(data) + chunk == old(data);
        return;
      }
      WriteKeepsInv(before, w, chunk);
      while subs != {}
        invariant Midway(before, Abs(), w, chunk, subs)
        invariant subs <= OpenIds(before) && Reached(before, Abs(), chunk, subs)
      {
        assert exists id :: id in subs by { var id := Member(subs); }
        var id :| id in subs;
        MidwayOffer(before, Abs(), w, chunk, subs, id);
        ReachedOffer(before, Abs(), w, chunk, subs, id);
        TrySend(w, id, chunk);
        subs := subs - {id};
      }
    }

    method TakeSnapshot(ghost id: nat) returns (out: Bytes)
      requires id in hist && hist[id].snapAt.None?
      modifies this`hist
      ensures out == data && Abs() == Do(old(Abs()), Snapshot(id))
    {
      out := data;
      hist := hist[id := hist[id].(snapAt := Some(|log|), snapshot := data)];
    }

    method SubscribeLocked() returns (id: nat)
      modifies this
      ensures Abs() == Do(old(Abs()), Subscribe) && id == old(nextId) + 1
      ensures chans == old(chans)[id := Chan([], !old(closed))]
      ensures Inv(old(Abs())) ==> id !in old(chans) && Inv(Abs())
    {
      ghost var before := Abs();
      if Inv(before) {
        SubscribeKeepsInv(before);
      }
      nextId := nextId + 1;
      id := nextId;
      hist := hist[id := History(|log|, [], {}, 0, None, "", if closed then Some(|log|) else None)];
      if closed {
        chans := chans[id := Chan([], false)];
        return;
      }
      chans := chans[id := Chan([], true)];
    }

    method UnsubscribeLocked(id: nat)
      requires id in chans && id in hist && (chans[id].open ==> Quiet(Abs(), id))
      modifies this
      ensures Abs() == Do(old(Abs()), Unsubscribe(id))
      ensures chans == old(chans)[id := old(chans)[id].(open := false)]
    {
      if chans[id].open {
        chans := chans[id := chans[id].(open := false)];
        hist := hist[id := hist[id].(until := Some(|log|))];
      }
    }

    method CloseAll()
      requires chans.Keys <= hist.Keys && (!closed ==> sending == map[])
      modifies this
      ensures Abs() == Do(old(Abs()), Close)
      ensures closed && chans.Keys == old(chans).Keys
      ensures !old(closed) ==> forall id | id in chans :: chans[id] == old(chans)[id].(open := false)
    {
      if closed {
        return;
      }
      ghost var before := Abs();
      closed := true;
      hist := OnClose(before).hist;
      var todo := chans.Keys;
      while todo != {}
        invariant todo <= before.chans.Keys == chans.Keys
        invariant forall id | id in chans :: chans[id] == if id in todo then before.chans[id] else before.chans[id].(open := false)
        invariant Abs() == OnClose(before).(chans := chans)
      {
        assert exists id :: id in todo by { var id := Member(todo); }
        var id :| id in todo;
        chans := chans[id := chans[id].(open := false)];
        todo := todo - {id};
      }
      assert chans == OnClose(before).chans;
    }
  }
}
