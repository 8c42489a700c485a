/** The workbench event bus: fan-out to bounded subscriber queues, dropping the oldest event when one is full.
    One publisher at a time; every other step may fall between its channel operations. */
module WorkbenchBus {
  import opened Common

  const SUB_BUFFER := 32

  datatype Event = Event(kind: string, plugin: string, payload: string)

  // A subscription: its queue, the log position it began at, the position its queue begins at, the positions received,
  // and the log length when it was closed.
  datatype Sub = Sub(queue: seq<Event>, since: nat, lo: nat, got: seq<nat>, until: Option<nat>)

  // Where the publisher stands with one subscriber.
  datatype Turn = Ready | Dropping(id: nat) | Retrying(id: nat)

  // The event in flight and the subscribers still to be given it.
  datatype Flight = Flight(ev: Event, todo: set<nat>, turn: Turn)

  datatype State = State(subs: map<nat, Sub>, next: nat, log: seq<Event>, flight: Option<Flight>)

  const Initial := State(map[], 0, [], None)

  datatype Step =
    | Publish(ev: Event)
    | TrySend(id: nat)
    | DropOldest(id: nat)
    | Retry(id: nat)
    | Receive(id: nat)
    | Subscribe
    | Done(id: nat)

  function LiveIds(s: State): set<nat> {
    set id | id in s.subs && s.subs[id].until.None?
  }

  predicate Awaits(s: State, id: nat) {
    s.flight.Some? && id in s.flight.value.todo
  }

  predicate Enabled(s: State, step: Step) {
    match step
    case Publish(_) => s.flight.None?
    case TrySend(id) => Awaits(s, id) && id in s.subs && s.flight.value.turn == Ready
    case DropOldest(id) => Awaits(s, id) && id in s.subs && s.flight.value.turn == Dropping(id)
    case Retry(id) => Awaits(s, id) && id in s.subs && s.flight.value.turn == Retrying(id)
    case Receive(id) => id in s.subs && s.subs[id].queue != []
    case Subscribe => true
    case Done(id) => id in s.subs && s.subs[id].until.None? && !Awaits(s, id)
  }

  // The publisher is through with one subscriber.
  function Served(f: Flight, id: nat): Option<Flight> {
    if f.todo - {id} == {} then None else Some(Flight(f.ev, f.todo - {id}, Ready))
  }

  function Enqueue(s: State, id: nat): State
    requires Awaits(s, id) && id in s.subs
  {
    var q := s.subs[id].queue;
    s.(subs := s.subs[id := s.subs[id].(queue := q + [s.flight.value.ev])], flight := Served(s.flight.value, id))
  }

  function Do(s: State, step: Step): State {
    if !Enabled(s, step) then s
    else match step
         case Publish(ev) =>
           s.(log := s.log + [ev], flight := if LiveIds(s) == {} then None else Some(Flight(ev, LiveIds(s), Ready)))
         case TrySend(id) =>
           if |s.subs[id].queue| < SUB_BUFFER then Enqueue(s, id)
           else s.(flight := Some(s.flight.value.(turn := Dropping(id))))
         case DropOldest(id) =>
           var t := s.(flight := Some(s.flight.value.(turn := Retrying(id))));
           if s.subs[id].queue == [] then t
           else t.(subs := s.subs[id := s.subs[id].(queue := s.subs[id].queue[1..], lo := s.subs[id].lo + 1)])
         case Retry(id) =>
           if |s.subs[id].queue| < SUB_BUFFER then Enqueue(s, id)
           else s.(flight := Served(s.flight.value, id))
         case Receive(id) =>
           var u := s.subs[id];
           s.(subs := s.subs[id := u.(queue := u.queue[1..], lo := u.lo + 1, got := u.got + [u.lo])])
         case Subscribe =>
           s.(subs := s.subs[s.next := Sub([], |s.log|, |s.log|, [], None)], next := s.next + 1)
         case Done(id) => s.(subs := s.subs[id := s.subs[id].(until := Some(|s.log|))])
  }

  function Run(steps: seq<Step>): State {
    if steps == [] then Initial else Do(Run(ButLast(steps)), Last(steps))
  }

  // ---------------------------------------------------------------- what every reachable state keeps

  // How far into the log the publisher has come for this subscriber.
  function End(s: State, id: nat): int
    requires id in s.subs
  {
    var u := s.subs[id];
    if u.until.Some? then u.until.value else if Awaits(s, id) then |s.log| - 1 else |s.log|
  }

  predicate Increasing(ps: seq<nat>) {
    forall i, j | 0 <= i < j < |ps| :: ps[i] < ps[j]
  }

  predicate SubOk(s: State, id: nat)
    requires id in s.subs
  {
    var u := s.subs[id];
    && u.since <= u.lo <= End(s, id) <= |s.log|
    && u.queue == s.log[u.lo..End(s, id)] && |u.queue| <= SUB_BUFFER
    && Increasing(u.got) && (forall i | 0 <= i < |u.got| :: u.since <= u.got[i] < u.lo)
  }

  predicate FlightOk(s: State) {
    s.flight.Some? ==>
      var f := s.flight.value;
      && s.log != [] && Last(s.log) == f.ev
      && (forall id | id in f.todo :: id in s.subs && s.subs[id].until.None?)
      && (f.turn.Dropping? || f.turn.Retrying? ==> f.turn.id in f.todo)
      && (f.turn.Retrying? && f.turn.id in s.subs ==> |s.subs[f.turn.id].queue| < SUB_BUFFER)
  }

  predicate Inv(s: State) {
    && (forall id | id in s.subs :: id < s.next && SubOk(s, id))
    && FlightOk(s)
  }

  lemma PublishKeeps(s: State, ev: Event, id: nat)
    requires Inv(s) && Enabled(s, Publish(ev)) && id in s.subs
    ensures SubOk(Do(s, Publish(ev)), id)
  {
    var t := Do(s, Publish(ev));
    assert id in LiveIds(s) <==> s.subs[id].until.None?;
    assert End(t, id) == End(s, id);
    assert t.log[s.subs[id].lo..End(s, id)] == s.log[s.subs[id].lo..End(s, id)];
  }

  lemma EnqueueKeeps(s: State, id: nat, k: nat)
    requires FlightOk(s) && Awaits(s, id) && id in s.subs && SubOk(s, id) && |s.subs[id].queue| < SUB_BUFFER
    requires k in s.subs && SubOk(s, k)
    ensures SubOk(Enqueue(s, id), k)
  {
    var t := Enqueue(s, id);
    if k == id {
      var lo, n := s.subs[id].lo, |s.log|;
      assert End(s, id) == n - 1 && End(t, id) == n;
      assert s.log[lo..n] == s.log[lo..n - 1] + [s.log[n - 1]];
    } else {
      assert Awaits(t, k) == Awaits(s, k);
    }
  }

  // The oldest event leaves a queue.
  lemma ShiftKeeps(s: State, step: Step, id: nat)
    requires Inv(s) && Enabled(s, step) && id in s.subs && (step.DropOldest? || step.Receive?)
    ensures SubOk(Do(s, step), id)
  {
    var t := Do(s, step);
    assert t.log == s.log && Awaits(t, id) == Awaits(s, id) && SubOk(s, id);
    if id == step.id {
      var u := s.subs[id];
      if u.queue != [] {
        assert t.subs[id].queue == s.log[u.lo..End(s, id)][1..] == s.log[u.lo + 1..End(s, id)];
      }
    } else {
      assert t.subs[id] == s.subs[id];
    }
  }

  lemma OtherKeeps(s: State, step: Step, id: nat)
    requires Inv(s) && Enabled(s, step) && id in s.subs && !step.Publish?
    ensures SubOk(Do(s, step), id)
  {
    var t := Do(s, step);
    if step.DropOldest? || step.Receive? {
      ShiftKeeps(s, step, id);
    } else if (step.TrySend? || step.Retry?) && |s.subs[step.id].queue| < SUB_BUFFER {
      EnqueueKeeps(s, step.id, id);
    } else {
      assert t.log == s.log && Awaits(t, id) == Awaits(s, id);
    }
  }

  lemma SubsKeep(s: State, step: Step, id: nat)
    requires Inv(s) && Enabled(s, step) && id in Do(s, step).subs
    ensures id < Do(s, step).next && SubOk(Do(s, step), id)
  {
    if id !in s.subs {
      assert !Awaits(s, id);
    } else if step.Publish? {
      PublishKeeps(s, step.ev, id);
    } else {
      OtherKeeps(s, step, id);
    }
  }

  lemma FlightKeeps(s: State, step: Step)
    requires Inv(s) && Enabled(s, step)
    ensures FlightOk(Do(s, step))
  {
    if step.DropOldest? {
      assert SubOk(s, step.id);
    }
  }

  lemma StepKeeps(s: State, step: Step)
    requires Inv(s) && Enabled(s, step)
    ensures Inv(Do(s, step))
  {
    FlightKeeps(s, step);
    forall id | id in Do(s, step).subs ensures id < Do(s, step).next && SubOk(Do(s, step), id) {
      SubsKeep(s, step, id);
    }
  }

  lemma {:induction false} Reachable(steps: seq<Step>)
    ensures Inv(Run(steps))
  {
    if steps != [] {
      Reachable(ButLast(steps));
      if Enabled(Run(ButLast(steps)), Last(steps)) {
        StepKeeps(Run(ButLast(steps)), Last(steps));
      }
    }
  }

  /** Under any interleaving a subscriber's queue holds at most 32 events, and exactly a contiguous tail of those
      published to it since it subscribed; what it has received came in publication order, none twice, all before
      what is queued. */
  lemma QueueIsTail(steps: seq<Step>, id: nat)
    requires id in Run(steps).subs
    ensures
      var s := Run(steps);
      var u := s.subs[id];
      && |u.queue| <= SUB_BUFFER && u.since <= u.lo <= End(s, id) <= |s.log| && u.queue == s.log[u.lo..End(s, id)]
      && Increasing(u.got) && forall i | 0 <= i < |u.got| :: u.since <= u.got[i] < u.lo
  {
    Reachable(steps);
  }

  /** The publisher never has to skip a subscriber: whenever it is through with one, the new event is the newest queued. */
  lemma NewestIsQueued(steps: seq<Step>, step: Step, id: nat)
    requires Enabled(Run(steps), step) && Awaits(Run(steps), id) && !Awaits(Do(Run(steps), step), id)
    ensures var t := Do(Run(steps), step);
            id in t.subs && t.subs[id].queue != [] && Last(t.subs[id].queue) == Run(steps).flight.value.ev
  {
    Reachable(steps);
    var todo := Run(steps).flight.value.todo;
    var turn := if step.TrySend? || step.Retry? then step.id else id;
    assert id != turn ==> id in todo - {turn};
  }

  /** An event leaves a queue unreceived only as the oldest one, for a publisher that found the queue full. */
  lemma DropsOnlyOldest(steps: seq<Step>, step: Step, id: nat)
    requires id in Run(steps).subs && Enabled(Run(steps), step)
    requires var u, v := Run(steps).subs[id], Do(Run(steps), step).subs[id]; v.lo != u.lo && v.got == u.got
    ensures var u, v := Run(steps).subs[id], Do(Run(steps), step).subs[id];
            step == DropOldest(id) && u.queue != [] && v.queue == u.queue[1..] && v.lo == u.lo + 1
  {
    Reachable(steps);
  }

  /** A publisher turns to dropping only at a subscriber whose queue holds 32 events. */
  lemma DropsOnlyWhenFull(steps: seq<Step>, step: Step)
    requires Enabled(Run(steps), step)
    requires Do(Run(steps), step).flight.Some? && Do(Run(steps), step).flight.value.turn.Dropping?
    requires Run(steps).flight != Do(Run(steps), step).flight
    ensures var id := Do(Run(steps), step).flight.value.turn.id;
            step == TrySend(id) && id in Run(steps).subs && |Run(steps).subs[id].queue| == SUB_BUFFER
  {
    Reachable(steps);
    assert step.TrySend? ==> SubOk(Run(steps), step.id);
  }

  // Which subscriptions there are after a step, and which of them are live.
  predicate Lives(s: State, step: Step, t: State, id: nat) {
    && (id in t.subs <==> id in s.subs || (step == Subscribe && id == s.next))
    && (id in t.subs && id !in s.subs ==> t.subs[id].until.None? && t.subs[id].queue == [] && t.subs[id].since == |s.log|)
    && (id in s.subs && s.subs[id].until.Some? ==> t.subs[id].until == s.subs[id].until)
    && (id in s.subs && s.subs[id].until.None? ==> t.subs[id].until == if step == Done(id) then Some(|s.log|) else None)
  }

  /** A subscription begins empty and live, and is live until its owner is done with it, at that point of the log and for
      good; no other step ends one. */
  lemma LiveUntilDone(steps: seq<Step>, step: Step, id: nat)
    requires Enabled(Run(steps), step)
    ensures Lives(Run(steps), step, Do(Run(steps), step), id)
  {
    Reachable(steps);
    StepLives(Run(steps), step, id);
  }

  lemma StepLives(s: State, step: Step, id: nat)
    requires Enabled(s, step) && s.next !in s.subs
    ensures Lives(s, step, Do(s, step), id)
  {
  }

  // ---------------------------------------------------------------- one turn of the publisher

  // A subscription given one more event, the oldest one dropped if there was no room.
  function WithNewest(u: Sub, ev: Event): Sub {
    if |u.queue| < SUB_BUFFER then u.(queue := u.queue + [ev])
    else u.(queue := u.queue[1..] + [ev], lo := u.lo + 1)
  }

  // What a whole turn at one subscriber does, if nothing comes between.
  ghost predicate Turned(s: State, t: State, id: nat) {
    && Inv(t) && Awaits(s, id) && t.flight == Served(s.flight.value, id) && t.log == s.log && t.next == s.next
    && t.subs.Keys == s.subs.Keys && id in t.subs && t.subs[id] == WithNewest(s.subs[id], s.flight.value.ev)
    && (forall k | k in t.subs && k != id :: t.subs[k] == s.subs[k])
  }

  lemma DirectTurn(s: State, id: nat)
    requires Inv(s) && Enabled(s, TrySend(id)) && |s.subs[id].queue| < SUB_BUFFER
    ensures Turned(s, Do(s, TrySend(id)), id)
  {
    StepKeeps(s, TrySend(id));
  }

  // The oldest event of a full queue makes room.
  lemma DropNow(s: State, id: nat)
    requires Inv(s) && Enabled(s, DropOldest(id)) && |s.subs[id].queue| == SUB_BUFFER
    ensures
      var t, u := Do(s, DropOldest(id)), s.subs[id];
      && Inv(t) && Enabled(t, Retry(id)) && t.flight == Some(s.flight.value.(turn := Retrying(id)))
      && t == s.(subs := s.subs[id := u.(queue := u.queue[1..], lo := u.lo + 1)], flight := t.flight)
  {
    StepKeeps(s, DropOldest(id));
  }

  lemma RetryNow(s: State, id: nat)
    requires Inv(s) && Enabled(s, Retry(id)) && |s.subs[id].queue| < SUB_BUFFER
    ensures Inv(Do(s, Retry(id))) && Do(s, Retry(id)) == Enqueue(s, id)
  {
    StepKeeps(s, Retry(id));
  }

  lemma TurnToDrop(s: State, id: nat)
    requires Inv(s) && Enabled(s, TrySend(id)) && |s.subs[id].queue| == SUB_BUFFER
    ensures var t := Do(s, TrySend(id));
            Inv(t) && Enabled(t, DropOldest(id)) && t == s.(flight := Some(s.flight.value.(turn := Dropping(id))))
  {
    StepKeeps(s, TrySend(id));
  }

  lemma DroppingTurn(s: State, id: nat)
    requires Inv(s) && Enabled(s, TrySend(id)) && |s.subs[id].queue| == SUB_BUFFER
    ensures var s1 := Do(s, TrySend(id));
            var s2 := Do(s1, DropOldest(id));
            Enabled(s1, DropOldest(id)) && Enabled(s2, Retry(id)) && |s2.subs[id].queue| < SUB_BUFFER
    ensures Turned(s, Do(Do(Do(s, TrySend(id)), DropOldest(id)), Retry(id)), id)
  {
    var s1 := Do(s, TrySend(id));
    TurnToDrop(s, id);
    var s2 := Do(s1, DropOldest(id));
    DropNow(s1, id);
    RetryNow(s2, id);
  }

  // Within an uninterrupted publish: these live subscribers are still to come, the others have the event, and nothing
  // else has changed.
  ghost predicate Underway(before: State, s: State, ev: Event, ids: set<nat>, live: set<nat>) {
    && Inv(s) && s.log == before.log + [ev] && s.next == before.next
    && s.subs.Keys == before.subs.Keys && ids <= live <= s.subs.Keys
    && s.flight == (if ids == {} then None else Some(Flight(ev, ids, Ready)))
    && (forall id | id in s.subs ::
          s.subs[id] == if id in live && id !in ids then WithNewest(before.subs[id], ev) else before.subs[id])
  }

  lemma UnderwayTurn(before: State, s: State, t: State, ev: Event, ids: set<nat>, live: set<nat>, id: nat)
    requires Underway(before, s, ev, ids, live) && id in ids && Turned(s, t, id)
    ensures Underway(before, t, ev, ids - {id}, live)
  {
    assert s.flight == Some(Flight(ev, ids, Ready));
    assert t.subs[id] == WithNewest(before.subs[id], ev);
  }

  // ---------------------------------------------------------------- the bus object

  class Bus {
    var subs: map<nat, Sub>
    var next: nat
    var log: seq<Event>  // every event published; kept to say what queues hold
    ghost var flight: Option<Flight>

    ghost function Abs(): State
      reads this
    {
      State(subs, next, log, flight)
    }

    constructor ()
      ensures Abs() == Initial
    {
      subs, next, log, flight := map[], 0, [], None;
    }

    /** The critical section of `Publish`: the subscribers to send to. */
    method Snapshot(ev: Event) returns (ids: set<nat>)
      requires flight.None?
      modifies this`log, this`flight
      ensures Abs() == Do(old(Abs()), Publish(ev)) && ids == LiveIds(old(Abs()))
    {
      ids := set id | id in subs && subs[id].until.None?;
      log := log + [ev];
      flight := if ids == {} then None else Some(Flight(ev, ids, Ready));
    }

    // A send that does not block.
    method Offer(id: nat, ev: Event) returns (ok: bool)
      requires id in subs
      modifies this`subs
      ensures ok == (|old(subs)[id].queue| < SUB_BUFFER)
      ensures subs == if ok then old(subs)[id := old(subs)[id].(queue := old(subs)[id].queue + [ev])] else old(subs)
    {
      ok := |subs[id].queue| < SUB_BUFFER;
      if ok {
        subs := subs[id := subs[id].(queue := subs[id].queue + [ev])];
      }
    }

    /** `Publish`'s turn at one subscriber, run without interruption. */
    method Deliver(id: nat, ev: Event)
      requires Inv(Abs()) && Enabled(Abs(), TrySend(id)) && flight.value.ev == ev
      modifies this`subs, this`flight
      ensures Turned(old(Abs()), Abs(), id)
    {
      ghost var s := Abs();
      assert SubOk(s, id);
      var sent := Offer(id, ev);
      if sent {
        flight := Served(flight.value, id);
        DirectTurn(s, id);
        assert Abs() == Do(s, TrySend(id));
        return;
      }
      DroppingTurn(s, id);
      flight := Some(flight.value.(turn := Dropping(id)));
      ghost var s1 := Do(s, TrySend(id));
      assert Abs() == s1;
      if |subs[id].queue| > 0 {
        subs := subs[id := subs[id].(queue := subs[id].queue[1..], lo := subs[id].lo + 1)];
      }
      flight := Some(flight.value.(turn := Retrying(id)));
      ghost var s2 := Do(s1, DropOldest(id));
      assert Abs() == s2;
      sent := Offer(id, ev);
      flight := Served(flight.value, id);
      assert Abs() == Do(s2, Retry(id));
    }

    /** `Publish`, run without interruption: every live subscriber gets the event as its newest, a full queue loses only its
        oldest, and closed subscriptions are left alone. */
    method PublishAll(ev: Event)
      requires Inv(Abs()) && flight.None?
      modifies this
      ensures Underway(old(Abs()), Abs(), ev, {}, LiveIds(old(Abs())))
    {
      ghost var before := Abs();
      StepKeeps(before, Publish(ev));
      var ids := Snapshot(ev);
      while ids != {}
        invariant Underway(before, Abs(), ev, ids, LiveIds(before))
      {
        assert exists id :: id in ids by { var id := Member(ids); }
        var id :| id in ids;
        ghost var s := Abs();
        Deliver(id, ev);
        UnderwayTurn(before, s, Abs(), ev, ids, LiveIds(before), id);
        ids := ids - {id};
      }
    }

    method SubscribeLocked() returns (id: nat)
      modifies this`subs, this`next
      ensures Abs() == Do(old(Abs()), Subscribe) && id == old(next)
      ensures subs == old(subs)[id := subs[id]] && subs[id].queue == [] && subs[id].until.None?
    {
      id := next;
      next := next + 1;
      subs := subs[id := Sub([], |log|, |log|, [], None)];
    }

    /** The function `Subscribe` hands back; calling it again changes nothing. */
    method DoneWith(id: nat)
      requires id in subs && !Awaits(Abs(), id)
      modifies this`subs
      ensures Abs() == Do(old(Abs()), Done(id))
      ensures subs == old(subs)[id := old(subs)[id].(until := subs[id].until)] && subs[id].until.Some?
      ensures old(subs)[id].until.Some? ==> subs == old(subs)
    {
      if subs[id].until.None? {
        subs := subs[id := subs[id].(until := Some(|log|))];
      }
    }
  }
}
