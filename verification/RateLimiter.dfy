/** The per-address limiter as it runs. A call reads the clock, finds or stores its bucket, and only then takes the lock;
    the cleanup tests a bucket and deletes its key without any lock. Each step below is one of these atomic operations,
    and a run is any interleaving of them. */
module RateLimiter {
  import opened Common
  import opened TokenBucket

  // A call that has read the clock, and one that has its bucket too.
  datatype Call = Clocked(ip: string, now: int) | Loaded(ip: string, now: int, bucket: nat)

  // A deletion is quiet if no call of the address is under way and its bucket is still as old as the test found it.
  datatype Fate = Kept | Quiet | Noisy

  // The history of a bucket: who made it and when, whether it has been taken from, whether its address had one before,
  // the latest clock reading of a call that found it, and how many calls it has served.
  datatype Note = Note(ip: string, maker: nat, born: int, remade: bool, taken: bool, top: int, served: nat, fate: Fate)

  datatype Answer = Answer(ip: string, now: int, ok: bool)

  // The first and the last clock reading for an address.
  datatype Span = Span(first: int, last: int)

  // A key the cleanup has found stale, at its own reading of the clock, and not yet deleted.
  datatype Doom = Doom(ip: string, at: int)

  // `heap` are all buckets ever made, `table` the ones that can still be found.
  datatype State = State(clock: int, heap: seq<Bucket>, notes: seq<Note>, table: map<string, nat>,
                         calls: map<nat, Call>, doomed: Option<Doom>, answers: seq<Answer>, spans: map<string, Span>)

  function Initial(clock: int): State {
    State(clock, [], [], map[], map[], None, [], map[])
  }

  datatype Step =
    | Tick(now: int)
    | Clock(call: nat, ip: string)
    | Load(call: nat)
    | Take(call: nat)
    | Test(ip: string, at: int)
    | Delete

  predicate Found(s: State, ip: string) {
    ip in s.table && s.table[ip] < |s.heap| == |s.notes|
  }

  predicate Enabled(s: State, step: Step) {
    match step
    case Tick(now) => s.clock <= now
    case Clock(c, _) => c !in s.calls
    case Load(c) => c in s.calls && s.calls[c].Clocked? && (s.calls[c].ip in s.table ==> Found(s, s.calls[c].ip))
    case Take(c) => c in s.calls && s.calls[c].Loaded? && s.calls[c].bucket < |s.heap| == |s.notes|
    case Test(ip, at) => at <= s.clock && s.doomed.None? && Found(s, ip)
    case Delete => s.doomed.Some? && Found(s, s.doomed.value.ip)
  }

  function Widen(spans: map<string, Span>, ip: string, now: int): map<string, Span> {
    spans[ip := if ip in spans then spans[ip].(last := now) else Span(now, now)]
  }

  predicate Known(notes: seq<Note>, ip: string) {
    exists o :: 0 <= o < |notes| && notes[o].ip == ip
  }

  function NewNote(s: State, c: nat): Note
    requires c in s.calls
  {
    var k := s.calls[c];
    Note(k.ip, c, k.now, Known(s.notes, k.ip), false, k.now, 0, Kept)
  }

  // `LoadOrStore`
  function OnLoad(s: State, c: nat, limit: int): State
    requires Enabled(s, Load(c))
  {
    var k := s.calls[c];
    if k.ip in s.table then
      var o := s.table[k.ip];
      var n := s.notes[o];
      s.(calls := s.calls[c := Loaded(k.ip, k.now, o)],
         notes := s.notes[o := n.(top := if k.now > n.top then k.now else n.top)])
    else
      s.(calls := s.calls[c := Loaded(k.ip, k.now, |s.heap|)], table := s.table[k.ip := |s.heap|],
         heap := s.heap + [Fresh(k.now, limit)], notes := s.notes + [NewNote(s, c)])
  }

  // The critical section of a call.
  function OnTake(s: State, c: nat, limit: int, window: int): State
    requires window > 0 && Enabled(s, Take(c))
  {
    var k := s.calls[c];
    var o := k.bucket;
    var b, n := s.heap[o], s.notes[o];
    var ok := Serves(b, k.now, limit, window);
    s.(heap := s.heap[o := Served(b, k.now, limit, window)],
       notes := s.notes[o := n.(taken := true, served := n.served + if ok then 1 else 0)],
       calls := s.calls - {c}, answers := s.answers + [Answer(k.ip, k.now, ok)])
  }

  predicate NoCallFor(s: State, ip: string) {
    forall c | c in s.calls :: s.calls[c].ip != ip
  }

  predicate QuietNow(s: State, window: int)
    requires Enabled(s, Delete)
  {
    var ip := s.doomed.value.ip;
    NoCallFor(s, ip) && Stale(s.heap[s.table[ip]], s.doomed.value.at, window)
  }

  function OnDelete(s: State, window: int): State
    requires Enabled(s, Delete)
  {
    var ip := s.doomed.value.ip;
    var o := s.table[ip];
    s.(table := s.table - {ip}, doomed := None,
       notes := s.notes[o := s.notes[o].(fate := if QuietNow(s, window) then Quiet else Noisy)])
  }

  // With evict off the cleanup does nothing.
  function Do(s: State, step: Step, evict: bool, limit: int, window: int): State
    requires window > 0
  {
    if !Enabled(s, step) then s
    else match step
         case Tick(now) => s.(clock := now)
         case Clock(c, ip) => s.(calls := s.calls[c := Clocked(ip, s.clock)], spans := Widen(s.spans, ip, s.clock))
         case Load(c) => OnLoad(s, c, limit)
         case Take(c) => OnTake(s, c, limit, window)
         case Test(ip, at) =>
           if evict && Stale(s.heap[s.table[ip]], at, window) then s.(doomed := Some(Doom(ip, at))) else s
         case Delete => if evict then OnDelete(s, window) else s
  }

  function Run(steps: seq<Step>, evict: bool, start: int, limit: int, window: int): State
    requires window > 0
  {
    if steps == [] then Initial(start)
    else Do(Run(ButLast(steps), evict, start, limit, window), Last(steps), evict, limit, window)
  }

  function Accepts(answers: seq<Answer>, ip: string): nat {
    if answers == [] then 0
    else Accepts(ButLast(answers), ip) + if Last(answers).ip == ip && Last(answers).ok then 1 else 0
  }

  // ---------------------------------------------------------------- what every reachable state keeps

  // The table's entries are exactly the buckets not deleted.
  predicate TableOk(s: State) {
    && |s.heap| == |s.notes|
    && (forall ip | ip in s.table :: s.table[ip] < |s.notes| && s.notes[s.table[ip]].ip == ip && s.notes[s.table[ip]].fate == Kept)
    && (forall o | 0 <= o < |s.notes| && s.notes[o].fate == Kept :: s.notes[o].ip in s.table && s.table[s.notes[o].ip] == o)
  }

  predicate SpanOk(s: State, ip: string) {
    ip in s.spans && s.spans[ip].first <= s.spans[ip].last <= s.clock
  }

  predicate CallOk(s: State, c: nat)
    requires c in s.calls
  {
    var k := s.calls[c];
    && SpanOk(s, k.ip) && s.spans[k.ip].first <= k.now <= s.spans[k.ip].last
    && (k.Loaded? ==> k.bucket < |s.notes| && s.notes[k.bucket].ip == k.ip && k.now <= s.notes[k.bucket].top)
  }

  // The account of one bucket: what it served and still holds is covered by its start and what its time has earned.
  predicate BucketOk(s: State, o: nat, limit: int, window: int)
    requires window > 0 && o < |s.heap| == |s.notes|
  {
    var b, n := s.heap[o], s.notes[o];
    && InRange(b, limit) && n.served + b.tokens <= limit + Earned(n.born, b.last, limit, window)
    && SpanOk(s, n.ip) && s.spans[n.ip].first <= n.born <= b.last <= n.top <= s.spans[n.ip].last
  }

  // After a quiet deletion every call of the address comes a window or more after the bucket was last credited.
  predicate QuietOk(s: State, o: nat, window: int)
    requires o < |s.heap| == |s.notes|
  {
    s.notes[o].fate == Quiet ==>
      && s.heap[o].last + window <= s.clock
      && forall c | c in s.calls && s.calls[c].ip == s.notes[o].ip ::
           s.heap[o].last + window <= s.calls[c].now && (s.calls[c].Loaded? ==> s.calls[c].bucket != o)
  }

  // Of two buckets of one address the earlier is deleted; if quietly, it was idle for a window before the later was born.
  predicate PairOk(s: State, o: nat, p: nat, window: int)
    requires o < p < |s.heap| == |s.notes|
  {
    s.notes[o].ip == s.notes[p].ip ==>
      s.notes[o].fate != Kept && (s.notes[o].fate == Quiet ==> s.heap[o].last + window <= s.notes[p].born)
  }

  predicate Inv(s: State, limit: int, window: int)
    requires window > 0
  {
    && TableOk(s) && (forall c | c in s.calls :: CallOk(s, c))
    && (forall ip | ip in s.spans :: SpanOk(s, ip))
    && (s.doomed.Some? ==> s.doomed.value.at <= s.clock)
    && (forall o: nat | o < |s.heap| :: BucketOk(s, o, limit, window) && QuietOk(s, o, window))
    && (forall o: nat, p: nat | o < p < |s.heap| :: PairOk(s, o, p, window))
  }

  lemma TakeKeepsBucket(s: State, c: nat, limit: int, window: int)
    requires window > 0 && limit > 0 && Inv(s, limit, window) && Enabled(s, Take(c))
    ensures BucketOk(OnTake(s, c, limit, window), s.calls[c].bucket, limit, window)
  {
    var k := s.calls[c];
    var b, n := s.heap[k.bucket], s.notes[k.bucket];
    assert CallOk(s, c) && BucketOk(s, k.bucket, limit, window);
    RefillFacts(k.now - b.last, limit, window);
    EarnedAdds(n.born, b.last, k.now, limit, window);
  }

  lemma TakeKeepsInv(s: State, c: nat, limit: int, window: int)
    requires window > 0 && limit > 0 && Inv(s, limit, window) && Enabled(s, Take(c))
    ensures Inv(OnTake(s, c, limit, window), limit, window)
  {
    var t, o := OnTake(s, c, limit, window), s.calls[c].bucket;
    assert CallOk(s, c);
    forall d | d in t.calls ensures CallOk(t, d) {
      assert CallOk(s, d);
    }
    forall p: nat | p < |t.heap| ensures BucketOk(t, p, limit, window) && QuietOk(t, p, window) {
      assert BucketOk(s, p, limit, window) && QuietOk(s, p, window);
      if p == o { TakeKeepsBucket(s, c, limit, window); }
    }
    forall p: nat, q: nat | p < q < |t.heap| ensures PairOk(t, p, q, window) {
      assert PairOk(s, p, q, window) && QuietOk(s, p, window);
    }
  }

  lemma FindKeepsInv(s: State, c: nat, limit: int, window: int)
    requires window > 0 && Inv(s, limit, window) && Enabled(s, Load(c)) && s.calls[c].ip in s.table
    ensures Inv(OnLoad(s, c, limit), limit, window)
  {
    var t := OnLoad(s, c, limit);
    assert CallOk(s, c);
    forall d | d in t.calls ensures CallOk(t, d) {
      assert CallOk(s, d);
    }
    forall p: nat | p < |t.heap| ensures BucketOk(t, p, limit, window) && QuietOk(t, p, window) {
      assert BucketOk(s, p, limit, window) && QuietOk(s, p, window);
    }
    forall p: nat, q: nat | p < q < |t.heap| ensures PairOk(t, p, q, window) {
      assert PairOk(s, p, q, window);
    }
  }

  lemma StoreKeepsInv(s: State, c: nat, limit: int, window: int)
    requires window > 0 && limit > 0 && Inv(s, limit, window) && Enabled(s, Load(c)) && s.calls[c].ip !in s.table
    ensures Inv(OnLoad(s, c, limit), limit, window)
  {
    var t, now := OnLoad(s, c, limit), s.calls[c].now;
    assert CallOk(s, c);
    forall d | d in t.calls ensures CallOk(t, d) {
      assert CallOk(s, d);
    }
    assert (now - now) * limit == 0;
    forall p: nat | p < |t.heap| ensures BucketOk(t, p, limit, window) && QuietOk(t, p, window) {
      if p < |s.heap| {
        assert BucketOk(s, p, limit, window) && QuietOk(s, p, window);
      }
    }
    forall p: nat, q: nat | p < q < |t.heap| ensures PairOk(t, p, q, window) {
      assert QuietOk(s, p, window);
      assert q < |s.heap| ==> PairOk(s, p, q, window);
    }
  }

  lemma DeleteKeepsInv(s: State, limit: int, window: int)
    requires window > 0 && Inv(s, limit, window) && Enabled(s, Delete)
    ensures Inv(OnDelete(s, window), limit, window)
  {
    var t := OnDelete(s, window);
    forall d | d in t.calls ensures CallOk(t, d) {
      assert CallOk(s, d);
    }
    forall p: nat | p < |t.heap| ensures BucketOk(t, p, limit, window) && QuietOk(t, p, window) {
      assert BucketOk(s, p, limit, window) && QuietOk(s, p, window);
    }
    forall p: nat, q: nat | p < q < |t.heap| ensures PairOk(t, p, q, window) {
      assert PairOk(s, p, q, window);
    }
  }

  lemma ClockKeepsInv(s: State, step: Step, limit: int, window: int)
    requires window > 0 && Inv(s, limit, window) && Enabled(s, step) && (step.Tick? || step.Clock?)
    ensures Inv(Do(s, step, true, limit, window), limit, window)
  {
    var t := Do(s, step, true, limit, window);
    forall d | d in t.calls ensures CallOk(t, d) {
      assert d in s.calls ==> CallOk(s, d);
    }
    forall p: nat | p < |t.heap| ensures BucketOk(t, p, limit, window) && QuietOk(t, p, window) {
      assert BucketOk(s, p, limit, window) && QuietOk(s, p, window);
    }
    forall p: nat, q: nat | p < q < |t.heap| ensures PairOk(t, p, q, window) {
      assert PairOk(s, p, q, window);
    }
  }

  lemma TestKeepsInv(s: State, step: Step, evict: bool, limit: int, window: int)
    requires window > 0 && Inv(s, limit, window) && step.Test?
    ensures Inv(Do(s, step, evict, limit, window), limit, window)
  {
    var t := Do(s, step, evict, limit, window);
    forall d | d in t.calls ensures CallOk(t, d) {
      assert CallOk(s, d);
    }
    forall p: nat | p < |t.heap| ensures BucketOk(t, p, limit, window) && QuietOk(t, p, window) {
      assert BucketOk(s, p, limit, window) && QuietOk(s, p, window);
    }
    forall p: nat, q: nat | p < q < |t.heap| ensures PairOk(t, p, q, window) {
      assert PairOk(s, p, q, window);
    }
  }

  lemma StepKeepsInv(s: State, step: Step, evict: bool, limit: int, window: int)
    requires window > 0 && limit > 0 && Inv(s, limit, window)
    ensures Inv(Do(s, step, evict, limit, window), limit, window)
  {
    if Enabled(s, step) {
      match step
      case Tick(_) => ClockKeepsInv(s, step, limit, window);
      case Clock(_, _) => ClockKeepsInv(s, step, limit, window);
      case Load(c) =>
        if s.calls[c].ip in s.table { FindKeepsInv(s, c, limit, window); } else { StoreKeepsInv(s, c, limit, window); }
      case Take(c) => TakeKeepsInv(s, c, limit, window);
      case Test(_, _) => TestKeepsInv(s, step, evict, limit, window);
      case Delete => DeleteKeepsInv(s, limit, window);
    }
  }

  /** Every bucket's account holds in every reachable state of every interleaving. */
  lemma {:induction false} Reachable(steps: seq<Step>, evict: bool, start: int, limit: int, window: int)
    requires window > 0 && limit > 0
    ensures Inv(Run(steps, evict, start, limit, window), limit, window)
  {
    if steps != [] {
      Reachable(ButLast(steps), evict, start, limit, window);
      StepKeepsInv(Run(ButLast(steps), evict, start, limit, window), Last(steps), evict, limit, window);
    }
  }

  // ---------------------------------------------------------------- one call, undisturbed

  type Table = map<string, Bucket>

  // What can be found in the table.
  function Content(s: State): Table {
    map ip | ip in s.table && s.table[ip] < |s.heap| :: s.heap[s.table[ip]]
  }

  function Find(m: Table, ip: string, now: int, limit: int): Bucket {
    if ip in m then m[ip] else Fresh(now, limit)
  }

  function Swept(m: Table, now: int, window: int): Table {
    map ip | ip in m && !Stale(m[ip], now, window) :: m[ip]
  }

  function WholeCall(s: State, c: nat, ip: string, evict: bool, limit: int, window: int): State
    requires window > 0
  {
    Do(Do(Do(s, Clock(c, ip), evict, limit, window), Load(c), evict, limit, window), Take(c), evict, limit, window)
  }

  predicate SameFates(s: State, t: State) {
    |s.notes| <= |t.notes|
    && forall o | 0 <= o < |s.notes| :: t.notes[o].fate == s.notes[o].fate && t.notes[o].ip == s.notes[o].ip
  }

  lemma FindContent(s: State, c: nat, limit: int)
    requires TableOk(s) && Enabled(s, Load(c)) && s.calls[c].ip in s.table
    ensures Content(OnLoad(s, c, limit)) == Content(s) && TableOk(OnLoad(s, c, limit)) && SameFates(s, OnLoad(s, c, limit))
  {
  }

  lemma StoreContent(s: State, c: nat, limit: int)
    requires TableOk(s) && Enabled(s, Load(c)) && s.calls[c].ip !in s.table
    ensures Content(OnLoad(s, c, limit)) == Content(s)[s.calls[c].ip := Fresh(s.calls[c].now, limit)]
    ensures TableOk(OnLoad(s, c, limit)) && SameFates(s, OnLoad(s, c, limit))
  {
  }

  lemma LoadFinds(s: State, c: nat, ip: string, now: int, limit: int)
    requires TableOk(s) && c in s.calls && s.calls[c] == Clocked(ip, now)
    ensures
      var t := OnLoad(s, c, limit);
      && TableOk(t) && SameFates(s, t) && t.clock == s.clock && t.answers == s.answers && t.doomed == s.doomed
      && ip in t.table && t.calls == s.calls[c := Loaded(ip, now, t.table[ip])]
      && Content(t) == Content(s)[ip := Find(Content(s), ip, now, limit)]
  {
    if ip in s.table { FindContent(s, c, limit); } else { StoreContent(s, c, limit); }
  }

  // From s to t one call of the address has been answered: its bucket, or a full one, has served it, and no other has
  // changed.
  predicate Answered(s: State, t: State, ip: string, now: int, limit: int, window: int)
    requires window > 0
  {
    var b := Find(Content(s), ip, now, limit);
    && TableOk(t) && SameFates(s, t) && t.clock == s.clock && t.doomed == s.doomed
    && t.answers == s.answers + [Answer(ip, now, Serves(b, now, limit, window))]
    && Content(t) == Content(s)[ip := Served(b, now, limit, window)]
    && (ip in s.table ==> t.table == s.table) && |t.notes| == |s.notes| + if ip in s.table then 0 else 1
  }

  lemma TakeAnswered(s: State, c: nat, ip: string, now: int, limit: int, window: int)
    requires window > 0 && TableOk(s) && c in s.calls && ip in s.table && s.calls[c] == Loaded(ip, now, s.table[ip])
    ensures Answered(s, OnTake(s, c, limit, window), ip, now, limit, window)
  {
  }

  lemma FoundAnswered(s: State, s1: State, t: State, ip: string, now: int, limit: int, window: int)
    requires window > 0 && TableOk(s) && TableOk(s1) && SameFates(s, s1) && s1.clock == s.clock && s1.answers == s.answers
    requires s1.doomed == s.doomed && ip in s1.table && Content(s1) == Content(s)[ip := Find(Content(s), ip, now, limit)]
    requires (ip in s.table ==> s1.table == s.table) && |s1.notes| == |s.notes| + if ip in s.table then 0 else 1
    requires Answered(s1, t, ip, now, limit, window)
    ensures Answered(s, t, ip, now, limit, window)
  {
    assert Find(Content(s1), ip, now, limit) == Find(Content(s), ip, now, limit);
  }

  // The two steps that follow the clock reading.
  lemma LoadAndTake(s: State, c: nat, ip: string, now: int, limit: int, window: int)
    requires window > 0 && TableOk(s) && c in s.calls && s.calls[c] == Clocked(ip, now)
    ensures Enabled(s, Load(c)) && Enabled(OnLoad(s, c, limit), Take(c))
    ensures var t := OnTake(OnLoad(s, c, limit), c, limit, window);
            Answered(s, t, ip, now, limit, window) && t.calls == s.calls - {c} && t.spans == s.spans
  {
    LoadFinds(s, c, ip, now, limit);
    var s1 := OnLoad(s, c, limit);
    TakeAnswered(s1, c, ip, now, limit, window);
    FoundAnswered(s, s1, OnTake(s1, c, limit, window), ip, now, limit, window);
  }

  /** A call nothing comes between serves its address's bucket, or a full one, and touches no other. */
  lemma WholeCallServes(s: State, c: nat, ip: string, evict: bool, limit: int, window: int)
    requires window > 0 && TableOk(s) && c !in s.calls
    ensures var t := WholeCall(s, c, ip, evict, limit, window);
            Answered(s, t, ip, s.clock, limit, window) && t.calls == s.calls && t.spans == Widen(s.spans, ip, s.clock)
  {
    var s1 := Do(s, Clock(c, ip), evict, limit, window);
    assert TableOk(s1) && Content(s1) == Content(s);
    LoadAndTake(s1, c, ip, s.clock, limit, window);
    assert s1.calls - {c} == s.calls;
  }

  // ---------------------------------------------------------------- what one address can get

  function ServedFor(notes: seq<Note>, ip: string): nat {
    if notes == [] then 0
    else ServedFor(ButLast(notes), ip) + if Last(notes).ip == ip then Last(notes).served else 0
  }

  // How many buckets of an address had this fate.
  function FateCount(notes: seq<Note>, ip: string, fate: Fate): nat {
    if notes == [] then 0
    else FateCount(ButLast(notes), ip, fate) + if Last(notes).ip == ip && Last(notes).fate == fate then 1 else 0
  }

  function Deletions(notes: seq<Note>, ip: string): nat {
    FateCount(notes, ip, Quiet) + FateCount(notes, ip, Noisy)
  }

  lemma {:induction false} ServedChanged(notes: seq<Note>, o: nat, n: Note, ip: string)
    requires o < |notes| && n.ip == notes[o].ip
    ensures ServedFor(notes[o := n], ip) == ServedFor(notes, ip) + if n.ip == ip then n.served - notes[o].served else 0
  {
    var before := ButLast(notes);
    if o == |notes| - 1 {
      assert ButLast(notes[o := n]) == before;
    } else {
      ServedChanged(before, o, n, ip);
      assert ButLast(notes[o := n]) == before[o := n];
    }
  }

  lemma LoadServes(s: State, c: nat, limit: int, ip: string)
    requires TableOk(s) && Enabled(s, Load(c))
    ensures ServedFor(OnLoad(s, c, limit).notes, ip) == ServedFor(s.notes, ip)
  {
    if s.calls[c].ip in s.table {
      var o := s.table[s.calls[c].ip];
      ServedChanged(s.notes, o, OnLoad(s, c, limit).notes[o], ip);
    } else {
      SnocParts(s.notes, NewNote(s, c));
    }
  }

  lemma TakeServes(s: State, c: nat, limit: int, window: int, ip: string)
    requires window > 0 && Enabled(s, Take(c)) && CallOk(s, c)
    ensures var t := OnTake(s, c, limit, window);
            Accepts(t.answers, ip) - Accepts(s.answers, ip) == ServedFor(t.notes, ip) - ServedFor(s.notes, ip)
  {
    var t, o := OnTake(s, c, limit, window), s.calls[c].bucket;
    SnocParts(s.answers, Last(t.answers));
    ServedChanged(s.notes, o, t.notes[o], ip);
  }

  lemma DeleteServes(s: State, window: int, ip: string)
    requires Enabled(s, Delete)
    ensures ServedFor(OnDelete(s, window).notes, ip) == ServedFor(s.notes, ip)
  {
    var o := s.table[s.doomed.value.ip];
    ServedChanged(s.notes, o, OnDelete(s, window).notes[o], ip);
  }

  lemma StepServes(s: State, step: Step, evict: bool, limit: int, window: int, ip: string)
    requires window > 0 && Inv(s, limit, window) && Accepts(s.answers, ip) == ServedFor(s.notes, ip)
    ensures var t := Do(s, step, evict, limit, window); Accepts(t.answers, ip) == ServedFor(t.notes, ip)
  {
    if Enabled(s, step) {
      match step
      case Load(c) => LoadServes(s, c, limit, ip);
      case Take(c) => TakeServes(s, c, limit, window, ip);
      case Delete => DeleteServes(s, window, ip);
      case _ =>
    }
  }

  lemma {:induction false} AcceptsAreServed(steps: seq<Step>, evict: bool, start: int, limit: int, window: int, ip: string)
    requires window > 0 && limit > 0
    ensures var s := Run(steps, evict, start, limit, window); Accepts(s.answers, ip) == ServedFor(s.notes, ip)
  {
    if steps != [] {
      Reachable(ButLast(steps), evict, start, limit, window);
      AcceptsAreServed(ButLast(steps), evict, start, limit, window, ip);
      StepServes(Run(ButLast(steps), evict, start, limit, window), Last(steps), evict, limit, window, ip);
    }
  }

  // What the time between an address's first and last clock reading earns.
  function SpanEarns(s: State, ip: string, limit: int, window: int): int
    requires window > 0
  {
    if ip in s.spans then Earned(s.spans[ip].first, s.spans[ip].last, limit, window) else 0
  }

  lemma EarnedNonNegative(from: int, to: int, limit: int, window: int)
    requires window > 0 && limit > 0 && from <= to
    ensures Earned(from, to, limit, window) >= 0
  {
    assert (to - from) * limit >= 0;
    FloorBelow((to - from) * limit, 0, window);
  }

  lemma BucketSpends(s: State, o: nat, limit: int, window: int)
    requires window > 0 && limit > 0 && o < |s.heap| == |s.notes| && BucketOk(s, o, limit, window)
    ensures s.notes[o].served <= limit + SpanEarns(s, s.notes[o].ip, limit, window)
    ensures SpanEarns(s, s.notes[o].ip, limit, window) >= 0
  {
    var n, b := s.notes[o], s.heap[o];
    var span := s.spans[n.ip];
    EarnedNonNegative(span.first, n.born, limit, window);
    EarnedNonNegative(span.first, span.last, limit, window);
    EarnedAdds(span.first, n.born, b.last, limit, window);
    EarnedMonotone(span.first, b.last, span.last, limit, window);
  }

  lemma {:induction false} BucketsSpend(s: State, ip: string, n: nat, limit: int, window: int)
    requires window > 0 && limit > 0 && Inv(s, limit, window) && n <= |s.notes|
    ensures var made := FateCount(s.notes[..n], ip, Kept) + Deletions(s.notes[..n], ip);
            ServedFor(s.notes[..n], ip) <= made * (limit + SpanEarns(s, ip, limit, window))
  {
    if n > 0 {
      BucketsSpend(s, ip, n - 1, limit, window);
      assert ButLast(s.notes[..n]) == s.notes[..n - 1];
      if s.notes[n - 1].ip == ip {
        BucketSpends(s, n - 1, limit, window);
        var each := limit + SpanEarns(s, ip, limit, window);
        var made := FateCount(s.notes[..n - 1], ip, Kept) + Deletions(s.notes[..n - 1], ip);
        assert (made + 1) * each == made * each + each;
      }
    }
  }

  lemma {:induction false} OneKept(s: State, ip: string, n: nat)
    requires TableOk(s) && n <= |s.notes|
    ensures FateCount(s.notes[..n], ip, Kept) == if ip in s.table && s.table[ip] < n then 1 else 0
  {
    if n > 0 {
      OneKept(s, ip, n - 1);
      assert ButLast(s.notes[..n]) == s.notes[..n - 1];
    }
  }

  lemma SpanNonNegative(s: State, ip: string, limit: int, window: int)
    requires window > 0 && limit > 0 && Inv(s, limit, window)
    ensures SpanEarns(s, ip, limit, window) >= 0
  {
    if ip in s.spans {
      EarnedNonNegative(s.spans[ip].first, s.spans[ip].last, limit, window);
    }
  }

  lemma Scale(a: int, b: int, x: int)
    requires a <= b && x >= 0
    ensures a * x <= b * x
  {
    assert (b - a) * x >= 0;
  }

  lemma SpentAtMost(s: State, ip: string, limit: int, window: int)
    requires window > 0 && limit > 0 && Inv(s, limit, window)
    ensures ServedFor(s.notes, ip) <= (1 + Deletions(s.notes, ip)) * (limit + SpanEarns(s, ip, limit, window))
  {
    assert s.notes[..|s.notes|] == s.notes;
    BucketsSpend(s, ip, |s.notes|, limit, window);
    OneKept(s, ip, |s.notes|);
    SpanNonNegative(s, ip, limit, window);
    Scale(FateCount(s.notes, ip, Kept) + Deletions(s.notes, ip), 1 + Deletions(s.notes, ip),
          limit + SpanEarns(s, ip, limit, window));
  }

  /** Whatever the interleaving, an address gets at most what one bucket may give over its time, once more for every
      time its bucket was deleted. */
  lemma AnyRunBound(steps: seq<Step>, start: int, limit: int, window: int, ip: string)
    requires window > 0 && limit > 0
    ensures var s := Run(steps, true, start, limit, window);
            Accepts(s.answers, ip) <= (1 + Deletions(s.notes, ip)) * (limit + SpanEarns(s, ip, limit, window))
  {
    Reachable(steps, true, start, limit, window);
    AcceptsAreServed(steps, true, start, limit, window, ip);
    SpentAtMost(Run(steps, true, start, limit, window), ip, limit, window);
  }

  // ---------------------------------------------------------------- when calls find their buckets in clock order

  // A call that has to make a bucket read the clock no earlier than any call that found an earlier one.
  predicate TimelyStep(s: State, step: Step) {
    step.Load? && Enabled(s, step) && s.calls[step.call].ip !in s.table ==>
      forall o | 0 <= o < |s.notes| && s.notes[o].ip == s.calls[step.call].ip :: s.notes[o].top <= s.calls[step.call].now
  }

  predicate Timely(steps: seq<Step>, start: int, limit: int, window: int)
    requires window > 0
  {
    steps == [] || (Timely(ButLast(steps), start, limit, window)
                    && TimelyStep(Run(ButLast(steps), true, start, limit, window), Last(steps)))
  }

  // No bucket of an address was found by a call newer than the next one's maker.
  predicate InTurn(s: State, o: nat, p: nat)
    requires o < p < |s.notes|
  {
    s.notes[o].ip == s.notes[p].ip ==> s.notes[o].top <= s.notes[p].born
  }

  predicate AllInTurn(s: State) {
    forall o: nat, p: nat | o < p < |s.notes| :: InTurn(s, o, p)
  }

  lemma StepKeepsTurns(s: State, step: Step, limit: int, window: int)
    requires window > 0 && Inv(s, limit, window) && AllInTurn(s) && TimelyStep(s, step)
    ensures AllInTurn(Do(s, step, true, limit, window))
  {
    var t := Do(s, step, true, limit, window);
    forall o: nat, p: nat | o < p < |t.notes| ensures InTurn(t, o, p) {
      if p < |s.notes| {
        assert InTurn(s, o, p) && PairOk(s, o, p, window);
      }
    }
  }

  lemma {:induction false} TurnsKept(steps: seq<Step>, start: int, limit: int, window: int)
    requires window > 0 && limit > 0 && Timely(steps, start, limit, window)
    ensures AllInTurn(Run(steps, true, start, limit, window))
  {
    if steps != [] {
      TurnsKept(ButLast(steps), start, limit, window);
      Reachable(ButLast(steps), true, start, limit, window);
      StepKeepsTurns(Run(ButLast(steps), true, start, limit, window), Last(steps), limit, window);
    }
  }

  // The latest bucket of an address below o.
  function Previous(notes: seq<Note>, ip: string, o: nat): (r: Option<nat>)
    requires o <= |notes|
    ensures r.Some? ==> r.value < o && notes[r.value].ip == ip
    ensures forall p | (if r.Some? then r.value else -1) < p < o :: notes[p].ip != ip
  {
    if o == 0 then None else if notes[o - 1].ip == ip then Some(o - 1) else Previous(notes, ip, o - 1)
  }

  lemma {:induction false} SkipOthers(notes: seq<Note>, ip: string, from: nat, to: nat)
    requires from <= to <= |notes| && forall p | from <= p < to :: notes[p].ip != ip
    ensures ServedFor(notes[..to], ip) == ServedFor(notes[..from], ip)
    ensures FateCount(notes[..to], ip, Noisy) == FateCount(notes[..from], ip, Noisy)
  {
    if from < to {
      SkipOthers(notes, ip, from, to - 1);
      assert ButLast(notes[..to]) == notes[..to - 1];
    }
  }

  lemma PrefixSnoc(notes: seq<Note>, ip: string, o: nat)
    requires o < |notes| && notes[o].ip == ip
    ensures ServedFor(notes[..o + 1], ip) == ServedFor(notes[..o], ip) + notes[o].served
    ensures FateCount(notes[..o + 1], ip, Noisy) == FateCount(notes[..o], ip, Noisy) + if notes[o].fate == Noisy then 1 else 0
  {
    assert ButLast(notes[..o + 1]) == notes[..o];
  }

  // From one bucket of an address to its next: a quiet deletion costs nothing, for a window earns a full bucket.
  lemma GapEarns(s: State, o: nat, p: nat, limit: int, window: int)
    requires window > 0 && limit > 0 && Inv(s, limit, window) && AllInTurn(s)
    requires o < p < |s.heap| && s.notes[o].ip == s.notes[p].ip
    ensures Earned(s.heap[o].last, s.notes[p].born, limit, window) >= if s.notes[o].fate == Noisy then 0 else limit
  {
    assert PairOk(s, o, p, window) && InTurn(s, o, p) && BucketOk(s, o, limit, window);
    var gap := s.notes[p].born - s.heap[o].last;
    if s.notes[o].fate == Noisy {
      EarnedNonNegative(s.heap[o].last, s.notes[p].born, limit, window);
    } else {
      assert gap * limit >= window * limit;
      FloorBelow(gap * limit, limit, window);
    }
  }

  // One full bucket, and one more for each costly deletion.
  function Allowance(limit: int, losses: nat): int {
    limit * (1 + losses)
  }

  lemma AllowanceGrows(limit: int, a: nat, b: nat)
    requires limit > 0 && a <= b
    ensures Allowance(limit, a) <= Allowance(limit, b)
    ensures b == a + 1 ==> Allowance(limit, b) == Allowance(limit, a) + limit
  {
    Scale(1 + a, 1 + b, limit);
  }

  // One bucket within the time of its address.
  lemma BucketWithin(s: State, o: nat, first: int, limit: int, window: int)
    requires window > 0 && limit > 0 && o < |s.heap| == |s.notes| && BucketOk(s, o, limit, window)
    requires first <= s.notes[o].born
    ensures s.notes[o].served + s.heap[o].tokens + Earned(first, s.notes[o].born, limit, window)
            <= limit + Earned(first, s.heap[o].last, limit, window)
    ensures Earned(first, s.notes[o].born, limit, window) >= 0
  {
    EarnedNonNegative(first, s.notes[o].born, limit, window);
    EarnedAdds(first, s.notes[o].born, s.heap[o].last, limit, window);
  }

  // What comes from an earlier bucket of an address carries over to its next.
  lemma CarriesOver(s: State, p: nat, o: nat, first: int, losses: nat, limit: int, window: int)
    requires window > 0 && limit > 0 && Inv(s, limit, window) && AllInTurn(s)
    requires p < o < |s.heap| && s.notes[p].ip == s.notes[o].ip
    ensures
      var more := if s.notes[p].fate == Noisy then 1 else 0;
      Allowance(limit, losses) + Earned(first, s.heap[p].last, limit, window) + limit
      <= Allowance(limit, losses + more) + Earned(first, s.notes[o].born, limit, window)
  {
    GapEarns(s, p, o, limit, window);
    EarnedAdds(first, s.heap[p].last, s.notes[o].born, limit, window);
    AllowanceGrows(limit, losses, losses + 1);
  }

  lemma {:induction false} SpentUpTo(s: State, ip: string, o: nat, limit: int, window: int)
    requires window > 0 && limit > 0 && Inv(s, limit, window) && AllInTurn(s)
    requires o < |s.heap| && s.notes[o].ip == ip
    ensures ip in s.spans
            && ServedFor(s.notes[..o + 1], ip) + s.heap[o].tokens
               <= Allowance(limit, FateCount(s.notes[..o], ip, Noisy))
                  + Earned(s.spans[ip].first, s.heap[o].last, limit, window)
  {
    assert BucketOk(s, o, limit, window);
    var before, first := Previous(s.notes, ip, o), s.spans[ip].first;
    PrefixSnoc(s.notes, ip, o);
    BucketWithin(s, o, first, limit, window);
    if before.None? {
      SkipOthers(s.notes, ip, 0, o);
      assert Allowance(limit, 0) == limit;
    } else {
      var p := before.value;
      SpentUpTo(s, ip, p, limit, window);
      assert BucketOk(s, p, limit, window);
      SkipOthers(s.notes, ip, p + 1, o);
      PrefixSnoc(s.notes, ip, p);
      CarriesOver(s, p, o, first, FateCount(s.notes[..p], ip, Noisy), limit, window);
    }
  }

  lemma SpentInTurn(s: State, ip: string, limit: int, window: int)
    requires window > 0 && limit > 0 && Inv(s, limit, window) && AllInTurn(s)
    ensures ServedFor(s.notes, ip) <= Allowance(limit, FateCount(s.notes, ip, Noisy)) + SpanEarns(s, ip, limit, window)
  {
    assert s.notes[..|s.notes|] == s.notes;
    SpanNonNegative(s, ip, limit, window);
    var last := Previous(s.notes, ip, |s.notes|);
    AllowanceGrows(limit, 0, FateCount(s.notes, ip, Noisy));
    if last.None? {
      SkipOthers(s.notes, ip, 0, |s.notes|);
      assert Allowance(limit, 0) == limit;
    } else {
      var o := last.value;
      assert BucketOk(s, o, limit, window);
      SpentUpTo(s, ip, o, limit, window);
      SkipOthers(s.notes, ip, o + 1, |s.notes|);
      PrefixSnoc(s.notes, ip, o);
      EarnedMonotone(s.spans[ip].first, s.heap[o].last, s.spans[ip].last, limit, window);
      AllowanceGrows(limit, FateCount(s.notes[..o], ip, Noisy), FateCount(s.notes, ip, Noisy));
    }
  }

  /** If buckets are made in clock order, an address called from time f to time l gets at most
      limit + floor((l - f) * limit / window) accepts, and at most limit more for each of its deletions that was not quiet. */
  lemma AddressBound(steps: seq<Step>, start: int, limit: int, window: int, ip: string)
    requires window > 0 && limit > 0 && Timely(steps, start, limit, window)
    ensures var s := Run(steps, true, start, limit, window);
            Accepts(s.answers, ip) <= Allowance(limit, FateCount(s.notes, ip, Noisy)) + SpanEarns(s, ip, limit, window)
  {
    Reachable(steps, true, start, limit, window);
    TurnsKept(steps, start, limit, window);
    AcceptsAreServed(steps, true, start, limit, window, ip);
    SpentInTurn(Run(steps, true, start, limit, window), ip, limit, window);
  }

  // ---------------------------------------------------------------- the limiter object

  // What a cleanup has left in the table, with some keys still to be looked at.
  predicate SweptOf(s: State, table: map<string, nat>, todo: set<string>, now: int, window: int)
    requires TableOk(s)
  {
    && (forall ip | ip in table :: ip in s.table && table[ip] == s.table[ip])
    && (forall ip | ip in s.table :: ip in table <==> ip in todo || !Stale(s.heap[s.table[ip]], now, window))
  }

  lemma SweptAll(s: State, t: State, now: int, window: int)
    requires TableOk(s) && TableOk(t) && t.heap == s.heap && SweptOf(s, t.table, {}, now, window)
    ensures Content(t) == Swept(Content(s), now, window)
  {
  }

  class Limiter {
    const limit: int
    const window: int
    var heap: seq<Bucket>
    var table: map<string, nat>
    ghost var clock: int
    ghost var notes: seq<Note>
    ghost var calls: map<nat, Call>
    ghost var doomed: Option<Doom>
    ghost var answers: seq<Answer>
    ghost var spans: map<string, Span>

    ghost function Abs(): State
      reads this
    {
      State(clock, heap, notes, table, calls, doomed, answers, spans)
    }

    constructor (limit: int, window: int, ghost start: int)
      ensures this.limit == limit && this.window == window && Abs() == Initial(start)
    {
      this.limit, this.window := limit, window;
      clock, heap, notes, table, calls, doomed, answers, spans := start, [], [], map[], map[], None, [], map[];
    }

    // The bucket under the address's key, stored there if there was none.
    method LoadOrStore(ghost c: nat, ip: string, now: int) returns (o: nat)
      requires window > 0 && TableOk(Abs()) && c in calls && calls[c] == Clocked(ip, now)
      modifies this
      ensures Abs() == Do(old(Abs()), Load(c), true, limit, window)
      ensures c in calls && calls[c] == Loaded(ip, now, o)
    {
      ghost var after := OnLoad(Abs(), c, limit);
      if ip in table {
        o := table[ip];
      } else {
        o := |heap|;
        heap := heap + [Bucket(limit, now)];
        table := table[ip := o];
      }
      notes, calls := after.notes, after.calls;
    }

    // What a call does with its bucket under the lock.
    method TakeLocked(ghost c: nat, o: nat, now: int) returns (ok: bool)
      requires window > 0 && o < |heap| == |notes|
      requires c in calls && calls[c] == Loaded(calls[c].ip, now, o)
      modifies this
      ensures Abs() == Do(old(Abs()), Take(c), true, limit, window)
      ensures answers == old(answers) + [Answer(old(calls)[c].ip, now, ok)]
      ensures
        var b, earned := old(heap[o]), (now - old(heap[o]).last) * limit / window;
        var tokens := if b.tokens + earned < limit then b.tokens + earned else limit;
        limit > 0 && InRange(b, limit) && b.last <= now ==>
          && ok == (b.tokens + earned > 0)
          && heap == old(heap)[o := Bucket(if ok then tokens - 1 else 0, if earned > 0 then now else b.last)]
    {
      ghost var after := OnTake(Abs(), c, limit, window);
      if limit > 0 && InRange(heap[o], limit) && heap[o].last <= now {
        ServedExactly(heap[o], now, limit, window);
      }
      var b := heap[o];
      var elapsed := now - b.last;
      var refill := TruncDiv(elapsed * limit, window);
      if refill > 0 {
        b := b.(tokens := b.tokens + refill);
        if b.tokens > limit {
          b := b.(tokens := limit);
        }
        b := b.(last := now);
      }
      ok := b.tokens > 0;
      if ok {
        b := b.(tokens := b.tokens - 1);
      }
      heap := heap[o := b];
      notes, calls, answers := after.notes, after.calls, after.answers;
    }

    /** `allow`, undisturbed: serves the address's bucket, or a full one, and touches no other. */
    method Allow(ghost c: nat, ip: string, now: int) returns (ok: bool)
      requires window > 0 && TableOk(Abs()) && c !in calls && clock == now
      modifies this
      ensures ok == Serves(Find(Content(old(Abs())), ip, now, limit), now, limit, window)
      ensures Answered(old(Abs()), Abs(), ip, now, limit, window) && calls == old(calls)
    {
      ghost var before := Abs();
      WholeCallServes(before, c, ip, true, limit, window);
      ghost var read := Do(before, Clock(c, ip), true, limit, window);
      calls, spans := read.calls, read.spans;
      assert Abs() == read;
      var o := LoadOrStore(c, ip, now);
      ok := TakeLocked(c, o, now);
      assert Abs() == WholeCall(before, c, ip, true, limit, window);
      SnocParts(before.answers, Answer(ip, now, ok));
      assert Last(answers).ok == ok;
    }

    // One key of a cleanup: the test, then the deletion.
    method SweepKey(ip: string, cutoff: int)
      requires window > 0 && TableOk(Abs()) && doomed.None? && ip in table && cutoff + 2 * window <= clock
      modifies this
      ensures var s := Do(old(Abs()), Test(ip, cutoff + 2 * window), true, limit, window);
              Abs() == if s.doomed.Some? then Do(s, Delete, true, limit, window) else s
      ensures TableOk(Abs()) && heap == old(heap) && clock == old(clock) && calls == old(calls) && answers == old(answers)
      ensures table == if old(heap)[old(table)[ip]].last < cutoff then old(table) - {ip} else old(table)
      ensures doomed.None?
    {
      var b := heap[table[ip]];
      if b.last < cutoff {
        ghost var after := OnDelete(Abs().(doomed := Some(Doom(ip, cutoff + 2 * window))), window);
        table := table - {ip};
        notes := after.notes;
      }
    }

    /** One pass of the background cleanup, undisturbed: exactly the stale entries go. */
    method Cleanup(now: int)
      requires window > 0 && TableOk(Abs()) && doomed.None? && now <= clock
      modifies this
      ensures TableOk(Abs()) && doomed.None? && calls == old(calls) && answers == old(answers)
      ensures Content(Abs()) == Swept(Content(old(Abs())), now, window)
      ensures table.Keys <= old(table).Keys
      ensures forall ip | ip in old(table) :: ip in table <==> old(heap)[old(table)[ip]].last >= now - 2 * window
    {
      var cutoff := now - 2 * window;
      var todo := table.Keys;
      while todo != {}
        invariant TableOk(Abs()) && doomed.None? && clock == old(clock) && calls == old(calls) && answers == old(answers)
        invariant todo <= table.Keys && heap == old(heap) && SweptOf(old(Abs()), table, todo, now, window)
      {
        assert exists ip :: ip in todo by { var ip := Member(todo); }
        var ip :| ip in todo;
        todo := todo - {ip};
        SweepKey(ip, cutoff);
      }
      SweptAll(old(Abs()), Abs(), now, window);
    }
  }
}
