/** Runs in which eviction is noticed, one for each way to disturb it. */
module LimiterRaces {
  import opened Common
  import opened TokenBucket
  import opened RateLimiter

  // ---------------------------------------------------------------- where eviction is noticed

  // A run with eviction and the same run without.
  datatype Pair = Pair(steps: seq<Step>, evicting: State, keeping: State)

  // One token, ten units of time, starting at zero.
  predicate IsRun(p: Pair) {
    p.evicting == Run(p.steps, true, 0, 1, 10) && p.keeping == Run(p.steps, false, 0, 1, 10)
  }

  lemma Then(p: Pair, step: Step) returns (q: Pair)
    requires IsRun(p)
    ensures IsRun(q) && q.steps == p.steps + [step]
    ensures q.evicting == Do(p.evicting, step, true, 1, 10) && q.keeping == Do(p.keeping, step, false, 1, 10)
  {
    SnocParts(p.steps, step);
    q := Pair(p.steps + [step], Do(p.evicting, step, true, 1, 10), Do(p.keeping, step, false, 1, 10));
  }

  predicate TablesOk(p: Pair) {
    TableOk(p.evicting) && TableOk(p.keeping)
  }

  // The two runs go from p to q by answering one call, made at this time.
  predicate BothAnswered(p: Pair, q: Pair, now: int) {
    Answered(p.evicting, q.evicting, "a", now, 1, 10) && Answered(p.keeping, q.keeping, "a", now, 1, 10)
  }

  // One call from clock to answer, nothing in between.
  lemma ThenCall(p: Pair, c: nat) returns (q: Pair)
    requires IsRun(p) && TablesOk(p) && c !in p.evicting.calls && c !in p.keeping.calls
    requires p.evicting.clock == p.keeping.clock
    ensures IsRun(q) && BothAnswered(p, q, p.evicting.clock)
    ensures q.evicting.calls == p.evicting.calls && q.keeping.calls == p.keeping.calls
    ensures q.evicting.spans == Widen(p.evicting.spans, "a", p.evicting.clock)
  {
    q := Then(p, Clock(c, "a"));
    q := Then(q, Load(c));
    q := Then(q, Take(c));
    WholeCallServes(p.evicting, c, "a", true, 1, 10);
    WholeCallServes(p.keeping, c, "a", false, 1, 10);
  }

  // An empty bucket, more than two windows old.
  const STALE := State(21, [Bucket(0, 0)], [Note("a", 0, 0, false, true, 0, 1, Kept)], map["a" := 0], map[], None,
                       [Answer("a", 0, true)], map["a" := Span(0, 0)])

  lemma Opening() returns (p: Pair)
    ensures IsRun(p) && p.evicting == STALE && p.keeping == STALE
  {
    p := Pair([], Initial(0), Initial(0));
    p := Then(p, Clock(0, "a"));
    p := Then(p, Load(0));
    p := Then(p, Take(0));
    p := Then(p, Tick(21));
  }

  // The evicting run serves a call that the keeping run turns away.
  predicate GivesAway(p: Pair) {
    && p.evicting.answers != [] && p.keeping.answers != [] && ButLast(p.evicting.answers) == ButLast(p.keeping.answers)
    && Last(p.evicting.answers).ok && !Last(p.keeping.answers).ok
  }

  lemma LastCallDiffers(p: Pair, c: nat) returns (q: Pair)
    requires IsRun(p) && TablesOk(p) && c !in p.evicting.calls && c !in p.keeping.calls
    requires p.evicting.answers == p.keeping.answers && p.evicting.clock == p.keeping.clock
    requires Serves(Find(Content(p.evicting), "a", p.evicting.clock, 1), p.evicting.clock, 1, 10)
    requires !Serves(Find(Content(p.keeping), "a", p.keeping.clock, 1), p.keeping.clock, 1, 10)
    ensures IsRun(q) && GivesAway(q) && SameFates(p.evicting, q.evicting)
  {
    q := ThenCall(p, c);
    SnocParts(p.evicting.answers, Last(q.evicting.answers));
    SnocParts(p.keeping.answers, Last(q.keeping.answers));
  }

  // A call that has found the stale bucket.
  lemma StaleLoaded() returns (p: Pair)
    ensures IsRun(p) && p.evicting == p.keeping && p.evicting.clock == 21 && p.evicting.doomed == None
    ensures p.evicting.heap == [Bucket(0, 0)] && |p.evicting.notes| == 1
    ensures TableOk(p.evicting) && p.evicting.table == map["a" := 0] && p.evicting.calls == map[1 := Loaded("a", 21, 0)]
  {
    p := Opening();
    p := Then(p, Clock(1, "a"));
    p := Then(p, Load(1));
  }

  lemma DeletedWhileLoaded() returns (p: Pair)
    ensures IsRun(p) && p.evicting.clock == p.keeping.clock == 21 && p.evicting.answers == p.keeping.answers
    ensures p.evicting.heap == p.keeping.heap == [Bucket(0, 0)] && |p.evicting.notes| == |p.keeping.notes| == 1
    ensures TablesOk(p) && p.evicting.table == map[] && p.keeping.table == map["a" := 0]
    ensures p.evicting.calls == p.keeping.calls == map[1 := Loaded("a", 21, 0)]
  {
    p := StaleLoaded();
    p := Then(p, Test("a", 21));
    p := Then(p, Delete);
  }

  /** A deletion between a call's load and its take is noticed: the call is served from the lost bucket, the next one
      from a full one. */
  lemma DeletedUnderCall() returns (p: Pair)
    ensures IsRun(p) && GivesAway(p)
  {
    p := DeletedWhileLoaded();
    p := Then(p, Take(1));
    assert p.keeping.heap == p.evicting.heap == [Bucket(0, 21)];
    p := LastCallDiffers(p, 2);
  }

  lemma DeleteContent(s: State, window: int)
    requires TableOk(s) && Enabled(s, Delete)
    ensures TableOk(OnDelete(s, window)) && Content(OnDelete(s, window)) == Content(s) - {s.doomed.value.ip}
  {
  }

  /** So is a deletion after a whole call that came between test and deletion. */
  lemma DeletedAfterCall() returns (p: Pair)
    ensures IsRun(p) && GivesAway(p)
  {
    p := Opening();
    p := Then(p, Test("a", 21));
    assert p.evicting == STALE.(doomed := Some(Doom("a", 21)));
    p := ThenCall(p, 1);
    assert Content(p.keeping) == map["a" := Bucket(0, 21)];
    DeleteContent(p.evicting, 10);
    p := Then(p, Delete);
    p := LastCallDiffers(p, 2);
  }

  // A quiet deletion.
  lemma QuietlyDeleted() returns (p: Pair)
    ensures IsRun(p) && p.keeping == STALE
    ensures p.evicting == STALE.(table := map[], notes := [STALE.notes[0].(fate := Quiet)])
  {
    p := Opening();
    p := Then(p, Test("a", 21));
    assert p.evicting == STALE.(doomed := Some(Doom("a", 21)));
    p := Then(p, Delete);
    assert p.evicting.table == map[];
  }

  // Two calls after it, of which the first has made a new bucket.
  lemma MakerWaits() returns (p: Pair)
    ensures IsRun(p) && p.evicting.clock == p.keeping.clock == 22 && p.evicting.answers == p.keeping.answers
    ensures TableOk(p.evicting) && p.evicting.heap == [Bucket(0, 0), Bucket(1, 21)] && p.evicting.table == map["a" := 1]
    ensures TableOk(p.keeping) && p.keeping.heap == [Bucket(0, 0)] && p.keeping.table == map["a" := 0]
    ensures p.evicting.calls == map[1 := Loaded("a", 21, 1), 2 := Clocked("a", 22)]
    ensures p.keeping.calls == map[1 := Loaded("a", 21, 0), 2 := Clocked("a", 22)]
    ensures p.evicting.notes != [] && p.evicting.notes[0].fate == Quiet
  {
    p := QuietlyDeleted();
    p := Then(p, Clock(1, "a"));
    p := Then(p, Tick(22));
    p := Then(p, Clock(2, "a"));
    p := Then(p, Load(1));
  }

  lemma TakeKept(s: State, c: nat)
    requires TableOk(s) && Enabled(s, Take(c))
    ensures TableOk(OnTake(s, c, 1, 10)) && SameFates(s, OnTake(s, c, 1, 10))
  {
  }

  lemma LoadKept(s: State, c: nat)
    requires TableOk(s) && Enabled(s, Load(c))
    ensures TableOk(OnLoad(s, c, 1)) && SameFates(s, OnLoad(s, c, 1))
  {
    if s.calls[c].ip in s.table { FindContent(s, c, 1); } else { StoreContent(s, c, 1); }
  }

  lemma TableKept(s: State, step: Step, evict: bool)
    requires TableOk(s) && step != Delete
    ensures TableOk(Do(s, step, evict, 1, 10)) && SameFates(s, Do(s, step, evict, 1, 10))
  {
    if Enabled(s, step) {
      match step
      case Take(c) => TakeKept(s, c);
      case Load(c) => LoadKept(s, c);
      case _ =>
    }
  }

  lemma ThenKept(p: Pair, step: Step) returns (q: Pair)
    requires IsRun(p) && TablesOk(p) && step != Delete
    ensures IsRun(q) && TablesOk(q) && SameFates(p.evicting, q.evicting)
    ensures q.evicting == Do(p.evicting, step, true, 1, 10) && q.keeping == Do(p.keeping, step, false, 1, 10)
  {
    q := Then(p, step);
    TableKept(p.evicting, step, true);
    TableKept(p.keeping, step, false);
  }

  // The other call finds the new bucket ...
  lemma MakerJoined() returns (p: Pair)
    ensures IsRun(p) && TablesOk(p) && p.evicting.clock == p.keeping.clock == 22 && p.evicting.answers == p.keeping.answers
    ensures p.evicting.heap == [Bucket(0, 0), Bucket(1, 21)] && p.evicting.table == map["a" := 1]
    ensures p.keeping.heap == [Bucket(0, 0)] && p.keeping.table == map["a" := 0]
    ensures p.evicting.calls == map[1 := Loaded("a", 21, 1), 2 := Loaded("a", 22, 1)]
    ensures p.keeping.calls == map[1 := Loaded("a", 21, 0), 2 := Loaded("a", 22, 0)]
    ensures p.evicting.notes != [] && p.evicting.notes[0].fate == Quiet
  {
    p := MakerWaits();
    p := ThenKept(p, Load(2));
  }

  // ... and takes from it first.
  lemma MakerPassed() returns (p: Pair)
    ensures IsRun(p) && TablesOk(p) && p.evicting.clock == p.keeping.clock == 22 && p.evicting.answers == p.keeping.answers
    ensures p.evicting.heap == [Bucket(0, 0), Bucket(0, 21)] && p.evicting.table == map["a" := 1]
    ensures p.keeping.heap == [Bucket(0, 22)] && p.keeping.table == map["a" := 0]
    ensures p.evicting.calls == map[1 := Loaded("a", 21, 1)] && p.keeping.calls == map[1 := Loaded("a", 21, 0)]
    ensures p.evicting.notes != [] && p.evicting.notes[0].fate == Quiet
  {
    p := MakerJoined();
    p := ThenKept(p, Take(2));
  }

  lemma MakerTakes() returns (p: Pair)
    ensures IsRun(p) && TablesOk(p) && p.evicting.clock == p.keeping.clock == 31 && p.evicting.answers == p.keeping.answers
    ensures p.evicting.heap == [Bucket(0, 0), Bucket(0, 21)] && p.evicting.table == map["a" := 1]
    ensures p.keeping.heap == [Bucket(0, 22)] && p.keeping.table == map["a" := 0]
    ensures p.evicting.calls == p.keeping.calls == map[]
    ensures p.evicting.notes != [] && p.evicting.notes[0].fate == Quiet
  {
    p := MakerPassed();
    p := ThenKept(p, Take(1));
    p := ThenKept(p, Tick(31));
  }

  /** And a quiet deletion, if another call takes from the new bucket before its maker. */
  lemma MakerOvertaken() returns (p: Pair)
    ensures IsRun(p) && GivesAway(p) && p.evicting.notes != [] && p.evicting.notes[0].fate == Quiet
  {
    p := MakerTakes();
    p := LastCallDiffers(p, 3);
  }

  // ---------------------------------------------------------------- when buckets are made out of clock order

  lemma AcceptSnoc(answers: seq<Answer>, a: Answer)
    ensures Accepts(answers + [a], "a") == Accepts(answers, "a") + if a.ip == "a" && a.ok then 1 else 0
  {
    SnocParts(answers, a);
  }

  // The latest credit after i calls ten units apart, from time 21 on.
  function Credit(i: nat): int {
    if i == 0 then 0 else 11 + 10 * i
  }

  lemma CreditServes(i: nat)
    ensures Serves(Bucket(0, Credit(i)), 21 + 10 * i, 1, 10)
    ensures Served(Bucket(0, Credit(i)), 21 + 10 * i, 1, 10) == Bucket(0, Credit(i + 1))
  {
  }

  // While the stale bucket waits for its deletion, `served` calls ten units apart have used it, and `stalled` other calls
  // have read the clock just before one of them.
  predicate Stalled(s: State, stalled: nat, served: nat, now: int) {
    && TableOk(s) && s.clock == now && s.doomed == Some(Doom("a", 21)) && s.table == map["a" := 0]
    && |s.notes| == 1 && Content(s) == map["a" := Bucket(0, Credit(served))]
    && (forall c | c in s.calls :: c < stalled) && (forall j | 0 <= j < stalled :: j in s.calls && s.calls[j] == Clocked("a", 21 + 10 * j))
    && Accepts(s.answers, "a") == 1 + served
    && s.spans == map["a" := Span(0, Credit(if stalled > served then stalled else served))]
  }

  lemma StallClock(s: State, i: nat)
    requires Stalled(s, i, i, 21 + 10 * i)
    ensures Stalled(Do(s, Clock(i, "a"), true, 1, 10), i + 1, i, 21 + 10 * i)
  {
    assert Content(Do(s, Clock(i, "a"), true, 1, 10)) == Content(s);
  }

  lemma StallCall(s: State, c: nat, i: nat)
    requires Stalled(s, i + 1, i, 21 + 10 * i) && c !in s.calls
    ensures Stalled(WholeCall(s, c, "a", true, 1, 10), i + 1, i + 1, 21 + 10 * i)
  {
    WholeCallServes(s, c, "a", true, 1, 10);
    CreditServes(i);
    AcceptSnoc(s.answers, Answer("a", 21 + 10 * i, true));
  }

  lemma StallTick(s: State, i: nat)
    requires Stalled(s, i, i, 11 + 10 * i)
    ensures Stalled(Do(s, Tick(21 + 10 * i), true, 1, 10), i, i, 21 + 10 * i)
  {
    assert Content(Do(s, Tick(21 + 10 * i), true, 1, 10)) == Content(s);
  }

  // i calls have stalled, and i have been served.
  predicate StalledRun(p: Pair, i: nat) {
    IsRun(p) && Stalled(p.evicting, i, i, 21 + 10 * i)
  }

  lemma ThenStalledCall(p: Pair, c: nat, i: nat) returns (q: Pair)
    requires IsRun(p) && Stalled(p.evicting, i + 1, i, 21 + 10 * i) && i < c
    ensures IsRun(q) && Stalled(q.evicting, i + 1, i + 1, 21 + 10 * i)
  {
    StallCall(p.evicting, c, i);
    q := Then(p, Clock(c, "a"));
    q := Then(q, Load(c));
    q := Then(q, Take(c));
  }

  lemma StallMore(p: Pair, c: nat, i: nat) returns (q: Pair)
    requires StalledRun(p, i) && i < c
    ensures StalledRun(q, i + 1)
  {
    StallClock(p.evicting, i);
    q := Then(p, Clock(i, "a"));
    q := ThenStalledCall(q, c, i);
    StallTick(q.evicting, i + 1);
    q := Then(q, Tick(21 + 10 * (i + 1)));
  }

  // After the deletion the stalled calls go on, one by one, at their old clock readings.
  predicate Resumed(s: State, n: nat, i: nat) {
    && TableOk(s) && |s.notes| == (if i == 0 then 1 else 2) && s.notes[0].ip == "a" && s.notes[0].fate == Noisy
    && Content(s) == (if i == 0 then map[] else map["a" := Bucket(0, Credit(i))])
    && (forall j | i <= j < n :: j in s.calls && s.calls[j] == Clocked("a", 21 + 10 * j))
    && Accepts(s.answers, "a") == 1 + n + i && s.spans == map["a" := Span(0, Credit(n))]
  }

  lemma ResumeStep(s: State, n: nat, i: nat)
    requires Resumed(s, n, i) && i < n
    ensures Enabled(s, Load(i)) && Enabled(OnLoad(s, i, 1), Take(i))
    ensures Resumed(OnTake(OnLoad(s, i, 1), i, 1, 10), n, i + 1)
  {
    var now := 21 + 10 * i;
    LoadAndTake(s, i, "a", now, 1, 10);
    CreditServes(i);
    assert "a" in s.table <==> "a" in Content(s);
    AcceptSnoc(s.answers, Answer("a", now, true));
  }

  lemma ResumeOne(p: Pair, n: nat, i: nat) returns (q: Pair)
    requires IsRun(p) && Resumed(p.evicting, n, i) && i < n
    ensures IsRun(q) && Resumed(q.evicting, n, i + 1)
  {
    ResumeStep(p.evicting, n, i);
    q := Then(p, Load(i));
    q := Then(q, Take(i));
  }

  lemma OneBucket(s: State, b: Bucket)
    requires s.heap == [b] && |s.notes| == 1 && s.notes[0].ip == "a" && s.notes[0].fate == Kept && s.table == map["a" := 0]
    ensures TableOk(s) && Content(s) == map["a" := b]
  {
  }

  lemma OneAccept(a: Answer)
    requires a.ip == "a" && a.ok
    ensures Accepts([a], "a") == 1
  {
    assert [a] == [] + [a];
    AcceptSnoc([], a);
  }

  lemma StaleIsStalled(s: State)
    requires s == STALE.(doomed := Some(Doom("a", 21)))
    ensures Stalled(s, 0, 0, 21) && s.notes[0].ip == "a"
  {
    OneBucket(s, Bucket(0, 0));
    OneAccept(Answer("a", 0, true));
  }

  lemma StallStart() returns (p: Pair)
    ensures StalledRun(p, 0)
  {
    p := Opening();
    p := Then(p, Test("a", 21));
    StaleIsStalled(p.evicting);
  }

  lemma StallEnds(p: Pair, n: nat) returns (q: Pair)
    requires StalledRun(p, n) && n > 0
    ensures IsRun(q) && Resumed(q.evicting, n, 0)
  {
    DeleteContent(p.evicting, 10);
    assert 0 in p.evicting.calls && p.evicting.calls[0].ip == "a";
    q := Then(p, Delete);
  }

  lemma FateOne(n: Note, fate: Fate)
    ensures FateCount([n], "a", fate) == if n.ip == "a" && n.fate == fate then 1 else 0
  {
    SnocParts([], n);
    assert [] + [n] == [n];
  }

  lemma ResumedFates(s: State, n: nat)
    requires Resumed(s, n, n) && n > 0
    ensures FateCount(s.notes, "a", Noisy) == 1 && FateCount(s.notes, "a", Quiet) == 0
  {
    assert "a" in Content(s) && s.table["a"] == 1;
    assert s.notes == [s.notes[0]] + [s.notes[1]];
    SnocParts([s.notes[0]], s.notes[1]);
    FateOne(s.notes[0], Noisy);
    FateOne(s.notes[0], Quiet);
  }

  lemma ResumedCounts(s: State, n: nat)
    requires Resumed(s, n, n) && n >= 2
    ensures Deletions(s.notes, "a") == 1
    ensures Accepts(s.answers, "a") == Allowance(1, FateCount(s.notes, "a", Noisy)) + SpanEarns(s, "a", 1, 10) + (n - 2)
  {
    ResumedFates(s, n);
    assert SpanEarns(s, "a", 1, 10) == n + 1;
  }

  lemma Stalling(m: nat) returns (p: Pair)
    ensures StalledRun(p, m)
  {
    p := StallStart();
    for i := 0 to m
      invariant StalledRun(p, i)
    {
      p := StallMore(p, m + i, i);
    }
  }

  lemma Resuming(p: Pair, m: nat) returns (q: Pair)
    requires IsRun(p) && Resumed(p.evicting, m, 0)
    ensures IsRun(q) && Resumed(q.evicting, m, m)
  {
    q := p;
    for i := 0 to m
      invariant IsRun(q) && Resumed(q.evicting, m, i)
    {
      q := ResumeOne(q, m, i);
    }
  }

  /** Buckets made out of clock order cost more than any allowance: for every n there is a run with a single deletion in
      which an address gets n accepts more than its start, its deletion and its time account for. */
  lemma OutOfTurn(n: nat) returns (p: Pair)
    ensures IsRun(p)
    ensures
      var s := p.evicting;
      && Deletions(s.notes, "a") == 1
      && Accepts(s.answers, "a") == Allowance(1, FateCount(s.notes, "a", Noisy)) + SpanEarns(s, "a", 1, 10) + n
  {
    p := Stalling(n + 2);
    p := StallEnds(p, n + 2);
    p := Resuming(p, n + 2);
    ResumedCounts(p.evicting, n + 2);
  }
}
