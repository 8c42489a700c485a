/** Eviction against no eviction: the same steps, with the cleanup and without. */
module LimiterEviction {
  import opened Common
  import opened TokenBucket
  import opened RateLimiter

  // ---------------------------------------------------------------- when eviction cannot be noticed

  // Deletions are quiet, and the call that makes a bucket anew is the first to take from it.
  predicate GentleStep(s: State, step: Step, window: int) {
    Enabled(s, step) ==>
      match step
      case Delete => QuietNow(s, window)
      case Take(c) =>
        var n := s.notes[s.calls[c].bucket];
        n.remade && !n.taken ==> n.maker == c
      case _ => true
  }

  predicate Gentle(steps: seq<Step>, start: int, limit: int, window: int)
    requires window > 0
  {
    steps == [] || (Gentle(ButLast(steps), start, limit, window)
                    && GentleStep(Run(ButLast(steps), true, start, limit, window), Last(steps), window))
  }

  // The same calls are under way, equally far, and the same answers have been given.
  predicate Alike(s: State, t: State) {
    && s.clock == t.clock && s.answers == t.answers && s.calls.Keys == t.calls.Keys
    && forall c | c in s.calls ::
         s.calls[c].ip == t.calls[c].ip && s.calls[c].now == t.calls[c].now && (s.calls[c].Loaded? <==> t.calls[c].Loaded?)
  }

  // No call holds a bucket that cannot be found any more.
  predicate NoOrphans(s: State) {
    forall c | c in s.calls && s.calls[c].Loaded? :: s.calls[c].ip in s.table && s.table[s.calls[c].ip] == s.calls[c].bucket
  }

  // Every call of the address, under way or to come, finds this bucket idle for a window.
  predicate Aged(s: State, b: Bucket, ip: string, window: int) {
    b.last + window <= s.clock && forall c | c in s.calls && s.calls[c].ip == ip :: b.last + window <= s.calls[c].now
  }

  // A bucket made anew whose maker has still to take from it.
  predicate Reborn(s: State, ip: string, limit: int)
    requires Found(s, ip)
  {
    var o := s.table[ip];
    var n := s.notes[o];
    && n.remade && !n.taken && s.heap[o] == Fresh(n.born, limit)
    && n.maker in s.calls && s.calls[n.maker] == Loaded(ip, n.born, o)
  }

  // The evicting run holds the same bucket as the keeping one; or none, or a new one, where the kept one is old enough.
  predicate Paired(s: State, t: State, ip: string, limit: int, window: int) {
    && Found(t, ip) && Known(s.notes, ip)
    && var k := t.heap[t.table[ip]];
       if ip !in s.table then Aged(s, k, ip, window)
       else Found(s, ip) && (s.heap[s.table[ip]] == k || (Reborn(s, ip, limit) && Aged(s, k, ip, window)))
  }

  // Both runs look alike, and the keeping table has every address the evicting run ever had a bucket for.
  ghost predicate Aligned(s: State, t: State) {
    && Alike(s, t) && NoOrphans(s) && NoOrphans(t) && s.table.Keys <= t.table.Keys
    && (forall ip :: Known(s.notes, ip) ==> ip in t.table)
  }

  predicate AllPaired(s: State, t: State, limit: int, window: int) {
    forall ip | ip in t.table :: Paired(s, t, ip, limit, window)
  }

  ghost predicate Related(s: State, t: State, limit: int, window: int) {
    Aligned(s, t) && AllPaired(s, t, limit, window)
  }

  lemma KnownSnoc(notes: seq<Note>, n: Note, ip: string)
    ensures Known(notes + [n], ip) <==> Known(notes, ip) || n.ip == ip
  {
    assert (notes + [n])[|notes|] == n;
    if o :| 0 <= o < |notes| && notes[o].ip == ip {
      assert (notes + [n])[o].ip == ip;
    }
  }

  lemma KnownChanged(notes: seq<Note>, o: nat, n: Note, ip: string)
    requires o < |notes| && n.ip == notes[o].ip
    ensures Known(notes[o := n], ip) <==> Known(notes, ip)
  {
    var changed := notes[o := n];
    assert forall p | 0 <= p < |notes| :: changed[p].ip == notes[p].ip;
    if p :| 0 <= p < |notes| && notes[p].ip == ip {
      assert changed[p].ip == ip;
    }
  }

  lemma DeleteAligned(s: State, t: State, window: int)
    requires TableOk(s) && Aligned(s, t) && Enabled(s, Delete) && QuietNow(s, window)
    ensures Aligned(OnDelete(s, window), t)
    ensures forall ip :: Known(OnDelete(s, window).notes, ip) <==> Known(s.notes, ip)
  {
    var o := s.table[s.doomed.value.ip];
    forall ip ensures Known(OnDelete(s, window).notes, ip) <==> Known(s.notes, ip) {
      KnownChanged(s.notes, o, OnDelete(s, window).notes[o], ip);
    }
  }

  lemma DeletePaired(s: State, t: State, ip: string, limit: int, window: int)
    requires window > 0 && Inv(s, limit, window) && Aligned(s, t) && ip in t.table && Paired(s, t, ip, limit, window)
    requires Enabled(s, Delete) && QuietNow(s, window)
    ensures Paired(OnDelete(s, window), t, ip, limit, window)
  {
    var o := s.table[s.doomed.value.ip];
    KnownChanged(s.notes, o, OnDelete(s, window).notes[o], ip);
  }

  lemma DeleteRelated(s: State, t: State, limit: int, window: int)
    requires window > 0 && Inv(s, limit, window) && Related(s, t, limit, window)
    requires Enabled(s, Delete) && QuietNow(s, window)
    ensures Related(OnDelete(s, window), t, limit, window)
  {
    DeleteAligned(s, t, window);
    forall ip | ip in t.table ensures Paired(OnDelete(s, window), t, ip, limit, window) {
      DeletePaired(s, t, ip, limit, window);
    }
  }

  lemma FindAligned(s: State, t: State, c: nat, limit: int)
    requires TableOk(s) && TableOk(t) && Aligned(s, t)
    requires Enabled(s, Load(c)) && Enabled(t, Load(c)) && s.calls[c].ip in s.table
    ensures Aligned(OnLoad(s, c, limit), OnLoad(t, c, limit))
    ensures forall ip :: Known(OnLoad(s, c, limit).notes, ip) <==> Known(s.notes, ip)
  {
    var o := s.table[s.calls[c].ip];
    forall ip ensures Known(OnLoad(s, c, limit).notes, ip) <==> Known(s.notes, ip) {
      KnownChanged(s.notes, o, OnLoad(s, c, limit).notes[o], ip);
    }
  }

  lemma FindPaired(s: State, t: State, c: nat, ip: string, limit: int, window: int)
    requires TableOk(s) && TableOk(t) && Alike(s, t) && ip in t.table && Paired(s, t, ip, limit, window)
    requires Enabled(s, Load(c)) && Enabled(t, Load(c)) && s.calls[c].ip in s.table && s.calls[c].ip in t.table
    ensures Paired(OnLoad(s, c, limit), OnLoad(t, c, limit), ip, limit, window)
  {
    var o := s.table[s.calls[c].ip];
    KnownChanged(s.notes, o, OnLoad(s, c, limit).notes[o], ip);
  }

  lemma FindRelated(s: State, t: State, c: nat, limit: int, window: int)
    requires window > 0 && TableOk(s) && TableOk(t) && Related(s, t, limit, window)
    requires Enabled(s, Load(c)) && Enabled(t, Load(c)) && s.calls[c].ip in s.table
    ensures Related(OnLoad(s, c, limit), OnLoad(t, c, limit), limit, window)
  {
    FindAligned(s, t, c, limit);
    forall ip | ip in t.table ensures Paired(OnLoad(s, c, limit), OnLoad(t, c, limit), ip, limit, window) {
      FindPaired(s, t, c, ip, limit, window);
    }
  }

  lemma StorePaired(s: State, t: State, c: nat, ip: string, limit: int, window: int)
    requires TableOk(s) && TableOk(t) && Enabled(s, Load(c)) && Enabled(t, Load(c)) && Alike(s, t)
    requires s.calls[c].ip !in s.table && (ip in t.table ==> Paired(s, t, ip, limit, window))
    requires ip in t.table || ip == s.calls[c].ip
    ensures Paired(OnLoad(s, c, limit), OnLoad(t, c, limit), ip, limit, window)
  {
    var u, v, k := OnLoad(s, c, limit), OnLoad(t, c, limit), s.calls[c];
    KnownSnoc(s.notes, NewNote(s, c), ip);
    if ip == k.ip {
      assert u.heap[u.table[ip]] == Fresh(k.now, limit) && u.notes[u.table[ip]] == NewNote(s, c);
    }
  }

  lemma StoreAligned(s: State, t: State, c: nat, limit: int)
    requires TableOk(s) && TableOk(t) && Aligned(s, t)
    requires Enabled(s, Load(c)) && Enabled(t, Load(c)) && s.calls[c].ip !in s.table
    ensures Aligned(OnLoad(s, c, limit), OnLoad(t, c, limit))
  {
    forall ip ensures Known(OnLoad(s, c, limit).notes, ip) <==> Known(s.notes, ip) || ip == s.calls[c].ip {
      KnownSnoc(s.notes, NewNote(s, c), ip);
    }
  }

  lemma StoreRelated(s: State, t: State, c: nat, limit: int, window: int)
    requires window > 0 && TableOk(s) && TableOk(t) && Related(s, t, limit, window)
    requires Enabled(s, Load(c)) && Enabled(t, Load(c)) && s.calls[c].ip !in s.table
    ensures Related(OnLoad(s, c, limit), OnLoad(t, c, limit), limit, window)
  {
    StoreAligned(s, t, c, limit);
    forall ip | ip in OnLoad(t, c, limit).table ensures Paired(OnLoad(s, c, limit), OnLoad(t, c, limit), ip, limit, window) {
      StorePaired(s, t, c, ip, limit, window);
    }
  }

  lemma TakeAnswers(s: State, t: State, c: nat, limit: int, window: int)
    requires window > 0 && limit > 0 && Inv(s, limit, window) && Inv(t, limit, window) && Related(s, t, limit, window)
    requires Enabled(s, Take(c)) && Enabled(t, Take(c)) && GentleStep(s, Take(c), window)
    ensures
      var e, k, now := s.heap[s.calls[c].bucket], t.heap[t.calls[c].bucket], s.calls[c].now;
      Serves(e, now, limit, window) == Serves(k, now, limit, window) && Served(e, now, limit, window) == Served(k, now, limit, window)
  {
    var ip, now := s.calls[c].ip, s.calls[c].now;
    assert Paired(s, t, ip, limit, window) && BucketOk(t, t.table[ip], limit, window);
    var e, k := s.heap[s.calls[c].bucket], t.heap[t.calls[c].bucket];
    if e != k {
      IdleRestores(k, now, limit, window);
      RefillFacts(now - now, limit, window);
    }
  }

  // Another address's call leaves a pair alone.
  lemma TakeElsewhere(s: State, t: State, c: nat, ip: string, limit: int, window: int)
    requires window > 0 && TableOk(s) && TableOk(t) && Aligned(s, t) && Paired(s, t, ip, limit, window)
    requires Enabled(s, Take(c)) && Enabled(t, Take(c)) && ip in t.table && ip != s.calls[c].ip
    ensures Paired(OnTake(s, c, limit, window), OnTake(t, c, limit, window), ip, limit, window)
  {
    var o := s.calls[c].bucket;
    KnownChanged(s.notes, o, OnTake(s, c, limit, window).notes[o], ip);
  }

  lemma TakePaired(s: State, t: State, c: nat, limit: int, window: int)
    requires window > 0 && limit > 0 && Inv(s, limit, window) && Inv(t, limit, window) && Related(s, t, limit, window)
    requires Enabled(s, Take(c)) && Enabled(t, Take(c)) && GentleStep(s, Take(c), window)
    ensures Paired(OnTake(s, c, limit, window), OnTake(t, c, limit, window), s.calls[c].ip, limit, window)
  {
    var o, ip := s.calls[c].bucket, s.calls[c].ip;
    KnownChanged(s.notes, o, OnTake(s, c, limit, window).notes[o], ip);
    TakeAnswers(s, t, c, limit, window);
    assert Paired(s, t, ip, limit, window);
  }

  lemma TakeAligned(s: State, t: State, c: nat, limit: int, window: int)
    requires window > 0 && limit > 0 && Inv(s, limit, window) && Inv(t, limit, window) && Related(s, t, limit, window)
    requires Enabled(s, Take(c)) && Enabled(t, Take(c)) && GentleStep(s, Take(c), window)
    ensures Aligned(OnTake(s, c, limit, window), OnTake(t, c, limit, window))
  {
    var o := s.calls[c].bucket;
    TakeAnswers(s, t, c, limit, window);
    forall ip ensures Known(OnTake(s, c, limit, window).notes, ip) <==> Known(s.notes, ip) {
      KnownChanged(s.notes, o, OnTake(s, c, limit, window).notes[o], ip);
    }
  }

  lemma TakeRelated(s: State, t: State, c: nat, limit: int, window: int)
    requires window > 0 && limit > 0 && Inv(s, limit, window) && Inv(t, limit, window) && Related(s, t, limit, window)
    requires Enabled(s, Take(c)) && Enabled(t, Take(c)) && GentleStep(s, Take(c), window)
    ensures Related(OnTake(s, c, limit, window), OnTake(t, c, limit, window), limit, window)
  {
    TakeAligned(s, t, c, limit, window);
    forall ip | ip in OnTake(t, c, limit, window).table
      ensures Paired(OnTake(s, c, limit, window), OnTake(t, c, limit, window), ip, limit, window) {
      if ip == s.calls[c].ip {
        TakePaired(s, t, c, limit, window);
      } else {
        TakeElsewhere(s, t, c, ip, limit, window);
      }
    }
  }

  lemma ClockRelated(s: State, t: State, step: Step, limit: int, window: int)
    requires window > 0 && Related(s, t, limit, window) && Enabled(s, step) && (step.Tick? || step.Clock?)
    ensures Related(Do(s, step, true, limit, window), Do(t, step, false, limit, window), limit, window)
  {
    var u, v := Do(s, step, true, limit, window), Do(t, step, false, limit, window);
    forall ip | ip in v.table ensures Paired(u, v, ip, limit, window) {
      assert Paired(s, t, ip, limit, window);
    }
  }

  lemma TestRelated(s: State, t: State, step: Step, limit: int, window: int)
    requires window > 0 && Related(s, t, limit, window) && step.Test?
    ensures Related(Do(s, step, true, limit, window), Do(t, step, false, limit, window), limit, window)
  {
    var u := Do(s, step, true, limit, window);
    forall ip | ip in t.table ensures Paired(u, t, ip, limit, window) {
      assert Paired(s, t, ip, limit, window);
    }
  }

  lemma StepRelated(s: State, t: State, step: Step, limit: int, window: int)
    requires window > 0 && limit > 0 && Inv(s, limit, window) && Inv(t, limit, window)
    requires Related(s, t, limit, window) && GentleStep(s, step, window)
    ensures Related(Do(s, step, true, limit, window), Do(t, step, false, limit, window), limit, window)
  {
    match step
    case Tick(_) => if Enabled(s, step) { ClockRelated(s, t, step, limit, window); }
    case Clock(_, _) => if Enabled(s, step) { ClockRelated(s, t, step, limit, window); }
    case Load(c) =>
      if Enabled(s, step) {
        if s.calls[c].ip in s.table { FindRelated(s, t, c, limit, window); } else { StoreRelated(s, t, c, limit, window); }
      }
    case Take(c) =>
      if c in s.calls && s.calls[c].Loaded? {
        assert CallOk(s, c) && CallOk(t, c);
        TakeRelated(s, t, c, limit, window);
      }
    case Test(_, _) => TestRelated(s, t, step, limit, window);
    case Delete => if Enabled(s, step) { DeleteRelated(s, t, limit, window); }
  }

  lemma {:induction false} RunsRelated(steps: seq<Step>, start: int, limit: int, window: int)
    requires window > 0 && limit > 0 && Gentle(steps, start, limit, window)
    ensures Related(Run(steps, true, start, limit, window), Run(steps, false, start, limit, window), limit, window)
  {
    if steps != [] {
      var before := ButLast(steps);
      RunsRelated(before, start, limit, window);
      Reachable(before, true, start, limit, window);
      Reachable(before, false, start, limit, window);
      StepRelated(Run(before, true, start, limit, window), Run(before, false, start, limit, window), Last(steps), limit, window);
    }
  }

  // A limiter whose limit is not positive turns everyone away.
  predicate Poor(s: State) {
    && TableOk(s) && (forall c | c in s.calls && s.calls[c].Loaded? :: s.calls[c].bucket < |s.heap|)
    && forall o | 0 <= o < |s.heap| :: s.heap[o].tokens <= 0
  }

  lemma PoorBucket(b: Bucket, now: int, limit: int, window: int)
    requires window > 0 && limit <= 0 && b.tokens <= 0
    ensures !Serves(b, now, limit, window) && Served(b, now, limit, window).tokens <= 0
  {
  }

  lemma PoorTake(s: State, c: nat, limit: int, window: int)
    requires window > 0 && limit <= 0 && Poor(s) && Enabled(s, Take(c))
    ensures Poor(OnTake(s, c, limit, window))
    ensures OnTake(s, c, limit, window).answers == s.answers + [Answer(s.calls[c].ip, s.calls[c].now, false)]
  {
    PoorBucket(s.heap[s.calls[c].bucket], s.calls[c].now, limit, window);
  }

  lemma PoorKeeps(s: State, step: Step, evict: bool, limit: int, window: int)
    requires window > 0 && limit <= 0 && Poor(s)
    ensures Poor(Do(s, step, evict, limit, window))
  {
    if step.Take? && Enabled(s, step) {
      PoorTake(s, step.call, limit, window);
    }
  }

  lemma LoadAlike(s: State, t: State, c: nat, limit: int)
    requires TableOk(s) && TableOk(t) && Alike(s, t) && Enabled(s, Load(c))
    ensures Enabled(t, Load(c)) && Alike(OnLoad(s, c, limit), OnLoad(t, c, limit))
  {
  }

  lemma OtherAlike(s: State, t: State, step: Step, limit: int, window: int)
    requires window > 0 && TableOk(s) && TableOk(t) && Alike(s, t) && !step.Take?
    ensures Alike(Do(s, step, true, limit, window), Do(t, step, false, limit, window))
  {
    if step.Load? && Enabled(s, step) {
      LoadAlike(s, t, step.call, limit);
    }
  }

  lemma PoorAlike(s: State, t: State, c: nat, limit: int, window: int)
    requires window > 0 && limit <= 0 && Poor(s) && Poor(t) && Alike(s, t) && Enabled(s, Take(c))
    ensures Enabled(t, Take(c)) && Alike(OnTake(s, c, limit, window), OnTake(t, c, limit, window))
  {
    PoorTake(s, c, limit, window);
    PoorTake(t, c, limit, window);
  }

  lemma {:induction false} PoorRuns(steps: seq<Step>, start: int, limit: int, window: int)
    requires window > 0 && limit <= 0
    ensures var s, t := Run(steps, true, start, limit, window), Run(steps, false, start, limit, window);
            Poor(s) && Poor(t) && Alike(s, t)
  {
    if steps != [] {
      PoorRuns(ButLast(steps), start, limit, window);
      var s, t := Run(ButLast(steps), true, start, limit, window), Run(ButLast(steps), false, start, limit, window);
      PoorKeeps(s, Last(steps), true, limit, window);
      PoorKeeps(t, Last(steps), false, limit, window);
      if !Last(steps).Take? {
        OtherAlike(s, t, Last(steps), limit, window);
      } else if Enabled(s, Last(steps)) {
        PoorAlike(s, t, Last(steps).call, limit, window);
      }
    }
  }

  /** In every interleaving whose deletions are quiet and whose new buckets are first taken from by their makers, each
      call gets the answer it gets without eviction. */
  lemma EvictionTransparent(steps: seq<Step>, start: int, limit: int, window: int)
    requires window > 0 && Gentle(steps, start, limit, window)
    ensures Run(steps, true, start, limit, window).answers == Run(steps, false, start, limit, window).answers
  {
    if limit > 0 {
      RunsRelated(steps, start, limit, window);
    } else {
      PoorRuns(steps, start, limit, window);
    }
  }

  /** So in such a run eviction does not change how many calls of an address are accepted. */
  lemma EvictionAddress(steps: seq<Step>, start: int, limit: int, window: int, ip: string)
    requires window > 0 && Gentle(steps, start, limit, window)
    ensures Accepts(Run(steps, true, start, limit, window).answers, ip)
            == Accepts(Run(steps, false, start, limit, window).answers, ip)
  {
    EvictionTransparent(steps, start, limit, window);
  }

  // ---------------------------------------------------------------- without eviction

  // The clock readings of an address's calls, in the order they were answered.
  function TimesIn(answers: seq<Answer>, ip: string): seq<int> {
    if answers == [] then []
    else TimesIn(ButLast(answers), ip) + if Last(answers).ip == ip then [Last(answers).now] else []
  }

  predicate Replayed(s: State, ip: string, limit: int, window: int)
    requires window > 0
  {
    var times := TimesIn(s.answers, ip);
    if ip in s.table then
      && Found(s, ip)
      && var t := Replay(Fresh(s.notes[s.table[ip]].born, limit), times, limit, window);
         s.heap[s.table[ip]] == t.bucket && Accepts(s.answers, ip) == t.accepted
    else times == [] && Accepts(s.answers, ip) == 0
  }

  lemma ReplaySnoc(start: Bucket, times: seq<int>, now: int, limit: int, window: int)
    requires window > 0
    ensures
      var t, u := Replay(start, times, limit, window), Replay(start, times + [now], limit, window);
      && u.bucket == Served(t.bucket, now, limit, window)
      && u.accepted == t.accepted + if Serves(t.bucket, now, limit, window) then 1 else 0
  {
    SnocParts(times, now);
  }

  lemma AnswerSnoc(answers: seq<Answer>, a: Answer, ip: string)
    ensures TimesIn(answers + [a], ip) == if a.ip == ip then TimesIn(answers, ip) + [a.now] else TimesIn(answers, ip)
    ensures Accepts(answers + [a], ip) == Accepts(answers, ip) + if a.ip == ip && a.ok then 1 else 0
  {
    SnocParts(answers, a);
  }

  lemma TakeReplays(s: State, c: nat, ip: string, limit: int, window: int)
    requires window > 0 && TableOk(s) && NoOrphans(s) && Enabled(s, Take(c)) && Replayed(s, ip, limit, window)
    ensures Replayed(OnTake(s, c, limit, window), ip, limit, window)
  {
    var k, t := s.calls[c], OnTake(s, c, limit, window);
    AnswerSnoc(s.answers, Last(t.answers), ip);
    if k.ip == ip {
      ReplaySnoc(Fresh(s.notes[k.bucket].born, limit), TimesIn(s.answers, ip), k.now, limit, window);
    }
  }

  lemma StepReplays(s: State, step: Step, ip: string, limit: int, window: int)
    requires window > 0 && Inv(s, limit, window) && NoOrphans(s) && Replayed(s, ip, limit, window)
    ensures var t := Do(s, step, false, limit, window); NoOrphans(t) && Replayed(t, ip, limit, window)
  {
    if step.Take? && Enabled(s, step) {
      TakeReplays(s, step.call, ip, limit, window);
    }
  }

  /** Without eviction an address's bucket and accepts are those of one bucket replaying the address's own calls, in the
      order they took the lock; no other address matters. */
  lemma {:induction false} AddressReplays(steps: seq<Step>, start: int, limit: int, window: int, ip: string)
    requires window > 0 && limit > 0
    ensures var s := Run(steps, false, start, limit, window); NoOrphans(s) && Replayed(s, ip, limit, window)
  {
    if steps != [] {
      AddressReplays(ButLast(steps), start, limit, window, ip);
      Reachable(ButLast(steps), false, start, limit, window);
      StepReplays(Run(ButLast(steps), false, start, limit, window), Last(steps), ip, limit, window);
    }
  }

  // The calls of an address, in the order they took the lock, each paced from the one before; the bucket is no newer than
  // the first.
  predicate PacedAddress(s: State, ip: string, limit: int, window: int) {
    var times := TimesIn(s.answers, ip);
    && times != [] && Found(s, ip) && s.notes[s.table[ip]].born <= times[0]
    && Paced(times[0], times[1..], limit, window)
  }

  /** So an address whose calls are paced has all of them accepted, whatever the other addresses do. */
  lemma PacedAddressAccepted(steps: seq<Step>, start: int, limit: int, window: int, ip: string)
    requires window > 0 && limit > 0 && PacedAddress(Run(steps, false, start, limit, window), ip, limit, window)
    ensures var answers := Run(steps, false, start, limit, window).answers;
            Accepts(answers, ip) == |TimesIn(answers, ip)|
  {
    var s := Run(steps, false, start, limit, window);
    var times := TimesIn(s.answers, ip);
    AddressReplays(steps, start, limit, window, ip);
    FreshThenPaced(s.notes[s.table[ip]].born, times[0], times[1..], limit, window);
    assert times == [times[0]] + times[1..];
  }
}
