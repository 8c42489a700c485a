/** One token bucket with floor refill. Times are unbounded integers. */
module TokenBucket {
  import opened Common

  datatype Bucket = Bucket(tokens: int, last: int)

  // Integer division that truncates toward zero.
  function TruncDiv(a: int, b: int): int
    requires b > 0
  {
    if a >= 0 then a / b else -((-a) / b)
  }

  // ---------------------------------------------------------------- one bucket

  function Refill(elapsed: int, limit: int, window: int): int
    requires window > 0
  {
    TruncDiv(elapsed * limit, window)
  }

  // The bucket once the time since its last refill has been credited.
  function Credited(b: Bucket, now: int, limit: int, window: int): Bucket
    requires window > 0
  {
    var refill := Refill(now - b.last, limit, window);
    if refill > 0 then Bucket(if b.tokens + refill > limit then limit else b.tokens + refill, now) else b
  }

  predicate Serves(b: Bucket, now: int, limit: int, window: int)
    requires window > 0
  {
    Credited(b, now, limit, window).tokens > 0
  }

  function Served(b: Bucket, now: int, limit: int, window: int): Bucket
    requires window > 0
  {
    var c := Credited(b, now, limit, window);
    if c.tokens > 0 then c.(tokens := c.tokens - 1) else c
  }

  function Fresh(now: int, limit: int): Bucket {
    Bucket(limit, now)
  }

  predicate Stale(b: Bucket, now: int, window: int) {
    b.last < now - 2 * window
  }

  // ---------------------------------------------------------------- arithmetic of the refill

  lemma MulStep(w: int, x: int, y: int)
    requires w > 0 && x < y
    ensures w * x + w <= w * y
  {
    var d := y - x - 1;
    assert w * d >= 0;
    assert w * y == w * x + w * d + w by {
      assert y == x + d + 1;
    }
  }

  lemma FloorMeans(n: int, w: int)
    requires w > 0
    ensures w * (n / w) <= n < w * (n / w) + w
  {
  }

  // The floor is the only quotient that brackets n.
  lemma Bracket(n: int, d: int, q: int, w: int)
    requires w > 0 && w * d <= n < w * d + w
    ensures w * q <= n ==> q <= d
    ensures n < w * q ==> d < q
  {
    if q > d { MulStep(w, d, q); }
    if q < d { MulStep(w, q, d); }
  }

  lemma FloorBelow(n: int, q: int, w: int)
    requires w > 0
    ensures n / w >= q <==> n >= w * q
  {
    FloorMeans(n, w);
    Bracket(n, n / w, q, w);
  }

  lemma FloorPlus(a: int, b: int, w: int)
    requires w > 0
    ensures a / w + b / w <= (a + b) / w <= a / w + b / w + 1
  {
    var p, q := a / w, b / w;
    FloorMeans(a, w);
    FloorMeans(b, w);
    assert w * (p + q) == w * p + w * q && w * (p + q + 2) == w * p + w * q + 2 * w;
    FloorBelow(a + b, p + q, w);
    FloorBelow(a + b, p + q + 2, w);
  }

  // Time runs forward through a refill, and none comes for free.
  lemma RefillFacts(elapsed: int, limit: int, window: int)
    requires window > 0 && limit > 0
    ensures Refill(elapsed, limit, window) > 0 ==> elapsed > 0 && Refill(elapsed, limit, window) == elapsed * limit / window
    ensures elapsed >= window ==> Refill(elapsed, limit, window) >= limit
  {
    if elapsed <= 0 {
      assert elapsed * limit <= 0;
      FloorBelow(-(elapsed * limit), 0, window);
    } else {
      assert elapsed * limit > 0;
    }
    if elapsed >= window {
      assert elapsed * limit >= window * limit;
      FloorBelow(elapsed * limit, limit, window);
    }
  }

  // An entry the cleanup may drop.
  predicate Droppable(b: Bucket, now: int, window: int) {
    b.tokens >= 0 && Stale(b, now, window)
  }

  lemma DroppedIsFull(b: Bucket, now: int, limit: int, window: int)
    requires window > 0 && limit > 0 && Droppable(b, now, window)
    ensures Credited(b, now, limit, window) == Fresh(now, limit)
    ensures Credited(Fresh(now, limit), now, limit, window) == Fresh(now, limit)
  {
    RefillFacts(now - b.last, limit, window);
  }

  // ---------------------------------------------------------------- how much a bucket lets through

  datatype Tally = Tally(bucket: Bucket, accepted: nat)

  // Calls on one bucket, oldest first.
  function Replay(start: Bucket, times: seq<int>, limit: int, window: int): Tally
    requires window > 0
  {
    if times == [] then Tally(start, 0)
    else
      var t := Replay(start, ButLast(times), limit, window);
      Tally(Served(t.bucket, Last(times), limit, window),
            t.accepted + if Serves(t.bucket, Last(times), limit, window) then 1 else 0)
  }

  function Earned(from: int, to: int, limit: int, window: int): int
    requires window > 0
  {
    (to - from) * limit / window
  }

  lemma EarnedAdds(a: int, b: int, c: int, limit: int, window: int)
    requires window > 0
    ensures Earned(a, b, limit, window) + Earned(b, c, limit, window) <= Earned(a, c, limit, window)
            <= Earned(a, b, limit, window) + Earned(b, c, limit, window) + 1
  {
    FloorPlus((b - a) * limit, (c - b) * limit, window);
    assert (b - a) * limit + (c - b) * limit == (c - a) * limit;
  }

  predicate InRange(b: Bucket, limit: int) {
    0 <= b.tokens <= limit
  }

  /** In every run of calls, in any order of times: tokens stay in [0, limit], and accepts plus tokens never
      exceed what the bucket started with plus what the time up to its last refill has earned. */
  lemma {:induction false} BucketBound(start: Bucket, times: seq<int>, limit: int, window: int)
    requires window > 0 && limit > 0 && InRange(start, limit)
    ensures var t := Replay(start, times, limit, window);
            && InRange(t.bucket, limit) && t.bucket.last >= start.last
            && t.accepted + t.bucket.tokens <= start.tokens + Earned(start.last, t.bucket.last, limit, window)
  {
    if times == [] {
      assert (start.last - start.last) * limit == 0;
    } else {
      BucketBound(start, ButLast(times), limit, window);
      var b, now := Replay(start, ButLast(times), limit, window).bucket, Last(times);
      RefillFacts(now - b.last, limit, window);
      EarnedAdds(start.last, b.last, now, limit, window);
    }
  }

  lemma NoRefillNoTime(elapsed: int, limit: int, window: int)
    requires window > 0 && limit > 0 && elapsed >= 0 && Refill(elapsed, limit, window) <= 0
    ensures elapsed * limit / window == 0
  {
    assert elapsed * limit >= 0;
    FloorBelow(elapsed * limit, 0, window);
  }

  lemma NothingEarned(t: int, limit: int, window: int)
    requires window > 0
    ensures Earned(t, t, limit, window) == 0
  {
    assert (t - t) * limit == 0;
    FloorMeans(0, window);
  }

  // The unspent time behind a bucket just called at `now` is worth less than one token.
  lemma LagIsSmall(b: Bucket, now: int, limit: int, window: int)
    requires window > 0 && limit > 0 && b.last <= now
    ensures var c := Credited(b, now, limit, window);
            b.last <= c.last <= now && Earned(c.last, now, limit, window) == 0
  {
    if Refill(now - b.last, limit, window) > 0 {
      NothingEarned(now, limit, window);
    } else {
      NoRefillNoTime(now - b.last, limit, window);
    }
  }

  lemma {:induction false} LastBehind(start: Bucket, times: seq<int>, limit: int, window: int, now: int)
    requires window > 0 && limit > 0 && start.last <= now
    requires forall i | 0 <= i < |times| :: times[i] <= now
    ensures Replay(start, times, limit, window).bucket.last <= now
  {
    if times != [] {
      LastBehind(start, ButLast(times), limit, window, now);
    }
  }

  /** Over any stretch of calls made in time order, from first call to last, at most limit + 1 calls plus those earned
      in between are accepted, whatever happened before the stretch. */
  lemma StretchBound(before: Bucket, first: int, rest: seq<int>, limit: int, window: int)
    requires window > 0 && limit > 0 && InRange(before, limit) && before.last <= first
    requires NonDecreasing([first] + rest)
    ensures var last := if rest == [] then first else Last(rest);
            var t := Replay(before, [first], limit, window);
            t.accepted + Replay(t.bucket, rest, limit, window).accepted
            <= limit + 1 + Earned(first, last, limit, window)
  {
    var last := if rest == [] then first else Last(rest);
    assert ButLast([first]) == [];
    var t := Replay(before, [first], limit, window);
    var c := Credited(before, first, limit, window);
    RefillFacts(first - before.last, limit, window);
    LagIsSmall(before, first, limit, window);
    BucketBound(before, [first], limit, window);
    BucketBound(t.bucket, rest, limit, window);
    forall i | 0 <= i < |rest| ensures rest[i] <= last {
      assert ([first] + rest)[i + 1] == rest[i] && ([first] + rest)[|rest|] == last;
    }
    assert first <= last by {
      assert ([first] + rest)[0] == first && ([first] + rest)[|rest|] == last;
    }
    LastBehind(t.bucket, rest, limit, window, last);
    var l := Replay(t.bucket, rest, limit, window).bucket.last;
    EarnedMonotone(t.bucket.last, l, last, limit, window);
    EarnedAdds(t.bucket.last, first, last, limit, window);
  }

  lemma EarnedMonotone(from: int, a: int, b: int, limit: int, window: int)
    requires window > 0 && limit > 0 && a <= b
    ensures Earned(from, a, limit, window) <= Earned(from, b, limit, window)
  {
    EarnedAdds(from, a, b, limit, window);
    assert (b - a) * limit >= 0;
    FloorBelow((b - a) * limit, 0, window);
  }

  // ---------------------------------------------------------------- what a call is credited, exactly

  // The whole tokens that the time since a bucket's last refill is worth, when a call comes at `now`.
  lemma RefillIsFloor(elapsed: int, limit: int, window: int)
    requires window > 0 && limit > 0 && elapsed >= 0
    ensures Refill(elapsed, limit, window) == elapsed * limit / window >= 0
  {
    assert elapsed * limit >= 0;
    FloorBelow(elapsed * limit, 0, window);
  }

  /** A call in time order finds its bucket with every whole token earned since the last refill added, up to the limit; it is
      served exactly if that leaves any, and takes one. The clock of the bucket moves only when a token was earned. */
  lemma ServedExactly(b: Bucket, now: int, limit: int, window: int)
    requires window > 0 && limit > 0 && InRange(b, limit) && b.last <= now
    ensures
      var earned := (now - b.last) * limit / window;
      var tokens := if b.tokens + earned < limit then b.tokens + earned else limit;
      && (Serves(b, now, limit, window) <==> b.tokens + earned > 0)
      && Served(b, now, limit, window)
         == Bucket(if tokens > 0 then tokens - 1 else 0, if earned > 0 then now else b.last)
  {
    RefillIsFloor(now - b.last, limit, window);
  }

  /** A caller who finds the bucket empty is served from the moment on at which a whole token has been earned, and no sooner. */
  lemma EmptyWaits(b: Bucket, now: int, limit: int, window: int)
    requires window > 0 && limit > 0 && b.tokens == 0 && b.last <= now
    ensures Serves(b, now, limit, window) <==> (now - b.last) * limit >= window
  {
    ServedExactly(b, now, limit, window);
    FloorBelow((now - b.last) * limit, 1, window);
  }

  // Each call comes when a token or more has been earned since the call before it; the first, since `from`.
  predicate Paced(from: int, times: seq<int>, limit: int, window: int) {
    times == []
    || (&& Paced(from, ButLast(times), limit, window)
        && var before := if |times| == 1 then from else times[|times| - 2];
           before <= Last(times) && (Last(times) - before) * limit >= window)
  }

  lemma LongerEarnsMore(a: int, b: int, limit: int)
    requires a <= b && limit > 0
    ensures a * limit <= b * limit
  {
    assert (b - a) * limit >= 0;
  }

  // A call that has earned a token since some moment the bucket's clock is not past.
  lemma PacedCall(b: Bucket, from: int, now: int, limit: int, window: int)
    requires window > 0 && limit > 0 && InRange(b, limit) && b.last <= from <= now && (now - from) * limit >= window
    ensures Serves(b, now, limit, window)
    ensures var c := Served(b, now, limit, window); c.last <= now && InRange(c, limit)
  {
    LongerEarnsMore(now - from, now - b.last, limit);
    ServedExactly(b, now, limit, window);
    FloorBelow((now - b.last) * limit, 1, window);
  }

  /** Whatever the bucket holds, calls paced so that each gap earns a token are all accepted. */
  lemma {:induction false} PacedAllAccepted(start: Bucket, from: int, times: seq<int>, limit: int, window: int)
    requires window > 0 && limit > 0 && InRange(start, limit) && start.last <= from && Paced(from, times, limit, window)
    ensures
      var t := Replay(start, times, limit, window);
      t.accepted == |times| && InRange(t.bucket, limit) && t.bucket.last <= if times == [] then from else Last(times)
  {
    if times != [] {
      var before := if |times| == 1 then from else times[|times| - 2];
      PacedAllAccepted(start, from, ButLast(times), limit, window);
      PacedCall(Replay(start, ButLast(times), limit, window).bucket, before, Last(times), limit, window);
    }
  }

  lemma KeepsTokens(b: Bucket, now: int, limit: int, window: int)
    requires window > 0 && limit > 0 && InRange(b, limit)
    ensures b.tokens <= Credited(b, now, limit, window).tokens <= limit
  {
  }

  /** As many calls as a bucket holds tokens are all accepted, at whatever times they come. */
  lemma {:induction false} BurstAllAccepted(start: Bucket, times: seq<int>, limit: int, window: int)
    requires window > 0 && limit > 0 && InRange(start, limit) && |times| <= start.tokens
    ensures
      var t := Replay(start, times, limit, window);
      t.accepted == |times| && start.tokens - |times| <= t.bucket.tokens <= limit
  {
    if times != [] {
      BurstAllAccepted(start, ButLast(times), limit, window);
      KeepsTokens(Replay(start, ButLast(times), limit, window).bucket, Last(times), limit, window);
    }
  }

  lemma {:induction false} ReplayConcat(start: Bucket, a: seq<int>, b: seq<int>, limit: int, window: int)
    requires window > 0
    ensures
      var t := Replay(start, a, limit, window);
      var u := Replay(t.bucket, b, limit, window);
      Replay(start, a + b, limit, window) == Tally(u.bucket, t.accepted + u.accepted)
  {
    if b == [] {
      assert a + b == a;
    } else {
      ReplayConcat(start, a, ButLast(b), limit, window);
      ConcatParts(a, b);
    }
  }

  lemma ReplayOne(b: Bucket, now: int, limit: int, window: int)
    requires window > 0
    ensures Replay(b, [now], limit, window) == Tally(Served(b, now, limit, window), if Serves(b, now, limit, window) then 1 else 0)
  {
    assert ButLast([now]) == [];
  }

  lemma FreshCall(born: int, now: int, limit: int, window: int)
    requires window > 0 && limit > 0 && born <= now
    ensures Serves(Fresh(born, limit), now, limit, window)
    ensures var c := Served(Fresh(born, limit), now, limit, window); c.last <= now && InRange(c, limit)
  {
    ServedExactly(Fresh(born, limit), now, limit, window);
    RefillIsFloor(now - born, limit, window);
  }

  /** A new bucket accepts its first call, and then all calls paced from that one on. */
  lemma FreshThenPaced(born: int, first: int, rest: seq<int>, limit: int, window: int)
    requires window > 0 && limit > 0 && born <= first && Paced(first, rest, limit, window)
    ensures Replay(Fresh(born, limit), [first] + rest, limit, window).accepted == 1 + |rest|
  {
    var b := Fresh(born, limit);
    FreshCall(born, first, limit, window);
    ReplayOne(b, first, limit, window);
    PacedAllAccepted(Served(b, first, limit, window), first, rest, limit, window);
    ReplayConcat(b, [first], rest, limit, window);
  }

  /** A bucket left alone for a full window is full: the next call is served and leaves limit - 1. */
  lemma IdleRestores(b: Bucket, now: int, limit: int, window: int)
    requires window > 0 && limit > 0 && InRange(b, limit) && now - b.last >= window
    ensures Serves(b, now, limit, window) && Served(b, now, limit, window) == Bucket(limit - 1, now)
  {
    RefillFacts(now - b.last, limit, window);
  }

}
