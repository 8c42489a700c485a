/** The per-plugin sliding-window limiter: a ring of accept times, refining an unbounded log of them. */
module SlidingWindow {
  import opened Common

  // Times and durations count nanoseconds.
  const MILLISECOND := 1_000_000

  const MINUTE := 60_000_000_000

  // ---------------------------------------------------------------- the unbounded log

  // The accept decision, from the whole history of accepted times.
  predicate Accepts(log: seq<int>, limit: nat, window: int, now: int)
    requires limit > 0
  {
    |log| < limit || now - log[|log| - limit] >= window
  }

  function Max(a: int, b: int): int {
    if a > b then a else b
  }

  // What a rejected caller is told to wait.
  function Retry(log: seq<int>, limit: nat, window: int, now: int): int
    requires limit > 0 && !Accepts(log, limit, window, now)
  {
    Max(window - (now - log[|log| - limit]), MILLISECOND)
  }

  function After(log: seq<int>, limit: nat, window: int, now: int): seq<int>
    requires limit > 0
  {
    if Accepts(log, limit, window, now) then log + [now] else log
  }

  // The log left by a run of calls, oldest call first.
  function Run(calls: seq<int>, limit: nat, window: int): seq<int>
    requires limit > 0
  {
    if calls == [] then [] else After(Run(ButLast(calls), limit, window), limit, window, Last(calls))
  }

  // How many logged times lie in [lo, hi).
  function CountIn(log: seq<int>, lo: int, hi: int): nat {
    if log == [] then 0 else CountIn(ButLast(log), lo, hi) + if lo <= Last(log) < hi then 1 else 0
  }

  // ---------------------------------------------------------------- the ring

  // How far ring position i is from the oldest entry.
  function Age(i: nat, head: nat, limit: nat): nat
    requires i < limit && head < limit
  {
    if i >= head then i - head else i + limit - head
  }

  lemma Wraps(head: nat, limit: nat)
    requires head < limit
    ensures (head + 1) % limit == if head + 1 == limit then 0 else head + 1
  {
  }

  class BridgeRateLimiter {
    const window: int
    const limit: nat
    const recent: array<int>
    var head: nat
    var filled: bool
    ghost var log: seq<int>

    // The ring holds the last `limit` accept times, oldest at head once it is full.
    ghost predicate Valid()
      reads this, recent
    {
      && limit > 0 && window > 0 && recent.Length == limit && head < limit
      && (!filled ==> head == |log| && forall i | 0 <= i < head :: recent[i] == log[i])
      && (filled ==> |log| >= limit
                     && forall i | 0 <= i < limit :: recent[i] == log[|log| - limit + Age(i, head, limit)])
    }

    constructor (limit: int, window: int)
      ensures Valid() && log == [] && fresh(recent)
      ensures this.limit == if limit <= 0 then 60 else limit
      ensures this.window == if window <= 0 then MINUTE else window
    {
      this.limit := if limit <= 0 then 60 else limit;
      this.window := if window <= 0 then MINUTE else window;
      recent := new int[if limit <= 0 then 60 else limit];
      head, filled, log := 0, false, [];
    }

    /** `allow`: decides and updates exactly as the unbounded log does. */
    method Allow(now: int) returns (ok: bool, retry: int)
      requires Valid()
      modifies this, recent
      ensures Valid()
      ensures ok == Accepts(old(log), limit, window, now)
      ensures log == After(old(log), limit, window, now)
      ensures retry == if ok then 0 else Retry(old(log), limit, window, now)
    {
      if !filled {
        recent[head] := now;
        head := head + 1;
        log := log + [now];
        if head == limit {
          head := 0;
          filled := true;
        }
        return true, 0;
      }
      var oldest := recent[head];
      assert oldest == log[|log| - limit];
      if now - oldest >= window {
        Wraps(head, limit);
        recent[head] := now;
        head := (head + 1) % limit;
        log := log + [now];
        return true, 0;
      }
      retry := window - (now - oldest);
      if retry < MILLISECOND {
        retry := MILLISECOND;
      }
      return false, retry;
    }
  }

  // ---------------------------------------------------------------- no window is ever overfull

  // Entries `limit` apart are at least a window apart.
  predicate Spaced(log: seq<int>, limit: nat, window: int) {
    forall i | 0 <= i && i + limit < |log| :: log[i + limit] - log[i] >= window
  }

  lemma {:induction false} RunSpaced(calls: seq<int>, limit: nat, window: int)
    requires limit > 0
    ensures Spaced(Run(calls, limit, window), limit, window)
  {
    if calls != [] {
      RunSpaced(ButLast(calls), limit, window);
    }
  }

  // The ring position of the i-th accept.
  function Slot(i: nat, limit: nat): (r: nat)
    requires limit > 0
    ensures r < limit
  {
    if i < limit then i else Slot(i - limit, limit)
  }

  lemma {:induction false} SlotsDiffer(i: nat, j: nat, limit: nat)
    requires limit > 0 && i < j < i + limit
    ensures Slot(i, limit) != Slot(j, limit)
  {
    if i >= limit {
      SlotsDiffer(i - limit, j - limit, limit);
    }
  }

  // Accepts that share a ring position are a window apart.
  lemma {:induction false} SpacedSteps(log: seq<int>, limit: nat, window: int, i: nat, j: nat)
    requires limit > 0 && window > 0 && Spaced(log, limit, window)
    requires i < j < |log| && Slot(i, limit) == Slot(j, limit)
    ensures log[j] - log[i] >= window
    decreases j
  {
    if j < i + limit {
      SlotsDiffer(i, j, limit);
    } else {
      assert log[(j - limit) + limit] - log[j - limit] >= window;
      if j > i + limit {
        SpacedSteps(log, limit, window, i, j - limit);
      }
    }
  }

  // The positions of the entries that fall in [lo, hi).
  function Positions(log: seq<int>, lo: int, hi: int): set<nat> {
    set i: nat | i < |log| && lo <= log[i] < hi
  }

  lemma {:induction false} CountIsPositions(log: seq<int>, lo: int, hi: int)
    ensures CountIn(log, lo, hi) == |Positions(log, lo, hi)|
  {
    if log != [] {
      CountIsPositions(ButLast(log), lo, hi);
      var n := |log| - 1;
      var here := Positions(ButLast(log), lo, hi);
      assert n !in here;
      assert Positions(log, lo, hi) == if lo <= log[n] < hi then here + {n} else here;
    }
  }

  function Upto(n: nat): set<nat> {
    if n == 0 then {} else Upto(n - 1) + {n - 1}
  }

  lemma {:induction false} UptoSize(n: nat)
    ensures |Upto(n)| == n && forall i: nat :: i in Upto(n) <==> i < n
  {
    if n > 0 {
      UptoSize(n - 1);
    }
  }

  // Pigeonhole: distinct positions in distinct slots are no more than the slots.
  lemma {:induction false} SlotsBound(s: set<nat>, slots: set<nat>, limit: nat)
    requires limit > 0
    requires forall i | i in s :: Slot(i, limit) in slots
    requires forall i, j | i in s && j in s && Slot(i, limit) == Slot(j, limit) :: i == j
    ensures |s| <= |slots|
  {
    if s != {} {
      var i := Member(s);
      var slot := Slot(i, limit);
      forall j | j in s - {i} ensures Slot(j, limit) in slots - {slot} {
        assert j in s;
      }
      SlotsBound(s - {i}, slots - {slot}, limit);
      assert |slots - {slot}| == |slots| - 1;
      assert |s - {i}| == |s| - 1;
    }
  }

  /** Whatever the call times, even out of order: no half-open interval of one window's length holds more than `limit` accepts. */
  lemma NoWindowOverfull(calls: seq<int>, limit: nat, window: int, lo: int)
    requires limit > 0 && window > 0
    ensures CountIn(Run(calls, limit, window), lo, lo + window) <= limit
  {
    var log := Run(calls, limit, window);
    RunSpaced(calls, limit, window);
    var s := Positions(log, lo, lo + window);
    UptoSize(limit);
    forall i, j | i in s && j in s && Slot(i, limit) == Slot(j, limit) ensures i == j {
      if i < j {
        SpacedSteps(log, limit, window, i, j);
      } else if j < i {
        SpacedSteps(log, limit, window, j, i);
      }
    }
    SlotsBound(s, Upto(limit), limit);
    CountIsPositions(log, lo, lo + window);
  }

  // ---------------------------------------------------------------- exactness for calls in time order

  lemma {:induction false} CountNone(log: seq<int>, lo: int, hi: int)
    requires forall i | 0 <= i < |log| :: !(lo <= log[i] < hi)
    ensures CountIn(log, lo, hi) == 0
  {
    if log != [] {
      CountNone(ButLast(log), lo, hi);
    }
  }

  lemma {:induction false} CountAll(log: seq<int>, lo: int, hi: int)
    ensures CountIn(log, lo, hi) <= |log|
    ensures (forall i | 0 <= i < |log| :: lo <= log[i] < hi) ==> CountIn(log, lo, hi) == |log|
  {
    if log != [] {
      CountAll(ButLast(log), lo, hi);
    }
  }

  lemma {:induction false} CountConcat(a: seq<int>, b: seq<int>, lo: int, hi: int)
    ensures CountIn(a + b, lo, hi) == CountIn(a, lo, hi) + CountIn(b, lo, hi)
  {
    if b == [] {
      assert a + b == a;
    } else {
      CountConcat(a, ButLast(b), lo, hi);
      assert a + b == (a + ButLast(b)) + [Last(b)];
      SnocParts(a + ButLast(b), Last(b));
    }
  }

  lemma InOrderFacts(log: seq<int>, now: int)
    requires NonDecreasing(log + [now])
    ensures NonDecreasing(log) && forall i | 0 <= i < |log| :: log[i] <= now
  {
    var all := log + [now];
    assert all[|log|] == now;
    forall i, j | 0 <= i < j < |log| ensures log[i] <= log[j] {
      assert all[i] == log[i] && all[j] == log[j];
    }
    forall i | 0 <= i < |log| ensures log[i] <= now {
      assert all[i] == log[i];
    }
  }

  // The last events, from position k on: all of them count if the first does ...
  lemma CountFrom(log: seq<int>, k: nat, lo: int, now: int)
    requires k < |log| && NonDecreasing(log) && log[k] >= lo && forall i | 0 <= i < |log| :: log[i] <= now
    ensures CountIn(log, lo, now + 1) >= |log| - k
  {
    var before, last := log[..k], log[k..];
    assert log == before + last;
    CountConcat(before, last, lo, now + 1);
    assert forall i | 0 <= i < |last| :: last[i] == log[k + i];
    CountAll(last, lo, now + 1);
  }

  // ... and that one and those before it do not if it does not.
  lemma CountAfter(log: seq<int>, k: nat, lo: int, now: int)
    requires k < |log| && NonDecreasing(log) && log[k] < lo
    ensures CountIn(log, lo, now + 1) < |log| - k
  {
    var before, last := log[..k + 1], log[k + 1..];
    assert log == before + last;
    CountConcat(before, last, lo, now + 1);
    assert forall i | 0 <= i < |before| :: before[i] == log[i] <= log[k];
    CountNone(before, lo, now + 1);
    CountAll(last, lo, now + 1);
  }

  /** In time order a call is accepted exactly when fewer than `limit` accepted events lie in (now - window, now]. */
  lemma ExactInOrder(log: seq<int>, limit: nat, window: int, now: int)
    requires limit > 0 && window > 0
    requires NonDecreasing(log + [now])
    ensures Accepts(log, limit, window, now) <==> CountIn(log, now - window + 1, now + 1) < limit
  {
    InOrderFacts(log, now);
    if |log| < limit {
      CountAll(log, now - window + 1, now + 1);
    } else {
      var k, lo := |log| - limit, now - window + 1;
      if log[k] >= lo { CountFrom(log, k, lo, now); } else { CountAfter(log, k, lo, now); }
    }
  }

  // The log kept by counting: the specification the ring stands for.
  function CountingRun(calls: seq<int>, limit: nat, window: int): seq<int> {
    if calls == [] then []
    else
      var log, now := CountingRun(ButLast(calls), limit, window), Last(calls);
      if CountIn(log, now - window + 1, now + 1) < limit then log + [now] else log
  }

  lemma LaterFits(s: seq<int>, t: int, now: int)
    requires NonDecreasing(s + [t]) && t <= now
    ensures NonDecreasing(s + [now]) && NonDecreasing(s + [t] + [now])
  {
    var st := s + [t];
    forall i | 0 <= i < |s| ensures s[i] <= t {
      assert st[i] <= st[|s|];
    }
    forall i, j | 0 <= i < j < |s| ensures s[i] <= s[j] {
      assert st[i] <= st[j];
    }
  }

  lemma {:induction false} RunStaysInOrder(calls: seq<int>, limit: nat, window: int, now: int)
    requires limit > 0 && NonDecreasing(calls + [now])
    ensures NonDecreasing(Run(calls, limit, window) + [now])
  {
    if calls != [] {
      var before, t := ButLast(calls), Last(calls);
      assert forall i | 0 <= i < |calls| :: (calls + [now])[i] == calls[i];
      assert calls == before + [t];
      RunStaysInOrder(before, limit, window, t);
      assert t <= now by {
        assert (calls + [now])[|calls| - 1] == t && (calls + [now])[|calls|] == now;
      }
      LaterFits(Run(before, limit, window), t, now);
    }
  }

  /** Over any run in time order the limiter and the counting specification accept the very same calls. */
  lemma {:induction false} RunRefinesCounting(calls: seq<int>, limit: nat, window: int)
    requires limit > 0 && window > 0 && NonDecreasing(calls)
    ensures Run(calls, limit, window) == CountingRun(calls, limit, window)
  {
    if calls != [] {
      var before, now := ButLast(calls), Last(calls);
      RunRefinesCounting(before, limit, window);
      assert calls == before + [now];
      RunStaysInOrder(before, limit, window, now);
      ExactInOrder(Run(before, limit, window), limit, window, now);
    }
  }

  // ---------------------------------------------------------------- the advised wait

  /** A rejected caller succeeds after the advised wait if no other caller took the slot; it could not have
      succeeded earlier exactly when the wait left by the oldest event is a millisecond or more. */
  lemma RetryIsExact(log: seq<int>, limit: nat, window: int, now: int)
    requires limit > 0 && window > 0 && !Accepts(log, limit, window, now)
    ensures Retry(log, limit, window, now) > 0
    ensures Accepts(log, limit, window, now + Retry(log, limit, window, now))
    ensures (forall t | now <= t < now + Retry(log, limit, window, now) :: !Accepts(log, limit, window, t))
            <==> log[|log| - limit] + window - now >= MILLISECOND
  {
    var due := log[|log| - limit] + window;
    assert Accepts(log, limit, window, due);
    if due - now < MILLISECOND {
      assert now <= due < now + Retry(log, limit, window, now);
    }
  }

  /** The millisecond floor does bind for some callers: limit 1, a one-minute window, and a call one nanosecond early. */
  lemma RetryOvershoots()
    ensures var log := Run([0], 1, MINUTE);
            !Accepts(log, 1, MINUTE, MINUTE - 1)
            && Accepts(log, 1, MINUTE, MINUTE)
            && MINUTE < MINUTE - 1 + Retry(log, 1, MINUTE, MINUTE - 1)
  {
    assert Run(ButLast([0]), 1, MINUTE) == [];
    assert Run([0], 1, MINUTE) == [0];
  }
}
