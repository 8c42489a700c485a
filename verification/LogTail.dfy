/** The log tail: backlog alignment, the follow loop, and the line filter it writes into. */
module LogTail {
  import opened Common
  import opened Lines

  // ---------------------------------------------------------------- the line filter

  // One line through a grep; no grep lets all through.
  function Pass(grep: Option<string -> bool>): string -> seq<string> {
    (line: string) => if grep.None? || grep.value(line) then [line] else []
  }

  function Keep(grep: Option<string -> bool>, lines: seq<string>): seq<string> {
    FlatMap(Pass(grep), lines)
  }

  // The lines some text completes, and what is left over.
  function Complete(s: string): seq<string> {
    ButLast(Split(s))
  }

  function Rest(s: string): string {
    Last(Split(s))
  }

  lemma AppendText(s: string, p: string)
    ensures Complete(s + p) == Complete(s) + Complete(Rest(s) + p)
    ensures Rest(s + p) == Rest(Rest(s) + p)
  {
    SplitAppend(s, p);
    var l, r := Complete(s), Split(Rest(s) + p);
    assert ButLast(l + r) == l + ButLast(r);
  }

  lemma KeepAppend(grep: Option<string -> bool>, s: string, p: string)
    ensures Rest(s + p) == Rest(Rest(s) + p)
    ensures Keep(grep, Complete(s + p)) == Keep(grep, Complete(s)) + Keep(grep, Complete(Rest(s) + p))
  {
    AppendText(s, p);
    FlatMapConcat(Pass(grep), Complete(s), Complete(Rest(s) + p));
  }

  // A failed send: the kept lines before some kept line went out, in order, and no more.
  ghost predicate CutShort(grep: Option<string -> bool>, lines: seq<string>, before: seq<string>, after: seq<string>) {
    exists i :: 0 <= i < |lines| && Pass(grep)(lines[i]) != [] && after == before + Keep(grep, lines[..i])
  }

  lemma CutShortIsProper(grep: Option<string -> bool>, lines: seq<string>, before: seq<string>, after: seq<string>)
    requires CutShort(grep, lines, before, after)
    ensures after < before + Keep(grep, lines)
  {
    var i :| 0 <= i < |lines| && Pass(grep)(lines[i]) != [] && after == before + Keep(grep, lines[..i]);
    FlatMapProper(Pass(grep), lines, i);
  }

  // What is left of some lines when those the grep refuses are taken out: the lines at these positions, in order, and no
  // other position has a line that it lets through.
  ghost predicate Picks(grep: Option<string -> bool>, lines: seq<string>, out: seq<string>, at: seq<nat>) {
    && |at| == |out| && (forall i | 0 <= i < |at| :: at[i] < |lines| && out[i] == lines[at[i]])
    && (forall i, j | 0 <= i < j < |at| :: at[i] < at[j])
    && (forall n: nat | n < |lines| :: n in at <==> (grep.Some? ==> grep.value(lines[n])))
  }

  ghost predicate Filtered(grep: Option<string -> bool>, lines: seq<string>, out: seq<string>) {
    exists at :: Picks(grep, lines, out, at)
  }

  lemma PickMore(grep: Option<string -> bool>, lines: seq<string>, out: seq<string>, at: seq<nat>, line: string)
    requires Picks(grep, lines, out, at)
    ensures if grep.Some? ==> grep.value(line) then Picks(grep, lines + [line], out + [line], at + [|lines|])
            else Picks(grep, lines + [line], out, at)
  {
    var all := lines + [line];
    forall n: nat | n < |all|
      ensures n in at + [|lines|] <==> n in at || n == |lines|
      ensures n in at ==> n < |lines| {
    }
    assert forall n: nat | n < |lines| :: all[n] == lines[n];
  }

  lemma FilterMore(grep: Option<string -> bool>, lines: seq<string>, out: seq<string>, line: string)
    requires Filtered(grep, lines, out)
    ensures Filtered(grep, lines + [line], if grep.Some? ==> grep.value(line) then out + [line] else out)
  {
    var at :| Picks(grep, lines, out, at);
    PickMore(grep, lines, out, at, line);
  }

  lemma KeptNone(grep: Option<string -> bool>)
    ensures Filtered(grep, [], Keep(grep, []))
  {
    assert Picks(grep, [], Keep(grep, []), []);
  }

  lemma KeepSnoc(grep: Option<string -> bool>, lines: seq<string>, line: string)
    ensures Keep(grep, lines + [line])
            == if grep.Some? ==> grep.value(line) then Keep(grep, lines) + [line] else Keep(grep, lines)
  {
    FlatMapSnoc(Pass(grep), lines, line);
  }

  lemma KeptOneMore(grep: Option<string -> bool>, lines: seq<string>, line: string)
    requires Filtered(grep, lines, Keep(grep, lines))
    ensures Filtered(grep, lines + [line], Keep(grep, lines + [line]))
  {
    FilterMore(grep, lines, Keep(grep, lines), line);
    KeepSnoc(grep, lines, line);
  }

  /** Keeping lines one by one is taking out exactly those the grep refuses. */
  lemma {:induction false} KeepFilters(grep: Option<string -> bool>, lines: seq<string>)
    ensures Filtered(grep, lines, Keep(grep, lines))
  {
    if lines == [] {
      KeptNone(grep);
    } else {
      var before := ButLast(lines);
      assert lines == before + [Last(lines)];
      KeepFilters(grep, before);
      KeptOneMore(grep, before, Last(lines));
    }
  }

  /** Every line kept is let through by the grep, and each that is let through is kept as often as it occurs; without a grep
      all are kept. */
  lemma {:induction false} KeepCounts(grep: Option<string -> bool>, lines: seq<string>, line: string)
    ensures multiset(Keep(grep, lines))[line] == if grep.Some? && !grep.value(line) then 0 else multiset(lines)[line]
    ensures grep.None? ==> Keep(grep, lines) == lines
  {
    if lines != [] {
      KeepCounts(grep, ButLast(lines), line);
      assert lines == ButLast(lines) + [Last(lines)];
    }
  }

  // The lines sent after `before` are what the grep lets through of these.
  ghost predicate SentOf(grep: Option<string -> bool>, lines: seq<string>, before: seq<string>, after: seq<string>) {
    before <= after && Filtered(grep, lines, after[|before|..])
  }

  // They are what it lets through of those before some line that it lets through too.
  ghost predicate SentPart(grep: Option<string -> bool>, lines: seq<string>, before: seq<string>, after: seq<string>) {
    exists i :: 0 <= i < |lines| && (grep.Some? ==> grep.value(lines[i])) && SentOf(grep, lines[..i], before, after)
  }

  lemma KeptAreSent(grep: Option<string -> bool>, lines: seq<string>, before: seq<string>, after: seq<string>)
    requires after == before + Keep(grep, lines)
    ensures SentOf(grep, lines, before, after)
  {
    KeepFilters(grep, lines);
    assert after[|before|..] == Keep(grep, lines);
  }

  // The kept ones among the first i lines have gone out.
  predicate KeptUpTo(grep: Option<string -> bool>, lines: seq<string>, i: nat, before: seq<string>, after: seq<string>) {
    i <= |lines| && after == before + Keep(grep, lines[..i])
  }

  lemma KeptMore(grep: Option<string -> bool>, lines: seq<string>, i: nat, before: seq<string>, after: seq<string>,
                 next: seq<string>)
    requires KeptUpTo(grep, lines, i, before, after) && i < |lines|
    requires (grep.Some? ==> grep.value(lines[i])) ==> next == after + [lines[i]]
    requires grep.Some? && !grep.value(lines[i]) ==> next == after
    ensures KeptUpTo(grep, lines, i + 1, before, next)
  {
    assert lines[..i + 1] == lines[..i] + [lines[i]];
    KeepSnoc(grep, lines[..i], lines[i]);
    Assoc(before, Keep(grep, lines[..i]), [lines[i]]);
  }

  lemma KeptNothing(grep: Option<string -> bool>, lines: seq<string>, before: seq<string>)
    ensures KeptUpTo(grep, lines, 0, before, before)
  {
    assert lines[..0] == [] && Keep(grep, []) == [] && before + [] == before;
  }

  lemma KeptAll(grep: Option<string -> bool>, lines: seq<string>, before: seq<string>, after: seq<string>)
    requires KeptUpTo(grep, lines, |lines|, before, after)
    ensures after == before + Keep(grep, lines) && SentOf(grep, lines, before, after)
  {
    assert lines[..|lines|] == lines;
    KeptAreSent(grep, lines, before, after);
  }

  lemma CutAt(grep: Option<string -> bool>, lines: seq<string>, i: nat, before: seq<string>, after: seq<string>)
    requires KeptUpTo(grep, lines, i, before, after) && i < |lines| && (grep.Some? ==> grep.value(lines[i]))
    ensures CutShort(grep, lines, before, after) && SentPart(grep, lines, before, after)
  {
    KeptAreSent(grep, lines[..i], before, after);
  }

  lemma CutParts(a: string, b: string)
    requires OneLine(b)
    ensures Complete(a + "\n" + b) == Split(a) && Rest(a + "\n" + b) == b
  {
    SplitAt(a, b);
    SplitOneLine(b);
    SnocParts(Split(a), b);
  }

  lemma NoCut(s: string)
    requires OneLine(s)
    ensures Complete(s) == [] && Rest(s) == s
  {
    SplitOneLine(s);
  }

  lemma AroundNewline(s: string, nl: nat)
    requires nl < |s| && s[nl] == '\n'
    ensures s == s[..nl] + "\n" + s[nl + 1..]
  {
  }

  // What the last newline of a text separates.
  lemma CutAtNewline(s: string, nl: int)
    requires nl == LastNewline(s)
    ensures nl < 0 ==> Complete(s) == [] && Rest(s) == s
    ensures nl >= 0 ==> Complete(s) == Split(s[..nl]) && Rest(s) == s[nl + 1..]
  {
    if nl < 0 {
      NoCut(s);
    } else {
      AroundNewline(s, nl);
      CutParts(s[..nl], s[nl + 1..]);
    }
  }

  // What one write adds: the bytes held back and those written are cut at their last newline.
  lemma WriteStep(grep: Option<string -> bool>, before: string, p: string, s: string, nl: int)
    requires s == Rest(before) + p && nl == LastNewline(s)
    ensures nl < 0 ==>
              Rest(before + p) == s && Complete(s) == []
              && Keep(grep, Complete(before + p)) == Keep(grep, Complete(before))
    ensures nl >= 0 ==>
              Rest(before + p) == s[nl + 1..] && Complete(s) == Split(s[..nl])
              && Keep(grep, Complete(before + p)) == Keep(grep, Complete(before)) + Keep(grep, Split(s[..nl]))
  {
    KeepAppend(grep, before, p);
    CutAtNewline(s, nl);
  }

  // The writer's bookkeeping: the unfinished line is held back and, unless a send has failed, the kept ones are out.
  ghost predicate InStep(grep: Option<string -> bool>, input: string, buf: string, sent: seq<string>, attempts: nat,
                         failed: bool) {
    buf == Rest(input) && (!failed ==> sent == Keep(grep, Complete(input)) && attempts == |sent|)
  }

  lemma HeldBack(grep: Option<string -> bool>, before: string, p: string, s: string, sent: seq<string>, attempts: nat,
                 failed: bool)
    requires InStep(grep, before, Rest(before), sent, attempts, failed) && s == Rest(before) + p && LastNewline(s) < 0
    ensures InStep(grep, before + p, s, sent, attempts, failed)
    ensures Keep(grep, Complete(s)) == []
  {
    WriteStep(grep, before, p, s, LastNewline(s));
  }

  lemma SentOn(grep: Option<string -> bool>, before: string, p: string, s: string, nl: int, sent: seq<string>,
               attempts: nat, failed: bool, sent': seq<string>, attempts': nat, ok: bool)
    requires InStep(grep, before, Rest(before), sent, attempts, failed)
    requires s == Rest(before) + p && nl == LastNewline(s) && nl >= 0
    requires ok ==> sent' == sent + Keep(grep, Split(s[..nl]))
    requires !ok ==> CutShort(grep, Split(s[..nl]), sent, sent')
    requires attempts' == attempts + |sent'| - |sent| + if ok then 0 else 1
    ensures Split(s[..nl]) == Complete(s)
    ensures InStep(grep, before + p, s[nl + 1..], sent', attempts', failed || !ok)
    ensures !ok && !failed ==> sent' < Keep(grep, Complete(before + p)) && attempts' == |sent'| + 1
  {
    WriteStep(grep, before, p, s, nl);
    if !ok {
      CutShortIsProper(grep, Split(s[..nl]), sent, sent');
    }
  }

  class LineFilterWriter {
    const grep: Option<string -> bool>
    const sendOk: nat -> bool  // whether the n-th send succeeds
    var buf: string
    var sent: seq<string>      // the lines sent successfully, in order
    var attempts: nat
    ghost var input: string    // every byte ever written here
    ghost var failed: bool     // whether some send has failed

    ghost predicate Valid()
      reads this
    {
      InStep(grep, input, buf, sent, attempts, failed)
    }

    // A send was refused: only lines before that one have gone out.
    ghost predicate Refused()
      reads this
    {
      failed && attempts == |sent| + 1 && !sendOk(|sent|) && sent < Keep(grep, Complete(input))
    }

    constructor (grep: Option<string -> bool>, sendOk: nat -> bool)
      ensures Valid() && input == "" && !failed && sent == []
      ensures this.grep == grep && this.sendOk == sendOk
    {
      this.grep, this.sendOk := grep, sendOk;
      buf, sent, attempts, input, failed := "", [], 0, "", false;
    }

    /** `Write`: whatever the chunking, the lines sent depend only on the bytes written so far. */
    method Write(p: string) returns (n: nat, ok: bool)
      requires Valid()
      modifies this
      ensures Valid() && n == |p| && input == old(input) + p && failed == (old(failed) || !ok)
      ensures ok ==> sent == old(sent) + Keep(grep, Complete(old(buf) + p))
      ensures !ok ==> CutShort(grep, Complete(old(buf) + p), old(sent), sent)
      ensures if ok then SentOf(grep, Complete(old(buf) + p), old(sent), sent)
              else SentPart(grep, Complete(old(buf) + p), old(sent), sent)
      ensures !ok && !old(failed) ==> Refused()
    {
      n := |p|;
      var s := buf + p;
      var nl := LastNewline(s);
      buf, input := s, input + p;
      if nl < 0 {
        HeldBack(grep, old(input), p, s, sent, attempts, failed);
        KeptAreSent(grep, Complete(s), sent, sent);
        return n, true;
      }
      var complete, rest := s[..nl], s[nl + 1..];
      buf := rest;
      ok := SendLines(Split(complete));
      SentOn(grep, old(input), p, s, nl, old(sent), old(attempts), old(failed), sent, attempts, ok);
    }

    // One line: kept back by the grep, or an attempt to send it.
    method SendLine(line: string) returns (ok: bool)
      modifies this`sent, this`attempts, this`failed
      ensures ok && (grep.Some? ==> grep.value(line)) ==> sent == old(sent) + [line]
      ensures grep.Some? && !grep.value(line) ==> ok && sent == old(sent)
      ensures ok ==> failed == old(failed)
      ensures !ok ==> failed && sent == old(sent) && attempts > 0 && !sendOk(attempts - 1)
      ensures !ok ==> grep.Some? ==> grep.value(line)
      ensures attempts == old(attempts) + |sent| - |old(sent)| + if ok then 0 else 1
    {
      if grep.Some? && !grep.value(line) {
        return true;
      }
      attempts := attempts + 1;
      if !sendOk(attempts - 1) {
        failed := true;
        return false;
      }
      sent := sent + [line];
      return true;
    }

    // The send loop: stops at the first line that cannot be sent.
    method SendLines(lines: seq<string>) returns (ok: bool)
      modifies this`sent, this`attempts, this`failed
      ensures failed == (old(failed) || !ok)
      ensures ok ==> sent == old(sent) + Keep(grep, lines)
      ensures !ok ==> attempts > 0 && !sendOk(attempts - 1) && CutShort(grep, lines, old(sent), sent)
      ensures if ok then SentOf(grep, lines, old(sent), sent) else SentPart(grep, lines, old(sent), sent)
      ensures attempts == old(attempts) + |sent| - |old(sent)| + if ok then 0 else 1
    {
      KeptNothing(grep, lines, sent);
      for i := 0 to |lines|
        invariant KeptUpTo(grep, lines, i, old(sent), sent) && failed == old(failed)
        invariant attempts == old(attempts) + |sent| - |old(sent)|
      {
        ghost var before := sent;
        ok := SendLine(lines[i]);
        if !ok {
          CutAt(grep, lines, i, old(sent), sent);
          return;
        }
        KeptMore(grep, lines, i, old(sent), before, sent);
      }
      KeptAll(grep, lines, old(sent), sent);
      ok := true;
    }
  }

  // ---------------------------------------------------------------- where the backlog starts

  const DEFAULT_BACKLOG := 65536

  function BacklogStart(size: nat, backlog: int): nat {
    var b := if backlog <= 0 then DEFAULT_BACKLOG else backlog;
    if size > b then size - b else 0
  }

  // After the line that the cut fell in, if its end can be found.
  function AlignedStart(file: string, size: nat, backlog: int): nat {
    var start := BacklogStart(size, backlog);
    if start > 0 && NextNewline(file, start) >= 0 then NextNewline(file, start) + 1 else start
  }

  method AlignBacklog(file: string, size: nat, backlog: int) returns (pos: nat)
    ensures pos == AlignedStart(file, size, backlog)
    ensures
      var most := if backlog <= 0 then 65536 else backlog;
      && (size <= most ==> pos == 0)
      && (size > most ==>
            && size - most <= pos
            && (pos > size - most ==> pos <= |file| && file[pos - 1] == '\n' && OneLine(file[size - most..pos - 1]))
            && (pos == size - most < |file| ==> OneLine(file[pos..])))
  {
    var b := backlog;
    if b <= 0 {
      b := DEFAULT_BACKLOG;
    }
    var start := 0;
    if size > b {
      start := size - b;
    }
    pos := start;
    if start > 0 {
      var nl := NextNewline(file, start);
      if nl >= 0 {
        pos := nl + 1;
      }
    }
  }

  /** The backlog starts at the file's start, or at the first line start after the cut; the cut itself is kept
      only when no line ends after it. */
  lemma AlignmentMeans(file: string, size: nat, backlog: int)
    requires size <= |file|
    ensures var start, pos := BacklogStart(size, backlog), AlignedStart(file, size, backlog);
            && start <= pos <= |file|
            && (pos > start ==> file[pos - 1] == '\n' && OneLine(file[start..pos - 1]))
            && (pos == start ==> start == 0 || OneLine(file[start..]))
  {
  }

  /** From an aligned start on, the lines of a slice are lines of the file. */
  lemma SliceLines(file: string, start: nat, end: nat)
    requires 0 < start <= end <= |file| && file[start - 1] == '\n'
    ensures Split(file[..end]) == Split(file[..start - 1]) + Split(file[start..end])
  {
    assert file[..end] == file[..start - 1] + "\n" + file[start..end];
    SplitAt(file[..start - 1], file[start..end]);
  }

  // ---------------------------------------------------------------- following a file

  const BUFFER := 8192

  const MARKER_LINE := "--- log rotated / truncated ---"

  const MARKER := "\n" + MARKER_LINE + "\n"

  // What the loop does next, with the file as it is at that moment; a read may return fewer bytes than there are.
  datatype Op = Read(file: string, most: nat) | Poll(file: string)

  // The offset, and the bytes forwarded in each epoch; a new epoch begins at each truncation seen.
  datatype Follow = Follow(pos: nat, epochs: seq<string>)

  // How many bytes a read at pos returns.
  function Taken(pos: nat, file: string, most: nat): nat {
    var limit := if most == 0 then 1 else if most > BUFFER then BUFFER else most;
    if pos >= |file| then 0 else if |file| - pos < limit then |file| - pos else limit
  }

  function After(f: Follow, op: Op): (g: Follow)
    requires f.epochs != []
    ensures g.epochs != []
  {
    match op
    case Read(file, most) =>
      var n := Taken(f.pos, file, most);
      if n == 0 then f
      else Follow(f.pos + n, ButLast(f.epochs) + [Last(f.epochs) + file[f.pos..f.pos + n]])
    case Poll(file) => if |file| < f.pos then Follow(0, f.epochs + [""]) else f
  }

  function Run(start: nat, ops: seq<Op>): (f: Follow)
    ensures f.epochs != []
  {
    if ops == [] then Follow(start, [""]) else After(Run(start, ButLast(ops)), Last(ops))
  }

  predicate Truncates(f: Follow, op: Op) {
    op.Poll? && |op.file| < f.pos
  }

  predicate Yields(f: Follow, op: Op) {
    op.Read? && Taken(f.pos, op.file, op.most) > 0
  }

  lemma AfterYield(f: Follow, op: Op)
    requires f.epochs != [] && Yields(f, op)
    ensures var to := After(f, op).pos;
            f.pos <= to <= |op.file| && After(f, op) == Follow(to, ButLast(f.epochs) + [Last(f.epochs) + op.file[f.pos..to]])
  {
  }

  // Everything forwarded: the epochs with a marker between them.
  function Output(epochs: seq<string>): string
    requires epochs != []
  {
    if |epochs| == 1 then epochs[0] else Output(ButLast(epochs)) + MARKER + Last(epochs)
  }

  /** A read moves on exactly if the file is longer than the offset; a poll rewinds exactly if it is shorter, and then begins
      a new epoch. After either the offset lies within the file, unless the file is shorter and only a read has met it. */
  lemma OpsMean(f: Follow, op: Op)
    requires f.epochs != []
    ensures
      var g := After(f, op);
      && (op.Read? && f.pos < |op.file| ==> f.pos < g.pos <= |op.file| && |g.epochs| == |f.epochs|)
      && (op.Read? && f.pos >= |op.file| ==> g == f)
      && (op.Poll? && f.pos <= |op.file| ==> g == f)
      && (op.Poll? && f.pos > |op.file| ==> g.pos == 0 && g.epochs == f.epochs + [""])
  {
  }

  lemma OutputMore(epochs: seq<string>, bytes: string)
    requires epochs != []
    ensures Output(ButLast(epochs) + [Last(epochs) + bytes]) == Output(epochs) + bytes
  {
    SnocParts(ButLast(epochs), Last(epochs) + bytes);
  }

  lemma RunSnoc(start: nat, ops: seq<Op>, op: Op)
    ensures Run(start, ops + [op]) == After(Run(start, ops), op)
  {
    SnocParts(ops, op);
  }

  lemma OutputMarked(epochs: seq<string>)
    requires epochs != []
    ensures Output(epochs + [""]) == Output(epochs) + MARKER
  {
    SnocParts(epochs, "");
    assert Output(epochs) + MARKER + "" == Output(epochs) + MARKER;
  }

  // The last operation was a read that found nothing.
  predicate Idle(start: nat, ops: seq<Op>) {
    ops != [] && Last(ops).Read? && Taken(Run(start, ButLast(ops)).pos, Last(ops).file, Last(ops).most) == 0
  }

  // The loop's first n operations, the file being world(k) at the k-th: a poll after each read that finds nothing,
  // otherwise a read.
  function Schedule(start: nat, world: nat -> string, most: nat -> nat, n: nat): (ops: seq<Op>)
    ensures |ops| == n
  {
    if n == 0 then []
    else
      var before := Schedule(start, world, most, n - 1);
      before + [if Idle(start, before) then Poll(world(n - 1)) else Read(world(n - 1), most(n - 1))]
  }

  function FollowAt(start: nat, world: nat -> string, most: nat -> nat, n: nat): (f: Follow)
    ensures f.epochs != []
  {
    Run(start, Schedule(start, world, most, n))
  }

  lemma ScheduleStep(start: nat, world: nat -> string, most: nat -> nat, n: nat)
    ensures
      var ops, f := Schedule(start, world, most, n), FollowAt(start, world, most, n);
      var op := if Idle(start, ops) then Poll(world(n)) else Read(world(n), most(n));
      && FollowAt(start, world, most, n + 1) == After(f, op)
      && (Idle(start, Schedule(start, world, most, n + 1)) <==> op.Read? && Taken(f.pos, op.file, op.most) == 0)
  {
    var ops := Schedule(start, world, most, n);
    var op := if Idle(start, ops) then Poll(world(n)) else Read(world(n), most(n));
    assert Schedule(start, world, most, n + 1) == ops + [op];
    SnocParts(ops, op);
    RunSnoc(start, ops, op);
  }

  /** The loop polls exactly after a read that met the file no longer than the offset. */
  lemma PollsAfterIdleRead(start: nat, world: nat -> string, most: nat -> nat, n: nat)
    ensures
      var ops := Schedule(start, world, most, n + 1);
      ops[n].Poll? <==> n > 0 && ops[n - 1].Read? && |world(n - 1)| <= FollowAt(start, world, most, n - 1).pos
  {
    var ops := Schedule(start, world, most, n);
    if n > 0 {
      ScheduleStep(start, world, most, n - 1);
      var before := Schedule(start, world, most, n - 1);
      assert ops[n - 1] == if Idle(start, before) then Poll(world(n - 1)) else Read(world(n - 1), most(n - 1));
      assert Schedule(start, world, most, n + 1)[n - 1] == ops[n - 1];
    }
  }

  /** A file found shorter than the offset by two operations in a row has been noticed: by then a new epoch has begun. */
  lemma TruncationNoticed(start: nat, world: nat -> string, most: nat -> nat, n: nat)
    requires var pos := FollowAt(start, world, most, n).pos; |world(n)| < pos && |world(n + 1)| < pos
    ensures |FollowAt(start, world, most, n + 2).epochs| == |FollowAt(start, world, most, n).epochs| + 1
  {
    ScheduleStep(start, world, most, n);
    ScheduleStep(start, world, most, n + 1);
  }

  // The part of a write that the follow loop depends on.
  method Forward(out: LineFilterWriter, bytes: string) returns (ok: bool)
    requires out.Valid() && !out.failed
    modifies out
    ensures out.Valid() && out.input == old(out.input) + bytes
    ensures ok == !out.failed && (!ok ==> out.Refused())
  {
    var _, sentOk := out.Write(bytes);
    ok := sentOk;
  }

  // What the writer has taken in is `base` and then everything forwarded so far.
  ghost predicate Caught(out: LineFilterWriter, base: string, f: Follow)
    reads out
  {
    out.Valid() && f.epochs != [] && out.input == base + Output(f.epochs)
  }

  lemma ReadForwards(base: string, f: Follow, op: Op)
    requires f.epochs != [] && Yields(f, op)
    ensures var to := After(f, op).pos;
            f.pos <= to <= |op.file|
            && base + Output(After(f, op).epochs) == (base + Output(f.epochs)) + op.file[f.pos..to]
  {
    var bytes := op.file[f.pos..After(f, op).pos];
    AfterYield(f, op);
    OutputMore(f.epochs, bytes);
    Assoc(base, Output(f.epochs), bytes);
  }

  method ReadOnce(ghost f: Follow, ghost base: string, lastPos: nat, file: string, most: nat, out: LineFilterWriter)
    returns (n: nat, ok: bool)
    requires Caught(out, base, f) && !out.failed && f.pos == lastPos
    modifies out
    ensures Caught(out, base, After(f, Read(file, most)))
    ensures n == Taken(lastPos, file, most) && After(f, Read(file, most)).pos == lastPos + n
    ensures ok == !out.failed && (!ok ==> out.Refused())
  {
    n, ok := Taken(lastPos, file, most), true;
    if n > 0 {
      ReadForwards(base, f, Read(file, most));
      ok := Forward(out, file[lastPos..lastPos + n]);
    }
  }

  method PollOnce(ghost f: Follow, ghost base: string, lastPos: nat, file: string, out: LineFilterWriter)
    returns (pos: nat, ok: bool)
    requires Caught(out, base, f) && !out.failed && f.pos == lastPos
    modifies out
    ensures Caught(out, base, After(f, Poll(file))) && After(f, Poll(file)).pos == pos
    ensures ok == !out.failed && (!ok ==> out.Refused())
  {
    pos, ok := lastPos, true;
    if |file| < lastPos {
      pos := 0;
      OutputMarked(f.epochs);
      Assoc(base, Output(f.epochs), MARKER);
      ok := Forward(out, MARKER);
    }
  }

  /** `Tail`: for any file history, any read sizes and any time of cancellation, what reaches the writer is the
      output of the follow loop up to that time; or up to the first refused send. */
  method Tail(first: string, size: nat, world: nat -> string, most: nat -> nat, cancelAt: nat, backlog: int,
              out: LineFilterWriter)
    returns (ok: bool)
    requires out.Valid() && !out.failed
    modifies out
    ensures out.Valid() && ok == !out.failed
    ensures var start := AlignedStart(first, size, backlog);
            if ok then out.input == old(out.input) + Output(FollowAt(start, world, most, cancelAt).epochs)
            else out.Refused() && exists n: nat | n <= cancelAt ::
                                    out.input == old(out.input) + Output(FollowAt(start, world, most, n).epochs)
  {
    var start := AlignBacklog(first, size, backlog);
    var lastPos, tick, n := start, 0, 0;
    ok := true;
    ghost var base := out.input;
    assert FollowAt(start, world, most, 0) == Follow(start, [""]) && base + "" == base;
    while tick < cancelAt
      invariant tick <= cancelAt && !out.failed && ok
      invariant tick < cancelAt ==> !Idle(start, Schedule(start, world, most, tick))
      invariant FollowAt(start, world, most, tick).pos == lastPos && Caught(out, base, FollowAt(start, world, most, tick))
    {
      ghost var f := FollowAt(start, world, most, tick);
      ScheduleStep(start, world, most, tick);
      n, ok := ReadOnce(f, base, lastPos, world(tick), most(tick), out);
      tick := tick + 1;
      if !ok {
        return;
      }
      lastPos := lastPos + n;
      if n == 0 && tick < cancelAt {
        f := FollowAt(start, world, most, tick);
        ScheduleStep(start, world, most, tick);
        lastPos, ok := PollOnce(f, base, lastPos, world(tick), out);
        tick := tick + 1;
        if !ok {
          return;
        }
      }
    }
  }

  // The lines a grep keeps among the completed lines of the epochs.
  function KeptLines(grep: Option<string -> bool>, epochs: seq<string>): seq<string>
    requires epochs != []
  {
    Keep(grep, ButLast(EpochLines(epochs)))
  }

  function ErrorNotice(error: string): string {
    "\n--- error: " + error + " ---"
  }

  /** `logsTailWS`: a tail writing into a new line filter. The lines sent are those the grep keeps among the completed
      lines of the epochs, and the unfinished line of the current epoch is held back; or, if a send is refused, the
      kept lines before the refused one, and one attempt more to say what the error was. */
  method LogsTailWS(grep: Option<string -> bool>, sendOk: nat -> bool, first: string, size: nat, world: nat -> string,
                    most: nat -> nat, cancelAt: nat, backlog: int, error: string)
    returns (sent: seq<string>, held: string, ok: bool, notice: Option<string>)
    ensures
      var start := AlignedStart(first, size, backlog);
      if ok then
        var epochs := FollowAt(start, world, most, cancelAt).epochs;
        sent == KeptLines(grep, epochs) && held == Rest(Last(epochs)) && Filtered(grep, ButLast(EpochLines(epochs)), sent)
      else
        !sendOk(|sent|) && exists n: nat | n <= cancelAt :: sent < KeptLines(grep, FollowAt(start, world, most, n).epochs)
    ensures
      var start := AlignedStart(first, size, backlog);
      var pos, file := FollowAt(start, world, most, cancelAt).pos, FileAt(first, world, cancelAt);
      ok && size <= |first| && Growing(first, world) ==>
        start <= pos <= |file| && sent == Keep(grep, Complete(file[start..pos])) && held == Rest(file[start..pos])
    ensures notice == if !ok && sendOk(|sent| + 1) then Some(ErrorNotice(error)) else None
  {
    var out := new LineFilterWriter(grep, sendOk);
    ok := Tail(first, size, world, most, cancelAt, backlog, out);
    sent, held, notice := out.sent, out.buf, None;
    if !ok && sendOk(out.attempts) {
      notice := Some("\n--- error: " + error + " ---");
    }
    ghost var start := AlignedStart(first, size, backlog);
    if ok {
      FromEmpty(out.input, FollowAt(start, world, most, cancelAt).epochs, grep);
      KeepFilters(grep, ButLast(EpochLines(FollowAt(start, world, most, cancelAt).epochs)));
      if size <= |first| && Growing(first, world) {
        AlignmentMeans(first, size, backlog);
        GrowingFileLines(first, start, world, most, cancelAt, grep);
      }
    } else {
      ghost var n: nat :| n <= cancelAt && out.input == "" + Output(FollowAt(start, world, most, n).epochs);
      FromEmpty(out.input, FollowAt(start, world, most, n).epochs, grep);
    }
  }

  lemma FromEmpty(input: string, epochs: seq<string>, grep: Option<string -> bool>)
    requires epochs != [] && input == "" + Output(epochs)
    ensures Keep(grep, Complete(input)) == KeptLines(grep, epochs)
    ensures Rest(input) == Rest(Last(epochs))
  {
    TailSendsLines(epochs, grep);
    assert input == Output(epochs);
  }

  // ---------------------------------------------------------------- forwarded bytes are file bytes

  // The file last read from, or rewound to.
  function Source(first: string, start: nat, ops: seq<Op>): string {
    if ops == [] then first
    else if Yields(Run(start, ButLast(ops)), Last(ops)) || Truncates(Run(start, ButLast(ops)), Last(ops)) then Last(ops).file
    else Source(first, start, ButLast(ops))
  }

  predicate SameUpTo(a: string, b: string, n: nat) {
    n <= |a| && n <= |b| && a[..n] == b[..n]
  }

  // Whenever a read returns something, what lies before the offset is as it was at the last such read or rewind. In
  // between the file may be anything, at any moment: shorter, rewritten, grown again.
  predicate Steady(first: string, start: nat, ops: seq<Op>) {
    ops == [] ||
    (&& Steady(first, start, ButLast(ops))
     && var f := Run(start, ButLast(ops));
        Yields(f, Last(ops)) ==> SameUpTo(Source(first, start, ButLast(ops)), Last(ops).file, f.pos))
  }

  datatype Slice = Slice(file: string, from: nat, to: nat)

  // For each epoch, the file it was last read from and the part of it that was read.
  function Slices(first: string, start: nat, ops: seq<Op>): (r: seq<Slice>)
    ensures r != []
  {
    if ops == [] then [Slice(first, start, start)]
    else
      var r, f, op := Slices(first, start, ButLast(ops)), Run(start, ButLast(ops)), Last(ops);
      if Truncates(f, op) then r + [Slice(op.file, 0, 0)]
      else if Yields(f, op) then ButLast(r) + [Slice(op.file, Last(r).from, After(f, op).pos)]
      else r
  }

  predicate Shows(s: Slice, bytes: string) {
    s.from <= s.to <= |s.file| && bytes == s.file[s.from..s.to]
  }

  // Every epoch shows its slice: the first from the start, later ones from offset 0, the last one up to the offset.
  ghost predicate Matches(r: seq<Slice>, f: Follow, file: string, start: nat) {
    && |r| == |f.epochs| && r != []
    && (forall j | 0 <= j < |r| :: Shows(r[j], f.epochs[j]) && r[j].from == if j == 0 then start else 0)
    && Last(r).to == f.pos && Last(r).file == file
  }

  /** Every epoch forwards exactly one slice of the file: the first from the aligned start, every later one from offset 0,
      the current one up to the offset; wherever among reads and polls the truncations fall. */
  lemma {:induction false} EpochsAreSlices(first: string, start: nat, ops: seq<Op>)
    requires start <= |first| && Steady(first, start, ops)
    ensures Matches(Slices(first, start, ops), Run(start, ops), Source(first, start, ops), start)
  {
    if ops != [] {
      var before, op := ButLast(ops), Last(ops);
      EpochsAreSlices(first, start, before);
      var r, f, file := Slices(first, start, before), Run(start, before), Source(first, start, before);
      if Truncates(f, op) {
        SliceStarts(r, f, file, op, start);
      } else if Yields(f, op) {
        SliceGrows(r, f, file, op, start);
      }
    }
  }

  lemma SliceStarts(r: seq<Slice>, f: Follow, file: string, op: Op, start: nat)
    requires f.epochs != [] && Matches(r, f, file, start) && Truncates(f, op)
    ensures Matches(r + [Slice(op.file, 0, 0)], After(f, op), op.file, start)
  {
    assert op.file[0..0] == "";
  }

  // Only the last epoch and its slice change.
  lemma LastSliceGrows(r: seq<Slice>, f: Follow, file: string, start: nat, last: Slice, bytes: string)
    requires f.epochs != [] && Matches(r, f, file, start)
    requires last.from == Last(r).from && Shows(last, bytes)
    ensures Matches(ButLast(r) + [last], Follow(last.to, ButLast(f.epochs) + [bytes]), last.file, start)
  {
  }

  lemma SliceGrows(r: seq<Slice>, f: Follow, file: string, op: Op, start: nat)
    requires f.epochs != [] && Matches(r, f, file, start) && Yields(f, op) && SameUpTo(file, op.file, f.pos)
    ensures Matches(ButLast(r) + [Slice(op.file, Last(r).from, After(f, op).pos)], After(f, op), op.file, start)
  {
    var now, from, to := op.file, Last(r).from, After(f, op).pos;
    AfterYield(f, op);
    assert Shows(Last(r), Last(f.epochs));
    SliceExtends(file, now, from, f.pos, to);
    LastSliceGrows(r, f, file, start, Slice(now, from, to), Last(f.epochs) + now[f.pos..to]);
  }

  lemma SliceExtends(file: string, now: string, from: nat, pos: nat, to: nat)
    requires SameUpTo(file, now, pos) && from <= pos <= to <= |now|
    ensures file[from..pos] + now[pos..to] == now[from..to]
  {
    assert file[from..pos] == file[..pos][from..] == now[..pos][from..] == now[from..pos];
  }

  lemma SteadySnoc(first: string, start: nat, ops: seq<Op>, op: Op, f: Follow, source: string)
    requires f == Run(start, ops) && source == Source(first, start, ops)
    ensures Run(start, ops + [op]) == After(f, op)
    ensures Source(first, start, ops + [op]) == if Yields(f, op) || Truncates(f, op) then op.file else source
    ensures Steady(first, start, ops + [op]) <==> Steady(first, start, ops) && (Yields(f, op) ==> SameUpTo(source, op.file, f.pos))
  {
    SnocParts(ops, op);
  }

  // A file of two bytes is read to its end, and cut down before the next read.
  const CUT_DOWN := [] + [Read("ab", 2)] + [Read("", 2)]

  const AT_END := Follow(2, ["ab"])

  lemma CutDown()
    ensures Run(0, CUT_DOWN) == AT_END && Source("ab", 0, CUT_DOWN) == "ab" && Steady("ab", 0, CUT_DOWN)
  {
    SteadySnoc("ab", 0, [], Read("ab", 2), Follow(0, [""]), "ab");
    assert "ab"[0..2] == "ab" && "" + "ab" == "ab" && "ab"[..0] == "";
    assert After(Follow(0, [""]), Read("ab", 2)) == AT_END;
    SteadySnoc("ab", 0, [] + [Read("ab", 2)], Read("", 2), AT_END, "ab");
  }

  /** A truncation first met by a read is one of the cases: the read returns nothing, the next poll rewinds. */
  lemma TruncationBetweenReads()
    ensures Steady("ab", 0, CUT_DOWN + [Poll("")]) && Run(0, CUT_DOWN + [Poll("")]).epochs == ["ab", ""]
  {
    CutDown();
    SteadySnoc("ab", 0, CUT_DOWN, Poll(""), AT_END, "ab");
  }

  // It has grown past the offset again by the time of the poll.
  const REGROWN := CUT_DOWN + [Poll("xyz")]

  lemma Regrown()
    ensures Run(0, REGROWN) == AT_END && Source("ab", 0, REGROWN) == "ab"
  {
    CutDown();
    SteadySnoc("ab", 0, CUT_DOWN, Poll("xyz"), AT_END, "ab");
  }

  lemma NoPiece(file: string, i: nat, j: nat)
    requires file in {"ab", "", "xyz"} && i <= j <= |file|
    ensures file[i..j] != ['a', 'b', 'z']
  {
    if |file[i..j]| == 3 {
      assert file[i..j][0] == file[0];
    }
  }

  // The read after that: on from the old offset.
  lemma RegrownRead()
    ensures After(AT_END, Read("xyz", 2)).epochs == [['a', 'b', 'z']] && Yields(AT_END, Read("xyz", 2))
    ensures !SameUpTo("ab", "xyz", 2)
  {
    assert "xyz"[2..3] == ['z'] && "ab" + ['z'] == ['a', 'b', 'z'];
    assert "ab"[..2][0] == 'a' && "xyz"[..2][0] == 'x';
  }

  /** A truncation the loop never sees: what is forwarded is a piece of none of the files there were. */
  lemma UnseenTruncation()
    ensures !Steady("ab", 0, REGROWN + [Read("xyz", 2)])
    ensures Run(0, REGROWN + [Read("xyz", 2)]).epochs == [['a', 'b', 'z']]
    ensures forall file, i, j | file in {"ab", "", "xyz"} && 0 <= i <= j <= |file| :: file[i..j] != ['a', 'b', 'z']
  {
    Regrown();
    RegrownRead();
    SteadySnoc("ab", 0, REGROWN, Read("xyz", 2), AT_END, "ab");
    forall file, i, j | file in {"ab", "", "xyz"} && 0 <= i <= j <= |file| ensures file[i..j] != ['a', 'b', 'z'] {
      NoPiece(file, i, j);
    }
  }

  // ---------------------------------------------------------------- a file that only grows

  function LastFile(first: string, ops: seq<Op>): string {
    if ops == [] then first else Last(ops).file
  }

  predicate GrowOnly(first: string, ops: seq<Op>) {
    ops == [] || (GrowOnly(first, ButLast(ops)) && LastFile(first, ButLast(ops)) <= Last(ops).file)
  }

  lemma {:induction false} GrowOnlySteady(first: string, start: nat, ops: seq<Op>)
    requires start <= |first| && GrowOnly(first, ops)
    ensures Steady(first, start, ops) && |Run(start, ops).epochs| == 1
    ensures Source(first, start, ops) <= LastFile(first, ops)
    ensures start <= Run(start, ops).pos <= |Source(first, start, ops)|
  {
    if ops != [] {
      GrowOnlySteady(first, start, ButLast(ops));
    }
  }

  /** For a file that only grows there is one epoch: the bytes forwarded are the file from the aligned start to the offset. */
  lemma GrowOnlyIsOneEpoch(first: string, start: nat, ops: seq<Op>)
    requires start <= |first| && GrowOnly(first, ops)
    ensures start <= Run(start, ops).pos <= |LastFile(first, ops)|
    ensures Run(start, ops).epochs == [LastFile(first, ops)[start..Run(start, ops).pos]]
  {
    GrowOnlySteady(first, start, ops);
    EpochsAreSlices(first, start, ops);
    var file, source, pos := LastFile(first, ops), Source(first, start, ops), Run(start, ops).pos;
    var slice := Slices(first, start, ops)[0];
    assert Shows(slice, Run(start, ops).epochs[0]) && slice == Slice(source, start, pos);
    assert source[start..pos] == file[start..pos];
  }

  // The file at moment k is world(k); it was `first` when the tail was opened.
  ghost predicate Growing(first: string, world: nat -> string) {
    first <= world(0) && forall j: nat, k: nat | j <= k :: world(j) <= world(k)
  }

  function FileAt(first: string, world: nat -> string, n: nat): string {
    if n == 0 then first else world(n - 1)
  }

  lemma {:induction false} ScheduleGrows(first: string, start: nat, world: nat -> string, most: nat -> nat, n: nat)
    requires Growing(first, world)
    ensures GrowOnly(first, Schedule(start, world, most, n))
    ensures LastFile(first, Schedule(start, world, most, n)) == FileAt(first, world, n)
  {
    if n > 0 {
      ScheduleGrows(first, start, world, most, n - 1);
      var before := Schedule(start, world, most, n - 1);
      SnocParts(before, Last(Schedule(start, world, most, n)));
    }
  }

  /** A tail of a file that only grows: whatever the read sizes and moments, after n operations the kept lines are those of
      file[start..offset] and the bytes held back are its unfinished line. */
  lemma GrowingFileLines(first: string, start: nat, world: nat -> string, most: nat -> nat, n: nat,
                         grep: Option<string -> bool>)
    requires start <= |first| && Growing(first, world)
    ensures
      var f, file := FollowAt(start, world, most, n), FileAt(first, world, n);
      && start <= f.pos <= |file|
      && KeptLines(grep, f.epochs) == Keep(grep, Complete(file[start..f.pos]))
      && Rest(Last(f.epochs)) == Rest(file[start..f.pos])
  {
    ScheduleGrows(first, start, world, most, n);
    GrowOnlyIsOneEpoch(first, start, Schedule(start, world, most, n));
  }

  // ---------------------------------------------------------------- lines sent

  // The lines of all epochs: a truncation ends the line in progress and adds the marker's own line.
  function EpochLines(epochs: seq<string>): (ls: seq<string>)
    requires epochs != []
    ensures ls != []
  {
    if |epochs| == 1 then Split(epochs[0])
    else EpochLines(ButLast(epochs)) + [MARKER_LINE] + Split(Last(epochs))
  }

  lemma MarkedText(o: string, mark: string, e: string)
    ensures o + ("\n" + mark + "\n") + e == (o + "\n" + mark) + "\n" + e
  {
  }

  lemma MarkedLines(o: string, mark: string, e: string)
    requires OneLine(mark)
    ensures Split(o + ("\n" + mark + "\n") + e) == Split(o) + [mark] + Split(e)
  {
    SplitAt(o, mark);
    SplitOneLine(mark);
    SplitAt(o + "\n" + mark, e);
    MarkedText(o, mark, e);
  }

  lemma {:induction false} OutputLines(epochs: seq<string>)
    requires epochs != []
    ensures Split(Output(epochs)) == EpochLines(epochs)
  {
    if |epochs| > 1 {
      OutputLines(ButLast(epochs));
      MarkedLines(Output(ButLast(epochs)), MARKER_LINE, Last(epochs));
    }
  }

  /** A fresh line filter fed by the tail has sent exactly the lines its grep keeps among the completed lines of the
      epochs, and holds back the unfinished line of the current one. */
  lemma TailSendsLines(epochs: seq<string>, grep: Option<string -> bool>)
    requires epochs != []
    ensures Keep(grep, Complete(Output(epochs))) == KeptLines(grep, epochs)
    ensures Rest(Output(epochs)) == Rest(Last(epochs))
  {
    OutputLines(epochs);
    LastLine(epochs);
  }

  lemma LastLine(epochs: seq<string>)
    requires epochs != []
    ensures Last(EpochLines(epochs)) == Rest(Last(epochs))
  {
  }
}
