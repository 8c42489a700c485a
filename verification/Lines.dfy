/** Newline-separated text: `strings.Split(s, "\n")` and its inverse. Newlines are the same whether a char
    stands for a byte or for a character. */
module Lines {
  import opened Common

  // The pieces after one more character.
  function Feed(ls: seq<string>, c: char): (r: seq<string>)
    requires ls != []
    ensures r != []
  {
    if c == '\n' then ls + [""] else ButLast(ls) + [Last(ls) + [c]]
  }

  // The pieces between newlines; always at least one.
  function Split(s: string): (ls: seq<string>)
    ensures ls != []
  {
    if s == "" then [""] else Feed(Split(ButLast(s)), Last(s))
  }

  lemma FeedConcat(l: seq<string>, r: seq<string>, c: char)
    requires r != []
    ensures Feed(l + r, c) == l + Feed(r, c)
  {
    assert ButLast(l + r) == l + ButLast(r);
  }

  lemma SplitSnoc(s: string, c: char)
    ensures Split(s + [c]) == Feed(Split(s), c)
  {
    SnocParts(s, c);
  }

  /** Splitting resumes from the last, unfinished piece. */
  lemma {:induction false} SplitAppend(s: string, p: string)
    ensures Split(s + p) == ButLast(Split(s)) + Split(Last(Split(s)) + p)
  {
    var done, r := ButLast(Split(s)), Last(Split(s));
    if p == "" {
      SplitPieces(s);
      SplitOneLine(r);
      assert s + p == s && r + p == r && Split(s) == done + [r];
    } else {
      SplitAppend(s, ButLast(p));
      assert s + p == (s + ButLast(p)) + [Last(p)] && r + p == (r + ButLast(p)) + [Last(p)];
      SplitSnoc(s + ButLast(p), Last(p));
      SplitSnoc(r + ButLast(p), Last(p));
      FeedConcat(done, Split(r + ButLast(p)), Last(p));
    }
  }

  lemma SplitAt(a: string, b: string)
    ensures Split(a + "\n" + b) == Split(a) + Split(b)
  {
    SplitSnoc(a, '\n');
    SplitAppend(a + "\n", b);
    SnocParts(Split(a), "");
    assert "" + b == b;
  }

  // The pieces with newlines between them.
  function Join(ls: seq<string>): string {
    if ls == [] then ""
    else if |ls| == 1 then ls[0]
    else Join(ButLast(ls)) + "\n" + Last(ls)
  }

  predicate OneLine(s: string) {
    '\n' !in s
  }

  lemma {:induction false} SplitPieces(s: string)
    ensures forall i | 0 <= i < |Split(s)| :: OneLine(Split(s)[i])
  {
    if s != "" {
      SplitPieces(ButLast(s));
      assert OneLine(Last(Split(ButLast(s))));
    }
  }

  lemma {:induction false} JoinSplit(s: string)
    ensures Join(Split(s)) == s
  {
    if s != "" {
      JoinSplit(ButLast(s));
      var ls, c := Split(ButLast(s)), Last(s);
      assert s == ButLast(s) + [c];
      if c == '\n' {
        SnocParts(ls, "");
      } else {
        SnocParts(ButLast(ls), Last(ls) + [c]);
        assert Split(s) == ButLast(ls) + [Last(ls) + [c]];
        assert Join(ls) + [c] == Join(Split(s));
      }
    }
  }

  lemma {:induction false} SplitOneLine(s: string)
    requires OneLine(s)
    ensures Split(s) == [s]
  {
    if s != "" {
      assert s == ButLast(s) + [Last(s)];
      SplitOneLine(ButLast(s));
    }
  }

  lemma {:induction false} SplitJoin(ls: seq<string>)
    requires ls != [] && forall i | 0 <= i < |ls| :: OneLine(ls[i])
    ensures Split(Join(ls)) == ls
  {
    if |ls| == 1 {
      SplitOneLine(ls[0]);
    } else {
      SplitJoin(ButLast(ls));
      SplitAt(Join(ButLast(ls)), Last(ls));
      SplitOneLine(Last(ls));
      assert ls == ButLast(ls) + [Last(ls)];
    }
  }

  // `strings.LastIndex(s, "\n")`
  function LastNewline(s: string): (i: int)
    ensures -1 <= i < |s|
    ensures i >= 0 ==> s[i] == '\n' && OneLine(s[i + 1..])
    ensures i < 0 ==> OneLine(s)
  {
    if s == "" then -1 else if Last(s) == '\n' then |s| - 1 else LastNewline(ButLast(s))
  }

  // Position of the first newline at or after `from`, or -1.
  function NextNewline(s: string, from: nat): (i: int)
    ensures i >= 0 ==> from <= i < |s| && s[i] == '\n' && OneLine(s[from..i])
    ensures i < 0 ==> from >= |s| || OneLine(s[from..])
    decreases |s| - from
  {
    if from >= |s| then -1
    else if s[from] == '\n' then from
    else
      var i := NextNewline(s, from + 1);
      assert i >= 0 ==> s[from..i] == [s[from]] + s[from + 1..i];
      assert s[from..] == [s[from]] + s[from + 1..];
      i
  }
}
