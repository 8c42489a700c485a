/** The source-control splitter of a combined `git diff`, and how it compares with the forge one. */
module MultiDiff {
  import opened Common
  import opened Lines
  import opened DiffGroups
  import Diff

  datatype FileDiff = FileDiff(path: string, oldPath: string, status: string, isBinary: bool, patch: string)

  // ---------------------------------------------------------------- header paths

  // The slice s[lo:hi]; none where Go panics.
  function Sub(s: string, lo: int, hi: int): Option<string> {
    if 0 <= lo <= hi <= |s| then Some(s[lo..hi]) else None
  }

  // None is a panic.
  function SplitDiffPaths(s: string): Option<(string, string)> {
    if HasPrefix(s, "\"") && Index(s[1..], "\" ") >= 0 then
      var idx := Index(s[1..], "\" ");
      var rest := TrimSpace(s[2 + idx..]);
      if HasPrefix(rest, "\"") && HasSuffix(rest, "\"") then
        var inner := Sub(rest, 1, |rest| - 1);
        if inner.Some? then Some((s[1..1 + idx], inner.value)) else None
      else Some((s[1..1 + idx], rest))
    else
      var sp := Index(s, " ");
      Some(if sp < 0 then ("", "") else (s[..sp], s[sp + 1..]))
  }

  // What follows the first quoted path is not a lone quote.
  predicate Sliceable(s: string) {
    HasPrefix(s, "\"") && Index(s[1..], "\" ") >= 0 ==> TrimSpace(s[2 + Index(s[1..], "\" ")..]) != "\""
  }

  /** Splitting a header's paths panics exactly when a lone quote follows the first quoted path. */
  lemma SplitPanicsIff(s: string)
    ensures SplitDiffPaths(s).None? <==> !Sliceable(s)
  {
    if HasPrefix(s, "\"") && Index(s[1..], "\" ") >= 0 {
      var rest := TrimSpace(s[2 + Index(s[1..], "\" ")..]);
      assert HasPrefix(rest, "\"") && |rest| == 1 ==> rest == "\"";
    }
  }

  /** The header `diff --git "x" "` is such a one. */
  lemma LoneQuotePanics()
    ensures IsHeader("diff --git \"x\" \"") && !Readable("diff --git \"x\" \"") && SplitDiffPaths("\"x\" \"") == None
  {
    var s := "\"x\" \"";
    assert "diff --git \"x\" \""[|HEADER|..] == s;
    var t := s[1..];
    assert t == "x\" \"" && t[1..3] == "\" ";
    QuoteOccurs(t, 0);
    IndexIsFirst(t, "\" ", 0, 1);
    assert s[3..] == " \"" && " \""[1..] == "\"" && TrimSpace("\"") == "\"";
    SplitPanicsIff(s);
  }

  function StripDiffPrefix(p: string): string {
    if HasPrefix(p, "a/") || HasPrefix(p, "b/") then p[2..] else p
  }

  predicate Readable(line: string) {
    IsHeader(line) ==> Sliceable(line[|HEADER|..])
  }

  function ParseHeader(line: string): FileDiff
    requires Readable(line) && IsHeader(line)
  {
    SplitPanicsIff(line[|HEADER|..]);
    var (a, b) := SplitDiffPaths(line[|HEADER|..]).value;
    var oldP, newP := StripDiffPrefix(a), StripDiffPrefix(b);
    if a == "" then FileDiff("", "", "modified", false, "")
    else if oldP != newP then FileDiff(newP, oldP, "renamed", false, "")
    else FileDiff(newP, "", "modified", false, "")
  }

  lemma OneCharOccurs(s: string, i: int)
    ensures Occurs(s, " ", i) <==> 0 <= i < |s| && s[i] == ' '
  {
    if 0 <= i < |s| {
      assert s[i..i + 1] == [s[i]];
    }
  }

  // What follows the sentinel in an unquoted and in a quoted header.
  function PlainTail(p: string, q: string): string {
    "a/" + p + " b/" + q
  }

  function QuotedTail(p: string, q: string): string {
    "\"a/" + p + "\" \"b/" + q + "\""
  }

  lemma PlainChars(p: string, q: string)
    ensures var s, n := PlainTail(p, q), |p| + 2;
            && |s| > n && s[0] == 'a' && s[1] == '/' && s[n] == ' ' && !HasPrefix(s, "\"") && Sliceable(s)
            && s[..n] == "a/" + p && s[n + 1..] == "b/" + q
            && forall k | 2 <= k < n :: s[k] == p[k - 2]
  {
  }

  // A text that starts with no quote is cut at its first space.
  lemma CutAtSpace(s: string, n: nat)
    requires !HasPrefix(s, "\"") && n < |s| && s[n] == ' ' && forall j | 0 <= j < n :: s[j] != ' '
    ensures SplitDiffPaths(s) == Some((s[..n], s[n + 1..]))
  {
    OneCharOccurs(s, n);
    forall j | 0 <= j < n ensures !Occurs(s, " ", j) {
      OneCharOccurs(s, j);
    }
    IndexIsFirst(s, " ", 0, n);
  }

  lemma {:induction false} FirstSpace(s: string, i: nat) returns (k: nat)
    requires i < |s| && s[i] == ' '
    ensures k <= i && s[k] == ' ' && forall j | 0 <= j < k :: s[j] != ' '
  {
    if j :| 0 <= j < i && s[j] == ' ' {
      k := FirstSpace(s, j);
    } else {
      k := i;
    }
  }

  // The tail is split without a panic, into these two paths.
  predicate Reads(tail: string, p: string, q: string) {
    var paths := SplitDiffPaths(tail);
    paths.Some? && StripDiffPrefix(paths.value.0) == p && StripDiffPrefix(paths.value.1) == q
  }

  /** This splitter reads both paths of an unquoted header exactly when the old path has no space in it;
      for such paths the forge splitter reads them too. */
  lemma PlainHeaderPaths(p: string, q: string)
    ensures Reads(PlainTail(p, q), p, q) <==> ' ' !in p
    ensures ' ' !in p ==> !Contains(p, " b/")
  {
    var s, n := PlainTail(p, q), |p| + 2;
    PlainChars(p, q);
    if ' ' in p {
      var i :| 0 <= i < |p| && p[i] == ' ';
      var k := FirstSpace(s, i + 2);
      CutAtSpace(s, k);
      assert |StripDiffPrefix(s[..k])| <= k - 2;
    } else {
      CutAtSpace(s, n);
      forall i ensures !Occurs(p, " b/", i) {
        OccursChars(p, i);
      }
    }
  }

  lemma TrimKeeps(s: string)
    requires s != "" && !IsSpace(s[0]) && !IsSpace(Last(s))
    ensures TrimSpace(s) == s && TrimSpace(" " + s) == s
  {
    assert (" " + s)[1..] == s && (" " + s)[0] == ' ';
  }

  lemma QuoteOccurs(s: string, i: int)
    ensures Occurs(s, "\" ", i) <==> 0 <= i && i + 2 <= |s| && s[i] == '"' && s[i + 1] == ' '
  {
    if 0 <= i && i + 2 <= |s| {
      assert s[i..i + 2] == [s[i], s[i + 1]];
    }
  }

  // Past its opening quote the tail has quote-and-space where the old path does, and where the old path ends.
  lemma QuotedOccurs(p: string, q: string, j: int)
    requires j <= |p| + 2
    ensures var t := QuotedTail(p, q)[1..];
            Occurs(t, "\" ", j) <==> j == |p| + 2 || Occurs(p, "\" ", j - 2)
  {
    var t, n := QuotedTail(p, q)[1..], |p| + 2;
    QuoteOccurs(t, j);
    QuoteOccurs(p, j - 2);
    assert t[0] == 'a' && t[1] == '/' && t[n] == '"' && t[n + 1] == ' ';
    assert forall k | 2 <= k < n :: t[k] == p[k - 2];
  }

  lemma QuotedIndex(p: string, q: string)
    ensures var k := Index(QuotedTail(p, q)[1..], "\" ");
            2 <= k <= |p| + 2 && (k == |p| + 2 <==> !Contains(p, "\" "))
  {
    var t, n := QuotedTail(p, q)[1..], |p| + 2;
    var k := Index(t, "\" ");
    QuotedOccurs(p, q, n);
    assert 0 <= k <= n;
    QuotedOccurs(p, q, k);
    if i :| Occurs(p, "\" ", i) {
      QuotedOccurs(p, q, i + 2);
    }
  }

  lemma QuotedParts(p: string, q: string)
    ensures var s, n := QuotedTail(p, q), |p| + 2;
            HasPrefix(s, "\"") && s[1..1 + n] == "a/" + p && TrimSpace(s[2 + n..]) == "\"b/" + q + "\""
  {
    var second := "\"b/" + q + "\"";
    assert QuotedTail(p, q)[2 + |p| + 2..] == " " + second;
    assert second[0] == '"' && Last(second) == '"' && !IsSpace('"');
    TrimKeeps(second);
  }

  lemma QuotedFirst(p: string, q: string, k: nat)
    requires k == Index(QuotedTail(p, q)[1..], "\" ") && 2 <= k <= |p| + 2
    ensures |StripDiffPrefix(QuotedTail(p, q)[1..1 + k])| == k - 2
  {
    var s := QuotedTail(p, q);
    var first := s[1..1 + k];
    assert first[0] == s[1] == 'a' && first[1] == s[2] == '/';
  }

  lemma Unquote(inner: string)
    ensures var s := "\"" + inner + "\"";
            |s| >= 2 && HasPrefix(s, "\"") && HasSuffix(s, "\"") && s[1..|s| - 1] == inner
  {
  }

  lemma QuotedSplit(p: string, q: string)
    requires !Contains(p, "\" ")
    ensures SplitDiffPaths(QuotedTail(p, q)) == Some(("a/" + p, "b/" + q))
  {
    QuotedIndex(p, q);
    QuotedParts(p, q);
    Unquote("b/" + q);
    assert "\"" + ("b/" + q) + "\"" == "\"b/" + q + "\"";
  }

  lemma Strips(p: string, q: string)
    ensures StripDiffPrefix("a/" + p) == p && StripDiffPrefix("b/" + q) == q
  {
  }

  lemma QuotedHeaderRead(p: string, q: string)
    requires !Contains(p, "\" ")
    ensures Reads(QuotedTail(p, q), p, q)
  {
    QuotedSplit(p, q);
    Strips(p, q);
  }

  lemma QuotedHeaderMisread(p: string, q: string)
    requires Contains(p, "\" ")
    ensures var paths := SplitDiffPaths(QuotedTail(p, q)); paths.Some? ==> StripDiffPrefix(paths.value.0) != p
  {
    QuotedIndex(p, q);
    QuotedFirst(p, q, Index(QuotedTail(p, q)[1..], "\" "));
  }

  /** A quoted header, spaces and all, is read exactly when the old path has no quote followed by a space in it. */
  lemma QuotedHeaderPaths(p: string, q: string)
    ensures Reads(QuotedTail(p, q), p, q) <==> !Contains(p, "\" ")
  {
    if Contains(p, "\" ") { QuotedHeaderMisread(p, q); } else { QuotedHeaderRead(p, q); }
  }

  /** An unquoted old path with a space is misread. */
  lemma PlainMisreads()
    ensures !Reads(PlainTail("x y", "x y"), "x y", "x y")
  {
    assert "x y"[1] == ' ';
    PlainHeaderPaths("x y", "x y");
  }

  // ---------------------------------------------------------------- one entry per group

  function Note(f: FileDiff, line: string): FileDiff {
    if HasPrefix(line, "new file mode") then f.(status := "added")
    else if HasPrefix(line, "deleted file mode") then f.(status := "deleted")
    else if HasPrefix(line, "rename from ") then f.(oldPath := line[|"rename from "|..], status := "renamed")
    else if HasPrefix(line, "rename to ") then f.(path := line[|"rename to "|..], status := "renamed")
    else if HasPrefix(line, "Binary files ") && HasSuffix(line, " differ") then f.(isBinary := true)
    else f
  }

  predicate ReadableAll(lines: seq<string>) {
    forall i | 0 <= i < |lines| :: Readable(lines[i])
  }

  // A group is headed by a header line that can be sliced.
  predicate Headed(group: seq<string>) {
    group != [] && IsHeader(group[0]) && Readable(group[0])
  }

  function Noted(group: seq<string>): FileDiff
    requires Headed(group)
  {
    if |group| == 1 then Note(ParseHeader(group[0]), group[0]) else Note(Noted(ButLast(group)), Last(group))
  }

  predicate AllHeaded(gs: seq<seq<string>>) {
    forall i | 0 <= i < |gs| :: Headed(gs[i])
  }

  function Entry(group: seq<string>): FileDiff
    requires Headed(group)
  {
    Noted(group).(patch := Unlines(group))
  }

  function Entries(gs: seq<seq<string>>): seq<FileDiff>
    requires AllHeaded(gs)
  {
    if gs == [] then [] else Entries(ButLast(gs)) + [Entry(Last(gs))]
  }

  lemma {:induction false} GroupsReadable(lines: seq<string>)
    requires ReadableAll(lines)
    ensures AllHeaded(Groups(lines))
  {
    if lines != [] {
      GroupsReadable(ButLast(lines));
      HeadedStays(Groups(ButLast(lines)), Last(lines));
    }
  }

  lemma HeadedStays(gs: seq<seq<string>>, line: string)
    requires AllHeaded(gs) && Readable(line)
    ensures AllHeaded(Extend(gs, line))
  {
  }

  function Parsed(patch: string): seq<FileDiff>
    requires ReadableAll(Split(patch))
  {
    GroupsReadable(Split(patch));
    Entries(Groups(Split(patch)))
  }

  function Patches(es: seq<FileDiff>): seq<string> {
    if es == [] then [] else Patches(ButLast(es)) + [Last(es).patch]
  }

  // ---------------------------------------------------------------- what an entry says

  function StatusWord(line: string): Option<string> {
    if HasPrefix(line, "new file mode") then Some("added")
    else if HasPrefix(line, "deleted file mode") then Some("deleted")
    else if HasPrefix(line, "rename from ") || HasPrefix(line, "rename to ") then Some("renamed")
    else None
  }

  predicate SaysBinary(line: string) {
    HasPrefix(line, "Binary files ") && HasSuffix(line, " differ")
  }

  // What the lines of a group, after its header, make of the entry.
  predicate Made(f: FileDiff, header: FileDiff, lines: seq<string>) {
    && f.status == Latest(StatusWord, header.status, lines)
    && f.path == Latest(RenamedTo, header.path, lines) && f.oldPath == Latest(RenamedFrom, header.oldPath, lines)
    && (f.isBinary <==> exists i :: 0 <= i < |lines| && SaysBinary(lines[i]))
  }

  lemma WordsDiffer(line: string)
    ensures HasPrefix(line, "new file mode") ==> line[0] == 'n'
    ensures HasPrefix(line, "deleted file mode") ==> line[0] == 'd'
    ensures HasPrefix(line, "rename from ") ==> line[0] == 'r' && line[7] == 'f'
    ensures HasPrefix(line, "rename to ") ==> line[0] == 'r' && line[7] == 't'
    ensures HasPrefix(line, "Binary files ") ==> line[0] == 'B'
    ensures IsHeader(line) ==> line[0] == 'd' && line[1] == 'i'
    ensures HasPrefix(line, "deleted file mode") ==> line[1] == 'e'
  {
  }

  lemma NoteMakes(f: FileDiff, line: string)
    ensures
      var g := Note(f, line);
      && g.status == (if StatusWord(line).Some? then StatusWord(line).value else f.status)
      && g.path == (if RenamedTo(line).Some? then RenamedTo(line).value else f.path)
      && g.oldPath == (if RenamedFrom(line).Some? then RenamedFrom(line).value else f.oldPath)
      && (g.isBinary <==> f.isBinary || SaysBinary(line))
  {
    WordsDiffer(line);
  }

  lemma HeaderIsMute(f: FileDiff, line: string)
    requires IsHeader(line)
    ensures Note(f, line) == f
  {
    WordsDiffer(line);
  }

  lemma BinaryMore(lines: seq<string>, line: string)
    ensures (exists i :: 0 <= i < |lines + [line]| && SaysBinary((lines + [line])[i]))
            <==> (exists i :: 0 <= i < |lines| && SaysBinary(lines[i])) || SaysBinary(line)
  {
    var all := lines + [line];
    if i :| 0 <= i < |lines| && SaysBinary(lines[i]) {
      assert SaysBinary(all[i]);
    }
    if SaysBinary(line) {
      assert SaysBinary(all[|lines|]);
    }
  }

  lemma MadeMore(f: FileDiff, header: FileDiff, lines: seq<string>, line: string)
    requires Made(f, header, lines)
    ensures Made(Note(f, line), header, lines + [line])
  {
    LatestSnoc(StatusWord, header.status, lines, line);
    LatestSnoc(RenamedTo, header.path, lines, line);
    LatestSnoc(RenamedFrom, header.oldPath, lines, line);
    BinaryMore(lines, line);
    NoteMakes(f, line);
  }

  lemma NotedMore(group: seq<string>, line: string)
    requires Headed(group)
    ensures Noted(group + [line]) == Note(Noted(group), line) && Unlines(group + [line]) == Unlines(group) + line + "\n"
  {
    SnocParts(group, line);
  }

  lemma MadeStep(group: seq<string>, line: string)
    requires Headed(group) && Made(Noted(group), ParseHeader(group[0]), group[1..])
    ensures Made(Noted(group + [line]), ParseHeader(group[0]), (group + [line])[1..])
  {
    NotedMore(group, line);
    MadeMore(Noted(group), ParseHeader(group[0]), group[1..], line);
    assert (group + [line])[1..] == group[1..] + [line];
  }

  lemma MadeFirst(group: seq<string>)
    requires Headed(group) && |group| == 1
    ensures Made(Noted(group), ParseHeader(group[0]), group[1..])
  {
    HeaderIsMute(ParseHeader(group[0]), group[0]);
    assert group[1..] == [];
  }

  lemma {:induction false} NotedIsMade(group: seq<string>)
    requires Headed(group)
    ensures Made(Noted(group), ParseHeader(group[0]), group[1..])
  {
    if |group| == 1 {
      MadeFirst(group);
    } else {
      NotedIsMade(ButLast(group));
      assert group == ButLast(group) + [Last(group)];
      MadeStep(ButLast(group), Last(group));
    }
  }

  // What a group's header and lines make of its entry, and its text.
  predicate EntryIs(e: FileDiff, group: seq<string>) {
    Headed(group) && Made(e, ParseHeader(group[0]), group[1..]) && e.patch == Unlines(group)
  }

  lemma EntryMade(group: seq<string>)
    requires Headed(group)
    ensures EntryIs(Entry(group), group)
  {
    NotedIsMade(group);
  }

  // One entry for each group.
  predicate EntriesAre(es: seq<FileDiff>, gs: seq<seq<string>>) {
    |es| == |gs| && forall i | 0 <= i < |gs| :: EntryIs(es[i], gs[i])
  }

  lemma {:induction false} EntryAt(gs: seq<seq<string>>, i: nat)
    requires AllHeaded(gs) && i < |gs|
    ensures |Entries(gs)| == |gs| && Entries(gs)[i] == Entry(gs[i])
  {
    if i < |gs| - 1 {
      EntryAt(ButLast(gs), i);
    } else if |gs| > 1 {
      EntryAt(ButLast(gs), 0);
    }
  }

  /** Every entry is what its group says. */
  lemma EntriesFollow(gs: seq<seq<string>>)
    requires AllHeaded(gs)
    ensures EntriesAre(Entries(gs), gs)
  {
    forall i | 0 <= i < |gs| ensures |Entries(gs)| == |gs| && EntryIs(Entries(gs)[i], gs[i]) {
      EntryAt(gs, i);
      EntryMade(gs[i]);
    }
  }

  /** An unquoted header without a space in the old path names the new file, and the old one exactly if it has another name;
      then it is a rename. */
  lemma PlainHeaderMeans(p: string, q: string)
    requires ' ' !in p
    ensures
      var line := HEADER + PlainTail(p, q);
      && IsHeader(line) && Readable(line)
      && ParseHeader(line) == if p == q then FileDiff(q, "", "modified", false, "") else FileDiff(q, p, "renamed", false, "")
  {
    var s := PlainTail(p, q);
    assert (HEADER + s)[|HEADER|..] == s;
    PlainParts(p, q);
    SplitPanicsIff(s);
    Strips(p, q);
  }

  lemma PlainParts(p: string, q: string)
    requires ' ' !in p
    ensures SplitDiffPaths(PlainTail(p, q)) == Some(("a/" + p, "b/" + q))
  {
    PlainChars(p, q);
    CutAtSpace(PlainTail(p, q), |p| + 2);
  }

  lemma NoSpaceFound(s: string)
    requires ' ' !in s
    ensures Index(s, " ") < 0
  {
    var k := Index(s, " ");
    OneCharOccurs(s, k);
  }

  /** A header with a single unquoted word names no file. */
  lemma OneWordHeaderMeans(tail: string)
    requires ' ' !in tail && !HasPrefix(tail, "\"")
    ensures var line := HEADER + tail;
            IsHeader(line) && Readable(line) && ParseHeader(line) == FileDiff("", "", "modified", false, "")
  {
    assert (HEADER + tail)[|HEADER|..] == tail;
    NoSpaceFound(tail);
    SplitPanicsIff(tail);
  }

  /** A quoted header names its files as an unquoted one does, if no quote in the old path is followed by a space. */
  lemma QuotedHeaderMeans(p: string, q: string)
    requires !Contains(p, "\" ")
    ensures
      var line := HEADER + QuotedTail(p, q);
      && IsHeader(line) && Readable(line)
      && ParseHeader(line) == if p == q then FileDiff(q, "", "modified", false, "") else FileDiff(q, p, "renamed", false, "")
  {
    var s := QuotedTail(p, q);
    assert (HEADER + s)[|HEADER|..] == s;
    QuotedSplit(p, q);
    SplitPanicsIff(s);
    Strips(p, q);
  }

  // ---------------------------------------------------------------- the loop

  ghost predicate Building(gs: seq<seq<string>>, out: seq<FileDiff>, cur: Option<FileDiff>, buf: string) {
    && AllHeaded(gs)
    && if gs == [] then out == [] && cur == None && buf == ""
       else out == Entries(ButLast(gs)) && cur == Some(Noted(Last(gs))) && buf == Unlines(Last(gs))
  }

  lemma BuildFirst(gs: seq<seq<string>>, line: string, out: seq<FileDiff>, cur: Option<FileDiff>, buf: string)
    requires Building(gs, out, cur, buf) && IsHeader(line) && Readable(line)
    ensures Building(Extend(gs, line), if cur.None? then out else out + [cur.value.(patch := buf)],
                     Some(Note(ParseHeader(line), line)), "" + line + "\n")
  {
    HeadedStays(gs, line);
    SnocParts(gs, [line]);
    assert Unlines([line]) == Unlines(ButLast([line])) + line + "\n" && ButLast([line]) == [];
  }

  lemma BuildMore(gs: seq<seq<string>>, group: seq<string>, line: string, out: seq<FileDiff>)
    requires AllHeaded(gs) && Headed(group) && out == Entries(gs) && !IsHeader(line)
    ensures Building(gs + [group + [line]], out, Some(Note(Noted(group), line)), Unlines(group) + line + "\n")
  {
    NotedMore(group, line);
    SnocParts(gs, group + [line]);
  }

  method ScanLine(ghost gs: seq<seq<string>>, line: string, out: seq<FileDiff>, cur: Option<FileDiff>, buf: string)
    returns (out': seq<FileDiff>, cur': Option<FileDiff>, buf': string)
    requires Readable(line) && Building(gs, out, cur, buf)
    ensures Building(Extend(gs, line), out', cur', buf')
  {
    out', cur', buf' := out, cur, buf;
    if IsHeader(line) {
      BuildFirst(gs, line, out, cur, buf);
      if cur.Some? {
        out' := out + [cur.value.(patch := buf)];
      }
      cur', buf' := Some(ParseHeader(line)), "";
    }
    if cur'.None? {
      return;
    }
    if !IsHeader(line) {
      BuildMore(ButLast(gs), Last(gs), line, out);
    }
    cur' := Some(Note(cur'.value, line));
    buf' := buf' + line + "\n";
  }

  method CanSplit(line: string) returns (ok: bool)
    ensures ok == Readable(line)
  {
    if !IsHeader(line) {
      return true;
    }
    SplitPanicsIff(line[|HEADER|..]);
    return SplitDiffPaths(line[|HEADER|..]).Some?;
  }

  // The scan, up to the first header that cannot be split.
  method ScanLines(lines: seq<string>) returns (ok: bool, out: seq<FileDiff>, cur: Option<FileDiff>, buf: string)
    ensures ok == ReadableAll(lines)
    ensures ok ==> Building(Groups(lines), out, cur, buf)
  {
    cur, buf, out := None, "", [];
    for i := 0 to |lines|
      invariant ReadableAll(lines[..i]) && Building(Groups(lines[..i]), out, cur, buf)
    {
      ok := CanSplit(lines[i]);
      if !ok {
        return;
      }
      GroupsSnoc(lines, i);
      ReadableMore(lines, i);
      out, cur, buf := ScanLine(Groups(lines[..i]), lines[i], out, cur, buf);
    }
    assert lines[..|lines|] == lines;
    ok := true;
  }

  lemma ReadableMore(lines: seq<string>, i: nat)
    requires i < |lines| && ReadableAll(lines[..i]) && Readable(lines[i])
    ensures ReadableAll(lines[..i + 1])
  {
  }

  /** `parsePatchBlocks`; none is a panic, and happens exactly when some header cannot be split. */
  method ParsePatchBlocks(patch: string) returns (r: Option<seq<FileDiff>>)
    ensures r.Some? <==> ReadableAll(Split(patch))
    ensures r.Some? ==> r.value == Parsed(patch) && EntriesAre(r.value, Groups(Split(patch)))
  {
    if ReadableAll(Split(patch)) {
      GroupsReadable(Split(patch));
      EntriesFollow(Groups(Split(patch)));
    }
    if Blank(patch) {
      BlankHasNoHeader(patch);
      BlankHasNoGroups(patch);
      return Some([]);
    }
    var ok, out, cur, buf := ScanLines(Split(patch));
    if !ok {
      return None;
    }
    Built(Groups(Split(patch)), out, cur, buf);
    if cur.Some? {
      out := out + [cur.value.(patch := buf)];
    }
    return Some(out);
  }

  lemma Built(gs: seq<seq<string>>, out: seq<FileDiff>, cur: Option<FileDiff>, buf: string)
    requires Building(gs, out, cur, buf)
    ensures (if cur.None? then out else out + [cur.value.(patch := buf)]) == Entries(gs)
  {
  }

  // ---------------------------------------------------------------- the two splitters compared

  lemma {:induction false} EntryPatches(gs: seq<seq<string>>)
    requires AllHeaded(gs)
    ensures Patches(Entries(gs)) == GroupTexts(gs)
  {
    if gs != [] {
      EntryPatches(ButLast(gs));
      SnocParts(Entries(ButLast(gs)), Entry(Last(gs)));
    }
  }

  /** Both splitters cut a blob into the same files, with the same patches but for one newline more at the very end. */
  lemma SplittersAgree(blob: string)
    requires ReadableAll(Split(blob))
    ensures var one, two := Diff.Patches(Diff.Parsed(blob)), Patches(Parsed(blob));
            if one == [] then two == [] else two == ButLast(one) + [Last(one) + "\n"]
  {
    var gs := Groups(Split(blob));
    GroupsFacts(Split(blob));
    GroupsReadable(Split(blob));
    Diff.NormalisingKeepsPatches(Diff.RawEntries(gs));
    EntryPatches(gs);
    if gs != [] {
      Diff.ConcatPatches(gs);
      UnlinesJoin(Last(gs));
    }
  }

  // Patches are in step with entries.
  lemma {:induction false} PatchPerFile(es: seq<Diff.DiffFile>)
    ensures |Diff.Patches(es)| == |es| && forall i | 0 <= i < |es| :: Diff.Patches(es)[i] == es[i].patch
  {
    if es != [] {
      PatchPerFile(ButLast(es));
    }
  }

  lemma {:induction false} PatchPerFileDiff(fs: seq<FileDiff>)
    ensures |Patches(fs)| == |fs| && forall i | 0 <= i < |fs| :: Patches(fs)[i] == fs[i].patch
  {
    if fs != [] {
      PatchPerFileDiff(ButLast(fs));
    }
  }

  /** So the second splitter's patches, put together, are the first's and, if there are any, a newline. */
  lemma PatchesAreLosslessToo(blob: string)
    requires ReadableAll(Split(blob))
    ensures Concat(Patches(Parsed(blob))) == FromHeader(blob) + if Patches(Parsed(blob)) == [] then "" else "\n"
  {
    var one := Diff.Patches(Diff.Parsed(blob));
    Diff.PatchesAreLossless(blob);
    SplittersAgree(blob);
    if one == [] {
      assert FromHeader(blob) + "" == FromHeader(blob);
    } else {
      ConcatExtra(one);
    }
  }

  lemma ConcatExtra(one: seq<string>)
    requires one != []
    ensures Concat(ButLast(one) + [Last(one) + "\n"]) == Concat(one) + "\n"
  {
    SnocParts(ButLast(one), Last(one) + "\n");
  }
}
