/** Diff lines grouped by file header, and the texts of groups: what both splitters work on. */
module DiffGroups {
  import opened Common
  import opened Lines

  // ---------------------------------------------------------------- grouping lines by file header

  const HEADER := "diff --git "

  predicate IsHeader(line: string) {
    HasPrefix(line, HEADER)
  }

  // Lines by file: a header starts a group, lines before the first header belong to none.
  function Groups(lines: seq<string>): seq<seq<string>> {
    if lines == [] then [] else Extend(Groups(ButLast(lines)), Last(lines))
  }

  function Extend(gs: seq<seq<string>>, line: string): seq<seq<string>> {
    if IsHeader(line) then gs + [[line]]
    else if gs == [] then []
    else ButLast(gs) + [Last(gs) + [line]]
  }

  lemma GroupsSnoc(lines: seq<string>, i: nat)
    requires i < |lines|
    ensures Groups(lines[..i + 1]) == Extend(Groups(lines[..i]), lines[i])
  {
    assert lines[..i + 1] == lines[..i] + [lines[i]];
    SnocParts(lines[..i], lines[i]);
  }

  lemma {:induction false} GroupsFacts(lines: seq<string>)
    ensures forall i | 0 <= i < |Groups(lines)| :: Groups(lines)[i] != [] && IsHeader(Groups(lines)[i][0])
    ensures Groups(lines) == [] <==> forall i | 0 <= i < |lines| :: !IsHeader(lines[i])
  {
    if lines != [] {
      GroupsFacts(ButLast(lines));
      assert (forall i | 0 <= i < |lines| :: !IsHeader(lines[i]))
        <==> (forall i | 0 <= i < |ButLast(lines)| :: !IsHeader(ButLast(lines)[i])) && !IsHeader(Last(lines));
    }
  }

  lemma {:induction false} GroupsConcat(a: seq<string>, b: seq<string>)
    requires b != [] && IsHeader(b[0])
    ensures Groups(a + b) == Groups(a) + Groups(b)
  {
    assert a + b == (a + ButLast(b)) + [Last(b)];
    SnocParts(a + ButLast(b), Last(b));
    if |b| == 1 {
      assert a + ButLast(b) == a && Groups(ButLast(b)) == [];
      assert Groups(b) == [b];
    } else {
      GroupsConcat(a, ButLast(b));
      GroupsFacts(ButLast(b));
      assert IsHeader(ButLast(b)[0]);
      ExtendConcat(Groups(a), Groups(ButLast(b)), Last(b));
    }
  }

  lemma ExtendConcat(gs: seq<seq<string>>, hs: seq<seq<string>>, line: string)
    requires hs != []
    ensures Extend(gs + hs, line) == gs + Extend(hs, line)
  {
    assert ButLast(gs + hs) == gs + ButLast(hs);
  }

  // How many lines come before the first header.
  function Skipped(lines: seq<string>): (n: nat)
    ensures n <= |lines| && (n < |lines| ==> IsHeader(lines[n]))
    ensures forall i | 0 <= i < n :: !IsHeader(lines[i])
  {
    if lines == [] || IsHeader(lines[0]) then 0 else 1 + Skipped(lines[1..])
  }

  lemma GroupsSkip(lines: seq<string>)
    ensures Groups(lines) == Groups(lines[Skipped(lines)..])
  {
    var n := Skipped(lines);
    GroupsFacts(lines[..n]);
    assert lines == lines[..n] + lines[n..];
    if n < |lines| {
      GroupsConcat(lines[..n], lines[n..]);
    } else {
      assert lines[..n] == lines && lines[n..] == [];
    }
  }

  // ---------------------------------------------------------------- text of groups

  // Every line with its newline.
  function Unlines(lines: seq<string>): string {
    if lines == [] then "" else Unlines(ButLast(lines)) + Last(lines) + "\n"
  }

  lemma {:induction false} UnlinesJoin(lines: seq<string>)
    requires lines != []
    ensures Unlines(lines) == Join(lines) + "\n"
  {
    if |lines| > 1 {
      UnlinesJoin(ButLast(lines));
    }
  }

  lemma {:induction false} UnlinesConcat(a: seq<string>, b: seq<string>)
    ensures Unlines(a + b) == Unlines(a) + Unlines(b)
  {
    if b == [] {
      assert a + b == a;
    } else {
      UnlinesConcat(a, ButLast(b));
      assert a + b == (a + ButLast(b)) + [Last(b)];
      SnocParts(a + ButLast(b), Last(b));
      LineAdded(Unlines(a), Unlines(ButLast(b)), Last(b));
    }
  }

  lemma LineAdded(a: string, b: string, c: string)
    ensures a + b + c + "\n" == a + (b + c + "\n")
  {
  }

  // The groups' lines, in order, again.
  function Flat(gs: seq<seq<string>>): seq<string> {
    if gs == [] then [] else Flat(ButLast(gs)) + Last(gs)
  }

  lemma FlatExtend(gs: seq<seq<string>>, line: string)
    requires gs != [] || IsHeader(line)
    ensures Flat(Extend(gs, line)) == Flat(gs) + [line]
  {
    if IsHeader(line) {
      SnocParts(gs, [line]);
    } else {
      SnocParts(ButLast(gs), Last(gs) + [line]);
      assert Flat(gs) == Flat(ButLast(gs)) + Last(gs);
    }
  }

  lemma {:induction false} FlatGroups(lines: seq<string>)
    requires lines != [] && IsHeader(lines[0])
    ensures Flat(Groups(lines)) == lines
  {
    var before, line := ButLast(lines), Last(lines);
    assert lines == before + [line];
    if |lines| > 1 {
      FlatGroups(before);
      GroupsFacts(before);
      assert IsHeader(before[0]);
    }
    FlatExtend(Groups(before), line);
  }

  function Concat(ss: seq<string>): string {
    if ss == [] then "" else Concat(ButLast(ss)) + Last(ss)
  }

  // The text of some groups, every line with its newline.
  function GroupTexts(gs: seq<seq<string>>): seq<string> {
    if gs == [] then [] else GroupTexts(ButLast(gs)) + [Unlines(Last(gs))]
  }

  // The blob from its first header line on.
  function FromHeader(blob: string): string {
    Join(Split(blob)[Skipped(Split(blob))..])
  }

  lemma {:induction false} PieceChars(s: string, i: nat, c: char)
    requires i < |Split(s)| && c in Split(s)[i]
    ensures c in s
  {
    if s != "" {
      var ls := Split(ButLast(s));
      assert s == ButLast(s) + [Last(s)];
      if i < |ls| && c in ls[i] {
        PieceChars(ButLast(s), i, c);
      }
    }
  }

  lemma BlankHasNoHeader(blob: string)
    requires Blank(blob)
    ensures forall i | 0 <= i < |Split(blob)| :: !IsHeader(Split(blob)[i])
  {
    assert !IsSpace('d');
    forall i | 0 <= i < |Split(blob)| ensures !IsHeader(Split(blob)[i]) {
      if IsHeader(Split(blob)[i]) {
        assert Split(blob)[i][0] == HEADER[0] == 'd';
        PieceChars(blob, i, 'd');
      }
    }
  }

  lemma BlankHasNoGroups(blob: string)
    requires Blank(blob)
    ensures Groups(Split(blob)) == []
  {
    BlankHasNoHeader(blob);
    GroupsFacts(Split(blob));
  }

  // ---------------------------------------------------------------- what metadata lines say

  // What follows a mark at the start of a line.
  function After(line: string, mark: string): Option<string> {
    if HasPrefix(line, mark) then Some(line[|mark|..]) else None
  }

  lemma AfterNothing(line: string, mark: string)
    ensures After(line, mark) == Some("") <==> line == mark
  {
    if HasPrefix(line, mark) {
      assert line == mark + line[|mark|..];
    }
  }

  function RenamedFrom(line: string): Option<string> {
    After(line, "rename from ")
  }

  function RenamedTo(line: string): Option<string> {
    After(line, "rename to ")
  }

  // ---------------------------------------------------------------- substrings

  predicate Occurs(s: string, pat: string, i: int) {
    0 <= i && i + |pat| <= |s| && s[i..i + |pat|] == pat
  }

  // `strings.Index(s, pat)`, from a given position on.
  function IndexFrom(s: string, pat: string, from: nat): (i: int)
    ensures i >= 0 ==> i >= from && Occurs(s, pat, i) && forall j | from <= j < i :: !Occurs(s, pat, j)
    ensures i < 0 ==> forall j | from <= j :: !Occurs(s, pat, j)
    decreases |s| - from
  {
    if from + |pat| > |s| then -1 else if s[from..from + |pat|] == pat then from else IndexFrom(s, pat, from + 1)
  }

  function Index(s: string, pat: string): int {
    IndexFrom(s, pat, 0)
  }

  // `strings.TrimPrefix`
  function TrimPrefix(s: string, p: string): string {
    if HasPrefix(s, p) then s[|p|..] else s
  }

  lemma {:induction false} IndexIsFirst(s: string, pat: string, from: nat, i: nat)
    requires from <= i && Occurs(s, pat, i) && forall j | from <= j < i :: !Occurs(s, pat, j)
    ensures IndexFrom(s, pat, from) == i
  {
    var k := IndexFrom(s, pat, from);
    assert k >= 0 ==> Occurs(s, pat, k);
  }

  ghost predicate Contains(s: string, pat: string) {
    exists i :: Occurs(s, pat, i)
  }

  lemma OccursChars(s: string, i: int)
    ensures Occurs(s, " b/", i) <==> 0 <= i && i + 3 <= |s| && s[i] == ' ' && s[i + 1] == 'b' && s[i + 2] == '/'
  {
    if 0 <= i && i + 3 <= |s| {
      assert s[i..i + 3] == [s[i], s[i + 1], s[i + 2]];
    }
  }
}

/** The forge splitter of a unified diff. */
module Diff {
  import opened Common
  import opened Lines
  import opened DiffGroups

  // ---------------------------------------------------------------- hunk counts

  // Whether a hunk has been opened.
  predicate InHunk(lines: seq<string>) {
    exists i :: 0 <= i < |lines| && HasPrefix(lines[i], "@@")
  }

  function Counted(lines: seq<string>, sign: string): nat {
    if lines == [] then 0
    else
      var l := Last(lines);
      Counted(ButLast(lines), sign)
      + if InHunk(ButLast(lines)) && HasPrefix(l, sign) && !HasPrefix(l, "+++") && !HasPrefix(l, "---") then 1 else 0
  }

  predicate HunkBefore(lines: seq<string>, i: nat)
    requires i <= |lines|
  {
    exists j :: 0 <= j < i && HasPrefix(lines[j], "@@")
  }

  // Line i has this sign, comes after a hunk header, and is no file header.
  predicate IsSigned(lines: seq<string>, i: nat, sign: string)
    requires i < |lines|
  {
    HunkBefore(lines, i) && HasPrefix(lines[i], sign) && !HasPrefix(lines[i], "+++") && !HasPrefix(lines[i], "---")
  }

  function Signed(lines: seq<string>, sign: string): set<nat> {
    set i: nat | i < |lines| && IsSigned(lines, i, sign)
  }

  lemma SameHunks(lines: seq<string>, line: string, i: nat)
    requires i <= |lines|
    ensures HunkBefore(lines + [line], i) <==> HunkBefore(lines, i)
  {
    assert forall j | 0 <= j < i :: (lines + [line])[j] == lines[j];
  }

  lemma SignedStays(lines: seq<string>, line: string, i: nat, sign: string)
    requires i < |lines|
    ensures IsSigned(lines + [line], i, sign) <==> IsSigned(lines, i, sign)
  {
    SameHunks(lines, line, i);
  }

  lemma SignedLast(lines: seq<string>, line: string, sign: string)
    ensures IsSigned(lines + [line], |lines|, sign)
            <==> InHunk(lines) && HasPrefix(line, sign) && !HasPrefix(line, "+++") && !HasPrefix(line, "---")
  {
    assert InHunk(lines) <==> HunkBefore(lines, |lines|);
    SameHunks(lines, line, |lines|);
  }

  lemma SignedSnoc(lines: seq<string>, line: string, sign: string)
    ensures Signed(lines + [line], sign)
            == Signed(lines, sign) + if IsSigned(lines + [line], |lines|, sign) then {|lines|} else {}
  {
    forall i: nat | i < |lines| ensures IsSigned(lines + [line], i, sign) <==> IsSigned(lines, i, sign) {
      SignedStays(lines, line, i, sign);
    }
  }

  lemma {:induction false} CountedIsSigned(lines: seq<string>, sign: string)
    ensures Counted(lines, sign) == |Signed(lines, sign)|
  {
    if lines != [] {
      CountedIsSigned(ButLast(lines), sign);
      SignedSnoc(ButLast(lines), Last(lines), sign);
      SignedLast(ButLast(lines), Last(lines), sign);
      assert lines == ButLast(lines) + [Last(lines)];
      assert |lines| - 1 !in Signed(ButLast(lines), sign);
    }
  }

  /** `countHunkLines`: how many lines after the first hunk header begin with a plus, and how many with a minus. */
  method CountHunkLines(patch: string) returns (adds: nat, dels: nat)
    ensures adds == Counted(Split(patch), "+") && dels == Counted(Split(patch), "-")
    ensures adds == |Signed(Split(patch), "+")| && dels == |Signed(Split(patch), "-")|
  {
    CountedIsSigned(Split(patch), "+");
    CountedIsSigned(Split(patch), "-");
    var lines, inHunk := Split(patch), false;
    adds, dels := 0, 0;
    for i := 0 to |lines|
      invariant inHunk == InHunk(lines[..i])
      invariant adds == Counted(lines[..i], "+") && dels == Counted(lines[..i], "-")
    {
      var line := lines[i];
      HunkSnoc(lines[..i], line, "+");
      HunkSnoc(lines[..i], line, "-");
      assert lines[..i + 1] == lines[..i] + [line];
      assert HasPrefix(line, "@@") ==> line[0] == '@';
      assert HasPrefix(line, "+") ==> line[0] == '+';
      assert HasPrefix(line, "-") ==> line[0] == '-';
      if HasPrefix(line, "@@") {
        inHunk := true;
        continue;
      }
      if !inHunk || HasPrefix(line, "+++") || HasPrefix(line, "---") {
        continue;
      }
      if HasPrefix(line, "+") {
        adds := adds + 1;
      } else if HasPrefix(line, "-") {
        dels := dels + 1;
      }
    }
    assert lines[..|lines|] == lines;
  }

  lemma HunkSnoc(lines: seq<string>, line: string, sign: string)
    ensures InHunk(lines + [line]) <==> InHunk(lines) || HasPrefix(line, "@@")
    ensures Counted(lines + [line], sign)
            == Counted(lines, sign)
               + if InHunk(lines) && HasPrefix(line, sign) && !HasPrefix(line, "+++") && !HasPrefix(line, "---")
                 then 1 else 0
  {
    SnocParts(lines, line);
    var all := lines + [line];
    if i :| 0 <= i < |lines| && HasPrefix(lines[i], "@@") {
      assert HasPrefix(all[i], "@@");
    }
    if HasPrefix(line, "@@") {
      assert HasPrefix(all[|lines|], "@@");
    }
  }

  // ---------------------------------------------------------------- first splitter: forge

  datatype DiffFile = DiffFile(path: string, oldPath: string, status: string, additions: nat, deletions: nat,
                               patch: string)

  function ParseDiffGitHeader(line: string): DiffFile {
    var tail := TrimPrefix(line, HEADER);
    var idx := Index(tail, " b/");
    if idx > 0 then DiffFile(tail[idx + 3..], TrimPrefix(tail[..idx], "a/"), "", 0, 0, "")
    else DiffFile(tail, "", "", 0, 0, "")
  }

  // What one line after the header adds to the entry.
  function Note(f: DiffFile, line: string): DiffFile {
    if HasPrefix(line, "new file mode") then f.(status := "added")
    else if HasPrefix(line, "deleted file mode") then f.(status := "deleted")
    else if HasPrefix(line, "rename from ") then f.(oldPath := TrimPrefix(line, "rename from "), status := "renamed")
    else if HasPrefix(line, "rename to ") then f.(path := TrimPrefix(line, "rename to "))
    else if HasPrefix(line, "--- a/") && f.oldPath == "" && f.status != "added" then
      f.(oldPath := TrimPrefix(line, "--- a/"))
    else f
  }

  function Noted(group: seq<string>): DiffFile {
    if |group| <= 1 then ParseDiffGitHeader(Join(group)) else Note(Noted(ButLast(group)), Last(group))
  }

  function WithPatch(f: DiffFile, patch: string): DiffFile {
    f.(patch := patch, additions := Counted(Split(patch), "+"), deletions := Counted(Split(patch), "-"))
  }

  function Normalised(f: DiffFile): DiffFile {
    f.(oldPath := if f.oldPath == f.path then "" else f.oldPath, status := if f.status == "" then "modified" else f.status)
  }

  // Only the last group lacks the newline after its last line.
  function GroupPatch(group: seq<string>, last: bool): string {
    if last then Join(group) else Unlines(group)
  }

  // An entry as flushed, before the final pass.
  function Raw(group: seq<string>, last: bool): DiffFile {
    WithPatch(Noted(group), GroupPatch(group, last))
  }

  const RawFollowed := (group: seq<string>) => Raw(group, false)

  const RawFinal := (group: seq<string>) => Raw(group, true)

  const Normal := (f: DiffFile) => Normalised(f)

  // The entries of groups that are all followed by another.
  function RawInner(gs: seq<seq<string>>): seq<DiffFile> {
    Map(RawFollowed, gs)
  }

  function RawEntries(gs: seq<seq<string>>): seq<DiffFile> {
    MapFinal(RawFollowed, RawFinal, gs)
  }

  function NormalisedAll(es: seq<DiffFile>): seq<DiffFile> {
    Map(Normal, es)
  }

  // One entry per group.
  function Parsed(blob: string): seq<DiffFile> {
    NormalisedAll(RawEntries(Groups(Split(blob))))
  }

  function Patches(es: seq<DiffFile>): seq<string> {
    if es == [] then [] else Patches(ButLast(es)) + [Last(es).patch]
  }

  // ---------------------------------------------------------------- what an entry says

  function StatusWord(line: string): Option<string> {
    if HasPrefix(line, "new file mode") then Some("added")
    else if HasPrefix(line, "deleted file mode") then Some("deleted")
    else if HasPrefix(line, "rename from ") then Some("renamed")
    else None
  }

  // The path in the first line that marks the old file, unless the file has been said to be new by then.
  function OldByMinus(lines: seq<string>): Option<string> {
    if lines == [] then None
    else if OldByMinus(ButLast(lines)).Some? then OldByMinus(ButLast(lines))
    else if Latest(StatusWord, "", ButLast(lines)) == "added" then None
    else After(Last(lines), "--- a/")
  }

  // No path of a file is left empty.
  predicate NamesPaths(lines: seq<string>) {
    forall i | 0 <= i < |lines| :: lines[i] != "rename from " && lines[i] != "--- a/"
  }

  // The old path: of the last rename, else of the header, else of the first line that marks the old file.
  function OldPathOf(header: string, lines: seq<string>): string {
    Latest(RenamedFrom, if header != "" then header else if OldByMinus(lines).Some? then OldByMinus(lines).value else "", lines)
  }

  // What the lines of a group, after its header, make of the entry.
  predicate Reads(f: DiffFile, header: DiffFile, lines: seq<string>) {
    && f.status == Latest(StatusWord, "", lines) && f.path == Latest(RenamedTo, header.path, lines)
    && (NamesPaths(lines) ==> f.oldPath == OldPathOf(header.oldPath, lines))
  }

  lemma {:induction false} LatestEmpty(start: string, lines: seq<string>)
    requires NamesPaths(lines)
    ensures Latest(RenamedFrom, start, lines) == "" <==> start == "" && Latest(RenamedFrom, "", lines) == ""
    ensures Latest(RenamedFrom, "", lines) != "" ==> Latest(RenamedFrom, start, lines) == Latest(RenamedFrom, "", lines)
    ensures Latest(RenamedFrom, "", lines) == "" ==> Latest(RenamedFrom, start, lines) == start
  {
    if lines != [] {
      LatestEmpty(start, ButLast(lines));
      var line := Last(lines);
      assert line == lines[|lines| - 1];
      AfterNothing(line, "rename from ");
    }
  }

  lemma WordsDiffer(line: string)
    ensures HasPrefix(line, "new file mode") ==> line[0] == 'n'
    ensures HasPrefix(line, "deleted file mode") ==> line[0] == 'd'
    ensures HasPrefix(line, "rename from ") ==> line[0] == 'r' && line[7] == 'f'
    ensures HasPrefix(line, "rename to ") ==> line[0] == 'r' && line[7] == 't'
    ensures HasPrefix(line, "--- a/") ==> line[0] == '-'
  {
  }

  lemma NoteStatus(f: DiffFile, line: string)
    ensures Note(f, line).status == if StatusWord(line).Some? then StatusWord(line).value else f.status
    ensures Note(f, line).path == if RenamedTo(line).Some? then RenamedTo(line).value else f.path
  {
    WordsDiffer(line);
  }

  lemma NoteOld(f: DiffFile, line: string)
    ensures
      var minus := After(line, "--- a/");
      Note(f, line).oldPath
      == if RenamedFrom(line).Some? then RenamedFrom(line).value
         else if minus.Some? && f.oldPath == "" && f.status != "added" then minus.value
         else f.oldPath
  {
    WordsDiffer(line);
  }

  lemma OldPathSnoc(f: DiffFile, header: string, lines: seq<string>, line: string)
    requires NamesPaths(lines + [line]) && f.status == Latest(StatusWord, "", lines) && f.oldPath == OldPathOf(header, lines)
    ensures Note(f, line).oldPath == OldPathOf(header, lines + [line])
  {
    var all := lines + [line];
    SnocParts(lines, line);
    assert all[|lines|] == line && forall i | 0 <= i < |lines| :: all[i] == lines[i];
    AfterNothing(line, "--- a/");
    NoteOld(f, line);
    WordsDiffer(line);
    LatestSnoc(RenamedFrom, if header != "" then header else if OldByMinus(all).Some? then OldByMinus(all).value else "", lines, line);
    LatestEmpty(header, lines);
    LatestEmpty(if OldByMinus(all).Some? then OldByMinus(all).value else "", lines);
    LatestEmpty(if OldByMinus(lines).Some? then OldByMinus(lines).value else "", lines);
    MinusNonEmpty(lines);
  }

  lemma {:induction false} MinusNonEmpty(lines: seq<string>)
    requires NamesPaths(lines)
    ensures OldByMinus(lines) != Some("")
  {
    if lines != [] {
      MinusNonEmpty(ButLast(lines));
      var line := Last(lines);
      assert line == lines[|lines| - 1];
      AfterNothing(line, "--- a/");
    }
  }

  lemma ReadsMore(f: DiffFile, header: DiffFile, lines: seq<string>, line: string)
    requires Reads(f, header, lines)
    ensures Reads(Note(f, line), header, lines + [line])
  {
    LatestSnoc(StatusWord, "", lines, line);
    LatestSnoc(RenamedTo, header.path, lines, line);
    NoteStatus(f, line);
    if NamesPaths(lines + [line]) {
      assert forall i | 0 <= i < |lines| :: (lines + [line])[i] == lines[i];
      OldPathSnoc(f, header.oldPath, lines, line);
    }
  }

  lemma {:induction false} NotedReads(group: seq<string>)
    requires group != []
    ensures Reads(Noted(group), ParseDiffGitHeader(group[0]), group[1..])
  {
    if |group| == 1 {
      assert group[1..] == [] && Join(group) == group[0];
      assert ParseDiffGitHeader(group[0]).status == "";
    } else {
      NotedReads(ButLast(group));
      ReadsMore(Noted(ButLast(group)), ParseDiffGitHeader(group[0]), ButLast(group)[1..], Last(group));
      assert group[1..] == ButLast(group)[1..] + [Last(group)];
    }
  }

  // An entry as handed out: status by its last deciding line, else modified; path by the last rename, else by the header; an
  // old path only if it differs; and the counts of its patch.
  predicate EntryIs(e: DiffFile, group: seq<string>)
    requires group != []
  {
    var header, lines := ParseDiffGitHeader(group[0]), group[1..];
    && e.status == Latest(StatusWord, "modified", lines) && e.path == Latest(RenamedTo, header.path, lines)
    && (NamesPaths(lines) ==>
          e.oldPath == var o := OldPathOf(header.oldPath, lines); if o == e.path then "" else o)
    && e.additions == |Signed(Split(e.patch), "+")| && e.deletions == |Signed(Split(e.patch), "-")|
  }

  lemma {:induction false} DefaultStatus(lines: seq<string>)
    ensures Latest(StatusWord, "modified", lines)
            == if Latest(StatusWord, "", lines) == "" then "modified" else Latest(StatusWord, "", lines)
  {
    if lines != [] {
      DefaultStatus(ButLast(lines));
    }
  }

  lemma RawIs(group: seq<string>, last: bool)
    requires group != []
    ensures EntryIs(Normalised(Raw(group, last)), group)
  {
    NotedReads(group);
    DefaultStatus(group[1..]);
    CountedIsSigned(Split(GroupPatch(group, last)), "+");
    CountedIsSigned(Split(GroupPatch(group, last)), "-");
  }

  // One entry for each group.
  predicate EntriesAre(es: seq<DiffFile>, gs: seq<seq<string>>) {
    |es| == |gs| && forall i | 0 <= i < |gs| :: gs[i] != [] && EntryIs(es[i], gs[i])
  }

  lemma RawAt(gs: seq<seq<string>>, i: nat)
    requires i < |gs|
    ensures |RawEntries(gs)| == |gs| && RawEntries(gs)[i] == Raw(gs[i], i == |gs| - 1)
  {
    MapAt(RawFollowed, ButLast(gs));
  }

  lemma NormalAt(es: seq<DiffFile>, i: nat)
    requires i < |es|
    ensures |NormalisedAll(es)| == |es| && NormalisedAll(es)[i] == Normalised(es[i])
  {
    MapAt(Normal, es);
  }

  lemma EntryAt(gs: seq<seq<string>>, i: nat)
    requires i < |gs| && gs[i] != []
    ensures |NormalisedAll(RawEntries(gs))| == |gs| && EntryIs(NormalisedAll(RawEntries(gs))[i], gs[i])
  {
    RawAt(gs, i);
    NormalAt(RawEntries(gs), i);
    RawIs(gs[i], i == |gs| - 1);
  }

  /** Every entry is what its group says. */
  lemma ParsedIs(blob: string)
    ensures EntriesAre(Parsed(blob), Groups(Split(blob)))
  {
    var gs := Groups(Split(blob));
    GroupsFacts(Split(blob));
    forall i | 0 <= i < |gs| ensures |Parsed(blob)| == |gs| && EntryIs(Parsed(blob)[i], gs[i]) {
      EntryAt(gs, i);
    }
  }

  // ---------------------------------------------------------------- lossless, idempotent, compositional

  lemma {:induction false} NormalisingKeepsPatches(es: seq<DiffFile>)
    ensures Patches(NormalisedAll(es)) == Patches(es)
  {
    if es != [] {
      NormalisingKeepsPatches(ButLast(es));
      SnocParts(NormalisedAll(ButLast(es)), Normalised(Last(es)));
    }
  }

  lemma {:induction false} InnerPatches(gs: seq<seq<string>>)
    ensures Patches(RawInner(gs)) == GroupTexts(gs)
  {
    if gs != [] {
      InnerPatches(ButLast(gs));
      SnocParts(RawInner(ButLast(gs)), RawFollowed(Last(gs)));
    }
  }

  lemma {:induction false} ConcatTexts(gs: seq<seq<string>>)
    ensures Concat(GroupTexts(gs)) == Unlines(Flat(gs))
  {
    if gs != [] {
      ConcatTexts(ButLast(gs));
      SnocParts(GroupTexts(ButLast(gs)), Unlines(Last(gs)));
      UnlinesConcat(Flat(ButLast(gs)), Last(gs));
    }
  }

  lemma ConcatPatches(gs: seq<seq<string>>)
    requires gs != [] && Last(gs) != []
    ensures Patches(RawEntries(gs)) == GroupTexts(ButLast(gs)) + [Join(Last(gs))]
    ensures Concat(Patches(RawEntries(gs))) == Join(Flat(gs))
  {
    InnerPatches(ButLast(gs));
    SnocParts(RawInner(ButLast(gs)), RawFinal(Last(gs)));
    ConcatTexts(ButLast(gs));
    SnocParts(GroupTexts(ButLast(gs)), Join(Last(gs)));
    JoinAfter(Flat(ButLast(gs)), Last(gs));
  }

  lemma JoinAfter(a: seq<string>, b: seq<string>)
    requires b != []
    ensures Join(a + b) == Unlines(a) + Join(b)
  {
    UnlinesJoin(a + b);
    UnlinesJoin(b);
    UnlinesConcat(a, b);
    assert (Join(a + b) + "\n") == (Unlines(a) + Join(b)) + "\n";
    assert ButLast(Join(a + b) + "\n") == Join(a + b);
    assert ButLast((Unlines(a) + Join(b)) + "\n") == Unlines(a) + Join(b);
  }

  lemma HeadedParts(lines: seq<string>, n: nat)
    requires n < |lines|
    ensures Join(lines) == Unlines(lines[..n]) + Join(lines[n..])
  {
    assert lines == lines[..n] + lines[n..];
    JoinAfter(lines[..n], lines[n..]);
  }

  /** Before its first header a blob has only lines without a header. */
  lemma BlobParts(blob: string)
    ensures var lines := Split(blob);
            var n := Skipped(lines);
            blob == if n < |lines| then Unlines(lines[..n]) + FromHeader(blob) else Join(lines)
  {
    JoinSplit(blob);
    if Skipped(Split(blob)) < |Split(blob)| {
      HeadedParts(Split(blob), Skipped(Split(blob)));
    }
  }

  /** The patches put back together are the blob from its first header on. */
  lemma PatchesAreLossless(blob: string)
    ensures Concat(Patches(Parsed(blob))) == FromHeader(blob)
  {
    var lines := Split(blob);
    var n := Skipped(lines);
    var gs := Groups(lines);
    NormalisingKeepsPatches(RawEntries(gs));
    GroupsSkip(lines);
    if n < |lines| {
      GroupsFacts(lines[n..]);
      FlatGroups(lines[n..]);
      ConcatPatches(gs);
    } else {
      assert lines[n..] == [];
    }
  }

  lemma FromHeaderGroups(blob: string)
    ensures Groups(Split(FromHeader(blob))) == Groups(Split(blob))
  {
    var lines := Split(blob);
    var n := Skipped(lines);
    GroupsSkip(lines);
    if n < |lines| {
      SplitPieces(blob);
      SplitJoin(lines[n..]);
    } else {
      assert lines[n..] == [];
      assert Groups([""]) == [] by {
        assert ButLast([""]) == [];
      }
    }
  }

  /** Parsing the patches put back together gives the same entries. */
  lemma ReparseIsStable(blob: string)
    ensures Parsed(Concat(Patches(Parsed(blob)))) == Parsed(blob)
  {
    PatchesAreLossless(blob);
    FromHeaderGroups(blob);
  }

  lemma NoteEmpty(f: DiffFile)
    ensures Note(f, "") == f
  {
  }

  lemma EmptyLineIsMute(group: seq<string>)
    requires group != []
    ensures Raw(group + [""], true) == Raw(group, false)
  {
    SnocParts(group, "");
    NoteEmpty(Noted(group));
    UnlinesJoin(group);
    assert Join(group + [""]) == Join(group) + "\n" + "" == Unlines(group);
  }

  lemma RawConcat(gs: seq<seq<string>>, hs: seq<seq<string>>)
    requires hs != []
    ensures RawEntries(gs + hs) == RawInner(gs) + RawEntries(hs)
  {
    MapFinalConcat(RawFollowed, RawFinal, gs, hs);
  }

  // A trailing empty line turns the last entry into one that ends in a newline.
  lemma TrailingEmptyLine(gs: seq<seq<string>>)
    requires gs != [] ==> Last(gs) != []
    ensures RawEntries(Extend(gs, "")) == RawInner(gs)
  {
    if gs != [] {
      EmptyLineIsMute(Last(gs));
      SnocParts(ButLast(gs), Last(gs) + [""]);
    }
  }

  lemma GroupsOfJoined(body: string, b: string)
    requires IsHeader(b)
    ensures Groups(Split(body + "\n" + b)) == Groups(Split(body)) + Groups(Split(b))
    ensures Groups(Split(body + "\n")) == Extend(Groups(Split(body)), "")
    ensures Groups(Split(b)) != []
  {
    SplitAt(body, b);
    SplitSnoc(body, '\n');
    HeaderFirstLine(b);
    GroupsConcat(Split(body), Split(b));
    SnocParts(Split(body), "");
    GroupsFacts(Split(b));
  }

  /** Parsing is compositional where one diff ends in a newline and the next begins with a header. */
  lemma ParseIsCompositional(a: string, b: string)
    requires a != "" && Last(a) == '\n' && IsHeader(b)
    ensures Parsed(a + b) == Parsed(a) + Parsed(b)
  {
    var body := ButLast(a);
    assert a == body + "\n" && a + b == body + "\n" + b;
    var gs, hs := Groups(Split(body)), Groups(Split(b));
    GroupsOfJoined(body, b);
    GroupsFacts(Split(body));
    RawConcat(gs, hs);
    TrailingEmptyLine(gs);
    MapConcat(Normal, RawInner(gs), RawEntries(hs));
  }

  lemma {:induction false} HeaderFirstLine(b: string)
    requires IsHeader(b)
    ensures IsHeader(Split(b)[0])
  {
    var rest := b[|HEADER|..];
    assert b == HEADER + rest;
    SplitOneLine(HEADER);
    SplitAppend(HEADER, rest);
    assert Split(b) == Split(HEADER + rest);
    JoinSplit(b);
    SplitFirst(b, HEADER);
  }

  // The first piece of a text begins with any newline-free beginning of the text.
  lemma {:induction false} SplitFirst(s: string, p: string)
    requires HasPrefix(s, p) && OneLine(p)
    ensures HasPrefix(Split(s)[0], p)
  {
    if s == p {
      SplitOneLine(p);
    } else {
      SplitFirst(ButLast(s), p);
    }
  }

  // ---------------------------------------------------------------- the loop

  // The entry under construction, and the finished ones, after some of the lines.
  ghost predicate Building(gs: seq<seq<string>>, done: bool, out: seq<DiffFile>, cur: Option<DiffFile>, buf: string) {
    if gs == [] then out == [] && cur == None && buf == ""
    else
      && Last(gs) != [] && out == RawInner(ButLast(gs))
      && cur == Some(Noted(Last(gs))) && buf == GroupPatch(Last(gs), done)
  }

  // `flush`: the current entry, if any, is finished.
  method Flush(out: seq<DiffFile>, cur: Option<DiffFile>, buf: string) returns (out': seq<DiffFile>)
    ensures out' == if cur.None? then out else out + [WithPatch(cur.value, buf)]
  {
    out' := out;
    if cur.Some? {
      var adds, dels := CountHunkLines(buf);
      out' := out + [cur.value.(patch := buf, additions := adds, deletions := dels)];
    }
  }

  lemma PatchSnoc(group: seq<string>, line: string, last: bool)
    requires group != []
    ensures GroupPatch(group, false) + line + (if last then "" else "\n") == GroupPatch(group + [line], last)
  {
    SnocParts(group, line);
    UnlinesJoin(group);
    assert Unlines(group) + line + "" == Unlines(group) + line;
  }

  lemma FirstLinePatch(line: string, last: bool)
    ensures line + (if last then "" else "\n") == GroupPatch([line], last)
  {
    assert ButLast([line]) == [];
    assert Unlines([line]) == "" + line + "\n" && "" + line == line;
    assert line + "" == line;
  }

  lemma BuildFirst(gs: seq<seq<string>>, line: string, last: bool, out: seq<DiffFile>, cur: Option<DiffFile>, buf: string)
    requires Building(gs, false, out, cur, buf) && IsHeader(line)
    ensures Building(Extend(gs, line), last, if cur.None? then out else out + [WithPatch(cur.value, buf)],
                     Some(ParseDiffGitHeader(line)), line + if last then "" else "\n")
  {
    FirstLinePatch(line, last);
    SnocParts(gs, [line]);
    if gs != [] {
      assert RawInner(gs) == RawInner(ButLast(gs)) + [RawFollowed(Last(gs))];
    }
  }

  lemma BuildMore(gs: seq<seq<string>>, line: string, last: bool, out: seq<DiffFile>, cur: DiffFile, buf: string)
    requires Building(gs, false, out, Some(cur), buf) && !IsHeader(line)
    ensures Building(Extend(gs, line), last, out, Some(Note(cur, line)), buf + line + if last then "" else "\n")
  {
    PatchSnoc(Last(gs), line, last);
    SnocParts(Last(gs), line);
    SnocParts(ButLast(gs), Last(gs) + [line]);
    assert Noted(Last(gs) + [line]) == Note(Noted(Last(gs)), line);
  }

  // One line of the scan.
  method ScanLine(ghost gs: seq<seq<string>>, line: string, last: bool, out: seq<DiffFile>, cur: Option<DiffFile>,
                  buf: string)
    returns (out': seq<DiffFile>, cur': Option<DiffFile>, buf': string)
    requires Building(gs, false, out, cur, buf)
    ensures Building(Extend(gs, line), last, out', cur', buf')
  {
    var end := if last then "" else "\n";
    if IsHeader(line) {
      BuildFirst(gs, line, last, out, cur, buf);
      out' := Flush(out, cur, buf);
      return out', Some(ParseDiffGitHeader(line)), line + end;
    }
    if cur.None? {
      return out, cur, buf;
    }
    BuildMore(gs, line, last, out, cur.value, buf);
    return out, Some(Note(cur.value, line)), buf + line + end;
  }

  // The final pass: drop old paths that are no news, name the default status.
  method Normalise(out: seq<DiffFile>) returns (out': seq<DiffFile>)
    ensures out' == NormalisedAll(out)
  {
    out' := [];
    for i := 0 to |out|
      invariant out' == NormalisedAll(out[..i])
    {
      MapSnoc(Normal, out[..i], out[i]);
      assert out[..i + 1] == out[..i] + [out[i]];
      var f := out[i];
      if f.oldPath == f.path {
        f := f.(oldPath := "");
      }
      if f.status == "" {
        f := f.(status := "modified");
      }
      out' := out' + [f];
    }
    assert out[..|out|] == out;
  }

  /** `parseUnifiedDiff` */
  method ParseUnifiedDiff(blob: string) returns (out: seq<DiffFile>)
    ensures out == Parsed(blob) && EntriesAre(out, Groups(Split(blob)))
  {
    ParsedIs(blob);
    if Blank(blob) {
      BlankHasNoGroups(blob);
      return [];
    }
    var lines := Split(blob);
    var cur: Option<DiffFile>, buf := None, "";
    out := [];
    ghost var gs := [];
    for i := 0 to |lines|
      invariant gs == Groups(lines[..i]) && Building(gs, i == |lines|, out, cur, buf)
    {
      GroupsSnoc(lines, i);
      out, cur, buf := ScanLine(gs, lines[i], i == |lines| - 1, out, cur, buf);
      gs := Extend(gs, lines[i]);
    }
    assert lines[..|lines|] == lines;
    Built(gs, out, cur, buf);
    out := Flush(out, cur, buf);
    out := Normalise(out);
  }

  lemma Built(gs: seq<seq<string>>, out: seq<DiffFile>, cur: Option<DiffFile>, buf: string)
    requires Building(gs, true, out, cur, buf)
    ensures (if cur.None? then out else out + [WithPatch(cur.value, buf)]) == RawEntries(gs)
  {
  }

  // ---------------------------------------------------------------- header paths

  function HeaderLine(p: string, q: string): string {
    HEADER + ("a/" + p + " b/" + q)
  }

  // In the tail of an unquoted header, " b/" occurs before the separator just where it occurs in the old path.
  lemma TailOccurs(p: string, q: string, j: int)
    requires j < |p| + 2
    ensures Occurs("a/" + p + " b/" + q, " b/", j) <==> Occurs(p, " b/", j - 2)
  {
    var tail, n := "a/" + p + " b/" + q, |p| + 2;
    OccursChars(tail, j);
    OccursChars(p, j - 2);
    assert tail[0] == 'a' && tail[1] == '/' && tail[n] == ' ' && tail[n + 1] == 'b';
    assert forall k | 2 <= k < n :: tail[k] == p[k - 2];
  }

  predicate ForgeReads(p: string, q: string) {
    var f := ParseDiffGitHeader(HeaderLine(p, q));
    f.oldPath == p && f.path == q
  }

  /** The forge splitter reads both paths of an unquoted header exactly when the old path has no " b/" in it. */
  lemma ForgeHeaderPaths(p: string, q: string)
    ensures ForgeReads(p, q) <==> !Contains(p, " b/")
  {
    var tail, n := "a/" + p + " b/" + q, |p| + 2;
    assert HeaderLine(p, q)[|HEADER|..] == tail;
    OccursChars(tail, n);
    forall j | j < n ensures Occurs(tail, " b/", j) <==> Occurs(p, " b/", j - 2) {
      TailOccurs(p, q, j);
    }
    if i :| Occurs(p, " b/", i) {
      var k := Index(tail, " b/");
      assert Occurs(tail, " b/", i + 2) && 0 <= k <= i + 2;
      TailOccurs(p, q, k);
      assert HasPrefix(tail[..k], "a/") && |TrimPrefix(tail[..k], "a/")| == k - 2;
    } else {
      IndexIsFirst(tail, " b/", 0, n);
      assert tail[..n] == "a/" + p && tail[n + 3..] == q;
    }
  }

  /** A header without the separator, or with nothing before it, is kept whole as the path. */
  lemma HeaderKeptWhole(tail: string)
    requires forall i | i > 0 :: Occurs(tail, " b/", i) ==> Occurs(tail, " b/", 0)
    ensures var f := ParseDiffGitHeader(HEADER + tail); f.path == tail && f.oldPath == ""
  {
    assert (HEADER + tail)[|HEADER|..] == tail;
    var k := Index(tail, " b/");
    assert k > 0 ==> Occurs(tail, " b/", k);
  }

  /** An old path in a directory whose name ends in " b" is misread. */
  lemma ForgeMisreads()
    ensures !ForgeReads("x b/y", "x b/y")
  {
    OccursChars("x b/y", 1);
    ForgeHeaderPaths("x b/y", "x b/y");
  }
}
