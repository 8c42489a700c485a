/** The Telegram message chunker. Lengths are bytes. */
module Telegram {
  import opened Common
  import opened Lines

  // Where one chunk may end, given where it starts: at the last newline of its window (not counting the window's
  // first byte), or at the full length when there is none.
  predicate GoodCut(text: string, start: nat, len: nat, maxLen: nat) {
    && 0 < len <= maxLen && start + maxLen < |text|
    && if len == maxLen then OneLine(text[start + 1..start + maxLen])
       else text[start + len] == '\n' && OneLine(text[start + len + 1..start + maxLen])
  }

  // Chunks laid over the text: consecutive but for one newline swallowed after a cut; starts has one entry more,
  // for the end.
  ghost predicate Tiled(text: string, maxLen: nat, out: seq<string>, starts: seq<nat>) {
    && |starts| == |out| + 1 && starts[0] == 0 && starts[|out|] <= |text|
    && forall i | 0 <= i < |out| :: Tile(text, maxLen, out[i], starts[i], starts[i + 1])
  }

  predicate Tile(text: string, maxLen: nat, chunk: string, start: nat, next: nat) {
    var end := start + |chunk|;
    && 0 < |chunk| <= maxLen && end <= |text| && chunk == text[start..end]
    && if end == |text| then next == end && |text| - start <= maxLen
       else GoodCut(text, start, |chunk|, maxLen) && next == end + if text[end] == '\n' then 1 else 0
  }

  // `strings.TrimPrefix(s, "\n")`
  function TrimNewline(s: string): string {
    if HasPrefix(s, "\n") then s[1..] else s
  }

  lemma WindowNewline(text: string, pos: nat, maxLen: nat, w: string, nl: int)
    requires maxLen > 0 && pos + maxLen < |text| && w == text[pos..pos + maxLen] && nl == LastNewline(w)
    ensures GoodCut(text, pos, if nl <= 0 then maxLen else nl, maxLen)
  {
    if nl <= 0 {
      assert text[pos + 1..pos + maxLen] == w[1..];
      assert nl == 0 ==> OneLine(w[0 + 1..]);
    } else {
      assert text[pos + nl + 1..pos + maxLen] == w[nl + 1..];
    }
  }

  lemma WindowCut(text: string, pos: nat, maxLen: nat, remaining: string, split: int)
    requires maxLen > 0 && pos + maxLen < |text| && remaining == text[pos..]
    requires split == var nl := LastNewline(remaining[..maxLen]); if nl <= 0 then maxLen else nl
    ensures GoodCut(text, pos, split, maxLen)
  {
    var w := remaining[..maxLen];
    assert w == text[pos..pos + maxLen];
    WindowNewline(text, pos, maxLen, w, LastNewline(w));
  }

  lemma TiledSnoc(text: string, maxLen: nat, out: seq<string>, starts: seq<nat>, chunk: string, next: nat)
    requires Tiled(text, maxLen, out, starts) && Tile(text, maxLen, chunk, Last(starts), next) && next <= |text|
    ensures Tiled(text, maxLen, out + [chunk], starts + [next])
  {
    var o, t := out + [chunk], starts + [next];
    forall i | 0 <= i < |o| ensures Tile(text, maxLen, o[i], t[i], t[i + 1]) {
      if i < |out| {
        assert Tile(text, maxLen, out[i], starts[i], starts[i + 1]);
      }
    }
  }

  lemma TrimSkips(text: string, end: nat)
    requires end < |text|
    ensures TrimNewline(text[end..]) == text[end + if text[end] == '\n' then 1 else 0..]
  {
    var tail := text[end..];
    assert HasPrefix(tail, "\n") <==> tail[0] == '\n';
  }

  // One turn of the loop: the cut, and what remains.
  lemma CutStep(text: string, pos: nat, maxLen: nat, split: nat)
    requires GoodCut(text, pos, split, maxLen)
    ensures
      var next := pos + split + if text[pos + split] == '\n' then 1 else 0;
      && next <= |text| && Tile(text, maxLen, text[pos..][..split], pos, next)
      && TrimNewline(text[pos..][split..]) == text[next..]
  {
    var rest := text[pos..];
    assert rest[split..] == text[pos + split..];
    assert rest[..split] == text[pos..pos + split];
    TrimSkips(text, pos + split);
  }

  // The loop's state: the chunks so far tile the text up to what remains.
  ghost predicate Cutting(text: string, maxLen: nat, out: seq<string>, starts: seq<nat>, remaining: string) {
    Tiled(text, maxLen, out, starts) && remaining == text[Last(starts)..]
  }

  lemma CutKeeps(text: string, maxLen: nat, out: seq<string>, starts: seq<nat>, remaining: string, split: nat)
    returns (starts': seq<nat>)
    requires Cutting(text, maxLen, out, starts, remaining) && maxLen > 0 && |remaining| > maxLen
    requires split == var nl := LastNewline(remaining[..maxLen]); if nl <= 0 then maxLen else nl
    ensures Cutting(text, maxLen, out + [remaining[..split]], starts', TrimNewline(remaining[split..]))
  {
    var pos := Last(starts);
    var next := pos + split + if text[pos + split] == '\n' then 1 else 0;
    WindowCut(text, pos, maxLen, remaining, split);
    CutStep(text, pos, maxLen, split);
    TiledSnoc(text, maxLen, out, starts, remaining[..split], next);
    starts' := starts + [next];
  }

  lemma LastChunk(text: string, maxLen: nat, out: seq<string>, starts: seq<nat>, remaining: string)
    requires Cutting(text, maxLen, out, starts, remaining) && |remaining| <= maxLen
    ensures remaining == "" ==> starts[|out|] == |text|
    ensures remaining != "" ==> Tiled(text, maxLen, out + [remaining], starts + [|text|])
  {
    if remaining != "" {
      TiledSnoc(text, maxLen, out, starts, remaining, |text|);
    }
  }

  ghost predicate Chunked(text: string, maxLen: nat, out: seq<string>) {
    exists starts :: Tiled(text, maxLen, out, starts) && starts[|out|] == |text|
  }

  /** `splitForTelegram`: the loop terminates, and its chunks tile the text. */
  method SplitForTelegram(text: string, maxLen: nat) returns (out: seq<string>)
    requires maxLen > 0
    ensures |text| <= maxLen ==> out == [text]
    ensures |text| > maxLen ==> Chunked(text, maxLen, out)
  {
    if |text| <= maxLen {
      return [text];
    }
    out := [];
    var remaining := text;
    ghost var starts: seq<nat> := [0];
    while |remaining| > maxLen
      invariant Cutting(text, maxLen, out, starts, remaining)
      decreases |remaining|
    {
      var split := LastNewline(remaining[..maxLen]);
      if split <= 0 {
        split := maxLen;
      }
      starts := CutKeeps(text, maxLen, out, starts, remaining, split);
      out := out + [remaining[..split]];
      remaining := TrimNewline(remaining[split..]);
    }
    LastChunk(text, maxLen, out, starts, remaining);
    if |remaining| > 0 {
      out := out + [remaining];
      starts := starts + [|text|];
    }
  }

  // The chunks with a newline put back after each chunk that lost one.
  function Rejoin(out: seq<string>, dropped: seq<bool>): string
    requires |dropped| == |out|
  {
    if out == [] then ""
    else Rejoin(ButLast(out), ButLast(dropped)) + Last(out) + if Last(dropped) then "\n" else ""
  }

  // Which chunks lost a newline.
  function Dropped(out: seq<string>, starts: seq<nat>): (d: seq<bool>)
    requires |starts| == |out| + 1
    ensures |d| == |out|
  {
    seq(|out|, i requires 0 <= i < |out| => starts[i + 1] == starts[i] + |out[i]| + 1)
  }

  // One tile more: the text up to the next start.
  lemma TileRejoins(text: string, maxLen: nat, chunk: string, start: nat, next: nat)
    requires start <= |text| && Tile(text, maxLen, chunk, start, next)
    ensures next <= |text| && text[..next] == text[..start] + chunk + if next == start + |chunk| + 1 then "\n" else ""
  {
    var end := start + |chunk|;
    assert text[..end] == text[..start] + chunk;
    if next == end + 1 {
      assert text[..next] == text[..end] + [text[end]];
    }
  }

  lemma {:induction false} PrefixRejoins(text: string, maxLen: nat, out: seq<string>, starts: seq<nat>, n: nat)
    requires Tiled(text, maxLen, out, starts) && n <= |out|
    ensures starts[n] <= |text| && Rejoin(out[..n], Dropped(out, starts)[..n]) == text[..starts[n]]
  {
    if n > 0 {
      PrefixRejoins(text, maxLen, out, starts, n - 1);
      assert ButLast(out[..n]) == out[..n - 1];
      assert ButLast(Dropped(out, starts)[..n]) == Dropped(out, starts)[..n - 1];
      assert Tile(text, maxLen, out[n - 1], starts[n - 1], starts[n]);
      TileRejoins(text, maxLen, out[n - 1], starts[n - 1], starts[n]);
    }
  }

  /** Putting at most one newline back per chunk restores the text, and every chunk but the last one was cut, at a newline
      whenever its window had one after its first byte. */
  lemma ChunksRestoreText(text: string, maxLen: nat, out: seq<string>, starts: seq<nat>)
    requires Tiled(text, maxLen, out, starts) && starts[|out|] == |text|
    ensures Rejoin(out, Dropped(out, starts)) == text
    ensures forall i | 0 <= i < |out| - 1 :: GoodCut(text, starts[i], |out[i]|, maxLen)
  {
    PrefixRejoins(text, maxLen, out, starts, |out|);
    assert out[..|out|] == out && Dropped(out, starts)[..|out|] == Dropped(out, starts);
    forall i | 0 <= i < |out| - 1 ensures GoodCut(text, starts[i], |out[i]|, maxLen) {
      assert Tile(text, maxLen, out[i], starts[i], starts[i + 1]);
      assert Tile(text, maxLen, out[i + 1], starts[i + 1], starts[i + 2]);
    }
  }

  // A byte that is not the first of its UTF-8 character.
  predicate Continuation(c: char) {
    0x80 as char <= c <= 0xBF as char
  }

  // The byte after this chunk belongs to the character the chunk ends in.
  predicate InsideCharacter(text: string, end: nat) {
    end < |text| && Continuation(text[end])
  }

  /** A chunk ends inside a character exactly when it is cut at its full length, for want of a newline, and the byte at that
      point is a continuation byte. */
  lemma CutInsideCharacter(text: string, maxLen: nat, out: seq<string>, starts: seq<nat>, i: nat)
    requires Tiled(text, maxLen, out, starts) && i < |out|
    ensures InsideCharacter(text, starts[i] + |out[i]|) <==> |out[i]| == maxLen && InsideCharacter(text, starts[i] + maxLen)
  {
    assert Tile(text, maxLen, out[i], starts[i], starts[i + 1]);
  }

  const E_ACUTE := [0xC3 as char, 0xA9 as char]

  /** The two bytes of an accented e, at most one byte per chunk: however they are tiled, the first chunk ends inside the
      character. */
  lemma CharacterCut(out: seq<string>, starts: seq<nat>)
    requires Tiled(E_ACUTE, 1, out, starts) && starts[|out|] == 2
    ensures out == [[0xC3 as char], [0xA9 as char]] && InsideCharacter(E_ACUTE, starts[0] + |out[0]|)
  {
    assert out != [] && Tile(E_ACUTE, 1, out[0], 0, starts[1]);
    assert E_ACUTE[0..1] == [0xC3 as char] && E_ACUTE[1] != '\n';
    assert |out| > 1 && Tile(E_ACUTE, 1, out[1], 1, starts[2]);
    assert E_ACUTE[1..2] == [0xA9 as char];
    assert |out| > 2 ==> Tile(E_ACUTE, 1, out[2], 2, starts[3]);
    assert out == [out[0], out[1]];
  }
}
