/** The Codex config printer, with a decoder of the TOML subset it emits (TOML v1.0.0: Keys, String, Array, Inline Table). */
module Toml {
  import opened Common
  import opened Lexical

  datatype Server = Server(name: string, transport: string, command: string, args: seq<string>, env: map<string, string>)

  // ---------------------------------------------------------------- the text of a config

  function EscapeChar(c: char): string {
    match c
    case '\\' => "\\\\"
    case '"' => "\\\""
    case '\n' => "\\n"
    case '\r' => "\\r"
    case '\t' => "\\t"
    case _ => [c]
  }

  function Escaped(s: string): string {
    if s == "" then "" else EscapeChar(s[0]) + Escaped(s[1..])
  }

  function Quoted(s: string): string {
    "\"" + Escaped(s) + "\""
  }

  predicate BareChar(c: char) {
    c == '_' || c == '-' || '0' <= c <= '9' || 'a' <= c <= 'z' || 'A' <= c <= 'Z'
  }

  predicate Bare(k: string) {
    k != "" && forall i | 0 <= i < |k| :: BareChar(k[i])
  }

  function Key(k: string): string {
    if Bare(k) then k else Quoted(k)
  }

  // Elements one after another, commas between them.
  function Listed<T>(write: T -> string, xs: seq<T>): string {
    if xs == [] then ""
    else if |xs| == 1 then write(xs[0])
    else write(xs[0]) + ", " + Listed(write, xs[1..])
  }

  function ArgList(args: seq<string>): string {
    Listed(Quoted, args)
  }

  // Environment entries, in the order given.
  type Pair = (string, string)

  function PairText(p: Pair): string {
    Key(p.0) + " = " + Quoted(p.1)
  }

  function EnvList(env: seq<Pair>): string {
    Listed(PairText, env)
  }

  // A server as the config describes it.
  datatype Entry = Entry(name: string, command: string, args: seq<string>, env: seq<Pair>)

  function ArgsLine(args: seq<string>): string {
    if args == [] then "" else "args = [" + ArgList(args) + "]\n"
  }

  function EnvLine(env: seq<Pair>): string {
    if env == [] then "" else "env = { " + EnvList(env) + " }\n"
  }

  function Title(name: string): string {
    "[mcp_servers." + Key(name) + "]\n"
  }

  function CommandLine(command: string): string {
    "command = " + Quoted(command) + "\n"
  }

  function Block(e: Entry): string {
    Title(e.name) + CommandLine(e.command) + ArgsLine(e.args) + EnvLine(e.env)
  }

  // Paragraphs joined by blank lines, with a final newline.
  function Paragraphs<T>(write: T -> string, xs: seq<T>): string {
    if xs == [] then ""
    else if |xs| == 1 then write(xs[0]) + "\n"
    else write(xs[0]) + "\n\n" + Paragraphs(write, xs[1..])
  }

  function Document(es: seq<Entry>): string {
    Paragraphs(Block, es)
  }

  // ---------------------------------------------------------------- the printer

  lemma EscapedStep(before: string, s: string, i: nat)
    requires i < |s|
    ensures before + Escaped(s[i..]) == (before + EscapeChar(s[i])) + Escaped(s[i + 1..])
  {
    assert s[i..][1..] == s[i + 1..];
  }

  // What the switch writes for one character.
  method WriteEscaped(b: string, c: char) returns (r: string)
    ensures r == b + EscapeChar(c)
  {
    match c {
      case '\\' => r := b + "\\\\";
      case '"' => r := b + "\\\"";
      case '\n' => r := b + "\\n";
      case '\r' => r := b + "\\r";
      case '\t' => r := b + "\\t";
      case _ => r := b + [c];
    }
  }

  method TomlString(s: string) returns (b: string)
    ensures b == Quoted(s)
  {
    b := "\"";
    for i := 0 to |s|
      invariant b + Escaped(s[i..]) == "\"" + Escaped(s)
    {
      EscapedStep(b, s, i);
      b := WriteEscaped(b, s[i]);
    }
    assert b + "" == b;
    b := b + "\"";
  }

  method TomlKey(k: string) returns (r: string)
    ensures r == Key(k)
  {
    var safe := true;
    for i := 0 to |k|
      invariant safe && forall j | 0 <= j < i :: BareChar(k[j])
    {
      if !BareChar(k[i]) {
        safe := false;
        break;
      }
    }
    if safe && k != "" {
      return k;
    }
    r := TomlString(k);
  }

  ghost function EnvPairs(env: map<string, string>, ks: seq<string>): seq<Pair>
    requires forall k | k in ks :: k in env
  {
    seq(|ks|, i requires 0 <= i < |ks| => (ks[i], env[ks[i]]))
  }

  ghost function EntryOf(s: Server): Entry {
    Entry(s.name, s.command, s.args, EnvPairs(s.env, KeyOrder(s.env.Keys)))
  }

  // Which servers Codex is told about.
  predicate Rendered(s: Server) {
    s.transport == "stdio" && s.command != ""
  }

  ghost function EntriesOf(servers: seq<Server>): seq<Entry> {
    if servers == [] then []
    else (if Rendered(servers[0]) then [EntryOf(servers[0])] else []) + EntriesOf(servers[1..])
  }

  method WriteArgs(args: seq<string>) returns (b: string)
    ensures b == ArgList(args)
  {
    b := "";
    for i := 0 to |args|
      invariant b + (if 0 < i < |args| then ", " else "") + ArgList(args[i..]) == ArgList(args)
    {
      if i > 0 {
        b := b + ", ";
      }
      var q := TomlString(args[i]);
      ListStep(b, Quoted, args, i);
      b := b + q;
    }
    assert b + "" + "" == b;
  }

  lemma ListStep<T>(b: string, write: T -> string, xs: seq<T>, i: nat)
    requires i < |xs|
    ensures b + Listed(write, xs[i..])
            == b + write(xs[i]) + (if i + 1 < |xs| then ", " else "") + Listed(write, xs[i + 1..])
  {
    assert xs[i..][1..] == xs[i + 1..];
  }

  method WriteEnv(env: map<string, string>, keys: seq<string>) returns (b: string)
    requires forall k | k in keys :: k in env
    ensures b == EnvList(EnvPairs(env, keys))
  {
    ghost var pairs := EnvPairs(env, keys);
    b := "";
    for i := 0 to |keys|
      invariant b + (if 0 < i < |keys| then ", " else "") + EnvList(pairs[i..]) == EnvList(pairs)
    {
      if i > 0 {
        b := b + ", ";
      }
      var k := TomlKey(keys[i]);
      var v := TomlString(env[keys[i]]);
      ListStep(b, PairText, pairs, i);
      b := b + (k + " = " + v);
    }
    assert b + "" + "" == b;
  }

  method CodexServerBlock(s: Server) returns (b: string)
    ensures b == Block(EntryOf(s))
  {
    var name := TomlKey(s.name);
    var command := TomlString(s.command);
    var args, env := "", "";
    if |s.args| > 0 {
      var list := WriteArgs(s.args);
      args := "args = [" + list + "]\n";
    }
    var keys := SortedKeys(s.env.Keys);
    OrderUnique(keys, KeyOrder(s.env.Keys), s.env.Keys);
    if |keys| > 0 {
      var list := WriteEnv(s.env, keys);
      env := "env = { " + list + " }\n";
    }
    b := "[mcp_servers." + name + "]\n";
    b := b + ("command = " + command + "\n");
    b := b + args + env;
  }

  // `strings.Join(blocks, "\n\n") + "\n"`
  function JoinBlocks(blocks: seq<string>): string
    requires blocks != []
  {
    if |blocks| == 1 then blocks[0] + "\n" else blocks[0] + "\n\n" + JoinBlocks(blocks[1..])
  }

  lemma {:induction false} JoinIsDocument(blocks: seq<string>, es: seq<Entry>)
    requires blocks != [] && |blocks| == |es| && forall i | 0 <= i < |es| :: blocks[i] == Block(es[i])
    ensures JoinBlocks(blocks) == Document(es)
  {
    if |blocks| > 1 {
      JoinIsDocument(blocks[1..], es[1..]);
    }
  }

  lemma {:induction false} EntriesSnoc(servers: seq<Server>, s: Server)
    ensures EntriesOf(servers + [s]) == EntriesOf(servers) + if Rendered(s) then [EntryOf(s)] else []
  {
    if servers == [] {
      assert servers + [s] == [s] && [s][1..] == [];
    } else {
      EntriesSnoc(servers[1..], s);
      assert (servers + [s])[1..] == servers[1..] + [s];
    }
  }

  lemma {:induction false} NoneRendered(servers: seq<Server>)
    ensures EntriesOf(servers) == [] <==> forall i | 0 <= i < |servers| :: servers[i].transport != "stdio" || servers[i].command == ""
  {
    if servers != [] {
      NoneRendered(servers[1..]);
      assert servers == [servers[0]] + servers[1..];
      assert EntriesOf(servers) == [] <==> !Rendered(servers[0]) && EntriesOf(servers[1..]) == [];
    }
  }

  /** `codexRenderer.render`: the config text, or none when there is no stdio server with a command. */
  method Render(servers: seq<Server>) returns (r: Option<string>)
    ensures r == if EntriesOf(servers) == [] then None else Some(Document(EntriesOf(servers)))
    ensures r.None? <==> forall i | 0 <= i < |servers| :: servers[i].transport != "stdio" || servers[i].command == ""
  {
    NoneRendered(servers);
    var blocks := [];
    for i := 0 to |servers|
      invariant |blocks| == |EntriesOf(servers[..i])|
      invariant forall j | 0 <= j < |blocks| :: blocks[j] == Block(EntriesOf(servers[..i])[j])
    {
      EntriesSnoc(servers[..i], servers[i]);
      assert servers[..i + 1] == servers[..i] + [servers[i]];
      if servers[i].transport != "stdio" || servers[i].command == "" {
        continue;
      }
      var b := CodexServerBlock(servers[i]);
      blocks := blocks + [b];
    }
    assert servers[..|servers|] == servers;
    if |blocks| == 0 {
      return None;
    }
    JoinIsDocument(blocks, EntriesOf(servers));
    return Some(JoinBlocks(blocks));
  }
}

/** Reading the emitted TOML back. A strict reader refuses the control characters TOML refuses; a lenient one takes them. */
module TomlReader {
  import opened Common
  import opened Lexical
  import opened Toml

  // Control characters that may not stand raw in a basic string.
  predicate Control(c: char) {
    (c < ' ' && c != '\t') || c == 127 as char
  }

  function Unescape(c: char): Option<char> {
    match c
    case '\\' => Some('\\')
    case '"' => Some('"')
    case 'n' => Some('\n')
    case 'r' => Some('\r')
    case 't' => Some('\t')
    case _ => None
  }

  // The inside of a basic string, its closing quote, and what follows.
  function ReadBody(t: string, strict: bool): (r: Option<(string, string)>)
    ensures r.Some? ==> |r.value.1| < |t|
  {
    if t == "" then None
    else if t[0] == '"' then Some(("", t[1..]))
    else if t[0] == '\\' then
      if |t| < 2 || Unescape(t[1]).None? then None
      else
        var rest := ReadBody(t[2..], strict);
        if rest.None? then None else Some(([Unescape(t[1]).value] + rest.value.0, rest.value.1))
    else if strict && Control(t[0]) then None
    else
      var rest := ReadBody(t[1..], strict);
      if rest.None? then None else Some(([t[0]] + rest.value.0, rest.value.1))
  }

  function ReadString(t: string, strict: bool): (r: Option<(string, string)>)
    ensures r.Some? ==> |r.value.1| < |t|
  {
    if t != "" && t[0] == '"' then ReadBody(t[1..], strict) else None
  }

  // What may stand in a bare key.
  predicate KeyChar(c: char) {
    '0' <= c <= '9' || 'A' <= c <= 'Z' || 'a' <= c <= 'z' || c in {'_', '-'}
  }

  function BareLength(t: string): (n: nat)
    ensures n <= |t|
  {
    if t == "" || !KeyChar(t[0]) then 0 else 1 + BareLength(t[1..])
  }

  function ReadKey(t: string, strict: bool): (r: Option<(string, string)>)
    ensures r.Some? ==> |r.value.1| < |t|
  {
    if t != "" && t[0] == '"' then ReadString(t, strict)
    else if BareLength(t) == 0 then None
    else Some((t[..BareLength(t)], t[BareLength(t)..]))
  }

  type Reader<!T> = string -> Option<(T, string)>

  // Elements separated by commas, up to the closing text.
  function ReadList<T>(read: Reader<T>, close: string, t: string): (r: Option<(seq<T>, string)>)
    ensures r.Some? ==> |r.value.1| < |t|
    decreases |t|
  {
    var x := read(t);
    if x.None? || |x.value.1| >= |t| then None
    else if HasPrefix(x.value.1, close) then Some(([x.value.0], x.value.1[|close|..]))
    else if HasPrefix(x.value.1, ", ") then
      var more := ReadList(read, close, x.value.1[2..]);
      if more.None? then None else Some(([x.value.0] + more.value.0, more.value.1))
    else None
  }

  function ReadArgs(t: string, strict: bool): (r: Option<(seq<string>, string)>)
    ensures r.Some? ==> |r.value.1| < |t|
  {
    ReadList((u: string) => ReadString(u, strict), "]\n", t)
  }

  function ReadPair(t: string, strict: bool): (r: Option<(Pair, string)>)
    ensures r.Some? ==> |r.value.1| < |t|
  {
    var k := ReadKey(t, strict);
    if k.None? || !HasPrefix(k.value.1, " = ") then None
    else
      var v := ReadString(k.value.1[3..], strict);
      if v.None? then None else Some(((k.value.0, v.value.0), v.value.1))
  }

  function ReadEnv(t: string, strict: bool): (r: Option<(seq<Pair>, string)>)
    ensures r.Some? ==> |r.value.1| < |t|
  {
    ReadList((u: string) => ReadPair(u, strict), " }\n", t)
  }

  function ReadTitle(t: string, strict: bool): (r: Option<(string, string)>)
    ensures r.Some? ==> |r.value.1| < |t|
  {
    if !HasPrefix(t, "[mcp_servers.") then None
    else
      var k := ReadKey(t[13..], strict);
      if k.None? || !HasPrefix(k.value.1, "]\n") then None else Some((k.value.0, k.value.1[2..]))
  }

  function ReadCommand(t: string, strict: bool): (r: Option<(string, string)>)
    ensures r.Some? ==> |r.value.1| < |t|
  {
    if !HasPrefix(t, "command = ") then None
    else
      var c := ReadString(t[10..], strict);
      if c.None? || !HasPrefix(c.value.1, "\n") then None else Some((c.value.0, c.value.1[1..]))
  }

  function ReadArgsLine(t: string, strict: bool): (r: Option<(seq<string>, string)>)
    ensures r.Some? ==> |r.value.1| <= |t|
  {
    if HasPrefix(t, "args = [") then ReadArgs(t[8..], strict) else Some(([], t))
  }

  function ReadEnvLine(t: string, strict: bool): (r: Option<(seq<Pair>, string)>)
    ensures r.Some? ==> |r.value.1| <= |t|
  {
    if HasPrefix(t, "env = { ") then ReadEnv(t[8..], strict) else Some(([], t))
  }

  function ReadBlock(t: string, strict: bool): (r: Option<(Entry, string)>)
    ensures r.Some? ==> |r.value.1| < |t|
  {
    var n := ReadTitle(t, strict);
    if n.None? then None
    else
      var c := ReadCommand(n.value.1, strict);
      if c.None? then None
      else
        var a := ReadArgsLine(c.value.1, strict);
        if a.None? then None
        else
          var e := ReadEnvLine(a.value.1, strict);
          if e.None? then None else Some((Entry(n.value.0, c.value.0, a.value.0, e.value.0), e.value.1))
  }

  // Paragraphs one after another, blank lines between them ignored.
  function ReadParagraphs<T>(read: Reader<T>, t: string): Option<seq<T>>
    decreases |t|
  {
    if t == "" then Some([])
    else if t[0] == '\n' then ReadParagraphs(read, t[1..])
    else
      var x := read(t);
      if x.None? || |x.value.1| >= |t| then None
      else
        var more := ReadParagraphs(read, x.value.1);
        if more.None? then None else Some([x.value.0] + more.value)
  }

  function ReadTables(t: string, strict: bool): Option<seq<Entry>> {
    ReadParagraphs((u: string) => ReadBlock(u, strict), t)
  }

  predicate DistinctNames(es: seq<Entry>) {
    forall i, j | 0 <= i < j < |es| :: es[i].name != es[j].name
  }

  // A document may define each table only once.
  function Decode(t: string): Option<seq<Entry>> {
    var es := ReadTables(t, true);
    if es.Some? && DistinctNames(es.value) then es else None
  }

  // ---------------------------------------------------------------- what can be read back

  // No control character but tab, newline and carriage return.
  predicate CleanChar(c: char) {
    c == '\n' || c == '\r' || !Control(c)
  }

  predicate Clean(s: string) {
    forall i | 0 <= i < |s| :: CleanChar(s[i])
  }

  predicate CleanPair(p: Pair) {
    Clean(p.0) && Clean(p.1)
  }

  predicate CleanEntry(e: Entry) {
    && Clean(e.name) && Clean(e.command)
    && (forall i | 0 <= i < |e.args| :: Clean(e.args[i]))
    && (forall i | 0 <= i < |e.env| :: CleanPair(e.env[i]))
  }

  // ---------------------------------------------------------------- round trips, part by part

  lemma CleanFirst(s: string)
    requires s != ""
    ensures Clean(s) <==> CleanChar(s[0]) && Clean(s[1..])
  {
    assert s == [s[0]] + s[1..];
  }

  lemma ReadEscape(x: char, c: char, more: string, strict: bool)
    requires Unescape(x) == Some(c)
    ensures ReadBody(['\\', x] + more, strict)
            == var r := ReadBody(more, strict); if r.None? then None else Some(([c] + r.value.0, r.value.1))
  {
    var t := ['\\', x] + more;
    assert t[0] == '\\' && t[1] == x && t[2..] == more;
  }

  lemma ReadPlain(c: char, more: string, strict: bool)
    requires c != '\\' && c != '"'
    ensures ReadBody([c] + more, strict)
            == var r := ReadBody(more, strict);
               if (strict && Control(c)) || r.None? then None else Some(([c] + r.value.0, r.value.1))
  {
    var t := [c] + more;
    assert t[0] == c && t[1..] == more;
  }

  lemma ReadEscaped(c: char, more: string, strict: bool)
    ensures ReadBody(EscapeChar(c) + more, strict)
            == var r := ReadBody(more, strict);
               if (strict && !CleanChar(c)) || r.None? then None else Some(([c] + r.value.0, r.value.1))
  {
    var e := EscapeChar(c);
    if |e| == 2 {
      assert e == ['\\', e[1]];
      ReadEscape(e[1], c, more, strict);
    } else {
      ReadPlain(c, more, strict);
    }
  }

  lemma {:induction false} BodyRoundTrip(s: string, rest: string, strict: bool)
    ensures ReadBody(Escaped(s) + "\"" + rest, strict) == if strict && !Clean(s) then None else Some((s, rest))
  {
    if s == "" {
      assert Escaped(s) + "\"" + rest == "\"" + rest;
      assert ("\"" + rest)[1..] == rest;
    } else {
      var more := Escaped(s[1..]) + "\"" + rest;
      BodyRoundTrip(s[1..], rest, strict);
      assert Escaped(s) + "\"" + rest == EscapeChar(s[0]) + more;
      ReadEscaped(s[0], more, strict);
      CleanFirst(s);
      assert s == [s[0]] + s[1..];
    }
  }

  lemma StringRoundTrip(s: string, rest: string, strict: bool)
    ensures ReadString(Quoted(s) + rest, strict) == if strict && !Clean(s) then None else Some((s, rest))
  {
    BodyRoundTrip(s, rest, strict);
    assert (Quoted(s) + rest)[1..] == Escaped(s) + "\"" + rest;
  }

  lemma {:induction false} BareRoundTrip(k: string, rest: string)
    requires forall i | 0 <= i < |k| :: KeyChar(k[i])
    requires rest == "" || !KeyChar(rest[0])
    ensures BareLength(k + rest) == |k|
  {
    if k == "" {
      assert k + rest == rest;
    } else {
      assert (k + rest)[1..] == k[1..] + rest;
      BareRoundTrip(k[1..], rest);
    }
  }

  lemma KeyRoundTrip(k: string, rest: string, strict: bool)
    requires rest == "" || !KeyChar(rest[0])
    ensures ReadKey(Key(k) + rest, strict) == if strict && !Clean(k) then None else Some((k, rest))
  {
    if Bare(k) {
      BareRoundTrip(k, rest);
      assert Clean(k);
    } else {
      StringRoundTrip(k, rest, strict);
    }
  }

  /** A key is written bare exactly if TOML lets it stand so. */
  lemma BareIff(k: string)
    ensures Key(k) == k <==> k != "" && forall i | 0 <= i < |k| :: KeyChar(k[i])
  {
    if !Bare(k) {
      LongerQuoted(k);
      if k != "" {
        var i :| 0 <= i < |k| && !BareChar(k[i]);
        assert !KeyChar(k[i]);
      }
    }
  }

  lemma {:induction false} EscapedNoShorter(s: string)
    ensures |Escaped(s)| >= |s|
  {
    if s != "" {
      EscapedNoShorter(s[1..]);
    }
  }

  lemma LongerQuoted(s: string)
    ensures |Quoted(s)| > |s|
  {
    EscapedNoShorter(s);
  }

  predicate CleanAll(args: seq<string>) {
    forall i | 0 <= i < |args| :: Clean(args[i])
  }

  // The reader gives x back and goes on to the rest, unless x may not be read.
  predicate ReadsBack<T(==)>(read: Reader<T>, write: T -> string, ok: T -> bool, x: T, rest: string) {
    write(x) != "" && read(write(x) + rest) == if ok(x) then Some((x, rest)) else None
  }

  predicate All<T>(ok: T -> bool, xs: seq<T>) {
    forall i | 0 <= i < |xs| :: ok(xs[i])
  }

  lemma AllCons<T>(ok: T -> bool, xs: seq<T>)
    requires xs != []
    ensures All(ok, xs) <==> ok(xs[0]) && All(ok, xs[1..])
  {
    assert xs == [xs[0]] + xs[1..];
  }

  lemma Regroup(a: string, b: string, c: string, d: string)
    ensures a + b + c + d == a + (b + (c + d))
  {
  }

  lemma ReadListStep<T>(read: Reader<T>, write: T -> string, ok: T -> bool, close: string, x: T, after: string)
    requires ReadsBack(read, write, ok, x, after)
    requires close != "" && close[0] != ','
    ensures
      ReadList(read, close, write(x) + after)
      == if !ok(x) then None
         else if HasPrefix(after, close) then Some(([x], after[|close|..]))
         else if !HasPrefix(after, ", ") then None
         else
           var more := ReadList(read, close, after[2..]);
           if more.None? then None else Some(([x] + more.value.0, more.value.1))
  {
  }

  lemma {:induction false} ListRoundTrip<T(!new)>(read: Reader<T>, write: T -> string, ok: T -> bool, close: string,
                                                  xs: seq<T>, rest: string)
    requires forall x, after :: ReadsBack(read, write, ok, x, after)
    requires close != "" && close[0] != ',' && xs != []
    ensures ReadList(read, close, Listed(write, xs) + (close + rest)) == if All(ok, xs) then Some((xs, rest)) else None
  {
    var end := close + rest;
    AllCons(ok, xs);
    if |xs| == 1 {
      assert end[|close|..] == rest && xs == [xs[0]];
      assert ReadsBack(read, write, ok, xs[0], end);
      ReadListStep(read, write, ok, close, xs[0], end);
    } else {
      var more := Listed(write, xs[1..]) + end;
      var after := ", " + more;
      Regroup(write(xs[0]), ", ", Listed(write, xs[1..]), end);
      ListRoundTrip(read, write, ok, close, xs[1..], rest);
      assert after[0] == ',' && after[2..] == more && xs == [xs[0]] + xs[1..];
      assert ReadsBack(read, write, ok, xs[0], after);
      ReadListStep(read, write, ok, close, xs[0], after);
    }
  }

  lemma ArgsRoundTrip(args: seq<string>, rest: string, strict: bool)
    requires args != []
    ensures ReadArgs(ArgList(args) + ("]\n" + rest), strict)
            == if strict && !CleanAll(args) then None else Some((args, rest))
  {
    var read, ok := (u: string) => ReadString(u, strict), (s: string) => !strict || Clean(s);
    forall s, after ensures ReadsBack(read, Quoted, ok, s, after) {
      StringRoundTrip(s, after, strict);
    }
    ListRoundTrip(read, Quoted, ok, "]\n", args, rest);
    assert All(ok, args) <==> !strict || CleanAll(args);
  }

  lemma PairRoundTrip(p: Pair, rest: string, strict: bool)
    ensures ReadPair(PairText(p) + rest, strict)
            == if strict && !CleanPair(p) then None else Some((p, rest))
  {
    var value := Quoted(p.1) + rest;
    var after := " = " + value;
    assert PairText(p) + rest == Key(p.0) + after;
    assert after[3..] == value;
    KeyRoundTrip(p.0, after, strict);
    StringRoundTrip(p.1, rest, strict);
  }

  predicate CleanPairs(env: seq<Pair>) {
    forall i | 0 <= i < |env| :: CleanPair(env[i])
  }

  lemma EnvRoundTrip(env: seq<Pair>, rest: string, strict: bool)
    requires env != []
    ensures ReadEnv(EnvList(env) + (" }\n" + rest), strict)
            == if strict && !CleanPairs(env) then None else Some((env, rest))
  {
    var read, ok := (u: string) => ReadPair(u, strict), (p: Pair) => !strict || CleanPair(p);
    forall p, after ensures ReadsBack(read, PairText, ok, p, after) {
      PairRoundTrip(p, after, strict);
    }
    ListRoundTrip(read, PairText, ok, " }\n", env, rest);
    assert All(ok, env) <==> !strict || CleanPairs(env);
  }

  lemma TitleRoundTrip(name: string, rest: string, strict: bool)
    ensures ReadTitle(Title(name) + rest, strict) == if strict && !Clean(name) then None else Some((name, rest))
  {
    var after := "]\n" + rest;
    assert Title(name) + rest == "[mcp_servers." + (Key(name) + after);
    assert ("[mcp_servers." + (Key(name) + after))[13..] == Key(name) + after;
    assert after[2..] == rest;
    KeyRoundTrip(name, after, strict);
  }

  lemma CommandRoundTrip(command: string, rest: string, strict: bool)
    ensures ReadCommand(CommandLine(command) + rest, strict) == if strict && !Clean(command) then None else Some((command, rest))
  {
    var after := "\n" + rest;
    assert CommandLine(command) + rest == "command = " + (Quoted(command) + after);
    assert ("command = " + (Quoted(command) + after))[10..] == Quoted(command) + after;
    assert after[1..] == rest;
    StringRoundTrip(command, after, strict);
  }

  // What may follow a block: the end, or an empty line.
  predicate BlockEnd(rest: string) {
    rest == "" || rest[0] == '\n'
  }

  lemma EnvLineRoundTrip(env: seq<Pair>, rest: string, strict: bool)
    requires BlockEnd(rest)
    ensures ReadEnvLine(EnvLine(env) + rest, strict) == if strict && !CleanPairs(env) then None else Some((env, rest))
    ensures !HasPrefix(EnvLine(env) + rest, "args = [")
  {
    if env == [] {
      assert EnvLine(env) + rest == rest;
    } else {
      var list := EnvList(env) + (" }\n" + rest);
      assert EnvLine(env) + rest == "env = { " + list;
      assert ("env = { " + list)[8..] == list;
      EnvRoundTrip(env, rest, strict);
    }
  }

  lemma ArgsLineRoundTrip(args: seq<string>, rest: string, strict: bool)
    requires !HasPrefix(rest, "args = [")
    ensures ReadArgsLine(ArgsLine(args) + rest, strict) == if strict && !CleanAll(args) then None else Some((args, rest))
  {
    if args == [] {
      assert ArgsLine(args) + rest == rest;
    } else {
      var list := ArgList(args) + ("]\n" + rest);
      assert ArgsLine(args) + rest == "args = [" + list;
      assert ("args = [" + list)[8..] == list;
      ArgsRoundTrip(args, rest, strict);
    }
  }

  lemma BlockText(e: Entry, rest: string)
    ensures Block(e) + rest == Title(e.name) + (CommandLine(e.command) + (ArgsLine(e.args) + (EnvLine(e.env) + rest)))
  {
    Regroup(Title(e.name), CommandLine(e.command), ArgsLine(e.args), EnvLine(e.env) + rest);
    Assoc(Title(e.name) + CommandLine(e.command) + ArgsLine(e.args), EnvLine(e.env), rest);
  }

  lemma BlockRoundTrip(e: Entry, rest: string, strict: bool)
    requires BlockEnd(rest)
    ensures ReadBlock(Block(e) + rest, strict) == if strict && !CleanEntry(e) then None else Some((e, rest))
  {
    var env := EnvLine(e.env) + rest;
    var args := ArgsLine(e.args) + env;
    var command := CommandLine(e.command) + args;
    BlockText(e, rest);
    TitleRoundTrip(e.name, command, strict);
    CommandRoundTrip(e.command, args, strict);
    EnvLineRoundTrip(e.env, rest, strict);
    ArgsLineRoundTrip(e.args, env, strict);
    assert CleanEntry(e) <==> Clean(e.name) && Clean(e.command) && CleanAll(e.args) && CleanPairs(e.env);
  }

  predicate CleanEntries(es: seq<Entry>) {
    forall i | 0 <= i < |es| :: CleanEntry(es[i])
  }

  lemma {:induction false} ParagraphsRoundTrip<T(!new)>(read: Reader<T>, write: T -> string, ok: T -> bool, xs: seq<T>)
    requires forall x, rest | BlockEnd(rest) :: ReadsBack(read, write, ok, x, rest) && write(x)[0] != '\n'
    ensures ReadParagraphs(read, Paragraphs(write, xs)) == if All(ok, xs) then Some(xs) else None
  {
    if xs != [] {
      var x, more := xs[0], Paragraphs(write, xs[1..]);
      var gap := if |xs| == 1 then "\n" else "\n\n" + more;
      AllCons(ok, xs);
      ParagraphsRoundTrip(read, write, ok, xs[1..]);
      assert xs == [x] + xs[1..] && Paragraphs(write, xs) == write(x) + gap;
      SkipBlankLines(read, gap, more);
      assert ReadsBack(read, write, ok, x, gap);
    }
  }

  lemma SkipBlankLines<T>(read: Reader<T>, gap: string, more: string)
    requires (gap == "\n" && more == "") || gap == "\n\n" + more
    ensures ReadParagraphs(read, gap) == ReadParagraphs(read, more)
  {
    if gap == "\n" && more == "" {
      assert gap[1..] == more;
    } else {
      assert gap[1..] == "\n" + more && gap[1..][1..] == more;
    }
  }

  lemma TablesRoundTrip(es: seq<Entry>, strict: bool)
    ensures ReadTables(Document(es), strict) == if strict && !CleanEntries(es) then None else Some(es)
  {
    var read, ok := (u: string) => ReadBlock(u, strict), (e: Entry) => !strict || CleanEntry(e);
    forall e, rest | BlockEnd(rest) ensures ReadsBack(read, Block, ok, e, rest) && Block(e)[0] != '\n' {
      BlockRoundTrip(e, rest, strict);
    }
    ParagraphsRoundTrip(read, Block, ok, es);
    assert All(ok, es) <==> !strict || CleanEntries(es);
  }

  // ---------------------------------------------------------------- whole configs

  ghost predicate CleanServers(servers: seq<Server>) {
    CleanEntries(EntriesOf(servers))
  }

  /** A rendered config is valid TOML that says, in order, name, command, arguments and environment of every rendered
      server, exactly when no string in it has a control character other than tab, newline and carriage return, and
      no two rendered servers share a name. */
  lemma RenderRoundTrip(servers: seq<Server>)
    requires EntriesOf(servers) != []
    ensures Decode(Document(EntriesOf(servers))) == Some(EntriesOf(servers))
            <==> CleanServers(servers) && DistinctNames(EntriesOf(servers))
  {
    TablesRoundTrip(EntriesOf(servers), true);
  }

  // The environment a listing describes.
  function EnvMap(env: seq<Pair>): map<string, string> {
    if env == [] then map[] else EnvMap(ButLast(env))[Last(env).0 := Last(env).1]
  }

  lemma {:induction false} ListedEnv(env: map<string, string>, ks: seq<string>)
    requires forall k | k in ks :: k in env
    ensures forall k :: k in EnvMap(EnvPairs(env, ks)) <==> k in ks
    ensures forall k | k in ks :: EnvMap(EnvPairs(env, ks))[k] == env[k]
  {
    if ks != [] {
      assert ks == ButLast(ks) + [Last(ks)];
      assert ButLast(EnvPairs(env, ks)) == EnvPairs(env, ButLast(ks));
      ListedEnv(env, ButLast(ks));
    }
  }

  /** Nothing of the environment is lost in the ordered listing. */
  lemma EnvRecovered(s: Server)
    ensures EnvMap(EntryOf(s).env) == s.env
  {
    ListedEnv(s.env, KeyOrder(s.env.Keys));
  }

  // Two servers Codex cannot tell apart.
  predicate SameServer(s: Server, t: Server) {
    s.name == t.name && s.command == t.command && s.args == t.args && s.env == t.env
  }

  // The stdio servers with a command.
  function RenderedOnly(servers: seq<Server>): seq<Server> {
    if servers == [] then []
    else
      var s := servers[0];
      (if s.transport == "stdio" && s.command != "" then [s] else []) + RenderedOnly(servers[1..])
  }

  lemma {:induction false} EntriesByServer(servers: seq<Server>)
    ensures |EntriesOf(servers)| == |RenderedOnly(servers)|
    ensures forall i | 0 <= i < |RenderedOnly(servers)| :: EntriesOf(servers)[i] == EntryOf(RenderedOnly(servers)[i])
  {
    if servers != [] {
      EntriesByServer(servers[1..]);
    }
  }

  /** Rendering is injective on rendered servers, whatever characters their strings hold. */
  lemma RenderInjective(a: seq<Server>, b: seq<Server>)
    requires Document(EntriesOf(a)) == Document(EntriesOf(b))
    ensures |RenderedOnly(a)| == |RenderedOnly(b)|
    ensures forall i | 0 <= i < |RenderedOnly(a)| :: SameServer(RenderedOnly(a)[i], RenderedOnly(b)[i])
  {
    TablesRoundTrip(EntriesOf(a), false);
    TablesRoundTrip(EntriesOf(b), false);
    EntriesByServer(a);
    EntriesByServer(b);
    forall i | 0 <= i < |RenderedOnly(a)| ensures SameServer(RenderedOnly(a)[i], RenderedOnly(b)[i]) {
      EnvRecovered(RenderedOnly(a)[i]);
      EnvRecovered(RenderedOnly(b)[i]);
    }
  }

  // ---------------------------------------------------------------- what a config says of the servers themselves

  // An entry names a server, its command and arguments, and lists its environment in ascending order of the keys.
  predicate Describes(e: Entry, s: Server) {
    && e.name == s.name && e.command == s.command && e.args == s.args && EnvMap(e.env) == s.env
    && forall i, j | 0 <= i < j < |e.env| :: Less(e.env[i].0, e.env[j].0)
  }

  predicate DescribesAll(es: seq<Entry>, servers: seq<Server>) {
    |es| == |servers| && forall i | 0 <= i < |es| :: Describes(es[i], servers[i])
  }

  // No control character but tab, newline and carriage return in anything that is written of it.
  predicate CleanServer(s: Server) {
    && Clean(s.name) && Clean(s.command) && (forall i | 0 <= i < |s.args| :: Clean(s.args[i]))
    && forall k | k in s.env :: Clean(k) && Clean(s.env[k])
  }

  lemma EntryDescribes(s: Server)
    ensures Describes(EntryOf(s), s)
  {
    EnvRecovered(s);
  }

  lemma EntryIsClean(s: Server)
    ensures CleanEntry(EntryOf(s)) <==> CleanServer(s)
  {
    var ks, env := KeyOrder(s.env.Keys), EntryOf(s).env;
    assert forall i | 0 <= i < |env| :: env[i] == (ks[i], s.env[ks[i]]) && ks[i] in ks;
    if CleanEntry(EntryOf(s)) {
      forall k | k in s.env ensures Clean(k) && Clean(s.env[k]) {
        var i :| 0 <= i < |ks| && ks[i] == k;
        assert CleanPair(env[i]);
      }
    }
  }

  lemma EntriesDescribe(servers: seq<Server>)
    ensures DescribesAll(EntriesOf(servers), RenderedOnly(servers))
    ensures CleanEntries(EntriesOf(servers)) <==> forall s | s in RenderedOnly(servers) :: CleanServer(s)
  {
    var es, kept := EntriesOf(servers), RenderedOnly(servers);
    EntriesByServer(servers);
    forall i | 0 <= i < |es| ensures Describes(es[i], kept[i]) && (CleanEntry(es[i]) <==> CleanServer(kept[i])) {
      EntryDescribes(kept[i]);
      EntryIsClean(kept[i]);
    }
    if CleanEntries(es) {
      forall s | s in kept ensures CleanServer(s) {
        var i :| 0 <= i < |kept| && kept[i] == s;
        assert CleanEntry(es[i]);
      }
    }
  }

  // The text is a TOML document that describes these servers, in order, and nothing else.
  ghost predicate Says(text: string, servers: seq<Server>) {
    var es := Decode(text);
    es.Some? && DescribesAll(es.value, servers)
  }

  predicate DistinctServers(servers: seq<Server>) {
    forall i, j | 0 <= i < j < |servers| :: servers[i].name != servers[j].name
  }

  lemma SameNames(es: seq<Entry>, servers: seq<Server>)
    requires DescribesAll(es, servers)
    ensures DistinctNames(es) <==> DistinctServers(servers)
  {
    assert forall i | 0 <= i < |es| :: es[i].name == servers[i].name by {
      assert forall i | 0 <= i < |es| :: Describes(es[i], servers[i]);
    }
  }

  /** The config says what it should of exactly the stdio servers with a command, if and only if their strings have no control
      character other than tab, newline and carriage return, and their names differ. */
  lemma ConfigSays(servers: seq<Server>)
    ensures Says(Document(EntriesOf(servers)), RenderedOnly(servers))
            <==> DistinctServers(RenderedOnly(servers)) && forall s | s in RenderedOnly(servers) :: CleanServer(s)
  {
    var es, kept := EntriesOf(servers), RenderedOnly(servers);
    TablesRoundTrip(es, true);
    EntriesDescribe(servers);
    SameNames(es, kept);
  }
}
