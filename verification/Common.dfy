/** Small vocabulary shared by the models: optional values, sequences grown at their end and what functions make of their
    elements (all of it, one list after another, the latest), and string predicates. */
module Common {

  datatype Option<+T> = None | Some(value: T)

  // The last element and everything before it: the models build traces by appending.
  function ButLast<T>(s: seq<T>): seq<T>
    requires s != []
  {
    s[..|s| - 1]
  }

  function Last<T>(s: seq<T>): T
    requires s != []
  {
    s[|s| - 1]
  }

  lemma SnocParts<T>(s: seq<T>, x: T)
    ensures ButLast(s + [x]) == s && Last(s + [x]) == x
  {
  }

  lemma ConcatParts<T>(a: seq<T>, b: seq<T>)
    requires b != []
    ensures ButLast(a + b) == a + ButLast(b) && Last(a + b) == Last(b)
  {
  }

  lemma Assoc<T>(a: seq<T>, b: seq<T>, c: seq<T>)
    ensures a + b + c == a + (b + c)
  {
  }

  // A function applied to every element, in order.
  function Map<A, B>(f: A -> B, s: seq<A>): seq<B> {
    if s == [] then [] else Map(f, ButLast(s)) + [f(Last(s))]
  }

  lemma {:induction false} MapConcat<A, B>(f: A -> B, a: seq<A>, b: seq<A>)
    ensures Map(f, a + b) == Map(f, a) + Map(f, b)
  {
    if b == [] {
      assert a + b == a;
    } else {
      MapConcat(f, a, ButLast(b));
      assert a + b == (a + ButLast(b)) + [Last(b)];
      SnocParts(a + ButLast(b), Last(b));
    }
  }

  lemma MapSnoc<A, B>(f: A -> B, s: seq<A>, x: A)
    ensures Map(f, s + [x]) == Map(f, s) + [f(x)]
  {
    SnocParts(s, x);
  }

  // One function on all elements but the last, another on the last.
  function MapFinal<A, B>(f: A -> B, g: A -> B, s: seq<A>): seq<B> {
    if s == [] then [] else Map(f, ButLast(s)) + [g(Last(s))]
  }

  lemma MapFinalConcat<A, B>(f: A -> B, g: A -> B, a: seq<A>, b: seq<A>)
    requires b != []
    ensures MapFinal(f, g, a + b) == Map(f, a) + MapFinal(f, g, b)
  {
    ConcatParts(a, b);
    MapConcat(f, a, ButLast(b));
  }

  lemma {:induction false} MapAt<A, B>(f: A -> B, s: seq<A>)
    ensures |Map(f, s)| == |s| && forall i | 0 <= i < |s| :: Map(f, s)[i] == f(s[i])
  {
    if s != [] {
      MapAt(f, ButLast(s));
    }
  }

  // Everything a function gives for the elements, in order.
  function FlatMap<A, B>(f: A -> seq<B>, s: seq<A>): seq<B> {
    if s == [] then [] else FlatMap(f, ButLast(s)) + f(Last(s))
  }

  lemma FlatMapSnoc<A, B>(f: A -> seq<B>, s: seq<A>, x: A)
    ensures FlatMap(f, s + [x]) == FlatMap(f, s) + f(x)
  {
    SnocParts(s, x);
  }

  lemma FlatMapOne<A, B>(f: A -> seq<B>, x: A)
    ensures FlatMap(f, [x]) == f(x)
  {
    assert ButLast([x]) == [];
  }

  lemma {:induction false} FlatMapConcat<A, B>(f: A -> seq<B>, a: seq<A>, b: seq<A>)
    ensures FlatMap(f, a + b) == FlatMap(f, a) + FlatMap(f, b)
  {
    if b == [] {
      assert a + b == a;
    } else {
      FlatMapConcat(f, a, ButLast(b));
      ConcatParts(a, b);
    }
  }

  // Whatever precedes an element that gives something gives properly less than the whole.
  lemma FlatMapProper<A, B>(f: A -> seq<B>, s: seq<A>, i: nat)
    requires i < |s| && f(s[i]) != []
    ensures FlatMap(f, s[..i]) < FlatMap(f, s)
  {
    var before, after := s[..i], s[i..];
    assert s == before + after && after == [s[i]] + after[1..];
    FlatMapConcat(f, before, after);
    FlatMapConcat(f, [s[i]], after[1..]);
    FlatMapOne(f, s[i]);
  }

  // What the last element that says something says, or else the start value.
  function Latest<A, B>(f: A -> Option<B>, start: B, s: seq<A>): B {
    if s == [] then start
    else if f(Last(s)).Some? then f(Last(s)).value
    else Latest(f, start, ButLast(s))
  }

  lemma LatestSnoc<A, B>(f: A -> Option<B>, start: B, s: seq<A>, x: A)
    ensures Latest(f, start, s + [x]) == if f(x).Some? then f(x).value else Latest(f, start, s)
  {
    SnocParts(s, x);
  }

  // r is what the last element that says something says; the start value if none does.
  ghost predicate IsLatest<A, B(!new)>(f: A -> Option<B>, start: B, s: seq<A>, r: B) {
    if forall i | 0 <= i < |s| :: f(s[i]).None? then r == start
    else exists i :: 0 <= i < |s| && f(s[i]) == Some(r) && forall j | i < j < |s| :: f(s[j]).None?
  }

  // An element that says nothing changes nothing.
  lemma LatestStays<A, B(!new)>(f: A -> Option<B>, start: B, s: seq<A>, r: B)
    requires s != [] && f(Last(s)).None? && IsLatest(f, start, ButLast(s), r)
    ensures IsLatest(f, start, s, r)
  {
    var before, n := ButLast(s), |s| - 1;
    if !(forall i | 0 <= i < n :: f(before[i]).None?) {
      var i :| 0 <= i < n && f(before[i]) == Some(r) && forall j | i < j < n :: f(before[j]).None?;
      assert f(s[i]) == Some(r);
      assert forall j | i < j < |s| :: f(s[j]).None?;
    }
  }

  lemma {:induction false} LatestIsLatest<A, B(!new)>(f: A -> Option<B>, start: B, s: seq<A>)
    ensures IsLatest(f, start, s, Latest(f, start, s))
  {
    if s != [] {
      if f(Last(s)).Some? {
        assert f(s[|s| - 1]) == Some(Latest(f, start, s));
      } else {
        LatestIsLatest(f, start, ButLast(s));
        LatestStays(f, start, s, Latest(f, start, ButLast(s)));
      }
    }
  }

  predicate NonDecreasing(s: seq<int>) {
    forall i, j | 0 <= i < j < |s| :: s[i] <= s[j]
  }

  lemma Member<T>(s: set<T>) returns (x: T)
    requires s != {}
    ensures x in s
  {
    x :| x in s;
  }

  /** `unicode.IsSpace`, as `strings.TrimSpace` uses it. */
  predicate IsSpace(c: char) {
    c in {'\t', '\n', 11 as char, 12 as char, '\r', ' ', 0x85 as char, 0xA0 as char, 0x1680 as char,
          0x2028 as char, 0x2029 as char, 0x202F as char, 0x205F as char, 0x3000 as char} ||
    0x2000 as char <= c <= 0x200A as char
  }

  /** `strings.TrimSpace(s) == ""` */
  predicate Blank(s: string) {
    forall i | 0 <= i < |s| :: IsSpace(s[i])
  }

  predicate HasPrefix(s: string, p: string) {
    p <= s
  }

  predicate HasSuffix(s: string, p: string) {
    |p| <= |s| && s[|s| - |p|..] == p
  }

  // `strings.TrimSpace`
  function TrimSpace(s: string): string {
    if s == "" then s
    else if IsSpace(s[0]) then TrimSpace(s[1..])
    else if IsSpace(Last(s)) then TrimSpace(ButLast(s))
    else s
  }

  lemma {:induction false} BlankIsTrimmed(s: string)
    ensures Blank(s) <==> TrimSpace(s) == ""
  {
    if s != "" {
      if IsSpace(s[0]) {
        BlankIsTrimmed(s[1..]);
        assert s == [s[0]] + s[1..];
      } else if IsSpace(Last(s)) {
        BlankIsTrimmed(ButLast(s));
        assert s == ButLast(s) + [Last(s)];
      }
    }
  }
}

/** Finite sets of integers in ascending order. */
module SortedKeys {
  import opened Common

  predicate Ascending(ks: seq<int>) {
    forall i, j | 0 <= i < j < |ks| :: ks[i] < ks[j]
  }

  ghost predicate IsMax(x: int, ks: set<int>) {
    x in ks && forall y | y in ks :: y <= x
  }

  lemma {:induction false} MaxExists(ks: set<int>) returns (x: int)
    requires ks != {}
    ensures IsMax(x, ks)
  {
    var z := Member(ks);
    var rest := ks - {z};
    assert forall w | w in ks :: w == z || w in rest;
    if rest == {} {
      x := z;
    } else {
      x := MaxExists(rest);
      x := if x > z then x else z;
    }
  }

  ghost function Sorted(ks: set<int>): seq<int> {
    if ks == {} then []
    else
      assert exists x :: IsMax(x, ks) by { var x := MaxExists(ks); }
      var x :| IsMax(x, ks);
      Sorted(ks - {x}) + [x]
  }

  function Elements(ks: seq<int>): set<int> {
    set k | k in ks
  }

  lemma {:induction false} AscendingIsSorted(ks: seq<int>)
    requires Ascending(ks)
    ensures Sorted(Elements(ks)) == ks
  {
    if ks != [] {
      var x := Last(ks);
      assert ks == ButLast(ks) + [x];
      assert IsMax(x, Elements(ks));
      assert Elements(ks) - {x} == Elements(ButLast(ks));
      AscendingIsSorted(ButLast(ks));
    }
  }
}

/** Strings in code-point order, and finite sets of them in ascending order. */
module Lexical {
  import opened Common

  // Code-point order, which is `sort.Strings` order for valid text.
  predicate Less(a: string, b: string) {
    if b == "" then false
    else if a == "" then true
    else a[0] < b[0] || (a[0] == b[0] && Less(a[1..], b[1..]))
  }

  lemma {:induction false} LessIsStrict(a: string, b: string)
    ensures !(Less(a, b) && Less(b, a)) && !Less(a, a)
    ensures a != b ==> Less(a, b) || Less(b, a)
  {
    if a != "" && b != "" {
      LessIsStrict(a[1..], b[1..]);
      LessIsStrict(a[1..], a[1..]);
      assert a[0] == b[0] && a[1..] == b[1..] ==> a == [a[0]] + a[1..] == b;
    } else if a != "" {
      LessIsStrict(a[1..], a[1..]);
    }
  }

  lemma {:induction false} LessTransitive(a: string, b: string, c: string)
    requires Less(a, b) && Less(b, c)
    ensures Less(a, c)
  {
    if a != "" && a[0] == b[0] == c[0] {
      LessTransitive(a[1..], b[1..], c[1..]);
    }
  }

  predicate Ascending(ks: seq<string>) {
    forall i, j | 0 <= i < j < |ks| :: Less(ks[i], ks[j])
  }

  ghost predicate IsOrderOf(q: seq<string>, ks: set<string>) {
    Ascending(q) && (forall k :: k in q <==> k in ks)
  }

  lemma {:induction false} OrderUnique(p: seq<string>, q: seq<string>, ks: set<string>)
    requires IsOrderOf(p, ks) && IsOrderOf(q, ks)
    ensures p == q
  {
    assert p != [] ==> p[0] in ks;
    assert q != [] ==> q[0] in ks;
    if p != [] && q != [] {
      if p[0] != q[0] {
        LessIsStrict(p[0], q[0]);
      }
      var rest := ks - {p[0]};
      TailOrder(p, ks);
      TailOrder(q, ks);
      OrderUnique(p[1..], q[1..], rest);
    }
  }

  lemma TailOrder(p: seq<string>, ks: set<string>)
    requires p != [] && IsOrderOf(p, ks)
    ensures IsOrderOf(p[1..], ks - {p[0]})
  {
    forall k ensures k in p[1..] <==> k in ks - {p[0]} {
      LessIsStrict(p[0], p[0]);
      assert p == [p[0]] + p[1..];
    }
  }

  function Insert(q: seq<string>, k: string): seq<string> {
    if q == [] || Less(k, q[0]) then [k] + q else [q[0]] + Insert(q[1..], k)
  }

  lemma {:induction false} InsertKeepsOrder(q: seq<string>, k: string, ks: set<string>)
    requires IsOrderOf(q, ks) && k !in ks
    ensures IsOrderOf(Insert(q, k), ks + {k})
  {
    if q != [] {
      assert q[0] in ks;
      LessIsStrict(q[0], k);
      if Less(k, q[0]) {
        forall j | 0 <= j < |q| ensures Less(k, q[j]) {
          if j > 0 { LessTransitive(k, q[0], q[j]); }
        }
      } else {
        var r := Insert(q[1..], k);
        TailOrder(q, ks);
        InsertKeepsOrder(q[1..], k, ks - {q[0]});
        forall j | 0 <= j < |r| ensures Less(q[0], r[j]) {
          assert r[j] in r;
          if r[j] != k {
            assert r[j] in q[1..];
          }
        }
      }
    }
  }

  /** The keys in order: what collecting them from the map in any order and sorting gives. */
  method SortedKeys(keys: set<string>) returns (q: seq<string>)
    ensures IsOrderOf(q, keys)
  {
    q := [];
    var todo := keys;
    while todo != {}
      invariant todo <= keys && IsOrderOf(q, keys - todo)
    {
      assert exists k :: k in todo by { var k := Member(todo); }
      var k :| k in todo;
      InsertKeepsOrder(q, k, keys - todo);
      q := Insert(q, k);
      todo := todo - {k};
      assert keys - todo == keys - (todo + {k}) + {k};
    }
    assert keys - todo == keys;
  }

  lemma {:induction false} OrderExists(ks: set<string>) returns (q: seq<string>)
    ensures IsOrderOf(q, ks)
  {
    if ks == {} {
      q := [];
    } else {
      var k := Member(ks);
      var p := OrderExists(ks - {k});
      InsertKeepsOrder(p, k, ks - {k});
      q := Insert(p, k);
      assert ks - {k} + {k} == ks;
    }
  }

  ghost function KeyOrder(ks: set<string>): (q: seq<string>)
    ensures IsOrderOf(q, ks)
  {
    assert exists q :: IsOrderOf(q, ks) by { var q := OrderExists(ks); }
    var q :| IsOrderOf(q, ks);
    q
  }
}
