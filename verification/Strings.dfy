/** Byte strings. A Go string is a sequence of bytes; here it is a Dafny `string` in which
    every `char` stands for one byte. Nothing below depends on an upper bound of a char, so the
    results hold for all byte values. */
module Strings {

  datatype Option<+T> = None | Some(value: T)

  datatype Result<+T, +E> = Ok(value: T) | Err(error: E)

  /** strings.IndexByte: the first position of `c`, or -1. */
  function IndexByte(s: string, c: char): (i: int)
    ensures -1 <= i < |s|
    ensures i >= 0 ==> s[i] == c && c !in s[..i]
    ensures i < 0 <==> c !in s
  {
    if s == "" then -1
    else if s[0] == c then 0
    else
      var j := IndexByte(s[1..], c);
      assert s == [s[0]] + s[1..];
      if j < 0 then -1
      else
        assert s[..j + 1] == [s[0]] + s[1..][..j];
        j + 1
  }

  lemma IndexByteUnique(s: string, c: char, i: nat)
    requires i < |s| && s[i] == c && c !in s[..i]
    ensures IndexByte(s, c) == i
  {
    if i > 0 {
      assert s[..i] == [s[0]] + s[1..i];
      assert s[1..][..i - 1] == s[1..i];
      IndexByteUnique(s[1..], c, i - 1);
    }
  }

  predicate ContainsAny(s: string, chars: string) {
    exists i :: 0 <= i < |s| && s[i] in chars
  }

  predicate HasSuffix(s: string, suffix: string) {
    |suffix| <= |s| && s[|s| - |suffix|..] == suffix
  }

  /** Made of the given bytes only. */
  predicate AllIn(s: string, chars: string) {
    forall i :: 0 <= i < |s| ==> s[i] in chars
  }

  // ---- strings.TrimSpace ------------------------------------------------------------------

  predicate IsAsciiSpace(c: char) {
    c == ' ' || ('\t' <= c <= '\r')
  }

  /** The two-byte UTF-8 encodings of U+0085 and U+00A0. */
  predicate IsSpace2(a: char, b: char) {
    a == '\U{C2}' && (b == '\U{85}' || b == '\U{A0}')
  }

  /** The three-byte UTF-8 encodings of the other Unicode space characters: U+1680,
      U+2000..U+200A, U+2028, U+2029, U+202F, U+205F and U+3000. */
  predicate IsSpace3(a: char, b: char, c: char) {
    || (a == '\U{E1}' && b == '\U{9A}' && c == '\U{80}')
    || (a == '\U{E2}' && b == '\U{80}' && ('\U{80}' <= c <= '\U{8A}' || c in "\U{A8}\U{A9}\U{AF}"))
    || (a == '\U{E2}' && b == '\U{81}' && c == '\U{9F}')
    || (a == '\U{E3}' && b == '\U{80}' && c == '\U{80}')
  }

  /** Number of bytes of the space character at the front of `s`, 0 if there is none. */
  function LeadingSpace(s: string): (w: nat)
    ensures w <= |s|
  {
    if |s| >= 1 && IsAsciiSpace(s[0]) then 1
    else if |s| >= 2 && IsSpace2(s[0], s[1]) then 2
    else if |s| >= 3 && IsSpace3(s[0], s[1], s[2]) then 3
    else 0
  }

  function TrailingSpace(s: string): (w: nat)
    ensures w <= |s|
  {
    var n := |s|;
    if n >= 1 && IsAsciiSpace(s[n - 1]) then 1
    else if n >= 2 && IsSpace2(s[n - 2], s[n - 1]) then 2
    else if n >= 3 && IsSpace3(s[n - 3], s[n - 2], s[n - 1]) then 3
    else 0
  }

  function TrimLeft(s: string): string
    decreases |s|
  {
    var w := LeadingSpace(s);
    if w == 0 then s else TrimLeft(s[w..])
  }

  function TrimRight(s: string): string
    decreases |s|
  {
    var w := TrailingSpace(s);
    if w == 0 then s else TrimRight(s[..|s| - w])
  }

  function TrimSpace(s: string): string {
    TrimRight(TrimLeft(s))
  }

  /** A printable ASCII byte other than the space. */
  predicate IsGraphic(c: char) {
    '!' <= c <= '~'
  }

  lemma TrimSpaceId(s: string)
    requires s != "" ==> IsGraphic(s[0]) && IsGraphic(s[|s| - 1])
    ensures TrimSpace(s) == s
  {
  }

  /** strings.TrimRight(s, "\r\n"). */
  function TrimEol(s: string): (r: string)
    ensures r <= s
    ensures r != "" ==> r[|r| - 1] !in "\r\n"
    ensures AllIn(s[|r|..], "\r\n")
  {
    if s != "" && s[|s| - 1] in "\r\n" then
      var r := TrimEol(s[..|s| - 1]);
      assert s[|r|..] == s[..|s| - 1][|r|..] + [s[|s| - 1]];
      r
    else s
  }

  lemma TrimEolUnique(s: string, tail: string)
    requires s != "" && s[|s| - 1] !in "\r\n"
    requires AllIn(tail, "\r\n")
    ensures TrimEol(s + tail) == s
  {
    if tail != "" {
      var t := tail[..|tail| - 1];
      assert (s + tail)[..|s + tail| - 1] == s + t;
      TrimEolUnique(s, t);
    } else {
      assert s + tail == s;
    }
  }
}

/** sort.Strings on distinct strings, as the one strictly increasing sequence over a set. */
module Sorting {

  /** Byte-wise lexicographic order, Go's `<=` on strings. */
  predicate Leq(a: string, b: string) {
    a == "" || (b != "" && (a[0] < b[0] || (a[0] == b[0] && Leq(a[1..], b[1..]))))
  }

  predicate Less(a: string, b: string) {
    Leq(a, b) && a != b
  }

  lemma LeqReflexive(a: string)
    ensures Leq(a, a)
  {
  }

  lemma LeqTotal(a: string, b: string)
    ensures Leq(a, b) || Leq(b, a)
  {
  }

  lemma LeqTransitive(a: string, b: string, c: string)
    requires Leq(a, b) && Leq(b, c)
    ensures Leq(a, c)
  {
  }

  lemma {:induction false} LeqAntisymmetric(a: string, b: string)
    requires Leq(a, b) && Leq(b, a)
    ensures a == b
  {
    if a != "" {
      LeqAntisymmetric(a[1..], b[1..]);
      assert a == [a[0]] + a[1..] && b == [b[0]] + b[1..];
    }
  }

  predicate IsMin(x: string, s: set<string>) {
    x in s && forall y :: y in s ==> Leq(x, y)
  }

  lemma {:induction false} MinExists(s: set<string>)
    requires s != {}
    ensures exists x :: IsMin(x, s)
  {
    var x :| x in s;
    var rest := s - {x};
    if rest == {} {
      LeqReflexive(x);
      assert s == {x};
      assert IsMin(x, s);
    } else {
      MinExists(rest);
      var m :| IsMin(m, rest);
      LeqTotal(x, m);
      var best := if Leq(x, m) then x else m;
      forall y | y in s
        ensures Leq(best, y)
      {
        LeqReflexive(x);
        if y != x && best == x {
          LeqTransitive(x, m, y);
        }
      }
      assert IsMin(best, s);
    }
  }

  lemma MinUnique(s: set<string>, x: string, y: string)
    requires IsMin(x, s) && IsMin(y, s)
    ensures x == y
  {
    LeqAntisymmetric(x, y);
  }

  function Min(s: set<string>): (x: string)
    requires s != {}
    ensures IsMin(x, s)
  {
    MinExists(s);
    assert forall x, y | IsMin(x, s) && IsMin(y, s) :: x == y by {
      forall x, y | IsMin(x, s) && IsMin(y, s)
        ensures x == y
      {
        MinUnique(s, x, y);
      }
    }
    var x :| x in s && IsMin(x, s);
    x
  }

  ghost predicate StrictlySorted(s: seq<string>) {
    forall i, j :: 0 <= i < j < |s| ==> Less(s[i], s[j])
  }

  function Elements(s: seq<string>): set<string> {
    set x | x in s
  }

  /** The elements of `s` in increasing order. */
  function Sorted(s: set<string>): (r: seq<string>)
    ensures Elements(r) == s
    ensures StrictlySorted(r)
  {
    if s == {} then []
    else
      var x := Min(s);
      var rest := Sorted(s - {x});
      assert forall y :: y in rest <==> y in s - {x};
      assert forall y :: y in [x] + rest <==> y == x || y in rest;
      [x] + rest
  }

  lemma {:induction false} StrictlySortedUnique(a: seq<string>, b: seq<string>)
    requires StrictlySorted(a) && StrictlySorted(b)
    requires Elements(a) == Elements(b)
    ensures a == b
  {
    assert b != [] ==> b[0] in Elements(b);
    if a != [] {
      assert a[0] in Elements(a);
      var i :| 0 <= i < |b| && b[i] == a[0];
      assert b[0] in Elements(b);
      var j :| 0 <= j < |a| && a[j] == b[0];
      if i > 0 && j > 0 {
        LeqAntisymmetric(a[0], b[0]);
      }
      assert a[0] == b[0];
      forall x
        ensures x in Elements(a[1..]) <==> x in Elements(b[1..])
      {
        TailElements(a, x);
        TailElements(b, x);
      }
      StrictlySortedUnique(a[1..], b[1..]);
      assert a == [a[0]] + a[1..] && b == [b[0]] + b[1..];
    }
  }

  lemma TailElements(a: seq<string>, x: string)
    requires StrictlySorted(a) && a != []
    ensures x in Elements(a[1..]) <==> x in Elements(a) && x != a[0]
  {
    if x in a && x != a[0] {
      var k :| 0 <= k < |a| && a[k] == x;
      assert a[1..][k - 1] == x;
    }
    if x in a[1..] {
      var k :| 0 <= k < |a| - 1 && a[1..][k] == x;
      assert a[k + 1] == x && Less(a[0], a[k + 1]);
    }
  }

  lemma SortedIndex(s: set<string>, i: nat)
    requires i < |Sorted(s)|
    ensures Sorted(s)[i] in s
  {
    assert Sorted(s)[i] in Elements(Sorted(s));
  }
}
