/** Strings as the repository's Go, Python and TypeScript code handles them: splitting, joining, trimming. */
module Text {

  predicate HasPrefix(s: string, prefix: string) {
    |prefix| <= |s| && s[..|prefix|] == prefix
  }

  function TrimPrefix(s: string, prefix: string): string {
    if HasPrefix(s, prefix) then s[|prefix|..] else s
  }

  predicate HasSuffix(s: string, suffix: string) {
    |suffix| <= |s| && s[|s| - |suffix|..] == suffix
  }

  /** The pieces of `s` between occurrences of `sep`; always at least one piece. */
  function Split(s: string, sep: char): (parts: seq<string>)
    ensures |parts| >= 1
    ensures forall i :: 0 <= i < |parts| ==> sep !in parts[i]
  {
    if s == "" then [""]
    else
      var rest := Split(s[1..], sep);
      if s[0] == sep then [""] + rest
      else [[s[0]] + rest[0]] + rest[1..]
  }

  /** The pieces with `sep` between neighbours. */
  function Join(parts: seq<string>, sep: char): string
    requires |parts| >= 1
  {
    if |parts| == 1 then parts[0] else parts[0] + [sep] + Join(parts[1..], sep)
  }

  /** Splitting at a separator splits on both sides of it. */
  lemma {:induction false} SplitBoth(a: string, b: string, sep: char)
    ensures Split(a + [sep] + b, sep) == Split(a, sep) + Split(b, sep)
  {
    var whole := a + [sep] + b;
    if a == "" {
      assert whole[1..] == b;
    } else {
      assert whole[1..] == a[1..] + [sep] + b;
      SplitBoth(a[1..], b, sep);
      FirstPieceGrows(a[0], Split(a[1..], sep), Split(b, sep));
    }
  }

  /** One more character in front of the pieces does the same whether or not more pieces follow. */
  lemma FirstPieceGrows(c: char, left: seq<string>, right: seq<string>)
    requires |left| >= 1
    ensures var all := left + right;
      && [""] + all == [""] + left + right
      && [[c] + all[0]] + all[1..] == [[c] + left[0]] + left[1..] + right
  {
  }

  /** Splitting at a separator that follows a piece without one peels off exactly that piece. */
  lemma SplitPeels(head: string, rest: string, sep: char)
    requires sep !in head
    ensures Split(head + [sep] + rest, sep) == [head] + Split(rest, sep)
  {
    SplitBoth(head, rest, sep);
    SplitWhole(head, sep);
  }

  /** A separator and a piece after it add exactly that piece. */
  lemma SplitAppends(s: string, last: string, sep: char)
    requires sep !in last
    ensures Split(s + [sep] + last, sep) == Split(s, sep) + [last]
  {
    SplitBoth(s, last, sep);
    SplitWhole(last, sep);
  }

  lemma {:induction false} SplitWhole(s: string, sep: char)
    requires sep !in s
    ensures Split(s, sep) == [s]
  {
    if s != "" {
      SplitWhole(s[1..], sep);
      assert [s[0]] + s[1..] == s;
    }
  }

  /** Splitting undoes joining when no piece contains the separator. */
  lemma {:induction false} SplitJoin(parts: seq<string>, sep: char)
    requires |parts| >= 1
    requires forall i :: 0 <= i < |parts| ==> sep !in parts[i]
    ensures Split(Join(parts, sep), sep) == parts
  {
    if |parts| == 1 {
      SplitWhole(parts[0], sep);
    } else {
      SplitJoin(parts[1..], sep);
      SplitPeels(parts[0], Join(parts[1..], sep), sep);
      assert [parts[0]] + parts[1..] == parts;
    }
  }

  /** A separator that neither left part contains marks the same place on both sides. */
  lemma SeparatorCancels(a: string, b: string, x: string, y: string, sep: char)
    requires sep !in a && sep !in b
    requires a + [sep] + x == b + [sep] + y
    ensures a == b && x == y
  {
    var s, t := a + [sep] + x, b + [sep] + y;
    assert s[|a|] == sep && t[|b|] == sep;
    assert forall i :: 0 <= i < |a| ==> s[i] == a[i] && a[i] != sep;
    assert forall i :: 0 <= i < |b| ==> t[i] == b[i] && b[i] != sep;
    assert |a| == |b|;
    assert a == s[..|a|] && b == t[..|b|];
    assert x == s[|a| + 1..] && y == t[|b| + 1..];
  }

  /** `a` and `x` read like `b` and `y` with part of `b` moved over the separator. */
  predicate Overlaps(a: string, x: string, b: string, y: string, sep: char) {
    HasPrefix(b, a + [sep]) && x == b[|a| + 1..] + [sep] + y
  }

  lemma OverlapHasSeparator(a: string, x: string, b: string, y: string, sep: char)
    ensures Overlaps(a, x, b, y, sep) ==> sep in b
  {
    if HasPrefix(b, a + [sep]) {
      assert b[|a|] == b[..|a| + 1][|a|];
    }
  }

  /** Exactly when two pairs read alike once a separator joins each, whatever separators they contain. */
  lemma JoinedAlikeIff(a: string, x: string, b: string, y: string, sep: char)
    ensures a + [sep] + x == b + [sep] + y
       <==> (a == b && x == y) || Overlaps(a, x, b, y, sep) || Overlaps(b, y, a, x, sep)
  {
    if Overlaps(a, x, b, y, sep) {
      OverlapJoinsAlike(a, x, b, y, sep);
    } else if Overlaps(b, y, a, x, sep) {
      OverlapJoinsAlike(b, y, a, x, sep);
    }
    if a + [sep] + x == b + [sep] + y {
      if |a| <= |b| {
        AlikeOverlaps(a, x, b, y, sep);
      } else {
        AlikeOverlaps(b, y, a, x, sep);
      }
    }
  }

  lemma OverlapJoinsAlike(a: string, x: string, b: string, y: string, sep: char)
    requires Overlaps(a, x, b, y, sep)
    ensures a + [sep] + x == b + [sep] + y
  {
    var rest := b[|a| + 1..];
    assert b == a + [sep] + rest;
    assert a + [sep] + (rest + [sep] + y) == a + [sep] + rest + [sep] + y;
  }

  lemma AlikeOverlaps(a: string, x: string, b: string, y: string, sep: char)
    requires a + [sep] + x == b + [sep] + y && |a| <= |b|
    ensures (a == b && x == y) || Overlaps(a, x, b, y, sep)
  {
    var s, t := a + [sep] + x, b + [sep] + y;
    assert a == s[..|a|] && b == t[..|b|] && x == s[|a| + 1..] && y == t[|b| + 1..];
    if |a| < |b| {
      assert b[..|a| + 1] == s[..|a| + 1] == a + [sep];
      assert x == t[|a| + 1..] == b[|a| + 1..] + [sep] + y;
    }
  }

  function TrimLeft(s: string, c: char): (t: string)
    ensures t == "" || t[0] != c
  {
    if s != "" && s[0] == c then TrimLeft(s[1..], c) else s
  }

  function TrimRight(s: string, c: char): (t: string)
    ensures t == "" || t[|t| - 1] != c
  {
    if s != "" && s[|s| - 1] == c then TrimRight(s[..|s| - 1], c) else s
  }

  function Trim(s: string, c: char): string {
    TrimRight(TrimLeft(s, c), c)
  }

  function Repeat(c: char, n: nat): (s: string)
    ensures |s| == n && forall i :: 0 <= i < n ==> s[i] == c
  {
    if n == 0 then "" else [c] + Repeat(c, n - 1)
  }

  lemma {:induction false} TrimLeftSkips(n: nat, s: string, c: char)
    requires s == "" || s[0] != c
    ensures TrimLeft(Repeat(c, n) + s, c) == s
  {
    if n > 0 {
      var padded := Repeat(c, n - 1) + s;
      assert Repeat(c, n) + s == [c] + padded;
      assert ([c] + padded)[1..] == padded;
      TrimLeftSkips(n - 1, s, c);
    } else {
      assert Repeat(c, 0) + s == s;
    }
  }

  lemma {:induction false} TrimRightSkips(s: string, n: nat, c: char)
    requires s == "" || s[|s| - 1] != c
    ensures TrimRight(s + Repeat(c, n), c) == s
  {
    if n > 0 {
      var t := s + Repeat(c, n);
      assert t[|t| - 1] == c;
      assert t[..|t| - 1] == s + Repeat(c, n - 1) by {
        assert Repeat(c, n)[..n - 1] == Repeat(c, n - 1);
      }
      TrimRightSkips(s, n - 1, c);
    } else {
      assert s + Repeat(c, 0) == s;
    }
  }

  /** Trimming removes any run of the character around a text that neither starts nor ends with it. */
  lemma TrimSkips(left: nat, s: string, right: nat, c: char)
    requires s != "" && s[0] != c && s[|s| - 1] != c
    ensures Trim(Repeat(c, left) + s + Repeat(c, right), c) == s
  {
    var tail := s + Repeat(c, right);
    assert Repeat(c, left) + s + Repeat(c, right) == Repeat(c, left) + tail;
    TrimLeftSkips(left, tail, c);
    TrimRightSkips(s, right, c);
  }

  /** The position of the first `c`, or the length when there is none. */
  function IndexOf(s: string, c: char): (i: nat)
    ensures i <= |s|
    ensures c !in s[..i]
    ensures i < |s| ==> s[i] == c
    ensures i == |s| <==> c !in s
  {
    if s == "" || s[0] == c then 0
    else
      var i := 1 + IndexOf(s[1..], c);
      assert s[..i] == [s[0]] + s[1..][..i - 1];
      i
  }

  lemma {:induction false} IndexOfIs(s: string, c: char, i: nat)
    requires i <= |s| && c !in s[..i] && (i < |s| ==> s[i] == c)
    ensures IndexOf(s, c) == i
  {
  }
}
