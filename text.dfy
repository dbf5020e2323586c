/**
 * String helpers shared by the Go back end and the TypeScript front end:
 * white-space trimming, ASCII case mapping, joining and splitting on a
 * separator, substring occurrence and the byte-wise order Go uses for `<`
 * on strings.
 */
module Text {

  /** White space removed by `strings.TrimSpace` and `String.prototype.trim`
      (the ASCII part: space, tab, line feed, vertical tab, form feed, carriage return). */
  predicate IsSpace(c: char) {
    c == ' ' || c == '\t' || c == '\n' || c == '\U{000B}' || c == '\U{000C}' || c == '\r'
  }

  predicate NoSpace(s: string) {
    forall k :: 0 <= k < |s| ==> !IsSpace(s[k])
  }

  /** Drops leading white space. */
  function TrimLeft(s: string): (r: string)
    ensures |r| <= |s|
    ensures r == [] || !IsSpace(r[0])
  {
    if s != [] && IsSpace(s[0]) then TrimLeft(s[1..]) else s
  }

  /** Drops trailing white space. */
  function TrimRight(s: string): (r: string)
    ensures |r| <= |s|
    ensures r == [] || !IsSpace(r[|r| - 1])
  {
    if s != [] && IsSpace(s[|s| - 1]) then TrimRight(s[..|s| - 1]) else s
  }

  /** `strings.TrimSpace` / `trim()`. */
  function Trim(s: string): string
  {
    TrimRight(TrimLeft(s))
  }

  /** A string without white space trims to itself. */
  lemma TrimNoSpace(s: string)
    requires NoSpace(s)
    ensures Trim(s) == s
  {
    if s != [] {
      assert !IsSpace(s[0]) && !IsSpace(s[|s| - 1]);
    }
  }

  /** Trimming twice is trimming once. */
  lemma TrimIdempotent(s: string)
    ensures Trim(Trim(s)) == Trim(s)
  {
    var l := TrimLeft(s);
    var t := TrimRight(l);
    if t != [] {
      TrimRightPrefix(l);
      assert t[0] == l[0];
      assert TrimLeft(t) == t;
      assert TrimRight(t) == t;
    }
  }

  lemma {:induction false} TrimRightPrefix(s: string)
    ensures TrimRight(s) == s[..|TrimRight(s)|]
  {
    if s != [] && IsSpace(s[|s| - 1]) {
      TrimRightPrefix(s[..|s| - 1]);
    }
  }

  function LowerChar(c: char): char {
    if 'A' <= c <= 'Z' then (c as int + 32) as char else c
  }

  function UpperChar(c: char): char {
    if 'a' <= c <= 'z' then (c as int - 32) as char else c
  }

  /** `strings.ToLower` / `toLowerCase` on ASCII letters. */
  function Lower(s: string): (r: string)
    ensures |r| == |s| && forall k :: 0 <= k < |s| ==> r[k] == LowerChar(s[k])
  {
    seq(|s|, k requires 0 <= k < |s| => LowerChar(s[k]))
  }

  /** `strings.ToUpper` on ASCII letters. */
  function Upper(s: string): (r: string)
    ensures |r| == |s| && forall k :: 0 <= k < |s| ==> r[k] == UpperChar(s[k])
  {
    seq(|s|, k requires 0 <= k < |s| => UpperChar(s[k]))
  }

  /** `strings.Join` / `Array.prototype.join`. */
  function Join(xs: seq<string>, sep: string): string
  {
    if |xs| == 0 then ""
    else if |xs| == 1 then xs[0]
    else xs[0] + sep + Join(xs[1..], sep)
  }

  /** A join holds a character only when one of its parts or the separator does. */
  lemma {:induction false} JoinAvoids(xs: seq<string>, sep: string, c: char)
    requires c !in sep
    requires forall k :: 0 <= k < |xs| ==> c !in xs[k]
    ensures c !in Join(xs, sep)
  {
    if |xs| > 1 {
      JoinAvoids(xs[1..], sep, c);
    }
  }

  /** Joining a head part before at least one more part puts the separator after it. */
  lemma JoinCons(x: string, xs: seq<string>, sep: string)
    requires |xs| >= 1
    ensures Join([x] + xs, sep) == x + sep + Join(xs, sep)
  {
    assert ([x] + xs)[1..] == xs;
  }

  /** Splits on every occurrence of c; the inverse of joining with [c]. */
  function Split(s: string, c: char): (r: seq<string>)
    ensures |r| >= 1
  {
    if s == [] then [""]
    else
      var rest := Split(s[1..], c);
      if s[0] == c then [""] + rest else [[s[0]] + rest[0]] + rest[1..]
  }

  lemma {:induction false} SplitAfterPlain(x: string, t: string, c: char)
    requires c !in x
    ensures Split(x + t, c) == [x + Split(t, c)[0]] + Split(t, c)[1..]
  {
    if x != [] {
      assert (x + t)[1..] == x[1..] + t;
      SplitAfterPlain(x[1..], t, c);
      assert [x[0]] + (x[1..] + Split(t, c)[0]) == x + Split(t, c)[0];
    } else {
      var r := Split(t, c);
      assert x + t == t;
      assert r == [r[0]] + r[1..];
      assert x + r[0] == r[0];
    }
  }

  /** Splitting a join on c gives back the parts, provided no part contains c. */
  lemma {:induction false} SplitJoin(xs: seq<string>, c: char)
    requires |xs| >= 1
    requires forall k :: 0 <= k < |xs| ==> c !in xs[k]
    ensures Split(Join(xs, [c]), c) == xs
  {
    if |xs| == 1 {
      SplitAfterPlain(xs[0], "", c);
      assert xs[0] + "" == xs[0];
    } else {
      var rest := Join(xs[1..], [c]);
      SplitJoin(xs[1..], c);
      assert Split([c] + rest, c) == [""] + Split(rest, c) by {
        assert ([c] + rest)[1..] == rest;
      }
      assert xs[0] + [c] + rest == xs[0] + ([c] + rest);
      SplitAfterPlain(xs[0], [c] + rest, c);
      assert xs[0] + "" == xs[0];
      assert [xs[0]] + xs[1..] == xs;
    }
  }

  /** sub occurs somewhere inside s. */
  ghost predicate Occurs(sub: string, s: string) {
    exists i :: OccursAt(sub, s, i)
  }

  /** sub occurs in s starting at index i. */
  predicate OccursAt(sub: string, s: string, i: int) {
    0 <= i <= |s| - |sub| && s[i..i + |sub|] == sub
  }

  lemma OccursBetween(a: string, sub: string, b: string)
    ensures Occurs(sub, a + sub + b)
  {
    var s := a + sub + b;
    assert OccursAt(sub, s, |a|);
  }

  lemma OccursSelf(s: string)
    ensures Occurs(s, s)
  {
    assert OccursAt(s, s, 0);
  }

  /** Text occurring in s occurs in a + s. */
  lemma OccursLeft(sub: string, s: string, a: string)
    requires Occurs(sub, s)
    ensures Occurs(sub, a + s)
  {
    var i :| OccursAt(sub, s, i);
    assert (a + s)[|a| + i..|a| + i + |sub|] == s[i..i + |sub|];
    assert OccursAt(sub, a + s, |a| + i);
  }

  /** Text occurring in s occurs in s + b. */
  lemma OccursRight(sub: string, s: string, b: string)
    requires Occurs(sub, s)
    ensures Occurs(sub, s + b)
  {
    var i :| OccursAt(sub, s, i);
    assert (s + b)[i..i + |sub|] == s[i..i + |sub|];
    assert OccursAt(sub, s + b, i);
  }

  /** Go's `<` on strings: lexicographic by character (the byte order of UTF-8). */
  predicate Less(a: string, b: string) {
    if a == [] then b != []
    else if b == [] then false
    else if a[0] != b[0] then a[0] < b[0]
    else Less(a[1..], b[1..])
  }

  predicate LessEq(a: string, b: string) {
    a == b || Less(a, b)
  }

  lemma {:induction false} LessIrreflexive(a: string)
    ensures !Less(a, a)
  {
    if a != [] { LessIrreflexive(a[1..]); }
  }

  lemma {:induction false} LessTransitive(a: string, b: string, c: string)
    requires Less(a, b) && Less(b, c)
    ensures Less(a, c)
  {
    if a != [] && b != [] && c != [] && a[0] == b[0] && b[0] == c[0] {
      LessTransitive(a[1..], b[1..], c[1..]);
    }
  }

  lemma {:induction false} LessTotal(a: string, b: string)
    ensures a == b || Less(a, b) || Less(b, a)
  {
    if a != [] && b != [] && a[0] == b[0] {
      LessTotal(a[1..], b[1..]);
      if a[1..] == b[1..] {
        assert a == [a[0]] + a[1..] && b == [b[0]] + b[1..];
      }
    }
  }

  lemma {:induction false} LessAsymmetric(a: string, b: string)
    requires Less(a, b)
    ensures !Less(b, a)
  {
    if a != [] && b != [] && a[0] == b[0] {
      LessAsymmetric(a[1..], b[1..]);
    }
  }

  /** The strings `line` writes for the elements of `gs`, in order. */
  function LinesOf<T>(gs: seq<T>, line: T -> string): string {
    if gs == [] then "" else LinesOf(gs[..|gs| - 1], line) + line(gs[|gs| - 1])
  }

  /** Writing one more element appends its line. */
  lemma LinesStep<T>(gs: seq<T>, i: nat, line: T -> string)
    requires i < |gs|
    ensures LinesOf(gs[..i + 1], line) == LinesOf(gs[..i], line) + line(gs[i])
  {
    var head := gs[..i + 1];
    assert head[..|head| - 1] == gs[..i];
    assert head[|head| - 1] == gs[i];
  }

  lemma {:induction false} LinesAppend<T>(a: seq<T>, b: seq<T>, line: T -> string)
    ensures LinesOf(a + b, line) == LinesOf(a, line) + LinesOf(b, line)
  {
    if b != [] {
      LinesAppend(a, b[..|b| - 1], line);
      assert (a + b)[..|a + b| - 1] == a + b[..|b| - 1];
    } else {
      assert a + b == a;
    }
  }

  /** One line per element, in order: the k-th element's line sits between the lines of the
      elements before it and those after it. */
  lemma LinesInOrder<T>(gs: seq<T>, k: nat, line: T -> string)
    requires k < |gs|
    ensures LinesOf(gs, line) == LinesOf(gs[..k], line) + line(gs[k]) + LinesOf(gs[k + 1..], line)
  {
    var head := gs[..k + 1];
    assert head + gs[k + 1..] == gs;
    LinesAppend(head, gs[k + 1..], line);
    assert head[..|head| - 1] == gs[..k];
    assert head[|head| - 1] == gs[k];
    assert LinesOf(head, line) == LinesOf(gs[..k], line) + line(gs[k]);
  }
}
