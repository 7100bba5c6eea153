/** The string operations the utility class relies on: lower-casing, suffix
    tests, and splitting on and joining with a separator character (Python's
    `str.lower`, `str.endswith`, `str.split(sep)` and `sep.join`). */
module Text {

  /** Lower-cases one character (ASCII letters only). */
  function LowerChar(c: char): (l: char)
    ensures 'A' <= c <= 'Z' ==> l as int == c as int + 32
    ensures !('A' <= c <= 'Z') ==> l == c
  {
    if 'A' <= c <= 'Z' then (c as int + 32) as char else c
  }

  /** Lower-cases every character. */
  function Lower(s: string): (l: string)
    ensures |l| == |s| && forall i :: 0 <= i < |s| ==> l[i] == LowerChar(s[i])
  {
    seq(|s|, i requires 0 <= i < |s| => LowerChar(s[i]))
  }

  /** Lower-casing twice is lower-casing once. */
  lemma LowerIdempotent(s: string)
    ensures Lower(Lower(s)) == Lower(s)
  {
    forall i | 0 <= i < |s|
      ensures Lower(Lower(s))[i] == Lower(s)[i]
    {
      assert !('A' <= LowerChar(s[i]) <= 'Z');
    }
  }

  /** `suffix` is a final segment of `s`. */
  predicate EndsWith(s: string, suffix: string) {
    |suffix| <= |s| && s[|s| - |suffix|..] == suffix
  }

  /** The fields of `s` between occurrences of `sep`, like Python's
      `s.split(sep)`: the empty string gives one empty field. */
  function Split(s: string, sep: char): (parts: seq<string>)
    ensures |parts| >= 1
    ensures forall i :: 0 <= i < |parts| ==> sep !in parts[i]
  {
    if s == [] then [[]]
    else
      var rest := Split(s[1..], sep);
      if s[0] == sep then [[]] + rest
      else [[s[0]] + rest[0]] + rest[1..]
  }

  /** The fields joined with `sep` between consecutive ones, like Python's
      `sep.join(parts)`. */
  function Join(parts: seq<string>, sep: char): string {
    if parts == [] then []
    else if |parts| == 1 then parts[0]
    else parts[0] + [sep] + Join(parts[1..], sep)
  }

  /** Prefixing the first field prefixes the joined string. */
  lemma JoinPrefixFirst(x: string, parts: seq<string>, sep: char)
    requires |parts| >= 1
    ensures Join([x + parts[0]] + parts[1..], sep) == x + Join(parts, sep)
  {
    var q := [x + parts[0]] + parts[1..];
    if |parts| > 1 {
      assert q[1..] == parts[1..];
    }
  }

  /** Joining the fields of a split gives back the original string. */
  lemma {:induction false} JoinSplit(s: string, sep: char)
    ensures Join(Split(s, sep), sep) == s
  {
    if s != [] {
      var rest := Split(s[1..], sep);
      JoinSplit(s[1..], sep);
      if s[0] == sep {
        assert ([[]] + rest)[1..] == rest;
      } else {
        JoinPrefixFirst([s[0]], rest, sep);
      }
    }
  }

  /** Splitting a string whose start holds no separator puts that start at
      the front of the first field. */
  lemma {:induction false} SplitPrefix(p: string, w: string, sep: char)
    requires sep !in p
    ensures Split(p + w, sep) == [p + Split(w, sep)[0]] + Split(w, sep)[1..]
  {
    var sw := Split(w, sep);
    if p == [] {
      assert p + w == w && p + sw[0] == sw[0];
      assert [sw[0]] + sw[1..] == sw;
    } else {
      SplitPrefix(p[1..], w, sep);
      assert (p + w)[1..] == p[1..] + w;
      assert (p + w)[0] == p[0] && p[0] != sep;
      var rest := Split(p[1..] + w, sep);
      assert rest[0] == p[1..] + sw[0] && rest[1..] == sw[1..];
      assert [p[0]] + (p[1..] + sw[0]) == p + sw[0];
    }
  }

  /** A field followed by the separator splits off as the first field. */
  lemma SplitField(p: string, w: string, sep: char)
    requires sep !in p
    ensures Split(p + [sep] + w, sep) == [p] + Split(w, sep)
  {
    SplitPrefix(p, [sep] + w, sep);
    assert p + [sep] + w == p + ([sep] + w);
    assert ([sep] + w)[1..] == w;
    var sw := Split([sep] + w, sep);
    assert sw == [[]] + Split(w, sep);
    assert sw[0] == [] && sw[1..] == Split(w, sep);
    assert p + sw[0] == p;
  }

  /** Splitting a joined sequence of separator-free fields gives the fields
      back. */
  lemma {:induction false} SplitJoin(parts: seq<string>, sep: char)
    requires |parts| >= 1
    requires forall i :: 0 <= i < |parts| ==> sep !in parts[i]
    ensures Split(Join(parts, sep), sep) == parts
  {
    if |parts| == 1 {
      SplitPrefix(parts[0], [], sep);
      assert parts[0] + [] == parts[0];
    } else {
      SplitJoin(parts[1..], sep);
      SplitField(parts[0], Join(parts[1..], sep), sep);
    }
  }

  /** The position of the first `sep` in `s`. */
  function IndexOf(s: string, sep: char): (k: nat)
    requires sep in s
    ensures k < |s| && s[k] == sep && sep !in s[..k]
  {
    if s[0] == sep then 0
    else
      assert sep in s[1..] by {
        var i :| 0 <= i < |s| && s[i] == sep;
        assert s[1..][i - 1] == sep;
      }
      var k := IndexOf(s[1..], sep);
      assert s[..k + 1] == [s[0]] + s[1..][..k];
      k + 1
  }

  /** In a separator-free field followed by the separator, the first
      separator is the one after the field. */
  lemma {:induction false} IndexAfterField(a: string, b: string, sep: char)
    requires sep !in a
    ensures sep in a + [sep] + b && IndexOf(a + [sep] + b, sep) == |a|
  {
    var l := a + [sep] + b;
    assert l[|a|] == sep;
    if a != [] {
      IndexAfterField(a[1..], b, sep);
      assert l[1..] == a[1..] + [sep] + b;
    }
  }

  /** Where two strings each consist of a separator-free field, the
      separator and a remainder, the fields and the remainders agree. */
  lemma FirstFieldUnique(a: string, b: string, c: string, d: string, sep: char)
    requires sep !in a && sep !in c
    requires a + [sep] + b == c + [sep] + d
    ensures a == c && b == d
  {
    var l := a + [sep] + b;
    IndexAfterField(a, b, sep);
    IndexAfterField(c, d, sep);
    assert a == l[..|a|];
    assert c == l[..|c|];
    assert b == l[|a| + 1..];
    assert d == l[|c| + 1..];
  }
}
