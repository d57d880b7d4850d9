/**
 * Splitting a string on a separator character and joining it back: the
 * vocabulary used to read the dot-separated slots of a formatted
 * `OSDRestrictions` value.
 */
module Strings {

  /** The parts joined by single separator characters. */
  function Join(parts: seq<string>, sep: char): string
  {
    if |parts| == 0 then ""
    else if |parts| == 1 then parts[0]
    else parts[0] + [sep] + Join(parts[1..], sep)
  }

  /**
   * The maximal separator-free runs of `s`, in order: there is at least one,
   * and joining them gives `s` back.
   */
  function Split(s: string, sep: char): (parts: seq<string>)
    ensures |parts| >= 1
    ensures forall i :: 0 <= i < |parts| ==> sep !in parts[i]
    ensures Join(parts, sep) == s
    decreases |s|
  {
    if |s| == 0 then [""]
    else
      var rest := Split(s[1..], sep);
      assert s == [s[0]] + s[1..];
      if s[0] == sep then [""] + rest
      else
        var parts := [[s[0]] + rest[0]] + rest[1..];
        assert parts[1..] == rest[1..];
        parts
  }

  /** There is one more part than there are separators. */
  lemma {:induction false} SplitCount(s: string, sep: char)
    ensures |Split(s, sep)| == multiset(s)[sep] + 1
    decreases |s|
  {
    if |s| > 0 {
      SplitCount(s[1..], sep);
      assert s == [s[0]] + s[1..];
      assert multiset(s) == multiset{s[0]} + multiset(s[1..]);
    }
  }

  /** A separator-free prefix followed by a separator becomes a part of its own. */
  lemma {:induction false} SplitPrefix(p: string, sep: char, t: string)
    requires sep !in p
    ensures Split(p + [sep] + t, sep) == [p] + Split(t, sep)
    decreases |p|
  {
    var s := p + [sep] + t;
    if |p| == 0 {
      assert s[1..] == t;
    } else {
      assert s[1..] == p[1..] + [sep] + t;
      SplitPrefix(p[1..], sep, t);
      assert [s[0]] + p[1..] == p;
    }
  }

  /** A string without the separator is a single part. */
  lemma SplitNoSeparator(p: string, sep: char)
    requires sep !in p
    ensures Split(p, sep) == [p]
  {
  }

  /** Splitting undoes joining separator-free parts. */
  lemma {:induction false} SplitJoin(parts: seq<string>, sep: char)
    requires |parts| >= 1
    requires forall i :: 0 <= i < |parts| ==> sep !in parts[i]
    ensures Split(Join(parts, sep), sep) == parts
    decreases |parts|
  {
    if |parts| == 1 {
      SplitNoSeparator(parts[0], sep);
    } else {
      SplitJoin(parts[1..], sep);
      SplitPrefix(parts[0], sep, Join(parts[1..], sep));
      assert parts == [parts[0]] + parts[1..];
    }
  }

  /** Joining five parts puts a separator between each neighbouring pair. */
  lemma JoinFive(a: string, b: string, c: string, d: string, e: string, sep: char)
    ensures Join([a, b, c, d, e], sep) == a + [sep] + b + [sep] + c + [sep] + d + [sep] + e
  {
    assert [d, e][1..] == [e];
    var j3 := d + [sep] + e;
    assert Join([d, e], sep) == j3;
    assert [c, d, e][1..] == [d, e];
    var j2 := c + [sep] + j3;
    assert Join([c, d, e], sep) == j2;
    assert [b, c, d, e][1..] == [c, d, e];
    var j1 := b + [sep] + j2;
    assert Join([b, c, d, e], sep) == j1;
    assert [a, b, c, d, e][1..] == [b, c, d, e];
    assert Join([a, b, c, d, e], sep) == a + [sep] + j1;
  }

  /** Five parts joined by a separator, between an opening and a closing character. */
  lemma BracketedJoinFive(open: char, a: string, b: string, c: string, d: string, e: string,
                          sep: char, close: char)
    ensures [open] + a + [sep] + b + [sep] + c + [sep] + d + [sep] + e + [close]
         == [open] + Join([a, b, c, d, e], sep) + [close]
  {
    JoinFive(a, b, c, d, e, sep);
  }

  /** Dropping the first and last characters of a bracketed string leaves its contents. */
  lemma Unbracket(open: char, x: string, close: char)
    ensures var b := [open] + x + [close];
      && |b| >= 2 && b[0] == open && b[|b| - 1] == close
      && b[1..|b| - 1] == x
      && multiset(b) == multiset{open} + multiset(x) + multiset{close}
  {
  }

  /** A string of two or more characters is its first, its middle and its last. */
  lemma Rebracket(b: string)
    requires |b| >= 2
    ensures b == [b[0]] + b[1..|b| - 1] + [b[|b| - 1]]
  {
  }
}
