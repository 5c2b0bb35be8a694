/**
 The Python string operations the pipelines rely on, over `string` (= `seq<char>`):
 `str.strip()` with no argument, `str.split(sep)` on a one-character separator,
 `sep.join(parts)` and `str.replace(c, '')` for a single character.
 */
module Strings {

  /** Python's `str.isspace()` on one character: the code points `str.strip()` removes. */
  predicate IsWhitespace(c: char) {
    var n := c as int;
    (0x09 <= n <= 0x0D) || (0x1C <= n <= 0x20) || n == 0x85 || n == 0xA0 || n == 0x1680
    || (0x2000 <= n <= 0x200A) || n == 0x2028 || n == 0x2029 || n == 0x202F
    || n == 0x205F || n == 0x3000
  }

  predicate AllWhitespace(s: string) {
    forall i :: 0 <= i < |s| ==> IsWhitespace(s[i])
  }

  /** Neither end of `s` is whitespace. */
  predicate IsTrimmed(s: string) {
    |s| > 0 ==> !IsWhitespace(s[0]) && !IsWhitespace(s[|s| - 1])
  }

  /** `r` is the piece of `s` that starts at `i`, and everything of `s` before
      and after that piece is whitespace. */
  predicate IsOuterTrimAt(r: string, s: string, i: nat) {
    && i + |r| <= |s|
    && (forall k :: 0 <= k < |r| ==> r[k] == s[i + k])
    && (forall k :: 0 <= k < i ==> IsWhitespace(s[k]))
    && (forall k :: i + |r| <= k < |s| ==> IsWhitespace(s[k]))
  }

  /** The length of the run of whitespace that starts `s`. */
  function LeadingWhitespace(s: string): (n: nat)
    ensures n <= |s|
    decreases |s|
  {
    if |s| > 0 && IsWhitespace(s[0]) then 1 + LeadingWhitespace(s[1..]) else 0
  }

  /** `str.strip()`: drops the whitespace at both ends and keeps everything between.
      The leading and the trailing run are removed one character at a time. */
  function Strip(s: string): (r: string)
    ensures IsTrimmed(r)
    ensures |r| <= |s|
    decreases |s|
  {
    if |s| > 0 && IsWhitespace(s[0]) then Strip(s[1..])
    else if |s| > 0 && IsWhitespace(s[|s| - 1]) then Strip(s[..|s| - 1])
    else s
  }

  /** Stripping gives the empty string exactly when the string is all whitespace. */
  lemma {:induction false} StripBlank(s: string)
    ensures Strip(s) == "" <==> AllWhitespace(s)
    decreases |s|
  {
    if |s| > 0 && IsWhitespace(s[0]) {
      StripBlank(s[1..]);
      assert AllWhitespace(s) <==> AllWhitespace(s[1..]) by {
        assert forall k :: 1 <= k < |s| ==> s[k] == s[1..][k - 1];
      }
    } else if |s| > 0 && IsWhitespace(s[|s| - 1]) {
      StripBlank(s[..|s| - 1]);
      assert s[..|s| - 1][0] == s[0];
    }
  }

  /** One more whitespace character in front moves the piece one place right. */
  lemma OuterTrimCons(r: string, s: string)
    requires |s| > 0 && IsWhitespace(s[0])
    requires IsOuterTrimAt(r, s[1..], LeadingWhitespace(s[1..]))
    ensures IsOuterTrimAt(r, s, LeadingWhitespace(s))
  {
    var t := s[1..];
    var i := LeadingWhitespace(t);
    assert LeadingWhitespace(s) == i + 1;
    forall k | 0 <= k < |r| ensures r[k] == s[i + 1 + k] {
      assert s[i + 1 + k] == t[i + k];
    }
    forall k | 0 <= k < i + 1 ensures IsWhitespace(s[k]) {
      if k > 0 { assert s[k] == t[k - 1]; }
    }
    forall k | i + 1 + |r| <= k < |s| ensures IsWhitespace(s[k]) {
      assert s[k] == t[k - 1];
    }
  }

  /** One more whitespace character at the end, after a non-whitespace start, leaves the
      piece where it was. */
  lemma OuterTrimSnoc(r: string, s: string)
    requires |s| > 0 && !IsWhitespace(s[0]) && IsWhitespace(s[|s| - 1])
    requires IsOuterTrimAt(r, s[..|s| - 1], LeadingWhitespace(s[..|s| - 1]))
    ensures IsOuterTrimAt(r, s, LeadingWhitespace(s))
  {
    var t := s[..|s| - 1];
    assert |t| > 0 && t[0] == s[0];
    assert LeadingWhitespace(t) == 0 && LeadingWhitespace(s) == 0;
    forall k | 0 <= k < |r| ensures r[k] == s[k] {
      assert s[k] == t[k];
    }
    forall k | |r| <= k < |s| ensures IsWhitespace(s[k]) {
      if k < |t| { assert s[k] == t[k]; }
    }
  }

  /** What `Strip` removes is the whitespace before the first and after the last
      non-whitespace character, and nothing else. */
  lemma {:induction false} StripIsOuterTrim(s: string)
    ensures IsOuterTrimAt(Strip(s), s, LeadingWhitespace(s))
    decreases |s|
  {
    if |s| > 0 && IsWhitespace(s[0]) {
      StripIsOuterTrim(s[1..]);
      OuterTrimCons(Strip(s), s);
    } else if |s| > 0 && IsWhitespace(s[|s| - 1]) {
      StripIsOuterTrim(s[..|s| - 1]);
      OuterTrimSnoc(Strip(s), s);
    }
  }

  /** An outer trim of `s` holds no character that `s` lacks. */
  lemma OuterTrimKeepsOut(r: string, s: string, i: nat, c: char)
    requires IsOuterTrimAt(r, s, i)
    requires c !in s
    ensures c !in r
  {
  }

  /** Python's `s.split(sep)`: the pieces between occurrences of `sep`, empty pieces included. */
  function Split(s: string, sep: char): (parts: seq<string>)
    ensures |parts| >= 1
    ensures forall i :: 0 <= i < |parts| ==> sep !in parts[i]
  {
    if |s| == 0 then [""]
    else
      var rest := Split(s[1..], sep);
      if s[0] == sep then [""] + rest
      else [[s[0]] + rest[0]] + rest[1..]
  }

  /** Python's `sep.join(xs)`. */
  function Join(xs: seq<string>, sep: string): string {
    if |xs| == 0 then ""
    else if |xs| == 1 then xs[0]
    else xs[0] + sep + Join(xs[1..], sep)
  }

  /** Python's `s.replace(c, '')`: every occurrence of `c` deleted, the rest kept in order. */
  function RemoveChar(s: string, c: char): (r: string)
    ensures c !in r
    ensures multiset(r) == multiset(s)[c := 0]
  {
    if |s| == 0 then ""
    else if s[0] == c then
      assert s == [s[0]] + s[1..];
      RemoveChar(s[1..], c)
    else
      assert s == [s[0]] + s[1..];
      [s[0]] + RemoveChar(s[1..], c)
  }

  /** The concatenation of the strings written one after the other. */
  function Concat(xs: seq<string>): string {
    if |xs| == 0 then "" else Concat(xs[..|xs| - 1]) + xs[|xs| - 1]
  }

  function SumLengths(xs: seq<string>): nat {
    if |xs| == 0 then 0 else |xs[0]| + SumLengths(xs[1..])
  }

  // ----- split and join -----

  /** A string without the separator is a single piece. */
  lemma {:induction false} SplitWithout(s: string, sep: char)
    requires sep !in s
    ensures Split(s, sep) == [s]
  {
    if |s| > 0 {
      SplitWithout(s[1..], sep);
      assert [s[0]] + s[1..] == s;
    }
  }

  /** Splitting peels off the text before the first separator. */
  lemma {:induction false} SplitAtFirst(a: string, sep: char, b: string)
    requires sep !in a
    ensures Split(a + [sep] + b, sep) == [a] + Split(b, sep)
  {
    var s := a + [sep] + b;
    if |a| == 0 {
      assert s[1..] == b;
    } else {
      assert s[1..] == a[1..] + [sep] + b;
      SplitAtFirst(a[1..], sep, b);
      assert [a[0]] + a[1..] == a;
    }
  }

  /** Joining the pieces of a split with the separator gives back the string. */
  lemma {:induction false} JoinSplit(s: string, sep: char)
    ensures Join(Split(s, sep), [sep]) == s
  {
    if |s| > 0 {
      JoinSplit(s[1..], sep);
      var rest := Split(s[1..], sep);
      if s[0] == sep {
        assert Split(s, sep) == [""] + rest;
      } else {
        var parts := Split(s, sep);
        assert parts == [[s[0]] + rest[0]] + rest[1..];
        if |rest| == 1 {
          assert s == [s[0]] + rest[0];
        } else {
          assert parts[1..] == rest[1..];
          assert Join(rest, [sep]) == rest[0] + [sep] + Join(rest[1..], [sep]);
          assert s == [s[0]] + s[1..];
        }
      }
    }
  }

  /** Joining pieces free of the separator and splitting again gives back the pieces. */
  lemma {:induction false} SplitJoin(xs: seq<string>, sep: char)
    requires |xs| >= 1
    requires forall i :: 0 <= i < |xs| ==> sep !in xs[i]
    ensures Split(Join(xs, [sep]), sep) == xs
  {
    if |xs| == 1 {
      SplitWithout(xs[0], sep);
    } else {
      SplitJoin(xs[1..], sep);
      SplitAtFirst(xs[0], sep, Join(xs[1..], [sep]));
      assert [xs[0]] + xs[1..] == xs;
    }
  }

  /** Length of a join: the pieces plus one separator between each neighbouring pair. */
  lemma {:induction false} JoinLength(xs: seq<string>, sep: string)
    requires |xs| >= 1
    ensures |Join(xs, sep)| == SumLengths(xs) + |sep| * (|xs| - 1)
  {
    if |xs| > 1 {
      JoinLength(xs[1..], sep);
    }
  }

  /** `Concat` written from the front. */
  lemma {:induction false} ConcatCons(x: string, xs: seq<string>)
    ensures Concat([x] + xs) == x + Concat(xs)
  {
    if |xs| > 0 {
      var ys := [x] + xs;
      assert ys[..|ys| - 1] == [x] + xs[..|xs| - 1];
      ConcatCons(x, xs[..|xs| - 1]);
    }
  }

  // ----- removing one character -----

  /** Deleting a character acts piece by piece, so the order of what remains is kept. */
  lemma {:induction false} RemoveCharAppend(a: string, b: string, c: char)
    ensures RemoveChar(a + b, c) == RemoveChar(a, c) + RemoveChar(b, c)
  {
    if |a| > 0 {
      assert (a + b)[1..] == a[1..] + b;
      RemoveCharAppend(a[1..], b, c);
    } else {
      assert a + b == b;
    }
  }

  /** Deleting a character that does not occur changes nothing. */
  lemma {:induction false} RemoveCharAbsent(s: string, c: char)
    requires c !in s
    ensures RemoveChar(s, c) == s
  {
    if |s| > 0 {
      RemoveCharAbsent(s[1..], c);
      assert [s[0]] + s[1..] == s;
    }
  }

  /** Deleting a character keeps every other character that was missing, missing. */
  lemma RemoveCharKeepsOut(s: string, c: char, d: char)
    requires d !in s
    ensures d !in RemoveChar(s, c)
  {
    assert multiset(s)[d] == 0;
  }
}
