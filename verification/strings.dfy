/** The JavaScript string operations the core relies on, stated over
    `seq<char>`: truthiness of an optional string, prefix tests, `split` on a
    one-character separator and its inverse `join`, global replacement of one
    character, ASCII upper-casing of a character, and decimal rendering of a
    natural number. */
module Strings {
  import opened Wrappers

  /** `!!s` for an optional string: defined and not the empty string. */
  predicate Truthy(s: Option<string>) {
    s.Some? && s.value != ""
  }

  /** `s.length > 0`, the `Boolean` filter applied to strings. */
  predicate IsNonEmpty(s: string) {
    s != ""
  }

  /** `s.startsWith(prefix)`. */
  predicate StartsWith(s: string, prefix: string) {
    |prefix| <= |s| && s[..|prefix|] == prefix
  }

  /** `s.endsWith(suffix)`. */
  predicate EndsWith(s: string, suffix: string) {
    |suffix| <= |s| && s[|s| - |suffix|..] == suffix
  }

  /** `t` occurs in `s` as a contiguous run of characters. */
  ghost predicate Contains(s: string, t: string) {
    exists i :: 0 <= i <= |s| && StartsWith(s[i..], t)
  }

  lemma ContainsSelf(s: string)
    ensures Contains(s, s)
  {
    assert StartsWith(s[0..], s);
  }

  /** Whatever occurs in `t` still occurs once text is put before `t`. */
  lemma ContainsAfter(a: string, t: string, u: string)
    requires Contains(t, u)
    ensures Contains(a + t, u)
  {
    var i :| 0 <= i <= |t| && StartsWith(t[i..], u);
    assert (a + t)[|a| + i..] == t[i..];
  }

  /** Whatever occurs in `t` still occurs once text is put after `t`. */
  lemma ContainsBefore(t: string, b: string, u: string)
    requires Contains(t, u)
    ensures Contains(t + b, u)
  {
    var i :| 0 <= i <= |t| && StartsWith(t[i..], u);
    assert (t + b)[i..][..|u|] == t[i..][..|u|];
  }

  /** `s.split(sep)`: the maximal runs of `s` between occurrences of `sep`,
      so an empty string splits into one empty part and every separator
      ends one part and starts another. */
  function Split(s: string, sep: char): (parts: seq<string>)
    ensures |parts| >= 1
    ensures forall i :: 0 <= i < |parts| ==> sep !in parts[i]
    decreases |s|
  {
    if |s| == 0 then [""]
    else
      var rest := Split(s[1..], sep);
      if s[0] == sep then [""] + rest
      else [[s[0]] + rest[0]] + rest[1..]
  }

  /** `parts.join(sep)`. */
  function Join(parts: seq<string>, sep: char): string
    decreases |parts|
  {
    if |parts| == 0 then ""
    else if |parts| == 1 then parts[0]
    else parts[0] + [sep] + Join(parts[1..], sep)
  }

  /** A string without the separator does not split. */
  lemma {:induction false} SplitWithoutSeparator(s: string, sep: char)
    requires sep !in s
    ensures Split(s, sep) == [s]
    decreases |s|
  {
    if |s| > 0 {
      assert sep !in s[1..];
      SplitWithoutSeparator(s[1..], sep);
      assert [s[0]] + s[1..] == s;
    }
  }

  /** Splitting a string that starts with `c`: a separator opens a new
      empty part, any other character joins the first part. */
  lemma SplitCons(c: char, t: string, sep: char)
    ensures Split([c] + t, sep) ==
      if c == sep then [""] + Split(t, sep) else [[c] + Split(t, sep)[0]] + Split(t, sep)[1..]
  {
    assert ([c] + t)[0] == c && ([c] + t)[1..] == t;
  }

  /** Regrouping for `SplitAtSeparatorStep`: extending the first part of a
      concatenation extends the first part of its left operand. */
  lemma ExtendFirstPart(c: char, ra: seq<string>, rb: seq<string>)
    requires |ra| >= 1
    ensures [[c] + (ra + rb)[0]] + (ra + rb)[1..] == ([[c] + ra[0]] + ra[1..]) + rb
  {
    assert (ra + rb)[0] == ra[0];
    assert (ra + rb)[1..] == ra[1..] + rb;
  }

  /** One induction step of `SplitAtSeparator`: when `s` splits into the
      parts of `a` followed by those of `b`, a character put in front of `s`
      lands in the parts of `a`. */
  lemma SplitAtSeparatorStep(c: char, s: string, a: string, b: string, sep: char)
    requires Split(s, sep) == Split(a, sep) + Split(b, sep)
    ensures Split([c] + s, sep) == Split([c] + a, sep) + Split(b, sep)
  {
    SplitCons(c, s, sep);
    SplitCons(c, a, sep);
    if c != sep {
      ExtendFirstPart(c, Split(a, sep), Split(b, sep));
    }
  }

  /** A separator cuts the string in two independent halves. */
  lemma {:induction false} SplitAtSeparator(a: string, b: string, sep: char)
    ensures Split(a + [sep] + b, sep) == Split(a, sep) + Split(b, sep)
    decreases |a|
  {
    if |a| == 0 {
      assert a + [sep] + b == [sep] + b;
      SplitCons(sep, b, sep);
    } else {
      SplitAtSeparator(a[1..], b, sep);
      SplitAtSeparatorStep(a[0], a[1..] + [sep] + b, a[1..], b, sep);
      assert a + [sep] + b == [a[0]] + (a[1..] + [sep] + b);
      assert a == [a[0]] + a[1..];
    }
  }

  /** Splitting undoes joining when no part holds the separator. */
  lemma {:induction false} SplitJoin(parts: seq<string>, sep: char)
    requires |parts| >= 1
    requires forall i :: 0 <= i < |parts| ==> sep !in parts[i]
    ensures Split(Join(parts, sep), sep) == parts
    decreases |parts|
  {
    SplitWithoutSeparator(parts[0], sep);
    if |parts| > 1 {
      SplitJoin(parts[1..], sep);
      SplitAtSeparator(parts[0], Join(parts[1..], sep), sep);
      assert [parts[0]] + parts[1..] == parts;
    }
  }

  /** Joining undoes splitting: `s.split(sep).join(sep) === s`. */
  lemma {:induction false} JoinSplit(s: string, sep: char)
    ensures Join(Split(s, sep), sep) == s
    decreases |s|
  {
    if |s| > 0 {
      var rest := Split(s[1..], sep);
      JoinSplit(s[1..], sep);
      if s[0] == sep {
        assert Split(s, sep)[1..] == rest;
        assert s == [sep] + s[1..];
      } else {
        var parts := Split(s, sep);
        assert parts[1..] == rest[1..];
        if |rest| == 1 {
          assert s == [s[0]] + rest[0];
        } else {
          assert s[1..] == rest[0] + [sep] + Join(rest[1..], sep);
          assert s == [s[0]] + s[1..];
        }
      }
    }
  }

  /** `s.replace(/c/g, by)` for a single character `c`. */
  function ReplaceAll(s: string, c: char, rep: string): (r: string)
    ensures c !in s ==> r == s
    ensures |rep| >= 1 ==> |r| >= |s|
    ensures c !in rep ==> c !in r
    ensures forall d :: d in r ==> d in rep || (d in s && d != c)
    decreases |s|
  {
    if |s| == 0 then ""
    else (if s[0] == c then rep else [s[0]]) + ReplaceAll(s[1..], c, rep)
  }

  /** Replacement works piecewise over a concatenation. */
  lemma {:induction false} ReplaceAllConcat(a: string, b: string, c: char, rep: string)
    ensures ReplaceAll(a + b, c, rep) == ReplaceAll(a, c, rep) + ReplaceAll(b, c, rep)
    decreases |a|
  {
    if |a| == 0 {
      assert a + b == b;
    } else {
      assert (a + b)[1..] == a[1..] + b;
      ReplaceAllConcat(a[1..], b, c, rep);
    }
  }

  predicate IsLowerAscii(ch: char) {
    'a' <= ch <= 'z'
  }

  /** `ch.toUpperCase()` restricted to ASCII: lower-case letters move to
      upper case, everything else is left alone. */
  function UpperAscii(ch: char): (u: char)
    ensures IsLowerAscii(ch) ==> 'A' <= u <= 'Z' && u as int - ch as int == 'A' as int - 'a' as int
    ensures !IsLowerAscii(ch) ==> u == ch
  {
    if IsLowerAscii(ch) then (ch as int - 'a' as int + 'A' as int) as char else ch
  }

  function DigitChar(d: nat): (c: char)
    requires d < 10
    ensures '0' <= c <= '9'
  {
    ('0' as int + d) as char
  }

  /** The decimal text of `n`, as a template literal renders a number. */
  function NatToString(n: nat): (s: string)
    ensures |s| >= 1
    ensures forall i :: 0 <= i < |s| ==> '0' <= s[i] <= '9'
    ensures |s| > 1 ==> s[0] != '0'
    decreases n
  {
    if n < 10 then [DigitChar(n)] else NatToString(n / 10) + [DigitChar(n % 10)]
  }
}
