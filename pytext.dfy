/** The part of Python's number and string semantics that the pipeline's rules rely on. */
module PyText {
  import opened Wrappers

  /** Truthiness of an optional string: `None` and `""` are false. */
  predicate Truthy(s: Option<string>)
  {
    s.Some? && s.value != ""
  }

  /** `int(x)` on a float: truncation toward zero (the floor only for non-negative x). */
  function Trunc(x: real): (r: int)
    ensures 0.0 <= x ==> r as real <= x < r as real + 1.0
    ensures x < 0.0 ==> r as real - 1.0 < x <= r as real
  {
    if x >= 0.0 then x.Floor else -((-x).Floor)
  }

  function DigitChar(d: int): char
    requires 0 <= d < 10
  {
    "0123456789"[d]
  }

  /** Decimal digits of a natural number, most significant first. */
  function NatToString(n: nat): (s: string)
    ensures |s| >= 1
    ensures n >= 10 ==> |s| >= 2
  {
    if n < 10 then [DigitChar(n)] else NatToString(n / 10) + [DigitChar(n % 10)]
  }

  /** `str(n)` for an int. */
  function IntToString(n: int): string
  {
    if n < 0 then "-" + NatToString(-n) else NatToString(n)
  }

  /** `f"{n:02d}"`: zero-padded to width two; the sign counts towards the width. */
  function Pad2(n: int): (s: string)
    ensures |s| >= 2
  {
    if 0 <= n < 10 then "0" + NatToString(n) else IntToString(n)
  }

  /** Under 100, `f"{n:02d}"` is the tens digit and the units digit. */
  lemma Pad2Digits(n: int)
    requires 0 <= n < 100
    ensures Pad2(n) == [DigitChar(n / 10), DigitChar(n % 10)]
  {
    if n >= 10 {
      assert NatToString(n / 10) == [DigitChar(n / 10)];
    }
  }

  /** `sep.join(parts)`. */
  function Join(sep: string, parts: seq<string>): string
  {
    if |parts| == 0 then ""
    else if |parts| == 1 then parts[0]
    else Join(sep, parts[..|parts| - 1]) + sep + parts[|parts| - 1]
  }

  /** The characters `str.isspace` accepts (and `str.strip()` removes). */
  predicate IsSpace(c: char)
  {
    var k := c as int;
    k in {9, 10, 11, 12, 13, 28, 29, 30, 31, 32, 133, 160, 5760, 8232, 8233, 8239, 8287, 12288}
    || 8192 <= k <= 8202
  }

  function LStrip(s: string): (r: string)
    ensures |r| <= |s|
    ensures r != [] ==> !IsSpace(r[0])
  {
    if |s| > 0 && IsSpace(s[0]) then LStrip(s[1..]) else s
  }

  function RStrip(s: string): (r: string)
    ensures |r| <= |s|
    ensures r != [] ==> !IsSpace(r[|r| - 1])
  {
    if |s| > 0 && IsSpace(s[|s| - 1]) then RStrip(s[..|s| - 1]) else s
  }

  /** `s.strip()`. */
  function Strip(s: string): string
  {
    RStrip(LStrip(s))
  }

  /** `lstrip` removes a prefix. */
  lemma {:induction false} LStripSuffix(s: string)
    ensures LStrip(s) == s[|s| - |LStrip(s)|..]
    decreases |s|
  {
    if |s| > 0 && IsSpace(s[0]) {
      LStripSuffix(s[1..]);
      assert s[1..][|s| - 1 - |LStrip(s)|..] == s[|s| - |LStrip(s)|..];
    }
  }

  /** `rstrip` removes a suffix. */
  lemma {:induction false} RStripPrefix(s: string)
    ensures RStrip(s) == s[..|RStrip(s)|]
    decreases |s|
  {
    if |s| > 0 && IsSpace(s[|s| - 1]) {
      RStripPrefix(s[..|s| - 1]);
      assert s[..|s| - 1][..|RStrip(s)|] == s[..|RStrip(s)|];
    }
  }

  /** `strip` leaves the run of `s` that starts after the leading whitespace
      and neither starts nor ends with whitespace. */
  lemma StripTrims(s: string)
    ensures |s| - |LStrip(s)| + |Strip(s)| <= |s|
    ensures Strip(s) == s[|s| - |LStrip(s)|..|s| - |LStrip(s)| + |Strip(s)|]
    ensures Strip(s) != [] ==> !IsSpace(Strip(s)[0]) && !IsSpace(Strip(s)[|Strip(s)| - 1])
  {
    var l := LStrip(s);
    var t := RStrip(l);
    assert Strip(s) == t;
    LStripSuffix(s);
    RStripPrefix(l);
    assert t == s[|s| - |l|..][..|t|];
    assert s[|s| - |l|..][..|t|] == s[|s| - |l|..|s| - |l| + |t|];
    assert t != [] ==> t[0] == l[0];
  }

  /** A string without whitespace at either end is its own strip. */
  lemma StripUnchanged(s: string)
    requires s != [] ==> !IsSpace(s[0]) && !IsSpace(s[|s| - 1])
    ensures Strip(s) == s
  {
    assert LStrip(s) == s;
    assert RStrip(s) == s;
  }

  predicate StartsWith(s: string, prefix: string)
  {
    |prefix| <= |s| && s[..|prefix|] == prefix
  }

  predicate EndsWith(s: string, suffix: string)
  {
    |suffix| <= |s| && s[|s| - |suffix|..] == suffix
  }

  /** The empty string is a left unit of concatenation. */
  lemma EmptyConcat(s: string)
    ensures "" + s == s
  {
  }

  /** `(a + b) + ((c + d) + e)`, regrouped. */
  lemma Regroup(a: string, b: string, c: string, d: string, e: string)
    ensures (a + b) + ((c + d) + e) == a + (b + c) + d + e
  {
  }

  lemma EmptyTail(s: string)
    ensures s + "" == s
  {
  }

  /** Appending two pieces to `h + c` extends `c`. */
  lemma AppendTwo(h: string, c: string, x: string, y: string)
    ensures h + c + x + y == h + (c + x + y)
  {
  }

  lemma EndsWithEq(s: string, t: string, x: string)
    requires s == t && EndsWith(t, x)
    ensures EndsWith(s, x)
  {
  }

  lemma StartsWithConcat(a: string, b: string)
    ensures StartsWith(a + b, a)
  {
    assert (a + b)[..|a|] == a;
  }

  lemma EndsWithConcat(a: string, b: string)
    ensures EndsWith(a + b, b)
  {
    assert (a + b)[|a + b| - |b|..] == b;
  }

  /** A prefix of `s` is a prefix of anything `s` starts. */
  lemma StartsWithAppend(s: string, t: string, p: string)
    requires StartsWith(s, p)
    ensures StartsWith(s + t, p)
  {
    assert (s + t)[..|p|] == s[..|p|];
  }

  /** A suffix of `t` is a suffix of anything `t` ends. */
  lemma EndsWithAppend(s: string, t: string, x: string)
    requires EndsWith(t, x)
    ensures EndsWith(s + t, x)
  {
    assert (s + t)[|s + t| - |x|..] == t[|t| - |x|..];
  }

  /** `sub in s` for strings. */
  predicate Contains(s: string, sub: string)
    decreases |s|
  {
    StartsWith(s, sub) || (|s| > 0 && Contains(s[1..], sub))
  }

  /** `s.replace(pat, rep)`: left to right, non-overlapping occurrences. */
  function ReplaceAll(s: string, pat: string, rep: string): string
    requires |pat| > 0
    decreases |s|
  {
    if |s| == 0 then s
    else if StartsWith(s, pat) then rep + ReplaceAll(s[|pat|..], pat, rep)
    else [s[0]] + ReplaceAll(s[1..], pat, rep)
  }

  /** Without an occurrence of the pattern the string comes back as it is. */
  lemma {:induction false} ReplaceAbsent(s: string, pat: string, rep: string)
    requires |pat| > 0 && !Contains(s, pat)
    ensures ReplaceAll(s, pat, rep) == s
    decreases |s|
  {
    if |s| > 0 {
      ReplaceAbsent(s[1..], pat, rep);
      assert [s[0]] + s[1..] == s;
    }
  }

  /** `str.upper()` restricted to ASCII letters. */
  function UpperChar(c: char): char
  {
    if 'a' <= c <= 'z' then (c as int - 32) as char else c
  }

  function Upper(s: string): string
  {
    seq(|s|, i requires 0 <= i < |s| => UpperChar(s[i]))
  }

  /** Upper-casing keeps the length, leaves no lower-case ASCII letter,
      turns each one into an upper-case ASCII letter and keeps every other
      character; doing it twice changes nothing more. */
  lemma UpperShape(s: string)
    ensures |Upper(s)| == |s|
    ensures forall i :: 0 <= i < |s| ==> !('a' <= Upper(s)[i] <= 'z')
    ensures forall i :: 0 <= i < |s| ==> ('a' <= s[i] <= 'z' ==> 'A' <= Upper(s)[i] <= 'Z')
    ensures forall i :: 0 <= i < |s| ==> (!('a' <= s[i] <= 'z') ==> Upper(s)[i] == s[i])
    ensures Upper(Upper(s)) == Upper(s)
  {
  }

  /** The total length of some strings. */
  function TotalLength(parts: seq<string>): nat
  {
    if |parts| == 0 then 0 else TotalLength(parts[..|parts| - 1]) + |parts[|parts| - 1]|
  }

  /** A join is as long as its parts together plus one separator between
      each two neighbours. */
  lemma {:induction false} JoinLength(sep: string, parts: seq<string>)
    ensures |parts| > 0 ==> |Join(sep, parts)| == TotalLength(parts) + (|parts| - 1) * |sep|
    ensures |parts| == 0 ==> Join(sep, parts) == ""
  {
    if |parts| > 1 {
      var init := parts[..|parts| - 1];
      JoinLength(sep, init);
      assert |init| == |parts| - 1;
      assert (|parts| - 1) * |sep| == (|init| - 1) * |sep| + |sep|;
      assert |Join(sep, parts)| == |Join(sep, init)| + |sep| + |parts[|parts| - 1]|;
    } else if |parts| == 1 {
      assert parts[..0] == [];
    }
  }
}
