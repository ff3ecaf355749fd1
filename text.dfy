/** The Python `str` operations the schedulers use, on `string` = `seq<char>`.
    `isdigit` and `isalpha` are restricted to ASCII; `isspace` and the line
    boundaries of `splitlines` follow Python's tables. */
module Text {
  import opened Wrappers

  predicate IsDigit(c: char) { '0' <= c <= '9' }

  predicate IsAlpha(c: char) { 'A' <= c <= 'Z' || 'a' <= c <= 'z' }

  /** `str.isspace` for one character. */
  predicate IsSpace(c: char) {
    c == ' ' || '\t' <= c <= '\r' || '\U{1C}' <= c <= '\U{1F}' || c == '\U{85}' || c == '\U{A0}'
    || c == '\U{1680}' || '\U{2000}' <= c <= '\U{200A}' || c == '\U{2028}' || c == '\U{2029}'
    || c == '\U{202F}' || c == '\U{205F}' || c == '\U{3000}'
  }

  /** The characters at which `str.splitlines` ends a line (`\r\n` counts once). */
  predicate IsLineBreak(c: char) {
    '\n' <= c <= '\r' || '\U{1C}' <= c <= '\U{1E}' || c == '\U{85}' || c == '\U{2028}' || c == '\U{2029}'
  }

  predicate AllDigits(s: string) { forall k :: 0 <= k < |s| ==> IsDigit(s[k]) }

  /** `"".join(filter(str.isdigit, s))` */
  function Digits(s: string): (r: string)
    ensures AllDigits(r)
  {
    if s == [] then [] else (if IsDigit(s[0]) then [s[0]] else []) + Digits(s[1..])
  }

  /** `"".join(filter(str.isalpha, s))` */
  function Alphas(s: string): (r: string)
    ensures forall k :: 0 <= k < |r| ==> IsAlpha(r[k])
  {
    if s == [] then [] else (if IsAlpha(s[0]) then [s[0]] else []) + Alphas(s[1..])
  }

  /** Filtering distributes over concatenation. */
  lemma {:induction false} DigitsAppend(a: string, b: string)
    ensures Digits(a + b) == Digits(a) + Digits(b)
  {
    if a != [] {
      assert (a + b)[1..] == a[1..] + b;
      DigitsAppend(a[1..], b);
    } else {
      assert a + b == b;
    }
  }

  lemma {:induction false} AlphasAppend(a: string, b: string)
    ensures Alphas(a + b) == Alphas(a) + Alphas(b)
  {
    if a != [] {
      assert (a + b)[1..] == a[1..] + b;
      AlphasAppend(a[1..], b);
    } else {
      assert a + b == b;
    }
  }

  /** A string with no digit filters to nothing; one of digits only, to itself. */
  lemma {:induction false} DigitsOfNone(s: string)
    requires forall k :: 0 <= k < |s| ==> !IsDigit(s[k])
    ensures Digits(s) == []
  {
    if s != [] {
      DigitsOfNone(s[1..]);
    }
  }

  lemma {:induction false} DigitsOfAll(s: string)
    requires AllDigits(s)
    ensures Digits(s) == s
  {
    if s != [] {
      DigitsOfAll(s[1..]);
    }
  }

  lemma {:induction false} AlphasOfNone(s: string)
    requires forall k :: 0 <= k < |s| ==> !IsAlpha(s[k])
    ensures Alphas(s) == []
  {
    if s != [] {
      AlphasOfNone(s[1..]);
    }
  }

  lemma {:induction false} AlphasOfAll(s: string)
    requires forall k :: 0 <= k < |s| ==> IsAlpha(s[k])
    ensures Alphas(s) == s
  {
    if s != [] {
      AlphasOfAll(s[1..]);
    }
  }

  function StripLeft(s: string): string
  {
    if s != [] && IsSpace(s[0]) then StripLeft(s[1..]) else s
  }

  function StripRight(s: string): string
  {
    if s != [] && IsSpace(s[|s| - 1]) then StripRight(s[..|s| - 1]) else s
  }

  /** `s.strip()` */
  function Strip(s: string): string { StripRight(StripLeft(s)) }

  /** `s.lower()` on ASCII letters. */
  function Lower(s: string): (r: string)
    ensures |r| == |s|
  {
    if s == [] then []
    else [if 'A' <= s[0] <= 'Z' then (s[0] as int + 32) as char else s[0]] + Lower(s[1..])
  }

  /** `s.startswith(p)` */
  predicate StartsWith(s: string, p: string) { |p| <= |s| && s[..|p|] == p }

  /** The first position of `c` in `s` (`s.index(c)`). */
  function IndexOf<T(==)>(s: seq<T>, c: T): (i: nat)
    requires c in s
    ensures i < |s| && s[i] == c && c !in s[..i]
  {
    if s[0] == c then 0 else assert c in s[1..]; 1 + IndexOf(s[1..], c)
  }

  /** One bound of a Python slice: negative bounds count from the end, and
      bounds are clamped to `0..n`. */
  function SliceBound(n: nat, i: int): (b: nat)
    ensures b <= n
    ensures 0 <= i <= n ==> b == i
  {
    if i < 0 then (if i + n < 0 then 0 else i + n) else if i > n then n else i
  }

  /** `s[start:stop]` */
  function Slice<T>(s: seq<T>, start: int, stop: int): (r: seq<T>)
    ensures |r| <= |s|
  {
    var a := SliceBound(|s|, start);
    var b := SliceBound(|s|, stop);
    if a < b then s[a..b] else []
  }

  /** The first `c` of `a + [c] + b` is the one after `a` when `a` holds none. */
  lemma {:induction false} IndexOfAfterPrefix<T>(a: seq<T>, c: T, b: seq<T>)
    requires c !in a
    ensures IndexOf(a + [c] + b, c) == |a|
  {
    if a != [] {
      assert (a + [c] + b)[1..] == a[1..] + [c] + b;
      IndexOfAfterPrefix(a[1..], c, b);
    }
  }

  /** The number of occurrences of `c` in `s`. */
  function Count(s: string, c: char): nat
  {
    if s == [] then 0 else (if s[0] == c then 1 else 0) + Count(s[1..], c)
  }

  /** `s.split(sep)` for a one-character separator: never empty. */
  function SplitOn(s: string, sep: char): (parts: seq<string>)
    ensures |parts| >= 1
    decreases |s|
  {
    if sep in s then
      var i := IndexOf(s, sep);
      [s[..i]] + SplitOn(s[i + 1..], sep)
    else [s]
  }

  /** Some element satisfies `p` exactly when one before the last does or the last does. */
  lemma SomeLast<T>(xs: seq<T>, init: seq<T>, p: T -> bool)
    requires xs != [] && init == xs[..|xs| - 1]
    ensures (exists j :: 0 <= j < |xs| && p(xs[j])) <==>
      (exists j :: 0 <= j < |init| && p(init[j])) || p(xs[|xs| - 1])
  {
    if exists j :: 0 <= j < |xs| && p(xs[j]) {
      var j :| 0 <= j < |xs| && p(xs[j]);
      if j < |init| {
        assert init[j] == xs[j];
      }
    }
    if exists j :: 0 <= j < |init| && p(init[j]) {
      var j :| 0 <= j < |init| && p(init[j]);
      assert init[j] == xs[j];
    }
  }

  /** Splitting at a first separator preceded by `a` yields `a`, then the
      split of what follows. */
  lemma SplitOnAfterPrefix(a: string, sep: char, b: string)
    requires sep !in a
    ensures SplitOn(a + [sep] + b, sep) == [a] + SplitOn(b, sep)
  {
    var s := a + [sep] + b;
    IndexOfAfterPrefix(a, sep, b);
    assert s[..|a|] == a && s[|a| + 1..] == b;
  }

  /** `sep.join(parts)` */
  function JoinWith(parts: seq<string>, sep: string): string
  {
    if |parts| == 0 then ""
    else if |parts| == 1 then parts[0]
    else parts[0] + sep + JoinWith(parts[1..], sep)
  }

  /** `s.split(sep, 1)` when `sep in s`: the text before and after the first `sep`. */
  function SplitOnce(s: string, sep: char): (string, string)
    requires sep in s
  {
    var i := IndexOf(s, sep);
    (s[..i], s[i + 1..])
  }

  /** `s.replace(c, "")` */
  function RemoveChar(s: string, c: char): (r: string)
    ensures c !in r
  {
    if s == [] then [] else (if s[0] == c then [] else [s[0]]) + RemoveChar(s[1..], c)
  }

  /** `s.replace(pat, "")`: occurrences are found left to right without overlap. */
  function RemoveAll(s: string, pat: string): string
    requires pat != []
    decreases |s|
  {
    if s == [] then []
    else if StartsWith(s, pat) then RemoveAll(s[|pat|..], pat)
    else [s[0]] + RemoveAll(s[1..], pat)
  }

  /** Whether `pat` occurs in `s` (`pat in s`). */
  predicate Occurs(s: string, pat: string)
    decreases |s|
  {
    StartsWith(s, pat) || (s != [] && Occurs(s[1..], pat))
  }

  /** The length of the first line of `s`: the position of its first line boundary. */
  function LineEnd(s: string): (i: nat)
    ensures i <= |s|
    ensures forall k :: 0 <= k < i ==> !IsLineBreak(s[k])
    ensures i < |s| ==> IsLineBreak(s[i])
  {
    if s == [] || IsLineBreak(s[0]) then 0 else 1 + LineEnd(s[1..])
  }

  /** `s.splitlines()`: no trailing empty line, and `\r\n` is one boundary. */
  function SplitLines(s: string): seq<string>
    decreases |s|
  {
    if s == [] then []
    else
      var i := LineEnd(s);
      if i == |s| then [s]
      else
        var skip := if s[i] == '\r' && i + 1 < |s| && s[i + 1] == '\n' then 2 else 1;
        [s[..i]] + SplitLines(s[i + skip..])
  }

  function DigitChar(d: nat): (c: char)
    requires d < 10
    ensures IsDigit(c)
  {
    ('0' as int + d) as char
  }

  /** `str(n)` for a natural number. */
  function NatToString(n: nat): (r: string)
    ensures r != [] && AllDigits(r)
    decreases n
  {
    if n < 10 then [DigitChar(n)] else NatToString(n / 10) + [DigitChar(n % 10)]
  }

  /** `int(s)` for a string of decimal digits (leading zeros allowed). */
  function ParseNat(s: string): nat
    requires AllDigits(s)
  {
    if s == [] then 0 else ParseNat(s[..|s| - 1]) * 10 + (s[|s| - 1] as int - '0' as int)
  }

  /** `str(i)` for an integer. */
  function IntToString(i: int): string
  {
    if i < 0 then "-" + NatToString(-i) else NatToString(i)
  }

  /** The digits of an `int` literal: decimal digits, a single `_` allowed
      between two of them (`1_000`). */
  predicate IntDigits(b: string)
  {
    && b != [] && IsDigit(b[0]) && IsDigit(b[|b| - 1])
    && (forall k :: 0 <= k < |b| ==> IsDigit(b[k]) || b[k] == '_')
    && (forall k :: 0 <= k < |b| - 1 && b[k] == '_' ==> IsDigit(b[k + 1]))
  }

  /** Python `int(s)` on a `str`: surrounding whitespace, an optional sign and
      the digits of an `int` literal, whose underscores do not count; `None`
      where Python raises `ValueError`. */
  function PyInt(s: string): Option<int>
  {
    var t := Strip(s);
    var neg := t != [] && t[0] == '-';
    var body := if t != [] && (t[0] == '-' || t[0] == '+') then t[1..] else t;
    if !IntDigits(body) then None
    else
      RemoveCharLeavesDigits(body, '_');
      var v: int := ParseNat(RemoveChar(body, '_'));
      Some(if neg then -v else v)
  }

  /** Removing the only non-digit character leaves digits. */
  lemma {:induction false} RemoveCharLeavesDigits(s: string, c: char)
    requires forall k :: 0 <= k < |s| ==> IsDigit(s[k]) || s[k] == c
    ensures AllDigits(RemoveChar(s, c))
  {
    if s != [] {
      RemoveCharLeavesDigits(s[1..], c);
    }
  }

  /** Removing a character that does not occur changes nothing. */
  lemma {:induction false} RemoveCharAbsent(s: string, c: char)
    requires c !in s
    ensures RemoveChar(s, c) == s
  {
    if s != [] {
      assert c !in s[1..];
      RemoveCharAbsent(s[1..], c);
    }
  }

  /** `s.replace(c, "")` distributes over concatenation. */
  lemma {:induction false} RemoveCharAppend(a: string, b: string, c: char)
    ensures RemoveChar(a + b, c) == RemoveChar(a, c) + RemoveChar(b, c)
  {
    if a == [] {
      assert a + b == b;
    } else {
      assert (a + b)[0] == a[0] && (a + b)[1..] == a[1..] + b;
      RemoveCharAppend(a[1..], b, c);
    }
  }

  /** `int` on the digits of a literal, with nothing around them. */
  lemma PyIntOfIntDigits(t: string)
    requires IntDigits(t)
    ensures AllDigits(RemoveChar(t, '_')) && PyInt(t) == Some(ParseNat(RemoveChar(t, '_')))
  {
    RemoveCharLeavesDigits(t, '_');
    StripNoSpace(t);
  }

  /** `int` reads digits with a `_` between two groups as the digits joined:
      `int("1_0") == int("10") == 10`. */
  lemma PyIntUnderscore(a: string, b: string)
    requires a != [] && b != [] && AllDigits(a) && AllDigits(b)
    ensures PyInt(a + "_" + b) == PyInt(a + b) == Some(ParseNat(a + b))
  {
    var t, u := a + "_" + b, a + b;
    JoinedIntDigits(a, b);
    UnderscoreRemoved(a, b);
    RemoveCharAbsent(u, '_');
    PyIntOfIntDigits(t);
    PyIntOfIntDigits(u);
  }

  lemma JoinedIntDigits(a: string, b: string)
    requires a != [] && b != [] && AllDigits(a) && AllDigits(b)
    ensures IntDigits(a + "_" + b) && IntDigits(a + b) && '_' !in a + b
  {
    var t, u := a + "_" + b, a + b;
    assert t[0] == a[0] && t[|t| - 1] == b[|b| - 1];
    assert u[0] == a[0] && u[|u| - 1] == b[|b| - 1];
    forall k | 0 <= k < |t| - 1 && t[k] == '_'
      ensures IsDigit(t[k + 1])
    {
      assert k == |a| && t[k + 1] == b[0];
    }
  }

  lemma UnderscoreRemoved(a: string, b: string)
    requires AllDigits(a) && AllDigits(b)
    ensures RemoveChar(a + "_" + b, '_') == a + b
  {
    assert '_' !in a && '_' !in b;
    RemoveCharAbsent(a, '_');
    RemoveCharAbsent(b, '_');
    var ub: string := "_" + b;
    assert ub[0] == '_' && ub[1..] == b;
    assert RemoveChar(ub, '_') == b;
    RemoveCharAppend(a, ub, '_');
    assert a + "_" + b == a + ub;
  }

  lemma {:induction false} ParseNatToString(n: nat)
    ensures ParseNat(NatToString(n)) == n
    decreases n
  {
    if n >= 10 {
      var s := NatToString(n);
      assert s[..|s| - 1] == NatToString(n / 10);
      ParseNatToString(n / 10);
    }
  }

  /** Decimal printing is injective: distinct numbers print differently. */
  lemma NatToStringInjective(a: nat, b: nat)
    ensures NatToString(a) == NatToString(b) <==> a == b
  {
    if NatToString(a) == NatToString(b) {
      ParseNatToString(a);
      ParseNatToString(b);
    }
  }

  /** `int(str(i)) == i`. */
  lemma PyIntOfIntToString(i: int)
    ensures PyInt(IntToString(i)) == Some(i)
  {
    if i < 0 {
      PyIntOfNegative(i);
    } else {
      PyIntOfNat(i);
      assert IntToString(i) == NatToString(i);
    }
  }

  lemma PyIntOfNat(n: nat)
    ensures PyInt(NatToString(n)) == Some(n)
  {
    var t := NatToString(n);
    PlainDigits(t);
    PyIntOfIntDigits(t);
    ParseNatToString(n);
  }

  /** A negative number prints as `-` before the digits of its magnitude,
      and `int` reads that back. */
  lemma PyIntOfNegative(i: int)
    requires i < 0
    ensures IntToString(i) == "-" + NatToString(-i) && PyInt(IntToString(i)) == Some(i)
  {
    var n: nat := -i;
    var d := NatToString(n);
    assert IntToString(i) == "-" + d;
    PlainDigits(d);
    PyIntOfMinus(d);
    ParseNatToString(n);
  }

  /** Digits without an underscore are the digits of an `int` literal. */
  lemma PlainDigits(d: string)
    requires d != [] && AllDigits(d)
    ensures IntDigits(d) && RemoveChar(d, '_') == d
  {
    assert '_' !in d;
    RemoveCharAbsent(d, '_');
  }

  /** `int` of `-` before the digits of a literal is their value negated. */
  lemma PyIntOfMinus(d: string)
    requires IntDigits(d)
    ensures AllDigits(RemoveChar(d, '_')) && PyInt("-" + d) == Some(-(ParseNat(RemoveChar(d, '_')) as int))
  {
    var t := "-" + d;
    assert t[|t| - 1] == d[|d| - 1];
    StripNoSpace(t);
    assert t[1..] == d;
    RemoveCharLeavesDigits(d, '_');
  }

  lemma StripNoSpace(s: string)
    requires s != [] && !IsSpace(s[0]) && !IsSpace(s[|s| - 1])
    ensures Strip(s) == s
  {
  }

  /** Splitting on a one-character separator and joining back gives the text
      again, and no part contains the separator. */
  lemma {:induction false} SplitJoin(s: string, sep: char)
    ensures JoinWith(SplitOn(s, sep), [sep]) == s
    ensures forall k :: 0 <= k < |SplitOn(s, sep)| ==> sep !in SplitOn(s, sep)[k]
    decreases |s|
  {
    if sep in s {
      var i := IndexOf(s, sep);
      SplitJoin(s[i + 1..], sep);
      var rest := SplitOn(s[i + 1..], sep);
      assert SplitOn(s, sep) == [s[..i]] + rest;
      assert s == s[..i] + [sep] + s[i + 1..];
    }
  }

  /** `s.split(sep)` has one part more than `s` has separators. */
  lemma {:induction false} SplitCount(s: string, sep: char)
    ensures |SplitOn(s, sep)| == Count(s, sep) + 1
    decreases |s|
  {
    if sep in s {
      var i := IndexOf(s, sep);
      SplitCount(s[i + 1..], sep);
      CountAppend(s[..i], s[i..], sep);
      CountAppend([s[i]], s[i + 1..], sep);
      CountZero(s[..i], sep);
      assert s == s[..i] + s[i..];
      assert s[i..] == [s[i]] + s[i + 1..];
    } else {
      CountZero(s, sep);
    }
  }

  lemma {:induction false} CountZero(s: string, c: char)
    requires c !in s
    ensures Count(s, c) == 0
  {
    if s != [] {
      assert c !in s[1..];
      CountZero(s[1..], c);
    }
  }

  lemma {:induction false} CountAppend(a: string, b: string, c: char)
    ensures Count(a + b, c) == Count(a, c) + Count(b, c)
  {
    if a == [] {
      assert a + b == b;
    } else {
      assert (a + b)[1..] == a[1..] + b;
      CountAppend(a[1..], b, c);
    }
  }

  /** Removing a pattern changes the text exactly when the pattern occurs in it. */
  lemma {:induction false} RemoveAllIdentity(s: string, pat: string)
    requires pat != []
    ensures RemoveAll(s, pat) == s <==> !Occurs(s, pat)
    decreases |s|
  {
    if s == [] {
    } else if StartsWith(s, pat) {
      RemoveAllShorter(s[|pat|..], pat);
    } else {
      RemoveAllIdentity(s[1..], pat);
    }
  }

  lemma {:induction false} RemoveAllShorter(s: string, pat: string)
    requires pat != []
    ensures |RemoveAll(s, pat)| <= |s|
    decreases |s|
  {
    if s != [] {
      if StartsWith(s, pat) {
        RemoveAllShorter(s[|pat|..], pat);
      } else {
        RemoveAllShorter(s[1..], pat);
      }
    }
  }
}
