/** The range-prefix rule of the plan parser, for every word and bound, and
    on the inputs that show it. */
module ParserExamples {
  import opened Wrappers
  import opened Text
  import opened PlanParser

  predicate Word(w: string)
  {
    forall k :: 0 <= k < |w| ==> IsAlpha(w[k])
  }

  /** `str.isalpha` drops `_`: a range `w_a-w_b` expands to `wa, ..., wb`,
      the letters of the start bound without their underscore. */
  lemma UnderscoreDropped(w: string, a: nat, b: nat, defaultPrefix: string)
    requires w != [] && Word(w)
    ensures TokenIds(w + "_" + NatToString(a) + "-" + w + "_" + NatToString(b), defaultPrefix)
         == Ok(ExpandRange(w, a, b))
  {
    var s := w + "_" + NatToString(a);
    var e := w + "_" + NatToString(b);
    BoundOfWord(w, a);
    BoundOfWord(w, b);
    assert w + "_" + NatToString(a) + "-" + w + "_" + NatToString(b) == s + ['-'] + e;
    JoinedRange(s, e, defaultPrefix);
  }

  /** A digits-only start bound takes the default prefix: `a-b` expands to
      `prefix+a, ..., prefix+b`. */
  lemma DigitsTakeDefault(a: nat, b: nat, defaultPrefix: string)
    ensures TokenIds(NatToString(a) + "-" + NatToString(b), defaultPrefix)
         == Ok(ExpandRange(defaultPrefix, a, b))
  {
    var s := NatToString(a);
    var e := NatToString(b);
    DigitBound(a);
    DigitBound(b);
    assert s + "-" + e == s + ['-'] + e;
    JoinedRange(s, e, defaultPrefix);
  }

  /** Two bounds without `-`, each holding digits, joined by `-`. */
  lemma JoinedRange(s: string, e: string, defaultPrefix: string)
    requires '-' !in s && '-' !in e && Digits(s) != [] && Digits(e) != []
    ensures TokenIds(s + ['-'] + e, defaultPrefix)
         == Ok(ExpandRange(RangePrefix(s, defaultPrefix), ParseNat(Digits(s)), ParseNat(Digits(e))))
  {
    SplitOnceAt(s, '-', e);
    TokenRange(s + ['-'] + e, defaultPrefix);
  }

  /** The bound `w_n` holds no `-`, its digits are `n` and its letters `w`. */
  lemma BoundOfWord(w: string, n: nat)
    requires Word(w)
    ensures var s := w + "_" + NatToString(n);
      '-' !in s && Digits(s) == NatToString(n) && ParseNat(Digits(s)) == n && Alphas(s) == w
  {
    var d := NatToString(n);
    var u := ['_'] + d;
    assert w + "_" + d == w + u;
    DigitsOfBound(w, u, d);
    AlphasOfBound(w, u, d);
    NoDashInBound(w, u, d);
    ParseNatToString(n);
  }

  lemma DigitsOfBound(w: string, u: string, d: string)
    requires Word(w) && AllDigits(d) && u == ['_'] + d
    ensures Digits(w + u) == d
  {
    assert u[1..] == d;
    DigitsAppend(w, u);
    DigitsOfNone(w);
    DigitsOfAll(d);
  }

  lemma AlphasOfBound(w: string, u: string, d: string)
    requires Word(w) && AllDigits(d) && u == ['_'] + d
    ensures Alphas(w + u) == w
  {
    assert u[1..] == d;
    AlphasAppend(w, u);
    AlphasOfAll(w);
    AlphasOfNone(d);
  }

  lemma NoDashInBound(w: string, u: string, d: string)
    requires Word(w) && AllDigits(d) && u == ['_'] + d
    ensures '-' !in w + u
  {
    var s := w + u;
    forall k | 0 <= k < |s|
      ensures s[k] != '-'
    {
      if k < |w| {
        assert s[k] == w[k];
      } else {
        assert s[k] == u[k - |w|];
      }
    }
  }

  /** A printed number holds no `-`, its digits are itself and it has no letters. */
  lemma DigitBound(n: nat)
    ensures var s := NatToString(n);
      '-' !in s && Digits(s) == s && ParseNat(Digits(s)) == n && Alphas(s) == []
  {
    var s := NatToString(n);
    assert forall k :: 0 <= k < |s| ==> !IsAlpha(s[k]);
    DigitsOfAll(s);
    AlphasOfNone(s);
    ParseNatToString(n);
  }

  /** `a + [c] + b` splits at the `c` after `a` when `a` holds none. */
  lemma SplitOnceAt(a: string, c: char, b: string)
    requires c !in a
    ensures c in a + [c] + b && SplitOnce(a + [c] + b, c) == (a, b)
  {
    var t := a + [c] + b;
    assert t[|a|] == c;
    IndexOfAfterPrefix(a, c, b);
    assert t[..|a|] == a && t[|a| + 1..] == b;
  }
}
