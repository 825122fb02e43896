/**
  Ticker normalisation: the document id of a symbol is the symbol with every
  `.V`, then every `.TO`, then every `.CN` removed, each by Python's
  `str.replace(old, '')`.
 */
module Normalize {

  predicate StartsWith(s: string, p: string) {
    |p| <= |s| && s[..|p|] == p
  }

  /** `p in s` for strings: `p` occurs at some position of `s`. */
  predicate Contains(s: string, p: string)
    decreases |s|
  {
    StartsWith(s, p) || (|s| > 0 && Contains(s[1..], p))
  }

  /**
    Python's `s.replace(pat, rep)`: scan left to right, and at each position
    where `pat` starts replace it by `rep` and resume after it; the replaced
    occurrences therefore never overlap.
   */
  function Replace(s: string, pat: string, rep: string): (r: string)
    requires |pat| > 0
    ensures !Contains(s, pat) ==> r == s
    ensures rep == [] ==> |r| <= |s|
    ensures rep == [] && Contains(s, pat) ==> |r| < |s|
    decreases |s|
  {
    if s == [] then s
    else if StartsWith(s, pat) then rep + Replace(s[|pat|..], pat, rep)
    else [s[0]] + Replace(s[1..], pat, rep)
  }

  /** The three exchange suffixes, in the order they are stripped. */
  const Venture := ".V"
  const Toronto := ".TO"
  const Canadian := ".CN"

  /** `ticker.replace('.V', '').replace('.TO', '').replace('.CN', '')` */
  function Clean(ticker: string): (r: string)
    ensures |r| <= |ticker|
    ensures r == ticker <==>
              !Contains(ticker, Venture) && !Contains(ticker, Toronto) && !Contains(ticker, Canadian)
  {
    Replace(Replace(Replace(ticker, Venture, ""), Toronto, ""), Canadian, "")
  }

  /** A pattern whose only dot is its first character, as all three suffixes are. */
  predicate DotLed(p: string) {
    |p| > 0 && p[0] == '.' && forall k :: 1 <= k < |p| ==> p[k] != '.'
  }

  lemma PrefixChar(s: string, p: string, k: int)
    ensures StartsWith(s, p) && 0 <= k < |p| ==> s[k] == p[k]
  {
    if StartsWith(s, p) && 0 <= k < |p| {
      assert s[..|p|][k] == s[k];
    }
  }

  /**
    An occurrence of a dot-led pattern cannot start inside `a` and run into
    `b` when `b` starts with a dot: it would need a dot past its first place.
   */
  lemma NoStraddle(a: string, b: string, p: string)
    requires DotLed(p) && |b| > 0 && b[0] == '.'
    requires StartsWith(a + b, p)
    requires |a| > 0
    ensures StartsWith(a, p)
  {
    if |a| < |p| {
      PrefixChar(a + b, p, |a|);
      assert false;
    }
    assert (a + b)[..|p|] == a[..|p|];
  }

  lemma {:induction false} NotContainsConcat(a: string, b: string, p: string)
    requires DotLed(p) && |b| > 0 && b[0] == '.'
    requires !Contains(a, p) && !Contains(b, p)
    ensures !Contains(a + b, p)
    decreases |a|
  {
    if a == [] {
      assert a + b == b;
    } else {
      if StartsWith(a + b, p) {
        NoStraddle(a, b, p);
        assert false;
      }
      assert (a + b)[1..] == a[1..] + b;
      NotContainsConcat(a[1..], b, p);
    }
  }

  /**
    Replacing a dot-led pattern by nothing removes its first occurrence when
    that follows a base free of it, and carries on with the rest.
   */
  lemma {:induction false} RemoveFirst(base: string, p: string, rest: string)
    requires DotLed(p) && !Contains(base, p)
    ensures Replace(base + p + rest, p, "") == base + Replace(rest, p, "")
    decreases |base|
  {
    if base == [] {
      assert base + p + rest == p + rest;
      assert (p + rest)[|p|..] == rest;
    } else {
      if StartsWith(base + (p + rest), p) {
        NoStraddle(base, p + rest, p);
        assert false;
      }
      assert base + p + rest == base + (p + rest);
      assert (base + p + rest)[1..] == base[1..] + p + rest;
      RemoveFirst(base[1..], p, rest);
      assert [base[0]] + base[1..] == base;
    }
  }

  /** Replacing a dot-led pattern by nothing strips it off the end of a base free of it. */
  lemma RemoveTrailing(base: string, p: string)
    requires DotLed(p) && !Contains(base, p)
    ensures Replace(base + p, p, "") == base
  {
    RemoveFirst(base, p, []);
    assert base + p + [] == base + p;
  }

  predicate FreeOfSuffixes(s: string) {
    !Contains(s, Venture) && !Contains(s, Toronto) && !Contains(s, Canadian)
  }

  lemma SuffixesDotLed()
    ensures DotLed(Venture) && DotLed(Toronto) && DotLed(Canadian)
  {
  }

  /**
    A base that contains none of the three suffixes, followed by one of them,
    is cleaned to the base.
   */
  lemma StripsExchangeSuffix(base: string, suffix: string)
    requires FreeOfSuffixes(base)
    requires suffix == Venture || suffix == Toronto || suffix == Canadian
    ensures Clean(base + suffix) == base
  {
    SuffixesDotLed();
    var s := base + suffix;
    if suffix == Venture {
      RemoveTrailing(base, Venture);
    } else if suffix == Toronto {
      DotSegmentNoMatch(suffix, Venture);
      NotContainsConcat(base, suffix, Venture);
      RemoveTrailing(base, Toronto);
    } else {
      DotSegmentNoMatch(suffix, Venture);
      DotSegmentNoMatch(suffix, Toronto);
      NotContainsConcat(base, suffix, Venture);
      NotContainsConcat(base, suffix, Toronto);
      RemoveTrailing(base, Canadian);
    }
  }

  /** A string with no dot holds no dot-led pattern. */
  lemma {:induction false} NoDotNoMatch(s: string, p: string)
    requires DotLed(p) && '.' !in s
    ensures !Contains(s, p)
    decreases |s|
  {
    if s != [] {
      assert s[0] in s;
      assert forall c :: c in s[1..] ==> c in s;
      NoDotNoMatch(s[1..], p);
    }
  }

  /** A dot followed by dot-free text holds a dot-led pattern only as a prefix. */
  lemma DotSegmentNoMatch(s: string, p: string)
    requires DotLed(p) && |s| > 0 && s[0] == '.' && '.' !in s[1..]
    requires |p| >= 2 && (|s| < 2 || s[1] != p[1])
    ensures !Contains(s, p)
  {
    PrefixChar(s, p, 1);
    NoDotNoMatch(s[1..], p);
  }

  /** A dot-free base holds none of the suffixes. */
  lemma DotFreeIsFree(s: string)
    requires '.' !in s
    ensures FreeOfSuffixes(s)
  {
    SuffixesDotLed();
    NoDotNoMatch(s, Venture);
    NoDotNoMatch(s, Toronto);
    NoDotNoMatch(s, Canadian);
  }

  /** Cleaning twice is cleaning once when the cleaned form no longer holds a suffix. */
  lemma CleanIdempotentWhenFree(ticker: string)
    requires FreeOfSuffixes(Clean(ticker))
    ensures Clean(Clean(ticker)) == Clean(ticker)
  {
  }

  /**
    Removing one `.V` can bring two characters together into a new `.V`, which
    the single pass leaves in place: cleaning is not idempotent in general.
   */
  lemma CleanNotIdempotent()
    ensures Clean("A..VV") == "A.V"
    ensures Clean("A.V") == "A"
  {
    assert Replace("V", Venture, "") == "V";
    assert ".VV"[2..] == "V";
    assert Replace(".VV", Venture, "") == "V";
    assert "..VV"[1..] == ".VV";
    assert Replace("..VV", Venture, "") == ".V";
    assert "A..VV"[1..] == "..VV";
    assert Replace("A..VV", Venture, "") == "A.V";
    SuffixesDotLed();
    assert "A.V" == "A" + ".V";
    DotFreeIsFree("A");
    assert ".V"[1..] == "V";
    DotSegmentNoMatch(".V", Toronto);
    DotSegmentNoMatch(".V", Canadian);
    NotContainsConcat("A", ".V", Toronto);
    NotContainsConcat("A", ".V", Canadian);
    StripsExchangeSuffix("A", Venture);
  }

  /**
    Every occurrence is removed, not only a trailing one: a `.V` in the middle
    of a symbol disappears as well as the exchange suffix at its end.
   */
  lemma CleanRemovesInnerOccurrences(a: string, b: string)
    requires '.' !in a && '.' !in b
    ensures Clean(a + Venture + b + Toronto) == a + b
  {
    SuffixesDotLed();
    DotFreeIsFree(a + b);
    InnerVentureRemoved(a, b);
    assert Toronto[1..] == "TO";
    DotSegmentNoMatch(Toronto, Venture);
    NotContainsConcat(a + b, Toronto, Venture);
    assert Replace((a + b) + Toronto, Venture, "") == (a + b) + Toronto;
    StripsExchangeSuffix(a + b, Toronto);
  }

  lemma InnerVentureRemoved(a: string, b: string)
    requires '.' !in a && '.' !in b
    ensures Replace(a + Venture + b + Toronto, Venture, "") == (a + b) + Toronto
  {
    var tail := b + Toronto;
    assert Replace(tail, Venture, "") == tail by {
      SuffixesDotLed();
      NoDotNoMatch(b, Venture);
      assert Toronto[1..] == "TO";
      DotSegmentNoMatch(Toronto, Venture);
      NotContainsConcat(b, Toronto, Venture);
    }
    assert Replace(a + Venture + tail, Venture, "") == a + tail by {
      SuffixesDotLed();
      NoDotNoMatch(a, Venture);
      RemoveFirst(a, Venture, tail);
    }
    assert a + Venture + b + Toronto == a + Venture + tail;
    assert a + tail == (a + b) + Toronto;
  }

  lemma CleanInnerExample()
    ensures Clean("AB.VC.TO") == "ABC"
  {
    assert "AB.VC.TO" == "AB" + Venture + "C" + Toronto;
    CleanRemovesInnerOccurrences("AB", "C");
  }

  /** Symbols from the universe the updater runs over. */
  lemma CleanVentureExample()
    ensures Clean("ORC-B.V") == "ORC-B"
  {
    DotFreeIsFree("ORC-B");
    assert "ORC-B.V" == "ORC-B" + Venture;
    StripsExchangeSuffix("ORC-B", Venture);
  }

  lemma CleanCanadianExample()
    ensures Clean("SNDL.CN") == "SNDL"
  {
    DotFreeIsFree("SNDL");
    assert "SNDL.CN" == "SNDL" + Canadian;
    StripsExchangeSuffix("SNDL", Canadian);
  }

  /** Inner dots that do not start a suffix survive. */
  lemma CleanInnerDotsExample()
    ensures Clean("BTC.PR.A.CN") == "BTC.PR.A"
  {
    SuffixesDotLed();
    DotFreeIsFree("BTC");
    var pr, a := ".PR", ".A";
    assert pr[1..] == "PR" && a[1..] == "A";
    forall p | p == Venture || p == Toronto || p == Canadian
      ensures !Contains("BTC" + pr + a, p)
    {
      DotSegmentNoMatch(pr, p);
      DotSegmentNoMatch(a, p);
      NotContainsConcat("BTC", pr, p);
      NotContainsConcat("BTC" + pr, a, p);
    }
    assert "BTC.PR.A" == "BTC" + pr + a;
    assert "BTC.PR.A.CN" == "BTC.PR.A" + Canadian;
    StripsExchangeSuffix("BTC.PR.A", Canadian);
  }
}
