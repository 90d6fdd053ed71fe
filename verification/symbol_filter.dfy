/**
 * The importer's clean-up of the collected symbols: the fund/ETF keyword
 * heuristic `looks_like_etf` and the single pass in `main` that trims,
 * upper-cases, drops over-long symbols, drops repeats (first occurrence
 * wins) and drops ETF-looking symbols.
 */
module SymbolFilter {
  import opened Text

  /** Longest symbol the importer keeps. */
  const MaxSymbolLength: nat := 12

  /** Substrings that mark a listing as a fund, ETF or ETN. */
  const EtfKeywords: seq<string> := ["ETF", "ETN", "FUND", "TRUST", "INDEX", "EXCHANGE TRADED"]

  /** `any(k in s for k in keywords)` */
  function AnyKeyword(s: string, keywords: seq<string>): (r: bool)
    ensures r <==> exists k :: k in keywords && Contains(s, k)
  {
    if keywords == [] then false
    else if Contains(s, keywords[0]) then
      assert keywords[0] in keywords;
      true
    else
      var r := AnyKeyword(s, keywords[1..]);
      assert r ==> exists k :: k in keywords && Contains(s, k) by {
        if r {
          var k :| k in keywords[1..] && Contains(s, k);
          assert k in keywords;
        }
      }
      assert keywords == [keywords[0]] + keywords[1..];
      r
  }

  /**
   * `looks_like_etf`: true exactly when `sym` is non-empty and one of the
   * keywords occurs somewhere in its upper-cased form.
   */
  function LooksLikeEtf(sym: string): (r: bool)
    ensures r <==> sym != "" && exists k, i: nat :: k in EtfKeywords && OccursAt(Upper(sym), k, i)
  {
    if sym == "" then false
    else
      forall k | k in EtfKeywords ensures Contains(Upper(sym), k) <==> exists i: nat :: OccursAt(Upper(sym), k, i) {
        ContainsOccurs(Upper(sym), k);
      }
      AnyKeyword(Upper(sym), EtfKeywords)
  }

  /** The heuristic is case-blind: "spy etf" is caught by "ETF". */
  lemma LooksLikeEtfLowerCase()
    ensures LooksLikeEtf("spy etf")
  {
    assert Upper("spy etf") == "SPY ETF";
    assert OccursAt("SPY ETF", "ETF", 4);
    assert "ETF" in EtfKeywords;
  }

  /** "IND" is not caught: the keyword "INDEX" is longer than it. */
  lemma LooksLikeEtfShortIndex()
    ensures !LooksLikeEtf("IND")
  {
    assert Upper("IND") == "IND";
    forall k, i: nat | k in EtfKeywords ensures !OccursAt("IND", k, i) {
      if i + |k| <= 3 {
        assert |k| == 3 && i == 0;
        assert "IND"[0..3] == "IND";
      }
    }
  }

  /** `s.strip().upper()` */
  function Normalize(s: string): string {
    Upper(Strip(s))
  }

  /** A collected string is kept (unless it repeats) when it is non-empty, short enough after normalising, and not ETF-looking. */
  predicate Accepted(s: string) {
    s != "" && |Normalize(s)| <= MaxSymbolLength && !LooksLikeEtf(Normalize(s))
  }

  /** The clean list after the first `|collected|` strings: the specification of the loop in `main`. */
  function Clean(collected: seq<string>): seq<string> {
    if collected == [] then []
    else
      var prev := Clean(collected[..|collected| - 1]);
      var s := collected[|collected| - 1];
      if Accepted(s) && Normalize(s) !in prev then prev + [Normalize(s)] else prev
  }

  /** Every clean symbol is the normalised form of an accepted collected string. */
  lemma {:induction false} CleanFromAccepted(collected: seq<string>)
    ensures |Clean(collected)| <= |collected|
    ensures forall x :: x in Clean(collected) ==> exists s :: s in collected && Accepted(s) && x == Normalize(s)
  {
    if collected != [] {
      var init := collected[..|collected| - 1];
      CleanFromAccepted(init);
      forall x | x in Clean(collected)
        ensures exists t :: t in collected && Accepted(t) && x == Normalize(t)
      {
        if x in Clean(init) {
          var t :| t in init && Accepted(t) && x == Normalize(t);
          assert t in collected;
        }
      }
    }
  }

  /**
   * Every clean symbol is `strip().upper()` of an accepted, non-empty
   * collected string; so it has at most 12 characters, is upper-case and
   * is not ETF-looking. There are never more clean symbols than collected ones.
   */
  lemma CleanSound(collected: seq<string>)
    ensures |Clean(collected)| <= |collected|
    ensures forall x :: x in Clean(collected) ==>
              (exists s :: s in collected && s != "" && x == Upper(Strip(s)))
              && |x| <= MaxSymbolLength && Upper(x) == x && !LooksLikeEtf(x)
  {
    CleanFromAccepted(collected);
    forall x | x in Clean(collected)
      ensures (exists s :: s in collected && s != "" && x == Upper(Strip(s)))
              && |x| <= MaxSymbolLength && Upper(x) == x && !LooksLikeEtf(x)
    {
      var s :| s in collected && Accepted(s) && x == Normalize(s);
      UpperIdempotent(Strip(s));
    }
  }

  /** The clean list never holds the same symbol twice. */
  lemma {:induction false} CleanNoDuplicates(collected: seq<string>)
    ensures forall i, j :: 0 <= i < j < |Clean(collected)| ==> Clean(collected)[i] != Clean(collected)[j]
  {
    if collected != [] {
      CleanNoDuplicates(collected[..|collected| - 1]);
    }
  }

  /** Every accepted collected string has its normalised form in the clean list. */
  lemma {:induction false} CleanComplete(collected: seq<string>)
    ensures forall s :: s in collected && Accepted(s) ==> Normalize(s) in Clean(collected)
  {
    if collected != [] {
      var init := collected[..|collected| - 1];
      CleanComplete(init);
      forall s | s in collected && Accepted(s) ensures Normalize(s) in Clean(collected) {
        if s in init {
          assert Normalize(s) in Clean(init);
        } else {
          assert s == collected[|collected| - 1];
        }
      }
    }
  }

  /**
   * First occurrence wins and order is kept: reading more collected strings
   * only appends to the clean list.
   */
  lemma {:induction false} CleanExtends(collected: seq<string>, more: seq<string>)
    ensures Clean(collected) <= Clean(collected + more)
    decreases |more|
  {
    if more != [] {
      var longer := collected + more[..|more| - 1];
      CleanExtends(collected, more[..|more| - 1]);
      assert (collected + more)[..|collected + more| - 1] == longer;
    } else {
      assert collected + more == collected;
    }
  }

  /** The dedupe and filter loop of the importer's `main`. */
  method CleanSymbols(collected: seq<string>) returns (clean: seq<string>)
    ensures clean == Clean(collected)
  {
    var seen: set<string> := {};
    clean := [];
    for i := 0 to |collected|
      invariant clean == Clean(collected[..i])
      invariant seen == set x | x in clean
    {
      assert collected[..i + 1][..i] == collected[..i];
      ghost var prev := clean;
      var s := collected[i];
      if s == "" {
        assert Clean(collected[..i + 1]) == prev;
        continue;
      }
      var st := Upper(Strip(s));
      assert st == Normalize(s);
      if |st| > MaxSymbolLength {
        assert Clean(collected[..i + 1]) == prev;
        continue;
      }
      if st in seen {
        assert st in prev;
        continue;
      }
      if LooksLikeEtf(st) {
        assert Clean(collected[..i + 1]) == prev;
        continue;
      }
      assert st !in prev && Accepted(s);
      seen := seen + {st};
      clean := clean + [st];
    }
    assert collected[..|collected|] == collected;
  }
}
