/**
 * `generate_top_stocks`: score every candidate symbol, sort the records by
 * score, highest first, and keep the first 20. The master symbol list read
 * from the `symbols` table is a parameter; an empty one is replaced by a
 * hard-coded list of 30 symbols.
 */
module Ranking {
  import opened Optional
  import opened Scoring
  import opened StockMetrics

  /** The record written for a stock (the source also stamps it with the time, which is not modelled). */
  datatype ScoredStock = ScoredStock(symbol: string, pe: real, sentiment: real, volumeSurge: real, score: real)

  /** The demonstration list used when the master list is empty. */
  const FallbackSymbols: seq<string> := [
    "MSFT", "AAPL", "GOOGL", "NVDA", "TSLA", "AMZN", "JPM", "V", "MA", "WMT",
    "JNJ", "XOM", "UNH", "PG", "HD", "DIS", "NFLX", "ADBE", "CRM", "INTC",
    "SBUX", "COST", "CSCO", "PYPL", "ZM", "LUV", "DAL", "UAL", "AAL", "F"]

  /** How many records are kept. */
  const TopCount: nat := 20

  /** The symbols screened: the master list, or the 30 fallback symbols when it is empty. */
  function Universe(fetched: seq<string>): (symbols: seq<string>)
    ensures symbols != []
    ensures fetched != [] ==> symbols == fetched
    ensures fetched == [] ==> |symbols| == 30
  {
    if fetched == [] then FallbackSymbols else fetched
  }

  /** Every call to `fetch_fundamentals` sees draws in range. */
  ghost predicate ValidObservations(observe: nat -> Observation) {
    forall i: nat :: ValidDraws(observe(i))
  }

  /** The record of one symbol, screened with observation `o`. */
  function ScoredOf(keys: ApiKeys, symbol: string, o: Observation): (r: ScoredStock)
    requires ValidDraws(o)
    ensures r.symbol == symbol && 0.8 <= r.score <= 10.1 && 0.0 <= r.sentiment <= 1.0
  {
    FundamentalsScoreBounds(keys, o);
    var m := FundamentalsOf(keys, o);
    ScoredStock(symbol, m.pe.value, m.sentiment.value, m.volumeSurge.value, CalculateScore(m, o.jitter))
  }

  /** The records of `symbols`, in order; the `i`-th symbol is screened with `observe(i)`. */
  function ScoredStocks(keys: ApiKeys, symbols: seq<string>, observe: nat -> Observation): seq<ScoredStock>
    requires ValidObservations(observe)
  {
    if symbols == [] then []
    else
      var n := |symbols| - 1;
      ScoredStocks(keys, symbols[..n], observe) + [ScoredOf(keys, symbols[n], observe(n))]
  }

  /** One record per symbol, for that symbol, with a score in [0.8, 10.1]. */
  lemma {:induction false} ScoredStocksSpec(keys: ApiKeys, symbols: seq<string>, observe: nat -> Observation)
    requires ValidObservations(observe)
    ensures |ScoredStocks(keys, symbols, observe)| == |symbols|
    ensures forall i :: 0 <= i < |symbols| ==>
              ScoredStocks(keys, symbols, observe)[i].symbol == symbols[i]
              && 0.8 <= ScoredStocks(keys, symbols, observe)[i].score <= 10.1
  {
    if symbols != [] {
      var n := |symbols| - 1;
      var init := symbols[..n];
      ScoredStocksSpec(keys, init, observe);
      var prev := ScoredStocks(keys, init, observe);
      var r := ScoredOf(keys, symbols[n], observe(n));
      assert ScoredStocks(keys, symbols, observe) == prev + [r];
      forall i | 0 <= i < |symbols|
        ensures ScoredStocks(keys, symbols, observe)[i].symbol == symbols[i]
                && 0.8 <= ScoredStocks(keys, symbols, observe)[i].score <= 10.1
      {
        if i < n {
          assert ScoredStocks(keys, symbols, observe)[i] == prev[i];
          assert init[i] == symbols[i];
        }
      }
    }
  }

  /** Highest score first. */
  predicate SortedByScore(xs: seq<ScoredStock>) {
    forall i, j :: 0 <= i < j < |xs| ==> xs[i].score >= xs[j].score
  }

  /** Insert `x` into a list sorted by score, before every record that does not score more. */
  function Insert(x: ScoredStock, xs: seq<ScoredStock>): (r: seq<ScoredStock>)
    ensures multiset(r) == multiset(xs) + multiset{x}
  {
    if xs == [] || x.score >= xs[0].score then [x] + xs
    else
      assert xs == [xs[0]] + xs[1..];
      [xs[0]] + Insert(x, xs[1..])
  }

  lemma {:induction false} InsertSorted(x: ScoredStock, xs: seq<ScoredStock>)
    requires SortedByScore(xs)
    ensures SortedByScore(Insert(x, xs))
    ensures Insert(x, xs) != [] && (Insert(x, xs)[0] == x || Insert(x, xs)[0] == xs[0])
  {
    if xs != [] && x.score < xs[0].score {
      InsertSorted(x, xs[1..]);
    }
  }

  /**
   * `list.sort(key=score, reverse=True)` as a value: an insertion sort that
   * keeps records with equal scores in their original order.
   */
  function SortByScore(xs: seq<ScoredStock>): seq<ScoredStock> {
    if xs == [] then [] else Insert(xs[0], SortByScore(xs[1..]))
  }

  /** The sort puts the records in non-increasing score order. */
  lemma {:induction false} SortByScoreSorted(xs: seq<ScoredStock>)
    ensures SortedByScore(SortByScore(xs))
  {
    if xs != [] {
      SortByScoreSorted(xs[1..]);
      InsertSorted(xs[0], SortByScore(xs[1..]));
    }
  }

  /** The sort neither drops nor adds a record. */
  lemma {:induction false} SortByScorePermutes(xs: seq<ScoredStock>)
    ensures multiset(SortByScore(xs)) == multiset(xs)
  {
    if xs != [] {
      SortByScorePermutes(xs[1..]);
      assert SortByScore(xs) == Insert(xs[0], SortByScore(xs[1..]));
      assert multiset(SortByScore(xs)) == multiset(SortByScore(xs[1..])) + multiset{xs[0]};
      assert xs == [xs[0]] + xs[1..];
      assert multiset(xs) == multiset{xs[0]} + multiset(xs[1..]);
    }
  }

  function Min(a: nat, b: nat): nat {
    if a <= b then a else b
  }

  /** `scored_stocks[:20]` after the sort. */
  function Top(xs: seq<ScoredStock>): seq<ScoredStock> {
    var sorted := SortByScore(xs);
    sorted[..Min(TopCount, |sorted|)]
  }

  /** A prefix of a sorted list is sorted and scores at least as much as anything after it. */
  lemma SortedPrefix(sorted: seq<ScoredStock>, k: nat)
    requires SortedByScore(sorted) && k <= |sorted|
    ensures SortedByScore(sorted[..k])
    ensures forall y, x :: y in sorted[k..] && x in sorted[..k] ==> y.score <= x.score
  {
    forall y, x | y in sorted[k..] && x in sorted[..k]
      ensures y.score <= x.score
    {
      var j :| 0 <= j < |sorted[k..]| && sorted[k..][j] == y;
      var i :| 0 <= i < k && sorted[..k][i] == x;
      assert sorted[i] == x && sorted[k + j] == y;
    }
  }

  /** Cutting a list at `k` splits its multiset into the prefix's and the suffix's. */
  lemma CutMultiset(sorted: seq<ScoredStock>, k: nat)
    requires k <= |sorted|
    ensures multiset(sorted[..k]) <= multiset(sorted)
    ensures multiset(sorted) - multiset(sorted[..k]) == multiset(sorted[k..])
  {
    assert sorted == sorted[..k] + sorted[k..];
  }

  /**
   * The top list has `min(20, n)` records, in non-increasing score order,
   * all taken from the scored records; every record left out scores no more
   * than every record kept.
   */
  lemma TopSpec(xs: seq<ScoredStock>)
    ensures |Top(xs)| == Min(TopCount, |xs|)
    ensures SortedByScore(Top(xs))
    ensures multiset(Top(xs)) <= multiset(xs)
    ensures forall y, x :: y in multiset(xs) - multiset(Top(xs)) && x in Top(xs) ==> y.score <= x.score
  {
    var sorted := SortByScore(xs);
    SortByScoreSorted(xs);
    SortByScorePermutes(xs);
    assert |sorted| == |xs| by {
      assert |multiset(sorted)| == |multiset(xs)|;
    }
    var k := Min(TopCount, |sorted|);
    assert Top(xs) == sorted[..k];
    SortedPrefix(sorted, k);
    CutMultiset(sorted, k);
  }

  /** `xs` holds one record per symbol of `symbols`, in order, each with a score in [0.8, 10.1]. */
  predicate Screened(xs: seq<ScoredStock>, symbols: seq<string>) {
    |xs| == |symbols|
    && forall i :: 0 <= i < |xs| ==> xs[i].symbol == symbols[i] && 0.8 <= xs[i].score <= 10.1
  }

  /** The top list of screened records keeps their symbols and score bounds. */
  lemma TopOfScreened(xs: seq<ScoredStock>, symbols: seq<string>)
    requires Screened(xs, symbols)
    ensures symbols != [] ==> 1 <= |Top(xs)| <= TopCount
    ensures forall x :: x in Top(xs) ==> x.symbol in symbols && 0.8 <= x.score <= 10.1
  {
    TopSpec(xs);
    forall x | x in Top(xs)
      ensures x.symbol in symbols && 0.8 <= x.score <= 10.1
    {
      assert x in multiset(Top(xs));
      assert x in multiset(xs);
      var k :| 0 <= k < |xs| && xs[k] == x;
      assert symbols[k] == x.symbol;
    }
  }

  /**
   * Every record of the top list is for one of the screened symbols and
   * scores in [0.8, 10.1]; the list is non-empty when a symbol was screened.
   */
  lemma TopMembers(keys: ApiKeys, symbols: seq<string>, observe: nat -> Observation)
    requires ValidObservations(observe)
    ensures symbols != [] ==> 1 <= |Top(ScoredStocks(keys, symbols, observe))| <= TopCount
    ensures forall x :: x in Top(ScoredStocks(keys, symbols, observe)) ==>
              x.symbol in symbols && 0.8 <= x.score <= 10.1
  {
    ScoredStocksSpec(keys, symbols, observe);
    TopOfScreened(ScoredStocks(keys, symbols, observe), symbols);
  }

  /** The scoring loop of `generate_top_stocks`: fetch and score each symbol in turn. */
  method ScoreAll(keys: ApiKeys, symbols: seq<string>, observe: nat -> Observation)
    returns (scoredStocks: seq<ScoredStock>)
    requires ValidObservations(observe)
    ensures scoredStocks == ScoredStocks(keys, symbols, observe)
  {
    scoredStocks := [];
    for i := 0 to |symbols|
      invariant scoredStocks == ScoredStocks(keys, symbols[..i], observe)
    {
      assert symbols[..i + 1][..i] == symbols[..i];
      var symbol := symbols[i];
      var metrics := FetchFundamentals(keys, observe(i));
      var score := CalculateScore(metrics, observe(i).jitter);
      var stockData := ScoredStock(symbol, metrics.pe.value, metrics.sentiment.value, metrics.volumeSurge.value, score);
      assert stockData == ScoredOf(keys, symbol, observe(i));
      scoredStocks := scoredStocks + [stockData];
    }
    assert symbols[..|symbols|] == symbols;
  }

  /**
   * `generate_top_stocks`: choose the symbols, score each in turn, sort by
   * score (highest first) and keep the first 20; the list is never empty,
   * so `top_20[0]` exists.
   */
  method GenerateTopStocks(keys: ApiKeys, fetched: seq<string>, observe: nat -> Observation)
    returns (top: seq<ScoredStock>)
    requires ValidObservations(observe)
    ensures top == Top(ScoredStocks(keys, Universe(fetched), observe))
    ensures 1 <= |top| <= TopCount
  {
    var allSymbols := fetched;
    if allSymbols == [] {
      allSymbols := FallbackSymbols;
    }
    var scoredStocks := ScoreAll(keys, allSymbols, observe);
    TopMembers(keys, allSymbols, observe);
    scoredStocks := SortByScore(scoredStocks);
    top := scoredStocks[..Min(TopCount, |scoredStocks|)];
  }
}
