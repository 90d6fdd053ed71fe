/**
 * The screener's per-symbol metrics: the LLM sentiment with its clamp and
 * fallbacks (`get_sentiment_score`), the Finnhub helper with retries
 * (`fetch_finnhub_data`), the P/E "value or fallback" rule (`get_pe_ratio`),
 * the 10-K/10-Q count (`get_sec_filing_count`) and `fetch_fundamentals`.
 *
 * Replies are parameters: `replies(k)` is attempt `k` (from 0), `None` when it
 * raised an exception the loop catches. Random draws are parameters within
 * the range `random.uniform` gives them.
 */
module StockMetrics {
  import opened Optional
  import opened Text
  import opened Retry
  import opened Scoring

  /** Tries of the LLM request and of each Finnhub request. */
  const LlmAttempts: nat := 3
  const FinnhubAttempts: nat := 3

  // ---------------------------------------------------------------------
  // Sentiment
  // ---------------------------------------------------------------------

  /** `max(0.0, min(1.0, x))` */
  function Clamp01(x: real): (r: real)
    ensures 0.0 <= r <= 1.0
    ensures 0.0 <= x <= 1.0 ==> r == x
    ensures x < 0.0 ==> r == 0.0
    ensures x > 1.0 ==> r == 1.0
  {
    var upper := if 1.0 < x then 1.0 else x;
    if 0.0 > upper then 0.0 else upper
  }

  /** The JSON object the LLM answered with: its `sentiment_score`, if present. */
  datatype LlmAnswer = LlmAnswer(sentimentScore: Option<real>)

  /** The random draws of `get_sentiment_score`: `uniform(0.4, 0.95)` without a key, `uniform(0.4, 0.6)` after failures. */
  predicate SentimentDrawsValid(mock: real, fallback: real) {
    0.4 <= mock <= 0.95 && 0.4 <= fallback <= 0.6
  }

  /**
   * The sentiment of a symbol: always in [0, 1]; a mock value in [0.4, 0.95]
   * without an API key; a neutral value in [0.4, 0.6] when all three
   * attempts fail; otherwise the score of the first attempt that answered,
   * clamped to [0, 1], with 0.5 for an answer without a score.
   */
  function Sentiment(hasKey: bool, replies: nat -> Option<LlmAnswer>, mock: real, fallback: real): (s: real)
    requires SentimentDrawsValid(mock, fallback)
    ensures 0.0 <= s <= 1.0
    ensures !hasKey ==> 0.4 <= s <= 0.95
    ensures hasKey && (forall k :: 0 <= k < LlmAttempts ==> replies(k).None?) ==> 0.4 <= s <= 0.6
    ensures forall k :: 0 <= k < LlmAttempts && hasKey && replies(k).Some?
                        && (forall j :: 0 <= j < k ==> replies(j).None?)
                        ==> s == Clamp01(replies(k).value.sentimentScore.GetOr(0.5))
  {
    if !hasKey then mock
    else
      match FirstSuccess(replies, LlmAttempts)
      case None => fallback
      case Some(answer) => Clamp01(answer.sentimentScore.GetOr(0.5))
  }

  /** `get_sentiment_score`: up to three tries; the first answer decides. */
  method GetSentimentScore(hasKey: bool, replies: nat -> Option<LlmAnswer>, mock: real, fallback: real)
    returns (score: real)
    requires SentimentDrawsValid(mock, fallback)
    ensures score == Sentiment(hasKey, replies, mock, fallback)
  {
    if !hasKey {
      return mock;
    }
    for attempt := 0 to LlmAttempts
      invariant FirstSuccessFrom(replies, attempt, LlmAttempts) == FirstSuccess(replies, LlmAttempts)
    {
      var reply := replies(attempt);
      if reply.Some? {
        var raw := reply.value.sentimentScore.GetOr(0.5);
        return Clamp01(raw);
      }
    }
    return fallback;
  }

  // ---------------------------------------------------------------------
  // Finnhub
  // ---------------------------------------------------------------------

  /**
   * What `fetch_finnhub_data` returns: `empty` (the `{}` of the source)
   * without an API key or when all three attempts fail, otherwise the first
   * answer.
   */
  function FinnhubResult<T>(hasKey: bool, replies: nat -> Option<T>, empty: T): (data: T)
    ensures !hasKey ==> data == empty
    ensures hasKey && (forall k :: 0 <= k < FinnhubAttempts ==> replies(k).None?) ==> data == empty
    ensures forall k :: 0 <= k < FinnhubAttempts && hasKey && replies(k).Some?
                        && (forall j :: 0 <= j < k ==> replies(j).None?)
                        ==> data == replies(k).value
    ensures data != empty ==> hasKey && exists k :: 0 <= k < FinnhubAttempts && replies(k) == Some(data)
  {
    if !hasKey then empty else FirstSuccess(replies, FinnhubAttempts).GetOr(empty)
  }

  /** `fetch_finnhub_data`: up to three tries, returning the first answer. */
  method FetchFinnhubData<T>(hasKey: bool, replies: nat -> Option<T>, empty: T) returns (data: T)
    ensures data == FinnhubResult(hasKey, replies, empty)
  {
    if !hasKey {
      return empty;
    }
    var attempt := 0;
    while attempt < FinnhubAttempts
      invariant attempt <= FinnhubAttempts
      invariant FirstSuccessFrom(replies, attempt, FinnhubAttempts) == FirstSuccess(replies, FinnhubAttempts)
    {
      var response := replies(attempt);
      if response.Some? {
        return response.value;
      }
      attempt := attempt + 1;
    }
    return empty;
  }

  /** A decoded JSON value, as far as the P/E rule looks at it; `JOther` is a string, list or object. */
  datatype Json = JNull | JBool(b: bool) | JInt(i: int) | JFloat(x: real) | JOther

  /** `isinstance(j, (int, float))` and the number; a `bool` is an `int` in Python. */
  function NumberOf(j: Json): Option<real> {
    match j
    case JBool(b) => Some(if b then 1.0 else 0.0)
    case JInt(i) => Some(i as real)
    case JFloat(x) => Some(x)
    case _ => None
  }

  /** `pe_ratio and isinstance(pe_ratio, (int, float))`: a number that is not zero. */
  predicate UsablePe(peTTM: Option<Json>) {
    peTTM.Some? && NumberOf(peTTM.value).Some? && NumberOf(peTTM.value).value != 0.0
  }

  /** The metric response, reduced to `data.get('metric', {}).get('peTTM')`. */
  datatype MetricData = MetricData(peTTM: Option<Json>)

  const NoMetric: MetricData := MetricData(None)

  /** The fallback draw `round(uniform(15.0, 80.0), 1)`. */
  predicate PeDrawValid(fallback: real) {
    15.0 <= fallback <= 80.0
  }

  /**
   * The P/E of `get_pe_ratio`: the reported value when it is a non-zero
   * number, the fallback in [15, 80] otherwise; so never 0.
   */
  function PeRatio(peTTM: Option<Json>, fallback: real): (pe: real)
    requires PeDrawValid(fallback)
    ensures pe != 0.0
    ensures UsablePe(peTTM) ==> pe == NumberOf(peTTM.value).value
    ensures !UsablePe(peTTM) ==> pe == fallback && 15.0 <= pe <= 80.0
  {
    if UsablePe(peTTM) then NumberOf(peTTM.value).value else fallback
  }

  /** What the P/E rule does with values the API might send. */
  lemma PeRatioExamples(fallback: real)
    requires PeDrawValid(fallback)
    ensures PeRatio(None, fallback) == fallback
    ensures PeRatio(Some(JNull), fallback) == fallback
    ensures PeRatio(Some(JInt(0)), fallback) == fallback
    ensures PeRatio(Some(JFloat(0.0)), fallback) == fallback
    ensures PeRatio(Some(JOther), fallback) == fallback
    ensures PeRatio(Some(JBool(true)), fallback) == 1.0
    ensures PeRatio(Some(JFloat(-3.5)), fallback) == -3.5
    ensures PeRatio(Some(JInt(25)), fallback) == 25.0
  {
  }

  /** `get_pe_ratio` */
  method GetPeRatio(hasKey: bool, replies: nat -> Option<MetricData>, fallback: real) returns (pe: real)
    requires PeDrawValid(fallback)
    ensures pe == PeRatio(FinnhubResult(hasKey, replies, NoMetric).peTTM, fallback)
  {
    var data := FetchFinnhubData(hasKey, replies, NoMetric);
    var peRatio := data.peTTM;
    if peRatio.Some? && NumberOf(peRatio.value).Some? && NumberOf(peRatio.value).value != 0.0 {
      return NumberOf(peRatio.value).value;
    }
    return fallback;
  }

  // ---------------------------------------------------------------------
  // SEC filings
  // ---------------------------------------------------------------------

  /** One filing; `form` is `None` when the key is missing. */
  datatype Filing = Filing(form: Option<string>)

  /** The filings response, reduced to `data.get('filings')`. */
  datatype FilingsData = FilingsData(filings: Option<seq<Filing>>)

  const NoFilings: FilingsData := FilingsData(None)

  /** `f.get('form', '').upper() in ['10-K', '10-Q']` */
  predicate IsReport(f: Filing) {
    Upper(f.form.GetOr("")) in ["10-K", "10-Q"]
  }

  /** The number of 10-K and 10-Q filings. */
  function CountReports(filings: seq<Filing>): (n: nat)
    ensures n <= |filings|
  {
    if filings == [] then 0
    else (if IsReport(filings[0]) then 1 else 0) + CountReports(filings[1..])
  }

  /** The count is 0 exactly when no filing qualifies, and all of them exactly when all qualify. */
  lemma {:induction false} CountReportsSpec(filings: seq<Filing>)
    ensures CountReports(filings) == 0 <==> forall i :: 0 <= i < |filings| ==> !IsReport(filings[i])
    ensures CountReports(filings) == |filings| <==> forall i :: 0 <= i < |filings| ==> IsReport(filings[i])
  {
    if filings != [] {
      var rest := filings[1..];
      CountReportsSpec(rest);
      forall i | 1 <= i < |filings|
        ensures filings[i] == rest[i - 1]
      {
      }
    }
  }

  /** Counting works piece by piece. */
  lemma {:induction false} CountReportsAppend(a: seq<Filing>, b: seq<Filing>)
    ensures CountReports(a + b) == CountReports(a) + CountReports(b)
  {
    if a != [] {
      CountReportsAppend(a[1..], b);
      assert (a + b)[0] == a[0];
      assert (a + b)[1..] == a[1..] + b;
    } else {
      assert a + b == b;
    }
  }

  /** Upper-casing makes the test case-blind: "10-K" and "10-q" both count. */
  lemma IsReportCaseBlind()
    ensures IsReport(Filing(Some("10-K"))) && IsReport(Filing(Some("10-q")))
  {
    assert Upper("10-K") == "10-K";
    assert Upper("10-q") == "10-Q";
  }

  /** Other forms, amendments and a missing form do not count. */
  lemma IsReportOthers()
    ensures !IsReport(Filing(Some("8-K"))) && !IsReport(Filing(Some("10-K/A"))) && !IsReport(Filing(None))
  {
    assert Upper("8-K") == "8-K";
    assert Upper("10-K/A") == "10-K/A";
  }

  /** The count of `get_sec_filing_count`; no `filings` key counts as an empty list. */
  function FilingCount(data: FilingsData): (n: nat)
    ensures data.filings.None? ==> n == 0
    ensures data.filings.Some? ==> n <= |data.filings.value|
  {
    CountReports(data.filings.GetOr([]))
  }

  /** `get_sec_filing_count` */
  method GetSecFilingCount(hasKey: bool, replies: nat -> Option<FilingsData>) returns (count: nat)
    ensures count == FilingCount(FinnhubResult(hasKey, replies, NoFilings))
  {
    var data := FetchFinnhubData(hasKey, replies, NoFilings);
    var filings := data.filings.GetOr([]);
    count := CountReports(filings);
  }

  // ---------------------------------------------------------------------
  // Fundamentals
  // ---------------------------------------------------------------------

  /** Which API keys are configured. */
  datatype ApiKeys = ApiKeys(groq: bool, finnhub: bool)

  /**
   * Everything the outside world supplies while one symbol is screened: the
   * replies to each request and the random draws.
   */
  datatype Observation = Observation(
    llm: nat -> Option<LlmAnswer>,
    metric: nat -> Option<MetricData>,
    filings: nat -> Option<FilingsData>,
    mockSentiment: real,
    fallbackSentiment: real,
    fallbackPe: real,
    volumeSurge: real,
    jitter: real)

  /** The draws lie where `random.uniform` puts them (the volume surge is `uniform(1.0, 5.0)`). */
  predicate ValidDraws(o: Observation) {
    SentimentDrawsValid(o.mockSentiment, o.fallbackSentiment) && PeDrawValid(o.fallbackPe)
    && 1.0 <= o.volumeSurge <= 5.0 && -MaxJitter <= o.jitter <= MaxJitter
  }

  /**
   * The metrics of `fetch_fundamentals`: every key present, the sentiment in
   * [0, 1], a non-zero P/E, a surge in [1, 5] and a count of filings.
   */
  function FundamentalsOf(keys: ApiKeys, o: Observation): (m: Metrics)
    requires ValidDraws(o)
    ensures m.pe.Some? && m.sentiment.Some? && m.volumeSurge.Some? && m.secFilingsCount.Some?
    ensures m.pe.value != 0.0 && 0.0 <= m.sentiment.value <= 1.0
    ensures 1.0 <= m.volumeSurge.value <= 5.0 && m.secFilingsCount.value >= 0
    ensures Plausible(m)
  {
    Metrics(Some(PeRatio(FinnhubResult(keys.finnhub, o.metric, NoMetric).peTTM, o.fallbackPe)),
            Some(Sentiment(keys.groq, o.llm, o.mockSentiment, o.fallbackSentiment)),
            Some(o.volumeSurge),
            Some(FilingCount(FinnhubResult(keys.finnhub, o.filings, NoFilings)) as int))
  }

  /** `fetch_fundamentals`: sentiment, then P/E, then the filing count, then the mock surge. */
  method FetchFundamentals(keys: ApiKeys, o: Observation) returns (m: Metrics)
    requires ValidDraws(o)
    ensures m == FundamentalsOf(keys, o)
  {
    var sentiment := GetSentimentScore(keys.groq, o.llm, o.mockSentiment, o.fallbackSentiment);
    var pe := GetPeRatio(keys.finnhub, o.metric, o.fallbackPe);
    var secFilingsCount := GetSecFilingCount(keys.finnhub, o.filings);
    m := Metrics(Some(pe), Some(sentiment), Some(o.volumeSurge), Some(secFilingsCount as int));
  }

  /** A screened symbol's score lies in [0.8, 10.1]: the surge of at least 1 adds at least 0.4. */
  lemma FundamentalsScoreBounds(keys: ApiKeys, o: Observation)
    requires ValidDraws(o)
    ensures 0.8 <= CalculateScore(FundamentalsOf(keys, o), o.jitter) <= 10.1
  {
    var m := FundamentalsOf(keys, o);
    assert VolumeScore(m.volumeSurge.value) >= 0.4;
    assert SentimentScore(m.sentiment.value) >= 0.0;
    assert FilingScore(m.secFilingsCount.value) >= 0.0;
  }
}
