/**
 * `calculate_score` of the screener: a piecewise P/E sub-score plus a
 * sentiment, a volume-surge and an SEC-filing sub-score, plus a small random
 * jitter. Values are `real`s; the jitter is a parameter within its range and
 * the final rounding to three decimals is not modelled.
 */
module Scoring {
  import opened Optional

  /**
   * The metrics dict `calculate_score` reads; a missing key is `None`
   * and takes the default of `data.get`.
   */
  datatype Metrics = Metrics(pe: Option<real>, sentiment: Option<real>,
                             volumeSurge: Option<real>, secFilingsCount: Option<int>)

  const DefaultPe: real := 0.0
  const DefaultSentiment: real := 0.5
  const DefaultVolumeSurge: real := 1.0
  const DefaultFilingCount: int := 0

  /** Largest jitter added for ranking variety, in either direction. */
  const MaxJitter: real := 0.1

  /** The P/E sub-score: 4.0 for (10, 30], 3.0 for (30, 50], 1.5 for (50, 70], 0.5 otherwise. */
  function PeScore(pe: real): (s: real)
    ensures 0.5 <= s <= 4.0
    ensures s == 4.0 <==> 10.0 < pe <= 30.0
    ensures s == 3.0 <==> 30.0 < pe <= 50.0
    ensures s == 1.5 <==> 50.0 < pe <= 70.0
    ensures s == 0.5 <==> pe <= 10.0 || 70.0 < pe
  {
    if 10.0 < pe <= 30.0 then 4.0
    else if 30.0 < pe <= 50.0 then 3.0
    else if 50.0 < pe <= 70.0 then 1.5
    else 0.5
  }

  /** The bucket edges belong to the lower bucket; a missing P/E (default 0) scores 0.5. */
  lemma PeScoreEdges()
    ensures PeScore(10.0) == 0.5 && PeScore(30.0) == 4.0 && PeScore(50.0) == 3.0 && PeScore(70.0) == 1.5
    ensures PeScore(70.1) == 0.5 && PeScore(DefaultPe) == 0.5
  {
  }

  /** Above 10, a lower P/E never scores less than a higher one. */
  lemma PeScoreAntitone(a: real, b: real)
    requires 10.0 < a <= b
    ensures PeScore(a) >= PeScore(b)
  {
  }

  /** The sentiment sub-score: three times the sentiment, so in [0, 3] for a sentiment in [0, 1]. */
  function SentimentScore(sentiment: real): (s: real)
    ensures 0.0 <= sentiment <= 1.0 ==> 0.0 <= s <= 3.0
    ensures s == 3.0 <==> sentiment == 1.0
  {
    sentiment * 3.0
  }

  /** The volume sub-score `min(v / 2.5, 2.0)`: capped at 2.0, reached exactly from a surge of 5. */
  function VolumeScore(v: real): (s: real)
    ensures s <= 2.0
    ensures s == 2.0 <==> v >= 5.0
    ensures v < 5.0 ==> s * 2.5 == v
    ensures v >= 0.0 ==> s >= 0.0
  {
    if v / 2.5 < 2.0 then v / 2.5 else 2.0
  }

  /** The filing sub-score `min(0.25 * count, 1.0)`: capped at 1.0, reached exactly from four filings. */
  function FilingScore(count: int): (s: real)
    ensures s <= 1.0
    ensures s == 1.0 <==> count >= 4
    ensures count < 4 ==> s * 4.0 == count as real
    ensures count >= 0 ==> s >= 0.0
  {
    if count as real * 0.25 < 1.0 then count as real * 0.25 else 1.0
  }

  /** The sum of the four sub-scores, with the defaults of `data.get` for missing keys. */
  function Composite(m: Metrics): real {
    PeScore(m.pe.GetOr(DefaultPe)) + SentimentScore(m.sentiment.GetOr(DefaultSentiment))
    + VolumeScore(m.volumeSurge.GetOr(DefaultVolumeSurge)) + FilingScore(m.secFilingsCount.GetOr(DefaultFilingCount))
  }

  /** Metrics as the screener produces them: sentiment in [0, 1], no negative surge or count. */
  predicate Plausible(m: Metrics) {
    (m.sentiment.Some? ==> 0.0 <= m.sentiment.value <= 1.0)
    && (m.volumeSurge.Some? ==> m.volumeSurge.value >= 0.0)
    && (m.secFilingsCount.Some? ==> m.secFilingsCount.value >= 0)
  }

  /** For plausible metrics the composite lies in [0.5, 10.0]. */
  lemma CompositeBounds(m: Metrics)
    ensures Plausible(m) ==> 0.5 <= Composite(m) <= 10.0
  {
    if Plausible(m) {
      var sentiment := m.sentiment.GetOr(DefaultSentiment);
      assert 0.0 <= SentimentScore(sentiment) <= 3.0;
    }
  }

  /** An empty dict scores 0.5 + 1.5 + 0.4 + 0 = 2.4 before jitter. */
  lemma CompositeOfEmpty()
    ensures Composite(Metrics(None, None, None, None)) == 2.4
  {
    assert VolumeScore(DefaultVolumeSurge) == 0.4;
  }

  /**
   * Better news, a larger surge or more filings never lower the composite
   * when the P/E is the same.
   */
  lemma CompositeMonotone(m1: Metrics, m2: Metrics)
    requires m1.pe.GetOr(DefaultPe) == m2.pe.GetOr(DefaultPe)
    requires m1.sentiment.GetOr(DefaultSentiment) <= m2.sentiment.GetOr(DefaultSentiment)
    requires m1.volumeSurge.GetOr(DefaultVolumeSurge) <= m2.volumeSurge.GetOr(DefaultVolumeSurge)
    requires m1.secFilingsCount.GetOr(DefaultFilingCount) <= m2.secFilingsCount.GetOr(DefaultFilingCount)
    ensures Composite(m1) <= Composite(m2)
  {
  }

  /**
   * `calculate_score` with its random draw passed in: the composite moved
   * by at most 0.1 either way, so within [0.4, 10.1] for plausible metrics.
   */
  function CalculateScore(m: Metrics, jitter: real): (score: real)
    requires -MaxJitter <= jitter <= MaxJitter
    ensures Composite(m) - MaxJitter <= score <= Composite(m) + MaxJitter
    ensures Plausible(m) ==> 0.4 <= score <= 10.1
  {
    CompositeBounds(m);
    Composite(m) + jitter
  }
}
