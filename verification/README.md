# market-data-pipeline core, modelled in Dafny

This project models the two batch jobs of the market data pipeline. The network, the databases and the random number generator become parameters or logged calls.

**Symbol importer** (`scripts/import_symbols.py`). It fetches ticker lists from several categories of public sources: the exchange symbol directories plus community mirrors, OTC, the Russell indexes, the S&P 1500 and the Dow. Each category has its own fallback URLs. The importer:
- parses pipe-delimited symbol directories and CSV files;
- records the categories that gave nothing;
- trims, upper-cases and deduplicates the collected symbols, and drops over-long and fund/ETF-looking ones;
- upserts the result into the `symbols` table in batches of 500.

**Screener** (`scripts/run_screener.py`). For each candidate symbol it gathers:
- an LLM sentiment score, clamped to [0, 1], with mock and neutral fallbacks;
- a P/E ratio, either the reported one or a fallback draw;
- the number of recent 10-K/10-Q filings;
- a mock volume surge.

It combines these into a weighted score, sorts the records by score, keeps the top 20, and replaces the Firestore `topStocks` collection with them.

Layout, one module per file:

| file | module | models |
|---|---|---|
| `optional.dfy` | `Optional` | `Option` |
| `text.dfy` | `Text` | the Python `str` operations used: `upper`, `strip`, `split`, `splitlines`, `startswith`, substring `in`, `list.index` |
| `retry.dfy` | `Retry` | the "try up to N times, keep the first success" loops |
| `symbol_parsing.dfy` | `SymbolParsing` | `parse_nasdaq_txt`, `parse_csv_symbols` |
| `symbol_fetch.dfy` | `SymbolFetch` | `safe_get_text`, `fetch_first_working`, the `fetch_*` category functions |
| `symbol_filter.dfy` | `SymbolFilter` | `looks_like_etf`, the dedupe/filter loop of `main` |
| `symbol_upsert.dfy` | `SymbolUpsert` | `upsert_symbols_batch` against a log of upsert calls |
| `symbol_import.dfy` | `SymbolImport` | the `failed_sources`/`collected` logic and the successful run of `main` |
| `scoring.dfy` | `Scoring` | `calculate_score` |
| `stock_metrics.dfy` | `StockMetrics` | `get_sentiment_score`, `fetch_finnhub_data`, `get_pe_ratio`, `get_sec_filing_count`, `fetch_fundamentals` |
| `ranking.dfy` | `Ranking` | `generate_top_stocks` |
| `publishing.dfy` | `Publishing` | `update_firestore` and the screener's entry point |

**How the loops are modelled.** Each loop of the source is a `method` with that loop, proved equal to a specification function. The properties are lemmas about that function.

**How I/O is modelled.**
- The network is a function from URL and attempt number to `Option<text>`. `None` is a request that raised.
- The LLM and Finnhub replies are functions from attempt number to a reply.
- The `symbols` table client (`SymbolStore`) is a class that records every batch it receives.
- The Firestore collection (`DocumentCollection`) is a class whose state is a `map` from document id to record.
- Random draws are parameters that lie in the range `random.uniform` gives them.

**Behaviour worth knowing.**
- `main` tests for an empty string *before* it strips. So a whitespace-only collected string becomes `""` in the clean list and is counted in `filtered_count`, but `upsert_symbols_batch` never writes it. `PersistedRows` states what is written with this in place.
- `fetch_exchanges_all` reads the community mirrors every time, not only when the symbol directories fail, despite the comment above its mirror loop. The repeats are removed by the dedupe.
- A negative `peTTM` passes the P/E rule unchanged, and `True` counts as the number 1.
- The published record has no `secFilingsCount` field.
- Every symbol is scored; nothing stops the loop early.
- The LLM is called even when no headlines were found.
- The keyword test is a plain substring test, so "IND" is not caught (`LooksLikeEtfShortIndex`).
- `csv.DictReader` pads a row shorter than the header with `None`, after zipping, so a repeated header name past the row's end hides the earlier field (`RepeatedHeaderPadded`).

## Model

| member | source | states |
|---|---|---|
| Text.Upper | scripts/import_symbols.py:158-159 | `s.upper()` keeps the length and upper-cases every character |
| Text.UpperIdempotent | scripts/import_symbols.py:158-159 | an upper-cased string is its own upper-case, so emitted symbols are upper-case |
| Text.TrimStart | scripts/import_symbols.py:157 | dropping leading whitespace leaves a suffix with no leading space |
| Text.TrimEnd | scripts/import_symbols.py:157 | dropping trailing whitespace leaves a prefix with no trailing space |
| Text.Strip | scripts/import_symbols.py:157 | `strip()` leaves no whitespace at either end, and is empty exactly when the input is all whitespace |
| Text.IndexOf | scripts/import_symbols.py:149 | `header.index(c)` is the position of the first occurrence |
| Text.Split | scripts/import_symbols.py:155 | `split("\|")` always gives at least one part |
| Text.SplitParts | scripts/import_symbols.py:155 | no part of a split holds the separator |
| Text.JoinSplit | scripts/import_symbols.py:155 | joining the parts of a split gives the line back, so nothing is lost |
| Text.LineEnd | scripts/import_symbols.py:141 | the first line boundary, and no boundary before it |
| Text.SplitLines | scripts/import_symbols.py:141 | `splitlines()` is empty exactly for empty text and has no more lines than characters |
| Text.SplitLinesNoBreaks | scripts/import_symbols.py:141 | no line holds a line boundary character |
| Text.SplitLinesConcat | scripts/import_symbols.py:141 | the lines put together are the text with its boundary characters removed, so only the boundaries are lost |
| Text.SplitLinesCount | scripts/import_symbols.py:141 | there is one line per boundary ("\r\n" counting once), plus one when the text does not end in a boundary |
| Text.StartsWith | scripts/import_symbols.py:153 | `s.startswith(p)`: `p` is a prefix of `s` (used by `SkippedLine`) |
| Text.Contains | scripts/import_symbols.py:226 | Python's substring test `k in s`, scanning from the left (see `ContainsOccurs`) |
| Text.ContainsOccurs | scripts/import_symbols.py:226 | the substring test `k in s` holds exactly when `k` occurs at some position of `s` |
| Retry.FirstSuccess | scripts/import_symbols.py:123-135 | what a retry loop of N attempts returns: the first successful reply, if any (see `FirstSuccessFrom`) |
| Retry.FirstSuccessFrom | scripts/import_symbols.py:123-135 | a retry loop gives nothing exactly when every attempt failed, otherwise the first successful attempt's value |
| SymbolParsing.SymbolColumn | scripts/import_symbols.py:146-150 | the symbol column is the index of the first candidate header present, or 0 when none is |
| SymbolParsing.SkippedLine | scripts/import_symbols.py:153 | a data line that is empty or starts with "File Creation" or "NASDAQ" is skipped (see `LineSymbol`) |
| SymbolParsing.LineSymbol | scripts/import_symbols.py:153-159 | a skipped line gives nothing; an emitted ticker is non-empty, upper-case and not "SYMBOL" |
| SymbolParsing.LinesSymbols | scripts/import_symbols.py:151-159 | the tickers of the data lines, in order, at most one per line (see `LinesSymbolsSound`, `ReadTickers`) |
| SymbolParsing.NasdaqSymbols | scripts/import_symbols.py:140-160 | the result of `parse_nasdaq_txt`: nothing for empty text, else the tickers of the lines after the header, read from the symbol column (see `NasdaqSymbolsSound`, `ParseNasdaqTxt`) |
| SymbolParsing.LinesSymbolsSound | scripts/import_symbols.py:151-159 | at most one ticker per data line, each usable and taken from one of the lines |
| SymbolParsing.NasdaqSymbolsSound | scripts/import_symbols.py:140-160 | output length ≤ lines − 1; every output is usable and comes from a line other than the header |
| SymbolParsing.FindSymbolColumn | scripts/import_symbols.py:146-150 | the header scan with its `break` finds the specified ticker column |
| SymbolParsing.ReadTickers | scripts/import_symbols.py:151-159 | the data-line loop with its `continue` keeps exactly the usable tickers, in order |
| SymbolParsing.ParseNasdaqTxt | scripts/import_symbols.py:140-160 | the parser computes the directory specification; no text, no symbols |
| SymbolParsing.Fields | scripts/import_symbols.py:165 | the fields of a CSV line: none for an empty line, else the comma-separated parts (see `FieldsOfLine`) |
| SymbolParsing.FieldsOfLine | scripts/import_symbols.py:165 | a line has no fields iff it is empty; otherwise its fields, rejoined by commas, are the line, and none holds a comma |
| SymbolParsing.ZipRow | scripts/import_symbols.py:165 | the header positions in order, each given its field or the `restval` padding (see `ZipRowKeys`, `ZipRowValues`) |
| SymbolParsing.ZipRowKeys | scripts/import_symbols.py:165 | the keys are exactly the header names among the first n positions |
| SymbolParsing.ZipRowValues | scripts/import_symbols.py:165 | a name holds the field at its last position among the first n, or "" past the row's end |
| SymbolParsing.RowOf | scripts/import_symbols.py:165 | the dict row of one line under the header (see `RowOfSpec`) |
| SymbolParsing.RowOfSpec | scripts/import_symbols.py:165 | the keys are exactly the header names; each name holds the field at its last header position, or "" (standing for the `None` padding) when the row is shorter |
| SymbolParsing.RepeatedHeaderPadded | scripts/import_symbols.py:165-169 | header "Symbol,Name,Symbol" over the row "AAPL,Apple" gives no symbol: the padding overwrites the first Symbol field |
| SymbolParsing.DataRows | scripts/import_symbols.py:165-166 | the rows the reader yields after the header, skipping lines with no fields (see `DataRowsSpec`) |
| SymbolParsing.DataRowsSpec | scripts/import_symbols.py:165-166 | one row per non-empty line, in order, each that line's fields under the header; never more rows than lines |
| SymbolParsing.CsvRows | scripts/import_symbols.py:165 | `csv.DictReader(text.splitlines())`: the first line is the header (see `CsvRowsSpec`) |
| SymbolParsing.CsvRowsSpec | scripts/import_symbols.py:165 | empty text has no rows; otherwise the first line is the header and the rows are the later non-empty lines, one each and in order, read under it, so there are fewer rows than lines |
| SymbolParsing.RowSymbol | scripts/import_symbols.py:167-170 | what one row contributes: the stripped, upper-cased value of its first candidate column with a value (see `RowSymbolNone`, `RowSymbolFirst`) |
| SymbolParsing.RowsSymbols | scripts/import_symbols.py:166-170 | the symbols of the rows, in order, at most one per row (see `RowsSymbolsSound`, `ParseCsvSymbols`) |
| SymbolParsing.CsvSymbols | scripts/import_symbols.py:162-173 | the result of `parse_csv_symbols`: the symbols of the rows `csv.DictReader` yields (computed by `ParseCsvSymbols`) |
| SymbolParsing.RowSymbolNone | scripts/import_symbols.py:168-171 | a row gives nothing iff no candidate column has a non-empty value |
| SymbolParsing.RowSymbolFirst | scripts/import_symbols.py:168-171 | a row that gives a symbol gives the stripped, upper-cased value of its first candidate column with a value, in candidate order |
| SymbolParsing.RowsSymbolsSound | scripts/import_symbols.py:162-173 | at most one symbol per CSV row, each the pick of some row |
| SymbolParsing.ParseCsvSymbols | scripts/import_symbols.py:162-173 | the row loop with its inner candidate loop and `break` computes the CSV specification |
| SymbolFetch.CsvParser | scripts/import_symbols.py:200-216 | the `lambda t: parse_csv_symbols(t, columns)` parsers, which never raise (used by `FetchOtcAll`, `FetchSpGroup`, `FetchDjiaAll`, `FetchRussellGroup`) |
| SymbolFetch.SafeGetText | scripts/import_symbols.py:123-135 | the text of the first of three attempts that did not raise, or nothing |
| SymbolFetch.UrlResult | scripts/import_symbols.py:179-185 | a URL's parsed list when it answered with non-empty text and the parser did not raise; nothing otherwise (see `FirstWorkingSpec`) |
| SymbolFetch.FirstWorking | scripts/import_symbols.py:178-186 | the list of the first URL with a result, or `[]` (see `FirstWorkingSpec`) |
| SymbolFetch.FirstWorkingSpec | scripts/import_symbols.py:178-186 | the parser result of the first URL that answers and parses, even when that result is empty; `[]` when every URL fails |
| SymbolFetch.FetchFirstWorking | scripts/import_symbols.py:178-186 | the early-return loop over URLs computes the first-working specification |
| SymbolFetch.MirrorSymbols | scripts/import_symbols.py:193-196 | the CSV symbols of every mirror that answered with text, in mirror order (computed by `FetchMirrors`) |
| SymbolFetch.FetchMirrors | scripts/import_symbols.py:193-196 | every mirror that answered with text adds its CSV symbols, in mirror order |
| SymbolFetch.ExchangesSymbols | scripts/import_symbols.py:188-197 | the result of `fetch_exchanges_all`: both directories, then every mirror that answered (computed by `FetchExchangesAll`) |
| SymbolFetch.OtcSymbols | scripts/import_symbols.py:199-200 | the result of `fetch_otc_all` (computed by `FetchOtcAll`) |
| SymbolFetch.SpSymbols | scripts/import_symbols.py:202-207 | the result of `fetch_sp_group`: the S&P 500, 400 and 600 lists in order (computed by `FetchSpGroup`) |
| SymbolFetch.DjiaSymbols | scripts/import_symbols.py:209-210 | the result of `fetch_djia_all` (computed by `FetchDjiaAll`) |
| SymbolFetch.RussellSymbols | scripts/import_symbols.py:212-217 | the result of `fetch_russell_group`: the Russell 1000, 2000 and 3000 lists in order (computed by `FetchRussellGroup`) |
| SymbolFetch.FetchExchangesAll | scripts/import_symbols.py:188-197 | primary directory, then other-listed directory, then all mirrors, concatenated |
| SymbolFetch.FetchOtcAll | scripts/import_symbols.py:199-200 | the first working OTC source, read with its candidate columns |
| SymbolFetch.FetchSpGroup | scripts/import_symbols.py:202-207 | the S&P 500, 400 and 600 results, concatenated in that order |
| SymbolFetch.FetchDjiaAll | scripts/import_symbols.py:209-210 | the first working Dow source |
| SymbolFetch.FetchRussellGroup | scripts/import_symbols.py:212-217 | the Russell 1000, 2000 and 3000 results, concatenated in that order |
| SymbolFilter.AnyKeyword | scripts/import_symbols.py:226 | `any(k in s for k in keywords)` holds iff some keyword is a substring |
| SymbolFilter.LooksLikeEtf | scripts/import_symbols.py:222-228 | true iff the symbol is non-empty and one of the six keywords occurs in its upper-cased form |
| SymbolFilter.LooksLikeEtfLowerCase | scripts/import_symbols.py:222-228 | the test is case-blind: "spy etf" is caught |
| SymbolFilter.LooksLikeEtfShortIndex | scripts/import_symbols.py:51 | "IND" is not caught by the keyword "INDEX" |
| SymbolFilter.Normalize | scripts/import_symbols.py:368 | `s.strip().upper()` (see `CleanSound`) |
| SymbolFilter.Accepted | scripts/import_symbols.py:366-374 | a collected string passes the loop's tests: non-empty, at most 12 characters once normalised, not ETF-looking (see `CleanFromAccepted`, `CleanComplete`) |
| SymbolFilter.Clean | scripts/import_symbols.py:363-376 | the clean list built from the collected strings (see `CleanSound`, `CleanNoDuplicates`, `CleanComplete`, `CleanExtends`) |
| SymbolFilter.CleanFromAccepted | scripts/import_symbols.py:365-376 | every clean symbol is the normalised form of an accepted collected string; the clean list is no longer than the collected one |
| SymbolFilter.CleanSound | scripts/import_symbols.py:359-378 | every clean symbol is `strip().upper()` of a non-empty collected string, ≤ 12 characters, upper-case, not ETF-looking; `filtered_count ≤ raw_count` |
| SymbolFilter.CleanNoDuplicates | scripts/import_symbols.py:371-376 | the clean list never holds a symbol twice |
| SymbolFilter.CleanComplete | scripts/import_symbols.py:365-376 | every accepted collected string has its normalised form in the clean list |
| SymbolFilter.CleanExtends | scripts/import_symbols.py:365-376 | first occurrence wins and order is kept: more input only appends |
| SymbolFilter.CleanSymbols | scripts/import_symbols.py:363-376 | the loop with its `seen` set and `continue`s computes the clean-list specification |
| SymbolUpsert.SymbolStore.Upsert | scripts/import_symbols.py:237 | one upsert call appends its batch to the log |
| SymbolUpsert.StoredRow | scripts/import_symbols.py:235 | the row written for a symbol: unknown validity, source "hybrid-import" |
| SymbolUpsert.Rows | scripts/import_symbols.py:232-235 | one row per symbol of length 1..12, in order (see `RowsSpec`) |
| SymbolUpsert.Chunks | scripts/import_symbols.py:235-240 | the rows cut into batches of n (see `FlattenChunks`, `ChunkSizes`) |
| SymbolUpsert.Batches | scripts/import_symbols.py:230-240 | the batches sent, in order (see `BatchesSpec`) |
| SymbolUpsert.RowsAppend | scripts/import_symbols.py:232-235 | the rows of a concatenation are the rows of its parts, in order |
| SymbolUpsert.RowsSpec | scripts/import_symbols.py:232-235 | a row is written for exactly the symbols of length 1..12, each `{symbol, is_valid: None, source: "hybrid-import"}` |
| SymbolUpsert.FlattenChunks | scripts/import_symbols.py:235-240 | cutting into batches and concatenating them gives the rows back |
| SymbolUpsert.ChunkSizes | scripts/import_symbols.py:235-240 | every batch has 1 to n rows, and all but the last have exactly n |
| SymbolUpsert.FlattenSnoc | scripts/import_symbols.py:235-237 | concatenating batches with one more at the end appends that batch |
| SymbolUpsert.ChunksOfFull | scripts/import_symbols.py:235-240 | full batches followed by a remainder are cut back into those batches and then the remainder's batches |
| SymbolUpsert.BatchesSpec | scripts/import_symbols.py:230-240 | the batches hold every writable row in input order; each has 1..500 rows; all but the last are full; there is none iff no symbol is writable |
| SymbolUpsert.UpsertSymbolsBatch | scripts/import_symbols.py:230-240 | the buffer-and-flush loop sends exactly the batches of the specification, in order |
| SymbolImport.FailedSources | scripts/import_symbols.py:330-357 | the names of the categories that gave nothing, in category order (see `FailedSourcesSpec`) |
| SymbolImport.FailedSourcesSpec | scripts/import_symbols.py:330-357 | a category name is reported iff its category gave an empty list; no more names than categories |
| SymbolImport.CategoryResults | scripts/import_symbols.py:330-357 | the five category results in fetch order: exchanges, OTC, Russell, S&P, Dow (see `GatherCategories`) |
| SymbolImport.Collected | scripts/import_symbols.py:330-357 | `collected`: the five category results concatenated in fetch order (see `GatherCategories`, `RunImport`) |
| SymbolImport.GatherCategories | scripts/import_symbols.py:330-357 | `collected` is the five results concatenated in order; `failed_sources` lists the empty categories in order |
| SymbolImport.RunImport | scripts/import_symbols.py:323-385 | a successful run reports raw and filtered counts of the collected and clean lists, names the empty categories, and sends the clean list's batches |
| SymbolImport.RowsDistinct | scripts/import_symbols.py:230-240 | writing a list without repeats writes no symbol twice |
| SymbolImport.PersistedRows | scripts/import_symbols.py:359-382 | the persisted rows are the clean list's writable rows; no symbol twice; each ≤ 12 characters, non-empty, upper-case, not ETF-looking, from a collected string |
| Scoring.PeScore | scripts/run_screener.py:220-225 | the P/E sub-score is 4.0 on (10, 30], 3.0 on (30, 50], 1.5 on (50, 70], else 0.5 |
| Scoring.PeScoreEdges | scripts/run_screener.py:220-225 | each bucket edge belongs to the lower-P/E bucket; a missing P/E scores 0.5 |
| Scoring.PeScoreAntitone | scripts/run_screener.py:219-225 | above 10, a lower P/E never scores less |
| Scoring.SentimentScore | scripts/run_screener.py:228-229 | the sentiment sub-score is in [0, 3] for a sentiment in [0, 1], and is 3 only for sentiment 1 |
| Scoring.VolumeScore | scripts/run_screener.py:232-233 | the volume sub-score is capped at 2.0, reached iff the surge is ≥ 5, and non-negative for a non-negative surge |
| Scoring.FilingScore | scripts/run_screener.py:236-237 | the filing sub-score is capped at 1.0, reached iff the count is ≥ 4 |
| Scoring.Composite | scripts/run_screener.py:240 | the sum of the four sub-scores, with the defaults for missing keys (see `CompositeBounds`, `CompositeMonotone`) |
| Scoring.CompositeBounds | scripts/run_screener.py:219-240 | for plausible metrics the composite lies in [0.5, 10.0] |
| Scoring.CompositeOfEmpty | scripts/run_screener.py:220-240 | an empty dict takes every default and composes to 2.4 |
| Scoring.CompositeMonotone | scripts/run_screener.py:227-240 | more sentiment, surge or filings never lower the composite |
| Scoring.CalculateScore | scripts/run_screener.py:216-243 | the score is the composite moved by the jitter, at most 0.1 either way; in [0.4, 10.1] for plausible metrics |
| StockMetrics.Clamp01 | scripts/run_screener.py:111 | the clamp lands in [0, 1] and is the identity there |
| StockMetrics.Sentiment | scripts/run_screener.py:65-120 | sentiment is in [0, 1]; [0.4, 0.95] without a key; [0.4, 0.6] after three failures; otherwise the clamped score of the first attempt that answered, 0.5 when that answer has no score |
| StockMetrics.GetSentimentScore | scripts/run_screener.py:65-120 | the retry loop with early return computes the sentiment specification |
| StockMetrics.FinnhubResult | scripts/run_screener.py:125-149 | `{}` without a key or after three failures; otherwise the answer of the first attempt that answered |
| StockMetrics.FetchFinnhubData | scripts/run_screener.py:125-149 | the retry loop computes the Finnhub result |
| StockMetrics.NumberOf | scripts/run_screener.py:158 | `isinstance(j, (int, float))` and the value, with `True` as 1 |
| StockMetrics.UsablePe | scripts/run_screener.py:158 | the reported P/E is a number other than zero (see `PeRatio`) |
| StockMetrics.PeRatio | scripts/run_screener.py:156-163 | the reported P/E when it is a non-zero number, else the fallback in [15, 80]; never 0 |
| StockMetrics.PeRatioExamples | scripts/run_screener.py:156-163 | None, null, 0, 0.0 and non-numbers fall back; `True` gives 1; negative values pass |
| StockMetrics.GetPeRatio | scripts/run_screener.py:151-163 | `get_pe_ratio` applies the P/E rule to the Finnhub result |
| StockMetrics.IsReport | scripts/run_screener.py:182 | the form, upper-cased, is "10-K" or "10-Q" (see `IsReportCaseBlind`, `IsReportOthers`) |
| StockMetrics.CountReports | scripts/run_screener.py:182 | the count never exceeds the number of filings |
| StockMetrics.CountReportsSpec | scripts/run_screener.py:182 | the count is 0 iff no filing is a 10-K/10-Q, and equals the number of filings iff all are |
| StockMetrics.CountReportsAppend | scripts/run_screener.py:182 | counting is additive over concatenation |
| StockMetrics.IsReportCaseBlind | scripts/run_screener.py:182 | the form test ignores case: "10-K" and "10-q" both count |
| StockMetrics.IsReportOthers | scripts/run_screener.py:182 | "8-K", an amended "10-K/A" and a filing without a form do not count |
| StockMetrics.FilingCount | scripts/run_screener.py:179-182 | a response without `filings` counts 0; otherwise at most the number of filings |
| StockMetrics.GetSecFilingCount | scripts/run_screener.py:165-185 | `get_sec_filing_count` counts the reports of the Finnhub result |
| StockMetrics.FundamentalsOf | scripts/run_screener.py:190-214 | every key is present; sentiment in [0, 1]; P/E non-zero; surge in [1, 5]; count ≥ 0 |
| StockMetrics.FetchFundamentals | scripts/run_screener.py:190-214 | the four lookups in source order give the fundamentals specification |
| StockMetrics.FundamentalsScoreBounds | scripts/run_screener.py:216-243 | a screened symbol scores in [0.8, 10.1], because a surge ≥ 1 adds at least 0.4 |
| Ranking.Universe | scripts/run_screener.py:283-290 | the master list when non-empty, else the 30 hard-coded symbols; never empty |
| Ranking.ScoredStocks | scripts/run_screener.py:292-311 | `scored_stocks`: one record per symbol, in order, the i-th screened with the i-th observation (see `ScoredStocksSpec`, `ScoreAll`) |
| Ranking.ScoredOf | scripts/run_screener.py:297-310 | a record carries its symbol, a sentiment in [0, 1] and a score in [0.8, 10.1] |
| Ranking.ScoredStocksSpec | scripts/run_screener.py:292-311 | one record per symbol, in order, each with a score in [0.8, 10.1] |
| Ranking.Insert | scripts/run_screener.py:314 | insertion adds exactly the one record |
| Ranking.InsertSorted | scripts/run_screener.py:314 | insertion into a list sorted by descending score keeps it sorted |
| Ranking.SortByScore | scripts/run_screener.py:314 | the sort by descending score (see `SortByScoreSorted`, `SortByScorePermutes`) |
| Ranking.SortByScoreSorted | scripts/run_screener.py:314 | the sort yields non-increasing scores |
| Ranking.SortByScorePermutes | scripts/run_screener.py:314 | the sort yields a permutation of its input |
| Ranking.SortedPrefix | scripts/run_screener.py:314-315 | a prefix of a sorted list is sorted and outscores the rest |
| Ranking.Top | scripts/run_screener.py:314-315 | the first 20 records after the sort (see `TopSpec`) |
| Ranking.TopSpec | scripts/run_screener.py:314-315 | the top list has min(20, n) records, sorted, drawn from the scored records; every record left out scores no more than every record kept |
| Ranking.TopOfScreened | scripts/run_screener.py:314-315 | the top 20 of screened records are records of screened symbols with scores in [0.8, 10.1], and there is one when a symbol was screened |
| Ranking.TopMembers | scripts/run_screener.py:292-315 | every record of the top list is for a screened symbol and scores in [0.8, 10.1]; 1 to 20 records when a symbol was screened |
| Ranking.ScoreAll | scripts/run_screener.py:292-311 | the scoring loop yields one record per symbol, in order, as specified |
| Ranking.GenerateTopStocks | scripts/run_screener.py:280-318 | the scoring loop, sort and slice give the top list, which has 1 to 20 records (so `top_20[0]` exists) |
| Publishing.DocumentCollection.Delete | scripts/run_screener.py:328 | deleting a document removes exactly that id |
| Publishing.DocumentCollection.Set | scripts/run_screener.py:334 | setting a document creates or overwrites exactly that id |
| Publishing.Published | scripts/run_screener.py:332-334 | the collection after writing the records in order into an empty one (see `PublishedKeys`, `PublishedLast`) |
| Publishing.PublishedKeys | scripts/run_screener.py:332-334 | the document ids are exactly the records' symbols |
| Publishing.PublishedLast | scripts/run_screener.py:332-334 | each document holds the last record written under its id (a repeated symbol is overwritten) |
| Publishing.PublishedSize | scripts/run_screener.py:332-334 | no more documents than records, and at least one when there is a record |
| Publishing.UpdateFirestore | scripts/run_screener.py:320-337 | after the delete loop and the write loop the collection holds exactly the published map; nothing from before survives |
| Publishing.RunScreener | scripts/run_screener.py:339-348 | a run publishes the top list of the screened universe |
| Publishing.PublishedTop | scripts/run_screener.py:280-337 | a run publishes 1 to 20 documents, each keyed by its record's symbol, for a screened symbol, with a score in [0.8, 10.1] |

## Left out

- All network and store I/O is a parameter or a logged call: HTTP requests, the Supabase client, the Firestore client, the news API, the LLM endpoint and Finnhub. The model assumes a URL fetched twice sees the same answers on the same attempt numbers.
- The S&P 600 source list names the same URL twice. Because a URL fetched twice sees the same answers, the second entry can never succeed where the first failed, whereas the source makes three fresh requests for it; the model gives that list one chance, not two.
- `fetch_news_headlines` is left out. The headlines only shape the LLM prompt, and the LLM's answers are a parameter.
- `write_import_stats`, `send_slack`, `send_sms_via_mailgun`, `send_sms_via_smtp`, `notify_error_sms`, `initialize_firebase`: logging, notification and start-up I/O with nothing to verify. `RunImport` returns the success `import_stats` row instead of writing it.
- `fetch_master_symbols_from_supabase` is a parameter: the master list, with an empty list standing for every failure.
- The failure path of the importer's `main` is not modelled. This is the `except` branch that logs, notifies and re-raises. The only in-scope operation that can raise there is the upsert call, and `SymbolStore.Upsert` always succeeds. Likewise the screener entry point's `except` branch.
- Exceptions the source does not catch are not modelled. Examples: `float()` of a non-numeric `sentiment_score`, an `IndexError` or `TypeError` in the LLM response path, `.get` on a non-dict `metric`, `.upper()` on a non-string `form`. Replies are always well-shaped.
- Sleeps, backoff timing, `time.time()` durations, `datetime.now()` timestamps, the record's `timestamp` field and the 90-day filing window.
- Randomness: every `random.uniform` draw is a parameter within its range.
- Scoring.CalculateScore: does not model `round(..., 3)`; IEEE float behaviour is replaced by `real`.
- StockMetrics.FundamentalsOf: the surge is a draw in [1.0, 5.0] without the `round(..., 1)`.
- StockMetrics.PeRatio: the fallback is a draw in [15.0, 80.0] without the `round(..., 1)`.
- The handler around the CSV reader catches every exception, but only `csv.Error` can arise there. A partial list is then returned. The simplified reader never raises, so that partial result is not modelled.
- `csv.DictReader` quoting and escaping (section 2 of RFC 4180) is not modelled. A CSV line is split on every comma. Fields beyond the header go under the `None` key, which no candidate column names, so they are left out of `Row`.
- Text.Upper: upper-cases ASCII letters only. Python's full Unicode case mapping is not modelled.
- Text.Strip: removes the Latin-1 whitespace characters only; other Unicode whitespace is not modelled.
- SymbolParsing.RowsSymbolsSound: does not state the converse, that every row with a filled candidate column contributes its symbol. Only soundness and the one-per-row bound are proved.
- Ranking.SortByScoreSorted: does not state stability. `Insert` places a record before every record with an equal score, so ties keep their input order as Python's stable `list.sort(reverse=True)` does, but this is not proved.
- `scored_stocks.sort(...)` sorts a list in place. The model sorts a sequence value and reassigns it, so aliasing of the list is not captured.
- Environment configuration is not modelled: `APP_ID`, the collection path and module-level client construction.
