/**
 * Fetching the raw symbol lists: `safe_get_text` (a GET with bounded
 * retries), `fetch_first_working` (try candidate URLs in order until one
 * answers and parses) and the per-category `fetch_*` functions that
 * concatenate what their sources give.
 *
 * The network is a parameter: `net(url)(k)` is what attempt `k` (from 0)
 * of a GET on `url` gives, `Some(text)` for a 2xx answer and `None` when
 * the request raised (non-2xx status, timeout, connection error).
 */
module SymbolFetch {
  import opened Optional
  import opened Retry
  import opened SymbolParsing

  /** Tries per URL in `safe_get_text`. */
  const RetryAttempts: nat := 3

  type Network = string -> nat -> Option<string>

  /** What a parser passed to `fetch_first_working` does with a text: a list, or an exception. */
  datatype ParseOutcome = Parsed(symbols: seq<string>) | Raised

  type Parser = string -> ParseOutcome

  // Candidate sources, in the order they are tried.
  const ExchangePrimary: seq<string> := [
    "http://ftp.nasdaqtrader.com/dynamic/SymbolDirectory/nasdaqlisted.txt",
    "https://ftp.nasdaqtrader.com/dynamic/SymbolDirectory/nasdaqlisted.txt"]
  const ExchangeOther: seq<string> := [
    "http://ftp.nasdaqtrader.com/dynamic/SymbolDirectory/otherlisted.txt",
    "https://ftp.nasdaqtrader.com/dynamic/SymbolDirectory/otherlisted.txt"]
  const ExchangeMirrors: seq<string> := [
    "https://raw.githubusercontent.com/shadmansaleh/us-indices/main/data/nasdaq.csv",
    "https://raw.githubusercontent.com/shadmansaleh/us-indices/main/data/nyse.csv"]
  const OtcSources: seq<string> := [
    "https://raw.githubusercontent.com/codebox/otc-markets-symbols/master/otc_symbols.csv",
    "https://raw.githubusercontent.com/shadmansaleh/us-indices/main/data/otc.csv"]
  const Sp500Sources: seq<string> := [
    "https://raw.githubusercontent.com/shadmansaleh/us-indices/main/data/sp500.csv",
    "https://raw.githubusercontent.com/datasets/s-and-p-500-companies/master/data/constituents.csv"]
  const Sp400Sources: seq<string> := [
    "https://raw.githubusercontent.com/shadmansaleh/us-indices/main/data/sp400.csv",
    "https://raw.githubusercontent.com/angeloashmore/sandp400/master/data/sandp400.csv"]
  const Sp600Sources: seq<string> := [
    "https://raw.githubusercontent.com/shadmansaleh/us-indices/main/data/sp600.csv",
    "https://raw.githubusercontent.com/shadmansaleh/us-indices/main/data/sp600.csv"]
  const DjiaSources: seq<string> := [
    "https://raw.githubusercontent.com/shadmansaleh/us-indices/main/data/djia.csv",
    "https://raw.githubusercontent.com/datasets/dow-jones-industrial-average/master/data/djia.csv"]
  const Russell1000Sources: seq<string> := [
    "https://raw.githubusercontent.com/shadmansaleh/us-indices/main/data/r1000.csv",
    "https://raw.githubusercontent.com/alexander-ponomaroff/russell-index-data/main/russell1000.csv"]
  const Russell2000Sources: seq<string> := [
    "https://raw.githubusercontent.com/shadmansaleh/us-indices/main/data/r2000.csv",
    "https://raw.githubusercontent.com/alexander-ponomaroff/russell-index-data/main/russell2000.csv"]
  const Russell3000Sources: seq<string> := [
    "https://raw.githubusercontent.com/shadmansaleh/us-indices/main/data/r3000.csv",
    "https://raw.githubusercontent.com/alexander-ponomaroff/russell-index-data/main/russell3000.csv"]

  // Candidate ticker columns per category, in the order they are tried.
  const OtcColumns: seq<string> := ["Symbol", "symbol", "Ticker", "code"]
  const IndexColumns: seq<string> := ["Symbol", "symbol", "Ticker"]
  const RussellColumns: seq<string> := ["symbol", "Symbol", "Ticker", "ticker"]

  /** `parse_nasdaq_txt` as a parser argument (it never raises). */
  const NasdaqParser: Parser := text => Parsed(NasdaqSymbols(text))

  /** `lambda t: parse_csv_symbols(t, columns)` (it catches its own errors). */
  function CsvParser(columns: seq<string>): Parser {
    text => Parsed(CsvSymbols(text, columns))
  }

  /** `safe_get_text`: the text of the first of three attempts that did not raise, or `None`. */
  method SafeGetText(url: string, net: Network) returns (text: Option<string>)
    ensures text == FirstSuccess(net(url), RetryAttempts)
  {
    var attempt := 0;
    while attempt < RetryAttempts
      invariant attempt <= RetryAttempts
      invariant FirstSuccessFrom(net(url), attempt, RetryAttempts) == FirstSuccess(net(url), RetryAttempts)
    {
      var response := net(url)(attempt);
      if response.Some? {
        return response;
      }
      attempt := attempt + 1;
    }
    return None;
  }

  /**
   * What one candidate URL yields in `fetch_first_working`: the parser's list
   * when the URL answered with non-empty text and the parser did not raise;
   * nothing otherwise.
   */
  function UrlResult(url: string, net: Network, parser: Parser): Option<seq<string>> {
    match FirstSuccess(net(url), RetryAttempts)
    case Some(text) =>
      if text != "" && parser(text).Parsed? then Some(parser(text).symbols) else None
    case None => None
  }

  /** The list of the first URL that works, or the empty list when none does. */
  function FirstWorking(urls: seq<string>, net: Network, parser: Parser): seq<string> {
    if urls == [] then []
    else
      match UrlResult(urls[0], net, parser)
      case Some(symbols) => symbols
      case None => FirstWorking(urls[1..], net, parser)
  }

  /**
   * `fetch_first_working` returns the list of the first URL that works, even
   * if that list is empty, and the empty list only when no URL works.
   */
  lemma {:induction false} FirstWorkingSpec(urls: seq<string>, net: Network, parser: Parser)
    ensures forall i :: 0 <= i < |urls| && UrlResult(urls[i], net, parser).Some?
                        && (forall j :: 0 <= j < i ==> UrlResult(urls[j], net, parser).None?)
                        ==> FirstWorking(urls, net, parser) == UrlResult(urls[i], net, parser).value
    ensures (forall i :: 0 <= i < |urls| ==> UrlResult(urls[i], net, parser).None?)
            ==> FirstWorking(urls, net, parser) == []
  {
    if urls != [] {
      FirstWorkingSpec(urls[1..], net, parser);
      assert forall i :: 1 <= i < |urls| ==> urls[i] == urls[1..][i - 1];
    }
  }

  /** `fetch_first_working`: try the URLs in order and stop at the first that works. */
  method FetchFirstWorking(urls: seq<string>, net: Network, parser: Parser) returns (r: seq<string>)
    ensures r == FirstWorking(urls, net, parser)
  {
    for i := 0 to |urls|
      invariant FirstWorking(urls[i..], net, parser) == FirstWorking(urls, net, parser)
    {
      assert urls[i..][0] == urls[i] && urls[i..][1..] == urls[i + 1..];
      var text := SafeGetText(urls[i], net);
      if text.Some? && text.value != "" {
        var outcome := parser(text.value);
        if outcome.Parsed? {
          return outcome.symbols;
        }
      }
    }
    return [];
  }

  /** The symbols of every community mirror that answered with non-empty text, in mirror order. */
  function MirrorSymbols(mirrors: seq<string>, net: Network): seq<string> {
    if mirrors == [] then []
    else
      var init := MirrorSymbols(mirrors[..|mirrors| - 1], net);
      match FirstSuccess(net(mirrors[|mirrors| - 1]), RetryAttempts)
      case Some(text) => if text != "" then init + CsvSymbols(text, DefaultColumns) else init
      case None => init
  }

  // What each category yields: the specifications of the `fetch_*` functions.

  /** Both symbol directories, then every community mirror that answered. */
  function ExchangesSymbols(net: Network): seq<string> {
    FirstWorking(ExchangePrimary, net, NasdaqParser)
    + FirstWorking(ExchangeOther, net, NasdaqParser)
    + MirrorSymbols(ExchangeMirrors, net)
  }

  function OtcSymbols(net: Network): seq<string> {
    FirstWorking(OtcSources, net, CsvParser(OtcColumns))
  }

  /** The S&P 500, 400 and 600 lists, one after the other. */
  function SpSymbols(net: Network): seq<string> {
    FirstWorking(Sp500Sources, net, CsvParser(IndexColumns))
    + FirstWorking(Sp400Sources, net, CsvParser(IndexColumns))
    + FirstWorking(Sp600Sources, net, CsvParser(IndexColumns))
  }

  function DjiaSymbols(net: Network): seq<string> {
    FirstWorking(DjiaSources, net, CsvParser(IndexColumns))
  }

  /** The Russell 1000, 2000 and 3000 lists, one after the other. */
  function RussellSymbols(net: Network): seq<string> {
    FirstWorking(Russell1000Sources, net, CsvParser(RussellColumns))
    + FirstWorking(Russell2000Sources, net, CsvParser(RussellColumns))
    + FirstWorking(Russell3000Sources, net, CsvParser(RussellColumns))
  }

  /** The mirror loop of `fetch_exchanges_all`: every mirror that answered with text, parsed as CSV. */
  method FetchMirrors(mirrors: seq<string>, net: Network) returns (out: seq<string>)
    ensures out == MirrorSymbols(mirrors, net)
  {
    out := [];
    for m := 0 to |mirrors|
      invariant out == MirrorSymbols(mirrors[..m], net)
    {
      assert mirrors[..m + 1][..m] == mirrors[..m];
      var text := SafeGetText(mirrors[m], net);
      if text.Some? && text.value != "" {
        var parsed := ParseCsvSymbols(text.value, DefaultColumns);
        out := out + parsed;
      }
    }
    assert mirrors[..|mirrors|] == mirrors;
  }

  /** `fetch_exchanges_all`: both symbol directories, then every mirror that answered. */
  method FetchExchangesAll(net: Network) returns (collected: seq<string>)
    ensures collected == ExchangesSymbols(net)
  {
    var primary := FetchFirstWorking(ExchangePrimary, net, NasdaqParser);
    var other := FetchFirstWorking(ExchangeOther, net, NasdaqParser);
    var mirrored := FetchMirrors(ExchangeMirrors, net);
    collected := primary + other + mirrored;
  }

  /** `fetch_otc_all` */
  method FetchOtcAll(net: Network) returns (symbols: seq<string>)
    ensures symbols == OtcSymbols(net)
  {
    symbols := FetchFirstWorking(OtcSources, net, CsvParser(OtcColumns));
  }

  /** `fetch_sp_group`: the S&P 500, 400 and 600 lists, one after the other. */
  method FetchSpGroup(net: Network) returns (out: seq<string>)
    ensures out == SpSymbols(net)
  {
    var sp500 := FetchFirstWorking(Sp500Sources, net, CsvParser(IndexColumns));
    var sp400 := FetchFirstWorking(Sp400Sources, net, CsvParser(IndexColumns));
    var sp600 := FetchFirstWorking(Sp600Sources, net, CsvParser(IndexColumns));
    out := sp500 + sp400 + sp600;
  }

  /** `fetch_djia_all` */
  method FetchDjiaAll(net: Network) returns (symbols: seq<string>)
    ensures symbols == DjiaSymbols(net)
  {
    symbols := FetchFirstWorking(DjiaSources, net, CsvParser(IndexColumns));
  }

  /** `fetch_russell_group`: the Russell 1000, 2000 and 3000 lists, one after the other. */
  method FetchRussellGroup(net: Network) returns (out: seq<string>)
    ensures out == RussellSymbols(net)
  {
    var r1000 := FetchFirstWorking(Russell1000Sources, net, CsvParser(RussellColumns));
    var r2000 := FetchFirstWorking(Russell2000Sources, net, CsvParser(RussellColumns));
    var r3000 := FetchFirstWorking(Russell3000Sources, net, CsvParser(RussellColumns));
    out := r1000 + r2000 + r3000;
  }
}
