/**
 * The successful run of the importer's `main`: fetch the five categories in
 * order, note the ones that gave nothing, clean the collected symbols, upsert
 * them in batches and report the counts.
 */
module SymbolImport {
  import opened Optional
  import opened Text
  import opened SymbolFetch
  import opened SymbolFilter
  import opened SymbolUpsert

  /** The category names `main` reports, in fetch order. */
  const CategoryNames: seq<string> := ["exchanges", "otc", "russell", "sp1500", "djia"]

  /** The names whose category gave an empty list, in category order. */
  function FailedSources(results: seq<seq<string>>, names: seq<string>): seq<string>
    requires |results| == |names|
  {
    if names == [] then []
    else
      var n := |names| - 1;
      FailedSources(results[..n], names[..n]) + if results[n] == [] then [names[n]] else []
  }

  /** A name is reported exactly when its category gave nothing, and no more names than categories are reported. */
  lemma {:induction false} FailedSourcesSpec(results: seq<seq<string>>, names: seq<string>)
    requires |results| == |names|
    ensures |FailedSources(results, names)| <= |names|
    ensures forall x :: x in FailedSources(results, names) <==>
              exists i :: 0 <= i < |names| && names[i] == x && results[i] == []
  {
    if names != [] {
      var n := |names| - 1;
      FailedSourcesSpec(results[..n], names[..n]);
      forall x | x in FailedSources(results, names)
        ensures exists i :: 0 <= i < |names| && names[i] == x && results[i] == []
      {
        if x in FailedSources(results[..n], names[..n]) {
          var i :| 0 <= i < n && names[..n][i] == x && results[..n][i] == [];
          assert names[i] == x && results[i] == [];
        }
      }
      forall x | exists i :: 0 <= i < |names| && names[i] == x && results[i] == []
        ensures x in FailedSources(results, names)
      {
        var i :| 0 <= i < |names| && names[i] == x && results[i] == [];
        if i < n {
          assert names[..n][i] == x && results[..n][i] == [];
        }
      }
    }
  }

  /** The category results a run sees, in fetch order. */
  function CategoryResults(net: Network): seq<seq<string>> {
    [ExchangesSymbols(net), OtcSymbols(net), RussellSymbols(net), SpSymbols(net), DjiaSymbols(net)]
  }

  /** Everything collected by a run: the categories one after the other. */
  function Collected(net: Network): seq<string> {
    ExchangesSymbols(net) + OtcSymbols(net) + RussellSymbols(net) + SpSymbols(net) + DjiaSymbols(net)
  }

  /**
   * The fetch part of `main`: append each category's list to `collected` and
   * note its name in `failed` when the list is empty.
   */
  method GatherCategories(ex: seq<string>, otc: seq<string>, russell: seq<string>, sp: seq<string>, djia: seq<string>)
    returns (collected: seq<string>, failed: seq<string>)
    ensures collected == ex + otc + russell + sp + djia
    ensures failed == FailedSources([ex, otc, russell, sp, djia], CategoryNames)
  {
    ghost var results := [ex, otc, russell, sp, djia];
    failed := [];
    assert failed == FailedSources(results[..0], CategoryNames[..0]);
    if ex == [] {
      failed := failed + ["exchanges"];
    }
    assert failed == FailedSources(results[..1], CategoryNames[..1]);
    if otc == [] {
      failed := failed + ["otc"];
    }
    assert results[..2][..1] == results[..1] && CategoryNames[..2][..1] == CategoryNames[..1];
    assert failed == FailedSources(results[..2], CategoryNames[..2]);
    if russell == [] {
      failed := failed + ["russell"];
    }
    assert results[..3][..2] == results[..2] && CategoryNames[..3][..2] == CategoryNames[..2];
    assert failed == FailedSources(results[..3], CategoryNames[..3]);
    if sp == [] {
      failed := failed + ["sp1500"];
    }
    assert results[..4][..3] == results[..3] && CategoryNames[..4][..3] == CategoryNames[..3];
    assert failed == FailedSources(results[..4], CategoryNames[..4]);
    if djia == [] {
      failed := failed + ["djia"];
    }
    assert results[..4] == results[..|results| - 1] && CategoryNames[..4] == CategoryNames[..|CategoryNames| - 1];
    collected := ex + otc + russell + sp + djia;
  }

  /** The `import_stats` row and the failed-source list of a successful run. */
  datatype ImportReport = ImportReport(status: string, fetchedCount: nat, filteredCount: nat,
                                       error: Option<string>, failedSources: seq<string>)

  /**
   * A successful run of `main`: the report counts what was collected and
   * what survived cleaning, names the empty categories, and the store has
   * received the clean symbols' batches.
   */
  method RunImport(net: Network, store: SymbolStore) returns (report: ImportReport)
    modifies store
    ensures report.status == "success" && report.error == None
    ensures report.fetchedCount == |Collected(net)|
    ensures report.filteredCount == |Clean(Collected(net))|
    ensures report.failedSources == FailedSources(CategoryResults(net), CategoryNames)
    ensures store.batches == old(store.batches) + Batches(Clean(Collected(net)))
  {
    var ex := FetchExchangesAll(net);
    var otc := FetchOtcAll(net);
    var russell := FetchRussellGroup(net);
    var sp := FetchSpGroup(net);
    var djia := FetchDjiaAll(net);
    var collected, failed := GatherCategories(ex, otc, russell, sp, djia);
    var clean := CleanSymbols(collected);
    UpsertSymbolsBatch(store, clean);
    report := ImportReport("success", |collected|, |clean|, None, failed);
  }

  /** Writing a list without repeats writes no symbol twice. */
  lemma {:induction false} RowsDistinct(symbols: seq<string>)
    requires forall i, j :: 0 <= i < j < |symbols| ==> symbols[i] != symbols[j]
    ensures forall i, j :: 0 <= i < j < |Rows(symbols)| ==> Rows(symbols)[i].symbol != Rows(symbols)[j].symbol
  {
    if symbols != [] {
      var init := symbols[..|symbols| - 1];
      RowsDistinct(init);
      RowsSpec(init);
      var last := symbols[|symbols| - 1];
      assert last !in init;
    }
  }

  /**
   * What an import persists: the clean symbols' rows, in order, and nothing
   * else; no symbol is written twice; each is `strip().upper()` of a
   * collected string, non-empty, at most 12 characters, upper-case and not
   * ETF-looking; every row has unknown validity and the import source; and
   * every clean symbol that is not empty is written.
   */
  lemma PersistedRows(collected: seq<string>)
    ensures var rows := Flatten(Batches(Clean(collected)));
            rows == Rows(Clean(collected))
            && (forall i, j :: 0 <= i < j < |rows| ==> rows[i].symbol != rows[j].symbol)
            && (forall x :: x in Clean(collected) && x != "" ==> StoredRow(x) in rows)
            && forall r :: r in rows ==>
                 r.symbol != "" && |r.symbol| <= MaxSymbolLength && Upper(r.symbol) == r.symbol
                 && !LooksLikeEtf(r.symbol) && r.isValid == None && r.source == ImportSource
                 && exists s :: s in collected && r.symbol == Upper(Strip(s))
  {
    var clean := Clean(collected);
    BatchesSpec(clean);
    RowsSpec(clean);
    CleanNoDuplicates(collected);
    RowsDistinct(clean);
    CleanSound(collected);
  }
}
