/**
 * `upsert_symbols_batch`: the importer's write of the clean symbols to the
 * `symbols` table, in batches of at most 500 rows. The table client is the
 * class `SymbolStore`, whose state is the log of the batches it was sent.
 */
module SymbolUpsert {
  import opened Optional

  /** Rows per upsert call. */
  const BatchSize: nat := 500

  /** Longest symbol that is written. */
  const MaxStoredLength: nat := 12

  /** The `source` column of every imported row. */
  const ImportSource: string := "hybrid-import"

  /** One row of the `symbols` table as the importer writes it. */
  datatype SymbolRow = SymbolRow(symbol: string, isValid: Option<bool>, source: string)

  /** The `symbols` table client: every `upsert(batch).execute()` it has received, in order. */
  class SymbolStore {
    var batches: seq<seq<SymbolRow>>

    constructor()
      ensures batches == []
    {
      batches := [];
    }

    /** `supabase.table("symbols").upsert(batch).execute()` */
    method Upsert(batch: seq<SymbolRow>)
      modifies this
      ensures batches == old(batches) + [batch]
    {
      batches := batches + [batch];
    }
  }

  /** A symbol is written when it is non-empty and has at most 12 characters. */
  predicate Storable(sym: string) {
    sym != "" && |sym| <= MaxStoredLength
  }

  /** The row written for a symbol: validity unknown, source "hybrid-import". */
  function StoredRow(sym: string): SymbolRow {
    SymbolRow(sym, None, ImportSource)
  }

  /** The rows written for `symbols`, in order: one per storable symbol. */
  function Rows(symbols: seq<string>): seq<SymbolRow> {
    if symbols == [] then []
    else
      var init := Rows(symbols[..|symbols| - 1]);
      var sym := symbols[|symbols| - 1];
      if Storable(sym) then init + [StoredRow(sym)] else init
  }

  /** `xs` cut into consecutive pieces of `n`, the last one possibly shorter. */
  function Chunks<T>(xs: seq<T>, n: nat): seq<seq<T>>
    requires n > 0
    decreases |xs|
  {
    if xs == [] then []
    else if |xs| <= n then [xs]
    else [xs[..n]] + Chunks(xs[n..], n)
  }

  /** The pieces put back together. */
  function Flatten<T>(pieces: seq<seq<T>>): seq<T> {
    if pieces == [] then [] else pieces[0] + Flatten(pieces[1..])
  }

  /** The specification of `upsert_symbols_batch`: the batches it sends, in order. */
  function Batches(symbols: seq<string>): seq<seq<SymbolRow>> {
    Chunks(Rows(symbols), BatchSize)
  }

  /**
   * Filtering keeps order and works piece by piece: the rows of a
   * concatenation are the rows of its parts.
   */
  lemma {:induction false} RowsAppend(a: seq<string>, b: seq<string>)
    ensures Rows(a + b) == Rows(a) + Rows(b)
    decreases |b|
  {
    if b == [] {
      assert a + b == a;
    } else {
      var b' := b[..|b| - 1];
      RowsAppend(a, b');
      assert (a + b)[..|a + b| - 1] == a + b';
      assert b[..|b| - 1] == b';
    }
  }

  /**
   * A row is written for exactly the storable symbols: each row carries a
   * storable symbol from the input, an unknown validity and the import
   * source, and every storable input symbol gets its row.
   */
  lemma {:induction false} RowsSpec(symbols: seq<string>)
    ensures |Rows(symbols)| <= |symbols|
    ensures forall r :: r in Rows(symbols) ==>
              r.symbol in symbols && Storable(r.symbol) && r.isValid == None && r.source == ImportSource
    ensures forall s :: s in symbols && Storable(s) ==> StoredRow(s) in Rows(symbols)
  {
    if symbols != [] {
      var init := symbols[..|symbols| - 1];
      RowsSpec(init);
      assert symbols == init + [symbols[|symbols| - 1]];
    }
  }

  /** Cutting into pieces and putting them back together gives the sequence back. */
  lemma {:induction false} FlattenChunks<T>(xs: seq<T>, n: nat)
    requires n > 0
    ensures Flatten(Chunks(xs, n)) == xs
    decreases |xs|
  {
    if xs != [] && |xs| > n {
      FlattenChunks(xs[n..], n);
      assert xs == xs[..n] + xs[n..];
    }
  }

  /** Every piece is non-empty and has at most `n` elements; all but the last have exactly `n`. */
  lemma {:induction false} ChunkSizes<T>(xs: seq<T>, n: nat)
    requires n > 0
    ensures forall i :: 0 <= i < |Chunks(xs, n)| ==> 0 < |Chunks(xs, n)[i]| <= n
    ensures forall i :: 0 <= i < |Chunks(xs, n)| - 1 ==> |Chunks(xs, n)[i]| == n
    decreases |xs|
  {
    if xs != [] && |xs| > n {
      ChunkSizes(xs[n..], n);
    }
  }

  /** Putting back together pieces with one more at the end. */
  lemma {:induction false} FlattenSnoc<T>(pieces: seq<seq<T>>, last: seq<T>)
    ensures Flatten(pieces + [last]) == Flatten(pieces) + last
  {
    if pieces != [] {
      FlattenSnoc(pieces[1..], last);
      assert (pieces + [last])[1..] == pieces[1..] + [last];
    }
  }

  /** A full piece in front is cut off as the first piece. */
  lemma ChunksCons<T>(piece: seq<T>, rest: seq<T>, n: nat)
    requires n > 0 && |piece| == n
    ensures Chunks(piece + rest, n) == [piece] + Chunks(rest, n)
  {
    var xs := piece + rest;
    if rest != [] {
      assert xs[..n] == piece && xs[n..] == rest;
    } else {
      assert xs == piece;
    }
  }

  /** Full pieces followed by a tail are cut back into those pieces, then the tail's pieces. */
  lemma {:induction false} ChunksOfFull<T>(full: seq<seq<T>>, tail: seq<T>, n: nat)
    requires n > 0
    requires forall i :: 0 <= i < |full| ==> |full[i]| == n
    ensures Chunks(Flatten(full) + tail, n) == full + Chunks(tail, n)
  {
    if full != [] {
      ChunksOfFull(full[1..], tail, n);
      var rest := Flatten(full[1..]) + tail;
      assert Flatten(full) + tail == full[0] + rest;
      ChunksCons(full[0], rest, n);
      assert full == [full[0]] + full[1..];
    } else {
      assert Flatten(full) + tail == tail;
    }
  }

  /**
   * What `upsert_symbols_batch` sends: every storable symbol's row, in input
   * order, in batches of 1 to 500 rows where every batch but the last is full.
   */
  lemma BatchesSpec(symbols: seq<string>)
    ensures Flatten(Batches(symbols)) == Rows(symbols)
    ensures forall i :: 0 <= i < |Batches(symbols)| ==> 0 < |Batches(symbols)[i]| <= BatchSize
    ensures forall i :: 0 <= i < |Batches(symbols)| - 1 ==> |Batches(symbols)[i]| == BatchSize
    ensures Batches(symbols) == [] <==> forall s :: s in symbols ==> !Storable(s)
  {
    FlattenChunks(Rows(symbols), BatchSize);
    ChunkSizes(Rows(symbols), BatchSize);
    RowsSpec(symbols);
    if Rows(symbols) != [] {
      assert Rows(symbols)[0] in Rows(symbols);
    } else {
      assert forall s :: s in symbols && Storable(s) ==> StoredRow(s) in Rows(symbols);
    }
  }

  /**
   * `upsert_symbols_batch`: skip empty and over-long symbols, send a batch
   * each time 500 rows have gathered, then send what is left, if anything.
   */
  method UpsertSymbolsBatch(store: SymbolStore, symbols: seq<string>)
    modifies store
    ensures store.batches == old(store.batches) + Batches(symbols)
  {
    var batch: seq<SymbolRow> := [];
    ghost var sent: seq<seq<SymbolRow>> := [];
    for i := 0 to |symbols|
      invariant Flatten(sent) + batch == Rows(symbols[..i])
      invariant forall k :: 0 <= k < |sent| ==> |sent[k]| == BatchSize
      invariant |batch| < BatchSize
      invariant store.batches == old(store.batches) + sent
    {
      assert symbols[..i + 1][..i] == symbols[..i];
      var sym := symbols[i];
      if sym == "" || |sym| > MaxStoredLength {
        continue;
      }
      batch := batch + [SymbolRow(sym, None, ImportSource)];
      if |batch| >= BatchSize {
        store.Upsert(batch);
        FlattenSnoc(sent, batch);
        sent := sent + [batch];
        batch := [];
      }
    }
    assert symbols[..|symbols|] == symbols;
    ChunksOfFull(sent, batch, BatchSize);
    if batch != [] {
      store.Upsert(batch);
    }
  }
}
