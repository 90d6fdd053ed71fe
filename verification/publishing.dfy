/**
 * `update_firestore` and the screener's entry point: clear the `topStocks`
 * collection, then write one document per record, keyed by its symbol. The
 * collection is a class whose state is its map from document id to record.
 */
module Publishing {
  import opened StockMetrics
  import opened Ranking

  /** The `topStocks` Firestore collection. */
  class DocumentCollection {
    var docs: map<string, ScoredStock>

    constructor(initial: map<string, ScoredStock>)
      ensures docs == initial
    {
      docs := initial;
    }

    /** `doc.reference.delete()` */
    method Delete(id: string)
      modifies this
      ensures docs == old(docs) - {id}
    {
      docs := docs - {id};
    }

    /** `collection_ref.document(id).set(stock)`: create or overwrite. */
    method Set(id: string, stock: ScoredStock)
      modifies this
      ensures docs == old(docs)[id := stock]
    {
      docs := docs[id := stock];
    }
  }

  /** The collection after writing `top` in order into an empty one. */
  function Published(top: seq<ScoredStock>): map<string, ScoredStock> {
    if top == [] then map[]
    else
      var last := top[|top| - 1];
      Published(top[..|top| - 1])[last.symbol := last]
  }

  /** The document ids are exactly the symbols of `top`. */
  lemma {:induction false} PublishedKeys(top: seq<ScoredStock>)
    ensures Published(top).Keys == set s | s in top :: s.symbol
  {
    if top != [] {
      var init := top[..|top| - 1];
      PublishedKeys(init);
      assert top == init + [top[|top| - 1]];
    }
  }

  /** `top[i]` is the last record of `top` for symbol `id`. */
  predicate LastWrite(top: seq<ScoredStock>, id: string, i: int) {
    0 <= i < |top| && top[i].symbol == id && forall j :: i < j < |top| ==> top[j].symbol != id
  }

  /** Writing a record for another symbol leaves the last write of `id` where it was. */
  lemma LastWriteExtend(init: seq<ScoredStock>, x: ScoredStock, id: string, i: int)
    requires LastWrite(init, id, i) && x.symbol != id
    ensures LastWrite(init + [x], id, i)
  {
    var top := init + [x];
    forall j | i < j < |top|
      ensures top[j].symbol != id
    {
      if j < |init| {
        assert top[j] == init[j];
      }
    }
  }

  /** Each document holds the last record written for its symbol. */
  lemma {:induction false} PublishedLast(top: seq<ScoredStock>)
    ensures forall id :: id in Published(top) ==>
              exists i :: LastWrite(top, id, i) && Published(top)[id] == top[i]
  {
    if top != [] {
      var init := top[..|top| - 1];
      var last := top[|top| - 1];
      PublishedLast(init);
      assert top == init + [last];
      forall id | id in Published(top)
        ensures exists i :: LastWrite(top, id, i) && Published(top)[id] == top[i]
      {
        if id != last.symbol {
          assert Published(top) == Published(init)[last.symbol := last];
          assert id in Published(init);
          var i :| LastWrite(init, id, i) && Published(init)[id] == init[i];
          LastWriteExtend(init, last, id, i);
          assert top[i] == init[i];
        } else {
          assert LastWrite(top, id, |top| - 1);
        }
      }
    }
  }

  /** No more documents than records, and at least one when there is a record. */
  lemma {:induction false} PublishedSize(top: seq<ScoredStock>)
    ensures |Published(top).Keys| <= |top|
    ensures top != [] ==> |Published(top).Keys| >= 1
  {
    if top != [] {
      var init := top[..|top| - 1];
      var last := top[|top| - 1];
      PublishedSize(init);
      assert Published(top).Keys == Published(init).Keys + {last.symbol};
      assert last.symbol in Published(top).Keys;
    }
  }

  /**
   * `update_firestore`: delete every document the collection held, then
   * write each record under its symbol; nothing from before survives.
   */
  method UpdateFirestore(collection: DocumentCollection, top: seq<ScoredStock>)
    modifies collection
    ensures collection.docs == Published(top)
  {
    var ids := collection.docs.Keys;
    while ids != {}
      invariant collection.docs.Keys <= ids
      decreases ids
    {
      var id :| id in ids;
      collection.Delete(id);
      ids := ids - {id};
    }
    assert collection.docs == map[];
    for i := 0 to |top|
      invariant collection.docs == Published(top[..i])
    {
      assert top[..i + 1][..i] == top[..i];
      var stock := top[i];
      collection.Set(stock.symbol, stock);
    }
    assert top[..|top|] == top;
  }

  /** The screener's entry point: rank the stocks, then publish the top list. */
  method RunScreener(keys: ApiKeys, fetched: seq<string>, observe: nat -> Observation,
                     collection: DocumentCollection)
    modifies collection
    requires ValidObservations(observe)
    ensures collection.docs == Published(Top(ScoredStocks(keys, Universe(fetched), observe)))
  {
    var topStocks := GenerateTopStocks(keys, fetched, observe);
    UpdateFirestore(collection, topStocks);
  }

  /**
   * What a run publishes: between 1 and 20 documents, each keyed by the
   * symbol of its record, for a screened symbol, with a score in [0.8, 10.1].
   */
  lemma PublishedTop(keys: ApiKeys, fetched: seq<string>, observe: nat -> Observation)
    requires ValidObservations(observe)
    ensures var docs := Published(Top(ScoredStocks(keys, Universe(fetched), observe)));
            1 <= |docs.Keys| <= TopCount
            && forall id :: id in docs ==>
                 docs[id].symbol == id && id in Universe(fetched) && 0.8 <= docs[id].score <= 10.1
  {
    var top := Top(ScoredStocks(keys, Universe(fetched), observe));
    TopMembers(keys, Universe(fetched), observe);
    PublishedLast(top);
    PublishedSize(top);
    forall id | id in Published(top)
      ensures Published(top)[id].symbol == id && id in Universe(fetched) && 0.8 <= Published(top)[id].score <= 10.1
    {
      var i :| LastWrite(top, id, i) && Published(top)[id] == top[i];
      assert top[i] in top;
    }
  }
}
