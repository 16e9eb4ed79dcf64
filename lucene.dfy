/**
 * The Lucene objects the indexer and the web views ask for, as plain values
 * recording what is asked to be built. Analysis, index construction, scoring
 * and the execution of a search are Lucene's and stay abstract.
 */
module Lucene {
  import opened Wrappers
  import Python

  /** One typed field added to a Lucene document. */
  datatype Field =
    | TextField(name: string, text: string)     // TextField(name, text, Field.Store.YES): tokenized, stored
    | StringField(name: string, text: string)   // StringField(name, text, Field.Store.YES): one exact token, stored
    | IntPoint(name: string, value: int)        // IntPoint(name, value): exact and range matching, not stored
    | StoredInt(name: string, value: int)       // StoredField(name, int)
    | StoredStr(name: string, text: string)     // StoredField(name, String)
    | NumericDV(name: string, value: int)       // NumericDocValuesField(name, value): integer sort column
    | SortedDV(name: string, text: string)      // SortedDocValuesField(name, BytesRef(text)): string sort column

  /** A document under construction: `doc.add` appends a field. */
  class Document {
    var fields: seq<Field>

    constructor ()
      ensures fields == []
    {
      fields := [];
    }

    method Add(f: Field)
      modifies this
      ensures fields == old(fields) + [f]
    {
      fields := fields + [f];
    }
  }

  /** An index writer: the documents it has been given, in order. */
  class IndexWriter {
    var docs: seq<seq<Field>>

    /** Opened with `OpenMode.CREATE`: any index already at the location is discarded. */
    constructor Create()
      ensures docs == []
    {
      docs := [];
    }

    /** `addDocument` only ever appends; there is no update or delete. */
    method AddDocument(doc: Document)
      modifies this
      ensures docs == old(docs) + [doc.fields]
    {
      docs := docs + [doc.fields];
    }
  }

  /** `BooleanClause.Occur`. */
  datatype Occur = Must | Should | MustNot | Filter

  /** The two kinds of sub-query the views build. */
  datatype Clause =
    | Parsed(field: string, text: string)   // QueryParser(field, analyzer).parse(text); its structure is Lucene's
    | Term(field: string, value: string)    // TermQuery(Term(field, value))

  datatype BooleanClause = BooleanClause(query: Clause, occur: Occur)

  datatype Query = BooleanQuery(clauses: seq<BooleanClause>)

  /** A query whose every clause must match: a pure conjunction. */
  predicate Conjunctive(q: Query)
  {
    forall c <- q.clauses :: c.occur == Must
  }

  /** `BooleanQuery.Builder`: clauses are accumulated with `add` and frozen by `build`. */
  class BooleanQueryBuilder {
    var clauses: seq<BooleanClause>

    constructor ()
      ensures clauses == []
    {
      clauses := [];
    }

    method Add(query: Clause, occur: Occur)
      modifies this
      ensures clauses == old(clauses) + [BooleanClause(query, occur)]
    {
      clauses := clauses + [BooleanClause(query, occur)];
    }

    method Build() returns (q: Query)
      ensures q.clauses == clauses
    {
      q := BooleanQuery(clauses);
    }
  }

  /** `SortField.Type`, as far as the views use it. */
  datatype SortType = STRING | INT

  /** `Sort.RELEVANCE` or `Sort(SortField(field, type, reverse))`. */
  datatype Sort = Relevance | ByField(field: string, kind: SortType, reverse: bool)

  /** A stored document as read back by `storedFields().document(id)`: `get(name)` answers `map[name]` or `None`. */
  type StoredDoc = map<string, Python.PyStr>

  /** One call `searcher.search(query, n[, sort])`. */
  datatype SearchCall = SearchCall(query: Query, n: nat, sort: Option<Sort>)

  /** The first `n` elements of `s`, or all of them when there are fewer. */
  function TopN<T>(s: seq<T>, n: nat): (r: seq<T>)
    ensures |r| <= n && |r| <= |s|
    ensures |r| == n || |r| == |s|
    ensures r == s[..|r|]
  {
    if |s| <= n then s else s[..n]
  }

  /**
   * An index searcher over a committed index. `ranked` stands for Lucene's own
   * matching, scoring and sorting: all matching stored documents of a query, in
   * the order the given sort (or relevance, when none) puts them. `calls`
   * records the searches asked of it.
   */
  class IndexSearcher {
    const ranked: (Query, Option<Sort>) -> seq<StoredDoc>
    ghost var calls: seq<SearchCall>

    constructor (ranked: (Query, Option<Sort>) -> seq<StoredDoc>)
      ensures this.ranked == ranked && calls == []
    {
      this.ranked := ranked;
      calls := [];
    }

    /** The top `n` hits, already turned into their stored documents. */
    method Search(query: Query, n: nat, sort: Option<Sort>) returns (hits: seq<StoredDoc>)
      modifies this
      ensures calls == old(calls) + [SearchCall(query, n, sort)]
      ensures hits == TopN(ranked(query, sort), n)
    {
      hits := TopN(ranked(query, sort), n);
      calls := calls + [SearchCall(query, n, sort)];
    }
  }
}
