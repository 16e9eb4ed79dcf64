# Reddit search engine on Lucene — a Dafny model of its own logic

The repository indexes crawled Reddit posts and comments (JSON Lines files) with
Apache Lucene and serves a small Flask search site over the index. Lucene does
the analysis, inverted index, scoring and sorting; what the repository itself
decides is the layer around those calls, and that layer is modelled here:

- **Record → document assembly** (`index.py`, module `Indexing`). A table maps
  each of eleven record keys to one of four handlers (text, string, integer,
  timestamp); any other key is handled as text. Each handler adds a fixed list
  of typed Lucene fields. Every document starts with the `filename` and
  `filepath` string fields. `indexDocs` walks the corpus, reads each `.json`
  file, decodes its non-blank lines, and appends one document per record to a
  writer opened in CREATE mode. Errors are caught per file. The class
  `IndexFiles` keeps the source's shape: its handler methods append to a
  `Document`, and its loops append to an `IndexWriter`. Each method is proved
  against a specification function (`HandlerFields`, `EntryFields`,
  `BuildDocument`, `FileDocs`, `DirDocs`, `WalkDocs`), and the lemmas about
  those functions state what indexing promises.
- **Query and sort composition** (`app.py`, module `Serving`). The search form,
  read with its defaults, becomes one search call: a conjunctive Boolean query,
  a sort and a limit of 10. The post page issues two fixed queries.
- **Stored document → output coercion** (`app.py:63-97`). Nine text keys are
  copied. `score` and `num_comments` are converted with `int()` and fall back
  to the raw string. `num_comments` has a second fallback to an alternate
  `comments` key.

Lucene objects (`Field`, `Document`, `IndexWriter`, `BooleanQuery.Builder`,
`Sort`, `IndexSearcher`) are in module `Lucene`. They are plain values or small
classes that record what the code asks Lucene to build. A searcher is a
function from a query and a sort to the ranked stored documents that match; a
ghost log records every search asked of it.

Python's `json.loads`, `str()` and `int()` are in module `Python`. They are
abstract: each value carries the outcome they give for it. So every property
proved here holds whatever those outcomes are. `int()` in the indexer has three
outcomes:

- a value;
- ValueError/TypeError, which the integer handler catches;
- any other exception, such as OverflowError for JSON `Infinity`. It escapes
  the handler and ends the file's `try` block, so the documents already
  appended stay and the rest of the file is skipped.

An integer value that `int()` rejects adds no field at all: the handler only
prints a warning (`index.py:76-83`), and there is no fallback to storing the
raw string. `HandlerFieldsShape` proves this: on `IntRejected` the integer
handler adds nothing, and it never adds a textual field.

`lucene_sort` is always a truthy `Sort` object. So the two-argument search
branch (`app.py:187-188`) is never taken, and the model has no counterpart
for it. The results page after a search passes no `reddit_field` to its
template (`app.py:204-213`), unlike the empty-query page; the model records
that as `None`.

## Model

| member | source | states |
|---|---|---|
| Indexing.HandlerFields | index.py:69-88 | a handler's fields are absent (the handler raises) exactly when it is the integer handler and `int()` raises something other than ValueError/TypeError; otherwise it adds at most three fields |
| Indexing.HandlerFieldsShape | index.py:69-88 | every field carries the key's name (at most three); text adds exactly one stored TextField of `str(value)` iff that is non-empty, else nothing; string adds exactly one StringField; integer adds IntPoint, StoredField and NumericDocValues with the same parsed integer, nothing when `int()` rejects the value, and never a textual field; timestamp adds a stored string and a SortedDocValues of the same `str(value)` |
| Indexing.EntryFields | index.py:120-131 | a `None` value adds nothing; a key of the table gets its registered handler; any other key is handled exactly as a text field |
| Indexing.EntriesFieldsRaises | index.py:120-135 | building a record's fields raises iff the handler of one of its pairs raises |
| Indexing.EntriesAppend | index.py:120-131 | pairs are processed in key order: the fields of `a + b` are those of `a` followed by those of `b`, and an exception in `a` wins |
| Indexing.EntriesFields | index.py:120-131 | a record of n pairs that does not raise adds at most 3n fields |
| Indexing.PrefixRaises | index.py:120-135 | once the pairs up to some point raise, the whole record raises |
| Indexing.NonNullEntries | index.py:120-122 | a pair is kept iff it is a pair of the record whose value is not `None` |
| Indexing.NonNullEntriesAppend | index.py:120-122 | dropping the `None` pairs keeps key order: over `a + b` it is that of `a` followed by that of `b` |
| Indexing.NullEntriesContributeNothing | index.py:120-122 | dropping every pair whose value is `None` changes neither the fields nor whether the record raises |
| Indexing.BuildDocument | index.py:115-131 | a line yields a document iff it decoded to an object whose pairs do not raise; the document is `filename` then `filepath` string fields, then exactly the pairs' fields |
| Indexing.NonBlankLines | index.py:67 | the kept lines are no more than the file's lines |
| Indexing.NonBlankLinesMembers | index.py:67 | exactly the lines that are not all whitespace are kept |
| Indexing.NonBlankLinesAppend | index.py:67 | blank-line removal keeps line order: over `a + b` it is that of `a` followed by that of `b` |
| Indexing.ParseJson | index.py:67 | a parsed file has one record per non-blank line |
| Indexing.ParseJsonDecodesEachLine | index.py:67 | parsing succeeds iff every non-blank line decodes, and the k-th record is the decoding of the k-th non-blank line |
| Indexing.RecordDocs | index.py:115-135 | a file never yields more documents than records |
| Indexing.RecordDocsStopsAtFirstFailure | index.py:115-135 | the documents are those of the records before the first one whose building raises, each built from its own record, in order |
| Indexing.RecordDocsUnique | index.py:115-135 | any sequence of built documents that stops at the first failure is the one the file yields (the reference the loop is proved against) |
| Indexing.FileDocs | index.py:107-114 | a file whose name does not end in `.json`, or that cannot be read, contributes nothing |
| Indexing.DirDocs | index.py:107-109 | a directory none of whose file names ends in `.json` contributes no document |
| Indexing.WalkDocs | index.py:105-109 | a walk with no `.json` file anywhere indexes no document |
| Indexing.DirDocsAppend | index.py:107-135 | files are indexed in listing order: the documents of `a + b` are those of `a` followed by those of `b` |
| Indexing.FileIsolation | index.py:111-135 | each file contributes exactly its own documents, whatever the files before and after it contain |
| Indexing.MalformedFileContributesNothing | index.py:111-135 | one non-blank line that `json.loads` rejects means no document at all from that file |
| Indexing.WellFormedFileOneDocPerLine | index.py:113-133 | a readable `.json` file whose non-blank lines all decode and build yields one document per non-blank line, in line order, each built from its own line |
| Indexing.FileDocsProvenance | index.py:116-118 | every document of a file starts with that file's `filename` and `filepath` fields, and the file is a `.json` file |
| Indexing.DirDocsProvenance | index.py:106-118 | every document of a directory starts with the provenance of one of its `.json` files |
| Indexing.WalkDocsProvenance | index.py:105-118 | every indexed document starts with the provenance of a `.json` file of the walk |
| Indexing.IndexFiles.constructor | index.py:44-57 | after construction the handler table is installed, and the freshly created writer holds exactly the walk's documents and nothing else |
| Indexing.IndexFiles.InitializeFieldHandlers | index.py:90-103 | installs the eleven-key handler table |
| Indexing.IndexFiles.HandleTextField | index.py:69-71 | appends the text handler's fields to the document |
| Indexing.IndexFiles.HandleStringField | index.py:73-74 | appends the string handler's single field to the document |
| Indexing.IndexFiles.HandleIntegerField | index.py:76-83 | raises iff `int()` raises an uncaught exception, leaving the document unchanged; otherwise appends the integer handler's fields |
| Indexing.IndexFiles.HandleTimestampIsoField | index.py:85-88 | appends the stored string and the sorted doc-values field of `str(value)` |
| Indexing.IndexFiles.ApplyHandler | index.py:124-126 | calling the dispatched handler appends its fields, or raises exactly when that handler raises, leaving the document unchanged |
| Indexing.IndexFiles.AddEntry | index.py:120-131 | one pair appends what EntryFields specifies, or raises exactly when EntryFields has none, leaving the document unchanged |
| Indexing.IndexFiles.BuildRecordDocument | index.py:115-131 | the loop over the record's pairs yields a fresh document equal to BuildDocument, or reports the raise exactly when BuildDocument has none |
| Indexing.IndexFiles.IndexFile | index.py:107-135 | the writer gains exactly the file's documents, appended after what it held |
| Indexing.IndexFiles.IndexDirectory | index.py:107-135 | the writer gains exactly the directory's documents, in listing order |
| Indexing.IndexFiles.IndexDocs | index.py:105-135 | the writer gains exactly the walk's documents, in walk order |
| Lucene.Document.Add | index.py:116-118 | `doc.add` appends one field at the end |
| Lucene.IndexWriter.Create | index.py:51-53 | a writer opened in CREATE mode holds no documents |
| Lucene.IndexWriter.AddDocument | index.py:133 | `addDocument` only appends the document; nothing earlier changes |
| Lucene.BooleanQueryBuilder.Add | app.py:160-166 | each `add` appends one clause with its occurrence |
| Lucene.BooleanQueryBuilder.Build | app.py:166 | the built query holds the accumulated clauses in order |
| Lucene.TopN | app.py:186 | at most `n` hits, a prefix of the ranking, and fewer only when the ranking is shorter |
| Lucene.IndexSearcher.Search | app.py:186 | a search returns the top `n` of the ranking for the query and sort, and is logged |
| Serving.ScoreValue | app.py:77-82 | `score` is None iff absent, the integer iff it parses, otherwise the raw string unchanged |
| Serving.NumCommentsValue | app.py:84-96 | `num_comments` is None iff absent and the integer when it parses; if it does not parse, it is `int(comments)` or the raw `comments` when that key exists, else the raw `num_comments` |
| Serving.Serialize | app.py:63-97 | the output's `score` and `num_comments` entries are the coerced values ScoreValue and NumCommentsValue |
| Serving.SerializeKeys | app.py:64-76 | the output has exactly the eleven keys |
| Serving.SerializeText | app.py:64-73 | each of the nine text keys is copied unchanged from the stored document, None when missing |
| Serving.CommentsOnlyOnFallback | app.py:84-96 | the `comments` key changes the output only when `num_comments` is present and does not parse |
| Serving.DocumentToJson | app.py:63-97 | building the dict and overwriting its two counts in place yields Serialize of the stored document |
| Serving.SerializeAll | app.py:193-195 | one output per hit, the k-th being the k-th hit serialized |
| Serving.SerializeHits | app.py:193-195 | the result loop yields every hit serialized, in hit order |
| Serving.ReadSearchForm | app.py:123-127 | each form field is its submitted value, or its default: query "", sort "relevance", order "desc", type "posts", subreddit "ucr" |
| Serving.SearchQuery | app.py:152-166 | every clause is MUST; the parsed text clause and a `type` term always, the type `post` iff the type field is "posts" and `comment` otherwise; a third `subreddit` term iff the subreddit field is not exactly "all" |
| Serving.SearchSort | app.py:168-182 | timestamp gives a STRING sort, score and num_comments an INT sort, each descending iff the order is "desc"; any other field gives relevance whatever the order |
| Serving.SearchRequest | app.py:129-186 | an empty query asks for no search; a parse error is reported with its message; otherwise exactly one search of the composed query, limit 10 and the selected sort |
| Serving.DefaultSearch | app.py:123-186 | with only a query given, the search is over posts of subreddit "ucr" (the default is not "all") by relevance |
| Serving.BuildSearchQuery | app.py:152-166 | the builder calls produce SearchQuery |
| Serving.SearchResultsView | app.py:115-213 | 500 without searcher or analyzer, and then no search is issued; the empty-query page with its fixed message and no search; the parse-error page; otherwise one logged search whose hits are all serialized, with `count` their number and at most 10 |
| Serving.PostIdQuery | app.py:229-235 | a two-clause conjunction of the `post_id` term and the `type` term |
| Serving.BuildPostIdQuery | app.py:232-253 | the builder calls produce PostIdQuery |
| Serving.PostDetailView | app.py:216-262 | 500 without searcher or analyzer, and then no search is issued; a post search with limit 1 and no sort; no hit gives the not-found page and no comment search; otherwise the post plus up to 100 of its comments sorted by timestamp ascending, with both searches logged |

## Left out

- Lucene itself is not modelled beyond the objects the code builds. This covers `StandardAnalyzer` tokenisation, the `LimitTokenCountAnalyzer` cap of 1000000 tokens (`index.py:50`), inverted-index construction, scoring, and the execution and sorting of `searcher.search`. The searcher's ranking is a parameter.
- `QueryParser.escape` and `parse` have a grammar that is not modelled. A query parser is a pair of functions: the escape, and whether parsing raises (with its message).
- The grammar of `json.loads`, `str()` and `int()` is not modelled. Each value carries its outcome; the proved properties hold for any outcomes.
- Duplicate keys in a JSON object are not modelled: a record's pairs are the items of the decoded dict, in order.
- JVM initialisation, `attachCurrentThread`, the `Ticker` thread, the indexing thread, `writer.commit`/`close`, `makedirs` and the opening of the store directory are left out. They are concurrency and I/O.
- Directory walking and file reading are inputs: a walk is a list of directories with their files, and a file is its name and its lines, or None when it cannot be opened or read.
- Console output (`print`) is not modelled.
- Flask routing and `render_template` are left out. Each view returns the data it passes to its template. The `/` home route only forwards defaults to a template and is not modelled.
- `search.py` is not part of this model. It is an interactive stdin loop over the same library calls, with a plain key projection for output.
- Lucene.IndexWriter.AddDocument: Lucene's rejection of a document at `addDocument` (`index.py:133`) is not modelled; every built document is accepted. Lucene 9 refuses, for example, a document whose fields of one name disagree in index options with each other or with the index's earlier documents: a record key `filename` or `filepath` goes to the text handler and clashes with the provenance StringField. It also refuses a string term or sorted doc value longer than 32766 bytes. In the source such a rejection ends the file's `try` block (`index.py:134-135`), like an `int()` exception.
- Indexing.FileDocs: assumes Lucene accepts every built document, so a file whose record Lucene would reject counts every record that builds, where the source keeps only the documents before that record.
- Indexing.WellFormedFileOneDocPerLine: one document per non-blank line holds only under that same assumption of acceptance.
- Indexing.IndexFiles.IndexFile: appends FileDocs, so it inherits that same assumption of acceptance.
- Indexing.IndexFiles.HandleIntegerField: a Python integer outside Java's 32-bit `int` range is not modelled on its own. It is covered only as an `int()` outcome that raises and aborts the file.
- Serving.SearchResultsView: an exception from `searcher.search` or `storedFields().document` (`app.py:197-202`) is not modelled; only the parse-error path of the `try` block is.
- Serving.PostDetailView: an exception inside the `try` block (`app.py:264-266`) is not modelled.
