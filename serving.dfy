/**
 * The web views (app.py): what a search request asks of Lucene, how a stored
 * hit is turned into the dict the templates show, and the two-query flow of
 * the post page. Routing and rendering stay out; each view returns the data
 * it would hand to its template.
 */
module Serving {
  import opened Wrappers
  import opened Lucene
  import Python

  /** A value of a serialized hit: `None`, an `int` or a `str`. */
  datatype OutValue = Null | IntVal(value: int) | StrVal(text: string)

  /** The keys of the dict `document_to_json_serializable` returns. */
  datatype OutKey =
    | Title | Text | Author | Subreddit | LinkedPageTitle | PostId | Type | PostUrl | Timestamp
    | Score | NumComments

  /** The key as written in the dict, and as the stored field it is read from. */
  function KeyName(k: OutKey): string
  {
    match k
    case Title => "title"
    case Text => "text"
    case Author => "author"
    case Subreddit => "subreddit"
    case LinkedPageTitle => "linked_page_title"
    case PostId => "post_id"
    case Type => "type"
    case PostUrl => "post_url"
    case Timestamp => "timestamp"
    case Score => "score"
    case NumComments => "num_comments"
  }

  const OUTPUT_KEYS: set<OutKey> :=
    {Title, Text, Author, Subreddit, LinkedPageTitle, PostId, Type, PostUrl, Timestamp, Score, NumComments}

  /** The keys copied as they are: all but the two counts. */
  predicate IsTextKey(k: OutKey)
  {
    k != Score && k != NumComments
  }

  /** The dict `document_to_json_serializable` returns. */
  type Output = map<OutKey, OutValue>

  /** `doc.get(key)` as an output value. */
  function Get(doc: StoredDoc, key: string): OutValue
  {
    if key in doc then StrVal(doc[key].text) else Null
  }

  /** `int(v)`, falling back to the raw string when it raises ValueError. */
  function IntOrRaw(v: Python.PyStr): OutValue
  {
    match v.asInt
    case Some(i) => IntVal(i)
    case None => StrVal(v.text)
  }

  /** The `score` entry: None when absent, the integer when it parses, else the raw string unchanged. */
  function ScoreValue(doc: StoredDoc): (r: OutValue)
    ensures r.Null? <==> "score" !in doc
    ensures r.IntVal? <==> "score" in doc && doc["score"].asInt.Some?
    ensures r.IntVal? ==> r.value == doc["score"].asInt.value
    ensures r.StrVal? ==> r.text == doc["score"].text
  {
    if "score" in doc then IntOrRaw(doc["score"]) else Null
  }

  /**
   * The `num_comments` entry: None when absent, the integer when it parses;
   * otherwise the `comments` value (as an integer, or raw) when there is
   * one, else the raw `num_comments` string.
   */
  function NumCommentsValue(doc: StoredDoc): (r: OutValue)
    ensures r.Null? <==> "num_comments" !in doc
    ensures "num_comments" in doc && doc["num_comments"].asInt.Some? ==> r == IntVal(doc["num_comments"].asInt.value)
    ensures "num_comments" in doc && doc["num_comments"].asInt.None? && "comments" in doc ==>
      r == (if doc["comments"].asInt.Some? then IntVal(doc["comments"].asInt.value) else StrVal(doc["comments"].text))
    ensures "num_comments" in doc && doc["num_comments"].asInt.None? && "comments" !in doc ==>
      r == StrVal(doc["num_comments"].text)
  {
    if "num_comments" !in doc then Null
    else match doc["num_comments"].asInt
      case Some(n) => IntVal(n)
      case None =>
        if "comments" in doc then IntOrRaw(doc["comments"]) else StrVal(doc["num_comments"].text)
  }

  /** The dict literal `document_to_json_serializable` starts from: text keys copied, counts None. */
  function InitialData(doc: StoredDoc): Output
  {
    map[
      Title := Get(doc, "title"),
      Text := Get(doc, "text"),
      Author := Get(doc, "author"),
      Subreddit := Get(doc, "subreddit"),
      LinkedPageTitle := Get(doc, "linked_page_title"),
      PostId := Get(doc, "post_id"),
      Type := Get(doc, "type"),
      PostUrl := Get(doc, "post_url"),
      Timestamp := Get(doc, "timestamp"),
      Score := Null,
      NumComments := Null
    ]
  }

  /** `document_to_json_serializable`, as the value it returns: its two counts are the coerced values. */
  function Serialize(doc: StoredDoc): (r: Output)
    ensures Score in r && r[Score] == ScoreValue(doc)
    ensures NumComments in r && r[NumComments] == NumCommentsValue(doc)
  {
    InitialData(doc)[Score := ScoreValue(doc)][NumComments := NumCommentsValue(doc)]
  }

  /** A serialized hit has exactly the eleven keys: nine copied text keys, then the two counts. */
  lemma SerializeKeys(doc: StoredDoc)
    ensures Serialize(doc).Keys == OUTPUT_KEYS
  {
  }

  /** Its text keys are copied unchanged from the stored document, None when it lacks them. */
  lemma SerializeText(doc: StoredDoc, k: OutKey)
    requires IsTextKey(k)
    ensures Serialize(doc)[k] == (if KeyName(k) in doc then StrVal(doc[KeyName(k)].text) else Null)
  {
  }

  /**
   * The alternate `comments` key matters only when `num_comments` is present
   * and does not parse: two hits that differ at most in `comments` serialize
   * alike otherwise.
   */
  lemma CommentsOnlyOnFallback(d1: StoredDoc, d2: StoredDoc)
    requires forall k :: k != "comments" ==> (k in d1 <==> k in d2) && (k in d1 ==> d1[k] == d2[k])
    requires "num_comments" !in d1 || d1["num_comments"].asInt.Some?
    ensures Serialize(d1) == Serialize(d2)
  {
    forall k | k != "comments"
      ensures Get(d1, k) == Get(d2, k)
    {
    }
    assert InitialData(d1) == InitialData(d2);
    assert ScoreValue(d1) == ScoreValue(d2);
  }

  /** `document_to_json_serializable`: the dict of copied keys, then `score` and `num_comments` overwritten in place. */
  method DocumentToJson(doc: StoredDoc) returns (data: Output)
    ensures data == Serialize(doc)
  {
    data := map[
      Title := Get(doc, "title"),
      Text := Get(doc, "text"),
      Author := Get(doc, "author"),
      Subreddit := Get(doc, "subreddit"),
      LinkedPageTitle := Get(doc, "linked_page_title"),
      PostId := Get(doc, "post_id"),
      Type := Get(doc, "type"),
      PostUrl := Get(doc, "post_url"),
      Timestamp := Get(doc, "timestamp"),
      Score := Null,
      NumComments := Null
    ];
    ghost var initial := data;
    assert initial == InitialData(doc);
    if "score" in doc {
      var scoreVal := doc["score"];
      match scoreVal.asInt {
        case Some(i) => data := data[Score := IntVal(i)];
        case None => data := data[Score := StrVal(scoreVal.text)];
      }
    }
    assert data == initial[Score := ScoreValue(doc)];
    ghost var scored := data;
    if "num_comments" in doc {
      var numCommentsVal := doc["num_comments"];
      match numCommentsVal.asInt {
        case Some(n) => data := data[NumComments := IntVal(n)];
        case None =>
          if "comments" in doc {
            var altCommentsVal := doc["comments"];
            match altCommentsVal.asInt {
              case Some(n) => data := data[NumComments := IntVal(n)];
              case None => data := data[NumComments := StrVal(altCommentsVal.text)];
            }
          } else {
            data := data[NumComments := StrVal(numCommentsVal.text)];
          }
      }
    }
    assert data == scored[NumComments := NumCommentsValue(doc)];
  }

  /** Every hit serialized, in hit order. */
  function SerializeAll(docs: seq<StoredDoc>): (r: seq<Output>)
    ensures |r| == |docs|
    ensures forall k | 0 <= k < |docs| :: r[k] == Serialize(docs[k])
  {
    if docs == [] then [] else [Serialize(docs[0])] + SerializeAll(docs[1..])
  }

  /** The loop that appends each hit's dict to the list the template shows. */
  method SerializeHits(hits: seq<StoredDoc>) returns (results: seq<Output>)
    ensures results == SerializeAll(hits)
  {
    results := [];
    var i := 0;
    while i < |hits|
      invariant 0 <= i <= |hits|
      invariant |results| == i
      invariant forall k | 0 <= k < i :: results[k] == Serialize(hits[k])
    {
      var data := DocumentToJson(hits[i]);
      results := results + [data];
      i := i + 1;
    }
  }

  /** The search form, each field read with its default (`request.form.get(name, default)`). */
  datatype SearchForm = SearchForm(query: string, sortField: string, sortOrder: string, typeField: string, redditField: string)

  function FormGet(form: map<string, string>, name: string, default: string): string
  {
    if name in form then form[name] else default
  }

  function ReadSearchForm(form: map<string, string>): (f: SearchForm)
    ensures "query" !in form ==> f.query == ""
    ensures "sort_field" !in form ==> f.sortField == "relevance"
    ensures "sort_order" !in form ==> f.sortOrder == "desc"
    ensures "type_field" !in form ==> f.typeField == "posts"
    ensures "reddit_field" !in form ==> f.redditField == "ucr"
    ensures "query" in form ==> f.query == form["query"]
    ensures "sort_field" in form ==> f.sortField == form["sort_field"]
    ensures "sort_order" in form ==> f.sortOrder == form["sort_order"]
    ensures "type_field" in form ==> f.typeField == form["type_field"]
    ensures "reddit_field" in form ==> f.redditField == form["reddit_field"]
  {
    SearchForm(
      FormGet(form, "query", ""),
      FormGet(form, "sort_field", "relevance"),
      FormGet(form, "sort_order", "desc"),
      FormGet(form, "type_field", "posts"),
      FormGet(form, "reddit_field", "ucr"))
  }

  /** The number of hits a search asks for. */
  const SEARCH_LIMIT: nat := 10

  /** The `type` value searched for: posts for "posts", comments for anything else. */
  function TypeTerm(typeField: string): string
  {
    if typeField == "posts" then "post" else "comment"
  }

  /**
   * The query of a search: the parsed text, the type filter and, unless the
   * subreddit field is exactly "all", the subreddit filter; every clause MUST
   * match.
   */
  function SearchQuery(escaped: string, typeField: string, redditField: string): (q: Query)
    ensures Conjunctive(q)
    ensures |q.clauses| == (if redditField == "all" then 2 else 3)
    ensures q.clauses[0].query == Parsed("text", escaped)
    ensures q.clauses[1].query == Term("type", if typeField == "posts" then "post" else "comment")
    ensures |q.clauses| == 3 ==> q.clauses[2].query == Term("subreddit", redditField)
  {
    var base := [BooleanClause(Parsed("text", escaped), Must), BooleanClause(Term("type", TypeTerm(typeField)), Must)];
    BooleanQuery(if redditField != "all" then base + [BooleanClause(Term("subreddit", redditField), Must)] else base)
  }

  /**
   * The sort of a search: by timestamp as a string, by score or comment count
   * as an integer, descending exactly when the order is "desc"; relevance for
   * any other sort field, whatever the order.
   */
  function SearchSort(sortField: string, sortOrder: string): (s: Sort)
    ensures sortField == "timestamp" ==> s == ByField("timestamp", STRING, sortOrder == "desc")
    ensures sortField == "score" || sortField == "num_comments" ==> s == ByField(sortField, INT, sortOrder == "desc")
    ensures sortField != "timestamp" && sortField != "score" && sortField != "num_comments" ==> s == Relevance
  {
    var isReverse := sortOrder == "desc";
    if sortField == "timestamp" then ByField("timestamp", STRING, isReverse)
    else if sortField == "score" then ByField("score", INT, isReverse)
    else if sortField == "num_comments" then ByField("num_comments", INT, isReverse)
    else Relevance
  }

  /**
   * `QueryParser`, as far as the views see it: `escape` and whether parsing
   * the escaped text raises, with the exception's message.
   */
  datatype QueryParser = QueryParser(escape: string -> string, parseError: string -> Option<string>)

  /** What a search form asks for: nothing, a query that fails to parse, or one search call. */
  datatype Request = NoQuery | ParseFailed(message: string) | Run(call: SearchCall)

  function SearchRequest(parser: QueryParser, f: SearchForm): (r: Request)
    ensures r.NoQuery? <==> f.query == ""
    ensures r.ParseFailed? <==> f.query != "" && parser.parseError(parser.escape(f.query)).Some?
    ensures r.ParseFailed? ==> r.message == parser.parseError(parser.escape(f.query)).value
    ensures r.Run? ==>
      && r.call.query == SearchQuery(parser.escape(f.query), f.typeField, f.redditField)
      && r.call.n == SEARCH_LIMIT
      && r.call.sort == Some(SearchSort(f.sortField, f.sortOrder))
  {
    if f.query == "" then NoQuery
    else
      var escaped := parser.escape(f.query);
      match parser.parseError(escaped)
      case Some(e) => ParseFailed(e)
      case None => Run(SearchCall(SearchQuery(escaped, f.typeField, f.redditField), SEARCH_LIMIT, Some(SearchSort(f.sortField, f.sortOrder))))
  }

  /**
   * With only a query filled in, the defaults search posts of subreddit "ucr"
   * by relevance: the default subreddit is not "all", so it filters.
   */
  lemma DefaultSearch(parser: QueryParser, q: string)
    requires q != "" && parser.parseError(parser.escape(q)).None?
    ensures var r := SearchRequest(parser, ReadSearchForm(map["query" := q]));
      && r.Run?
      && r.call.query.clauses == [
           BooleanClause(Parsed("text", parser.escape(q)), Must),
           BooleanClause(Term("type", "post"), Must),
           BooleanClause(Term("subreddit", "ucr"), Must)]
      && r.call.sort == Some(Relevance)
  {
    var f := ReadSearchForm(map["query" := q]);
    assert f == SearchForm(q, "relevance", "desc", "posts", "ucr");
  }

  /** The data a view hands to its template, or an error response. */
  datatype Page =
    | ServerError(message: string, status: nat)
    | ResultsPage(query: string, results: seq<Output>, count: nat, error: Option<string>,
                  sortField: string, sortOrder: string, typeField: string, redditField: Option<string>)
    | PostPage(post: Option<Output>, comments: seq<Output>, error: Option<string>)

  /** The builder calls of `search_results_view`. */
  method BuildSearchQuery(escaped: string, typeField: string, redditField: string) returns (q: Query)
    ensures q == SearchQuery(escaped, typeField, redditField)
  {
    var builder := new BooleanQueryBuilder();
    builder.Add(Parsed("text", escaped), Must);
    if typeField == "posts" {
      builder.Add(Term("type", "post"), Must);
    } else {
      builder.Add(Term("type", "comment"), Must);
    }
    if redditField != "all" {
      builder.Add(Term("subreddit", redditField), Must);
    }
    q := builder.Build();
  }

  /**
   * `search_results_view`: 500 without a searcher or analyzer; no search for
   * an empty query; the parse error reported; otherwise one search of at most
   * ten hits, each serialized, with `count` their number.
   */
  method SearchResultsView(searcher: IndexSearcher?, analyzerReady: bool, parser: QueryParser, form: map<string, string>)
    returns (page: Page)
    modifies searcher
    ensures searcher == null || !analyzerReady ==>
      page == ServerError("Lucene not initialized. Please check server logs.", 500)
    ensures searcher != null && !analyzerReady ==> searcher.calls == old(searcher.calls)
    ensures searcher != null && analyzerReady ==>
      var f := ReadSearchForm(form);
      match SearchRequest(parser, f)
      case NoQuery =>
        && page == ResultsPage(f.query, [], 0, Some("Please enter a search query."),
                               f.sortField, f.sortOrder, f.typeField, Some(f.redditField))
        && searcher.calls == old(searcher.calls)
      case ParseFailed(e) =>
        && page == ResultsPage(f.query, [], 0, Some("An error occurred during the search: " + e),
                               f.sortField, f.sortOrder, f.typeField, None)
        && searcher.calls == old(searcher.calls)
      case Run(call) =>
        var hits := TopN(searcher.ranked(call.query, call.sort), call.n);
        && page == ResultsPage(f.query, SerializeAll(hits), |hits|, None, f.sortField, f.sortOrder, f.typeField, None)
        && searcher.calls == old(searcher.calls) + [call]
    ensures page.ResultsPage? ==> page.count == |page.results| <= SEARCH_LIMIT
  {
    if searcher == null || !analyzerReady {
      return ServerError("Lucene not initialized. Please check server logs.", 500);
    }
    var f := ReadSearchForm(form);
    if f.query == "" {
      return ResultsPage(f.query, [], 0, Some("Please enter a search query."),
                         f.sortField, f.sortOrder, f.typeField, Some(f.redditField));
    }
    var escaped := parser.escape(f.query);
    var parseError := parser.parseError(escaped);
    if parseError.Some? {
      return ResultsPage(f.query, [], 0, Some("An error occurred during the search: " + parseError.value),
                         f.sortField, f.sortOrder, f.typeField, None);
    }
    var finalQuery := BuildSearchQuery(escaped, f.typeField, f.redditField);
    var luceneSort := SearchSort(f.sortField, f.sortOrder);
    var scoreDocs := searcher.Search(finalQuery, SEARCH_LIMIT, Some(luceneSort));
    var count := |scoreDocs|;
    var results := SerializeHits(scoreDocs);
    page := ResultsPage(f.query, results, count, None, f.sortField, f.sortOrder, f.typeField, None);
  }

  /** The query for documents with this post id and this `type`: both terms MUST match. */
  function PostIdQuery(postId: string, typeValue: string): (q: Query)
    ensures Conjunctive(q)
    ensures |q.clauses| == 2
    ensures q.clauses[0].query == Term("post_id", postId) && q.clauses[1].query == Term("type", typeValue)
  {
    BooleanQuery([BooleanClause(Term("post_id", postId), Must), BooleanClause(Term("type", typeValue), Must)])
  }

  /** The builder calls of `post_detail_view`, for the post and for its comments. */
  method BuildPostIdQuery(postId: string, typeValue: string) returns (q: Query)
    ensures q == PostIdQuery(postId, typeValue)
  {
    var builder := new BooleanQueryBuilder();
    builder.Add(Term("post_id", postId), Must);
    builder.Add(Term("type", typeValue), Must);
    q := builder.Build();
  }

  /** How many comments the post page asks for. */
  const COMMENT_LIMIT: nat := 100

  /** Comments oldest first: timestamp as a string, ascending. */
  const COMMENT_SORT: Sort := ByField("timestamp", STRING, false)

  /**
   * `post_detail_view`: 500 without a searcher or analyzer; one search for the
   * post (at most one hit, no sort); when there is none, the not-found page
   * and no second search; otherwise the post and up to a hundred of its
   * comments, oldest first.
   */
  method PostDetailView(searcher: IndexSearcher?, analyzerReady: bool, postId: string) returns (page: Page)
    modifies searcher
    ensures searcher == null || !analyzerReady ==> page == ServerError("Lucene not initialized.", 500)
    ensures searcher != null && !analyzerReady ==> searcher.calls == old(searcher.calls)
    ensures searcher != null && analyzerReady ==>
      var postCall := SearchCall(PostIdQuery(postId, "post"), 1, None);
      var posts := TopN(searcher.ranked(postCall.query, postCall.sort), 1);
      var commentCall := SearchCall(PostIdQuery(postId, "comment"), COMMENT_LIMIT, Some(COMMENT_SORT));
      if posts == [] then
        && page == PostPage(None, [], Some("Post with ID '" + postId + "' not found."))
        && searcher.calls == old(searcher.calls) + [postCall]
      else
        && page == PostPage(Some(Serialize(posts[0])),
                            SerializeAll(TopN(searcher.ranked(commentCall.query, commentCall.sort), COMMENT_LIMIT)), None)
        && searcher.calls == old(searcher.calls) + [postCall, commentCall]
  {
    if searcher == null || !analyzerReady {
      return ServerError("Lucene not initialized.", 500);
    }
    var postQuery := BuildPostIdQuery(postId, "post");
    var topDocsPost := searcher.Search(postQuery, 1, None);
    if topDocsPost == [] {
      return PostPage(None, [], Some("Post with ID '" + postId + "' not found."));
    }
    var postData := DocumentToJson(topDocsPost[0]);
    var commentsQuery := BuildPostIdQuery(postId, "comment");
    var topDocsComments := searcher.Search(commentsQuery, COMMENT_LIMIT, Some(COMMENT_SORT));
    var commentsData := SerializeHits(topDocsComments);
    page := PostPage(Some(postData), commentsData, None);
  }
}
