/**
 * The indexer (index.py): every record of every `.json` file under the corpus
 * root becomes one Lucene document, assembled field by field through a table of
 * per-key handlers, and is appended to a writer opened in CREATE mode.
 */
module Indexing {
  import opened Wrappers
  import opened Lucene
  import opened Python

  /** The four handlers a key can be dispatched to. */
  datatype Handler = TextHandler | StringHandler | IntegerHandler | TimestampHandler

  /** The table `_initialize_field_handlers` installs. */
  const FIELD_HANDLERS: map<string, Handler> := map[
    "title" := TextHandler,
    "text" := TextHandler,
    "author" := TextHandler,
    "subreddit" := TextHandler,
    "linked_page_title" := TextHandler,
    "post_id" := StringHandler,
    "type" := StringHandler,
    "post_url" := StringHandler,
    "timestamp" := TimestampHandler,
    "score" := IntegerHandler,
    "num_comments" := IntegerHandler
  ]

  /** The handler a key ends up with: its registered one, otherwise the generic text handler. */
  function HandlerFor(key: string): Handler
  {
    if key in FIELD_HANDLERS then FIELD_HANDLERS[key] else TextHandler
  }

  /** The fields a handler adds for `key: value`; None when the handler raises. */
  function HandlerFields(h: Handler, key: string, value: Json): (r: Option<seq<Field>>)
    ensures r.None? <==> h == IntegerHandler && Int(value) == IntRaises
    ensures r.Some? ==> |r.value| <= 3
  {
    match h
    case TextHandler =>
      Some(if Str(value) != "" then [TextField(key, Str(value))] else [])
    case StringHandler =>
      Some([StringField(key, Str(value))])
    case IntegerHandler =>
      (match Int(value)
       case IntOk(i) => Some([IntPoint(key, i), StoredInt(key, i), NumericDV(key, i)])
       case IntRejected => Some([])
       case IntRaises => None)
    case TimestampHandler =>
      var ts := Str(value);
      Some([StoredStr(key, ts), SortedDV(key, ts)])
  }

  /**
   * What each handler stores: every field carries the key's name; text is
   * indexed only when non-empty; a string is stored verbatim; an integer is
   * indexed, stored and made sortable, or dropped when `int()` rejects it,
   * never stored as text; a timestamp is stored and made sortable as the same
   * string.
   */
  lemma HandlerFieldsShape(h: Handler, key: string, value: Json)
    ensures var r := HandlerFields(h, key, value);
      && (r.Some? ==> |r.value| <= 3 && forall f <- r.value :: f.name == key)
      && (h == TextHandler ==>
            && (r.value == [] <==> Str(value) == "")
            && |r.value| <= 1
            && forall f <- r.value :: f == TextField(key, Str(value)))
      && (h == StringHandler ==> r.value == [StringField(key, Str(value))])
      && (h == IntegerHandler && Int(value).IntOk? ==>
            var i := Int(value).value;
            r.value == [IntPoint(key, i), StoredInt(key, i), NumericDV(key, i)])
      && (h == IntegerHandler && Int(value).IntRejected? ==> r.value == [])
      && (h == IntegerHandler && r.Some? ==> forall f <- r.value :: !f.TextField? && !f.StringField? && !f.StoredStr?)
      && (h == TimestampHandler ==>
            |r.value| == 2 && r.value[0].StoredStr? && r.value[1].SortedDV? && r.value[0].text == r.value[1].text == Str(value))
  {
  }

  /**
   * What one `key: value` pair of a record adds: nothing for `null`;
   * otherwise what the key's registered handler adds, and for a key the
   * table lacks, exactly what the text handler adds.
   */
  function EntryFields(key: string, value: Json): (r: Option<seq<Field>>)
    ensures value.Null? ==> r == Some([])
    ensures !value.Null? && key in FIELD_HANDLERS ==> r == HandlerFields(FIELD_HANDLERS[key], key, value)
    ensures !value.Null? && key !in FIELD_HANDLERS ==> r == HandlerFields(TextHandler, key, value)
  {
    if value.Null? then Some([]) else HandlerFields(HandlerFor(key), key, value)
  }

  /** Sequencing of two steps that may raise: the first exception wins, otherwise the fields concatenate. */
  function Then(a: Option<seq<Field>>, b: Option<seq<Field>>): Option<seq<Field>>
  {
    if a.None? || b.None? then None else Some(a.value + b.value)
  }

  /**
   * The fields added for the pairs of a record, in key order; None when some
   * handler raises (the exception leaves the loop at that pair).
   */
  function EntriesFields(entries: seq<(string, Json)>): (r: Option<seq<Field>>)
    ensures r.Some? ==> |r.value| <= 3 * |entries|
  {
    if entries == [] then Some([])
    else Then(EntryFields(entries[0].0, entries[0].1), EntriesFields(entries[1..]))
  }

  /** Building a record raises exactly when the handler of one of its pairs raises. */
  lemma {:induction false} EntriesFieldsRaises(entries: seq<(string, Json)>)
    ensures EntriesFields(entries).None? <==> exists e <- entries :: EntryFields(e.0, e.1).None?
  {
    if entries != [] {
      EntriesFieldsRaises(entries[1..]);
      assert forall e <- entries :: e == entries[0] || e in entries[1..];
    }
  }

  /** Key order: the pairs of `a + b` add the fields of `a` followed by those of `b`. */
  lemma {:induction false} EntriesAppend(a: seq<(string, Json)>, b: seq<(string, Json)>)
    ensures EntriesFields(a + b) == Then(EntriesFields(a), EntriesFields(b))
  {
    if a == [] {
      assert a + b == b;
      var r := EntriesFields(b);
      if r.Some? { assert [] + r.value == r.value; }
    } else {
      assert (a + b)[0] == a[0];
      assert (a + b)[1..] == a[1..] + b;
      EntriesAppend(a[1..], b);
      var h, ra, rb := EntryFields(a[0].0, a[0].1), EntriesFields(a[1..]), EntriesFields(b);
      if h.Some? && ra.Some? && rb.Some? {
        assert h.value + (ra.value + rb.value) == (h.value + ra.value) + rb.value;
      }
    }
  }

  /** The pairs before `i + 1` add those before `i`, then what pair `i` adds. */
  lemma EntriesSnoc(entries: seq<(string, Json)>, i: nat)
    requires i < |entries|
    ensures EntriesFields(entries[..i + 1]) == Then(EntriesFields(entries[..i]), EntryFields(entries[i].0, entries[i].1))
  {
    assert entries[..i + 1] == entries[..i] + [entries[i]];
    EntriesAppend(entries[..i], [entries[i]]);
    assert [entries[i]][1..] == [];
    var step := EntryFields(entries[i].0, entries[i].1);
    if step.Some? { assert step.value + [] == step.value; }
  }

  /** Once a prefix of the pairs raises, the whole record does. */
  lemma PrefixRaises(entries: seq<(string, Json)>, n: nat)
    requires n <= |entries| && EntriesFields(entries[..n]).None?
    ensures EntriesFields(entries).None?
  {
    assert entries == entries[..n] + entries[n..];
    EntriesAppend(entries[..n], entries[n..]);
  }

  /** The pairs of a record whose value is not `null`, in order. */
  function NonNullEntries(entries: seq<(string, Json)>): (r: seq<(string, Json)>)
    ensures |r| <= |entries|
    ensures forall e <- r :: e in entries && !e.1.Null?
    ensures forall e <- entries :: !e.1.Null? ==> e in r
  {
    if entries == [] then []
    else if entries[0].1.Null? then NonNullEntries(entries[1..])
    else [entries[0]] + NonNullEntries(entries[1..])
  }

  /** Dropping the `null` pairs keeps key order: over `a + b` it drops those of `a`, then those of `b`. */
  lemma {:induction false} NonNullEntriesAppend(a: seq<(string, Json)>, b: seq<(string, Json)>)
    ensures NonNullEntries(a + b) == NonNullEntries(a) + NonNullEntries(b)
  {
    if a == [] {
      assert a + b == b;
    } else {
      assert (a + b)[0] == a[0] && (a + b)[1..] == a[1..] + b;
      NonNullEntriesAppend(a[1..], b);
    }
  }

  /** A pair whose value is `null` contributes nothing: dropping all of them changes no field. */
  lemma {:induction false} NullEntriesContributeNothing(entries: seq<(string, Json)>)
    ensures EntriesFields(entries) == EntriesFields(NonNullEntries(entries))
  {
    if entries != [] {
      NullEntriesContributeNothing(entries[1..]);
      var rest := EntriesFields(entries[1..]);
      if entries[0].1.Null? {
        if rest.Some? { assert [] + rest.value == rest.value; }
      } else {
        var nn := NonNullEntries(entries[1..]);
        assert ([entries[0]] + nn)[0] == entries[0] && ([entries[0]] + nn)[1..] == nn;
      }
    }
  }

  /** The provenance fields every document starts with. */
  function Provenance(filename: string, dirpath: string): seq<Field>
  {
    [StringField("filename", filename), StringField("filepath", dirpath)]
  }

  /**
   * The document built from one decoded line, or None when building it raises:
   * the line is not a JSON object (`.items()` fails) or an integer handler raises.
   */
  function BuildDocument(filename: string, dirpath: string, obj: Json): (r: Option<seq<Field>>)
    ensures r.Some? <==> obj.Object? && EntriesFields(obj.entries).Some?
    ensures r.Some? ==>
      && |r.value| >= 2
      && r.value[0] == StringField("filename", filename)
      && r.value[1] == StringField("filepath", dirpath)
      && Some(r.value[2..]) == EntriesFields(obj.entries)
  {
    if !obj.Object? then None
    else Then(Some(Provenance(filename, dirpath)), EntriesFields(obj.entries))
  }

  /** The non-blank lines of a file, in order (`if line.strip()`). */
  function NonBlankLines(lines: seq<Line>): (r: seq<Line>)
    ensures |r| <= |lines|
  {
    if lines == [] then []
    else if IsBlank(lines[0].text) then NonBlankLines(lines[1..])
    else [lines[0]] + NonBlankLines(lines[1..])
  }

  /** NonBlankLines keeps exactly the lines that are not blank. */
  lemma {:induction false} NonBlankLinesMembers(lines: seq<Line>)
    ensures forall l <- NonBlankLines(lines) :: l in lines && !IsBlank(l.text)
    ensures forall l <- lines :: !IsBlank(l.text) ==> l in NonBlankLines(lines)
  {
    if lines != [] {
      NonBlankLinesMembers(lines[1..]);
      assert forall l <- lines :: l == lines[0] || l in lines[1..];
    }
  }

  /** Line order: the non-blank lines of `a + b` are those of `a` followed by those of `b`. */
  lemma {:induction false} NonBlankLinesAppend(a: seq<Line>, b: seq<Line>)
    ensures NonBlankLines(a + b) == NonBlankLines(a) + NonBlankLines(b)
  {
    if a == [] {
      assert a + b == b;
    } else {
      assert (a + b)[0] == a[0] && (a + b)[1..] == a[1..] + b;
      NonBlankLinesAppend(a[1..], b);
    }
  }

  /**
   * `_parseJSON`: every non-blank line decoded, in order; None when any of
   * them fails to decode (the comprehension raises before anything is indexed).
   */
  function ParseJson(lines: seq<Line>): (r: Option<seq<Json>>)
    ensures r.Some? ==> |r.value| == |NonBlankLines(lines)|
  {
    if lines == [] then Some([])
    else
      var rest := ParseJson(lines[1..]);
      if IsBlank(lines[0].text) then rest
      else match lines[0].loads
        case None => None
        case Some(obj) => if rest.None? then None else Some([obj] + rest.value)
  }

  /**
   * `_parseJSON` succeeds exactly when every non-blank line decodes, and then
   * its `k`-th record is the decoding of the `k`-th non-blank line.
   */
  lemma {:induction false} ParseJsonDecodesEachLine(lines: seq<Line>)
    ensures var r := ParseJson(lines);
      && (r.Some? <==> forall l <- lines :: !IsBlank(l.text) ==> l.loads.Some?)
      && (r.Some? ==> forall k | 0 <= k < |r.value| :: NonBlankLines(lines)[k].loads == Some(r.value[k]))
  {
    if lines != [] {
      ParseJsonDecodesEachLine(lines[1..]);
      assert forall l <- lines :: l == lines[0] || l in lines[1..];
    }
  }

  /**
   * The documents a parsed file appends: one per decoded record, in order, up to
   * (not including) the first record whose building raises; that exception
   * ends the file's `try` block.
   */
  function RecordDocs(filename: string, dirpath: string, objs: seq<Json>): (r: seq<seq<Field>>)
    ensures |r| <= |objs|
  {
    if objs == [] then []
    else match BuildDocument(filename, dirpath, objs[0])
      case None => []
      case Some(d) => [d] + RecordDocs(filename, dirpath, objs[1..])
  }

  /** RecordDocs holds the documents of the longest prefix of records that built, and stops at the first failure. */
  lemma {:induction false} RecordDocsStopsAtFirstFailure(filename: string, dirpath: string, objs: seq<Json>)
    ensures var r := RecordDocs(filename, dirpath, objs);
      && (forall k | 0 <= k < |r| :: BuildDocument(filename, dirpath, objs[k]) == Some(r[k]))
      && (|r| < |objs| ==> BuildDocument(filename, dirpath, objs[|r|]).None?)
  {
    if objs != [] && BuildDocument(filename, dirpath, objs[0]).Some? {
      RecordDocsStopsAtFirstFailure(filename, dirpath, objs[1..]);
    }
  }

  /** Those two facts determine RecordDocs: any prefix of built documents that stops at the first failure is it. */
  lemma {:induction false} RecordDocsUnique(filename: string, dirpath: string, objs: seq<Json>, docs: seq<seq<Field>>)
    requires |docs| <= |objs|
    requires forall k | 0 <= k < |docs| :: BuildDocument(filename, dirpath, objs[k]) == Some(docs[k])
    requires |docs| < |objs| ==> BuildDocument(filename, dirpath, objs[|docs|]).None?
    ensures RecordDocs(filename, dirpath, objs) == docs
  {
    if objs != [] && docs != [] {
      RecordDocsUnique(filename, dirpath, objs[1..], docs[1..]);
    }
  }

  /**
   * A name of a directory listing and what opening it gives: its lines, or
   * None when `open` or reading raises.
   */
  datatype File = File(name: string, content: Option<seq<Line>>)

  /**
   * What one file of a directory contributes: nothing unless it is a
   * readable `.json` file whose non-blank lines all decode; then its records'
   * documents.
   */
  function FileDocs(dirpath: string, file: File): (r: seq<seq<Field>>)
    ensures !EndsWith(file.name, ".json") || file.content.None? ==> r == []
  {
    if !EndsWith(file.name, ".json") || file.content.None? then []
    else match ParseJson(file.content.value)
      case None => []
      case Some(objs) => RecordDocs(file.name, dirpath, objs)
  }

  /** The documents of the files of one directory, in listing order. */
  function DirDocs(dirpath: string, files: seq<File>): (r: seq<seq<Field>>)
    ensures (forall f <- files :: !EndsWith(f.name, ".json")) ==> r == []
  {
    if files == [] then []
    else DirDocs(dirpath, files[..|files| - 1]) + FileDocs(dirpath, files[|files| - 1])
  }

  /** One step of `os.walk`: a directory and the files in it. */
  datatype WalkEntry = WalkEntry(dirpath: string, files: seq<File>)

  /** The documents of a whole walk, in walk order. */
  function WalkDocs(walk: seq<WalkEntry>): (r: seq<seq<Field>>)
    ensures (forall e <- walk, f <- e.files :: !EndsWith(f.name, ".json")) ==> r == []
  {
    if walk == [] then []
    else WalkDocs(walk[..|walk| - 1]) + DirDocs(walk[|walk| - 1].dirpath, walk[|walk| - 1].files)
  }

  /** The documents of the first `j + 1` files are those of the first `j`, then the `j`-th file's. */
  lemma DirDocsSnoc(dirpath: string, files: seq<File>, j: nat)
    requires j < |files|
    ensures DirDocs(dirpath, files[..j + 1]) == DirDocs(dirpath, files[..j]) + FileDocs(dirpath, files[j])
  {
    assert files[..j + 1][..j] == files[..j];
  }

  /** The documents of the first `i + 1` walk steps are those of the first `i`, then the `i`-th directory's. */
  lemma WalkDocsSnoc(walk: seq<WalkEntry>, i: nat)
    requires i < |walk|
    ensures WalkDocs(walk[..i + 1]) == WalkDocs(walk[..i]) + DirDocs(walk[i].dirpath, walk[i].files)
  {
    assert walk[..i + 1][..i] == walk[..i];
  }

  lemma AppendAssoc(a: seq<seq<Field>>, b: seq<seq<Field>>, c: seq<seq<Field>>)
    ensures a + b + c == a + (b + c)
  {
  }

  /** Listing order: the files of `a + b` contribute those of `a` followed by those of `b`. */
  lemma {:induction false} DirDocsAppend(dirpath: string, a: seq<File>, b: seq<File>)
    ensures DirDocs(dirpath, a + b) == DirDocs(dirpath, a) + DirDocs(dirpath, b)
  {
    if b == [] {
      assert a + b == a;
    } else {
      var b', last := b[..|b| - 1], b[|b| - 1];
      assert (a + b)[..|a + b| - 1] == a + b';
      DirDocsAppend(dirpath, a, b');
      AppendAssoc(DirDocs(dirpath, a), DirDocs(dirpath, b'), FileDocs(dirpath, last));
    }
  }

  /**
   * Error isolation is per file: each file contributes exactly its own
   * documents, whatever the files before and after it do.
   */
  lemma FileIsolation(dirpath: string, before: seq<File>, file: File, after: seq<File>)
    ensures DirDocs(dirpath, before + [file] + after)
         == DirDocs(dirpath, before) + FileDocs(dirpath, file) + DirDocs(dirpath, after)
  {
    DirDocsAppend(dirpath, before + [file], after);
    DirDocsAppend(dirpath, before, [file]);
    assert [file][..0] == [];
  }

  /** One malformed line (a non-blank line `json.loads` rejects) means no document at all from that file. */
  lemma MalformedFileContributesNothing(dirpath: string, file: File, k: nat)
    requires file.content.Some? && k < |file.content.value|
    requires !IsBlank(file.content.value[k].text) && file.content.value[k].loads.None?
    ensures FileDocs(dirpath, file) == []
  {
    ParseJsonDecodesEachLine(file.content.value);
    assert file.content.value[k] in file.content.value;
  }

  /**
   * A readable `.json` file whose non-blank lines all decode to records that
   * build yields one document per non-blank line, in line order, each built
   * from its own line.
   */
  lemma WellFormedFileOneDocPerLine(dirpath: string, file: File)
    requires EndsWith(file.name, ".json") && file.content.Some?
    requires forall l <- file.content.value :: !IsBlank(l.text) ==>
      l.loads.Some? && BuildDocument(file.name, dirpath, l.loads.value).Some?
    ensures |FileDocs(dirpath, file)| == |NonBlankLines(file.content.value)|
    ensures forall k | 0 <= k < |NonBlankLines(file.content.value)| ::
      && NonBlankLines(file.content.value)[k].loads.Some?
      && Some(FileDocs(dirpath, file)[k])
         == BuildDocument(file.name, dirpath, NonBlankLines(file.content.value)[k].loads.value)
  {
    var lines := file.content.value;
    ParseJsonDecodesEachLine(lines);
    NonBlankLinesMembers(lines);
    var objs := ParseJson(lines).value;
    RecordDocsStopsAtFirstFailure(file.name, dirpath, objs);
  }

  /** Every document a file contributes starts with that file's provenance, and the file is a `.json` file. */
  lemma FileDocsProvenance(dirpath: string, file: File)
    ensures forall d <- FileDocs(dirpath, file) ::
      EndsWith(file.name, ".json") && |d| >= 2 && d[..2] == Provenance(file.name, dirpath)
  {
    if EndsWith(file.name, ".json") && file.content.Some? && ParseJson(file.content.value).Some? {
      var objs := ParseJson(file.content.value).value;
      var docs := RecordDocs(file.name, dirpath, objs);
      RecordDocsStopsAtFirstFailure(file.name, dirpath, objs);
      forall d <- docs ensures |d| >= 2 && d[..2] == Provenance(file.name, dirpath) {
        var k :| 0 <= k < |docs| && docs[k] == d;
        assert BuildDocument(file.name, dirpath, objs[k]) == Some(d);
      }
    }
  }

  /** Every document of a directory comes from a `.json` file of it and starts with that file's provenance. */
  lemma {:induction false} DirDocsProvenance(dirpath: string, files: seq<File>)
    ensures forall d <- DirDocs(dirpath, files) ::
      exists f <- files :: EndsWith(f.name, ".json") && |d| >= 2 && d[..2] == Provenance(f.name, dirpath)
  {
    if files != [] {
      var init, last := files[..|files| - 1], files[|files| - 1];
      DirDocsProvenance(dirpath, init);
      FileDocsProvenance(dirpath, last);
      forall d <- DirDocs(dirpath, files)
        ensures exists f <- files :: EndsWith(f.name, ".json") && |d| >= 2 && d[..2] == Provenance(f.name, dirpath)
      {
        if d in DirDocs(dirpath, init) {
          var g :| g in init && EndsWith(g.name, ".json") && |d| >= 2 && d[..2] == Provenance(g.name, dirpath);
          assert g in files;
        } else {
          assert d in FileDocs(dirpath, last);
          assert last in files;
        }
      }
    }
  }

  /** Every document of a walk comes from a `.json` file of one of its directories and starts with that file's provenance. */
  lemma {:induction false} WalkDocsProvenance(walk: seq<WalkEntry>)
    ensures forall d <- WalkDocs(walk) :: exists e <- walk, f <- e.files ::
      EndsWith(f.name, ".json") && |d| >= 2 && d[..2] == Provenance(f.name, e.dirpath)
  {
    if walk != [] {
      var init, last := walk[..|walk| - 1], walk[|walk| - 1];
      WalkDocsProvenance(init);
      DirDocsProvenance(last.dirpath, last.files);
      forall d <- WalkDocs(walk)
        ensures exists e <- walk, f <- e.files :: EndsWith(f.name, ".json") && |d| >= 2 && d[..2] == Provenance(f.name, e.dirpath)
      {
        if d in WalkDocs(init) {
          var e, f :| e in init && f in e.files && EndsWith(f.name, ".json") && |d| >= 2 && d[..2] == Provenance(f.name, e.dirpath);
          assert e in walk;
        } else {
          assert d in DirDocs(last.dirpath, last.files);
          assert last in walk;
        }
      }
    }
  }

  /**
   * The indexer (class IndexFiles): the handler table it dispatches through and
   * the writer its run fills.
   */
  class IndexFiles {
    var fieldHandlers: map<string, Handler>
    var writer: IndexWriter

    ghost predicate Valid()
      reads this
    {
      fieldHandlers == FIELD_HANDLERS
    }

    /**
     * Opens a writer in CREATE mode, installs the handlers and indexes the
     * walk; the writer ends up holding exactly the walk's documents.
     */
    constructor (walk: seq<WalkEntry>)
      ensures Valid()
      ensures fresh(writer)
      ensures writer.docs == WalkDocs(walk)
    {
      fieldHandlers := map[];
      writer := new IndexWriter.Create();
      new;
      InitializeFieldHandlers();
      IndexDocs(walk, writer);
    }

    method InitializeFieldHandlers()
      modifies this`fieldHandlers
      ensures Valid()
    {
      fieldHandlers := map[
        "title" := TextHandler,
        "text" := TextHandler,
        "author" := TextHandler,
        "subreddit" := TextHandler,
        "linked_page_title" := TextHandler,
        "post_id" := StringHandler,
        "type" := StringHandler,
        "post_url" := StringHandler,
        "timestamp" := TimestampHandler,
        "score" := IntegerHandler,
        "num_comments" := IntegerHandler
      ];
    }

    method HandleTextField(doc: Document, key: string, value: Json)
      modifies doc
      ensures doc.fields == old(doc.fields) + HandlerFields(TextHandler, key, value).value
    {
      if Str(value) != "" {
        doc.Add(TextField(key, Str(value)));
      }
    }

    method HandleStringField(doc: Document, key: string, value: Json)
      modifies doc
      ensures doc.fields == old(doc.fields) + HandlerFields(StringHandler, key, value).value
    {
      doc.Add(StringField(key, Str(value)));
    }

    /** Raises (returns true) only when `int()` raises something other than ValueError or TypeError. */
    method HandleIntegerField(doc: Document, key: string, value: Json) returns (raised: bool)
      modifies doc
      ensures raised <==> HandlerFields(IntegerHandler, key, value).None?
      ensures raised ==> doc.fields == old(doc.fields)
      ensures !raised ==> doc.fields == old(doc.fields) + HandlerFields(IntegerHandler, key, value).value
    {
      raised := false;
      match Int(value)
      case IntOk(i) =>
        doc.Add(IntPoint(key, i));
        doc.Add(StoredInt(key, i));
        doc.Add(NumericDV(key, i));
      case IntRejected =>
      case IntRaises =>
        raised := true;
    }

    method HandleTimestampIsoField(doc: Document, key: string, value: Json)
      modifies doc
      ensures doc.fields == old(doc.fields) + HandlerFields(TimestampHandler, key, value).value
    {
      var ts := Str(value);
      doc.Add(StoredStr(key, ts));
      doc.Add(SortedDV(key, ts));
    }

    /** Calls the handler `h` stands for. */
    method ApplyHandler(h: Handler, doc: Document, key: string, value: Json) returns (raised: bool)
      modifies doc
      ensures raised <==> HandlerFields(h, key, value).None?
      ensures raised ==> doc.fields == old(doc.fields)
      ensures !raised ==> doc.fields == old(doc.fields) + HandlerFields(h, key, value).value
    {
      raised := false;
      match h
      case TextHandler => HandleTextField(doc, key, value);
      case StringHandler => HandleStringField(doc, key, value);
      case IntegerHandler => raised := HandleIntegerField(doc, key, value);
      case TimestampHandler => HandleTimestampIsoField(doc, key, value);
    }

    /** One pair of a record: skipped when `null`, otherwise dispatched to its handler or to the text handler. */
    method AddEntry(doc: Document, key: string, value: Json) returns (raised: bool)
      requires Valid()
      modifies doc
      ensures raised <==> EntryFields(key, value).None?
      ensures raised ==> doc.fields == old(doc.fields)
      ensures !raised ==> doc.fields == old(doc.fields) + EntryFields(key, value).value
    {
      raised := false;
      if value.Null? {
        return;
      }
      if key in fieldHandlers {
        raised := ApplyHandler(fieldHandlers[key], doc, key, value);
      } else {
        HandleTextField(doc, key, value);
      }
    }

    /** The body of the per-record loop up to `addDocument`: a fresh document, its provenance, then each pair. */
    method BuildRecordDocument(filename: string, dirpath: string, obj: Json) returns (doc: Document, raised: bool)
      requires Valid()
      ensures fresh(doc)
      ensures raised <==> BuildDocument(filename, dirpath, obj).None?
      ensures !raised ==> Some(doc.fields) == BuildDocument(filename, dirpath, obj)
    {
      doc := new Document();
      doc.Add(StringField("filename", filename));
      doc.Add(StringField("filepath", dirpath));
      raised := false;
      if !obj.Object? {
        raised := true;
        return;
      }
      var entries := obj.entries;
      ghost var added: seq<Field> := [];
      var i := 0;
      while i < |entries|
        invariant 0 <= i <= |entries|
        invariant doc.fields == Provenance(filename, dirpath) + added
        invariant EntriesFields(entries[..i]) == Some(added)
      {
        var r := AddEntry(doc, entries[i].0, entries[i].1);
        EntriesSnoc(entries, i);
        if r {
          PrefixRaises(entries, i + 1);
          raised := true;
          return;
        }
        added := added + EntryFields(entries[i].0, entries[i].1).value;
        i := i + 1;
      }
      assert entries[..i] == entries;
    }

    /** The `try` block of one file of the walk. */
    method IndexFile(dirpath: string, file: File, writer: IndexWriter)
      requires Valid()
      modifies writer
      ensures writer.docs == old(writer.docs) + FileDocs(dirpath, file)
    {
      if !EndsWith(file.name, ".json") || file.content.None? {
        return;
      }
      var data := ParseJson(file.content.value);
      if data.None? {
        return;
      }
      var objs := data.value;
      ghost var added: seq<seq<Field>> := [];
      var k := 0;
      while k < |objs|
        invariant 0 <= k <= |objs| && |added| == k
        invariant forall m | 0 <= m < k :: BuildDocument(file.name, dirpath, objs[m]) == Some(added[m])
        invariant writer.docs == old(writer.docs) + added
      {
        var doc, raised := BuildRecordDocument(file.name, dirpath, objs[k]);
        if raised {
          break;
        }
        writer.AddDocument(doc);
        added := added + [doc.fields];
        k := k + 1;
      }
      RecordDocsUnique(file.name, dirpath, objs, added);
    }

    /** The loop of `indexDocs` over the files of one directory. */
    method IndexDirectory(dirpath: string, files: seq<File>, writer: IndexWriter)
      requires Valid()
      modifies writer
      ensures writer.docs == old(writer.docs) + DirDocs(dirpath, files)
    {
      var j := 0;
      while j < |files|
        invariant 0 <= j <= |files|
        invariant writer.docs == old(writer.docs) + DirDocs(dirpath, files[..j])
      {
        IndexFile(dirpath, files[j], writer);
        DirDocsSnoc(dirpath, files, j);
        AppendAssoc(old(writer.docs), DirDocs(dirpath, files[..j]), FileDocs(dirpath, files[j]));
        j := j + 1;
      }
      assert files[..j] == files;
    }

    /** `indexDocs`: every file of every directory of the walk, in walk order. */
    method IndexDocs(walk: seq<WalkEntry>, writer: IndexWriter)
      requires Valid()
      modifies writer
      ensures writer.docs == old(writer.docs) + WalkDocs(walk)
    {
      var i := 0;
      while i < |walk|
        invariant 0 <= i <= |walk|
        invariant writer.docs == old(writer.docs) + WalkDocs(walk[..i])
      {
        IndexDirectory(walk[i].dirpath, walk[i].files, writer);
        WalkDocsSnoc(walk, i);
        AppendAssoc(old(writer.docs), WalkDocs(walk[..i]), DirDocs(walk[i].dirpath, walk[i].files));
        i := i + 1;
      }
      assert walk[..i] == walk;
    }
  }
}
