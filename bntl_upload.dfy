/**
 * bntl/upload.py: the upload status constants, the text a record gives to
 * the vectorizer, the per-file buffer of uploaded chunks, and the sequence
 * of statuses `process_file_task` reports. Parsing, ingestion, fetching,
 * vectorization and vector indexing are oracles passed in.
 */
module Upload {
  import opened Common
  import Ingest

  // ---------------------------------------------------------------- Status

  const UPLOADING := "Uploading..."
  const INDEXING := "Indexing..."
  const VECTORIZING := "Vectorizing..."
  const UNKNOWNERROR := "Unknown error"
  const UNKNOWNFORMAT := "Unknown input format"
  const VECTORIZINGERROR := "Error while vectorizing"
  const VECTORINDEXINGERROR := "Vector indexing error"
  const VECTORIZINGTIMEOUT := "Vectorization timed out"
  const EMPTYFILE := "Empty input file"
  const DONE := "Done"

  function NamesOf(vars: seq<(string, Value)>): set<string>
  {
    set i | 0 <= i < |vars| :: vars[i].0
  }

  /** `Status.__get_classes__()` over the class's `vars`: every entry whose name does not start with "__". */
  function GetClasses(vars: seq<(string, Value)>): (r: map<string, Value>)
  {
    if vars == [] then map[]
    else
      var rest := GetClasses(vars[1..]);
      if StartsWith(vars[0].0, "__") then rest
      else rest[vars[0].0 := (if vars[0].0 in rest then rest[vars[0].0] else vars[0].1)]
  }

  /** The names kept are exactly the names that do not start with "__". */
  lemma {:induction false} GetClassesKeys(vars: seq<(string, Value)>)
    ensures GetClasses(vars).Keys == set k | k in NamesOf(vars) && !StartsWith(k, "__")
  {
    if vars != [] {
      GetClassesKeys(vars[1..]);
      assert NamesOf(vars) == {vars[0].0} + NamesOf(vars[1..]) by {
        forall k | k in NamesOf(vars) ensures k in {vars[0].0} + NamesOf(vars[1..]) {
          var i :| 0 <= i < |vars| && vars[i].0 == k;
          if i > 0 { assert vars[1..][i - 1].0 == k; }
        }
        forall k | k in NamesOf(vars[1..]) ensures k in NamesOf(vars) {
          var i :| 0 <= i < |vars[1..]| && vars[1..][i].0 == k;
          assert vars[i + 1].0 == k;
        }
      }
    }
  }

  lemma {:induction false} NamesOfAppend(a: seq<(string, Value)>, b: seq<(string, Value)>)
    ensures NamesOf(a + b) == NamesOf(a) + NamesOf(b)
  {
    forall k | k in NamesOf(a + b) ensures k in NamesOf(a) + NamesOf(b) {
      var i :| 0 <= i < |a + b| && (a + b)[i].0 == k;
      if i >= |a| { assert b[i - |a|].0 == k; }
    }
    forall k | k in NamesOf(a) ensures k in NamesOf(a + b) {
      var i :| 0 <= i < |a| && a[i].0 == k;
      assert (a + b)[i].0 == k;
    }
    forall k | k in NamesOf(b) ensures k in NamesOf(a + b) {
      var i :| 0 <= i < |b| && b[i].0 == k;
      assert (a + b)[i + |a|].0 == k;
    }
  }

  lemma {:induction false} NamesOfSlice(a: seq<(string, Value)>, lo: nat, hi: nat)
    requires lo <= hi <= |a|
    ensures NamesOf(a[lo..hi]) <= NamesOf(a)
  {
    forall k | k in NamesOf(a[lo..hi]) ensures k in NamesOf(a) {
      var i :| 0 <= i < hi - lo && a[lo..hi][i].0 == k;
      assert a[lo + i].0 == k;
    }
  }

  /** The ten constants of `Status`, in definition order. */
  const StatusConsts: seq<(string, Value)> := [
    ("UPLOADING", VStr(UPLOADING)), ("INDEXING", VStr(INDEXING)), ("VECTORIZING", VStr(VECTORIZING)),
    ("UNKNOWNERROR", VStr(UNKNOWNERROR)), ("UNKNOWNFORMAT", VStr(UNKNOWNFORMAT)),
    ("VECTORIZINGERROR", VStr(VECTORIZINGERROR)), ("VECTORINDEXINGERROR", VStr(VECTORINDEXINGERROR)),
    ("VECTORIZINGTIMEOUT", VStr(VECTORIZINGTIMEOUT)), ("EMPTYFILE", VStr(EMPTYFILE)), ("DONE", VStr(DONE))]

  /** The interpreter's own entries of `vars(Status)`; the values other than `__module__` and
      `__qualname__` stand in for objects the model does not need. */
  const InterpreterVars: seq<(string, Value)> := [
    ("__module__", VStr("bntl.upload")), ("__qualname__", VStr("Status")),
    ("__get_classes__", VNone), ("__dict__", VNone), ("__weakref__", VNone), ("__doc__", VNone)]

  /** `vars(Status)` in definition order: two interpreter entries, the constants, the rest. */
  function StatusVars(): seq<(string, Value)>
  {
    InterpreterVars[..2] + StatusConsts + InterpreterVars[2..]
  }

  lemma {:induction false} ConstNamesKept()
    ensures forall k :: k in NamesOf(StatusConsts) ==> !StartsWith(k, "__")
  {
    forall i | 0 <= i < |StatusConsts| ensures !StartsWith(StatusConsts[i].0, "__") {
      assert StatusConsts[i].0[0] != '_';
    }
  }

  lemma {:induction false} InterpreterNamesDropped()
    ensures forall k :: k in NamesOf(InterpreterVars) ==> StartsWith(k, "__")
  {
    forall i | 0 <= i < |InterpreterVars| ensures StartsWith(InterpreterVars[i].0, "__") {
      assert InterpreterVars[i].0[..2] == "__";
    }
  }

  predicate DistinctNames(vars: seq<(string, Value)>)
  {
    forall i, j :: 0 <= i < j < |vars| ==> vars[i].0 != vars[j].0
  }

  lemma {:induction false} GetClassesKeysWithin(vars: seq<(string, Value)>)
    ensures GetClasses(vars).Keys <= NamesOf(vars)
  {
    GetClassesKeys(vars);
  }

  /** With distinct names (as in a class's `vars`), every kept name maps to its own value. */
  lemma {:induction false} GetClassesValue(vars: seq<(string, Value)>, i: nat)
    requires DistinctNames(vars) && i < |vars| && !StartsWith(vars[i].0, "__")
    ensures vars[i].0 in GetClasses(vars) && GetClasses(vars)[vars[i].0] == vars[i].1
  {
    if i == 0 {
      GetClassesKeysWithin(vars[1..]);
    } else {
      GetClassesValue(vars[1..], i - 1);
      assert vars[1..][i - 1] == vars[i];
      assert vars[0].0 != vars[i].0;
    }
  }

  lemma {:induction false} StatusNamesDistinct()
    ensures DistinctNames(StatusVars())
  {
    var v := StatusVars();
    forall i, j | 0 <= i < j < |v|
      ensures v[i].0 != v[j].0
    {
      if |v[i].0| == |v[j].0| {
        assert v[i].0[..5] != v[j].0[..5] || v[i].0[|v[i].0| - 3..] != v[j].0[|v[j].0| - 3..];
      }
    }
  }

  /**
   * `__get_classes__` returns exactly the status constants, none of the interpreter's
   * entries, each constant's name mapped to its status text.
   */
  lemma {:induction false} StatusClasses()
    ensures GetClasses(StatusVars()).Keys == NamesOf(StatusConsts)
    ensures forall i :: 0 <= i < |StatusConsts| ==>
      StatusConsts[i].0 in GetClasses(StatusVars()) && GetClasses(StatusVars())[StatusConsts[i].0] == StatusConsts[i].1
  {
    var pre, post := InterpreterVars[..2], InterpreterVars[2..];
    GetClassesKeys(pre + StatusConsts + post);
    NamesOfAppend(pre + StatusConsts, post);
    NamesOfAppend(pre, StatusConsts);
    NamesOfSlice(InterpreterVars, 0, 2);
    NamesOfSlice(InterpreterVars, 2, 6);
    ConstNamesKept();
    InterpreterNamesDropped();
    forall i | 0 <= i < |StatusConsts|
      ensures StatusConsts[i].0 in GetClasses(StatusVars()) && GetClasses(StatusVars())[StatusConsts[i].0] == StatusConsts[i].1
    {
      StatusConstValue(i);
    }
  }

  lemma {:induction false} StatusConstValue(i: nat)
    requires i < |StatusConsts|
    ensures StatusConsts[i].0 in GetClasses(StatusVars()) && GetClasses(StatusVars())[StatusConsts[i].0] == StatusConsts[i].1
  {
    StatusNamesDistinct();
    var v := StatusVars();
    assert v[i + 2] == StatusConsts[i];
    assert !StartsWith(StatusConsts[i].0, "__") by { assert StatusConsts[i].0[0] != '_'; }
    GetClassesValue(v, i + 2);
  }

  // ---------------------------------------------------------------- text for the vectorizer

  /** `title += "; " + x`: x must be a str. */
  function Append(title: Value, x: Value): Result<Value>
  {
    if x.VStr? then AddStr(title, "; " + x.s) else Err(TypeError("can only concatenate str"))
  }

  /** The `if doc.get(field): title += "; " + doc[field]` step. */
  function AppendIf(title: Value, x: Value): Result<Value>
  {
    if Truthy(x) then Append(title, x) else Ok(title)
  }

  /** The title part of `get_doc_text`: the title (default ""), then the secondary and the tertiary title. */
  function TitleText(doc: Doc): Result<Value>
  {
    var title0 := if "title" in doc then doc["title"] else VStr("");
    var title1 :- AppendIf(title0, Get(doc, "secondary_title"));
    AppendIf(title1, Get(doc, "tertiary_title"))
  }

  /** `get_doc_text(doc)`: the title part; the keywords joined by "; " when truthy, else None. */
  function GetDocText(doc: Doc): Result<Ingest.DocText>
  {
    var title :- TitleText(doc);
    var kw := Get(doc, "keywords");
    var keywords :- if Truthy(kw) then (var j :- Ingest.JoinKeywords(kw); Ok(Some(j))) else Ok(None);
    Ok(Ingest.DocText(title, keywords))
  }

  /** `convert_to_text(doc, ignore_keywords)`: the title (or "" when falsy), with "; " and the
      keywords appended when they are present and not ignored. */
  function ConvertToText(doc: Doc, ignoreKeywords: bool): Result<Value>
  {
    var text :- GetDocText(doc);
    var output := if Truthy(text.title) then text.title else VStr("");
    if text.keywords.Some? && text.keywords.value != "" && !ignoreKeywords then AddStr(output, "; " + text.keywords.value)
    else Ok(output)
  }

  /** A record whose text fields have the types the entry schema gives them (the title may be absent). */
  predicate WellTyped(doc: Doc)
  {
    && ("title" in doc ==> doc["title"].VStr?)
    && (Truthy(Get(doc, "secondary_title")) ==> Get(doc, "secondary_title").VStr?)
    && (Truthy(Get(doc, "tertiary_title")) ==> Get(doc, "tertiary_title").VStr?)
    && (Truthy(Get(doc, "keywords")) ==> Get(doc, "keywords").VList?)
  }

  /** The pieces of the text: the title ("" when absent), the secondary and tertiary titles when
      truthy, and, unless ignored, the keywords (the list [""] joins to "" and adds nothing). */
  function TextParts(doc: Doc, ignoreKeywords: bool): seq<string>
    requires WellTyped(doc)
  {
    var sec := Get(doc, "secondary_title");
    var ter := Get(doc, "tertiary_title");
    var kw := Get(doc, "keywords");
    [if "title" in doc then doc["title"].s else ""]
      + (if Truthy(sec) then [sec.s] else [])
      + (if Truthy(ter) then [ter.s] else [])
      + (if Truthy(kw) && !ignoreKeywords && kw.items != [""] then kw.items else [])
  }

  /** The title part alone, before the keywords. */
  function TitleParts(doc: Doc): seq<string>
    requires WellTyped(doc)
  {
    var sec := Get(doc, "secondary_title");
    var ter := Get(doc, "tertiary_title");
    [if "title" in doc then doc["title"].s else ""]
      + (if Truthy(sec) then [sec.s] else [])
      + (if Truthy(ter) then [ter.s] else [])
  }

  /** Appending a truthy str extends the joined parts by one. */
  lemma {:induction false} AppendIfJoin(parts: seq<string>, x: Value)
    requires parts != [] && (Truthy(x) ==> x.VStr?)
    ensures AppendIf(VStr(Join("; ", parts)), x) == Ok(VStr(Join("; ", parts + (if Truthy(x) then [x.s] else []))))
  {
    if Truthy(x) {
      JoinSnoc("; ", parts, x.s);
      var j := Join("; ", parts);
      assert j + ("; " + x.s) == j + "; " + x.s;
    } else {
      assert parts + [] == parts;
    }
  }

  lemma {:induction false} TitleIsJoin(doc: Doc)
    requires WellTyped(doc)
    ensures TitleText(doc) == Ok(VStr(Join("; ", TitleParts(doc))))
  {
    var sec := Get(doc, "secondary_title");
    var ter := Get(doc, "tertiary_title");
    var t0 := [if "title" in doc then doc["title"].s else ""];
    var t1 := t0 + (if Truthy(sec) then [sec.s] else []);
    assert Join("; ", t0) == t0[0];
    AppendIfJoin(t0, sec);
    AppendIfJoin(t1, ter);
  }

  /**
   * For a well-typed record, the uploaded text is the title, secondary title, tertiary title and
   * keywords, in that order, joined by "; ".
   */
  lemma {:induction false} UploadTextIsJoin(doc: Doc, ignoreKeywords: bool)
    requires WellTyped(doc)
    ensures ConvertToText(doc, ignoreKeywords) == Ok(VStr(Join("; ", TextParts(doc, ignoreKeywords))))
  {
    TitleIsJoin(doc);
    var kw := Get(doc, "keywords");
    if Truthy(kw) && !ignoreKeywords && kw.items != [""] {
      KeywordsAppended(doc, ignoreKeywords);
    } else {
      KeywordsLeftOut(doc, ignoreKeywords);
    }
  }

  /** Keywords that are present, not ignored and not [""] add "; " and their join. */
  lemma {:induction false} KeywordsAppended(doc: Doc, ignoreKeywords: bool)
    requires WellTyped(doc) && TitleText(doc) == Ok(VStr(Join("; ", TitleParts(doc))))
    requires Truthy(Get(doc, "keywords")) && !ignoreKeywords && Get(doc, "keywords").items != [""]
    ensures ConvertToText(doc, ignoreKeywords) == Ok(VStr(Join("; ", TextParts(doc, ignoreKeywords))))
  {
    var head := TitleParts(doc);
    var items := Get(doc, "keywords").items;
    JoinLength("; ", head);
    assert TextParts(doc, ignoreKeywords) == head + items;
    JoinAppend("; ", head, items);
    JoinLength("; ", items);
    assert Join("; ", items) != "" by {
      if |items| == 1 {
        assert items == [items[0]];
      }
    }
    assert Join("; ", head) + ("; " + Join("; ", items)) == Join("; ", head) + "; " + Join("; ", items);
  }

  /** Otherwise the text is the title part alone. */
  lemma {:induction false} KeywordsLeftOut(doc: Doc, ignoreKeywords: bool)
    requires WellTyped(doc) && TitleText(doc) == Ok(VStr(Join("; ", TitleParts(doc))))
    requires !(Truthy(Get(doc, "keywords")) && !ignoreKeywords && Get(doc, "keywords").items != [""])
    ensures ConvertToText(doc, ignoreKeywords) == Ok(VStr(Join("; ", TextParts(doc, ignoreKeywords))))
  {
    var kw := Get(doc, "keywords");
    JoinLength("; ", TitleParts(doc));
    assert TextParts(doc, ignoreKeywords) == TitleParts(doc);
    if Truthy(kw) && kw.items == [""] {
      assert GetDocText(doc).value.keywords == Some("");
    }
  }

  /** Without a tertiary title, the upload text and the ingestion text of a titled record agree. */
  lemma {:induction false} UploadAgreesWithIngest(doc: Doc, ignoreKeywords: bool)
    requires WellTyped(doc) && Ingest.WellTyped(doc) && !Truthy(Get(doc, "tertiary_title"))
    ensures Ingest.GetDocText(doc).Ok?
    ensures ConvertToText(doc, ignoreKeywords) == Ingest.ConvertToText(Ingest.GetDocText(doc).value, ignoreKeywords)
  {
    UploadTextIsJoin(doc, ignoreKeywords);
    Ingest.DocTextIsJoin(doc, ignoreKeywords);
    assert TextParts(doc, ignoreKeywords) == Ingest.TextParts(doc, ignoreKeywords);
  }

  // ---------------------------------------------------------------- chunks

  type Bytes = seq<bv8>

  /** `file_chunks[file_id]` of the defaultdict: the file's chunks, or none yet. */
  function ChunksOf(fileChunks: map<string, map<int, Bytes>>, fileId: string): map<int, Bytes>
  {
    if fileId in fileChunks then fileChunks[fileId] else map[]
  }

  /** The buffer after `add_chunk(file_id, n, data)`. */
  function WithChunk(fileChunks: map<string, map<int, Bytes>>, fileId: string, n: int, data: Bytes): map<string, map<int, Bytes>>
  {
    fileChunks[fileId := ChunksOf(fileChunks, fileId)[n := data]]
  }

  /** A chunk is stored under its file and number, replacing any earlier chunk with that number;
      every other chunk of every file stays as it was. */
  lemma {:induction false} AddChunkStores(fileChunks: map<string, map<int, Bytes>>, fileId: string, n: int, data: Bytes)
    ensures var after := WithChunk(fileChunks, fileId, n, data);
      && ChunksOf(after, fileId)[n] == data
      && (forall f, m :: (f != fileId || m != n) ==>
            (m in ChunksOf(after, f) <==> m in ChunksOf(fileChunks, f))
            && (m in ChunksOf(fileChunks, f) ==> ChunksOf(after, f)[m] == ChunksOf(fileChunks, f)[m]))
  {
  }

  /** `b''.join([chunks[i] for i in range(lo, hi)])`: KeyError at the first missing number. */
  function AssembleFrom(chunks: map<int, Bytes>, lo: nat, hi: nat): (r: Result<Bytes>)
    decreases hi - lo
  {
    if lo >= hi then Ok([])
    else if lo !in chunks then Err(KeyError(DecimalString(lo)))
    else match AssembleFrom(chunks, lo + 1, hi)
      case Ok(rest) => Ok(chunks[lo] + rest)
      case Err(e) => Err(e)
  }

  function PrependBytes(p: Bytes, r: Result<Bytes>): Result<Bytes>
  {
    match r
    case Ok(x) => Ok(p + x)
    case Err(e) => Err(e)
  }

  /** The file's data: chunks 0 .. k-1 in order, where k is how many chunks are stored. */
  function Assemble(chunks: map<int, Bytes>): Result<Bytes>
  {
    AssembleFrom(chunks, 0, |chunks|)
  }

  /** Reassembly succeeds exactly when chunks 0 .. k-1 are all present, i.e. the chunk numbers
      are exactly 0 .. k-1; a buffer numbered from 1, or with a gap, fails. */
  lemma {:induction false} AssembleFromOk(chunks: map<int, Bytes>, lo: nat, hi: nat)
    ensures AssembleFrom(chunks, lo, hi).Ok? <==> forall i :: lo <= i < hi ==> i in chunks
    decreases hi - lo
  {
    if lo < hi {
      AssembleFromOk(chunks, lo + 1, hi);
    }
  }

  /** The chunk numbers 0 .. n-1. */
  function Range(n: nat): (r: set<int>)
    ensures forall i :: i in r <==> 0 <= i < n
    ensures |r| == n
  {
    if n == 0 then {} else Range(n - 1) + {n - 1}
  }

  lemma {:induction false} AssembleOk(chunks: map<int, Bytes>)
    ensures Assemble(chunks).Ok? <==> chunks.Keys == Range(|chunks|)
  {
    AssembleFromOk(chunks, 0, |chunks|);
    var range := Range(|chunks|);
    if forall i :: 0 <= i < |chunks| ==> i in chunks {
      assert range <= chunks.Keys;
      SubsetSameSize(range, chunks.Keys);
    }
  }

  lemma {:induction false} SubsetSameSize(a: set<int>, b: set<int>)
    requires a <= b && |a| == |b|
    ensures a == b
  {
    assert b == a + (b - a);
    assert a * (b - a) == {};
    assert |b - a| == 0;
  }

  /** The reassembled data is the chunks' concatenation, so its length is the sum of theirs. */
  lemma {:induction false} AssembleLength(chunks: map<int, Bytes>, lo: nat, hi: nat)
    requires AssembleFrom(chunks, lo, hi).Ok?
    ensures |AssembleFrom(chunks, lo, hi).value| == SumLengths(chunks, lo, hi)
    decreases hi - lo
  {
    if lo < hi {
      AssembleLength(chunks, lo + 1, hi);
    }
  }

  function SumLengths(chunks: map<int, Bytes>, lo: nat, hi: nat): nat
    decreases hi - lo
  {
    if lo >= hi then 0 else (if lo in chunks then |chunks[lo]| else 0) + SumLengths(chunks, lo + 1, hi)
  }

  // ---------------------------------------------------------------- process_file_task

  type Vector = seq<real>

  /** A status as `update_status` records it (the time stamp is left out; `detail` is not a
      field of the status model and is dropped by it). */
  datatype Report = Report(status: string, progress: Option<real>)

  /** What the ingestion service did: the counts it passed to the progress callback, in order,
      then the inserted ids or the exception it raised. */
  datatype Inserted = Inserted(progress: seq<int>, outcome: Result<seq<string>>)

  /** The services `process_file_task` calls: RIS decoding and parsing, ingestion, fetching the
      inserted records, the vectorizer, and the vector index. */
  datatype Services = Services(
    parse: Bytes -> Result<seq<Doc>>,
    insert: seq<Doc> -> Inserted,
    fetch: seq<string> -> Result<seq<Doc>>,
    vectorize: (seq<string>, seq<string>) -> Result<seq<Vector>>,
    indexVectors: (seq<Vector>, seq<string>) -> Option<Error>)

  /** The statuses reported, and the exception that escaped the background task, if any. */
  datatype Trace = Trace(reports: seq<Report>, escaped: Option<Error>)

  /** `str(doc["_id"])` for each fetched record. */
  function IdTexts(data: seq<Doc>): Result<seq<string>>
  {
    if data == [] then Ok([])
    else if "_id" !in data[0] then Err(KeyError("_id"))
    else
      var rest :- IdTexts(data[1..]);
      var v := data[0]["_id"];
      Ok([if v.VStr? then v.s else if v.VId? then v.oid else ""] + rest)
  }

  /**
   * `[convert_to_text(doc, ignore_keywords=True) for doc in data]`, each as a str. Python would
   * pass a non-str text on unchanged; the stored records' titles are str, so such a text does not
   * arise, and the model refuses it with TypeError rather than give it a str form.
   */
  function Texts(data: seq<Doc>): Result<seq<string>>
  {
    if data == [] then Ok([])
    else
      var t :- ConvertToText(data[0], true);
      var rest :- Texts(data[1..]);
      if t.VStr? then Ok([t.s] + rest) else Err(TypeError("texts must be str"))
  }

  /** The vectorization block: any exception in it, or falsy vectors, end the task with
      VECTORIZINGERROR (reported from the `finally`, whose `return` swallows the exception). */
  function VectorizeStage(svc: Services, docIds: seq<string>): Trace
  {
    match svc.fetch(docIds)
    case Err(_) => Trace([Report(VECTORIZINGERROR, None)], None)
    case Ok(data) =>
      var vectorizing := [Report(VECTORIZING, Some(0.0))];
      match (Texts(data), IdTexts(data))
      case (Ok(texts), Ok(ids)) =>
        (match svc.vectorize(texts, ids)
         case Ok(vectors) =>
           if vectors == [] then Trace(vectorizing + [Report(VECTORIZINGERROR, None)], None)
           else
             (match svc.indexVectors(vectors, ids)
              case Some(_) => Trace(vectorizing + [Report(VECTORINDEXINGERROR, None)], None)
              case None => Trace(vectorizing + [Report(DONE, None)], None))
         case Err(_) => Trace(vectorizing + [Report(VECTORIZINGERROR, None)], None))
      case _ => Trace(vectorizing + [Report(VECTORIZINGERROR, None)], None)
  }

  /**
   * The services as bntl/upload.py calls them: the `client` module it imports from the vectorizer
   * defines no `vectorize`, so the lookup `client.vectorize` raises AttributeError inside the
   * vectorization block, whatever the texts.
   */
  function AsWrittenServices(svc: Services): Services
  {
    svc.(vectorize := (texts: seq<string>, ids: seq<string>) => Err(AttributeError("vectorize")))
  }

  /** As written, the vectorization block reports VECTORIZINGERROR last, after VECTORIZING when
      the records were fetched. */
  lemma {:induction false} VectorizeAsWrittenFails(svc: Services, docIds: seq<string>)
    ensures VectorizeStage(AsWrittenServices(svc), docIds)
         == Trace((if svc.fetch(docIds).Err? then [] else [Report(VECTORIZING, Some(0.0))])
                  + [Report(VECTORIZINGERROR, None)], None)
  {
  }

  /**
   * The INDEXING reports of the insert callback, `progress / len(documents)` each, up to the
   * first count that fails: with no documents the division raises ZeroDivisionError, and a
   * fraction outside [0, 1] is refused by the status model. That exception leaves the
   * ingestion call.
   */
  function ProgressReports(progress: seq<int>, n: nat): (r: (seq<Report>, Option<Error>))
    ensures |r.0| <= |progress|
    ensures r.1.None? <==> |r.0| == |progress|
  {
    if progress == [] then ([], None)
    else if n == 0 then ([], Some(ZeroDivisionError))
    else if !(0 <= progress[0] <= n) then ([], Some(ValidationError("progress")))
    else
      var rest := ProgressReports(progress[1..], n);
      ([Report(INDEXING, Some(progress[0] as real / n as real))] + rest.0, rest.1)
  }

  /** Each callback report is INDEXING with `count / len(documents)`, a fraction in [0, 1]. */
  lemma {:induction false} ProgressReportsIndexing(progress: seq<int>, n: nat)
    ensures var r := ProgressReports(progress, n).0;
      forall i :: 0 <= i < |r| ==>
        && n > 0 && 0 <= progress[i] <= n
        && r[i] == Report(INDEXING, Some(progress[i] as real / n as real))
        && 0.0 <= r[i].progress.value <= 1.0
  {
    if progress != [] && n > 0 && 0 <= progress[0] <= n {
      ProgressReportsIndexing(progress[1..], n);
      FractionBounds(progress[0], n);
      var r := ProgressReports(progress, n).0;
      assert forall i :: 1 <= i < |r| ==> r[i] == ProgressReports(progress[1..], n).0[i - 1] && progress[i] == progress[1..][i - 1];
    }
  }

  lemma {:induction false} FractionBounds(p: int, n: nat)
    requires 0 <= p <= n && n > 0
    ensures 0.0 <= p as real / n as real <= 1.0
  {
  }

  /** The result of `insert_documents` as `process_file_task` sees it: a failed callback is its exception. */
  function InsertOutcome(ins: Inserted, n: nat): Result<seq<string>>
  {
    var failed := ProgressReports(ins.progress, n).1;
    if failed.Some? then Err(failed.value) else ins.outcome
  }

  /** What `process_file_task` reports, given the reassembled data (or the error reassembly raised). */
  function ProcessTrace(data: Result<Bytes>, svc: Services): Trace
  {
    match data
    case Err(e) => Trace([], Some(e))
    case Ok(bytes) =>
      match svc.parse(bytes)
      case Err(e) => if e.ParseError? then Trace([Report(UNKNOWNFORMAT, None)], None) else Trace([], Some(e))
      case Ok(documents) => IngestTrace(documents, svc)
  }

  /** What `process_file_task` reports once the upload is parsed: ingestion, then vectorization. */
  function IngestTrace(documents: seq<Doc>, svc: Services): Trace
  {
    var indexing := IndexingReports(documents, svc);
    match InsertOutcome(svc.insert(documents), |documents|)
    case Err(_) => Trace(indexing + [Report(UNKNOWNERROR, None)], Some(UnboundLocalError("doc_ids")))
    case Ok(docIds) =>
      if docIds == [] then Trace(indexing + [Report(EMPTYFILE, None)], None)
      else
        var rest := VectorizeStage(svc, docIds);
        Trace(indexing + rest.reports, rest.escaped)
  }

  /** The reports of a trace as the status updates they make for one file. */
  function Tagged(fileId: string, rs: seq<Report>): (r: seq<(string, Report)>)
    ensures |r| == |rs| && forall i :: 0 <= i < |rs| ==> r[i] == (fileId, rs[i])
  {
    seq(|rs|, i requires 0 <= i < |rs| => (fileId, rs[i]))
  }

  lemma {:induction false} TaggedAppend(fileId: string, a: seq<Report>, b: seq<Report>)
    ensures Tagged(fileId, a + b) == Tagged(fileId, a) + Tagged(fileId, b)
  {
  }

  const Terminal: set<string> := {UNKNOWNFORMAT, UNKNOWNERROR, EMPTYFILE, VECTORIZINGERROR, VECTORINDEXINGERROR, DONE}

  /** The INDEXING reports of one run: the initial one and the callback's. */
  function IndexingReports(documents: seq<Doc>, svc: Services): seq<Report>
  {
    [Report(INDEXING, Some(0.0))] + ProgressReports(svc.insert(documents).progress, |documents|).0
  }

  /**
   * A run that gets past reassembly and parsing reports INDEXING first, then one INDEXING
   * report per progress callback; every run that reports anything ends with exactly one
   * terminal status, its last report; every reported progress lies in [0, 1]; and DONE comes
   * only after the INDEXING reports and VECTORIZING, exactly when ingestion stored records
   * whose vectors were non-empty and indexed without error.
   */
  lemma {:induction false} ProcessOutcomes(data: Result<Bytes>, svc: Services)
    ensures var t := ProcessTrace(data, svc);
      && (t.reports != [] ==> t.reports[|t.reports| - 1].status in Terminal
                              && forall i :: 0 <= i < |t.reports| - 1 ==> t.reports[i].status !in Terminal)
      && (t.reports == [] <==> t.escaped.Some?  && (data.Err? || !svc.parse(data.value).Ok?))
      && (forall i :: 0 <= i < |t.reports| && t.reports[i].progress.Some? ==> 0.0 <= t.reports[i].progress.value <= 1.0)
      && (|t.reports| >= 2 ==> data.Ok? && svc.parse(data.value).Ok?
                               && t.reports[..|IndexingReports(svc.parse(data.value).value, svc)|]
                                  == IndexingReports(svc.parse(data.value).value, svc))
      && (t.reports != [] && t.reports[|t.reports| - 1].status == DONE <==>
            data.Ok? && svc.parse(data.value).Ok?
            && t.reports == IndexingReports(svc.parse(data.value).value, svc) + [Report(VECTORIZING, Some(0.0)), Report(DONE, None)])
  {
    if data.Ok? && svc.parse(data.value).Ok? {
      IngestOutcomes(svc.parse(data.value).value, svc);
    }
  }

  /** The vectorization block reports one terminal status, last, after at most VECTORIZING. */
  lemma {:induction false} VectorizeOutcomes(svc: Services, docIds: seq<string>)
    ensures var rs := VectorizeStage(svc, docIds).reports;
      && rs != [] && rs[|rs| - 1].status in Terminal
      && (forall i :: 0 <= i < |rs| - 1 ==> rs[i] == Report(VECTORIZING, Some(0.0)))
      && (forall i :: 0 <= i < |rs| ==> rs[i].progress.None? || rs[i].progress == Some(0.0))
      && (rs[|rs| - 1].status == DONE <==> rs == [Report(VECTORIZING, Some(0.0)), Report(DONE, None)])
      && VectorizeStage(svc, docIds).escaped.None?
  {
  }

  /**
   * As written, no upload is ever reported DONE or VECTORINDEXINGERROR: a run whose records were
   * stored ends in VECTORIZINGERROR, and the others end as they would with a working vectorizer.
   */
  lemma {:induction false} ProcessAsWrittenNeverDone(data: Result<Bytes>, svc: Services)
    ensures var t := ProcessTrace(data, AsWrittenServices(svc));
      && (forall i :: 0 <= i < |t.reports| ==> t.reports[i].status != DONE && t.reports[i].status != VECTORINDEXINGERROR)
      && (data.Ok? && svc.parse(data.value).Ok?
          && InsertOutcome(svc.insert(svc.parse(data.value).value), |svc.parse(data.value).value|).Ok?
          && InsertOutcome(svc.insert(svc.parse(data.value).value), |svc.parse(data.value).value|).value != []
          ==> t.reports != [] && t.reports[|t.reports| - 1] == Report(VECTORIZINGERROR, None))
  {
    var s := AsWrittenServices(svc);
    var t := ProcessTrace(data, s);
    ProcessOutcomes(data, s);
    if data.Ok? && svc.parse(data.value).Ok? {
      var documents := svc.parse(data.value).value;
      var idx := IndexingReports(documents, s);
      IngestOutcomes(documents, s);
      var out := InsertOutcome(svc.insert(documents), |documents|);
      if out.Ok? && out.value != [] {
        VectorizeAsWrittenFails(svc, out.value);
        assert t.reports == idx + VectorizeStage(s, out.value).reports;
      }
    }
  }

  /** Once parsed, a run reports its INDEXING reports and then exactly one terminal status. */
  lemma {:induction false} IngestOutcomes(documents: seq<Doc>, svc: Services)
    ensures var t := IngestTrace(documents, svc); var idx := IndexingReports(documents, svc);
      && |t.reports| > |idx| && t.reports[..|idx|] == idx
      && t.reports[|t.reports| - 1].status in Terminal
      && (forall i :: 0 <= i < |t.reports| - 1 ==> t.reports[i].status !in Terminal)
      && (forall i :: 0 <= i < |t.reports| && t.reports[i].progress.Some? ==> 0.0 <= t.reports[i].progress.value <= 1.0)
      && (t.reports[|t.reports| - 1].status == DONE <==>
            t.reports == idx + [Report(VECTORIZING, Some(0.0)), Report(DONE, None)])
  {
    var t := IngestTrace(documents, svc);
    var idx := IndexingReports(documents, svc);
    ProgressReportsIndexing(svc.insert(documents).progress, |documents|);
    assert forall i :: 0 <= i < |idx| ==> (idx[i].status == INDEXING && idx[i].progress.Some?
                                           && 0.0 <= idx[i].progress.value <= 1.0) by {
      assert idx[0] == Report(INDEXING, Some(0.0));
      var pr := ProgressReports(svc.insert(documents).progress, |documents|).0;
      assert forall i :: 1 <= i < |idx| ==> idx[i] == pr[i - 1];
    }
    var out := InsertOutcome(svc.insert(documents), |documents|);
    var rest: seq<Report>;
    if out.Err? {
      rest := [Report(UNKNOWNERROR, None)];
    } else if out.value == [] {
      rest := [Report(EMPTYFILE, None)];
    } else {
      VectorizeOutcomes(svc, out.value);
      rest := VectorizeStage(svc, out.value).reports;
    }
    assert t.reports == idx + rest;
    assert t.reports[..|idx|] == idx;
    assert forall i :: |idx| <= i < |t.reports| ==> t.reports[i] == rest[i - |idx|];
  }


  /**
   * Once ingestion returns, the reports so far are the initial INDEXING and, in order, one
   * INDEXING report of `count / len(documents)` per callback count.
   */
  lemma {:induction false} ProgressReported(bytes: Bytes, svc: Services)
    requires svc.parse(bytes).Ok?
    requires var documents := svc.parse(bytes).value; var ins := svc.insert(documents);
      |documents| > 0 && forall i :: 0 <= i < |ins.progress| ==> 0 <= ins.progress[i] <= |documents|
    ensures var documents := svc.parse(bytes).value; var ins := svc.insert(documents);
      var reports := ProcessTrace(Ok(bytes), svc).reports;
      && |reports| >= |ins.progress| + 2
      && reports[0] == Report(INDEXING, Some(0.0))
      && forall i :: 0 <= i < |ins.progress| ==>
           reports[i + 1] == Report(INDEXING, Some(ins.progress[i] as real / |documents| as real))
  {
    var documents := svc.parse(bytes).value;
    var ins := svc.insert(documents);
    ProgressAccepted(ins.progress, |documents|);
    ProgressReportsIndexing(ins.progress, |documents|);
    var idx := IndexingReports(documents, svc);
    var reports := ProcessTrace(Ok(bytes), svc).reports;
    assert reports[..|idx|] == idx;
    forall i | 0 <= i < |ins.progress|
      ensures reports[i + 1] == Report(INDEXING, Some(ins.progress[i] as real / |documents| as real))
    {
      assert reports[i + 1] == idx[i + 1];
    }
  }

  /** Counts within [0, len] on a non-empty upload are all reported and none fails. */
  lemma {:induction false} ProgressAccepted(progress: seq<int>, n: nat)
    requires n > 0 && forall i :: 0 <= i < |progress| ==> 0 <= progress[i] <= n
    ensures ProgressReports(progress, n).1.None?
  {
    if progress != [] {
      ProgressAccepted(progress[1..], n);
    }
  }

  /** A count outside [0, len], or any count on an empty upload, stops the reports and fails
      the ingestion call. */
  lemma {:induction false} ProgressRefused(progress: seq<int>, n: nat, k: nat)
    requires k < |progress| && (n == 0 || progress[k] < 0 || progress[k] > n)
    ensures ProgressReports(progress, n).1.Some?
    ensures |ProgressReports(progress, n).0| <= k
  {
    if k > 0 && n > 0 && 0 <= progress[0] <= n {
      ProgressRefused(progress[1..], n, k - 1);
    }
  }

  /** A count that is reported extends the reports of the counts before it. */
  lemma {:induction false} ProgressSnoc(progress: seq<int>, p: int, n: nat)
    requires ProgressReports(progress, n).1.None? && n > 0 && 0 <= p <= n
    ensures ProgressReports(progress + [p], n)
         == (ProgressReports(progress, n).0 + [Report(INDEXING, Some(p as real / n as real))], None)
  {
    ProgressAppend(progress, [p], n);
    assert ProgressReports([p], n) == ([Report(INDEXING, Some(p as real / n as real))], None) by {
      assert [p][1..] == [];
      assert ProgressReports([], n) == ([], None);
      assert [Report(INDEXING, Some(p as real / n as real))] + [] == [Report(INDEXING, Some(p as real / n as real))];
    }
  }

  /** The reports of two runs of counts, one after the other, when the first run does not fail. */
  lemma {:induction false} ProgressAppend(a: seq<int>, b: seq<int>, n: nat)
    requires ProgressReports(a, n).1.None?
    ensures ProgressReports(a + b, n) == (ProgressReports(a, n).0 + ProgressReports(b, n).0, ProgressReports(b, n).1)
  {
    if a == [] {
      assert a + b == b;
      assert [] + ProgressReports(b, n).0 == ProgressReports(b, n).0;
    } else {
      assert (a + b)[1..] == a[1..] + b;
      ProgressAppend(a[1..], b, n);
      var head := [Report(INDEXING, Some(a[0] as real / n as real))];
      assert head + (ProgressReports(a[1..], n).0 + ProgressReports(b, n).0)
          == (head + ProgressReports(a[1..], n).0) + ProgressReports(b, n).0;
    }
  }

  /** An unparsable upload is reported as UNKNOWNFORMAT and nothing else; an upload none of whose
      records is stored is reported as EMPTYFILE after the INDEXING reports. */
  lemma {:induction false} ProcessEarlyExits(bytes: Bytes, svc: Services)
    ensures svc.parse(bytes).Err? && svc.parse(bytes).error.ParseError? ==>
      ProcessTrace(Ok(bytes), svc) == Trace([Report(UNKNOWNFORMAT, None)], None)
    ensures svc.parse(bytes).Ok? && InsertOutcome(svc.insert(svc.parse(bytes).value), |svc.parse(bytes).value|) == Ok([]) ==>
      ProcessTrace(Ok(bytes), svc) == Trace(IndexingReports(svc.parse(bytes).value, svc) + [Report(EMPTYFILE, None)], None)
  {
  }

  /** A failed ingestion, or a failed progress report, reports UNKNOWNERROR and then crashes on
      the unbound `doc_ids`. */
  lemma {:induction false} ProcessInsertFails(bytes: Bytes, svc: Services)
    requires svc.parse(bytes).Ok? && InsertOutcome(svc.insert(svc.parse(bytes).value), |svc.parse(bytes).value|).Err?
    ensures ProcessTrace(Ok(bytes), svc) ==
      Trace(IndexingReports(svc.parse(bytes).value, svc) + [Report(UNKNOWNERROR, None)], Some(UnboundLocalError("doc_ids")))
  {
  }

  /** The upload manager: the chunks received so far, and the statuses reported through `update_status`. */
  class FileUploadManager {
    var fileChunks: map<string, map<int, Bytes>>
    var reports: seq<(string, Report)>

    constructor ()
      ensures fileChunks == map[] && reports == []
    {
      fileChunks := map[];
      reports := [];
    }

    /** `add_chunk(file_id, chunk_number, chunk_data)`. */
    method AddChunk(fileId: string, chunkNumber: int, chunkData: Bytes)
      modifies this
      ensures fileChunks == WithChunk(old(fileChunks), fileId, chunkNumber, chunkData)
      ensures reports == old(reports)
    {
      var chunks := if fileId in fileChunks then fileChunks[fileId] else map[];
      fileChunks := fileChunks[fileId := chunks[chunkNumber := chunkData]];
    }

    /** The reassembly of line 98; reading the defaultdict enters an empty buffer for an unknown file. */
    method CollectData(fileId: string) returns (r: Result<Bytes>)
      modifies this
      ensures r == Assemble(ChunksOf(old(fileChunks), fileId))
      ensures fileChunks == old(fileChunks)[fileId := ChunksOf(old(fileChunks), fileId)]
      ensures reports == old(reports)
    {
      if fileId !in fileChunks {
        fileChunks := fileChunks[fileId := map[]];
      }
      var chunks := fileChunks[fileId];
      var n := |chunks|;
      var data: Bytes := [];
      assert PrependBytes(data, AssembleFrom(chunks, 0, n)) == AssembleFrom(chunks, 0, n) by {
        var x := AssembleFrom(chunks, 0, n);
        if x.Ok? { assert data + x.value == x.value; }
      }
      var i := 0;
      while i < n
        invariant 0 <= i <= n
        invariant AssembleFrom(chunks, 0, n) == PrependBytes(data, AssembleFrom(chunks, i, n))
        decreases n - i
      {
        if i !in chunks {
          r := Err(KeyError(DecimalString(i)));
          return;
        }
        ghost var rest := AssembleFrom(chunks, i + 1, n);
        assert rest.Ok? ==> data + (chunks[i] + rest.value) == (data + chunks[i]) + rest.value;
        data := data + chunks[i];
        i := i + 1;
      }
      assert data + [] == data;
      r := Ok(data);
    }

    /** `update_status(file_id, status, **kwargs)`. */
    method UpdateStatus(fileId: string, report: Report)
      modifies this
      ensures reports == old(reports) + [(fileId, report)] && fileChunks == old(fileChunks)
    {
      reports := reports + [(fileId, report)];
    }

    /** `process_file_task(file_id)`: returns the exception that escapes the background task, if any. */
    method ProcessFileTask(fileId: string, svc: Services) returns (escaped: Option<Error>)
      modifies this
      ensures var t := ProcessTrace(Assemble(ChunksOf(old(fileChunks), fileId)), svc);
        && escaped == t.escaped
        && reports == old(reports) + Tagged(fileId, t.reports)
      ensures fileChunks == old(fileChunks)[fileId := ChunksOf(old(fileChunks), fileId)]
    {
      var data := CollectData(fileId);
      if data.Err? {
        return Some(data.error);
      }
      var parsed := svc.parse(data.value);
      if parsed.Err? {
        if parsed.error.ParseError? {
          UpdateStatus(fileId, Report(UNKNOWNFORMAT, None));
          return None;
        }
        return Some(parsed.error);
      }
      escaped := IngestBlock(fileId, svc, parsed.value);
    }

    /** Lines 103-139: the INDEXING report, ingestion, and the vectorization block. */
    method IngestBlock(fileId: string, svc: Services, documents: seq<Doc>) returns (escaped: Option<Error>)
      modifies this
      ensures escaped == IngestTrace(documents, svc).escaped
      ensures reports == old(reports) + Tagged(fileId, IngestTrace(documents, svc).reports)
      ensures fileChunks == old(fileChunks)
    {
      var initial := Report(INDEXING, Some(0.0));
      UpdateStatus(fileId, initial);
      var inserted := InsertDocuments(fileId, svc, documents);
      ghost var progress := ProgressReports(svc.insert(documents).progress, |documents|).0;
      ghost var indexing := IndexingReports(documents, svc);
      TaggedAppend(fileId, [initial], progress);
      assert reports == old(reports) + Tagged(fileId, indexing);
      if inserted.Err? {
        UpdateStatus(fileId, Report(UNKNOWNERROR, None));
        TaggedAppend(fileId, indexing, [Report(UNKNOWNERROR, None)]);
        return Some(UnboundLocalError("doc_ids"));
      }
      var docIds := inserted.value;
      if |docIds| == 0 {
        UpdateStatus(fileId, Report(EMPTYFILE, None));
        TaggedAppend(fileId, indexing, [Report(EMPTYFILE, None)]);
        return None;
      }
      VectorizeBlock(fileId, svc, docIds);
      TaggedAppend(fileId, indexing, VectorizeStage(svc, docIds).reports);
      escaped := None;
    }

    /** `insert_documents(documents, file_id)`: ingestion, whose callback reports each count as
        INDEXING progress; the first report that fails ends the call with its exception. */
    method InsertDocuments(fileId: string, svc: Services, documents: seq<Doc>) returns (r: Result<seq<string>>)
      modifies this
      ensures r == InsertOutcome(svc.insert(documents), |documents|)
      ensures reports == old(reports) + Tagged(fileId, ProgressReports(svc.insert(documents).progress, |documents|).0)
      ensures fileChunks == old(fileChunks)
    {
      var ins := svc.insert(documents);
      var n := |documents|;
      ghost var done: seq<Report> := [];
      var i := 0;
      while i < |ins.progress|
        invariant 0 <= i <= |ins.progress|
        invariant ProgressReports(ins.progress[..i], n) == (done, None)
        invariant reports == old(reports) + Tagged(fileId, done)
        invariant fileChunks == old(fileChunks)
      {
        var p := ins.progress[i];
        if n == 0 || !(0 <= p <= n) {
          ProgressAppend(ins.progress[..i], ins.progress[i..], n);
          assert ins.progress[..i] + ins.progress[i..] == ins.progress;
          return Err(if n == 0 then ZeroDivisionError else ValidationError("progress"));
        }
        var report := Report(INDEXING, Some(p as real / n as real));
        ProgressSnoc(ins.progress[..i], p, n);
        assert ins.progress[..i + 1] == ins.progress[..i] + [p];
        UpdateStatus(fileId, report);
        TaggedAppend(fileId, done, [report]);
        done := done + [report];
        i := i + 1;
      }
      assert ins.progress[..i] == ins.progress;
      r := ins.outcome;
    }

    /** The `try`/`finally` block that fetches, vectorizes and indexes the inserted records. */
    method VectorizeBlock(fileId: string, svc: Services, docIds: seq<string>)
      modifies this
      ensures reports == old(reports) + Tagged(fileId, VectorizeStage(svc, docIds).reports)
      ensures fileChunks == old(fileChunks)
    {
      var fetched := svc.fetch(docIds);
      if fetched.Err? {
        UpdateStatus(fileId, Report(VECTORIZINGERROR, None));
        return;
      }
      UpdateStatus(fileId, Report(VECTORIZING, Some(0.0)));
      var texts := Texts(fetched.value);
      var ids := IdTexts(fetched.value);
      if texts.Err? || ids.Err? {
        UpdateStatus(fileId, Report(VECTORIZINGERROR, None));
        return;
      }
      var vectors := svc.vectorize(texts.value, ids.value);
      if vectors.Err? || vectors.value == [] {
        UpdateStatus(fileId, Report(VECTORIZINGERROR, None));
        return;
      }
      var indexed := svc.indexVectors(vectors.value, ids.value);
      if indexed.Some? {
        UpdateStatus(fileId, Report(VECTORINDEXINGERROR, None));
        return;
      }
      UpdateStatus(fileId, Report(DONE, None));
    }
  }
}
