/**
 * The request and record shapes of bntl/models.py: the bibliographic entry
 * schema (as a table of fields checked by one pydantic-style validator),
 * the search and paging parameters with their defaults and bounds, the
 * upload status record and the vector-search parameters.
 */
module BntlModels {
  import opened Common

  // ---------------------------------------------------------------- entry schemas

  /** The declared type of a field. */
  datatype Kind = StrKind | IntKind | StrListKind | TagMapKind | TimeKind

  /** One declared field: name, type, whether it must be present and non-None, and the
      default put in its place when it is absent (pydantic does not validate defaults). */
  datatype FieldSpec = FieldSpec(name: string, kind: Kind, required: bool, default: Value)

  function Optional(name: string, kind: Kind): FieldSpec { FieldSpec(name, kind, false, VNone) }
  function Required(name: string, kind: Kind): FieldSpec { FieldSpec(name, kind, true, VNone) }

  /** The optional source fields that every entry schema declares after its first six. */
  const SourceFields: seq<FieldSpec> := [
    Optional("secondary_title", StrKind), Optional("tertiary_title", StrKind),
    Optional("authors", StrListKind), Optional("first_authors", StrListKind),
    Optional("secondary_authors", StrListKind), Optional("tertiary_authors", StrListKind),
    Optional("journal_name", StrKind), Optional("end_page", StrKind), Optional("start_page", StrKind),
    Optional("volume", StrKind), Optional("number", StrKind), Optional("edition", StrKind),
    Optional("issn", StrKind), Optional("publisher", StrKind), Optional("place_published", StrKind),
    Optional("urls", StrListKind), Optional("note", StrKind), Optional("research_notes", StrKind),
    Optional("keywords", StrListKind), Optional("unknown_tag", TagMapKind)]

  /** `EntryModel`: every field optional; year and end_year default to the (unvalidated) "". */
  const EntrySchema: seq<FieldSpec> := [
    FieldSpec("end_year", IntKind, false, VStr("")),
    Optional("title", StrKind), Optional("type_of_reference", StrKind),
    FieldSpec("year", IntKind, false, VStr("")),
    Optional("label", StrKind), Optional("name_of_database", StrKind)] + SourceFields

  /** `DBEntryModel`: the entry fields plus the stored id, the ingestion date and the hash. */
  const DBEntrySchema: seq<FieldSpec> :=
    EntrySchema + [Required("doc_id", StrKind), Required("date_added", TimeKind), Required("hash", StrKind)]

  function Names(schema: seq<FieldSpec>): set<string>
  {
    set f | f in schema :: f.name
  }

  predicate DistinctNames(schema: seq<FieldSpec>)
  {
    forall i, j :: 0 <= i < j < |schema| ==> schema[i].name != schema[j].name
  }

  /** Lax-mode coercion of one present value to a declared type; None only where nullable. */
  function Coerce(kind: Kind, nullable: bool, v: Value): (r: Result<Value>)
    ensures r.Err? ==> r.error.ValidationError?
  {
    if v == VNone then (if nullable then Ok(VNone) else Err(ValidationError("none is not an allowed value")))
    else match kind
      case StrKind => if v.VStr? then Ok(v) else Err(ValidationError("str type expected"))
      case IntKind =>
        (match v
         case VInt(_) => Ok(v)
         case VBool(b) => Ok(VInt(if b then 1 else 0))
         case VStr(s) => if ParseInt(s).Some? then Ok(VInt(ParseInt(s).value)) else Err(ValidationError("int parsing"))
         case _ => Err(ValidationError("int type expected")))
      case StrListKind => if v.VList? then Ok(v) else Err(ValidationError("list type expected"))
      case TagMapKind =>
        if v.VDict? && forall k :: k in v.entries ==> v.entries[k].VList? then Ok(v)
        else Err(ValidationError("dict of lists expected"))
      case TimeKind => if v.VTime? then Ok(v) else Err(ValidationError("datetime expected"))
  }

  /** The value a field takes in the dumped model, or the validation error. */
  function ValidateField(f: FieldSpec, raw: Doc): (r: Result<Value>)
    ensures r.Err? ==> r.error.ValidationError?
  {
    if f.name !in raw then
      (if f.required then Err(ValidationError(f.name)) else Ok(f.default))
    else Coerce(f.kind, !f.required, raw[f.name])
  }

  /** `Model.model_validate(raw).model_dump()`: every declared field, coerced; undeclared keys dropped. */
  function Validate(schema: seq<FieldSpec>, raw: Doc): (r: Result<Doc>)
    ensures r.Ok? ==> r.value.Keys == Names(schema)
    ensures r.Err? ==> r.error.ValidationError?
  {
    if schema == [] then Ok(map[])
    else
      var v :- ValidateField(schema[0], raw);
      var rest :- Validate(schema[1..], raw);
      assert Names(schema) == Names(schema[1..]) + {schema[0].name} by {
        assert forall f :: f in schema <==> f == schema[0] || f in schema[1..];
      }
      Ok(rest[schema[0].name := v])
  }

  /** What a validated value of a declared type looks like. */
  predicate Conforms(f: FieldSpec, v: Value)
  {
    || (!f.required && (v == VNone || v == f.default))
    || (f.kind == StrKind && v.VStr?)
    || (f.kind == IntKind && v.VInt?)
    || (f.kind == StrListKind && v.VList?)
    || (f.kind == TagMapKind && v.VDict? && forall k :: k in v.entries ==> v.entries[k].VList?)
    || (f.kind == TimeKind && v.VTime?)
  }

  /** Validation succeeds exactly when every declared field validates. */
  lemma {:induction false} ValidateOkIff(schema: seq<FieldSpec>, raw: Doc)
    ensures Validate(schema, raw).Ok? <==> forall i :: 0 <= i < |schema| ==> ValidateField(schema[i], raw).Ok?
  {
    if schema != [] {
      ValidateOkIff(schema[1..], raw);
      assert forall i :: 1 <= i < |schema| ==> schema[i] == schema[1..][i - 1];
    }
  }

  /** Each declared field of the validated document holds what that field validated to. */
  lemma {:induction false} ValidateAt(schema: seq<FieldSpec>, raw: Doc, k: nat)
    requires DistinctNames(schema) && k < |schema| && Validate(schema, raw).Ok?
    ensures ValidateField(schema[k], raw).Ok?
    ensures Validate(schema, raw).value[schema[k].name] == ValidateField(schema[k], raw).value
  {
    if k > 0 {
      ValidateAt(schema[1..], raw, k - 1);
    }
  }

  /** A value that validates conforms to its declared type. */
  lemma {:induction false} FieldConforms(f: FieldSpec, raw: Doc)
    requires ValidateField(f, raw).Ok?
    ensures Conforms(f, ValidateField(f, raw).value)
  {
  }

  /** A validated document has exactly the declared keys, each holding a value of its declared type. */
  lemma {:induction false} ValidateConforms(schema: seq<FieldSpec>, raw: Doc)
    requires DistinctNames(schema) && Validate(schema, raw).Ok?
    ensures Validate(schema, raw).value.Keys == Names(schema)
    ensures forall k :: 0 <= k < |schema| ==> Conforms(schema[k], Validate(schema, raw).value[schema[k].name])
  {
    forall k | 0 <= k < |schema|
      ensures Conforms(schema[k], Validate(schema, raw).value[schema[k].name])
    {
      ValidateAt(schema, raw, k);
      FieldConforms(schema[k], raw);
    }
  }

  /** A declared field present with a value already of its type is kept unchanged. */
  lemma {:induction false} ValidateKeeps(schema: seq<FieldSpec>, raw: Doc, k: nat)
    requires DistinctNames(schema) && k < |schema| && Validate(schema, raw).Ok?
    requires schema[k].name in raw && raw[schema[k].name] != VNone
    requires schema[k].kind in {StrKind, StrListKind} || raw[schema[k].name].VInt?
    ensures Validate(schema, raw).value[schema[k].name] == raw[schema[k].name]
  {
    ValidateAt(schema, raw, k);
  }

  /** A declared optional field that the raw document lacks takes its default (for the
      entry's year and end_year, the string ""). */
  lemma {:induction false} AbsentTakesDefault(schema: seq<FieldSpec>, raw: Doc, k: nat)
    requires DistinctNames(schema) && k < |schema| && Validate(schema, raw).Ok?
    requires schema[k].name !in raw
    ensures !schema[k].required
    ensures Validate(schema, raw).value[schema[k].name] == schema[k].default
  {
    ValidateAt(schema, raw, k);
  }

  /** Every entry field is optional: the empty document validates. */
  lemma {:induction false} EmptyEntryValidates()
    ensures Validate(EntrySchema, map[]).Ok?
  {
    ValidateOkIff(EntrySchema, map[]);
  }

  /** An entry that validates has a title key (possibly None). */
  lemma {:induction false} EntryHasTitle(raw: Doc)
    ensures Validate(EntrySchema, raw).Ok? ==> "title" in Validate(EntrySchema, raw).value
  {
    assert EntrySchema[1] in EntrySchema;
  }

  // ---------------------------------------------------------------- search parameters

  /** `QueryParams` (and `SearchQuery` of bntl/queries.py, which lacks the case flags and full_text). */
  datatype QueryParams = QueryParams(
    typeOfReference: Option<string>, title: Option<string>, year: Option<string>,
    author: Option<string>, keywords: Option<string>,
    useRegexAuthor: bool, useRegexTitle: bool, useRegexKeywords: bool,
    useCaseAuthor: bool, useCaseTitle: bool, useCaseKeywords: bool,
    fullText: Option<string>)

  /** `QueryParams()`: every text filter None, every regex and case flag False. */
  function DefaultQueryParams(): (q: QueryParams)
    ensures q.typeOfReference == q.title == q.year == q.author == q.keywords == q.fullText == None
    ensures !q.useRegexAuthor && !q.useRegexTitle && !q.useRegexKeywords
    ensures !q.useCaseAuthor && !q.useCaseTitle && !q.useCaseKeywords
  {
    QueryParams(None, None, None, None, None, false, false, false, false, false, false, None)
  }

  // ---------------------------------------------------------------- paging parameters

  datatype SortOrder = Ascending | Descending | Unsorted

  datatype PageParams = PageParams(page: int, size: int, sortAuthor: SortOrder, sortYear: SortOrder)

  /** `Literal["ascending", "descending", ""]`. */
  function ParseSort(s: string): (r: Result<SortOrder>)
    ensures r.Ok? <==> s in {"ascending", "descending", ""}
    ensures s == "" ==> r == Ok(Unsorted)
  {
    if s == "ascending" then Ok(Ascending)
    else if s == "descending" then Ok(Descending)
    else if s == "" then Ok(Unsorted)
    else Err(ValidationError("sort"))
  }

  /** `PageParams(...)` from the request's values (None = not given): page >= 1, size <= 100
      with no lower bound, sorts from the literal set; defaults 1, 10, "", "". */
  function MakePageParams(page: Option<int>, size: Option<int>,
                          sortAuthor: Option<string>, sortYear: Option<string>): Result<PageParams>
  {
    var p := if page.Some? then page.value else 1;
    var s := if size.Some? then size.value else 10;
    if p < 1 then Err(ValidationError("page"))
    else if s > 100 then Err(ValidationError("size"))
    else
      var sa :- ParseSort(if sortAuthor.Some? then sortAuthor.value else "");
      var sy :- ParseSort(if sortYear.Some? then sortYear.value else "");
      Ok(PageParams(p, s, sa, sy))
  }

  /** The request is accepted exactly when its values are within the declared bounds. */
  lemma {:induction false} PageParamsBounds(page: Option<int>, size: Option<int>, sortAuthor: Option<string>, sortYear: Option<string>)
    ensures var r := MakePageParams(page, size, sortAuthor, sortYear);
      r.Ok? <==> (page.None? || page.value >= 1) && (size.None? || size.value <= 100)
                 && (sortAuthor.None? || sortAuthor.value in {"ascending", "descending", ""})
                 && (sortYear.None? || sortYear.value in {"ascending", "descending", ""})
    ensures var r := MakePageParams(page, size, sortAuthor, sortYear);
      r.Ok? ==> r.value.page >= 1 && r.value.size <= 100
  {
  }

  /** With nothing given, the page is 1, of 10, unsorted; and a size of -5 is accepted. */
  lemma {:induction false} PageParamsDefaults()
    ensures MakePageParams(None, None, None, None) == Ok(PageParams(1, 10, Unsorted, Unsorted))
    ensures MakePageParams(None, Some(-5), None, None).Ok?
  {
  }

  // ---------------------------------------------------------------- status and vector parameters

  /** `StatusModel` of an upload: a status text, an optional date and an optional progress in [0, 1]. */
  datatype UploadStatusRecord = UploadStatusRecord(status: string, dateUpdated: Option<int>, progress: Option<real>)

  function MakeUploadStatus(status: string, dateUpdated: Option<int>, progress: Option<real>): (r: Result<UploadStatusRecord>)
    ensures r.Ok? <==> progress.None? || 0.0 <= progress.value <= 1.0
    ensures r.Ok? ==> r.value.status == status && r.value.progress == progress
  {
    if progress.Some? && !(0.0 <= progress.value <= 1.0) then Err(ValidationError("progress"))
    else Ok(UploadStatusRecord(status, dateUpdated, progress))
  }

  /** `VectorParams`: top-k limit (default 10) and a similarity threshold in [0, 1) (default 0). */
  datatype VectorParams = VectorParams(limit: int, threshold: real)

  function MakeVectorParams(limit: Option<int>, threshold: Option<real>): (r: Result<VectorParams>)
    ensures r.Ok? <==> threshold.None? || 0.0 <= threshold.value < 1.0
    ensures r.Ok? ==> 0.0 <= r.value.threshold < 1.0
    ensures r.Ok? && limit.None? ==> r.value.limit == 10
    ensures r.Ok? && threshold.None? ==> r.value.threshold == 0.0
  {
    var t := if threshold.Some? then threshold.value else 0.0;
    if !(0.0 <= t < 1.0) then Err(ValidationError("threshold"))
    else Ok(VectorParams(if limit.Some? then limit.value else 10, t))
  }
}
