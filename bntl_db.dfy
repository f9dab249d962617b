/**
 * bntl/db.py: the current query builder (`build_query`, with case flags and
 * the full-text shortcut), the `_id` to `doc_id` rewrite of `find_one` and
 * `find_last_added`, and the Atlas guards of `full_text_search` and
 * `create_text_index`. The collection is the in-memory one of store.dfy.
 */
module Db {
  import opened Common
  import opened Filter
  import M = BntlModels
  import Store

  // ---------------------------------------------------------------- build_query

  /** The matcher a search string becomes: the raw string outside regex mode (the case flag
      has no effect), else `{"$regex": s}` with `"$options": "i"` unless the case flag is set. */
  function DbMatcher(s: string, useRegex: bool, useCase: bool): Matcher
  {
    if useRegex then Regex(s, !useCase) else Exact(s)
  }

  function OptMatcher(s: Option<string>, useRegex: bool, useCase: bool): Option<Matcher>
  {
    if s.Some? then Some(DbMatcher(s.value, useRegex, useCase)) else None
  }

  /** The year clause when a year is given; an unparsable year is an error. */
  function OptYear(year: Option<string>): Result<Option<Filter>>
  {
    if year.None? then Ok(None)
    else
      var clause :- YearClause(year.value);
      Ok(Some(clause))
  }

  /** `if full_text:` — a non-empty string. */
  predicate FullTextGiven(q: M.QueryParams)
  {
    q.fullText.Some? && q.fullText.value != ""
  }

  /** What `build_query(**params)` returns: the full-text shortcut, or the collapsed clause list. */
  function BuildQuerySpec(q: M.QueryParams): Result<Filter>
  {
    if FullTextGiven(q) then Ok(Match("full_text", Exact(q.fullText.value)))
    else
      var year :- OptYear(q.year);
      Ok(Combine(Clauses(q.typeOfReference, OptMatcher(q.title, q.useRegexTitle, q.useCaseTitle), year,
                         OptMatcher(q.author, q.useRegexAuthor, q.useCaseAuthor),
                         OptMatcher(q.keywords, q.useRegexKeywords, q.useCaseKeywords))))
  }

  /** `build_query`: the clause list grown by conditional appends, each search string rebound
      to its matcher (DbMatcher). */
  method BuildQuery(q: M.QueryParams) returns (r: Result<Filter>)
    ensures r == BuildQuerySpec(q)
  {
    if q.fullText.Some? && q.fullText.value != "" {
      return Ok(Match("full_text", Exact(q.fullText.value)));
    }
    ghost var ti := OptMatcher(q.title, q.useRegexTitle, q.useCaseTitle);
    ghost var a := OptMatcher(q.author, q.useRegexAuthor, q.useCaseAuthor);
    ghost var k := OptMatcher(q.keywords, q.useRegexKeywords, q.useCaseKeywords);
    var query: seq<Filter> := [];
    if q.typeOfReference.Some? {
      query := query + [Match("type_of_reference", Exact(q.typeOfReference.value))];
    }
    ghost var c1 := query;
    if q.title.Some? {
      var title := DbMatcher(q.title.value, q.useRegexTitle, q.useCaseTitle);
      query := query + [AnyField(TitleFields, title)];
    }
    ghost var c2 := query;
    ghost var year: Option<Filter> := None;
    if q.year.Some? {
      var clause := YearClause(q.year.value);
      if clause.Err? {
        return Err(clause.error);
      }
      query := query + [clause.value];
      year := Some(clause.value);
    }
    ghost var c3 := query;
    assert OptYear(q.year) == Ok(year);
    if q.author.Some? {
      var author := DbMatcher(q.author.value, q.useRegexAuthor, q.useCaseAuthor);
      query := query + [AnyField(AuthorFields, author)];
    }
    ghost var c4 := query;
    if q.keywords.Some? {
      var keywords := DbMatcher(q.keywords.value, q.useRegexKeywords, q.useCaseKeywords);
      query := query + [Match("keywords", keywords)];
    }
    ClausesAppended(q.typeOfReference, ti, year, a, k, c1, c2, c3, c4, query);
    r := Ok(Combine(query));
  }

  /** The five conditional appends build `Clauses`. */
  lemma {:induction false} ClausesAppended(t: Option<string>, ti: Option<Matcher>, y: Option<Filter>, a: Option<Matcher>, k: Option<Matcher>,
                        c1: seq<Filter>, c2: seq<Filter>, c3: seq<Filter>, c4: seq<Filter>, c5: seq<Filter>)
    requires c1 == if t.Some? then [Match("type_of_reference", Exact(t.value))] else []
    requires c2 == c1 + if ti.Some? then [AnyField(TitleFields, ti.value)] else []
    requires c3 == c2 + if y.Some? then [y.value] else []
    requires c4 == c3 + if a.Some? then [AnyField(AuthorFields, a.value)] else []
    requires c5 == c4 + if k.Some? then [Match("keywords", k.value)] else []
    ensures c5 == Clauses(t, ti, y, a, k)
  {
  }

  /** A non-empty full_text returns `{"full_text": full_text}` whatever the other parameters are;
      as a filter it tests a field that no entry carries, so it selects no entry. */
  lemma {:induction false} FullTextShortcut(q: M.QueryParams, doc: Doc, e: Engine)
    requires FullTextGiven(q)
    ensures BuildQuerySpec(q) == Ok(Match("full_text", Exact(q.fullText.value)))
    ensures "full_text" !in doc ==> !Eval(BuildQuerySpec(q).value, doc, e)
  {
  }

  /** The only failure is an unparsable year (when there is no full-text shortcut). */
  lemma {:induction false} BuildQueryFails(q: M.QueryParams)
    ensures BuildQuerySpec(q).Err?
        <==> !FullTextGiven(q) && q.year.Some? && YearClause(q.year.value).Err?
  {
  }

  function Count(q: M.QueryParams): nat
  {
    Present(q.typeOfReference) + Present(q.title) + Present(q.year) + Present(q.author) + Present(q.keywords)
  }

  /** The clauses of the given filters, in the order `build_query` appends them. */
  function GivenClauses(q: M.QueryParams): seq<Filter>
    requires OptYear(q.year).Ok?
  {
    Clauses(q.typeOfReference, OptMatcher(q.title, q.useRegexTitle, q.useCaseTitle), OptYear(q.year).value,
            OptMatcher(q.author, q.useRegexAuthor, q.useCaseAuthor),
            OptMatcher(q.keywords, q.useRegexKeywords, q.useCaseKeywords))
  }

  /**
   * The shape follows the number of filters given: none gives `{}`, one gives that filter's
   * clause itself, two or more give `{"$and": clauses}` with one clause per filter in the
   * order type, title, year, author, keywords — so the type clause is first and the keywords
   * clause last when present.
   */
  lemma {:induction false} BuildQueryShape(q: M.QueryParams)
    ensures var r := BuildQuerySpec(q);
      r.Ok? && !FullTextGiven(q) ==>
        && |GivenClauses(q)| == Count(q)
        && (Count(q) == 0 ==> r.value == MatchAll)
        && (Count(q) == 1 ==> r.value == GivenClauses(q)[0])
        && (Count(q) >= 2 ==> r.value == And(GivenClauses(q)))
        && (Count(q) >= 1 && q.typeOfReference.Some? ==>
              GivenClauses(q)[0] == Match("type_of_reference", Exact(q.typeOfReference.value)))
        && (Count(q) >= 1 && q.keywords.Some? ==>
              GivenClauses(q)[Count(q) - 1] == Match("keywords", DbMatcher(q.keywords.value, q.useRegexKeywords, q.useCaseKeywords)))
  {
    var r := BuildQuerySpec(q);
    if r.Ok? && !FullTextGiven(q) {
      var year := OptYear(q.year).value;
      var ti := OptMatcher(q.title, q.useRegexTitle, q.useCaseTitle);
      var a := OptMatcher(q.author, q.useRegexAuthor, q.useCaseAuthor);
      var k := OptMatcher(q.keywords, q.useRegexKeywords, q.useCaseKeywords);
      ClausesCount(q.typeOfReference, ti, year, a, k);
    }
  }

  /**
   * What the built filter selects (no full-text shortcut): exactly the documents whose type
   * equals the given one, whose title, secondary or tertiary title matches the title matcher,
   * that satisfy the year clause, one of whose four author fields matches the author matcher,
   * and whose keywords match — each test only for a filter that was given.
   */
  lemma {:induction false} BuildQueryMeans(q: M.QueryParams, doc: Doc, e: Engine)
    requires !FullTextGiven(q) && BuildQuerySpec(q).Ok?
    ensures Eval(BuildQuerySpec(q).value, doc, e)
        <==> && (q.typeOfReference.Some? ==>
                   "type_of_reference" in doc && MatchValue(Exact(q.typeOfReference.value), doc["type_of_reference"], e))
             && (q.title.Some? ==>
                   exists i :: 0 <= i < |TitleFields| && TitleFields[i] in doc
                            && MatchValue(DbMatcher(q.title.value, q.useRegexTitle, q.useCaseTitle), doc[TitleFields[i]], e))
             && (q.year.Some? ==> Eval(YearClause(q.year.value).value, doc, e))
             && (q.author.Some? ==>
                   exists i :: 0 <= i < |AuthorFields| && AuthorFields[i] in doc
                            && MatchValue(DbMatcher(q.author.value, q.useRegexAuthor, q.useCaseAuthor), doc[AuthorFields[i]], e))
             && (q.keywords.Some? ==>
                   "keywords" in doc && MatchValue(DbMatcher(q.keywords.value, q.useRegexKeywords, q.useCaseKeywords), doc["keywords"], e))
  {
    var year := OptYear(q.year).value;
    var ti := OptMatcher(q.title, q.useRegexTitle, q.useCaseTitle);
    var a := OptMatcher(q.author, q.useRegexAuthor, q.useCaseAuthor);
    var k := OptMatcher(q.keywords, q.useRegexKeywords, q.useCaseKeywords);
    CombineMeansAll(Clauses(q.typeOfReference, ti, year, a, k), doc, e);
    ClausesMeans(q.typeOfReference, ti, year, a, k, doc, e);
  }

  /** With no filter given, the query is `{}` and selects every document. */
  lemma {:induction false} NoFiltersMatchAll(doc: Doc, e: Engine)
    ensures BuildQuerySpec(M.DefaultQueryParams()) == Ok(MatchAll)
    ensures Eval(BuildQuerySpec(M.DefaultQueryParams()).value, doc, e)
  {
  }

  // ---------------------------------------------------------------- find_one / find_last_added

  /**
   * `str(v)` for the `_id` values a collection holds: an ObjectId prints as its hex digits.
   * Stored documents carry an ObjectId, or the str or int `_id` they were given; other kinds
   * of `_id` are not modelled and print as "".
   */
  function IdText(v: Value): string
  {
    match v
    case VId(o) => o
    case VStr(s) => s
    case VInt(i) => DecimalString(i)
    case _ => ""
  }

  /** `item["doc_id"] = str(item.pop("_id"))`. */
  function RenameId(d: Doc): (r: Result<Doc>)
    ensures r.Err? <==> "_id" !in d
    ensures r.Ok? ==> r.value.Keys == d.Keys - {"_id"} + {"doc_id"}
    ensures r.Ok? ==> r.value["doc_id"] == VStr(IdText(d["_id"]))
    ensures r.Ok? ==> forall k :: k in d && k != "_id" && k != "doc_id" ==> r.value[k] == d[k]
  {
    if "_id" !in d then Err(KeyError("_id"))
    else Ok((d - {"_id"})["doc_id" := VStr(IdText(d["_id"]))])
  }

  /** The document's `_id` is the ObjectId with these (lower-case) digits. */
  predicate HasId(d: Doc, oid: string)
  {
    "_id" in d && d["_id"] == VId(oid)
  }

  /** Where the first document with this id sits in the collection. */
  function FirstWithId(docs: seq<Doc>, oid: string): (r: Option<nat>)
    ensures r.Some? ==> r.value < |docs| && HasId(docs[r.value], oid)
                        && forall j :: 0 <= j < r.value ==> !HasId(docs[j], oid)
    ensures r.None? ==> forall j :: 0 <= j < |docs| ==> !HasId(docs[j], oid)
  {
    if docs == [] then None
    else if HasId(docs[0], oid) then Some(0)
    else
      match FirstWithId(docs[1..], oid)
      case None => None
      case Some(i) => Some(i + 1)
  }

  /**
   * `find_one(doc_id)` over the collection's documents: `ObjectId(doc_id)` refuses a string that
   * is not 24 hex digits; otherwise the first document with that id, `_id` rewritten to `doc_id`,
   * or None.
   */
  function FindOne(docs: seq<Doc>, docId: string): (r: Result<Option<Doc>>)
    ensures r.Err? <==> !Store.ValidOid(docId)
    ensures r.Err? ==> r.error == InvalidId(docId)
    ensures r == Ok(None) <==>
      Store.ValidOid(docId) && forall j :: 0 <= j < |docs| ==> !HasId(docs[j], Store.CanonicalOid(docId))
    ensures r.Ok? && r.value.Some? ==>
      exists j :: 0 <= j < |docs| && HasId(docs[j], Store.CanonicalOid(docId))
                  && RenameId(docs[j]) == Ok(r.value.value)
  {
    if !Store.ValidOid(docId) then Err(InvalidId(docId))
    else
      match FirstWithId(docs, Store.CanonicalOid(docId))
      case None => Ok(None)
      case Some(j) =>
        Ok(Some(RenameId(docs[j]).value))
  }

  lemma {:induction false} CanonicalIdempotent(s: string)
    ensures Store.CanonicalOid(Store.CanonicalOid(s)) == Store.CanonicalOid(s)
    ensures Store.ValidOid(s) ==> Store.ValidOid(Store.CanonicalOid(s))
  {
  }

  /** The id is read case-insensitively: upper-case hex digits find the same document. */
  lemma {:induction false} FindOneIgnoresCase(docs: seq<Doc>, docId: string)
    requires Store.ValidOid(docId)
    ensures FindOne(docs, docId) == FindOne(docs, Store.CanonicalOid(docId))
  {
    CanonicalIdempotent(docId);
  }

  /** A stored document is found by its own id, which comes back as `doc_id` with `_id` gone. */
  lemma {:induction false} FindOneFindsStored(docs: seq<Doc>, i: nat, oid: string)
    requires i < |docs| && HasId(docs[i], oid) && Store.ValidOid(oid) && Store.CanonicalOid(oid) == oid
    ensures var r := FindOne(docs, oid);
      r.Ok? && r.value.Some? && r.value.value["doc_id"] == VStr(oid) && "_id" !in r.value.value
  {
    var j := FirstWithId(docs, oid);
    assert j.Some?;
  }

  /** How many documents `find_last_added(top)` takes from a cursor of n. */
  function TopCount(n: nat, top: int): (k: nat)
    ensures k <= n && (top >= 0 ==> k <= top)
    ensures top >= n ==> k == n
    ensures 0 <= top <= n ==> k == top
    ensures top <= 0 ==> k == 0
  {
    if top <= 0 then 0 else if top < n then top else n
  }

  /** `find_last_added(top)` over the cursor the store returns for the `date_added` descending
      sort: the first `top` documents, each with its `_id` rewritten. */
  method FindLastAdded(cursor: seq<Doc>, top: int) returns (r: Result<seq<Doc>>)
    ensures r.Ok? <==> forall j :: 0 <= j < TopCount(|cursor|, top) ==> "_id" in cursor[j]
    ensures r.Ok? ==> |r.value| == TopCount(|cursor|, top)
    ensures r.Ok? ==> forall j :: 0 <= j < |r.value| ==> RenameId(cursor[j]) == Ok(r.value[j])
  {
    var items: seq<Doc> := [];
    var count := 0;
    var i := 0;
    while i < |cursor|
      invariant 0 <= i <= |cursor| && count == i == |items|
      invariant i <= TopCount(|cursor|, top)
      invariant forall j :: 0 <= j < i ==> "_id" in cursor[j] && RenameId(cursor[j]) == Ok(items[j])
    {
      if count >= top {
        break;
      }
      var item := RenameId(cursor[i]);
      if item.Err? {
        return Err(item.error);
      }
      items := items + [item.value];
      count := count + 1;
      i := i + 1;
    }
    r := Ok(items);
  }

  /** A document's `date_added`, if it has one; documents without one sort last descending. */
  predicate AtLeastAsNew(a: Doc, b: Doc)
  {
    "date_added" in b && b["date_added"].VTime? ==>
      "date_added" in a && a["date_added"].VTime? && a["date_added"].t >= b["date_added"].t
  }

  /** The cursor of `sort("date_added", DESCENDING)`: each document at least as new as the next. */
  predicate NewestFirst(cursor: seq<Doc>)
  {
    forall i :: 0 < i < |cursor| ==> AtLeastAsNew(cursor[i - 1], cursor[i])
  }

  lemma {:induction false} NewestFirstPairs(cursor: seq<Doc>, i: nat, j: nat)
    requires NewestFirst(cursor) && i <= j < |cursor|
    ensures AtLeastAsNew(cursor[i], cursor[j])
    decreases j - i
  {
    if i < j {
      NewestFirstPairs(cursor, i + 1, j);
    }
  }

  /** On the descending cursor, every document `find_last_added` returns is at least as new as
      every document it leaves out. */
  lemma {:induction false} LastAddedAreNewest(cursor: seq<Doc>, top: int)
    requires NewestFirst(cursor)
    ensures forall i, j :: 0 <= i < TopCount(|cursor|, top) <= j < |cursor| ==> AtLeastAsNew(cursor[i], cursor[j])
  {
    forall i, j | 0 <= i < TopCount(|cursor|, top) <= j < |cursor|
      ensures AtLeastAsNew(cursor[i], cursor[j])
    {
      NewestFirstPairs(cursor, i, j);
    }
  }

  // ---------------------------------------------------------------- Atlas guards

  /** The `$search` stage of `full_text_search`: `{"index": "default", "text": {"query": s,
      "path": {"wildcard": "*"}, ["fuzzy": kwargs]}}`. */
  datatype SearchStage = SearchStage(index: string, query: string, pathWildcard: string, fuzzy: Option<Doc>)

  /** The client's deployment flag and its bibliography collection. */
  class Client {
    const isAtlas: bool
    const bntl: Store.Collection

    constructor (isAtlas: bool, bntl: Store.Collection)
      ensures this.isAtlas == isAtlas && this.bntl == bntl
    {
      this.isAtlas := isAtlas;
      this.bntl := bntl;
    }

    /** `full_text_search(string, fuzzy, **fuzzy_kwargs)`: refused off Atlas; otherwise the
        search stage handed to the aggregation, with the fuzzy options only when fuzzy is set. */
    function FullTextSearch(s: string, fuzzy: bool, fuzzyKwargs: Doc): (r: Result<SearchStage>)
      ensures r.Err? <==> !isAtlas
      ensures r.Err? ==> r.error.ValueError?
      ensures r.Ok? ==> r.value.index == "default" && r.value.query == s && r.value.pathWildcard == "*"
      ensures r.Ok? ==> (r.value.fuzzy.Some? <==> fuzzy) && (fuzzy ==> r.value.fuzzy == Some(fuzzyKwargs))
    {
      if !isAtlas then Err(ValueError("full_text_search requires Atlas deployment"))
      else Ok(SearchStage("default", s, "*", if fuzzy then Some(fuzzyKwargs) else None))
    }
  }

  /** `create_text_index(client)`: nothing on Atlas, else the local collection gets its text index;
      the documents are untouched either way. */
  method CreateTextIndex(client: Client)
    modifies client.bntl
    ensures client.bntl.textIndexed == (old(client.bntl.textIndexed) || !client.isAtlas)
    ensures client.bntl.docs == old(client.bntl.docs) && client.bntl.nextId == old(client.bntl.nextId)
  {
    if client.isAtlas {
      return;
    }
    client.bntl.CreateTextIndex();
  }
}
