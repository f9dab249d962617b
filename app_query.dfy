/**
 * app.py, the `/query` route (lines 58-107): its own inline copy of the query
 * builder, a `find` with the caller's limit and skip, and the loop that drops
 * every item's `_id`. It differs from bntl/db.py in the single-year clause,
 * which compares against the year string itself and requires `end_year < year`.
 */
module AppQuery {
  import opened Common
  import opened Filter
  import Db
  import Queries
  import DbClient
  import Pagination

  /** The route's query parameters (the regex flags as the booleans they stand for). */
  datatype QueryArgs = QueryArgs(
    typeOfReference: Option<string>, title: Option<string>, year: Option<string>,
    author: Option<string>, keywords: Option<string>,
    useRegexTitle: bool, useRegexAuthor: bool, useRegexKeywords: bool,
    limit: int, skip: int)

  /** The route's single-year clause: `{"$and": [{"year": {"$gte": year}}, {"end_year": {"$lt": year}}]}`
      with `year` the unconverted string. */
  function AppSingleYearClause(year: string): Filter
  {
    And([Gte("year", StrOp(year)), Lt("end_year", StrOp(year))])
  }

  /** The year clause: a range as in bntl/db.py, or the string comparison above (which cannot fail). */
  function AppYearClause(year: string): Result<Filter>
  {
    if '-' in year then
      var (s, e) :- ParseYearRange(year);
      Ok(YearRangeClause(s, e))
    else Ok(AppSingleYearClause(year))
  }

  function AppYear(year: Option<string>): Result<Option<Filter>>
  {
    if year.None? then Ok(None)
    else
      var clause :- AppYearClause(year.value);
      Ok(Some(clause))
  }

  /** The filter the route builds. */
  function AppFilter(a: QueryArgs): Result<Filter>
  {
    var year :- AppYear(a.year);
    Ok(Combine(Clauses(a.typeOfReference, Queries.OptMatcher(a.title, a.useRegexTitle), year,
                       Queries.OptMatcher(a.author, a.useRegexAuthor), Queries.OptMatcher(a.keywords, a.useRegexKeywords))))
  }

  /** `for item in items: item.pop('_id')`: every item loses its `_id`; one without raises KeyError. */
  function StripIds(items: seq<Doc>): (r: Result<seq<Doc>>)
    ensures r.Ok? <==> forall j :: 0 <= j < |items| ==> "_id" in items[j]
    ensures r.Err? ==> r.error == KeyError("_id")
    ensures r.Ok? ==> |r.value| == |items| && forall j :: 0 <= j < |items| ==> r.value[j] == items[j] - {"_id"}
  {
    if items == [] then Ok([])
    else if "_id" !in items[0] then Err(KeyError("_id"))
    else
      var rest :- StripIds(items[1..]);
      Ok([items[0] - {"_id"}] + rest)
  }

  /** The route's answer over the collection's documents. */
  function QuerySpec(docs: seq<Doc>, e: Engine, a: QueryArgs): Result<seq<Doc>>
  {
    var query :- AppFilter(a);
    var items :- DbClient.Find(docs, query, e, a.limit, a.skip);
    StripIds(items)
  }

  /** The route's first half: the clause list grown by conditional appends. */
  method BuildFilter(a: QueryArgs) returns (r: Result<Filter>)
    ensures r == AppFilter(a)
  {
    ghost var ti := Queries.OptMatcher(a.title, a.useRegexTitle);
    ghost var au := Queries.OptMatcher(a.author, a.useRegexAuthor);
    ghost var k := Queries.OptMatcher(a.keywords, a.useRegexKeywords);
    var query: seq<Filter> := [];
    if a.typeOfReference.Some? {
      query := query + [Match("type_of_reference", Exact(a.typeOfReference.value))];
    }
    ghost var c1 := query;
    if a.title.Some? {
      var title := Queries.QueryMatcher(a.title.value, a.useRegexTitle);
      query := query + [AnyField(TitleFields, title)];
    }
    ghost var c2 := query;
    ghost var year: Option<Filter> := None;
    if a.year.Some? {
      var clause := AppYearClause(a.year.value);
      if clause.Err? {
        return Err(clause.error);
      }
      query := query + [clause.value];
      year := Some(clause.value);
    }
    ghost var c3 := query;
    assert AppYear(a.year) == Ok(year);
    if a.author.Some? {
      var author := Queries.QueryMatcher(a.author.value, a.useRegexAuthor);
      query := query + [AnyField(AuthorFields, author)];
    }
    ghost var c4 := query;
    if a.keywords.Some? {
      var keywords := Queries.QueryMatcher(a.keywords.value, a.useRegexKeywords);
      query := query + [Match("keywords", keywords)];
    }
    Db.ClausesAppended(a.typeOfReference, ti, year, au, k, c1, c2, c3, c4, query);
    r := Ok(Combine(query));
  }

  /** `for item in items: item.pop('_id')`, on the list the cursor produced. */
  method PopIds(found: seq<Doc>) returns (r: Result<seq<Doc>>)
    ensures r == StripIds(found)
  {
    var items := found;
    var i := 0;
    while i < |items|
      invariant 0 <= i <= |items| == |found|
      invariant forall j :: 0 <= j < i ==> "_id" in found[j] && items[j] == found[j] - {"_id"}
      invariant forall j :: i <= j < |items| ==> items[j] == found[j]
    {
      if "_id" !in items[i] {
        return Err(KeyError("_id"));
      }
      items := items[i := items[i] - {"_id"}];
      i := i + 1;
    }
    assert StripIds(found).Ok?;
    assert StripIds(found).value == items;
    r := Ok(items);
  }

  /** The `/query` route: build the filter, find with the given limit and skip, pop each `_id`. */
  method Query(docs: seq<Doc>, e: Engine, a: QueryArgs) returns (r: Result<seq<Doc>>)
    ensures r == QuerySpec(docs, e, a)
  {
    var filter := BuildFilter(a);
    if filter.Err? {
      return Err(filter.error);
    }
    var cursor := DbClient.Find(docs, filter.value, e, a.limit, a.skip);
    if cursor.Err? {
      return Err(cursor.error);
    }
    r := PopIds(cursor.value);
  }

  /**
   * What the route returns: a negative skip or an unparsable range is an error; so is a
   * matching document without `_id`, which a stored document always has. Otherwise the
   * j-th item is the (skip + j)-th matching document, in collection order, with its `_id`
   * removed, and there are as many items as the window of skip and limit leaves.
   */
  lemma {:induction false} QueryResults(docs: seq<Doc>, e: Engine, a: QueryArgs)
    ensures var r := QuerySpec(docs, e, a);
      && (AppFilter(a).Ok? && a.skip < 0 ==> r.Err?)
      && (AppFilter(a).Ok? && a.skip >= 0 && (forall d :: d in docs ==> "_id" in d) ==> r.Ok?)
      && (r.Ok? ==> AppFilter(a).Ok?
                    && (a.limit != 0 ==> |r.value| <= Pagination.Abs(a.limit))
                    && forall j :: 0 <= j < |r.value| ==>
                         "_id" !in r.value[j]
                         && exists d :: d in docs && Eval(AppFilter(a).value, d, e) && r.value[j] == d - {"_id"})
      && (r.Ok? ==> var matching := Select(docs, AppFilter(a).value, e);
                    && |r.value| == Pagination.WindowLength(|matching|, a.skip, a.limit)
                    && forall j :: 0 <= j < |r.value| ==> r.value[j] == matching[a.skip + j] - {"_id"})
  {
    var r := QuerySpec(docs, e, a);
    if AppFilter(a).Ok? {
      var q := AppFilter(a).value;
      var found := DbClient.Find(docs, q, e, a.limit, a.skip);
      if found.Ok? {
        var items := found.value;
        assert r == StripIds(items);
        if forall d :: d in docs ==> "_id" in d {
          forall j | 0 <= j < |items|
            ensures "_id" in items[j]
          {
            assert items[j] in items;
          }
        }
        if r.Ok? {
          forall j | 0 <= j < |r.value|
            ensures exists d :: d in docs && Eval(q, d, e) && r.value[j] == d - {"_id"}
          {
            assert items[j] in items;
          }
        }
      }
    }
  }

  /** Without a year, or with a range, the route builds what bntl/queries.py builds. */
  lemma {:induction false} AgreesWithQueriesOffSingleYear(a: QueryArgs)
    requires a.year.None? || '-' in a.year.value
    ensures AppFilter(a) == Queries.BuildQuerySpec(AsSearchQuery(a))
  {
  }

  function AsSearchQuery(a: QueryArgs): Queries.SearchQuery
  {
    Queries.SearchQuery(a.typeOfReference, a.title, a.year, a.author, a.keywords,
                        a.useRegexAuthor, a.useRegexTitle, a.useRegexKeywords)
  }

  /** A stored entry has int year and end_year, and an int never compares with a str: the
      route's single-year clause matches no entry, whatever the year. */
  lemma {:induction false} AppSingleYearMatchesNoEntry(year: string, doc: Doc, e: Engine)
    requires HasIntYears(doc)
    ensures !Eval(AppSingleYearClause(year), doc, e)
  {
    EvalAnd2(Gte("year", StrOp(year)), Lt("end_year", StrOp(year)), doc, e);
  }

  /** So a search by a single year (no '-') over stored entries returns nothing at all. */
  lemma {:induction false} SingleYearSearchFindsNothing(docs: seq<Doc>, e: Engine, a: QueryArgs)
    requires a.year.Some? && '-' !in a.year.value
    requires forall d :: d in docs ==> HasIntYears(d)
    ensures var r := QuerySpec(docs, e, a); r.Ok? ==> r.value == []
  {
    var r := QuerySpec(docs, e, a);
    if r.Ok? && r.value != [] {
      QueryResults(docs, e, a);
      var f := AppFilter(a).value;
      var d :| d in docs && Eval(f, d, e) && r.value[0] == d - {"_id"};
      var ti := Queries.OptMatcher(a.title, a.useRegexTitle);
      var au := Queries.OptMatcher(a.author, a.useRegexAuthor);
      var k := Queries.OptMatcher(a.keywords, a.useRegexKeywords);
      var y := Some(AppSingleYearClause(a.year.value));
      CombineMeansAll(Clauses(a.typeOfReference, ti, y, au, k), d, e);
      ClausesMeans(a.typeOfReference, ti, y, au, k, d, e);
      AppSingleYearMatchesNoEntry(a.year.value, d, e);
    }
  }

  /** The year clause with the year converted to an int and `end_year <= year + 1`, as bntl/db.py does. */
  function CorrectedFilter(a: QueryArgs): Result<Filter>
  {
    var year :- Db.OptYear(a.year);
    Ok(Combine(Clauses(a.typeOfReference, Queries.OptMatcher(a.title, a.useRegexTitle), year,
                       Queries.OptMatcher(a.author, a.useRegexAuthor), Queries.OptMatcher(a.keywords, a.useRegexKeywords))))
  }

  /** With that clause the route builds exactly what bntl/queries.py builds, for every input;
      and the year clause selects the entries of exactly that year (Filter.SingleYearSelectsYear). */
  lemma {:induction false} CorrectedAgreesWithQueries(a: QueryArgs, doc: Doc, e: Engine)
    ensures CorrectedFilter(a) == Queries.BuildQuerySpec(AsSearchQuery(a))
    ensures a.year.Some? && '-' !in a.year.value && ParseInt(a.year.value).Some?
            && HasIntYears(doc) && doc["end_year"].i == doc["year"].i + 1 ==>
              (Eval(YearClause(a.year.value).value, doc, e) <==> doc["year"].i == ParseInt(a.year.value).value)
  {
    if a.year.Some? && '-' !in a.year.value && ParseInt(a.year.value).Some? && HasIntYears(doc)
       && doc["end_year"].i == doc["year"].i + 1 {
      SingleYearSelectsYear(ParseInt(a.year.value).value, doc, e);
    }
  }
}
