/**
 * bntl/queries.py: the older query builder. It has no case flags and no
 * full-text shortcut: regex mode wraps the string as `{"$regex": s}` with no
 * options, so a regex search is case-sensitive.
 */
module Queries {
  import opened Common
  import opened Filter
  import M = BntlModels
  import Db

  /** `SearchQuery`: the five text filters and the three regex flags. */
  datatype SearchQuery = SearchQuery(
    typeOfReference: Option<string>, title: Option<string>, year: Option<string>,
    author: Option<string>, keywords: Option<string>,
    useRegexAuthor: bool, useRegexTitle: bool, useRegexKeywords: bool)

  /** `SearchQuery()`: every text filter None, every regex flag False. */
  function DefaultSearchQuery(): (q: SearchQuery)
    ensures q.typeOfReference == q.title == q.year == q.author == q.keywords == None
    ensures !q.useRegexAuthor && !q.useRegexTitle && !q.useRegexKeywords
  {
    SearchQuery(None, None, None, None, None, false, false, false)
  }

  /** `s if not use_regex else {"$regex": s}`: a regex here is always case-sensitive. */
  function QueryMatcher(s: string, useRegex: bool): Matcher
  {
    if !useRegex then Exact(s) else Regex(s, false)
  }

  function OptMatcher(s: Option<string>, useRegex: bool): Option<Matcher>
  {
    if s.Some? then Some(QueryMatcher(s.value, useRegex)) else None
  }

  /** What `build_query(**query)` returns. */
  function BuildQuerySpec(q: SearchQuery): Result<Filter>
  {
    var year :- Db.OptYear(q.year);
    Ok(Combine(Clauses(q.typeOfReference, OptMatcher(q.title, q.useRegexTitle), year,
                       OptMatcher(q.author, q.useRegexAuthor), OptMatcher(q.keywords, q.useRegexKeywords))))
  }

  /** `build_query`: the clause list grown by conditional appends. */
  method BuildQuery(q: SearchQuery) returns (r: Result<Filter>)
    ensures r == BuildQuerySpec(q)
  {
    ghost var ti := OptMatcher(q.title, q.useRegexTitle);
    ghost var a := OptMatcher(q.author, q.useRegexAuthor);
    ghost var k := OptMatcher(q.keywords, q.useRegexKeywords);
    var query: seq<Filter> := [];
    if q.typeOfReference.Some? {
      query := query + [Match("type_of_reference", Exact(q.typeOfReference.value))];
    }
    ghost var c1 := query;
    if q.title.Some? {
      var title := QueryMatcher(q.title.value, q.useRegexTitle);
      query := query + [AnyField(TitleFields, title)];
    }
    ghost var c2 := query;
    ghost var year: Option<Filter> := None;
    if q.year.Some? {
      var clause := YearClause(q.year.value);
      if clause.Err? {
        return Err(clause.error);
      }
      query := query + [clause.value];
      year := Some(clause.value);
    }
    ghost var c3 := query;
    assert Db.OptYear(q.year) == Ok(year);
    if q.author.Some? {
      var author := QueryMatcher(q.author.value, q.useRegexAuthor);
      query := query + [AnyField(AuthorFields, author)];
    }
    ghost var c4 := query;
    if q.keywords.Some? {
      var keywords := QueryMatcher(q.keywords.value, q.useRegexKeywords);
      query := query + [Match("keywords", keywords)];
    }
    Db.ClausesAppended(q.typeOfReference, ti, year, a, k, c1, c2, c3, c4, query);
    r := Ok(Combine(query));
  }

  /** The same search through the current builder: no full-text shortcut and every case flag set. */
  function AsQueryParams(q: SearchQuery): M.QueryParams
  {
    M.QueryParams(q.typeOfReference, q.title, q.year, q.author, q.keywords,
                  q.useRegexAuthor, q.useRegexTitle, q.useRegexKeywords, true, true, true, None)
  }

  /**
   * The older builder is the current one with case-sensitive regexes and no full text: same
   * clauses, same order, same collapse, same year errors. So everything proved about
   * bntl/db.py's `build_query` holds here with the case flags set.
   */
  lemma {:induction false} AgreesWithCurrentBuilder(q: SearchQuery)
    ensures BuildQuerySpec(q) == Db.BuildQuerySpec(AsQueryParams(q))
  {
    var p := AsQueryParams(q);
    assert OptMatcher(q.title, q.useRegexTitle) == Db.OptMatcher(p.title, p.useRegexTitle, p.useCaseTitle);
    assert OptMatcher(q.author, q.useRegexAuthor) == Db.OptMatcher(p.author, p.useRegexAuthor, p.useCaseAuthor);
    assert OptMatcher(q.keywords, q.useRegexKeywords) == Db.OptMatcher(p.keywords, p.useRegexKeywords, p.useCaseKeywords);
  }

  /**
   * What the filter selects: the type exactly, the title matcher under one of the three title
   * fields, the year clause, the author matcher under one of the four author fields, the
   * keywords matcher — each only when given; a regex is matched case-sensitively.
   */
  lemma {:induction false} BuildQueryMeans(q: SearchQuery, doc: Doc, e: Engine)
    requires BuildQuerySpec(q).Ok?
    ensures Eval(BuildQuerySpec(q).value, doc, e)
        <==> && (q.typeOfReference.Some? ==>
                   "type_of_reference" in doc && MatchValue(Exact(q.typeOfReference.value), doc["type_of_reference"], e))
             && (q.title.Some? ==>
                   exists i :: 0 <= i < |TitleFields| && TitleFields[i] in doc
                            && MatchValue(OptMatcher(q.title, q.useRegexTitle).value, doc[TitleFields[i]], e))
             && (q.year.Some? ==> Eval(YearClause(q.year.value).value, doc, e))
             && (q.author.Some? ==>
                   exists i :: 0 <= i < |AuthorFields| && AuthorFields[i] in doc
                            && MatchValue(OptMatcher(q.author, q.useRegexAuthor).value, doc[AuthorFields[i]], e))
             && (q.keywords.Some? ==>
                   "keywords" in doc && MatchValue(OptMatcher(q.keywords, q.useRegexKeywords).value, doc["keywords"], e))
  {
    AgreesWithCurrentBuilder(q);
    Db.BuildQueryMeans(AsQueryParams(q), doc, e);
  }

  /**
   * No filter at all gives `{}`, one filter gives its clause itself, two or more give `$and`
   * over one clause per filter in the order type, title, year, author, keywords.
   */
  lemma {:induction false} BuildQueryShape(q: SearchQuery)
    ensures var r := BuildQuerySpec(q); var p := AsQueryParams(q); var n := Db.Count(p);
      r.Ok? ==> && Db.OptYear(q.year).Ok?
                && var cl := Clauses(q.typeOfReference, OptMatcher(q.title, q.useRegexTitle), Db.OptYear(q.year).value,
                                     OptMatcher(q.author, q.useRegexAuthor), OptMatcher(q.keywords, q.useRegexKeywords));
                && |cl| == n
                && (n == 0 ==> r.value == MatchAll)
                && (n == 1 ==> r.value == cl[0])
                && (n >= 2 ==> r.value == And(cl))
                && (n >= 1 && q.typeOfReference.Some? ==> cl[0] == Match("type_of_reference", Exact(q.typeOfReference.value)))
                && (n >= 1 && q.keywords.Some? ==> cl[n - 1] == Match("keywords", QueryMatcher(q.keywords.value, q.useRegexKeywords)))
  {
    AgreesWithCurrentBuilder(q);
    var p := AsQueryParams(q);
    Db.BuildQueryShape(p);
    if BuildQuerySpec(q).Ok? {
      assert OptMatcher(q.title, q.useRegexTitle) == Db.OptMatcher(p.title, p.useRegexTitle, p.useCaseTitle);
      assert OptMatcher(q.author, q.useRegexAuthor) == Db.OptMatcher(p.author, p.useRegexAuthor, p.useCaseAuthor);
      assert OptMatcher(q.keywords, q.useRegexKeywords) == Db.OptMatcher(p.keywords, p.useRegexKeywords, p.useCaseKeywords);
    }
  }
}
