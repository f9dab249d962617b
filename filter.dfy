/**
 * The MongoDB-style filter documents that the three query builders produce,
 * the pieces they share (the title/author disjunctions, the year clauses,
 * the collapse of the clause list), and an evaluator giving each filter its
 * meaning over one stored document. The regular-expression engine is not
 * modelled: the evaluator consults it as an oracle.
 */
module Filter {
  import opened Common

  /** What is placed under a field name: the raw string (exact match) or a `{"$regex": p}` document,
      with `"$options": "i"` when `ignoreCase` holds. */
  datatype Matcher = Exact(s: string) | Regex(pattern: string, ignoreCase: bool)

  /** The int or str placed under `$gte`, `$lt` or `$lte`. */
  datatype Operand = IntOp(i: int) | StrOp(s: string)

  datatype Filter =
    | MatchAll                               // {}
    | Match(field: string, m: Matcher)       // {field: matcher}
    | Gte(field: string, bound: Operand)     // {field: {"$gte": bound}}
    | Lt(field: string, bound: Operand)      // {field: {"$lt": bound}}
    | Lte(field: string, bound: Operand)     // {field: {"$lte": bound}}
    | Or(clauses: seq<Filter>)               // {"$or": clauses}
    | And(clauses: seq<Filter>)              // {"$and": clauses}

  const TitleFields: seq<string> := ["title", "secondary_title", "tertiary_title"]
  const AuthorFields: seq<string> := ["authors", "first_authors", "secondary_authors", "tertiary_authors"]

  /** `{"$or": [{f: m} for f in fields]}`: the same matcher under every field. */
  function AnyField(fields: seq<string>, m: Matcher): Filter
  {
    Or(seq(|fields|, i requires 0 <= i < |fields| => Match(fields[i], m)))
  }

  /** The clause list collapsed: `{}` when empty, the clause itself when single, `$and` otherwise. */
  function Combine(clauses: seq<Filter>): Filter
  {
    if |clauses| > 1 then And(clauses)
    else if |clauses| == 1 then clauses[0]
    else MatchAll
  }

  /** The clauses of a query in their fixed order: type, title, year, author, keywords;
      an absent filter contributes no clause. */
  function Clauses(typeOfReference: Option<string>, title: Option<Matcher>, year: Option<Filter>,
                   author: Option<Matcher>, keywords: Option<Matcher>): seq<Filter>
  {
    (if typeOfReference.Some? then [Match("type_of_reference", Exact(typeOfReference.value))] else [])
    + (if title.Some? then [AnyField(TitleFields, title.value)] else [])
    + (if year.Some? then [year.value] else [])
    + (if author.Some? then [AnyField(AuthorFields, author.value)] else [])
    + (if keywords.Some? then [Match("keywords", keywords.value)] else [])
  }

  function Present<T>(o: Option<T>): nat { if o.Some? then 1 else 0 }

  /** There is one clause per present filter. */
  lemma {:induction false} ClausesCount(t: Option<string>, ti: Option<Matcher>, y: Option<Filter>, a: Option<Matcher>, k: Option<Matcher>)
    ensures |Clauses(t, ti, y, a, k)| == Present(t) + Present(ti) + Present(y) + Present(a) + Present(k)
  {
  }

  // ---------------------------------------------------------------- year clauses

  /** `start, end = year.split('-'); start, end = int(start), int(end)`: exactly two parts, both ints. */
  function ParseYearRange(year: string): (r: Result<(int, int)>)
    ensures r.Ok? <==> |Split(year, '-')| == 2 && ParseInt(Split(year, '-')[0]).Some?
                                                && ParseInt(Split(year, '-')[1]).Some?
  {
    var parts := Split(year, '-');
    if |parts| > 2 then Err(ValueError("too many values to unpack (expected 2)"))
    else if |parts| < 2 then Err(ValueError("not enough values to unpack (expected 2, got 1)"))
    else match (ParseInt(parts[0]), ParseInt(parts[1]))
      case (None, _) => Err(ValueError("invalid literal for int() with base 10: " + parts[0]))
      case (Some(_), None) => Err(ValueError("invalid literal for int() with base 10: " + parts[1]))
      case (Some(s), Some(e)) => Ok((s, e))
  }

  /** `(start <= year < end) OR (start <= end_year < end)`. */
  function YearRangeClause(start: int, end: int): Filter
  {
    Or([And([Gte("year", IntOp(start)), Lt("year", IntOp(end))]),
        And([Gte("end_year", IntOp(start)), Lt("end_year", IntOp(end))])])
  }

  /** `year >= y AND end_year <= y + 1`. */
  function SingleYearClause(y: int): Filter
  {
    And([Gte("year", IntOp(y)), Lte("end_year", IntOp(y + 1))])
  }

  /** The year clause shared by bntl/db.py and bntl/queries.py. */
  function YearClause(year: string): (r: Result<Filter>)
    ensures '-' in year ==> (r.Ok? <==> ParseYearRange(year).Ok?)
    ensures '-' !in year ==> (r.Ok? <==> ParseInt(year).Some?)
    ensures '-' in year && ParseYearRange(year).Ok? ==>
      r == Ok(YearRangeClause(ParseYearRange(year).value.0, ParseYearRange(year).value.1))
    ensures '-' !in year && ParseInt(year).Some? ==> r == Ok(SingleYearClause(ParseInt(year).value))
  {
    if '-' in year then
      var (s, e) :- ParseYearRange(year);
      Ok(YearRangeClause(s, e))
    else match ParseInt(year)
      case None => Err(ValueError("invalid literal for int() with base 10: " + year))
      case Some(y) => Ok(SingleYearClause(y))
  }

  /** A year with a '-' that is not exactly two int parts is refused; "1987-" is one such. */
  lemma {:induction false} OpenEndedRangeRefused()
    ensures YearClause("1987-").Err?
  {
    SplitTrailingSeparator("1987", '-');
    assert "1987" + "-" == "1987-";
  }

  /** A year "a-b" whose two dash-free parts are int-convertible selects the range from a to b. */
  lemma {:induction false} RangeYearClause(a: string, b: string, x: int, y: int)
    requires '-' !in a && '-' !in b && ParseInt(a) == Some(x) && ParseInt(b) == Some(y)
    ensures YearClause(a + "-" + b) == Ok(YearRangeClause(x, y))
  {
    SplitAround(a, b, '-');
    assert (a + "-" + b)[|a|] == '-';
  }

  /** `int` strips the parts of a range, so "1980 - 1990" is the range from 1980 to 1990. */
  lemma {:induction false} SpacedRangeAccepted()
    ensures YearClause("1980 - 1990") == Ok(YearRangeClause(1980, 1990))
  {
    SpacedYears();
    RangeYearClause("1980 ", " 1990", 1980, 1990);
    assert "1980 " + "-" + " 1990" == "1980 - 1990";
  }

  lemma {:induction false} SpacedYears()
    ensures ParseInt("1980 ") == Some(1980) && ParseInt(" 1990") == Some(1990)
  {
    assert TrimRight("1980 ") == "1980" by { assert "1980 "[..4] == "1980"; }
    StripUnspaced("1980");
    ParseIntStrip("1980 ", "1980");
    ParseDigits("1980");
    assert "1980"[..3] == "198" && "198"[..2] == "19" && "19"[..1] == "1" && "1"[..0] == "";
    assert TrimLeft(" 1990") == "1990" by { assert " 1990"[1..] == "1990"; }
    StripUnspaced("1990");
    ParseIntStrip(" 1990", "1990");
    ParseDigits("1990");
    assert "1990"[..3] == "199" && "199"[..2] == "19";
  }

  // ---------------------------------------------------------------- evaluation

  /** The regular-expression engine, outside the model: `regex(pattern, ignoreCase, text)`. */
  datatype Engine = Engine(regex: (string, bool, string) -> bool)

  /** A matcher against a stored value: equality with a str, or membership in a list of str. */
  predicate MatchValue(m: Matcher, v: Value, e: Engine)
  {
    match m
    case Exact(s) => v == VStr(s) || (v.VList? && s in v.items)
    case Regex(p, ic) =>
      (v.VStr? && e.regex(p, ic, v.s)) || (v.VList? && exists x :: x in v.items && e.regex(p, ic, x))
  }

  /** Lexicographic order on strings (code point by code point). */
  predicate StrLess(a: string, b: string)
  {
    if a == [] then b != []
    else if b == [] then false
    else a[0] < b[0] || (a[0] == b[0] && StrLess(a[1..], b[1..]))
  }

  datatype Cmp = GE | LT | LE

  predicate HoldsInt(c: Cmp, x: int, y: int)
  {
    match c
    case GE => x >= y
    case LT => x < y
    case LE => x <= y
  }

  predicate HoldsStr(c: Cmp, x: string, y: string)
  {
    match c
    case GE => !StrLess(x, y)
    case LT => StrLess(x, y)
    case LE => !StrLess(y, x)
  }

  /** A range comparison compares only within one type: an int with an int, a str with a str. */
  predicate CompareValue(c: Cmp, v: Value, b: Operand)
  {
    match (v, b)
    case (VInt(x), IntOp(y)) => HoldsInt(c, x, y)
    case (VStr(x), StrOp(y)) => HoldsStr(c, x, y)
    case (VList(xs), StrOp(y)) => exists x :: x in xs && HoldsStr(c, x, y)
    case _ => false
  }

  /** Whether a stored document satisfies a filter. */
  predicate Eval(f: Filter, doc: Doc, e: Engine)
  {
    match f
    case MatchAll => true
    case Match(k, m) => k in doc && MatchValue(m, doc[k], e)
    case Gte(k, b) => k in doc && CompareValue(GE, doc[k], b)
    case Lt(k, b) => k in doc && CompareValue(LT, doc[k], b)
    case Lte(k, b) => k in doc && CompareValue(LE, doc[k], b)
    case Or(cs) => exists i :: 0 <= i < |cs| && Eval(cs[i], doc, e)
    case And(cs) => forall i :: 0 <= i < |cs| ==> Eval(cs[i], doc, e)
  }

  /** Every clause of a list holds. */
  predicate AllHold(cs: seq<Filter>, doc: Doc, e: Engine)
  {
    forall i :: 0 <= i < |cs| ==> Eval(cs[i], doc, e)
  }

  lemma {:induction false} AllHoldAppend(a: seq<Filter>, b: seq<Filter>, doc: Doc, e: Engine)
    ensures AllHold(a + b, doc, e) <==> AllHold(a, doc, e) && AllHold(b, doc, e)
  {
    if AllHold(a + b, doc, e) {
      forall i | 0 <= i < |a| ensures Eval(a[i], doc, e) {
        assert a[i] == (a + b)[i];
      }
      forall i | 0 <= i < |b| ensures Eval(b[i], doc, e) {
        assert b[i] == (a + b)[|a| + i];
      }
    }
  }

  lemma {:induction false} AllHoldOne(c: Filter, doc: Doc, e: Engine)
    ensures AllHold([c], doc, e) <==> Eval(c, doc, e)
  {
    assert [c][0] == c;
  }

  /**
   * A document satisfies every clause of a query exactly when it satisfies the filter
   * given for each present field: the type exactly, the title and author matchers under
   * one of their fields, the year clause, the keywords matcher.
   */
  lemma {:induction false} ClausesMeans(t: Option<string>, ti: Option<Matcher>, y: Option<Filter>, a: Option<Matcher>,
                     k: Option<Matcher>, doc: Doc, e: Engine)
    ensures AllHold(Clauses(t, ti, y, a, k), doc, e)
        <==> && (t.Some? ==> "type_of_reference" in doc && MatchValue(Exact(t.value), doc["type_of_reference"], e))
             && (ti.Some? ==> exists i :: 0 <= i < |TitleFields| && TitleFields[i] in doc
                                          && MatchValue(ti.value, doc[TitleFields[i]], e))
             && (y.Some? ==> Eval(y.value, doc, e))
             && (a.Some? ==> exists i :: 0 <= i < |AuthorFields| && AuthorFields[i] in doc
                                         && MatchValue(a.value, doc[AuthorFields[i]], e))
             && (k.Some? ==> "keywords" in doc && MatchValue(k.value, doc["keywords"], e))
  {
    var p1 := if t.Some? then [Match("type_of_reference", Exact(t.value))] else [];
    var p2 := if ti.Some? then [AnyField(TitleFields, ti.value)] else [];
    var p3 := if y.Some? then [y.value] else [];
    var p4 := if a.Some? then [AnyField(AuthorFields, a.value)] else [];
    var p5 := if k.Some? then [Match("keywords", k.value)] else [];
    assert Clauses(t, ti, y, a, k) == p1 + p2 + p3 + p4 + p5;
    AllHoldAppend(p1 + p2 + p3 + p4, p5, doc, e);
    AllHoldAppend(p1 + p2 + p3, p4, doc, e);
    AllHoldAppend(p1 + p2, p3, doc, e);
    AllHoldAppend(p1, p2, doc, e);
    if t.Some? { AllHoldOne(p1[0], doc, e); }
    if ti.Some? { AllHoldOne(p2[0], doc, e); AnyFieldMeans(TitleFields, ti.value, doc, e); }
    if y.Some? { AllHoldOne(p3[0], doc, e); }
    if a.Some? { AllHoldOne(p4[0], doc, e); AnyFieldMeans(AuthorFields, a.value, doc, e); }
    if k.Some? { AllHoldOne(p5[0], doc, e); }
  }

  /** The documents of a collection that satisfy a filter, in collection order. */
  function Select(docs: seq<Doc>, f: Filter, e: Engine): (r: seq<Doc>)
    ensures |r| <= |docs|
  {
    if docs == [] then []
    else (if Eval(f, docs[0], e) then [docs[0]] else []) + Select(docs[1..], f, e)
  }

  /** The selected documents are exactly the collection's documents that satisfy the filter. */
  lemma {:induction false} SelectMeans(docs: seq<Doc>, f: Filter, e: Engine)
    ensures forall d :: d in Select(docs, f, e) <==> d in docs && Eval(f, d, e)
  {
    if docs != [] {
      SelectMeans(docs[1..], f, e);
      assert forall d :: d in docs <==> d == docs[0] || d in docs[1..];
    }
  }

  /**
   * Selection keeps collection order and multiplicity: selecting from two collections one after
   * the other is selecting from each in turn. With `SelectOne` this fixes `Select` on every
   * collection.
   */
  lemma {:induction false} SelectAppend(a: seq<Doc>, b: seq<Doc>, f: Filter, e: Engine)
    ensures Select(a + b, f, e) == Select(a, f, e) + Select(b, f, e)
  {
    if a == [] {
      assert a + b == b;
    } else {
      var tail := a[1..];
      assert [a[0]] + (tail + b) == a + b;
      assert [a[0]] + tail == a;
      SelectAppend(tail, b, f, e);
      SelectCons(a[0], tail + b, f, e);
      SelectCons(a[0], tail, f, e);
      var head := if Eval(f, a[0], e) then [a[0]] else [];
      var st, sb := Select(tail, f, e), Select(b, f, e);
      assert head + (st + sb) == (head + st) + sb;
    }
  }

  /** Selecting from a collection with one more document in front. */
  lemma {:induction false} SelectCons(d: Doc, rest: seq<Doc>, f: Filter, e: Engine)
    ensures Select([d] + rest, f, e) == (if Eval(f, d, e) then [d] else []) + Select(rest, f, e)
  {
    assert ([d] + rest)[0] == d && ([d] + rest)[1..] == rest;
  }

  /** A one-document collection selects that document iff it satisfies the filter. */
  lemma {:induction false} SelectOne(d: Doc, f: Filter, e: Engine)
    ensures Select([d], f, e) == if Eval(f, d, e) then [d] else []
  {
    assert [d][1..] == [];
  }

  /** The collapsed clause list means the conjunction of its clauses. */
  lemma {:induction false} CombineMeansAll(clauses: seq<Filter>, doc: Doc, e: Engine)
    ensures Eval(Combine(clauses), doc, e) <==> forall i :: 0 <= i < |clauses| ==> Eval(clauses[i], doc, e)
  {
  }

  /** A disjunction over fields matches when the matcher matches under one of them. */
  lemma {:induction false} AnyFieldMeans(fields: seq<string>, m: Matcher, doc: Doc, e: Engine)
    ensures Eval(AnyField(fields, m), doc, e)
        <==> exists i :: 0 <= i < |fields| && fields[i] in doc && MatchValue(m, doc[fields[i]], e)
  {
    var cs := seq(|fields|, i requires 0 <= i < |fields| => Match(fields[i], m));
    assert forall i :: 0 <= i < |fields| ==> cs[i] == Match(fields[i], m);
  }

  /** An entry whose year and end_year are stored as ints. */
  predicate HasIntYears(doc: Doc)
  {
    "year" in doc && doc["year"].VInt? && "end_year" in doc && doc["end_year"].VInt?
  }

  /** The range clause holds exactly when the year or the end_year lies in [start, end). */
  lemma {:induction false} YearRangeMeans(start: int, end: int, doc: Doc, e: Engine)
    requires HasIntYears(doc)
    ensures var y, ey := doc["year"].i, doc["end_year"].i;
      Eval(YearRangeClause(start, end), doc, e) <==> (start <= y < end) || (start <= ey < end)
  {
    var a := And([Gte("year", IntOp(start)), Lt("year", IntOp(end))]);
    var b := And([Gte("end_year", IntOp(start)), Lt("end_year", IntOp(end))]);
    EvalOr2(a, b, doc, e);
    EvalAnd2(Gte("year", IntOp(start)), Lt("year", IntOp(end)), doc, e);
    EvalAnd2(Gte("end_year", IntOp(start)), Lt("end_year", IntOp(end)), doc, e);
  }

  lemma {:induction false} EvalOr2(a: Filter, b: Filter, doc: Doc, e: Engine)
    ensures Eval(Or([a, b]), doc, e) <==> Eval(a, doc, e) || Eval(b, doc, e)
  {
    if Eval(a, doc, e) { assert [a, b][0] == a; }
    if Eval(b, doc, e) { assert [a, b][1] == b; }
  }

  lemma {:induction false} EvalAnd2(a: Filter, b: Filter, doc: Doc, e: Engine)
    ensures Eval(And([a, b]), doc, e) <==> Eval(a, doc, e) && Eval(b, doc, e)
  {
    assert [a, b][0] == a && [a, b][1] == b;
  }

  /** The single-year clause holds exactly when year >= y and end_year <= y + 1. */
  lemma {:induction false} SingleYearMeans(y: int, doc: Doc, e: Engine)
    requires HasIntYears(doc)
    ensures Eval(SingleYearClause(y), doc, e) <==> doc["year"].i >= y && doc["end_year"].i <= y + 1
  {
    EvalAnd2(Gte("year", IntOp(y)), Lte("end_year", IntOp(y + 1)), doc, e);
  }

  /** For an entry normalised with end_year = year + 1, the single-year clause selects exactly that year. */
  lemma {:induction false} SingleYearSelectsYear(y: int, doc: Doc, e: Engine)
    requires HasIntYears(doc) && doc["end_year"].i == doc["year"].i + 1
    ensures Eval(SingleYearClause(y), doc, e) <==> doc["year"].i == y
  {
    SingleYearMeans(y, doc, e);
  }

  /** The range clause is not interval intersection: an entry spanning 1980-2000 overlaps
      the query 1985-1990 but neither of its endpoints lies in it. */
  lemma {:induction false} RangeIsNotIntersection(e: Engine)
    ensures var doc := map["year" := VInt(1980), "end_year" := VInt(2000)];
      !Eval(YearRangeClause(1985, 1990), doc, e)
  {
    var doc := map["year" := VInt(1980), "end_year" := VInt(2000)];
    YearRangeMeans(1985, 1990, doc, e);
  }

  /** With the exclusive end_year convention, an entry of 1979 (end_year 1980) is
      selected by the range 1980-1990, which its year does not reach. */
  lemma {:induction false} RangeSelectsYearBefore(e: Engine)
    ensures var doc := map["year" := VInt(1979), "end_year" := VInt(1980)];
      Eval(YearRangeClause(1980, 1990), doc, e)
  {
    var doc := map["year" := VInt(1979), "end_year" := VInt(1980)];
    YearRangeMeans(1980, 1990, doc, e);
  }
}
