/**
 * bntl/db_client.py: the year normalisation applied to every parsed RIS
 * record before validation, and the strict entry schema that the Atlas
 * loader validates against.
 */
module DbClient {
  import opened Common
  import opened BntlModels
  import Filter
  import Pagination

  // ---------------------------------------------------------------- fix_year

  /** The dict as `fix_year` leaves it (it edits its argument in place) and the exception it raised, if any. */
  datatype Fixed = Fixed(doc: Doc, raised: Option<Error>)

  /** `re.match(r"([0-9]{4})-([0-9]{4})?", s)`: the four start digits and, when the four
      characters after the dash are digits, the end digits. */
  function MatchRange(s: string): (m: Option<(string, Option<string>)>)
    ensures m.Some? <==> |s| >= 5 && AllDigits(s[..4]) && s[4] == '-'
    ensures m.Some? ==> m.value.0 == s[..4] && |m.value.0| == 4 && AllDigits(m.value.0)
    ensures m.Some? && m.value.1.Some? ==> |m.value.1.value| == 4 && AllDigits(m.value.1.value)
  {
    if |s| >= 5 && AllDigits(s[..4]) && s[4] == '-' then
      Some((s[..4], if |s| >= 9 && AllDigits(s[5..9]) then Some(s[5..9]) else None))
    else None
  }

  /**
   * `fix_year(doc)`. An int-convertible year gets `end_year = int(year) + 1` and is
   * itself left as given; any other year first has every 'X' replaced by '5' and, if it
   * then contains '-', must start with four digits and a dash, becoming those digits with
   * the next four digits (or start + 1) as end_year. The bare `except` reads `doc['year']`
   * again, so a missing key raises KeyError and a value that is neither a number nor
   * iterable raises TypeError.
   */
  function FixYear(doc: Doc): Fixed
  {
    if "year" !in doc then Fixed(doc, Some(KeyError("year")))
    else match doc["year"]
      case VInt(i) => Fixed(doc["end_year" := VInt(i + 1)], None)
      case VBool(b) => Fixed(doc["end_year" := VInt((if b then 1 else 0) + 1)], None)
      case VStr(s) =>
        if ParseInt(s).Some? then Fixed(doc["end_year" := VInt(ParseInt(s).value + 1)], None)
        else FixYearText(doc, s)
      case VList(xs) =>
        if "X" in xs then Fixed(doc, Some(AttributeError("replace")))
        else if "-" in xs then Fixed(doc, Some(TypeError("expected string or bytes-like object")))
        else Fixed(doc, None)
      case VDict(m) =>
        if "X" in m then Fixed(doc, Some(AttributeError("replace")))
        else if "-" in m then Fixed(doc, Some(TypeError("expected string or bytes-like object")))
        else Fixed(doc, None)
      case VNone => Fixed(doc, Some(TypeError("argument of type 'NoneType' is not iterable")))
      case VTime(_) => Fixed(doc, Some(TypeError("argument of type 'datetime' is not iterable")))
      case VId(_) => Fixed(doc, Some(TypeError("argument of type 'ObjectId' is not iterable")))
  }

  /** The `except` branch of `fix_year` for a year string that `int` refused. */
  function FixYearText(doc: Doc, s: string): Fixed
  {
    var s1 := if 'X' in s then Replace(s, "X", "5") else s;
    var d1 := if 'X' in s then doc["year" := VStr(s1)] else doc;
    if '-' in s1 then
      match MatchRange(s1)
      case None => Fixed(d1, Some(YearFormatException(s1)))
      case Some((start, end)) =>
        Fixed(d1["year" := VStr(start)]["end_year" := if end.Some? then VStr(end.value) else VInt(DigitsValue(start) + 1)], None)
    else Fixed(d1, None)
  }

  /** fix_year touches only year and end_year. */
  lemma {:induction false} FixYearFrame(doc: Doc, k: string)
    requires k != "year" && k != "end_year"
    ensures k in FixYear(doc).doc <==> k in doc
    ensures k in doc ==> FixYear(doc).doc[k] == doc[k]
  {
  }

  /** A document without a year raises KeyError; one whose year is None raises TypeError. */
  lemma {:induction false} FixYearMissing(doc: Doc)
    ensures "year" !in doc ==> FixYear(doc).raised == Some(KeyError("year"))
    ensures "year" in doc && doc["year"] == VNone ==> FixYear(doc).raised.Some? && FixYear(doc).raised.value.TypeError?
  {
  }

  /** An int-convertible year is kept as given and end_year becomes one past it. */
  lemma {:induction false} FixYearIntegral(doc: Doc, y: int)
    requires "year" in doc && (doc["year"] == VInt(y) || (doc["year"].VStr? && ParseInt(doc["year"].s) == Some(y)))
    ensures FixYear(doc).raised == None
    ensures FixYear(doc).doc == doc["end_year" := VInt(y + 1)]
  {
  }

  /**
   * What happens to a year string: afterwards it holds no 'X'; YearFormatException is raised
   * exactly when the 'X'-replaced text has a dash but does not start with four digits and a
   * dash; end_year is set exactly when the year was int-convertible or such a range.
   */
  lemma {:induction false} FixYearString(doc: Doc, s: string)
    requires "year" in doc && doc["year"] == VStr(s)
    ensures var r := FixYear(doc); var s1 := Replace(s, "X", "5");
      && "year" in r.doc && r.doc["year"].VStr? && 'X' !in r.doc["year"].s
      && (r.raised.Some? <==> ParseInt(s).None? && '-' in s1 && MatchRange(s1).None?)
      && (r.raised.Some? ==> r.raised == Some(YearFormatException(s1)))
      && (r.raised.None? && ParseInt(s).None? && '-' !in s1 ==>
            r.doc == doc["year" := VStr(s1)] && ("end_year" in r.doc <==> "end_year" in doc))
      && (r.raised.None? && ParseInt(s).None? && '-' in s1 ==>
            r.doc["year"] == VStr(s1[..4]) && "end_year" in r.doc)
  {
    ReplaceCharRemoves(s, 'X', '5');
    if 'X' !in s {
      ReplaceAbsentChar(s, 'X', "5");
    }
    if ParseInt(s).Some? {
      ParsedHasNoX(s);
    }
  }

  /** Replacing a character that does not occur changes nothing. */
  lemma {:induction false} ReplaceAbsentChar(s: string, c: char, rep: string)
    requires c !in s
    ensures Replace(s, [c], rep) == s
  {
    if s != [] {
      ReplaceAbsentChar(s[1..], c, rep);
    }
  }

  /** An int-convertible string is whitespace, a sign and digits, so it holds no 'X'. */
  lemma {:induction false} ParsedHasNoX(s: string)
    requires ParseInt(s).Some?
    ensures 'X' !in s
  {
    ParseIntChars(s);
  }

  /** A string that starts with four digits and a dash is never int-convertible. */
  lemma {:induction false} RangeNotInt(s: string)
    requires MatchRange(s).Some?
    ensures ParseInt(s).None?
  {
    if ParseInt(s).Some? {
      ParseIntChars(s);
      assert !IntChar(s[4]) || s[4] == '-';
      var l := TrimLeft(s);
      assert l == s;
      var t := TrimRight(l);
      TrimRightPrefix(l);
      assert |t| >= 5 by { assert !IsSpace(s[4]); }
      assert t[0] == s[0] && t[4] == '-';
      LiteralChars(t);
      assert false;
    }
  }

  /** A padded year " 1987 " is int-convertible: it is kept as given and end_year becomes 1988. */
  lemma {:induction false} FixYearPadded(doc: Doc)
    ensures FixYear(doc["year" := VStr(" 1987 ")]) == Fixed(doc["year" := VStr(" 1987 ")]["end_year" := VInt(1988)], None)
  {
    PaddedInt();
    FixYearIntegral(doc["year" := VStr(" 1987 ")], 1987);
  }

  /** "197X" becomes "1975" and gets no end_year; "abc" passes through unchanged. */
  lemma {:induction false} FixYearUndated(doc: Doc)
    requires "end_year" !in doc
    ensures var r := FixYear(doc["year" := VStr("197X")]);
      r.raised == None && r.doc == doc["year" := VStr("1975")]
    ensures var r := FixYear(doc["year" := VStr("abc")]);
      r.raised == None && r.doc == doc["year" := VStr("abc")]
  {
    assert ParseInt("197X").None?;
    assert Replace("197X", "X", "5") == "1975";
    assert ParseInt("abc").None?;
  }

  /** A year string with no 'X' that int refuses and that starts with four digits and a dash. */
  lemma {:induction false} FixYearRange(doc: Doc, s: string)
    requires "year" in doc && doc["year"] == VStr(s)
    requires ParseInt(s).None? && 'X' !in s && MatchRange(s).Some?
    ensures var m := MatchRange(s).value;
      FixYear(doc) == Fixed(doc["year" := VStr(m.0)]["end_year" := if m.1.Some? then VStr(m.1.value) else VInt(DigitsValue(m.0) + 1)], None)
  {
    assert '-' in s by { assert s[4] == '-'; }
  }

  /** "1987-90" gives end_year 1988 (the two digits are not a year). */
  lemma {:induction false} FixYearShortEnd(doc: Doc)
    ensures FixYear(doc["year" := VStr("1987-90")]).doc == doc["year" := VStr("1987")]["end_year" := VInt(1988)]
  {
    var s := "1987-90";
    RangeNotInt(s);
    assert 'X' !in s;
    assert s[..4] == "1987";
    assert MatchRange(s) == Some(("1987", None)) by { assert |s| < 9; }
    Value1987();
    FixYearRange(doc["year" := VStr(s)], s);
  }

  /** "1987-2024" gives year "1987" and end_year "2024" (strings, converted by validation). */
  lemma {:induction false} FixYearFullRange(doc: Doc)
    ensures FixYear(doc["year" := VStr("1987-2024")]).doc == doc["year" := VStr("1987")]["end_year" := VStr("2024")]
  {
    var s := "1987-2024";
    RangeNotInt(s);
    assert 'X' !in s;
    assert s[..4] == "1987" && s[5..9] == "2024";
    FixYearRange(doc["year" := VStr(s)], s);
  }

  /** An open range "1987-" is accepted with end_year 1988. */
  lemma {:induction false} FixYearOpenRange(doc: Doc)
    ensures FixYear(doc["year" := VStr("1987-")]).doc == doc["year" := VStr("1987")]["end_year" := VInt(1988)]
  {
    var s := "1987-";
    RangeNotInt(s);
    assert 'X' !in s;
    assert s[..4] == "1987";
    Value1987();
    FixYearRange(doc["year" := VStr(s)], s);
  }

  /** "X-1" becomes "5-1", which does not start with four digits: YearFormatException. */
  lemma {:induction false} FixYearMalformed(doc: Doc)
    ensures FixYear(doc["year" := VStr("X-1")]).raised == Some(YearFormatException("5-1"))
  {
    assert ParseInt("X-1").None?;
    assert Replace("X-1", "X", "5") == "5-1";
  }

  // ---------------------------------------------------------------- the loader's entry schema

  /** db_client's `EntryModel`: label, name_of_database, title and type_of_reference are
      required strings and year and end_year required ints; the source fields are optional. */
  const StrictEntrySchema: seq<FieldSpec> := [
    Required("label", StrKind), Required("name_of_database", StrKind),
    Required("title", StrKind), Required("type_of_reference", StrKind),
    Required("year", IntKind), Required("end_year", IntKind)] + SourceFields

  /** A record passes the loader's schema only with all six mandatory fields present and non-None. */
  lemma {:induction false} StrictEntryRequires(raw: Doc)
    requires Validate(StrictEntrySchema, raw).Ok?
    ensures "label" in raw && raw["label"] != VNone
    ensures "name_of_database" in raw && raw["name_of_database"] != VNone
    ensures "title" in raw && raw["title"] != VNone
    ensures "type_of_reference" in raw && raw["type_of_reference"] != VNone
    ensures "year" in raw && raw["year"] != VNone
    ensures "end_year" in raw && raw["end_year"] != VNone
  {
    ValidateOkIff(StrictEntrySchema, raw);
    assert ValidateField(StrictEntrySchema[0], raw).Ok?;
    assert ValidateField(StrictEntrySchema[1], raw).Ok?;
    assert ValidateField(StrictEntrySchema[2], raw).Ok?;
    assert ValidateField(StrictEntrySchema[3], raw).Ok?;
    assert ValidateField(StrictEntrySchema[4], raw).Ok?;
    assert ValidateField(StrictEntrySchema[5], raw).Ok?;
  }

  /** So a year that fix_year could not pair with an end_year ("197X") is rejected by the loader. */
  lemma {:induction false} UndatedRangeRejected(doc: Doc)
    requires "end_year" !in doc
    ensures Validate(StrictEntrySchema, FixYear(doc["year" := VStr("197X")]).doc).Err?
  {
    FixYearUndated(doc);
    var d := FixYear(doc["year" := VStr("197X")]).doc;
    if Validate(StrictEntrySchema, d).Ok? {
      StrictEntryRequires(d);
    }
  }

  // ---------------------------------------------------------------- AtlasClient.find

  /**
   * `AtlasClient.find(query, limit, skip)`: the documents satisfying the filter (`{}` when the
   * query is falsy), in collection order, through the cursor's `skip`/`limit`: a negative skip is
   * refused, a zero limit means no limit, a negative one |limit|.
   */
  function Find(docs: seq<Doc>, query: Filter.Filter, e: Filter.Engine, limit: int, skip: int): (r: Result<seq<Doc>>)
    ensures r.Err? <==> skip < 0
    ensures r.Ok? ==> forall d :: d in r.value ==> d in docs && Filter.Eval(query, d, e)
    ensures r.Ok? && limit != 0 ==> |r.value| <= Pagination.Abs(limit)
    ensures r.Ok? ==> var matching := Filter.Select(docs, query, e);
      && |r.value| == Pagination.WindowLength(|matching|, skip, limit)
      && forall j :: 0 <= j < |r.value| ==> r.value[j] == matching[skip + j]
  {
    var selected := Filter.Select(docs, query, e);
    Filter.SelectMeans(docs, query, e);
    var window :- Pagination.Window(selected, skip, limit);
    assert forall d :: d in window ==> d in selected;
    Ok(window)
  }
}
