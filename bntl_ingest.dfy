/**
 * bntl/ingest.py: the text a record contributes to its embedding, and the
 * check that a record to be stored has a title. The batch loop that uses
 * them is in batch.dfy.
 */
module Ingest {
  import opened Common

  /** The `{"title": ..., "keywords": ...}` dict of `get_doc_text`. */
  datatype DocText = DocText(title: Value, keywords: Option<string>)

  /** `"; ".join(v)` for a truthy value: a list joins its strings, a str its characters, and a
      value that is not iterable raises TypeError. */
  function JoinKeywords(v: Value): (r: Result<string>)
    ensures v.VList? ==> r == Ok(Join("; ", v.items))
    ensures v.VStr? ==> r == Ok(Join("; ", Chars(v.s)))
    ensures (v.VNone? || v.VBool? || v.VInt? || v.VTime? || v.VId?) ==> r.Err? && r.error.TypeError?
  {
    match v
    case VList(xs) => Ok(Join("; ", xs))
    case VStr(s) => Ok(Join("; ", Chars(s)))
    case _ => Err(TypeError("can only join an iterable of str"))
  }

  /** `get_doc_text(doc)`: the title (which must be present), with "; " and the secondary
      title appended when that is truthy; the keywords joined by "; " when truthy, else None. */
  function GetDocText(doc: Doc): Result<DocText>
  {
    if "title" !in doc then Err(KeyError("title"))
    else
      var sec := Get(doc, "secondary_title");
      var title :- if Truthy(sec) then
                     (if sec.VStr? then AddStr(doc["title"], "; " + sec.s) else Err(TypeError("can only concatenate str")))
                   else Ok(doc["title"]);
      var kw := Get(doc, "keywords");
      var keywords :- if Truthy(kw) then (var j :- JoinKeywords(kw); Ok(Some(j))) else Ok(None);
      Ok(DocText(title, keywords))
  }

  /** `convert_to_text(text, ignore_keywords)`: the title, with "; " and the keywords
      appended when there are keywords and they are not ignored. */
  function ConvertToText(text: DocText, ignoreKeywords: bool): Result<Value>
  {
    if text.keywords.Some? && text.keywords.value != "" && !ignoreKeywords then
      AddStr(text.title, "; " + text.keywords.value)
    else Ok(text.title)
  }

  /** `validate(doc)`: an error exactly when the title is falsy. MissingFieldException stands for
      `utils.MissingFieldException`, which bntl/utils.py does not define. */
  function Validate(doc: Doc): (raised: Option<Error>)
    ensures "title" !in doc ==> raised == Some(KeyError("title"))
    ensures "title" in doc ==> (raised.Some? <==> !Truthy(doc["title"]))
    ensures raised.Some? && "title" in doc ==> raised.value == MissingFieldException("title")
  {
    if "title" !in doc then Some(KeyError("title"))
    else if !Truthy(doc["title"]) then Some(MissingFieldException("title"))
    else None
  }

  /** A record whose text fields have the types the entry schema gives them. */
  predicate WellTyped(doc: Doc)
  {
    && "title" in doc && doc["title"].VStr?
    && (Truthy(Get(doc, "secondary_title")) ==> Get(doc, "secondary_title").VStr?)
    && (Truthy(Get(doc, "keywords")) ==> Get(doc, "keywords").VList?)
  }

  /** The pieces of the embedded text: the title, the secondary title when it is
      truthy, and (unless ignored) each keyword, except that keywords joining to ""
      (the list [""]) are falsy and add nothing. */
  function TextParts(doc: Doc, ignoreKeywords: bool): seq<string>
    requires WellTyped(doc)
  {
    var sec := Get(doc, "secondary_title");
    var kw := Get(doc, "keywords");
    [doc["title"].s] + (if Truthy(sec) then [sec.s] else [])
      + (if Truthy(kw) && !ignoreKeywords && kw.items != [""] then kw.items else [])
  }

  /**
   * For a well-typed record, the embedded text is its title, secondary title and keywords,
   * in that order, separated by "; "; the tertiary title and every other field play no part.
   */
  lemma {:induction false} DocTextIsJoin(doc: Doc, ignoreKeywords: bool)
    requires WellTyped(doc)
    ensures GetDocText(doc).Ok?
    ensures ConvertToText(GetDocText(doc).value, ignoreKeywords) == Ok(VStr(Join("; ", TextParts(doc, ignoreKeywords))))
  {
    var sec := Get(doc, "secondary_title");
    var kw := Get(doc, "keywords");
    var head := [doc["title"].s] + (if Truthy(sec) then [sec.s] else []);
    var text := GetDocText(doc).value;
    assert text.title == VStr(Join("; ", head)) by {
      if Truthy(sec) {
        assert head[1..] == [sec.s];
      }
    }
    if Truthy(kw) && !ignoreKeywords && kw.items != [""] {
      assert TextParts(doc, ignoreKeywords) == head + kw.items;
      JoinAppend("; ", head, kw.items);
      JoinLength("; ", kw.items);
      assert Join("; ", kw.items) != "" by {
        if |kw.items| == 1 {
          assert kw.items == [kw.items[0]];
        }
      }
      assert text.keywords == Some(Join("; ", kw.items));
      assert Join("; ", head) + ("; " + Join("; ", kw.items)) == Join("; ", head) + "; " + Join("; ", kw.items);
    } else {
      assert TextParts(doc, ignoreKeywords) == head;
      if Truthy(kw) && kw.items == [""] {
        assert text.keywords == Some("");
      }
    }
  }

  /** Keywords are appended only when present and not ignored; with ignore_keywords the text is the title part alone. */
  lemma {:induction false} IgnoredKeywordsDropped(doc: Doc)
    requires WellTyped(doc)
    ensures GetDocText(doc).Ok?
    ensures ConvertToText(GetDocText(doc).value, true) == Ok(GetDocText(doc).value.title)
  {
  }
}
