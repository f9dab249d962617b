/**
 * bntl/utils.py: the helpers behind citation rendering (`maybe_list`, the
 * `DOC_REPR` templates and `render_doc`), the tag-to-key rewrite
 * `replace_ris`, and `default_to_regular`. The RIS tag mapping is a
 * parameter; `str()` of a datetime, dict or ObjectId is a parameter too.
 */
module Utils {
  import opened Common

  // ---------------------------------------------------------------- default_to_regular

  /** A Python object as far as `default_to_regular` cares: a leaf value, or a dict (ordered
      entries), which is either a `defaultdict` or a plain `dict`. */
  datatype PyObj = Leaf(v: Value) | Dict(entries: seq<(string, PyObj)>, isDefault: bool)

  /** `default_to_regular(d)`: every (default)dict, however deeply nested, becomes a plain dict. */
  function DefaultToRegular(d: PyObj): (r: PyObj)
    decreases d
  {
    match d
    case Leaf(_) => d
    case Dict(es, _) => Dict(seq(|es|, i requires 0 <= i < |es| => (es[i].0, DefaultToRegular(es[i].1))), false)
  }

  /** No defaultdict anywhere inside. */
  predicate Regular(d: PyObj)
    decreases d
  {
    match d
    case Leaf(_) => true
    case Dict(es, isDefault) => !isDefault && forall i :: 0 <= i < |es| ==> Regular(es[i].1)
  }

  /** The same keys in the same order, and the same leaves, at every level. */
  predicate SameShape(a: PyObj, b: PyObj)
    decreases a
  {
    match a
    case Leaf(v) => b == Leaf(v)
    case Dict(es, _) =>
      b.Dict? && |b.entries| == |es|
      && forall i :: 0 <= i < |es| ==> b.entries[i].0 == es[i].0 && SameShape(es[i].1, b.entries[i].1)
  }

  /** The conversion keeps every key (in order) and every non-dict value, and leaves no defaultdict. */
  lemma {:induction false} DefaultToRegularKeeps(d: PyObj)
    ensures Regular(DefaultToRegular(d)) && SameShape(d, DefaultToRegular(d))
    decreases d
  {
    match d
    case Leaf(_) =>
    case Dict(es, _) =>
      forall i | 0 <= i < |es|
        ensures Regular(DefaultToRegular(es[i].1)) && SameShape(es[i].1, DefaultToRegular(es[i].1))
      {
        DefaultToRegularKeeps(es[i].1);
      }
  }

  /** Converting twice is converting once. */
  lemma {:induction false} DefaultToRegularIdempotent(d: PyObj)
    ensures DefaultToRegular(DefaultToRegular(d)) == DefaultToRegular(d)
    decreases d
  {
    match d
    case Leaf(_) =>
    case Dict(es, _) =>
      var r := DefaultToRegular(d);
      forall i | 0 <= i < |es|
        ensures DefaultToRegular(r.entries[i].1) == r.entries[i].1
      {
        DefaultToRegularIdempotent(es[i].1);
      }
      assert DefaultToRegular(r).entries == r.entries;
  }

  // ---------------------------------------------------------------- maybe_list

  /** `maybe_list(v)`: a list becomes its single element, or its leading elements joined by
      ", " then " & " and the last; an empty list cannot be unpacked; anything else is unchanged. */
  function MaybeList(v: Value): (r: Result<Value>)
    ensures !v.VList? ==> r == Ok(v)
    ensures v.VList? ==> (r.Err? <==> v.items == [])
    ensures v.VList? && |v.items| == 1 ==> r == Ok(VStr(v.items[0]))
    ensures r.Ok? && v.VList? ==> r.value.VStr?
  {
    match v
    case VList(xs) =>
      if |xs| == 1 then Ok(VStr(xs[0]))
      else if |xs| == 0 then Err(ValueError("not enough values to unpack (expected at least 1, got 0)"))
      else Ok(VStr(Join(", ", xs[..|xs| - 1]) + " & " + xs[|xs| - 1]))
    case _ => Ok(v)
  }

  /**
   * A list of n >= 2 names renders as all of them, in order, with n - 2 ", " separators and one
   * " & ": it starts with the first name and ends with " & " and the last.
   */
  lemma {:induction false} MaybeListNames(xs: seq<string>)
    requires |xs| >= 2
    ensures var r := MaybeList(VList(xs)).value.s;
      && |r| == TotalLength(xs) + 2 * (|xs| - 2) + 3
      && StartsWith(r, xs[0])
      && r[|r| - |xs[|xs| - 1]| - 3..] == " & " + xs[|xs| - 1]
  {
    var firsts := xs[..|xs| - 1];
    var last := xs[|xs| - 1];
    var joined := Join(", ", firsts);
    var r := joined + " & " + last;
    assert MaybeList(VList(xs)) == Ok(VStr(r));
    assert |r| == TotalLength(xs) + 2 * (|xs| - 2) + 3 by {
      JoinLength(", ", firsts);
      assert |joined| == TotalLength(firsts) + (|xs| - 2) * 2;
      TotalLengthSnoc(firsts, last);
      assert firsts + [last] == xs;
      AmpersandJoin(joined, last, 0);
    }
    assert StartsWith(r, xs[0]) by {
      JoinStartsWithFirst(", ", firsts);
      AmpersandJoin(joined, last, |xs[0]|);
    }
    AmpersandJoin(joined, last, 0);
  }

  /** `a + " & " + b` keeps a's prefixes and ends with " & " and b. */
  lemma {:induction false} AmpersandJoin(a: string, b: string, k: nat)
    requires k <= |a|
    ensures var r := a + " & " + b;
      && |r| == |a| + 3 + |b|
      && r[..k] == a[..k]
      && r[|r| - |b| - 3..] == " & " + b
  {
  }

  lemma {:induction false} JoinStartsWithFirst(sep: string, parts: seq<string>)
    requires |parts| >= 1
    ensures StartsWith(Join(sep, parts), parts[0])
  {
    if |parts| > 1 {
      var j := Join(sep, parts);
      assert j == parts[0] + (sep + Join(sep, parts[1..]));
      assert j[..|parts[0]|] == parts[0];
    }
  }

  lemma {:induction false} TotalLengthSnoc(parts: seq<string>, last: string)
    ensures TotalLength(parts + [last]) == TotalLength(parts) + |last|
  {
    if parts != [] {
      assert (parts + [last])[1..] == parts[1..] + [last];
      TotalLengthSnoc(parts[1..], last);
    }
  }

  // ---------------------------------------------------------------- DOC_REPR

  const JOUR := "[AU]. [TI]. In: [JO]: [VL] ([PY]) [IS], [SP]-[EP]."
  const BOOK := "[AU]. [TI]. [CY]: [PB], [PY]. [EP] p."
  const BOOK_2EDS := "[A2] (red.). [TI]. [CY]: [PB], [PY]. [EP] p."
  const CHAP := "[A1]. [TI]. In: [A2] (red.). [T2]. [CY]: [PB], [PY], p. [SP]-[EP]."
  const EJOUR := "[AU]. [TI]. Op: [JO]: [VL]."
  const WEB := "[AU]. [TI]. [PY]."
  const JFULL := "[TI]. Speciaal nummer van: [JO]: [VL] ([PY]) [IS], [SP]-[EP]."
  const ADVS := "[AU]. [TI]. [CY]: [PB], [PY]."

  /** `DOC_REPR.get_repr_type(doc)`: the template for the document's reference type. */
  function GetReprType(doc: Doc): Result<string>
  {
    if "type_of_reference" !in doc then Err(KeyError("type_of_reference"))
    else
      var t := doc["type_of_reference"];
      if t == VStr("JOUR") then Ok(JOUR)
      else if t == VStr("BOOK") then (if Get(doc, "secondary_authors") != VNone then Ok(BOOK_2EDS) else Ok(BOOK))
      else if t == VStr("CHAP") then Ok(CHAP)
      else if t == VStr("JFULL") then Ok(JFULL)
      else if t == VStr("WEB") then Ok(WEB)
      else if t == VStr("ADVS") then Ok(ADVS)
      else if t == VStr("EJOUR") then Ok(EJOUR)
      else Err(ValueError("Unknown publication type"))
  }

  const KnownTypes: set<string> := {"JOUR", "BOOK", "CHAP", "JFULL", "WEB", "ADVS", "EJOUR"}

  /**
   * Seven reference types have a template, and only they: any other type raises ValueError, a
   * missing type KeyError. A book takes the editors' template exactly when it has secondary
   * authors that are not None, and only a book does.
   */
  lemma {:induction false} ReprTypeDispatch(doc: Doc)
    ensures "type_of_reference" !in doc ==> GetReprType(doc) == Err(KeyError("type_of_reference"))
    ensures "type_of_reference" in doc ==>
      (GetReprType(doc).Ok? <==> doc["type_of_reference"].VStr? && doc["type_of_reference"].s in KnownTypes)
    ensures GetReprType(doc) == Ok(BOOK_2EDS) <==>
      "type_of_reference" in doc && doc["type_of_reference"] == VStr("BOOK") && Get(doc, "secondary_authors") != VNone
    ensures GetReprType(doc).Err? && "type_of_reference" in doc ==> GetReprType(doc).error.ValueError?
  {
  }

  // ---------------------------------------------------------------- replace_ris

  /** The result of applying each (tag, key) replacement in turn, first pair first. */
  function ReplaceAll(mapping: seq<(string, string)>, s: string): string
    decreases |mapping|
  {
    if mapping == [] then s else ReplaceAll(mapping[1..], Replace(s, mapping[0].0, mapping[0].1))
  }

  /** `replace_ris(repr)` over a given tag mapping. */
  method ReplaceRis(mapping: seq<(string, string)>, repr: string) returns (r: string)
    ensures r == ReplaceAll(mapping, repr)
  {
    r := repr;
    var i := 0;
    while i < |mapping|
      invariant 0 <= i <= |mapping|
      invariant ReplaceAll(mapping[i..], r) == ReplaceAll(mapping, repr)
    {
      assert mapping[i..][1..] == mapping[i + 1..];
      r := Replace(r, mapping[i].0, mapping[i].1);
      i := i + 1;
    }
  }

  /** The replacements are sequential: a mapping split in two is the first half applied, then the second. */
  lemma {:induction false} ReplaceAllSequential(m1: seq<(string, string)>, m2: seq<(string, string)>, s: string)
    ensures ReplaceAll(m1 + m2, s) == ReplaceAll(m2, ReplaceAll(m1, s))
    decreases |m1|
  {
    if m1 != [] {
      assert (m1 + m2)[1..] == m1[1..] + m2;
      ReplaceAllSequential(m1[1..], m2, Replace(s, m1[0].0, m1[0].1));
    } else {
      assert m1 + m2 == m2;
    }
  }

  // ---------------------------------------------------------------- format_map

  predicate Braceless(s: string)
  {
    forall i :: 0 <= i < |s| ==> s[i] != '{' && s[i] != '}'
  }

  /** The first position at or after `from` holding c. */
  function IndexOf(s: string, c: char, from: nat): (r: Option<nat>)
    requires from <= |s|
    ensures r.Some? ==> from <= r.value < |s| && s[r.value] == c && c !in s[from..r.value]
    ensures r.None? ==> c !in s[from..]
    decreases |s| - from
  {
    if from == |s| then None
    else if s[from] == c then Some(from)
    else IndexOf(s, c, from + 1)
  }

  /** The value a field renders as: the keyword's text, or "N/A" for a key the dict lacks. */
  function Lookup(kw: map<string, string>, name: string): string
  {
    if name in kw then kw[name] else "N/A"
  }

  function Prepend(p: string, r: Result<string>): Result<string>
  {
    match r
    case Ok(x) => Ok(p + x)
    case Err(e) => Err(e)
  }

  /**
   * `t.format_map(defaultdict(lambda: "N/A", kw))` for plain field names: "{{" and "}}" are
   * literal braces, "{name}" is replaced, and an unclosed '{', a lone '}', an empty field name
   * or a '{' inside a field name raise ValueError.
   */
  function Format(t: string, kw: map<string, string>): Result<string>
    decreases |t|
  {
    if t == [] then Ok("")
    else if t[0] == '{' then
      if |t| >= 2 && t[1] == '{' then Prepend("{", Format(t[2..], kw))
      else
        match IndexOf(t, '}', 1)
        case None => Err(ValueError("expected '}' before end of string"))
        case Some(j) =>
          var name := t[1..j];
          if name == "" then Err(ValueError("Format string contains positional fields"))
          else if '{' in name then Err(ValueError("unexpected '{' in field name"))
          else Prepend(Lookup(kw, name), Format(t[j + 1..], kw))
    else if t[0] == '}' then
      if |t| >= 2 && t[1] == '}' then Prepend("}", Format(t[2..], kw))
      else Err(ValueError("Single '}' encountered in format string"))
    else Prepend([t[0]], Format(t[1..], kw))
  }

  /** Text without braces is reproduced as it is. */
  lemma {:induction false} FormatBraceless(s: string, kw: map<string, string>)
    requires Braceless(s)
    ensures Format(s, kw) == Ok(s)
  {
    if s != [] {
      FormatBraceless(s[1..], kw);
      assert [s[0]] + s[1..] == s;
    }
  }

  /** A field after braceless text renders as its keyword's value, or "N/A" when the key is
      absent, and formatting carries on after it. */
  lemma {:induction false} FormatField(prefix: string, name: string, rest: string, kw: map<string, string>)
    requires Braceless(prefix) && Braceless(name) && name != ""
    ensures Format(prefix + "{" + name + "}" + rest, kw) == Prepend(prefix + Lookup(kw, name), Format(rest, kw))
    decreases |prefix|
  {
    var t := prefix + "{" + name + "}" + rest;
    if prefix == [] {
      assert t == "{" + name + "}" + rest;
      assert t[1] != '{' by { if |name| > 0 { assert t[1] == name[0]; } }
      assert t[1..|name| + 1] == name;
      IndexOfField(t, name);
      assert t[|name| + 2..] == rest;
      assert '{' !in name by {
        forall i | 0 <= i < |name| ensures name[i] != '{' { }
      }
      assert prefix + Lookup(kw, name) == Lookup(kw, name);
    } else {
      FormatField(prefix[1..], name, rest, kw);
      assert t[0] == prefix[0] && t[0] != '{' && t[0] != '}';
      assert t[1..] == prefix[1..] + "{" + name + "}" + rest;
      PrependTwice([prefix[0]], prefix[1..] + Lookup(kw, name), Format(rest, kw));
      assert [prefix[0]] + (prefix[1..] + Lookup(kw, name)) == prefix + Lookup(kw, name);
    }
  }

  lemma {:induction false} PrependTwice(a: string, b: string, r: Result<string>)
    ensures Prepend(a, Prepend(b, r)) == Prepend(a + b, r)
  {
    if r.Ok? {
      assert a + (b + r.value) == (a + b) + r.value;
    }
  }

  /** IndexOf finds the first occurrence. */
  lemma {:induction false} IndexOfFirst(s: string, c: char, from: nat, k: nat)
    requires from <= k < |s| && s[k] == c
    requires forall i :: from <= i < k ==> s[i] != c
    ensures IndexOf(s, c, from) == Some(k)
    decreases k - from
  {
    if from < k {
      IndexOfFirst(s, c, from + 1, k);
    }
  }

  lemma {:induction false} IndexOfField(t: string, name: string)
    requires |t| >= |name| + 2 && t[0] == '{' && t[1..|name| + 1] == name && t[|name| + 1] == '}'
    requires Braceless(name)
    ensures IndexOf(t, '}', 1) == Some(|name| + 1)
  {
    forall i | 1 <= i < |name| + 1
      ensures t[i] != '}'
    {
      assert t[i] == name[i - 1];
    }
    IndexOfFirst(t, '}', 1, |name| + 1);
  }

  // ---------------------------------------------------------------- render_doc

  /** `str(v)`: a str is itself, an int its decimal digits, a bool "True" or "False";
      other values are shown by `show`. */
  function PyStr(v: Value, show: Value -> string): string
  {
    match v
    case VStr(s) => s
    case VInt(i) => DecimalString(i)
    case VBool(b) => if b then "True" else "False"
    case VNone => "None"
    case _ => show(v)
  }

  /** The keyword dict of `render_doc`: every field through `maybe_list`, falsy results dropped. */
  function Kwargs(doc: Doc, show: Value -> string): (r: Result<map<string, string>>)
    ensures r.Err? <==> exists k :: k in doc && doc[k] == VList([])
    ensures r.Ok? ==> forall k :: k in r.value <==> k in doc && Truthy(MaybeList(doc[k]).value)
    ensures r.Ok? ==> forall k :: k in r.value ==> r.value[k] == PyStr(MaybeList(doc[k]).value, show)
  {
    if exists k :: k in doc && doc[k] == VList([]) then Err(ValueError("not enough values to unpack (expected at least 1, got 0)"))
    else Ok(map k | k in doc && Truthy(MaybeList(doc[k]).value) :: PyStr(MaybeList(doc[k]).value, show))
  }

  /** The template with its square brackets turned into format braces and its tags renamed. */
  function FieldTemplate(template: string, mapping: seq<(string, string)>): string
  {
    ReplaceAll(mapping, Replace(Replace(template, "[", "{"), "]", "}"))
  }

  /** `DOC_REPR.render_doc(doc)`: the type's template filled in from the document's fields. */
  function RenderDoc(doc: Doc, mapping: seq<(string, string)>, show: Value -> string): Result<string>
  {
    var template :- GetReprType(doc);
    var kw :- Kwargs(doc, show);
    Format(FieldTemplate(template, mapping), kw)
  }

  /**
   * Every field of the template renders as the document's value after `maybe_list`, or as
   * "N/A" when the document lacks the field or its value is falsy.
   */
  lemma {:induction false} RenderField(doc: Doc, show: Value -> string, name: string)
    requires Kwargs(doc, show).Ok?
    ensures var kw := Kwargs(doc, show).value;
      Lookup(kw, name) == if name in doc && Truthy(MaybeList(doc[name]).value)
                          then PyStr(MaybeList(doc[name]).value, show) else "N/A"
  {
  }

  /** A list field renders as its names joined: "A, B & C". */
  lemma {:induction false} RenderListField(doc: Doc, show: Value -> string, name: string)
    requires Kwargs(doc, show).Ok? && name in doc && doc[name].VList? && |doc[name].items| >= 2
    ensures var xs := doc[name].items;
      Lookup(Kwargs(doc, show).value, name) == Join(", ", xs[..|xs| - 1]) + " & " + xs[|xs| - 1]
  {
    var xs := doc[name].items;
    MaybeListNames(xs);
  }
}
