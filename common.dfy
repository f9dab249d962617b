/**
 * Shared vocabulary of the model: Python's None-or-value and exceptions as
 * datatypes, the dynamically typed values that the repository keeps in its
 * documents (dicts), Python truthiness, and the handful of `str` operations
 * the code relies on (`split`, `join`, `replace`, `int(...)`, `str(int)`, `in`).
 */
module Common {

  datatype Option<+T> = None | Some(value: T)

  /** The Python exceptions (and HTTP errors) that the modelled code raises or catches. */
  datatype Error =
    | KeyError(key: string)
    | ValueError(msg: string)
    | TypeError(msg: string)
    | AttributeError(name: string)
    | ZeroDivisionError
    | YearFormatException(year: string)
    | ValidationError(field: string)
    | MissingFieldException(field: string)
    | DuplicateKeyError
    | InvalidOperation(msg: string)
    | InvalidId(oid: string)
    | UnboundLocalError(name: string)
    | HttpError(code: int, detail: string)
    | ParseError(msg: string)
    | BulkWriteFailure(index: int)
    | ContentTypeError

  /** A value, or the exception raised while computing it; usable with `:-`. */
  datatype Result<+T> = Ok(value: T) | Err(error: Error) {
    predicate IsFailure() { Err? }
    function PropagateFailure<U>(): Result<U>
      requires Err?
    {
      Err(error)
    }
    function Extract(): T
      requires Ok?
    {
      value
    }
  }

  /**
   * A value stored under a key of a document dict: None, bool, int, str,
   * a list of str, a nested dict, a datetime (abstract timestamp) or a
   * MongoDB ObjectId (its 24-digit hex text).
   */
  datatype Value =
    | VNone
    | VBool(b: bool)
    | VInt(i: int)
    | VStr(s: string)
    | VList(items: seq<string>)
    | VDict(entries: map<string, Value>)
    | VTime(t: int)
    | VId(oid: string)

  /** A document as Python holds it: a dict from field names to values. */
  type Doc = map<string, Value>

  /** Python's truth value of a document value. */
  predicate Truthy(v: Value)
  {
    match v
    case VNone => false
    case VBool(b) => b
    case VInt(i) => i != 0
    case VStr(s) => s != []
    case VList(xs) => xs != []
    case VDict(m) => m != map[]
    case VTime(_) => true
    case VId(_) => true
  }

  /** `doc.get(key)`: the value, or None when the key is absent. */
  function Get(doc: Doc, key: string): (v: Value)
    ensures key !in doc ==> v == VNone
    ensures key in doc ==> v == doc[key]
  {
    if key in doc then doc[key] else VNone
  }

  /** Concatenation regroups freely; stated once so that proofs can cite it instead of searching for it. */
  lemma {:induction false} ConcatAssoc<T>(a: seq<T>, b: seq<T>, c: seq<T>)
    ensures a + (b + c) == (a + b) + c
  {
  }

  /** `a` is a prefix of `b`: named, so that a proof about a long run carries it as one fact. */
  predicate PrefixOf<T(==)>(a: seq<T>, b: seq<T>)
  {
    a <= b
  }

  lemma {:induction false} PrefixTrans<T>(a: seq<T>, b: seq<T>, c: seq<T>)
    requires PrefixOf(a, b) && PrefixOf(b, c)
    ensures PrefixOf(a, c)
  {
  }

  // ---------------------------------------------------------------- substrings

  /** `sub in s` for strings. */
  predicate HasSubstring(s: string, sub: string)
    decreases |s|
  {
    StartsWith(s, sub) || (s != [] && HasSubstring(s[1..], sub))
  }

  predicate StartsWith(s: string, prefix: string)
  {
    |prefix| <= |s| && s[..|prefix|] == prefix
  }

  // ---------------------------------------------------------------- join

  /** `sep.join(parts)`. */
  function Join(sep: string, parts: seq<string>): string
  {
    if |parts| == 0 then ""
    else if |parts| == 1 then parts[0]
    else parts[0] + sep + Join(sep, parts[1..])
  }

  /** Joining a list extended by one part adds the separator and that part at the end. */
  lemma {:induction false} JoinSnoc(sep: string, parts: seq<string>, last: string)
    requires |parts| >= 1
    ensures Join(sep, parts + [last]) == Join(sep, parts) + sep + last
  {
    if |parts| == 1 {
      assert parts + [last] == [parts[0], last];
    } else {
      assert (parts + [last])[1..] == parts[1..] + [last];
      JoinSnoc(sep, parts[1..], last);
    }
  }

  /** The length of a join: all parts plus one separator between each pair. */
  lemma {:induction false} JoinLength(sep: string, parts: seq<string>)
    requires |parts| >= 1
    ensures |Join(sep, parts)| == TotalLength(parts) + (|parts| - 1) * |sep|
  {
    if |parts| > 1 {
      JoinLength(sep, parts[1..]);
    }
  }

  function TotalLength(parts: seq<string>): nat
  {
    if parts == [] then 0 else |parts[0]| + TotalLength(parts[1..])
  }

  /** Prefixing the first part prefixes the join. */
  lemma {:induction false} JoinConsFirst(sep: string, a: string, first: string, rest: seq<string>)
    ensures Join(sep, [a + first] + rest) == a + Join(sep, [first] + rest)
  {
    if rest != [] {
      assert ([a + first] + rest)[1..] == rest;
      assert ([first] + rest)[1..] == rest;
    }
  }

  /** Joining two non-empty lists is joining each and putting the separator between. */
  lemma {:induction false} JoinAppend(sep: string, a: seq<string>, b: seq<string>)
    requires |a| >= 1 && |b| >= 1
    ensures Join(sep, a + b) == Join(sep, a) + sep + Join(sep, b)
  {
    if |a| == 1 {
      assert (a + b)[1..] == b;
    } else {
      assert (a + b)[1..] == a[1..] + b;
      JoinAppend(sep, a[1..], b);
    }
  }

  /** The characters of a string as one-character strings: what iterating over a str yields. */
  function Chars(s: string): (r: seq<string>)
    ensures |r| == |s| && forall i :: 0 <= i < |s| ==> r[i] == [s[i]]
  {
    if s == [] then [] else [[s[0]]] + Chars(s[1..])
  }

  /** `v += suffix` for a str suffix: str concatenation, a list extended by the characters,
      TypeError for anything else. */
  function AddStr(v: Value, suffix: string): (r: Result<Value>)
    ensures v.VStr? ==> r == Ok(VStr(v.s + suffix))
    ensures !v.VStr? && !v.VList? ==> r.Err?
  {
    match v
    case VStr(s) => Ok(VStr(s + suffix))
    case VList(xs) => Ok(VList(xs + Chars(suffix)))
    case _ => Err(TypeError("can only concatenate str"))
  }

  // ---------------------------------------------------------------- split

  /** `s.split(sep)` for a one-character separator. */
  function Split(s: string, sep: char): (parts: seq<string>)
    ensures |parts| >= 1
  {
    if s == [] then [""]
    else if s[0] == sep then [""] + Split(s[1..], sep)
    else
      var rest := Split(s[1..], sep);
      [[s[0]] + rest[0]] + rest[1..]
  }

  /** Splitting at a character and joining back with it gives the string back. */
  lemma {:induction false} SplitJoin(s: string, sep: char)
    ensures Join([sep], Split(s, sep)) == s
  {
    if s == [] {
    } else if s[0] == sep {
      SplitJoin(s[1..], sep);
      var rest := Split(s[1..], sep);
      assert Join([sep], [""] + rest) == "" + [sep] + Join([sep], rest) by {
        assert ([""] + rest)[1..] == rest;
      }
      assert s == [sep] + s[1..];
    } else {
      SplitJoin(s[1..], sep);
      var rest := Split(s[1..], sep);
      JoinConsFirst([sep], [s[0]], rest[0], rest[1..]);
      assert [rest[0]] + rest[1..] == rest;
      assert s == [s[0]] + s[1..];
    }
  }

  /** No part of a split contains the separator, and there is one more part than separators. */
  lemma {:induction false} SplitParts(s: string, sep: char)
    ensures forall k :: 0 <= k < |Split(s, sep)| ==> sep !in Split(s, sep)[k]
    ensures |Split(s, sep)| == Count(s, sep) + 1
  {
    if s != [] {
      SplitParts(s[1..], sep);
    }
  }

  /** A string without the separator is a single part. */
  lemma {:induction false} SplitNoSeparator(s: string, sep: char)
    requires sep !in s
    ensures Split(s, sep) == [s]
  {
    if s != [] {
      SplitNoSeparator(s[1..], sep);
      assert [s[0]] + s[1..] == s;
    }
  }

  /** Two separator-free strings joined by the separator split back into the two. */
  lemma {:induction false} SplitAround(a: string, b: string, sep: char)
    requires sep !in a && sep !in b
    ensures Split(a + [sep] + b, sep) == [a, b]
  {
    if a == [] {
      assert a + [sep] + b == [sep] + b;
      assert ([sep] + b)[1..] == b;
      SplitNoSeparator(b, sep);
    } else {
      assert (a + [sep] + b)[1..] == a[1..] + [sep] + b;
      SplitAround(a[1..], b, sep);
      assert [a[0]] + a[1..] == a;
    }
  }

  /** A string without the separator, followed by it, splits into that string and "". */
  lemma {:induction false} SplitTrailingSeparator(s: string, sep: char)
    requires sep !in s
    ensures Split(s + [sep], sep) == [s, ""]
  {
    if s == [] {
      assert [sep][1..] == [];
    } else {
      assert (s + [sep])[1..] == s[1..] + [sep];
      SplitTrailingSeparator(s[1..], sep);
      assert [s[0]] + s[1..] == s;
    }
  }

  function Count(s: string, c: char): nat
  {
    if s == [] then 0 else (if s[0] == c then 1 else 0) + Count(s[1..], c)
  }

  lemma {:induction false} CountPositive(s: string, c: char)
    ensures c in s <==> Count(s, c) > 0
  {
    if s != [] {
      CountPositive(s[1..], c);
      assert c in s <==> s[0] == c || c in s[1..] by {
        assert s == [s[0]] + s[1..];
      }
    }
  }

  // ---------------------------------------------------------------- replace

  /** `s.replace(old, new)`: every non-overlapping occurrence, left to right. */
  function Replace(s: string, pat: string, rep: string): string
    decreases |s|, |pat|
  {
    if pat == [] then
      (if s == [] then rep else rep + [s[0]] + Replace(s[1..], pat, rep))
    else if StartsWith(s, pat) then rep + Replace(s[|pat|..], pat, rep)
    else if s == [] then ""
    else [s[0]] + Replace(s[1..], pat, rep)
  }

  /** `s.split(sep)` for a non-empty separator string. */
  function SplitOn(s: string, sep: string): (parts: seq<string>)
    requires sep != []
    ensures |parts| >= 1
  {
    if StartsWith(s, sep) then [""] + SplitOn(s[|sep|..], sep)
    else if s == [] then [""]
    else
      var rest := SplitOn(s[1..], sep);
      [[s[0]] + rest[0]] + rest[1..]
  }

  /** Replacing a non-empty substring is splitting at it and joining with the replacement. */
  lemma {:induction false} ReplaceIsSplitJoin(s: string, pat: string, rep: string)
    requires pat != []
    ensures Replace(s, pat, rep) == Join(rep, SplitOn(s, pat))
  {
    if StartsWith(s, pat) {
      ReplaceIsSplitJoin(s[|pat|..], pat, rep);
      var rest := SplitOn(s[|pat|..], pat);
      assert ([""] + rest)[1..] == rest;
    } else if s != [] {
      ReplaceIsSplitJoin(s[1..], pat, rep);
      var rest := SplitOn(s[1..], pat);
      JoinConsFirst(rep, [s[0]], rest[0], rest[1..]);
      assert [rest[0]] + rest[1..] == rest;
    }
  }

  /** A string with no occurrence of the replaced text comes back unchanged. */
  lemma {:induction false} ReplaceAbsent(s: string, pat: string, rep: string)
    requires pat != []
    requires !HasSubstring(s, pat)
    ensures Replace(s, pat, rep) == s
  {
    if s != [] {
      ReplaceAbsent(s[1..], pat, rep);
    }
  }

  /** Replacing a character with one that is not the original removes every occurrence. */
  lemma {:induction false} ReplaceCharRemoves(s: string, c: char, d: char)
    requires c != d
    ensures c !in Replace(s, [c], [d])
    ensures |Replace(s, [c], [d])| == |s|
  {
    if s != [] {
      ReplaceCharRemoves(s[1..], c, d);
      assert s[..1] == [s[0]];
    }
  }

  // ---------------------------------------------------------------- integers

  predicate IsDigit(c: char) { '0' <= c <= '9' }

  predicate AllDigits(s: string) { forall i :: 0 <= i < |s| ==> IsDigit(s[i]) }

  /** The ASCII characters for which `str.isspace()` holds: tab to carriage return, 0x1c-0x1f and space. */
  predicate IsSpace(c: char) { c == ' ' || 9 <= c as int <= 13 || 28 <= c as int <= 31 }

  /** `s.lstrip()`: the suffix left after dropping leading whitespace. */
  function TrimLeft(s: string): string
  {
    if s != [] && IsSpace(s[0]) then TrimLeft(s[1..]) else s
  }

  /** `s.rstrip()`: the prefix left after dropping trailing whitespace. */
  function TrimRight(s: string): string
  {
    if s != [] && IsSpace(s[|s| - 1]) then TrimRight(s[..|s| - 1]) else s
  }

  /** lstrip drops exactly the leading whitespace. */
  lemma {:induction false} TrimLeftSuffix(s: string)
    ensures var t := TrimLeft(s);
      && |t| <= |s| && t == s[|s| - |t|..]
      && (forall i :: 0 <= i < |s| - |t| ==> IsSpace(s[i]))
      && (t == [] || !IsSpace(t[0]))
  {
    if s != [] && IsSpace(s[0]) {
      TrimLeftSuffix(s[1..]);
      assert forall i :: 1 <= i < |s| ==> s[i] == s[1..][i - 1];
    }
  }

  /** rstrip drops exactly the trailing whitespace. */
  lemma {:induction false} TrimRightPrefix(s: string)
    ensures var t := TrimRight(s);
      && |t| <= |s| && t == s[..|t|]
      && (forall i :: |t| <= i < |s| ==> IsSpace(s[i]))
      && (t == [] || !IsSpace(t[|t| - 1]))
  {
    if s != [] && IsSpace(s[|s| - 1]) {
      TrimRightPrefix(s[..|s| - 1]);
    }
  }

  /** `s.strip()`. */
  function Strip(s: string): string
  {
    TrimRight(TrimLeft(s))
  }

  /**
   * A base-10 literal as `int()` reads it: one or more digits, where a single
   * `_` may stand between two digits.
   */
  predicate IsLiteral(u: string)
  {
    |u| >= 1 && IsDigit(u[0]) && LiteralRest(u[1..])
  }

  /** What may follow the first digit of a literal. */
  predicate LiteralRest(u: string)
    decreases |u|
  {
    || u == []
    || (IsDigit(u[0]) && LiteralRest(u[1..]))
    || (|u| >= 2 && u[0] == '_' && IsDigit(u[1]) && LiteralRest(u[2..]))
  }

  /**
   * The value of the digits of `s`, most significant first; the `_` separators
   * of a literal are skipped.
   */
  function DigitsValue(s: string): nat
  {
    if s == [] then 0
    else if IsDigit(s[|s| - 1]) then DigitsValue(s[..|s| - 1]) * 10 + (s[|s| - 1] - '0') as nat
    else DigitsValue(s[..|s| - 1])
  }

  /**
   * `int(s)` for a str: surrounding whitespace is stripped, then an optional
   * sign and a literal must remain; None where Python raises ValueError.
   */
  function ParseInt(s: string): Option<int>
  {
    var t := Strip(s);
    if |t| >= 1 && t[0] == '-' && IsLiteral(t[1..]) then Some(-(DigitsValue(t[1..]) as int))
    else if |t| >= 1 && t[0] == '+' && IsLiteral(t[1..]) then Some(DigitsValue(t[1..]) as int)
    else if IsLiteral(t) then Some(DigitsValue(t) as int)
    else None
  }

  /** The characters an int-convertible string may hold. */
  predicate IntChar(c: char) { IsDigit(c) || c == '_' || c == '-' || c == '+' || IsSpace(c) }

  lemma {:induction false} LiteralRestChars(u: string)
    requires LiteralRest(u)
    ensures forall i :: 0 <= i < |u| ==> IsDigit(u[i]) || u[i] == '_'
  {
    if u != [] {
      if IsDigit(u[0]) && LiteralRest(u[1..]) {
        LiteralRestChars(u[1..]);
        assert forall i :: 1 <= i < |u| ==> u[i] == u[1..][i - 1];
      } else {
        LiteralRestChars(u[2..]);
        assert forall i :: 2 <= i < |u| ==> u[i] == u[2..][i - 2];
      }
    }
  }

  /** A literal is digits and underscores. */
  lemma {:induction false} LiteralChars(u: string)
    requires IsLiteral(u)
    ensures forall i :: 0 <= i < |u| ==> IsDigit(u[i]) || u[i] == '_'
  {
    LiteralRestChars(u[1..]);
    assert forall i :: 1 <= i < |u| ==> u[i] == u[1..][i - 1];
  }

  lemma {:induction false} DigitsAreLiteralRest(u: string)
    requires AllDigits(u)
    ensures LiteralRest(u)
  {
    if u != [] {
      DigitsAreLiteralRest(u[1..]);
    }
  }

  /** Every non-empty string of digits is a literal. */
  lemma {:induction false} DigitsAreLiteral(u: string)
    requires |u| >= 1 && AllDigits(u)
    ensures IsLiteral(u)
  {
    DigitsAreLiteralRest(u[1..]);
  }

  /** An int-convertible string holds only whitespace, signs, digits and underscores. */
  lemma {:induction false} ParseIntChars(s: string)
    requires ParseInt(s).Some?
    ensures forall i :: 0 <= i < |s| ==> IntChar(s[i])
  {
    var l := TrimLeft(s);
    var t := TrimRight(l);
    TrimLeftSuffix(s);
    TrimRightPrefix(l);
    var k := |s| - |l|;
    if |t| >= 1 && (t[0] == '-' || t[0] == '+') && IsLiteral(t[1..]) {
      LiteralChars(t[1..]);
      assert forall j :: 1 <= j < |t| ==> t[j] == t[1..][j - 1];
    } else {
      LiteralChars(t);
    }
    forall i | 0 <= i < |s|
      ensures IntChar(s[i])
    {
      if k <= i < k + |t| {
        assert s[i] == l[i - k] == t[i - k];
      } else if k + |t| <= i {
        assert s[i] == l[i - k];
      }
    }
  }

  /** A non-empty run of digits is int-convertible to its value. */
  lemma {:induction false} ParseDigits(s: string)
    requires |s| >= 1 && AllDigits(s)
    ensures ParseInt(s) == Some(DigitsValue(s) as int)
  {
    DigitsAreLiteral(s);
    StripUnspaced(s);
  }

  /** Strings with the same stripped text convert alike. */
  lemma {:induction false} ParseIntStrip(s1: string, s2: string)
    requires Strip(s1) == Strip(s2)
    ensures ParseInt(s1) == ParseInt(s2)
  {
  }

  lemma {:induction false} Value1987()
    ensures DigitsValue("1987") == 1987
  {
    assert "1987"[..3] == "198" && "198"[..2] == "19" && "19"[..1] == "1" && "1"[..0] == "";
  }

  /** Like `int()`, the model accepts surrounding whitespace: `int(" 1987 ") == 1987`. */
  lemma {:induction false} PaddedInt()
    ensures ParseInt(" 1987 ") == Some(1987)
  {
    assert TrimLeft(" 1987 ") == "1987 " by { assert " 1987 "[1..] == "1987 "; }
    assert TrimRight("1987 ") == "1987" by { assert "1987 "[..4] == "1987"; }
    assert Strip("1987") == "1987" by { StripUnspaced("1987"); }
    ParseIntStrip(" 1987 ", "1987");
    ParseDigits("1987");
    Value1987();
  }

  /** Like `int()`, the model accepts an underscore between digits: `int("1_987") == 1987`. */
  lemma {:induction false} UnderscoredInt()
    ensures ParseInt("1_987") == Some(1987)
  {
    var s := "1_987";
    StripUnspaced(s);
    DigitsAreLiteralRest("87");
    assert s[1..] == "_987" && s[1..][2..] == "87";
    assert IsLiteral(s);
    assert s[..4] == "1_98" && "1_98"[..3] == "1_9" && "1_9"[..2] == "1_" && "1_"[..1] == "1" && "1"[..0] == "";
    assert DigitsValue("1") == 1;
    assert DigitsValue("1_") == 1 by { assert !IsDigit('_'); }
    assert DigitsValue("1_9") == 19;
    assert DigitsValue("1_98") == 198;
  }

  /** Like `int()`, the model refuses a doubled underscore and a space after the sign. */
  lemma {:induction false} MalformedInts()
    ensures ParseInt("1__987").None?
    ensures ParseInt("- 5").None?
  {
    StripUnspaced("1__987");
    StripUnspaced("- 5");
    assert "1__987"[1..] == "__987";
    assert "- 5"[1..] == " 5";
  }

  /** A string without surrounding whitespace is its own strip. */
  lemma {:induction false} StripUnspaced(s: string)
    requires s != [] && !IsSpace(s[0]) && !IsSpace(s[|s| - 1])
    ensures Strip(s) == s
  {
  }

  /** `str(n)` for a natural number. */
  function NatString(n: nat): (s: string)
    ensures |s| >= 1 && AllDigits(s)
  {
    if n < 10 then [('0' as int + n) as char]
    else NatString(n / 10) + [('0' as int + n % 10) as char]
  }

  /** `str(i)` for an int. */
  function DecimalString(i: int): (s: string)
    ensures |s| >= 1
  {
    if i < 0 then "-" + NatString(-i) else NatString(i)
  }

  lemma {:induction false} NatStringValue(n: nat)
    ensures DigitsValue(NatString(n)) == n
  {
    if n >= 10 {
      NatStringValue(n / 10);
      var s := NatString(n);
      assert s[..|s| - 1] == NatString(n / 10);
    }
  }

  /** `int(str(i)) == i`. */
  lemma {:induction false} DecimalRoundTrip(i: int)
    ensures ParseInt(DecimalString(i)) == Some(i)
  {
    var s := DecimalString(i);
    if i < 0 {
      NatStringValue(-i);
      assert s[1..] == NatString(-i);
      DigitsAreLiteral(s[1..]);
    } else {
      NatStringValue(i);
      DigitsAreLiteral(s);
    }
    StripUnspaced(s);
  }
}
