/**
 * An in-memory stand-in for the MongoDB collection the ingestion code
 * writes to: documents in insertion order, fresh ObjectIds for documents
 * that bring none, unique indexes (always `_id`), the ordered `insert_many`
 * that stops at the first duplicate-key error, and the text-index flag.
 */
module Store {
  import opened Common

  // ---------------------------------------------------------------- object ids

  predicate IsHex(c: char) { '0' <= c <= '9' || 'a' <= c <= 'f' || 'A' <= c <= 'F' }

  /** What `bson.ObjectId(s)` accepts for a str: exactly 24 hexadecimal digits. */
  predicate ValidOid(s: string)
  {
    |s| == 24 && forall i :: 0 <= i < |s| ==> IsHex(s[i])
  }

  function LowerHexChar(c: char): char
  {
    if 'A' <= c <= 'F' then (c as int - 'A' as int + 'a' as int) as char else c
  }

  /** `str(ObjectId(s))`: the same digits in lower case. */
  function CanonicalOid(s: string): (t: string)
    ensures |t| == |s|
    ensures forall i :: 0 <= i < |s| ==> t[i] == LowerHexChar(s[i])
  {
    if s == [] then [] else [LowerHexChar(s[0])] + CanonicalOid(s[1..])
  }

  function HexDigit(d: nat): (c: char)
    requires d < 16
    ensures IsHex(c) && LowerHexChar(c) == c
  {
    if d < 10 then ('0' as int + d) as char else ('a' as int + d - 10) as char
  }

  /** The last `width` hexadecimal digits of n, most significant first. */
  function HexDigits(n: nat, width: nat): (s: string)
    ensures |s| == width
    ensures forall i :: 0 <= i < |s| ==> IsHex(s[i]) && LowerHexChar(s[i]) == s[i]
  {
    if width == 0 then [] else HexDigits(n / 16, width - 1) + [HexDigit(n % 16)]
  }

  /** Twelve bytes, two digits each. */
  function OidWidth(n: nat): (w: nat)
    ensures w == 24
  {
    24
  }

  /** The id the collection gives to the n-th document inserted without one. */
  function OidOf(n: nat): (s: string)
    ensures ValidOid(s) && CanonicalOid(s) == s
  {
    var s := HexDigits(n, OidWidth(n));
    assert CanonicalOid(s) == s;
    s
  }

  // ---------------------------------------------------------------- insert_many

  datatype WriteError = WriteError(index: nat, code: int)

  /** What `insert_many` does: returns the inserted ids, raises BulkWriteError with
      the number inserted and the write errors, or raises another error. */
  datatype InsertOutcome =
    | Inserted(ids: seq<Value>)
    | BulkWriteError(nInserted: nat, writeErrors: seq<WriteError>)
    | Raised(error: Error)

  /** The collection's documents after an insert_many, and what the call returned or raised. */
  datatype Insertion = Insertion(docs: seq<Doc>, outcome: InsertOutcome)

  const DuplicateKeyCode: int := 11000

  /** The document as stored: given the n-th fresh id unless it brings an `_id`. */
  function Stamp(d: Doc, n: nat): (e: Doc)
    ensures "_id" in e && e.Keys == d.Keys + {"_id"}
    ensures forall k :: k in d ==> e[k] == d[k]
    ensures "_id" !in d ==> e["_id"] == VId(OidOf(n))
  {
    if "_id" in d then d else d["_id" := VId(OidOf(n))]
  }

  /** Some stored document agrees with d on a uniquely indexed field (missing counts as null). */
  predicate Clashes(docs: seq<Doc>, d: Doc, keys: set<string>)
  {
    exists j :: 0 <= j < |docs| && SameOn(docs[j], d, keys)
  }

  predicate SameOn(e: Doc, d: Doc, keys: set<string>)
  {
    exists k :: k in keys && Get(e, k) == Get(d, k)
  }

  /** The ordered insertion of batch[i..] into docs, the i-th document taking id base + i. */
  function InsertFrom(docs: seq<Doc>, base: nat, keys: set<string>, batch: seq<Doc>, i: nat, ids: seq<Value>): Insertion
    requires i <= |batch|
    decreases |batch| - i
  {
    if i == |batch| then Insertion(docs, Inserted(ids))
    else
      var d := Stamp(batch[i], base + i);
      if Clashes(docs, d, keys) then Insertion(docs, BulkWriteError(i, [WriteError(i, DuplicateKeyCode)]))
      else InsertFrom(docs + [d], base, keys, batch, i + 1, ids + [d["_id"]])
  }

  /** `insert_many(batch)` (ordered) on a collection holding docs, fresh ids counted from base. */
  function InsertMany(docs: seq<Doc>, base: nat, keys: set<string>, batch: seq<Doc>): Insertion
  {
    if batch == [] then Insertion(docs, Raised(TypeError("documents must be a non-empty list")))
    else InsertFrom(docs, base, keys, batch, 0, [])
  }

  /** The stored form of batch[..k]. */
  function StampedPrefix(batch: seq<Doc>, base: nat, k: nat): (r: seq<Doc>)
    requires k <= |batch|
    ensures |r| == k
    ensures forall i :: 0 <= i < k ==> r[i] == Stamp(batch[i], base + i)
  {
    if k == 0 then [] else StampedPrefix(batch, base, k - 1) + [Stamp(batch[k - 1], base + k - 1)]
  }

  lemma {:induction false} InsertFromShape(docs: seq<Doc>, base: nat, keys: set<string>, batch: seq<Doc>, i: nat, ids: seq<Value>, old0: seq<Doc>)
    requires i <= |batch| && docs == old0 + StampedPrefix(batch, base, i)
    ensures var r := InsertFrom(docs, base, keys, batch, i, ids); var after, out := r.docs, r.outcome;
      && (out.Inserted? ==> after == old0 + StampedPrefix(batch, base, |batch|))
      && (out.BulkWriteError? ==> i <= out.nInserted < |batch|
                                  && after == old0 + StampedPrefix(batch, base, out.nInserted)
                                  && out.writeErrors == [WriteError(out.nInserted, DuplicateKeyCode)]
                                  && ClashesAt(after, batch, base, out.nInserted, keys))
      && !out.Raised?
    decreases |batch| - i
  {
    if i < |batch| {
      var d := Stamp(batch[i], base + i);
      var r := InsertFrom(docs, base, keys, batch, i, ids);
      if Clashes(docs, d, keys) {
        assert r == Insertion(docs, BulkWriteError(i, [WriteError(i, DuplicateKeyCode)]));
        assert ClashesAt(docs, batch, base, i, keys);
      } else {
        assert r == InsertFrom(docs + [d], base, keys, batch, i + 1, ids + [d["_id"]]);
        assert StampedPrefix(batch, base, i + 1) == StampedPrefix(batch, base, i) + [d];
        ConcatAssoc(old0, StampedPrefix(batch, base, i), [d]);
        InsertFromShape(docs + [d], base, keys, batch, i + 1, ids + [d["_id"]], old0);
      }
    }
  }

  /** One step of the ordered insertion: stop at a clash, else store the document and go on. */
  lemma {:induction false} InsertFromStep(docs: seq<Doc>, base: nat, keys: set<string>, batch: seq<Doc>, i: nat, ids: seq<Value>)
    requires i < |batch|
    ensures var d := Stamp(batch[i], base + i);
      && (Clashes(docs, d, keys) ==> InsertFrom(docs, base, keys, batch, i, ids) == Insertion(docs, BulkWriteError(i, [WriteError(i, DuplicateKeyCode)])))
      && (!Clashes(docs, d, keys) ==> InsertFrom(docs, base, keys, batch, i, ids) == InsertFrom(docs + [d], base, keys, batch, i + 1, ids + [d["_id"]]))
  {
  }

  /** The document at index n of the batch, as it would be stored, clashes with a stored one. */
  predicate ClashesAt(docs: seq<Doc>, batch: seq<Doc>, base: nat, n: nat, keys: set<string>)
    requires n < |batch|
  {
    Clashes(docs, Stamp(batch[n], base + n), keys)
  }

  /**
   * The three outcomes of an ordered insert_many: an empty batch raises and stores nothing;
   * otherwise either every document is stored, in order, after the old ones; or the ones
   * before the first duplicate are stored and exactly one write error, a duplicate key, is reported.
   */
  lemma {:induction false} InsertManyOutcomes(docs: seq<Doc>, base: nat, keys: set<string>, batch: seq<Doc>)
    ensures var r := InsertMany(docs, base, keys, batch); var after, out := r.docs, r.outcome;
      && (batch == [] <==> out.Raised?)
      && (out.Raised? ==> after == docs)
      && (out.Inserted? ==> after == docs + StampedPrefix(batch, base, |batch|))
      && (out.BulkWriteError? ==> out.nInserted < |batch|
                                  && after == docs + StampedPrefix(batch, base, out.nInserted)
                                  && out.writeErrors == [WriteError(out.nInserted, DuplicateKeyCode)])
  {
    if batch != [] {
      InsertFromShape(docs, base, keys, batch, 0, [], docs);
    }
  }

  /** insert_many only appends to the collection. */
  lemma {:induction false} InsertManyAppends(docs: seq<Doc>, base: nat, keys: set<string>, batch: seq<Doc>)
    ensures PrefixOf(docs, InsertMany(docs, base, keys, batch).docs)
  {
    InsertManyOutcomes(docs, base, keys, batch);
  }

  /** insert_many raises exactly on an empty list. */
  lemma {:induction false} InsertManyRaises(docs: seq<Doc>, base: nat, keys: set<string>, batch: seq<Doc>)
    ensures InsertMany(docs, base, keys, batch).outcome.Raised? <==> batch == []
  {
    InsertManyOutcomes(docs, base, keys, batch);
  }

  /** The write errors a caller reports: those that are not duplicate keys. */
  function ReportedErrors(errors: seq<WriteError>): (r: seq<WriteError>)
    ensures forall e :: e in r <==> e in errors && e.code != DuplicateKeyCode
  {
    if errors == [] then []
    else (if errors[0].code != DuplicateKeyCode then [errors[0]] else []) + ReportedErrors(errors[1..])
  }

  /** An insert_many into this collection never produces an error worth reporting. */
  lemma {:induction false} InsertManyReportsNothing(docs: seq<Doc>, base: nat, keys: set<string>, batch: seq<Doc>)
    ensures var out := InsertMany(docs, base, keys, batch).outcome;
      out.BulkWriteError? ==> ReportedErrors(out.writeErrors) == []
  {
    InsertManyOutcomes(docs, base, keys, batch);
  }

  /** The loop inside an ordered insert_many: stamp each document and append it, stopping at the
      first one that clashes with what is already stored. */
  method InsertOrdered(docs: seq<Doc>, base: nat, keys: set<string>, batch: seq<Doc>) returns (after: seq<Doc>, out: InsertOutcome)
    requires batch != []
    ensures Insertion(after, out) == InsertMany(docs, base, keys, batch)
  {
    after := docs;
    var i := 0;
    var ids: seq<Value> := [];
    while i < |batch|
      invariant 0 <= i <= |batch|
      invariant InsertFrom(after, base, keys, batch, i, ids) == InsertMany(docs, base, keys, batch)
      decreases |batch| - i
    {
      var d := Stamp(batch[i], base + i);
      InsertFromStep(after, base, keys, batch, i, ids);
      if Clashes(after, d, keys) {
        return after, BulkWriteError(i, [WriteError(i, DuplicateKeyCode)]);
      }
      after := after + [d];
      ids := ids + [d["_id"]];
      i := i + 1;
    }
    out := Inserted(ids);
  }

  // ---------------------------------------------------------------- the collection object

  class Collection {
    var docs: seq<Doc>
    var nextId: nat
    var textIndexed: bool
    /** Fields under a unique index, `_id` always among them. */
    const uniqueKeys: set<string>

    constructor (extraUnique: set<string>)
      ensures docs == [] && nextId == 0 && !textIndexed
      ensures uniqueKeys == extraUnique + {"_id"}
    {
      docs := [];
      nextId := 0;
      textIndexed := false;
      uniqueKeys := extraUnique + {"_id"};
    }

    /** `insert_many(batch)`: one document at a time, stopping at the first duplicate key. */
    method InsertManyOrdered(batch: seq<Doc>) returns (out: InsertOutcome)
      modifies this
      ensures Insertion(docs, out) == InsertMany(old(docs), old(nextId), uniqueKeys, batch)
      ensures nextId == old(nextId) + |batch|
      ensures textIndexed == old(textIndexed)
    {
      if batch == [] {
        out := Raised(TypeError("documents must be a non-empty list"));
        nextId := nextId + |batch|;
        return;
      }
      var after;
      after, out := InsertOrdered(docs, nextId, uniqueKeys, batch);
      docs, nextId := after, nextId + |batch|;
    }

    /** `create_index({"$**": "text"})`. */
    method CreateTextIndex()
      modifies this
      ensures textIndexed && docs == old(docs) && nextId == old(nextId)
    {
      textIndexed := true;
    }
  }
}
