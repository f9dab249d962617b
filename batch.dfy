/**
 * The batch ingestion loop shared by `AtlasClient.insert_documents`
 * (bntl/db_client.py) and `insert_documents` (bntl/ingest.py): the input
 * list is cut into consecutive batches; each record is year-fixed in place,
 * validated and kept or dropped; the kept records of a batch go to one
 * ordered insert_many whose duplicate-key errors are swallowed.
 */
module Batches {
  import opened Common
  import M = BntlModels
  import opened Store
  import DbClient
  import Ingest

  /** What happens to one record: kept (in the form inserted), dropped because of a
      caught exception, or an uncaught exception that ends the whole call. */
  datatype Step = Keep(doc: Doc) | Drop(reason: Error) | Abort(error: Error)

  /** The caller's dict after the record was handled, and what happened to it. */
  datatype Prepared = Prepared(input: Doc, step: Step)

  /** The body of the inner loop, for the record at position i of the input. */
  type Handler = (Doc, nat) -> Prepared

  /** `AtlasClient.insert_documents`: fix the year, then validate against the loader's strict schema. */
  function AtlasStep(doc: Doc, i: nat): Prepared
  {
    var f := DbClient.FixYear(doc);
    if f.raised.Some? then Prepared(f.doc, Caught(f.raised.value))
    else
      match M.Validate(DbClient.StrictEntrySchema, f.doc)
      case Err(e) => Prepared(f.doc, Drop(e))
      case Ok(d) => Prepared(f.doc, Keep(d))
  }

  /** bntl/ingest.py's `insert_documents`, with `fix_year` taken from bntl/db_client.py: fix the
      year, validate against the entry schema, stamp `date_added` with the clock reading at the
      i-th record, and require a truthy title. */
  function IngestStep(now: nat -> int, doc: Doc, i: nat): Prepared
  {
    var f := DbClient.FixYear(doc);
    if f.raised.Some? then Prepared(f.doc, Caught(f.raised.value))
    else
      match M.Validate(M.EntrySchema, f.doc)
      case Err(e) => Prepared(f.doc, Drop(e))
      case Ok(d) =>
        var stamped := d["date_added" := VTime(now(i))];
        match Ingest.Validate(stamped)
        case Some(e) => Prepared(f.doc, if e.MissingFieldException? then Drop(e) else Abort(e))
        case None => Prepared(f.doc, Keep(stamped))
  }

  /** bntl/ingest.py as it stands: `utils.fix_year` names nothing bntl/utils.py defines, so the
      first record raises AttributeError; matching it against the first `except` clause then
      evaluates `utils.YearFormatException`, which bntl/utils.py does not define either, and
      that second AttributeError is the one that escapes. */
  function IngestStepAsWritten(doc: Doc, i: nat): Prepared
  {
    Prepared(doc, Abort(AttributeError("YearFormatException")))
  }

  /** The loop bodies as handlers. */
  function IngestHandler(now: nat -> int): Handler
  {
    (d: Doc, i: nat) => IngestStep(now, d, i)
  }

  function AtlasHandler(): Handler
  {
    (d: Doc, i: nat) => AtlasStep(d, i)
  }

  function IngestHandlerAsWritten(): Handler
  {
    (d: Doc, i: nat) => IngestStepAsWritten(d, i)
  }

  /** An exception out of fix_year: a year-format error is caught, anything else escapes. */
  function Caught(e: Error): (s: Step)
    ensures s.Drop? <==> e.YearFormatException?
    ensures s.Drop? || s == Abort(e)
  {
    if e.YearFormatException? then Drop(e) else Abort(e)
  }

  // ---------------------------------------------------------------- per-record properties

  /** A record the ingestion loader keeps carries its ingestion time and a truthy title. */
  lemma {:induction false} IngestionKeeps(now: nat -> int, doc: Doc, i: nat)
    requires IngestStep(now, doc, i).step.Keep?
    ensures var d := IngestStep(now, doc, i).step.doc;
      "date_added" in d && d["date_added"] == VTime(now(i)) && "title" in d && Truthy(d["title"])
  {
  }

  /** The ingestion loader drops exactly the records whose failure it catches: a year-format
      error, a validation error or a falsy title; any other exception out of fix_year aborts. */
  lemma {:induction false} IngestionSteps(now: nat -> int, doc: Doc, i: nat)
    ensures var p := IngestStep(now, doc, i); var f := DbClient.FixYear(doc);
      && p.input == f.doc
      && (p.step.Abort? <==> f.raised.Some? && !f.raised.value.YearFormatException?)
      && (p.step.Drop? ==> p.step.reason.YearFormatException? || p.step.reason.ValidationError? || p.step.reason.MissingFieldException?)
  {
    M.EntryHasTitle(DbClient.FixYear(doc).doc);
  }

  /** The Atlas loader drops a record on a year-format or validation error, keeps it in
      its validated form otherwise, and lets any other exception out of fix_year escape. */
  lemma {:induction false} AtlasSteps(doc: Doc, i: nat)
    ensures var p := AtlasStep(doc, i); var f := DbClient.FixYear(doc);
      && p.input == f.doc
      && (p.step.Abort? <==> f.raised.Some? && !f.raised.value.YearFormatException?)
      && (p.step.Drop? ==> p.step.reason.YearFormatException? || p.step.reason.ValidationError?)
      && (p.step.Keep? ==> f.raised.None? && M.Validate(DbClient.StrictEntrySchema, f.doc) == Ok(p.step.doc))
  {
  }

  // ---------------------------------------------------------------- the loop, as a function

  /** One batch: the inputs after their in-place year fixing, the records kept, how many
      were examined, and the exception that escaped, if one did. */
  datatype BatchOutcome = BatchOutcome(inputs: seq<Doc>, kept: seq<Doc>, examined: nat, abort: Option<Error>)

  /** The inner loop from position k to end, with the records kept so far and the count so far. */
  function BatchFrom(step: Handler, inputs: seq<Doc>, k: nat, end: nat, kept: seq<Doc>, examined: nat): (b: BatchOutcome)
    requires k <= end <= |inputs|
    ensures |b.inputs| == |inputs|
    ensures b.abort.None? ==> b.examined == examined + (end - k)
    decreases end - k
  {
    if k == end then BatchOutcome(inputs, kept, examined, None)
    else
      var p := step(inputs[k], k);
      var next := inputs[k := p.input];
      match p.step
      case Abort(e) => BatchOutcome(next, kept, examined, Some(e))
      case Keep(d) => BatchFrom(step, next, k + 1, end, kept + [d], examined + 1)
      case Drop(_) => BatchFrom(step, next, k + 1, end, kept, examined + 1)
  }

  /** The state a call leaves: the caller's list, the collection's documents and id counter,
      and either the final value of the `doc_id` counter or the exception that escaped. */
  datatype Run = Run(inputs: seq<Doc>, stored: seq<Doc>, nextId: nat, result: Result<nat>)

  function BatchEnd(start: nat, bs: nat, n: nat): (end: nat)
    ensures end == if start + bs < n then start + bs else n
  {
    if start + bs < n then start + bs else n
  }

  /** One turn of the outer loop: the batch, then its insert_many. The result is the exception
      that ends the call, or the `doc_id` counter the next turn starts from. */
  function Turn(step: Handler, inputs: seq<Doc>, start: nat, bs: nat, stored: seq<Doc>, nextId: nat,
                keys: set<string>, counter: nat): Run
    requires start < |inputs|
  {
    var b := BatchFrom(step, inputs, start, BatchEnd(start, bs, |inputs|), [], counter);
    if b.abort.Some? then Run(b.inputs, stored, nextId, Err(b.abort.value))
    else
      var ins := InsertMany(stored, nextId, keys, b.kept);
      if ins.outcome.Raised? then Run(b.inputs, ins.docs, nextId + |b.kept|, Err(ins.outcome.error))
      else Run(b.inputs, ins.docs, nextId + |b.kept|, Ok(b.examined))
  }

  /** The outer loop from the batch starting at `start`. */
  function RunFrom(step: Handler, inputs: seq<Doc>, start: nat, bs: nat, stored: seq<Doc>, nextId: nat,
                   keys: set<string>, counter: nat): Run
    requires bs > 0
    decreases |inputs| - start
  {
    if start >= |inputs| then Run(inputs, stored, nextId, Ok(counter))
    else
      var b := BatchFrom(step, inputs, start, BatchEnd(start, bs, |inputs|), [], counter);
      if b.abort.Some? then Run(b.inputs, stored, nextId, Err(b.abort.value))
      else
        var ins := InsertMany(stored, nextId, keys, b.kept);
        if ins.outcome.Raised? then Run(b.inputs, ins.docs, nextId + |b.kept|, Err(ins.outcome.error))
        else RunFrom(step, b.inputs, start + bs, bs, ins.docs, nextId + |b.kept|, keys, b.examined)
  }

  /** `insert_documents(documents, batch_size)`: `range(0, n, batch_size)` refuses a zero step
      and is empty for a negative one. */
  function InsertDocumentsSpec(step: Handler, inputs: seq<Doc>, bs: int, stored: seq<Doc>, nextId: nat, keys: set<string>): Run
  {
    if bs == 0 then Run(inputs, stored, nextId, Err(ValueError("range() arg 3 must not be zero")))
    else if bs < 0 then Run(inputs, stored, nextId, Ok(0))
    else RunFrom(step, inputs, 0, bs, stored, nextId, keys, 0)
  }

  // ---------------------------------------------------------------- what a run does

  /** Some record in [lo, hi) raises an uncaught exception. */
  predicate AnyAbort(step: Handler, inputs: seq<Doc>, lo: nat, hi: nat)
    requires lo <= hi <= |inputs|
    decreases hi - lo
  {
    lo < hi && (step(inputs[lo], lo).step.Abort? || AnyAbort(step, inputs, lo + 1, hi))
  }

  /** The records of [lo, hi) that are kept, in order, in the form they are inserted. */
  function KeptIn(step: Handler, inputs: seq<Doc>, lo: nat, hi: nat): seq<Doc>
    requires lo <= hi <= |inputs|
    decreases hi - lo
  {
    if lo == hi then []
    else (if step(inputs[lo], lo).step.Keep? then [step(inputs[lo], lo).step.doc] else [])
         + KeptIn(step, inputs, lo + 1, hi)
  }

  /** Every batch from `start` on has no uncaught exception and keeps at least one record. */
  predicate BatchesComplete(step: Handler, inputs: seq<Doc>, bs: nat, start: nat)
    requires bs > 0
    decreases |inputs| - start
  {
    start >= |inputs| ||
      (var end := BatchEnd(start, bs, |inputs|);
       !AnyAbort(step, inputs, start, end) && KeptIn(step, inputs, start, end) != []
       && BatchesComplete(step, inputs, bs, start + bs))
  }

  /** `out` is `inputs` with each record of [lo, hi) replaced by what its handling left. */
  predicate HandledIn(step: Handler, inputs: seq<Doc>, out: seq<Doc>, lo: nat, hi: nat)
  {
    |out| == |inputs| && forall j :: 0 <= j < |inputs| ==> out[j] == if lo <= j < hi then step(inputs[j], j).input else inputs[j]
  }

  /** `a` and `b` agree from position `lo` on. */
  predicate Untouched(a: seq<Doc>, b: seq<Doc>, lo: nat)
  {
    |a| == |b| && forall j :: lo <= j < |a| ==> a[j] == b[j]
  }

  lemma {:induction false} HandledUntouched(step: Handler, inputs: seq<Doc>, out: seq<Doc>, lo: nat, hi: nat, from: nat)
    requires HandledIn(step, inputs, out, lo, hi) && hi <= from
    ensures Untouched(inputs, out, from)
  {
  }

  /** Handling [lo, m) and then [m2, hi), with no gap between the two, handles [lo, hi). */
  lemma {:induction false} HandledJoin(step: Handler, inputs: seq<Doc>, mid: seq<Doc>, out: seq<Doc>, lo: nat, m: nat, m2: nat, hi: nat)
    requires HandledIn(step, inputs, mid, lo, m) && HandledIn(step, mid, out, m2, hi)
    requires lo <= m <= hi && (m2 == m || (m == hi && hi <= m2))
    ensures HandledIn(step, inputs, out, lo, hi)
  {
    forall j | 0 <= j < |inputs|
      ensures out[j] == if lo <= j < hi then step(inputs[j], j).input else inputs[j]
    {
      if m2 <= j < hi {
        assert mid[j] == inputs[j];
      }
    }
  }

  /** What a range of records does depends only on those records. */
  lemma {:induction false} RangeFrame(step: Handler, a: seq<Doc>, b: seq<Doc>, lo: nat, hi: nat)
    requires lo <= hi <= |a| == |b|
    requires forall j :: lo <= j < hi ==> a[j] == b[j]
    ensures AnyAbort(step, a, lo, hi) == AnyAbort(step, b, lo, hi)
    ensures KeptIn(step, a, lo, hi) == KeptIn(step, b, lo, hi)
    decreases hi - lo
  {
    if lo < hi {
      RangeFrame(step, a, b, lo + 1, hi);
    }
  }

  lemma {:induction false} BatchesFrame(step: Handler, a: seq<Doc>, b: seq<Doc>, bs: nat, start: nat)
    requires bs > 0 && Untouched(a, b, start)
    ensures BatchesComplete(step, a, bs, start) == BatchesComplete(step, b, bs, start)
    decreases |a| - start
  {
    if start < |a| {
      RangeFrame(step, a, b, start, BatchEnd(start, bs, |a|));
      BatchesFrame(step, a, b, bs, start + bs);
    }
  }

  /** The inner loop keeps exactly the kept records, aborts exactly when one of them raises,
      and rewrites exactly the records of its range, each with what its handling left. */
  lemma {:induction false} BatchFromFacts(step: Handler, inputs: seq<Doc>, k: nat, end: nat, kept: seq<Doc>, examined: nat)
    requires k <= end <= |inputs|
    ensures var b := BatchFrom(step, inputs, k, end, kept, examined);
      && (b.abort.None? <==> !AnyAbort(step, inputs, k, end))
      && (b.abort.None? ==> b.kept == kept + KeptIn(step, inputs, k, end))
      && (b.abort.None? ==> HandledIn(step, inputs, b.inputs, k, end))
    decreases end - k
  {
    if k < end {
      var p := step(inputs[k], k);
      var next := inputs[k := p.input];
      RangeFrame(step, inputs, next, k + 1, end);
      if p.step.Keep? {
        BatchFromFacts(step, next, k + 1, end, kept + [p.step.doc], examined + 1);
        assert kept + [p.step.doc] + KeptIn(step, inputs, k + 1, end) == kept + KeptIn(step, inputs, k, end);
      } else if p.step.Drop? {
        BatchFromFacts(step, next, k + 1, end, kept, examined + 1);
      }
    }
  }

  /**
   * From batch `start` on, the call completes exactly when every remaining batch completes
   * (no uncaught exception and at least one kept record, since insert_many refuses an empty
   * list), and then the doc_id counter ends at n.
   */
  lemma {:induction false} RunFromOk(step: Handler, inputs: seq<Doc>, start: nat, bs: nat, stored: seq<Doc>,
                                     nextId: nat, keys: set<string>, counter: nat, r: Run)
    requires bs > 0 && counter == if start < |inputs| then start else |inputs|
    requires r == RunFrom(step, inputs, start, bs, stored, nextId, keys, counter)
    ensures OkExactly(step, inputs, bs, start, r)
    decreases |inputs| - start
  {
    if start < |inputs| {
      var b := BatchFrom(step, inputs, start, BatchEnd(start, bs, |inputs|), [], counter);
      var ins := InsertMany(stored, nextId, keys, b.kept);
      if b.abort.Some? || ins.outcome.Raised? {
        OkHalted(step, inputs, start, bs, stored, nextId, keys, counter, b, ins, r);
      } else {
        RunFromNext(step, inputs, start, bs, stored, nextId, keys, counter, b, ins, r);
        RunFromOk(step, b.inputs, start + bs, bs, ins.docs, nextId + |b.kept|, keys, b.examined, r);
        OkContinued(step, inputs, start, bs, stored, nextId, keys, counter, b, ins, r);
      }
    }
  }

  /** The turn that ends the call. */
  lemma {:induction false} OkHalted(step: Handler, inputs: seq<Doc>, start: nat, bs: nat, stored: seq<Doc>,
                                    nextId: nat, keys: set<string>, counter: nat, b: BatchOutcome, ins: Insertion, r: Run)
    requires bs > 0 && start < |inputs|
    requires b == BatchFrom(step, inputs, start, BatchEnd(start, bs, |inputs|), [], counter)
    requires ins == InsertMany(stored, nextId, keys, b.kept)
    requires r == RunFrom(step, inputs, start, bs, stored, nextId, keys, counter)
    requires b.abort.Some? || ins.outcome.Raised?
    ensures OkExactly(step, inputs, bs, start, r)
  {
    RunFromHalt(step, inputs, start, bs, stored, nextId, keys, counter, b, ins, r);
    BatchFromFacts(step, inputs, start, BatchEnd(start, bs, |inputs|), [], counter);
    InsertManyRaises(stored, nextId, keys, b.kept);
    OkStop(step, inputs, bs, start, b, r);
  }

  /** A turn that goes on: the rest of the call decides. */
  lemma {:induction false} OkContinued(step: Handler, inputs: seq<Doc>, start: nat, bs: nat, stored: seq<Doc>,
                                       nextId: nat, keys: set<string>, counter: nat, b: BatchOutcome, ins: Insertion, r: Run)
    requires bs > 0 && start < |inputs|
    requires b == BatchFrom(step, inputs, start, BatchEnd(start, bs, |inputs|), [], counter)
    requires ins == InsertMany(stored, nextId, keys, b.kept)
    requires b.abort.None? && !ins.outcome.Raised?
    requires OkExactly(step, b.inputs, bs, start + bs, r)
    ensures OkExactly(step, inputs, bs, start, r)
  {
    var end := BatchEnd(start, bs, |inputs|);
    BatchFromFacts(step, inputs, start, end, [], counter);
    InsertManyRaises(stored, nextId, keys, b.kept);
    HandledUntouched(step, inputs, b.inputs, start, end, start + bs);
    BatchesFrame(step, inputs, b.inputs, bs, start + bs);
    OkOn(step, inputs, bs, start, b, r);
  }

  /** A run from batch `start` completes exactly when every remaining batch completes, and
      then its doc_id counter is n. */
  ghost predicate OkExactly(step: Handler, inputs: seq<Doc>, bs: nat, start: nat, r: Run)
    requires bs > 0
  {
    && (r.result.Ok? <==> BatchesComplete(step, inputs, bs, start))
    && (r.result.Ok? ==> r.result.value == |inputs|)
  }

  /** A turn that ends the call: an uncaught exception, or an empty batch refused by insert_many. */
  lemma {:induction false} OkStop(step: Handler, inputs: seq<Doc>, bs: nat, start: nat, b: BatchOutcome, r: Run)
    requires bs > 0 && start < |inputs|
    requires var end := BatchEnd(start, bs, |inputs|);
      && (b.abort.None? <==> !AnyAbort(step, inputs, start, end))
      && (b.abort.None? ==> b.kept == [] + KeptIn(step, inputs, start, end) && b.kept == [])
    requires r.result.Err?
    ensures OkExactly(step, inputs, bs, start, r)
  {
  }

  /** A turn that goes on to the next batch. */
  lemma {:induction false} OkOn(step: Handler, inputs: seq<Doc>, bs: nat, start: nat, b: BatchOutcome, r: Run)
    requires bs > 0 && start < |inputs|
    requires var end := BatchEnd(start, bs, |inputs|);
      && !AnyAbort(step, inputs, start, end)
      && b.kept == [] + KeptIn(step, inputs, start, end) && b.kept != []
    requires OkExactly(step, b.inputs, bs, start + bs, r) && |b.inputs| == |inputs|
    requires BatchesComplete(step, b.inputs, bs, start + bs) == BatchesComplete(step, inputs, bs, start + bs)
    ensures OkExactly(step, inputs, bs, start, r)
  {
  }

  /** A completed call has handled every remaining record exactly once, in place. */
  lemma {:induction false} RunFromInputs(step: Handler, inputs: seq<Doc>, start: nat, bs: nat, stored: seq<Doc>,
                                         nextId: nat, keys: set<string>, counter: nat, r: Run)
    requires bs > 0
    requires r == RunFrom(step, inputs, start, bs, stored, nextId, keys, counter)
    ensures |r.inputs| == |inputs|
    ensures r.result.Ok? ==> HandledIn(step, inputs, r.inputs, start, |inputs|)
    decreases |inputs| - start
  {
    if start < |inputs| {
      var b := BatchFrom(step, inputs, start, BatchEnd(start, bs, |inputs|), [], counter);
      var ins := InsertMany(stored, nextId, keys, b.kept);
      if b.abort.Some? || ins.outcome.Raised? {
        RunFromHalt(step, inputs, start, bs, stored, nextId, keys, counter, b, ins, r);
      } else {
        RunFromNext(step, inputs, start, bs, stored, nextId, keys, counter, b, ins, r);
        RunFromInputs(step, b.inputs, start + bs, bs, ins.docs, nextId + |b.kept|, keys, b.examined, r);
        InputsContinued(step, inputs, start, bs, stored, nextId, keys, counter, b, ins, r);
      }
    }
  }

  /** A turn that goes on handles its batch; the rest of the call handles the rest. */
  lemma {:induction false} InputsContinued(step: Handler, inputs: seq<Doc>, start: nat, bs: nat, stored: seq<Doc>,
                                  nextId: nat, keys: set<string>, counter: nat, b: BatchOutcome, ins: Insertion, r: Run)
    requires bs > 0 && start < |inputs|
    requires b == BatchFrom(step, inputs, start, BatchEnd(start, bs, |inputs|), [], counter)
    requires ins == InsertMany(stored, nextId, keys, b.kept)
    requires b.abort.None? && !ins.outcome.Raised?
    requires |r.inputs| == |b.inputs|
    requires r.result.Ok? ==> HandledIn(step, b.inputs, r.inputs, start + bs, |inputs|)
    ensures |r.inputs| == |inputs|
    ensures r.result.Ok? ==> HandledIn(step, inputs, r.inputs, start, |inputs|)
  {
    var end := BatchEnd(start, bs, |inputs|);
    BatchFromFacts(step, inputs, start, end, [], counter);
    if r.result.Ok? {
      HandledJoin(step, inputs, b.inputs, r.inputs, start, end, start + bs, |inputs|);
    }
  }


  /** A run is its first turn followed, unless that turn raised, by the run from the next batch. */
  lemma {:induction false} RunFromAdvance(step: Handler, inputs: seq<Doc>, start: nat, bs: nat, stored: seq<Doc>,
                                          nextId: nat, keys: set<string>, counter: nat, goal: Run, t: Run)
    requires bs > 0 && start < |inputs|
    requires goal == RunFrom(step, inputs, start, bs, stored, nextId, keys, counter)
    requires t == Turn(step, inputs, start, bs, stored, nextId, keys, counter)
    ensures t.result.Err? ==> goal == t
    ensures t.result.Ok? ==> goal == RunFrom(step, t.inputs, start + bs, bs, t.stored, t.nextId, keys, t.result.value)
  {
  }

  /** The continuation case of `RunFrom`, for a run, batch and insert named by the caller. */
  lemma {:induction false} RunFromNext(step: Handler, inputs: seq<Doc>, start: nat, bs: nat, stored: seq<Doc>,
                                       nextId: nat, keys: set<string>, counter: nat, b: BatchOutcome, ins: Insertion, r: Run)
    requires bs > 0 && start < |inputs|
    requires b == BatchFrom(step, inputs, start, BatchEnd(start, bs, |inputs|), [], counter)
    requires ins == InsertMany(stored, nextId, keys, b.kept)
    requires r == RunFrom(step, inputs, start, bs, stored, nextId, keys, counter)
    requires b.abort.None? && !ins.outcome.Raised?
    ensures r == RunFrom(step, b.inputs, start + bs, bs, ins.docs, nextId + |b.kept|, keys, b.examined)
  {
  }

  /** The stopping cases of `RunFrom`: an uncaught exception, or an insert_many that raised. */
  lemma {:induction false} RunFromHalt(step: Handler, inputs: seq<Doc>, start: nat, bs: nat, stored: seq<Doc>,
                                       nextId: nat, keys: set<string>, counter: nat, b: BatchOutcome, ins: Insertion, r: Run)
    requires bs > 0 && start < |inputs|
    requires b == BatchFrom(step, inputs, start, BatchEnd(start, bs, |inputs|), [], counter)
    requires ins == InsertMany(stored, nextId, keys, b.kept)
    requires r == RunFrom(step, inputs, start, bs, stored, nextId, keys, counter)
    requires b.abort.Some? || ins.outcome.Raised?
    ensures r.inputs == b.inputs && r.result.Err?
    ensures r.stored == if b.abort.Some? then stored else ins.docs
  {
  }

  /** Documents already in the collection are never touched: a run only appends. */
  lemma {:induction false} RunFromAppends(step: Handler, inputs: seq<Doc>, start: nat, bs: nat, stored: seq<Doc>,
                                          nextId: nat, keys: set<string>, counter: nat, r: Run)
    requires bs > 0
    requires r == RunFrom(step, inputs, start, bs, stored, nextId, keys, counter)
    ensures PrefixOf(stored, r.stored)
    decreases |inputs| - start
  {
    if start < |inputs| {
      var b := BatchFrom(step, inputs, start, BatchEnd(start, bs, |inputs|), [], counter);
      var ins := InsertMany(stored, nextId, keys, b.kept);
      if b.abort.Some? || ins.outcome.Raised? {
        AppendsHalted(step, inputs, start, bs, stored, nextId, keys, counter, b, ins, r);
      } else {
        RunFromNext(step, inputs, start, bs, stored, nextId, keys, counter, b, ins, r);
        RunFromAppends(step, b.inputs, start + bs, bs, ins.docs, nextId + |b.kept|, keys, b.examined, r);
        InsertManyAppends(stored, nextId, keys, b.kept);
        PrefixTrans(stored, ins.docs, r.stored);
      }
    }
  }

  lemma {:induction false} AppendsHalted(step: Handler, inputs: seq<Doc>, start: nat, bs: nat, stored: seq<Doc>,
                                  nextId: nat, keys: set<string>, counter: nat, b: BatchOutcome, ins: Insertion, r: Run)
    requires bs > 0 && start < |inputs|
    requires b == BatchFrom(step, inputs, start, BatchEnd(start, bs, |inputs|), [], counter)
    requires ins == InsertMany(stored, nextId, keys, b.kept)
    requires r == RunFrom(step, inputs, start, bs, stored, nextId, keys, counter)
    requires b.abort.Some? || ins.outcome.Raised?
    ensures PrefixOf(stored, r.stored)
  {
    RunFromHalt(step, inputs, start, bs, stored, nextId, keys, counter, b, ins, r);
    InsertManyAppends(stored, nextId, keys, b.kept);
  }


  /** Every record the handler keeps satisfies P. */
  ghost predicate KeepsOnly(step: Handler, P: Doc -> bool)
  {
    forall d: Doc, i: nat :: step(d, i).step.Keep? ==> P(step(d, i).step.doc)
  }

  /** Stamping an id on a document keeps P. */
  ghost predicate StampKeeps(P: Doc -> bool)
  {
    forall d: Doc, n: nat :: P(d) ==> P(Stamp(d, n))
  }

  /** Every record kept from a range satisfies whatever every kept record satisfies. */
  lemma {:induction false} KeptInAll(step: Handler, P: Doc -> bool, inputs: seq<Doc>, lo: nat, hi: nat)
    requires lo <= hi <= |inputs|
    requires KeepsOnly(step, P)
    ensures forall x :: x in KeptIn(step, inputs, lo, hi) ==> P(x)
    decreases hi - lo
  {
    if lo < hi {
      KeptInAll(step, P, inputs, lo + 1, hi);
    }
  }

  /** Every document of `s` from position `lo` on satisfies P. */
  predicate AllFrom(P: Doc -> bool, s: seq<Doc>, lo: nat)
  {
    lo <= |s| && forall j :: lo <= j < |s| ==> P(s[j])
  }

  /** A prefix whose tail from `lo` satisfies P, extended by a tail that satisfies P. */
  lemma {:induction false} AllFromJoin(P: Doc -> bool, mid: seq<Doc>, after: seq<Doc>, lo: nat)
    requires AllFrom(P, mid, lo) && PrefixOf(mid, after) && AllFrom(P, after, |mid|)
    ensures AllFrom(P, after, lo)
  {
    forall j | lo <= j < |after|
      ensures P(after[j])
    {
      if j < |mid| {
        assert after[j] == mid[j];
      }
    }
  }

  /** The stamped form of records that satisfy P satisfies P, when the stamp preserves it. */
  lemma {:induction false} StampedAll(P: Doc -> bool, kept: seq<Doc>, base: nat, k: nat)
    requires k <= |kept|
    requires forall x :: x in kept ==> P(x)
    requires StampKeeps(P)
    ensures AllFrom(P, StampedPrefix(kept, base, k), 0)
  {
    var added := StampedPrefix(kept, base, k);
    forall i | 0 <= i < k
      ensures P(added[i])
    {
      assert kept[i] in kept;
    }
  }

  /** Whatever holds of a batch's records, and survives the id stamp, holds of every document insert_many stores. */
  lemma {:induction false} InsertManyStores(P: Doc -> bool, stored: seq<Doc>, nextId: nat, keys: set<string>, kept: seq<Doc>)
    requires forall x :: x in kept ==> P(x)
    requires StampKeeps(P)
    ensures AllFrom(P, InsertMany(stored, nextId, keys, kept).docs, |stored|)
  {
    var ins := InsertMany(stored, nextId, keys, kept);
    InsertManyOutcomes(stored, nextId, keys, kept);
    var k := if ins.outcome.BulkWriteError? then ins.outcome.nInserted else if ins.outcome.Inserted? then |kept| else 0;
    var added := StampedPrefix(kept, nextId, k);
    assert ins.docs == stored + added;
    assert AllFrom(P, added, 0) by {
      StampedAll(P, kept, nextId, k);
    }
    forall j | |stored| <= j < |ins.docs|
      ensures P(ins.docs[j])
    {
      assert ins.docs[j] == added[j - |stored|];
    }
  }

  /** Whatever holds of every kept record (and survives the id stamp) holds of every document a run stores. */
  lemma {:induction false} RunFromStoresKept(step: Handler, P: Doc -> bool, inputs: seq<Doc>, start: nat, bs: nat,
                                             stored: seq<Doc>, nextId: nat, keys: set<string>, counter: nat, r: Run)
    requires bs > 0
    requires KeepsOnly(step, P)
    requires StampKeeps(P)
    requires r == RunFrom(step, inputs, start, bs, stored, nextId, keys, counter)
    ensures AllFrom(P, r.stored, |stored|)
    decreases |inputs| - start
  {
    if start < |inputs| {
      var b := BatchFrom(step, inputs, start, BatchEnd(start, bs, |inputs|), [], counter);
      var ins := InsertMany(stored, nextId, keys, b.kept);
      if b.abort.Some? || ins.outcome.Raised? {
        StoresHalted(step, P, inputs, start, bs, stored, nextId, keys, counter, b, ins, r);
      } else {
        RunFromNext(step, inputs, start, bs, stored, nextId, keys, counter, b, ins, r);
        RunFromStoresKept(step, P, b.inputs, start + bs, bs, ins.docs, nextId + |b.kept|, keys, b.examined, r);
        StoresContinued(step, P, inputs, start, bs, stored, nextId, keys, counter, b, ins, r);
      }
    } else {
      assert AllFrom(P, stored, |stored|);
    }
  }

  lemma {:induction false} StoresHalted(step: Handler, P: Doc -> bool, inputs: seq<Doc>, start: nat, bs: nat, stored: seq<Doc>,
                                  nextId: nat, keys: set<string>, counter: nat, b: BatchOutcome, ins: Insertion, r: Run)
    requires bs > 0 && start < |inputs|
    requires b == BatchFrom(step, inputs, start, BatchEnd(start, bs, |inputs|), [], counter)
    requires ins == InsertMany(stored, nextId, keys, b.kept)
    requires KeepsOnly(step, P) && StampKeeps(P)
    requires r == RunFrom(step, inputs, start, bs, stored, nextId, keys, counter)
    requires b.abort.Some? || ins.outcome.Raised?
    ensures AllFrom(P, r.stored, |stored|)
  {
    RunFromHalt(step, inputs, start, bs, stored, nextId, keys, counter, b, ins, r);
    if b.abort.None? {
      BatchStores(step, P, inputs, start, BatchEnd(start, bs, |inputs|), counter, stored, nextId, keys);
    }
  }

  lemma {:induction false} StoresContinued(step: Handler, P: Doc -> bool, inputs: seq<Doc>, start: nat, bs: nat, stored: seq<Doc>,
                                  nextId: nat, keys: set<string>, counter: nat, b: BatchOutcome, ins: Insertion, r: Run)
    requires bs > 0 && start < |inputs|
    requires b == BatchFrom(step, inputs, start, BatchEnd(start, bs, |inputs|), [], counter)
    requires ins == InsertMany(stored, nextId, keys, b.kept)
    requires KeepsOnly(step, P) && StampKeeps(P)
    requires b.abort.None? && !ins.outcome.Raised?
    requires r == RunFrom(step, b.inputs, start + bs, bs, ins.docs, nextId + |b.kept|, keys, b.examined)
    requires AllFrom(P, r.stored, |ins.docs|)
    ensures AllFrom(P, r.stored, |stored|)
  {
    BatchStores(step, P, inputs, start, BatchEnd(start, bs, |inputs|), counter, stored, nextId, keys);
    RunFromAppends(step, b.inputs, start + bs, bs, ins.docs, nextId + |b.kept|, keys, b.examined, r);
    AllFromJoin(P, ins.docs, r.stored, |stored|);
  }


  /** One batch that did not abort stores only documents satisfying P. */
  lemma {:induction false} BatchStores(step: Handler, P: Doc -> bool, inputs: seq<Doc>, start: nat, end: nat, counter: nat,
                                       stored: seq<Doc>, nextId: nat, keys: set<string>)
    requires start <= end <= |inputs|
    requires KeepsOnly(step, P)
    requires StampKeeps(P)
    requires BatchFrom(step, inputs, start, end, [], counter).abort.None?
    ensures AllFrom(P, InsertMany(stored, nextId, keys, BatchFrom(step, inputs, start, end, [], counter).kept).docs, |stored|)
  {
    BatchFromFacts(step, inputs, start, end, [], counter);
    KeptInAll(step, P, inputs, start, end);
    InsertManyStores(P, stored, nextId, keys, BatchFrom(step, inputs, start, end, [], counter).kept);
  }

  /** What the ingestion loader guarantees of a stored document. */
  predicate IngestedForm(d: Doc)
  {
    "date_added" in d && d["date_added"].VTime? && "title" in d && Truthy(d["title"])
  }

  /** Every document the ingestion loader stores carries its ingestion time and a truthy title. */
  lemma {:induction false} IngestionStoresStamped(now: nat -> int, inputs: seq<Doc>, bs: int, stored: seq<Doc>, nextId: nat, keys: set<string>)
    ensures var r := InsertDocumentsSpec(IngestHandler(now), inputs, bs, stored, nextId, keys);
      |stored| <= |r.stored| && forall j :: |stored| <= j < |r.stored| ==> IngestedForm(r.stored[j])
  {
    var step := IngestHandler(now);
    forall d: Doc, i: nat | step(d, i).step.Keep?
      ensures IngestedForm(step(d, i).step.doc)
    {
      IngestionKeeps(now, d, i);
    }
    assert KeepsOnly(step, IngestedForm);
    assert StampKeeps(IngestedForm);
    if bs > 0 {
      RunFromStoresKept(step, IngestedForm, inputs, 0, bs, stored, nextId, keys, 0, RunFrom(step, inputs, 0, bs, stored, nextId, keys, 0));
    }
  }

  /** As written, bntl/ingest.py's loader raises AttributeError (for `utils.YearFormatException`)
      on its first record and stores nothing, whatever the records are; only an empty list or a
      negative batch size gets through. */
  lemma {:induction false} IngestionAsWrittenFails(inputs: seq<Doc>, bs: int, stored: seq<Doc>, nextId: nat, keys: set<string>)
    ensures var r := InsertDocumentsSpec(IngestHandlerAsWritten(), inputs, bs, stored, nextId, keys);
      && r.stored == stored
      && (bs > 0 && inputs != [] ==> r.result == Err(AttributeError("YearFormatException")))
  {
    if bs > 0 && inputs != [] {
      var end := BatchEnd(0, bs, |inputs|);
      assert BatchFrom(IngestHandlerAsWritten(), inputs, 0, end, [], 0).abort == Some(AttributeError("YearFormatException"));
    }
  }

  /**
   * A whole call with a positive batch size: it completes exactly when every batch
   * [s, min(s + bs, n)) has no uncaught exception and keeps a record; then its counter is n
   * and every record was handled exactly once, in order, in the caller's list.
   */
  lemma {:induction false} InsertDocumentsCompletes(step: Handler, inputs: seq<Doc>, bs: int, stored: seq<Doc>, nextId: nat, keys: set<string>)
    requires bs > 0
    ensures var r := InsertDocumentsSpec(step, inputs, bs, stored, nextId, keys);
      && (r.result.Ok? <==> BatchesComplete(step, inputs, bs, 0))
      && (r.result.Ok? ==> r.result.value == |inputs|
                           && |r.inputs| == |inputs|
                           && forall j :: 0 <= j < |inputs| ==> r.inputs[j] == step(inputs[j], j).input)
      && PrefixOf(stored, r.stored)
  {
    var r := InsertDocumentsSpec(step, inputs, bs, stored, nextId, keys);
    RunFromOk(step, inputs, 0, bs, stored, nextId, keys, 0, r);
    RunFromInputs(step, inputs, 0, bs, stored, nextId, keys, 0, r);
    RunFromAppends(step, inputs, 0, bs, stored, nextId, keys, 0, r);
  }

  /** A zero batch size raises before anything happens; a negative one does nothing. */
  lemma {:induction false} InsertDocumentsDegenerate(step: Handler, inputs: seq<Doc>, bs: int, stored: seq<Doc>, nextId: nat, keys: set<string>)
    requires bs <= 0
    ensures var r := InsertDocumentsSpec(step, inputs, bs, stored, nextId, keys);
      r.inputs == inputs && r.stored == stored && (r.result.Ok? <==> bs < 0)
  {
  }

  // ---------------------------------------------------------------- the loop, as the code runs it

  /** The inner loop over documents[start..end]: each record is handled in place and the kept ones gathered. */
  method ExamineBatch(documents: array<Doc>, start: nat, end: nat, counter: nat, step: Handler)
      returns (kept: seq<Doc>, examined: nat, abort: Option<Error>)
    requires start <= end <= documents.Length
    modifies documents
    ensures BatchOutcome(documents[..], kept, examined, abort) == BatchFrom(step, old(documents[..]), start, end, [], counter)
  {
    ghost var b := BatchFrom(step, documents[..], start, end, [], counter);
    kept := [];
    examined := counter;
    var k := start;
    while k < end
      invariant start <= k <= end
      invariant BatchFrom(step, documents[..], k, end, kept, examined) == b
      decreases end - k
    {
      var p := step(documents[k], k);
      documents[k] := p.input;
      match p.step {
        case Abort(e) =>
          return kept, examined, Some(e);
        case Keep(d) =>
          kept := kept + [d];
        case Drop(_) =>
      }
      examined := examined + 1;
      k := k + 1;
    }
    abort := None;
  }

  /** One turn of the outer loop: examine documents[start..end], then insert what was kept. */
  method InsertTurn(coll: Collection, documents: array<Doc>, start: nat, batchSize: nat, docId: nat, step: Handler)
      returns (examined: nat, halt: Option<Error>)
    requires start < documents.Length
    modifies coll, documents
    ensures Run(documents[..], coll.docs, coll.nextId, if halt.Some? then Err(halt.value) else Ok(examined))
         == Turn(step, old(documents[..]), start, batchSize, old(coll.docs), old(coll.nextId), coll.uniqueKeys, docId)
    ensures coll.textIndexed == old(coll.textIndexed)
  {
    var end := if start + batchSize < documents.Length then start + batchSize else documents.Length;
    var subset, abort;
    subset, examined, abort := ExamineBatch(documents, start, end, docId, step);
    if abort.Some? {
      return examined, abort;
    }
    var out := coll.InsertManyOrdered(subset);
    if out.Raised? {
      return examined, Some(out.error);
    }
    halt := None;
  }

  /** The same turn, as a step of the run `goal` still to go. */
  method InsertBatch(coll: Collection, documents: array<Doc>, start: nat, batchSize: nat, docId: nat, step: Handler,
                     ghost goal: Run)
      returns (examined: nat, halt: Option<Error>)
    requires batchSize > 0 && start < documents.Length
    requires goal == RunFrom(step, documents[..], start, batchSize, coll.docs, coll.nextId, coll.uniqueKeys, docId)
    modifies coll, documents
    ensures coll.textIndexed == old(coll.textIndexed)
    ensures halt.Some? ==> goal == Run(documents[..], coll.docs, coll.nextId, Err(halt.value))
    ensures halt.None? ==>
      goal == RunFrom(step, documents[..], start + batchSize, batchSize, coll.docs, coll.nextId, coll.uniqueKeys, examined)
  {
    ghost var t := Turn(step, documents[..], start, batchSize, coll.docs, coll.nextId, coll.uniqueKeys, docId);
    RunFromAdvance(step, documents[..], start, batchSize, coll.docs, coll.nextId, coll.uniqueKeys, docId, goal, t);
    examined, halt := InsertTurn(coll, documents, start, batchSize, docId, step);
  }

  /** The outer loop, `for start in range(0, n, batch_size)`, for a positive batch size. */
  method InsertBatches(coll: Collection, documents: array<Doc>, batchSize: nat, step: Handler) returns (r: Result<nat>)
    requires batchSize > 0
    modifies coll, documents
    ensures Run(documents[..], coll.docs, coll.nextId, r)
         == RunFrom(step, old(documents[..]), 0, batchSize, old(coll.docs), old(coll.nextId), coll.uniqueKeys, 0)
    ensures coll.textIndexed == old(coll.textIndexed)
  {
    var n := documents.Length;
    var docId := 0;
    var start := 0;
    ghost var goal := RunFrom(step, documents[..], 0, batchSize, coll.docs, coll.nextId, coll.uniqueKeys, 0);
    while start < n
      invariant goal == RunFrom(step, documents[..], start, batchSize, coll.docs, coll.nextId, coll.uniqueKeys, docId)
      invariant coll.textIndexed == old(coll.textIndexed)
      decreases n - start
    {
      var examined, halt := InsertBatch(coll, documents, start, batchSize, docId, step, goal);
      if halt.Some? {
        return Err(halt.value);
      }
      docId := examined;
      start := start + batchSize;
    }
    return Ok(docId);
  }

  /**
   * `insert_documents`: records are fixed in place in the caller's list, kept ones are gathered
   * per batch and inserted with one ordered insert_many; a batch in which nothing was kept
   * makes insert_many raise, which, like any uncaught exception, ends the call.
   */
  method InsertDocuments(coll: Collection, documents: array<Doc>, batchSize: int, step: Handler) returns (r: Result<nat>)
    modifies coll, documents
    ensures Run(documents[..], coll.docs, coll.nextId, r)
         == InsertDocumentsSpec(step, old(documents[..]), batchSize, old(coll.docs), old(coll.nextId), coll.uniqueKeys)
    ensures coll.textIndexed == old(coll.textIndexed)
  {
    if batchSize == 0 {
      return Err(ValueError("range() arg 3 must not be zero"));
    }
    if batchSize < 0 {
      return Ok(0);
    }
    r := InsertBatches(coll, documents, batchSize, step);
  }
}
