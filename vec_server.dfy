/**
 * vectorizer/server.py: the background worker `vectorize_task` with its
 * retry loop, the `/vectorize` endpoint that creates a task and schedules
 * the worker, and the `/check-status` endpoint. The GPU, the model and the
 * sleeps are replaced by one oracle outcome per pass through the loop.
 *
 * The code as written has three defects that decide its behaviour: the
 * success path calls `store_vectors`, which `DBClient` does not define; the
 * out-of-attempts path reads `Status.TIMEOUT`, which `Status` does not
 * define; and `/vectorize` passes three arguments to the two-parameter
 * `create_task`. Each is modelled as written next to the evidently intended
 * behaviour.
 */
module VecServer {
  import opened Common
  import opened VecModels
  import opened VecDb

  /** The defaults of vectorizer/settings.py. */
  const MaxRetries := 5
  const RetryDelay := 36000
  const BatchSize := 48

  /** What one pass through the loop body meets: no GPU, an encoding that completes (its
      vectors), or an exception raised while loading, moving or encoding (its text). */
  datatype Attempt = GpuUnavailable | Encoded(vectors: seq<seq<real>>) | Failed(message: string)

  /** Only the exception text tells an out-of-memory error from any other. */
  predicate IsOom(message: string)
  {
    HasSubstring(message, "CUDA out of memory")
  }

  /** `str()` of the AttributeError for a missing attribute. */
  function AttributeErrorText(owner: string, name: string): string
  {
    "'" + owner + "' object has no attribute '" + name + "'"
  }

  /** The text of the AttributeError raised by `app.state.db_client.store_vectors`. */
  const StoreVectorsMissing := AttributeErrorText("DBClient", "store_vectors")

  /** The keyword arguments the worker passes to `update_task_status`: `attempts`, `message`, `e`. */
  datatype Kwargs = Kwargs(attempts: Option<int>, message: Option<string>, e: Option<string>)

  const NoKwargs := Kwargs(None, None, None)

  /** The `**status_info` dict the keyword arguments form: one entry per argument given. */
  function KwargsDoc(k: Kwargs): (d: Doc)
    ensures "attempts" in d <==> k.attempts.Some?
    ensures "message" in d <==> k.message.Some?
    ensures "e" in d <==> k.e.Some?
    ensures d.Keys <= {"attempts", "message", "e"}
    ensures k.attempts.Some? ==> d["attempts"] == VInt(k.attempts.value)
    ensures k.message.Some? ==> d["message"] == VStr(k.message.value)
    ensures k.e.Some? ==> d["e"] == VStr(k.e.value)
  {
    var a: Doc := if k.attempts.Some? then map["attempts" := VInt(k.attempts.value)] else map[];
    var m: Doc := if k.message.Some? then a["message" := VStr(k.message.value)] else a;
    if k.e.Some? then m["e" := VStr(k.e.value)] else m
  }

  /** One `update_task_status` call of the worker: status, keyword arguments and vectors. */
  datatype Step = Step(status: Status, kwargs: Kwargs, vectors: Option<seq<seq<real>>>)

  /** A worker run: its status updates in order, and how it ends (normally, or by raising). */
  datatype Run = Run(steps: seq<Step>, result: Result<()>)

  /** A run that starts with one more update. */
  function Then(step: Step, rest: Run): Run
  {
    Run([step] + rest.steps, rest.result)
  }

  function NoGpu(attempts: nat): Step
  {
    Step(Retrying, Kwargs(Some(attempts), Some("GPU not available"), None), None)
  }

  function Oom(attempts: nat, e: string): Step
  {
    Step(Retrying, Kwargs(Some(attempts), Some("GPU OOM"), Some(e)), None)
  }

  function RuntimeFailure(attempts: nat, e: string): Step
  {
    Step(RuntimeError, Kwargs(Some(attempts), None, Some(e)), None)
  }

  /** The exception text the `except` clause sees for an attempt that raised: on the success path
      the encoding completes and then the call to the missing `store_vectors` raises. */
  function Raised(o: Attempt): string
    requires !o.GpuUnavailable?
  {
    if o.Encoded? then StoreVectorsMissing else o.message
  }

  /**
   * `vectorize_task` as written, from pass `attempts` on: the status updates it makes and how it
   * ends. After MaxRetries retries it reads `Status.TIMEOUT`, which raises.
   */
  function WorkerAsWritten(outcomes: seq<Attempt>, attempts: nat): Run
    requires attempts <= MaxRetries <= |outcomes|
    decreases MaxRetries - attempts
  {
    if attempts == MaxRetries then GiveUpAsWritten()
    else
      var o := outcomes[attempts];
      if o.GpuUnavailable? then Then(NoGpu(attempts), WorkerAsWritten(outcomes, attempts + 1))
      else if IsOom(Raised(o)) then Then(Oom(attempts, Raised(o)), WorkerAsWritten(outcomes, attempts + 1))
      else Run([RuntimeFailure(attempts, Raised(o))], Ok(()))
  }

  /** `update_task_status(task_id, Status.TIMEOUT)`: the attribute is read first. */
  function GiveUpAsWritten(): Run
  {
    match StatusAttr("TIMEOUT")
    case Err(e) => Run([], Err(e))
    case Ok(timeout) => Run([Step(timeout, NoKwargs, None)], Ok(()))
  }

  /**
   * The evidently intended worker: a completed encoding stores its vectors and sets Done (one
   * `update_task_status` with the vectors); running out of attempts sets OutOfAttempts.
   */
  function Worker(outcomes: seq<Attempt>, attempts: nat): (w: Run)
    requires attempts <= MaxRetries <= |outcomes|
    ensures w.steps != []
    decreases MaxRetries - attempts
  {
    if attempts == MaxRetries then Run([Step(OutOfAttempts, NoKwargs, None)], Ok(()))
    else
      var o := outcomes[attempts];
      if Retryable(o) then Then(RetryStep(o, attempts), Worker(outcomes, attempts + 1))
      else Run([StopStep(o, attempts)], Ok(()))
  }

  /** The Retrying record of a pass that retries. */
  function RetryStep(o: Attempt, attempts: nat): Step
    requires Retryable(o)
  {
    if o.GpuUnavailable? then NoGpu(attempts) else Oom(attempts, o.message)
  }

  /** The record of a pass that ends the intended worker: Done with the vectors, or RuntimeError. */
  function StopStep(o: Attempt, attempts: nat): Step
    requires !Retryable(o)
  {
    if o.Encoded? then Step(Done, NoKwargs, Some(o.vectors)) else RuntimeFailure(attempts, o.message)
  }

  /** The first pass from `attempts` on that does not retry, or MaxRetries when all retry. */
  function FirstStop(outcomes: seq<Attempt>, attempts: nat): (j: nat)
    requires attempts <= MaxRetries <= |outcomes|
    ensures attempts <= j <= MaxRetries
    ensures forall i :: attempts <= i < j ==> Retryable(outcomes[i])
    ensures j < MaxRetries ==> !Retryable(outcomes[j])
    decreases MaxRetries - attempts
  {
    if attempts == MaxRetries || !Retryable(outcomes[attempts]) then attempts
    else FirstStop(outcomes, attempts + 1)
  }

  /** Pass a retries: no GPU, or an out-of-memory error. */
  predicate Retryable(o: Attempt)
  {
    o.GpuUnavailable? || (o.Failed? && IsOom(o.message))
  }

  /** A character of `sub` that `s` lacks keeps `sub` out of `s`. */
  lemma {:induction false} MissingCharNoSubstring(s: string, sub: string, j: nat)
    requires j < |sub| && sub[j] !in s
    ensures !HasSubstring(s, sub)
    decreases |s|
  {
    if |sub| <= |s| {
      assert s[..|sub|][j] == s[j];
    }
    if s != [] {
      assert forall c :: c in s[1..] ==> c in s;
      MissingCharNoSubstring(s[1..], sub, j);
    }
  }

  /** The AttributeError text has no 'U' when the class and attribute names have none. */
  lemma AttributeErrorTextNoU(owner: string, name: string)
    requires 'U' !in owner && 'U' !in name
    ensures 'U' !in AttributeErrorText(owner, name)
  {
    assert 'U' !in "' object has no attribute '";
  }

  /** The missing-method error is not an out-of-memory error (it has no 'U'). */
  lemma StoreVectorsNotOom()
    ensures !IsOom(StoreVectorsMissing)
  {
    AttributeErrorTextNoU("DBClient", "store_vectors");
    assert "CUDA out of memory"[1] == 'U';
    MissingCharNoSubstring(StoreVectorsMissing, "CUDA out of memory", 1);
  }

  /** As written, a pass retries exactly when the intended worker's pass would: the exception a
      completed encoding turns into is not an out-of-memory one. */
  lemma RetriesAsWrittenIsRetryable(o: Attempt)
    ensures RetriesAsWritten(o) <==> Retryable(o)
  {
    if o.Encoded? {
      StoreVectorsNotOom();
    }
  }

  /**
   * As written, the worker never sets Done and never writes a vector, whatever the GPU does:
   * every completed encoding ends in RuntimeError with the missing-method text.
   */
  lemma {:induction false} AsWrittenNeverDone(outcomes: seq<Attempt>, attempts: nat)
    requires attempts <= MaxRetries <= |outcomes|
    ensures NeverDone(WorkerAsWritten(outcomes, attempts).steps)
    decreases MaxRetries - attempts
  {
    if attempts == MaxRetries {
      NoTimeoutStatus();
    } else {
      var o := outcomes[attempts];
      if RetriesAsWritten(o) {
        AsWrittenNeverDone(outcomes, attempts + 1);
        var rest := WorkerAsWritten(outcomes, attempts + 1).steps;
        var head := RetryStepAsWritten(o, attempts);
        assert WorkerAsWritten(outcomes, attempts).steps == [head] + rest;
        NeverDoneCons(head, rest);
      }
    }
  }

  /** No record in `steps` is Done or carries vectors. */
  predicate NeverDone(steps: seq<Step>)
  {
    forall i :: 0 <= i < |steps| ==> steps[i].status != Done && steps[i].vectors.None?
  }

  lemma {:induction false} NeverDoneCons(head: Step, rest: seq<Step>)
    requires head.status != Done && head.vectors.None? && NeverDone(rest)
    ensures NeverDone([head] + rest)
  {
    forall i | 0 <= i < |[head] + rest|
      ensures ([head] + rest)[i].status != Done && ([head] + rest)[i].vectors.None?
    {
      if i > 0 {
        assert ([head] + rest)[i] == rest[i - 1];
      }
    }
  }

  /** As written, a completed encoding records RuntimeError and stops. */
  lemma {:induction false} AsWrittenEncodedFails(outcomes: seq<Attempt>, attempts: nat)
    requires attempts < MaxRetries <= |outcomes| && outcomes[attempts].Encoded?
    ensures WorkerAsWritten(outcomes, attempts) == Run([RuntimeFailure(attempts, StoreVectorsMissing)], Ok(()))
  {
    StoreVectorsNotOom();
  }

  /**
   * As written, when every pass retries the worker records MaxRetries RETRYING statuses, the i-th
   * with `attempts` i, and then raises AttributeError on `Status.TIMEOUT`: the task is left in
   * RETRYING for good.
   */
  lemma AsWrittenOutOfAttempts(outcomes: seq<Attempt>)
    requires MaxRetries <= |outcomes|
    requires forall i :: 0 <= i < MaxRetries ==> Retryable(outcomes[i])
    ensures WorkerAsWritten(outcomes, 0).result == Err(AttributeError("TIMEOUT"))
    ensures var steps := WorkerAsWritten(outcomes, 0).steps;
      && |steps| == MaxRetries
      && forall i :: 0 <= i < |steps| ==> steps[i].status == Retrying && steps[i].kwargs.attempts == Some(i)
  {
    forall i | 0 <= i < MaxRetries ensures RetriesAsWritten(outcomes[i]) {
      RetriesAsWrittenIsRetryable(outcomes[i]);
    }
    AsWrittenRunsOut(outcomes);
    NoTimeoutStatus();
    assert GiveUpAsWritten() == Run([], Err(AttributeError("TIMEOUT")));
    RetriesPrefixMeans(outcomes, MaxRetries);
    assert WorkerAsWritten(outcomes, 0).steps == RetriesPrefix(outcomes, MaxRetries);
  }

  /** The intended worker's last record is decided by the first pass that does not retry. */
  lemma {:induction false} WorkerLast(outcomes: seq<Attempt>, attempts: nat)
    requires attempts <= MaxRetries <= |outcomes|
    ensures var steps := Worker(outcomes, attempts).steps; var r := Worker(outcomes, attempts).result; var j := FirstStop(outcomes, attempts);
      && r.Ok? && |steps| == j - attempts + 1
      && steps[|steps| - 1] == (if j == MaxRetries then Step(OutOfAttempts, NoKwargs, None) else StopStep(outcomes[j], j))
    decreases MaxRetries - attempts
  {
    if attempts < MaxRetries && Retryable(outcomes[attempts]) {
      WorkerLast(outcomes, attempts + 1);
    }
  }

  /** Every record of the intended worker but the last is Retrying, with `attempts` counting up. */
  lemma {:induction false} WorkerRetries(outcomes: seq<Attempt>, attempts: nat)
    requires attempts <= MaxRetries <= |outcomes|
    ensures var steps := Worker(outcomes, attempts).steps;
      forall i :: 0 <= i < |steps| - 1 ==>
        steps[i].status == Retrying && steps[i].kwargs.attempts == Some(attempts + i)
    decreases MaxRetries - attempts
  {
    if attempts < MaxRetries && Retryable(outcomes[attempts]) {
      WorkerRetries(outcomes, attempts + 1);
      var steps := Worker(outcomes, attempts).steps;
      var rest := Worker(outcomes, attempts + 1).steps;
      var head := RetryStep(outcomes[attempts], attempts);
      assert Worker(outcomes, attempts) == Then(head, Worker(outcomes, attempts + 1));
      forall i | 0 <= i < |steps| - 1
        ensures steps[i].status == Retrying && steps[i].kwargs.attempts == Some(attempts + i)
      {
        if i > 0 {
          assert steps[i] == rest[i - 1];
        }
      }
    }
  }

  /**
   * The intended worker ends every run with exactly one terminal status — Done, RuntimeError or
   * OutOfAttempts — preceded only by Retrying statuses whose `attempts` count 0, 1, 2, …; there are
   * at most MaxRetries of them.
   */
  lemma {:induction false} WorkerOneTerminal(outcomes: seq<Attempt>)
    requires MaxRetries <= |outcomes|
    ensures Worker(outcomes, 0).result.Ok?
    ensures var steps := Worker(outcomes, 0).steps;
      && 1 <= |steps| <= MaxRetries + 1
      && (var last := steps[|steps| - 1].status; last == Done || last == RuntimeError || last == OutOfAttempts)
      && forall i :: 0 <= i < |steps| - 1 ==>
           steps[i].status == Retrying && steps[i].kwargs.attempts == Some(i)
  {
    WorkerLast(outcomes, 0);
    WorkerRetries(outcomes, 0);
    var j := FirstStop(outcomes, 0);
    if j < MaxRetries {
      var st := StopStep(outcomes[j], j);
      assert st.status == Done || st.status == RuntimeError;
    }
  }

  /**
   * The intended worker sets Done exactly when some pass completes its encoding before the
   * attempts run out, every earlier pass having retried; the vectors it stores are that pass's.
   */
  lemma {:induction false} WorkerDoneIffEncoded(outcomes: seq<Attempt>, attempts: nat)
    requires attempts <= MaxRetries <= |outcomes|
    ensures var steps := Worker(outcomes, attempts).steps; var last := steps[|steps| - 1];
      (last.status == Done <==>
        exists j :: attempts <= j < MaxRetries && outcomes[j].Encoded?
                    && forall i :: attempts <= i < j ==> Retryable(outcomes[i]))
      && (last.status == Done ==>
        exists j :: attempts <= j < MaxRetries && outcomes[j].Encoded? && last.vectors == Some(outcomes[j].vectors))
  {
    WorkerLast(outcomes, attempts);
    var j := FirstStop(outcomes, attempts);
    forall k | attempts <= k < MaxRetries && outcomes[k].Encoded? && forall i :: attempts <= i < k ==> Retryable(outcomes[i])
      ensures k == j
    {
    }
  }

  // ---------------------------------------------------------------- the worker on the store

  /** The status records a list of worker steps creates. */
  function StatusesOf(steps: seq<Step>, now: int): (r: seq<StatusModel>)
    ensures |r| == |steps|
    ensures forall i :: 0 <= i < |steps| ==> r[i] == StatusModel(steps[i].status, now, Some(KwargsDoc(steps[i].kwargs)))
  {
    if steps == [] then [] else [CreateNewStatus(steps[0].status, KwargsDoc(steps[0].kwargs), now)] + StatusesOf(steps[1..], now)
  }

  /** The store after the steps' `update_task_status` calls, in order. */
  function Record(s: Store, taskId: string, steps: seq<Step>, now: int): Store
    decreases |steps|
  {
    if steps == [] then s
    else
      var p := steps[|steps| - 1];
      UpdateSpec(Record(s, taskId, steps[..|steps| - 1], now), taskId, p.status, p.vectors, KwargsDoc(p.kwargs), now).1
  }

  /**
   * On a known task, the steps' statuses pile up on the history: the last becomes current, and the
   * history gains the previous current status followed by every step but the last.
   */
  lemma {:induction false} RecordHistory(s: Store, taskId: string, steps: seq<Step>, now: int)
    requires taskId in s.tasks && steps != []
    ensures var t := Record(s, taskId, steps, now).tasks;
      && taskId in t
      && t[taskId].currentStatus == CreateNewStatus(steps[|steps| - 1].status, KwargsDoc(steps[|steps| - 1].kwargs), now)
      && t[taskId].history == s.tasks[taskId].history + [s.tasks[taskId].currentStatus] + StatusesOf(steps[..|steps| - 1], now)
    decreases |steps|
  {
    var n := |steps|;
    var init := steps[..n - 1];
    var p := steps[n - 1];
    assert init + [p] == steps;
    RecordSnoc(s, taskId, init, p, now);
    RecordKeepsTask(s, taskId, init, now);
    UpdateAppendsHistory(Record(s, taskId, init, now), taskId, p.status, p.vectors, KwargsDoc(p.kwargs), now);
    if n > 1 {
      RecordHistory(s, taskId, init, now);
      var q := init[n - 2];
      assert init[..n - 2] + [q] == init;
      StatusesSnoc(init[..n - 2], q, now);
    }
  }

  lemma {:induction false} StatusesSnoc(steps: seq<Step>, p: Step, now: int)
    ensures StatusesOf(steps + [p], now) == StatusesOf(steps, now) + [CreateNewStatus(p.status, KwargsDoc(p.kwargs), now)]
  {
  }

  lemma {:induction false} RecordSnoc(s: Store, taskId: string, steps: seq<Step>, p: Step, now: int)
    ensures Record(s, taskId, steps + [p], now)
         == UpdateSpec(Record(s, taskId, steps, now), taskId, p.status, p.vectors, KwargsDoc(p.kwargs), now).1
  {
    assert (steps + [p])[..|steps|] == steps;
  }

  /** Every step keeps a known task known. */
  lemma {:induction false} RecordKeepsTask(s: Store, taskId: string, steps: seq<Step>, now: int)
    requires taskId in s.tasks
    ensures taskId in Record(s, taskId, steps, now).tasks
    decreases |steps|
  {
    if steps != [] {
      var p := steps[|steps| - 1];
      RecordKeepsTask(s, taskId, steps[..|steps| - 1], now);
      UpdateAppendsHistory(Record(s, taskId, steps[..|steps| - 1], now), taskId, p.status, p.vectors, KwargsDoc(p.kwargs), now);
    }
  }

  /**
   * As written, when every pass retries, the task's status ends as the last Retrying record and
   * the worker then dies: no terminal status is ever recorded.
   */
  lemma {:induction false} AsWrittenLeavesRetrying(s: Store, taskId: string, outcomes: seq<Attempt>, now: int)
    requires taskId in s.tasks && MaxRetries <= |outcomes|
    requires forall i :: 0 <= i < MaxRetries ==> Retryable(outcomes[i])
    ensures var steps := WorkerAsWritten(outcomes, 0).steps; var r := WorkerAsWritten(outcomes, 0).result;
      var t := Record(s, taskId, steps, now).tasks;
      r.Err? && taskId in t && t[taskId].currentStatus.status == Retrying
  {
    AsWrittenOutOfAttempts(outcomes);
    var steps := WorkerAsWritten(outcomes, 0).steps;
    RecordHistory(s, taskId, steps, now);
  }

  /** A pass of the code as written retries: no GPU, or an exception whose text says out of memory. */
  predicate RetriesAsWritten(o: Attempt)
  {
    o.GpuUnavailable? || IsOom(Raised(o))
  }

  /** The Retrying record the code as written makes for a pass that retries. */
  function RetryStepAsWritten(o: Attempt, attempts: nat): Step
    requires RetriesAsWritten(o)
  {
    if o.GpuUnavailable? then NoGpu(attempts) else Oom(attempts, Raised(o))
  }

  /** The records of the first n passes, every one of which retried. */
  function RetriesPrefix(outcomes: seq<Attempt>, n: nat): (steps: seq<Step>)
    requires n <= |outcomes|
    requires forall i :: 0 <= i < n ==> RetriesAsWritten(outcomes[i])
    ensures |steps| == n
  {
    if n == 0 then [] else RetriesPrefix(outcomes, n - 1) + [RetryStepAsWritten(outcomes[n - 1], n - 1)]
  }

  /** After n passes that retried, the run as written is their records followed by the run from pass n. */
  lemma {:induction false} AsWrittenAfterRetries(outcomes: seq<Attempt>, n: nat)
    requires n <= MaxRetries <= |outcomes|
    requires forall i :: 0 <= i < n ==> RetriesAsWritten(outcomes[i])
    ensures WorkerAsWritten(outcomes, 0).steps == RetriesPrefix(outcomes, n) + WorkerAsWritten(outcomes, n).steps
    ensures WorkerAsWritten(outcomes, 0).result == WorkerAsWritten(outcomes, n).result
    decreases n
  {
    if n > 0 {
      var step := RetryStepAsWritten(outcomes[n - 1], n - 1);
      var prefix := RetriesPrefix(outcomes, n - 1);
      var before := WorkerAsWritten(outcomes, n - 1);
      var rest := WorkerAsWritten(outcomes, n);
      assert WorkerAsWritten(outcomes, 0).steps == prefix + before.steps
             && WorkerAsWritten(outcomes, 0).result == before.result by {
        AsWrittenAfterRetries(outcomes, n - 1);
      }
      assert before.steps == [step] + rest.steps && before.result == rest.result by {
        AsWrittenUnfoldRetry(outcomes, n - 1);
      }
      assert RetriesPrefix(outcomes, n) == prefix + [step];
      ConcatAssoc(prefix, [step], rest.steps);
    } else {
      assert RetriesPrefix(outcomes, 0) + WorkerAsWritten(outcomes, 0).steps == WorkerAsWritten(outcomes, 0).steps;
    }
  }

  /** A pass that retries contributes its record ahead of the rest of the run. */
  lemma {:induction false} AsWrittenUnfoldRetry(outcomes: seq<Attempt>, k: nat)
    requires k < MaxRetries <= |outcomes| && RetriesAsWritten(outcomes[k])
    ensures WorkerAsWritten(outcomes, k) == Then(RetryStepAsWritten(outcomes[k], k), WorkerAsWritten(outcomes, k + 1))
  {
  }

  /** The i-th record of the prefix is pass i's RETRYING record, with `attempts` i. */
  lemma {:induction false} RetriesPrefixMeans(outcomes: seq<Attempt>, n: nat)
    requires n <= |outcomes|
    requires forall i :: 0 <= i < n ==> RetriesAsWritten(outcomes[i])
    ensures forall i :: 0 <= i < n ==>
      && RetriesPrefix(outcomes, n)[i] == RetryStepAsWritten(outcomes[i], i)
      && RetriesPrefix(outcomes, n)[i].status == Retrying
      && RetriesPrefix(outcomes, n)[i].kwargs.attempts == Some(i)
  {
    if n > 0 {
      RetriesPrefixMeans(outcomes, n - 1);
      assert RetriesPrefix(outcomes, n) == RetriesPrefix(outcomes, n - 1) + [RetryStepAsWritten(outcomes[n - 1], n - 1)];
    }
  }

  /** A run as written that meets a non-retrying pass n: n Retrying records, then RuntimeError, and no exception. */
  lemma {:induction false} AsWrittenStopsAt(outcomes: seq<Attempt>, n: nat)
    requires n < MaxRetries <= |outcomes|
    requires forall i :: 0 <= i < n ==> RetriesAsWritten(outcomes[i])
    requires !RetriesAsWritten(outcomes[n])
    ensures WorkerAsWritten(outcomes, 0) == Run(RetriesPrefix(outcomes, n) + [RuntimeFailure(n, Raised(outcomes[n]))], Ok(()))
  {
    AsWrittenAfterRetries(outcomes, n);
  }

  /** A run as written in which every pass retries: MaxRetries Retrying records, then the `Status.TIMEOUT` read. */
  lemma {:induction false} AsWrittenRunsOut(outcomes: seq<Attempt>)
    requires MaxRetries <= |outcomes|
    requires forall i :: 0 <= i < MaxRetries ==> RetriesAsWritten(outcomes[i])
    ensures WorkerAsWritten(outcomes, 0)
         == Run(RetriesPrefix(outcomes, MaxRetries) + GiveUpAsWritten().steps, GiveUpAsWritten().result)
  {
    AsWrittenAfterRetries(outcomes, MaxRetries);
  }

  /** One `update_task_status` call of the worker, on a task that exists. */
  method Save(store: TaskStore, taskId: string, step: Step, now: int, ghost base: Store, ghost done: seq<Step>)
    requires taskId in store.tasks && store.State() == Record(base, taskId, done, now)
    modifies store
    ensures taskId in store.tasks && store.State() == Record(base, taskId, done + [step], now)
  {
    ghost var before := store.State();
    // The worker's steps write no vectors, and without vectors `update_task_status` on a task
    // that exists returns normally, so there is no exception to pass on.
    var saved := store.UpdateTaskStatus(taskId, step.status, step.vectors, KwargsDoc(step.kwargs), now);
    assert step.vectors.None? ==> saved.Ok?;
    RecordSnoc(base, taskId, done, step, now);
    UpdateAppendsHistory(before, taskId, step.status, step.vectors, KwargsDoc(step.kwargs), now);
  }

  /**
   * `vectorize_task` as written, run on the store: the same loop, breaks and counter; the status
   * updates are those of `WorkerAsWritten`.
   */
  method VectorizeTask(store: TaskStore, taskId: string, outcomes: seq<Attempt>, now: int) returns (r: Result<()>)
    requires taskId in store.tasks && MaxRetries <= |outcomes|
    modifies store
    ensures r == WorkerAsWritten(outcomes, 0).result
    ensures store.State() == Record(old(store.State()), taskId, WorkerAsWritten(outcomes, 0).steps, now)
  {
    ghost var base := store.State();
    var attempts := 0;
    ghost var done: seq<Step> := [];
    while attempts < MaxRetries
      invariant 0 <= attempts <= MaxRetries
      invariant forall i :: 0 <= i < attempts ==> RetriesAsWritten(outcomes[i])
      invariant done == RetriesPrefix(outcomes, attempts)
      invariant taskId in store.tasks && store.State() == Record(base, taskId, done, now)
    {
      var o := outcomes[attempts];
      var step: Step;
      if o.GpuUnavailable? {
        step := NoGpu(attempts);
      } else {
        var e := Raised(o);
        if !IsOom(e) {
          step := RuntimeFailure(attempts, e);
          Save(store, taskId, step, now, base, done);
          AsWrittenStopsAt(outcomes, attempts);
          break;
        }
        step := Oom(attempts, e);
      }
      Save(store, taskId, step, now, base, done);
      RetryRecorded(outcomes, attempts, step);
      done := done + [step];
      attempts := attempts + 1;
    }
    if attempts >= MaxRetries {
      AsWrittenRunsOut(outcomes);
      r := GiveUp(store, taskId, now, base, done);
      return;
    }
    r := Ok(());
  }

  /** A pass that found no GPU, or an OOM message, extends the prefix of retrying passes by its record. */
  lemma {:induction false} RetryRecorded(outcomes: seq<Attempt>, attempts: nat, step: Step)
    requires attempts < |outcomes| && forall i :: 0 <= i < attempts ==> RetriesAsWritten(outcomes[i])
    requires var o := outcomes[attempts];
      if o.GpuUnavailable? then step == NoGpu(attempts) else IsOom(Raised(o)) && step == Oom(attempts, Raised(o))
    ensures forall i :: 0 <= i < attempts + 1 ==> RetriesAsWritten(outcomes[i])
    ensures RetriesPrefix(outcomes, attempts) + [step] == RetriesPrefix(outcomes, attempts + 1)
  {
  }

  /** The statement after the loop, once the attempts have run out. */
  method GiveUp(store: TaskStore, taskId: string, now: int, ghost base: Store, ghost done: seq<Step>) returns (r: Result<()>)
    requires taskId in store.tasks && store.State() == Record(base, taskId, done, now)
    modifies store
    ensures r == GiveUpAsWritten().result
    ensures store.State() == Record(base, taskId, done + GiveUpAsWritten().steps, now)
  {
    var timeout := StatusAttr("TIMEOUT");
    if timeout.Err? {
      assert done + [] == done;
      return Err(timeout.error);
    }
    Save(store, taskId, Step(timeout.value, NoKwargs, None), now, base, done);
    r := Ok(());
  }

  // ---------------------------------------------------------------- /vectorize

  /** `str(e)` for the errors `create_task` can raise besides DuplicateKeyError. */
  function Describe(e: Error): string
  {
    match e
    case TypeError(m) => m
    case BulkWriteFailure(_) => "batch op errors occurred"
    case _ => ""
  }

  /** Binding a call's positional arguments to `create_task(self, task_id, texts)`. */
  function BindCreateTask(given: nat): (r: Result<()>)
    ensures r.Ok? <==> given == 2
  {
    if given == 2 then Ok(())
    else Err(TypeError("DBClient.create_task() takes 3 positional arguments but " + NatString(given + 1) + " were given"))
  }

  /**
   * The intended `/vectorize`: create the task, and only then schedule the worker; a duplicate id
   * answers 500 "Document already vectorized", any other failure 500 "Unknown <error>".
   */
  function VectorizeSpec(s: Store, taskId: string, texts: seq<string>, now: int): (Result<TaskModel>, Store, bool)
  {
    var (r, s') := CreateTaskSpec(s, taskId, texts, now);
    if r.Ok? then (r, s', true)
    else if r.error == DuplicateKeyError then (Err(HttpError(500, "Document already vectorized")), s', false)
    else (Err(HttpError(500, "Unknown " + Describe(r.error))), s', false)
  }

  /** `/vectorize` as written: the call passes three arguments (`task_id, texts, doc_ids`). */
  function VectorizeAsWritten(s: Store, taskId: string, texts: seq<string>, docIds: seq<string>, now: int): (Result<TaskModel>, Store, bool)
  {
    match BindCreateTask(3)
    case Err(e) => (Err(HttpError(500, "Unknown " + Describe(e))), s, false)
    case Ok(_) => VectorizeSpec(s, taskId, texts, now)
  }

  /** As written, every request fails with 500 "Unknown …", creates nothing and schedules nothing. */
  lemma {:induction false} VectorizeAsWrittenAlwaysFails(s: Store, taskId: string, texts: seq<string>, docIds: seq<string>, now: int)
    ensures var (r, s', scheduled) := VectorizeAsWritten(s, taskId, texts, docIds, now);
      && r.Err? && r.error.HttpError? && r.error.code == 500 && StartsWith(r.error.detail, "Unknown ")
      && s' == s && !scheduled
  {
    var e := BindCreateTask(3);
    assert e.Err?;
    var d := "Unknown " + Describe(e.error);
    assert d[..|"Unknown "|] == "Unknown ";
  }

  /**
   * The intended endpoint schedules the worker exactly when the task was created, and a duplicate
   * task id answers "Document already vectorized" without changing the store.
   */
  lemma {:induction false} VectorizeOutcomes(s: Store, taskId: string, texts: seq<string>, now: int)
    ensures var (r, s', scheduled) := VectorizeSpec(s, taskId, texts, now);
      && (scheduled <==> r.Ok?)
      && (r.Ok? ==> taskId in s'.tasks && r.value == s'.tasks[taskId] && r.value.currentStatus.status == Vectorizing)
      && (taskId in s.tasks ==> r == Err(HttpError(500, "Document already vectorized")) && s' == s)
      && (r.Err? ==> r.error.HttpError? && r.error.code == 500)
  {
    CreateTaskDuplicate(s, taskId, texts, now);
  }

  /** The intended `/vectorize` on the store. */
  method Vectorize(store: TaskStore, taskId: string, texts: seq<string>, now: int) returns (r: Result<TaskModel>, scheduled: bool)
    modifies store
    ensures (r, store.State(), scheduled) == VectorizeSpec(old(store.State()), taskId, texts, now)
  {
    var task := store.CreateTask(taskId, texts, now);
    if task.Ok? {
      return task, true;
    } else if task.error == DuplicateKeyError {
      return Err(HttpError(500, "Document already vectorized")), false;
    }
    return Err(HttpError(500, "Unknown " + Describe(task.error))), false;
  }

  // ---------------------------------------------------------------- /check-status

  /** `/check-status` as written: `get_task` raises on an unknown id before the 404 branch (a stored
      task is a non-empty dict, always truthy). */
  function TaskStatusAsWritten(tasks: map<string, TaskModel>, taskId: string): Result<TaskModel>
  {
    var task :- GetTaskSpec(tasks, taskId);
    Ok(task)
  }

  /** The intended `/check-status`: the stored task, or 404 "Task not found". */
  function TaskStatus(tasks: map<string, TaskModel>, taskId: string): (r: Result<TaskModel>)
    ensures r.Ok? <==> taskId in tasks
    ensures r.Ok? ==> r.value == tasks[taskId]
    ensures r.Err? ==> r.error == HttpError(404, "Task not found")
  {
    if taskId in tasks then Ok(tasks[taskId]) else Err(HttpError(404, "Task not found"))
  }

  /** As written an unknown id never gets the 404: it raises AttributeError (a 500 from the
      framework); on a known id both versions return the stored task. */
  lemma {:induction false} TaskStatusNeverNotFound(tasks: map<string, TaskModel>, taskId: string)
    ensures var r := TaskStatusAsWritten(tasks, taskId);
      && (r.Err? <==> taskId !in tasks)
      && (r.Err? ==> r.error == AttributeError("pop") && TaskStatus(tasks, taskId).error.code == 404)
      && (r.Ok? ==> r == TaskStatus(tasks, taskId))
  {
  }
}
