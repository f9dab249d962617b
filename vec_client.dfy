/**
 * vectorizer/client.py: the retry-time tiers and `send_vectorizer_task_and_poll`,
 * which submits a task and polls its status until it is DONE (then fetches the
 * vectors), fails, or times out. The HTTP calls are replaced by the replies
 * they produce (one for the submission, one per poll) and `time.time()` by a
 * sequence of clock readings; the sleeps and log lines are not modelled.
 */
module VecClient {
  import opened Common
  import opened VecModels
  import VecDb
  import VecServer

  /** The default `timeout` argument: one hour, in seconds. */
  const DefaultTimeout := 3600

  /** `get_retry_time`: the seconds to sleep between polls, by the number of texts. */
  function GetRetryTime(nDocs: int): (t: int)
    ensures t == 10 || t == 20 || t == 40 || t == 120
    ensures t == 10 <==> nDocs <= 1000
    ensures t == 20 <==> 1000 < nDocs <= 10000
    ensures t == 40 <==> 10000 < nDocs <= 50000
    ensures t == 120 <==> nDocs > 50000
  {
    if nDocs > 50000 then 120
    else if nDocs > 10000 then 40
    else if nDocs > 1000 then 20
    else 10
  }

  /** More texts never mean a shorter wait. */
  lemma {:induction false} RetryTimeMonotone(m: int, n: int)
    requires m <= n
    ensures GetRetryTime(m) <= GetRetryTime(n)
  {
  }

  /** `retry_time or get_retry_time(len(texts))`: a given retry time is used unless it is falsy. */
  function RetryTime(given: Option<int>, nDocs: nat): (t: int)
    ensures given.Some? && given.value != 0 ==> t == given.value
    ensures given.None? || given.value == 0 ==> t == GetRetryTime(nDocs)
  {
    if given.Some? && given.value != 0 then given.value else GetRetryTime(nDocs)
  }

  /** Without a usable retry time of their own, callers sleep a positive number of seconds. */
  lemma {:induction false} RetryTimePositive(given: Option<int>, nDocs: nat)
    requires given.None? || given.value >= 0
    ensures RetryTime(given, nDocs) > 0
  {
  }

  /**
   * What `await resp.json()` gives: a task record (`current_status.status` is all the loop reads),
   * another JSON object (its keys; it has no `current_status`), or a body that is not JSON.
   */
  datatype Reply = Task(status: string) | Body(keys: set<string>) | NotJson

  /** How the call ends: it logs and returns None (Skipped, TimedOut, Stopped), fetches the
      vectors (Fetched), or raises. Cut: the replies or clock readings given ran out first. */
  datatype Outcome = Skipped | Fetched | TimedOut | Stopped(status: string) | Raised(error: Error) | Cut

  /** The outcome and the number of `get_task_status` calls made (each after one sleep). */
  datatype Polled = Polled(outcome: Outcome, polls: nat)

  /** The statuses that stop the polling. */
  predicate IsErrorStatus(status: string)
  {
    status == StatusText(UnknownError) || status == StatusText(RuntimeError) || status == StatusText(OutOfAttempts)
  }

  /** The reply the loop looks at after j polls: the submission's, then the j-th poll's. */
  function Observed(first: Reply, polls: seq<Reply>, j: nat): Reply
    requires j <= |polls|
  {
    if j == 0 then first else polls[j - 1]
  }

  /**
   * The loop from the point where `k` polls have been made and `resp` is the latest reply.
   * `clock[0]` is `start`; `clock[k + 1]` is the reading of the timeout check after k polls.
   */
  function PollFrom(resp: Reply, polls: seq<Reply>, clock: seq<int>, k: nat, timeout: int): Polled
    requires k <= |polls| && |clock| >= 1
    decreases |polls| - k
  {
    match resp
    case NotJson => Polled(Raised(ContentTypeError), k)
    case Body(_) => Polled(Raised(KeyError("current_status")), k)
    case Task(status) =>
      if status == StatusText(Done) then Polled(Fetched, k)
      else if k + 1 >= |clock| then Polled(Cut, k)
      else if clock[k + 1] - clock[0] > timeout then Polled(TimedOut, k)
      else if IsErrorStatus(status) then Polled(Stopped(status), k)
      else if k == |polls| then Polled(Cut, k)
      else PollFrom(polls[k], polls, clock, k + 1, timeout)
  }

  /** `send_vectorizer_task_and_poll` after the submission replied `first`. */
  function SendSpec(first: Reply, polls: seq<Reply>, clock: seq<int>, timeout: int): Polled
  {
    if first.NotJson? then Polled(Raised(ContentTypeError), 0)
    else if first.Body? && "status_code" in first.keys then Polled(Skipped, 0)
    else if |clock| == 0 then Polled(Cut, 0)
    else PollFrom(first, polls, clock, 0, timeout)
  }

  /** The call itself: the retry time, the submission check, then the `while`/`else` loop. */
  method SendAndPoll(nDocs: nat, given: Option<int>, first: Reply, polls: seq<Reply>, clock: seq<int>, timeout: int)
    returns (retryTime: int, p: Polled)
    ensures retryTime == RetryTime(given, nDocs)
    ensures p == SendSpec(first, polls, clock, timeout)
  {
    retryTime := if given.Some? && given.value != 0 then given.value else GetRetryTime(nDocs);
    var resp := first;
    if resp.NotJson? {
      return retryTime, Polled(Raised(ContentTypeError), 0);
    }
    if resp.Body? && "status_code" in resp.keys {
      return retryTime, Polled(Skipped, 0);
    }
    if |clock| == 0 {
      return retryTime, Polled(Cut, 0);
    }
    var start := clock[0];
    var k := 0;
    while !resp.Task? || resp.status != StatusText(Done)
      invariant k <= |polls|
      invariant PollFrom(resp, polls, clock, k, timeout) == SendSpec(first, polls, clock, timeout)
      decreases |polls| - k
    {
      if resp.NotJson? {
        return retryTime, Polled(Raised(ContentTypeError), k);
      }
      if resp.Body? {
        return retryTime, Polled(Raised(KeyError("current_status")), k);
      }
      if k + 1 >= |clock| {
        return retryTime, Polled(Cut, k);
      }
      if clock[k + 1] - start > timeout {
        return retryTime, Polled(TimedOut, k);
      }
      if IsErrorStatus(resp.status) {
        return retryTime, Polled(Stopped(resp.status), k);
      }
      if k == |polls| {
        return retryTime, Polled(Cut, k);
      }
      resp := polls[k];
      k := k + 1;
    }
    p := Polled(Fetched, k);
  }

  /** What the loop does from `k` polls on, reply by reply. */
  lemma {:induction false} PollFromMeans(first: Reply, polls: seq<Reply>, clock: seq<int>, k: nat, timeout: int)
    requires k <= |polls| && |clock| >= 1
    ensures var p := PollFrom(Observed(first, polls, k), polls, clock, k, timeout);
      && k <= p.polls <= |polls|
      && (forall j :: k <= j < p.polls ==> Waited(first, polls, clock, timeout, j))
      && (p.outcome.Fetched? <==> Observed(first, polls, p.polls) == Task(StatusText(Done)))
      && (p.outcome.TimedOut? ==>
            && Observed(first, polls, p.polls).Task? && Observed(first, polls, p.polls).status != StatusText(Done)
            && p.polls + 1 < |clock| && clock[p.polls + 1] - clock[0] > timeout)
      && (p.outcome.Stopped? ==>
            && Observed(first, polls, p.polls) == Task(p.outcome.status) && IsErrorStatus(p.outcome.status)
            && p.polls + 1 < |clock| && clock[p.polls + 1] - clock[0] <= timeout)
      && (p.outcome.Raised? <==> !Observed(first, polls, p.polls).Task?)
      && (p.outcome.Raised? ==>
            p.outcome.error == (if Observed(first, polls, p.polls).NotJson? then ContentTypeError else KeyError("current_status")))
      && !p.outcome.Skipped?
    decreases |polls| - k
  {
    if Waited(first, polls, clock, timeout, k) && k < |polls| {
      assert Observed(first, polls, k + 1) == polls[k];
      var p := PollFrom(Observed(first, polls, k), polls, clock, k, timeout);
      assert p == PollFrom(Observed(first, polls, k + 1), polls, clock, k + 1, timeout);
      PollFromMeans(first, polls, clock, k + 1, timeout);
      assert forall j :: k < j < p.polls ==> Waited(first, polls, clock, timeout, j);
    }
  }

  /** After j polls the loop saw a task in a non-DONE, non-error status, within the timeout: it sleeps and polls again. */
  predicate Waited(first: Reply, polls: seq<Reply>, clock: seq<int>, timeout: int, j: nat)
    requires j <= |polls|
  {
    && Observed(first, polls, j).Task? && Observed(first, polls, j).status != StatusText(Done)
    && !IsErrorStatus(Observed(first, polls, j).status)
    && j + 1 < |clock| && clock[j + 1] - clock[0] <= timeout
  }

  /**
   * The whole call: a submission reply carrying "status_code" is logged and nothing is polled;
   * otherwise every reply before the last was a task in a non-DONE, non-error status seen within the
   * timeout, and the call fetches the vectors exactly when the last reply is DONE — the submission's
   * own reply included, with no clock check. The timeout is checked before the error statuses.
   */
  lemma {:induction false} SendMeans(first: Reply, polls: seq<Reply>, clock: seq<int>, timeout: int)
    ensures var p := SendSpec(first, polls, clock, timeout);
      && (p.outcome.Skipped? <==> first.Body? && "status_code" in first.keys)
      && (p.outcome.Skipped? || first.NotJson? || |clock| == 0 ==> p.polls == 0)
      && p.polls <= |polls|
      && (first == Task(StatusText(Done)) && |clock| >= 1 ==> p == Polled(Fetched, 0))
      && (!p.outcome.Skipped? && |clock| >= 1 ==>
            && (forall j :: 0 <= j < p.polls ==> Waited(first, polls, clock, timeout, j))
            && (p.outcome.Fetched? <==> Observed(first, polls, p.polls) == Task(StatusText(Done)))
            && (p.outcome.TimedOut? ==> p.polls + 1 < |clock| && clock[p.polls + 1] - clock[0] > timeout)
            && (p.outcome.Stopped? ==>
                  && Observed(first, polls, p.polls) == Task(p.outcome.status) && IsErrorStatus(p.outcome.status)
                  && p.polls + 1 < |clock| && clock[p.polls + 1] - clock[0] <= timeout))
  {
    if first.NotJson? || (first.Body? && "status_code" in first.keys) || |clock| == 0 {
      assert SendSpec(first, polls, clock, timeout).polls == 0;
    } else {
      assert Observed(first, polls, 0) == first;
      assert SendSpec(first, polls, clock, timeout) == PollFrom(Observed(first, polls, 0), polls, clock, 0, timeout);
      PollFromMeans(first, polls, clock, 0, timeout);
    }
  }

  /** A status other than DONE and the three error statuses — "Retrying...", "Vectorizing...", or any
      other string — within the timeout leads to one more poll. */
  lemma {:induction false} OtherStatusPollsAgain(first: Reply, polls: seq<Reply>, clock: seq<int>, k: nat, timeout: int)
    requires k < |polls| && k + 1 < |clock|
    requires Observed(first, polls, k).Task?
    requires var s := Observed(first, polls, k).status; s != StatusText(Done) && !IsErrorStatus(s)
    requires clock[k + 1] - clock[0] <= timeout
    ensures PollFrom(Observed(first, polls, k), polls, clock, k, timeout)
         == PollFrom(Observed(first, polls, k + 1), polls, clock, k + 1, timeout)
  {
  }

  /** The clock readings of a run in which each poll follows a sleep of `retryTime` seconds. */
  predicate SleepsBetweenChecks(clock: seq<int>, retryTime: int)
  {
    && (|clock| >= 2 ==> clock[1] >= clock[0])
    && forall j :: 1 <= j < |clock| - 1 ==> clock[j + 1] - clock[j] >= retryTime
  }

  lemma {:induction false} ClockAdvances(clock: seq<int>, retryTime: int, j: nat)
    requires SleepsBetweenChecks(clock, retryTime) && 1 <= j < |clock|
    ensures clock[j] - clock[1] >= (j - 1) * retryTime
  {
    if j > 1 {
      ClockAdvances(clock, retryTime, j - 1);
      assert clock[j] - clock[j - 1] >= retryTime;
      assert (j - 1) * retryTime == (j - 2) * retryTime + retryTime;
    }
  }

  /** With the sleeps in between, the number of polls is bounded by the timeout: (polls - 1) sleeps
      fit within it. */
  lemma {:induction false} PollsBounded(first: Reply, polls: seq<Reply>, clock: seq<int>, timeout: int, retryTime: int)
    requires SleepsBetweenChecks(clock, retryTime)
    ensures var p := SendSpec(first, polls, clock, timeout);
      p.polls >= 1 ==> (p.polls - 1) * retryTime <= timeout
  {
    var p := SendSpec(first, polls, clock, timeout);
    SendMeans(first, polls, clock, timeout);
    if p.polls >= 1 {
      var j := p.polls - 1;
      assert Waited(first, polls, clock, timeout, j);
      ClockAdvances(clock, retryTime, j + 1);
    }
  }

  /** The JSON the client receives for an endpoint's answer: the task record; FastAPI's
      `{"detail": ...}` for an HTTPException; a plain-text 500 for any other exception. */
  function ReplyOf(r: Result<TaskModel>): Reply
  {
    match r
    case Ok(t) => Task(StatusText(t.currentStatus.status))
    case Err(HttpError(_, _)) => Body({"detail"})
    case Err(_) => NotJson
  }

  /** An HTTP error answer has no "status_code" key, so the check meant for it lets it through and,
      once `start` is read, the loop condition raises KeyError on "current_status". */
  lemma {:induction false} HttpErrorRaisesKeyError(code: int, detail: string, polls: seq<Reply>, clock: seq<int>, timeout: int)
    requires |clock| >= 1
    ensures SendSpec(ReplyOf(Err(HttpError(code, detail))), polls, clock, timeout)
         == Polled(Raised(KeyError("current_status")), 0)
  {
    assert "status_code" !in {"detail"};
  }

  /** The submission check as evidently intended: an HTTP error answer, recognised by the "detail"
      key FastAPI gives it, is logged and the call returns without polling. */
  function SendIntended(first: Reply, polls: seq<Reply>, clock: seq<int>, timeout: int): Polled
  {
    if first.Body? && "detail" in first.keys then Polled(Skipped, 0)
    else SendSpec(first, polls, clock, timeout)
  }

  /** With the intended check, a submission answered by an HTTP error is skipped and nothing else
      is; every other answer is handled exactly as the code as written handles it. */
  lemma {:induction false} IntendedSkipsHttpErrors(r: Result<TaskModel>, polls: seq<Reply>, clock: seq<int>, timeout: int)
    ensures var p := SendIntended(ReplyOf(r), polls, clock, timeout);
      && (p.outcome.Skipped? <==> r.Err? && r.error.HttpError?)
      && (p.outcome.Skipped? ==> p.polls == 0)
      && (!(r.Err? && r.error.HttpError?) ==> p == SendSpec(ReplyOf(r), polls, clock, timeout))
  {
    SendMeans(ReplyOf(r), polls, clock, timeout);
  }

  /**
   * Against the server as written, whose `/vectorize` always answers 500, every call raises
   * KeyError before polling anything.
   */
  lemma {:induction false} AgainstServerAsWritten(s: VecDb.Store, taskId: string, texts: seq<string>, docIds: seq<string>, now: int,
                               polls: seq<Reply>, clock: seq<int>, timeout: int)
    requires |clock| >= 1
    ensures SendSpec(ReplyOf(VecServer.VectorizeAsWritten(s, taskId, texts, docIds, now).0), polls, clock, timeout)
         == Polled(Raised(KeyError("current_status")), 0)
  {
    VecServer.VectorizeAsWrittenAlwaysFails(s, taskId, texts, docIds, now);
    var r := VecServer.VectorizeAsWritten(s, taskId, texts, docIds, now).0;
    HttpErrorRaisesKeyError(r.error.code, r.error.detail, polls, clock, timeout);
  }

  /**
   * Against the intended `/vectorize`, a created task answers VECTORIZING, so the call does not stop
   * at the submission: it polls, unless the timeout has already passed at the first check.
   */
  lemma {:induction false} AgainstIntendedServer(s: VecDb.Store, taskId: string, texts: seq<string>, now: int,
                              polls: seq<Reply>, clock: seq<int>, timeout: int)
    requires VecServer.VectorizeSpec(s, taskId, texts, now).0.Ok?
    requires |polls| >= 1 && |clock| >= 2 && clock[1] - clock[0] <= timeout
    ensures SendSpec(ReplyOf(VecServer.VectorizeSpec(s, taskId, texts, now).0), polls, clock, timeout).polls >= 1
  {
    VecServer.VectorizeOutcomes(s, taskId, texts, now);
    var first := ReplyOf(VecServer.VectorizeSpec(s, taskId, texts, now).0);
    assert first == Task(StatusText(Vectorizing));
    assert StatusText(Vectorizing)[0] != StatusText(Done)[0] && StatusText(Vectorizing)[0] != StatusText(UnknownError)[0];
    assert StatusText(Vectorizing)[0] != StatusText(RuntimeError)[0] && StatusText(Vectorizing)[0] != StatusText(OutOfAttempts)[0];
    PollFromMeans(first, polls, clock, 1, timeout);
  }
}
