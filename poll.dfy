/**
  One generation as the four UI handlers run it: create the task, stop on a
  creation error or a missing task id, then poll the task's status every
  three seconds until it succeeds, fails, reports a status the client does
  not know, the query fails, or three minutes have passed. Also the client's
  own `wait_for_task_completion` helper, which the handlers do not use.

  Time is an abstract millisecond clock: each status query takes
  `latency(k)` milliseconds (the k-th query), followed by the sleep.
*/
module Poll {
  import opened Wrappers
  import opened Text
  import opened PyJson
  import opened Config
  import opened Requests
  import opened Extract

  /** `max_wait = 180` seconds. */
  const MaxWaitMs := 180000
  /** `time.sleep(3)` between queries. */
  const PollIntervalMs := 3000

  /**
    The service as seen by the client: the creation post, the k-th status
    query of a URL, and how long the k-th query takes.
  */
  datatype Server = Server(post: HttpPost -> Transport, get: (string, nat) -> Transport, latency: nat -> nat)

  /** What the handler reports; the texts around these values are left out. */
  datatype Outcome =
    | ModelNotActivated                      // the creation error mentions 404
    | CreationFailed(error: Json)            // "Task creation failed: <error>"
    | MissingTaskId                          // the creation result has no truthy `id`
    | StatusQueryFailed(error: Json)         // a status body with an `error` key
    | Generated(video: Json, taskId: Json)   // succeeded, and a URL was found
    | VideoUrlNotFound(taskId: Json)         // succeeded, but no shape held a URL
    | GenerationFailed(error: Json, taskId: Json)
    | UnknownStatus(status: Json, taskId: Json)
    | TimedOut(taskId: Json)
    | Crashed                                // the URL search raised

  /** The outcome and how many status queries were made. */
  datatype PollResult = PollResult(outcome: Outcome, polls: nat)

  /** `get_task_status`: a failed query becomes a dict with the query error. */
  function StatusBody(t: Transport): (body: Fields)
    ensures t.Response? ==> body == t.body
    ensures t.TransportError? ==> HasKey(body, "error") && Lookup(body, "error", Null) == Str("Query failed: " + t.message)
  {
    match t
    case Response(b) => b
    case TransportError(m, _) => ErrorBody("Query failed: " + m)
  }

  /** One status body: stop with an outcome, or poll again. */
  datatype Step = Stop(outcome: Outcome) | Continue

  function Classify(body: Fields, taskId: Json): (s: Step)
    ensures s.Continue? <==>
      !HasKey(body, "error") && (Lookup(body, "status", Str("")) == Str("queued") || Lookup(body, "status", Str("")) == Str("running"))
    ensures HasKey(body, "error") ==> s == Stop(StatusQueryFailed(Lookup(body, "error", Null)))
    ensures !HasKey(body, "error") && Lookup(body, "status", Str("")) == Str("succeeded") ==>
      (VideoUrlOf(body).Found? ==> s == Stop(Generated(VideoUrlOf(body).url, taskId)))
      && (VideoUrlOf(body).NotFound? ==> s == Stop(VideoUrlNotFound(taskId)))
      && (VideoUrlOf(body).Raised? ==> s == Stop(Crashed))
    ensures !HasKey(body, "error") && Lookup(body, "status", Str("")) == Str("failed") ==>
      s == Stop(GenerationFailed(Str("Unknown error"), taskId))
  {
    if HasKey(body, "error") then Stop(StatusQueryFailed(Lookup(body, "error", Null)))
    else
      var status := Lookup(body, "status", Str(""));
      if status == Str("succeeded") then
        match VideoUrlOf(body)
        case Found(v) => Stop(Generated(v, taskId))
        case NotFound => Stop(VideoUrlNotFound(taskId))
        case Raised => Stop(Crashed)
      else if status == Str("failed") then Stop(GenerationFailed(Lookup(body, "error", Str("Unknown error")), taskId))
      else if status == Str("queued") || status == Str("running") then Continue
      else Stop(UnknownStatus(status, taskId))
  }

  /** The status of the k-th query. */
  function QueryBody(c: Client, server: Server, taskId: Json, k: nat): Fields
  {
    StatusBody(server.get(TaskUrl(c, PyStr(taskId)), k))
  }

  /** The verdict on each status query of one task. */
  function Verdicts(c: Client, server: Server, taskId: Json): nat -> Step
  {
    (k: nat) => Classify(QueryBody(c, server, taskId, k), taskId)
  }

  /**
    The poll loop from the k-th query on, `elapsed` milliseconds after it
    started, given the verdict on each query and how long each query takes.
  */
  function PollFrom(verdict: nat -> Step, latency: nat -> nat, taskId: Json, k: nat, elapsed: nat): (r: PollResult)
    decreases MaxWaitMs - elapsed
  {
    if elapsed >= MaxWaitMs then PollResult(TimedOut(taskId), k)
    else
      match verdict(k)
      case Stop(o) => PollResult(o, k + 1)
      case Continue => PollFrom(verdict, latency, taskId, k + 1, elapsed + latency(k) + PollIntervalMs)
  }

  /** What the handler does with the dict `create_*_task` returned. */
  function AfterCreation(created: Fields): (s: Step)
    ensures s.Continue? <==> !HasKey(created, "error") && Truthy(Lookup(created, "id", Null))
    ensures HasKey(created, "error") && Contains(PyStr(Lookup(created, "error", Null)), "404") ==>
      s == Stop(ModelNotActivated)
    ensures HasKey(created, "error") && !Contains(PyStr(Lookup(created, "error", Null)), "404") ==>
      s == Stop(CreationFailed(Lookup(created, "error", Null)))
    ensures !HasKey(created, "error") && !Truthy(Lookup(created, "id", Null)) ==> s == Stop(MissingTaskId)
  {
    if HasKey(created, "error") then
      var e := Lookup(created, "error", Null);
      if Contains(PyStr(e), "404") then Stop(ModelNotActivated) else Stop(CreationFailed(e))
    else if !Truthy(Lookup(created, "id", Null)) then Stop(MissingTaskId)
    else Continue
  }

  /** The poll loop of one created task, from the first query at time zero. */
  function Polling(c: Client, server: Server, taskId: Json): PollResult
  {
    PollFrom(Verdicts(c, server, taskId), server.latency, taskId, 0, 0)
  }

  /** A whole generation: create, then poll. */
  function Generation(c: Client, mode: Mode, req: Request, server: Server): PollResult
  {
    var created := Submit(c, mode, req, server.post);
    match AfterCreation(created)
    case Stop(o) => PollResult(o, 0)
    case Continue => Polling(c, server, Lookup(created, "id", Null))
  }

  // ----- properties of the poll loop -----

  /**
    From query k with `elapsed` milliseconds gone, at least one more query is
    made while time is left, and the queries after the first number fewer than
    the time left divided by the three-second sleep.
  */
  lemma {:induction false} PollCount(verdict: nat -> Step, latency: nat -> nat, taskId: Json, k: nat, elapsed: nat)
    ensures var r := PollFrom(verdict, latency, taskId, k, elapsed);
      r.polls >= k
      && (elapsed < MaxWaitMs ==> r.polls > k)
      && (r.polls > k ==> (r.polls - k - 1) * PollIntervalMs < MaxWaitMs - elapsed)
    decreases MaxWaitMs - elapsed
  {
    if elapsed < MaxWaitMs && verdict(k).Continue? {
      PollCount(verdict, latency, taskId, k + 1, elapsed + latency(k) + PollIntervalMs);
    }
  }

  /** A generation makes at most 60 status queries, and at least one once the task was created. */
  lemma AtMostSixtyPolls(c: Client, mode: Mode, req: Request, server: Server)
    ensures Generation(c, mode, req, server).polls <= 60
    ensures AfterCreation(Submit(c, mode, req, server.post)).Continue? ==> Generation(c, mode, req, server).polls >= 1
  {
    var created := Submit(c, mode, req, server.post);
    if AfterCreation(created).Continue? {
      var taskId := Lookup(created, "id", Null);
      PollCount(Verdicts(c, server, taskId), server.latency, taskId, 0, 0);
    }
  }

  /** A task that stays queued or running for every query ends in a timeout. */
  lemma {:induction false} StillRunningTimesOut(verdict: nat -> Step, latency: nat -> nat, taskId: Json, k: nat, elapsed: nat)
    requires forall j :: k <= j ==> verdict(j).Continue?
    ensures PollFrom(verdict, latency, taskId, k, elapsed).outcome == TimedOut(taskId)
    decreases MaxWaitMs - elapsed
  {
    if elapsed < MaxWaitMs {
      StillRunningTimesOut(verdict, latency, taskId, k + 1, elapsed + latency(k) + PollIntervalMs);
    }
  }

  /** The outcome is the timeout, or the verdict on the last status queried. */
  lemma {:induction false} LastQueryDecides(verdict: nat -> Step, latency: nat -> nat, taskId: Json, k: nat, elapsed: nat)
    ensures var r := PollFrom(verdict, latency, taskId, k, elapsed);
      r.outcome == TimedOut(taskId)
      || (r.polls > k && verdict(r.polls - 1) == Stop(r.outcome))
    decreases MaxWaitMs - elapsed
  {
    if elapsed < MaxWaitMs && verdict(k).Continue? {
      LastQueryDecides(verdict, latency, taskId, k + 1, elapsed + latency(k) + PollIntervalMs);
    }
  }

  /** The outcomes that come from the poll loop, as opposed to from task creation. */
  predicate PollOutcome(o: Outcome)
  {
    !(o.ModelNotActivated? || o.CreationFailed? || o.MissingTaskId?)
  }

  /**
    What one status body can stop with: never a creation outcome; a video
    only for a "succeeded" status whose search found a truthy URL; a failed
    task only with the default "Unknown error", because a body carrying an
    `error` key is reported as a failed status query first.
  */
  lemma ClassifyStops(body: Fields, taskId: Json)
    ensures var s := Classify(body, taskId);
      s.Stop? ==>
        PollOutcome(s.outcome)
        && (s.outcome.Generated? ==>
              s.outcome.taskId == taskId && Truthy(s.outcome.video)
              && !HasKey(body, "error") && Lookup(body, "status", Str("")) == Str("succeeded")
              && VideoUrlOf(body) == Found(s.outcome.video))
        && (s.outcome.GenerationFailed? ==> s.outcome.error == Str("Unknown error"))
  {
  }

  /** No status is queried exactly when creation ended the request, and the outcome says which way it went. */
  lemma CreationFailureStopsBeforePolling(c: Client, mode: Mode, req: Request, server: Server)
    ensures var r := Generation(c, mode, req, server);
      (r.polls == 0 <==> AfterCreation(Submit(c, mode, req, server.post)).Stop?)
      && (r.polls == 0 <==> !PollOutcome(r.outcome))
  {
    var created := Submit(c, mode, req, server.post);
    if AfterCreation(created).Continue? {
      var taskId := Lookup(created, "id", Null);
      var r := Polling(c, server, taskId);
      PollCount(Verdicts(c, server, taskId), server.latency, taskId, 0, 0);
      LastQueryDecides(Verdicts(c, server, taskId), server.latency, taskId, 0, 0);
      if r.outcome != TimedOut(taskId) {
        ClassifyStops(QueryBody(c, server, taskId, r.polls - 1), taskId);
      }
    }
  }

  /** A video is reported only for a query whose status was "succeeded" and whose body held a truthy URL. */
  lemma GeneratedMeansSucceeded(c: Client, server: Server, taskId: Json)
    ensures var r := Polling(c, server, taskId);
      r.outcome.Generated? ==>
        r.outcome.taskId == taskId && Truthy(r.outcome.video) && r.polls > 0
        && var body := QueryBody(c, server, taskId, r.polls - 1);
        !HasKey(body, "error") && Lookup(body, "status", Str("")) == Str("succeeded")
        && VideoUrlOf(body) == Found(r.outcome.video)
  {
    var r := Polling(c, server, taskId);
    LastQueryDecides(Verdicts(c, server, taskId), server.latency, taskId, 0, 0);
    if r.outcome.Generated? {
      ClassifyStops(QueryBody(c, server, taskId, r.polls - 1), taskId);
    }
  }

  /** A task whose first status query reports success with a URL is done after that one query. */
  lemma SucceededAtFirstQuery(c: Client, server: Server, taskId: Json)
    requires var body := QueryBody(c, server, taskId, 0);
      !HasKey(body, "error") && Lookup(body, "status", Str("")) == Str("succeeded") && VideoUrlOf(body).Found?
    ensures Polling(c, server, taskId) == PollResult(Generated(VideoUrlOf(QueryBody(c, server, taskId, 0)).url, taskId), 1)
  {
  }

  /** The service's documented answer, a "succeeded" status with `content.video_url`, yields that video at once. */
  lemma ServiceAnswerGeneratesVideo(c: Client, server: Server, taskId: Json, url: string)
    requires url != ""
    requires server.get(TaskUrl(c, PyStr(taskId)), 0) == Response(SucceededBody(url))
    ensures Polling(c, server, taskId) == PollResult(Generated(Str(url), taskId), 1)
  {
    var body := SucceededBody(url);
    SucceededBodyFields(url);
    assert QueryBody(c, server, taskId, 0) == body;
    SucceededAtFirstQuery(c, server, taskId);
  }

  /** So a failed task is only ever reported with the default "Unknown error". */
  lemma FailedTaskErrorIsAlwaysDefault(c: Client, server: Server, taskId: Json)
    ensures var r := Polling(c, server, taskId);
      r.outcome.GenerationFailed? ==> r.outcome.error == Str("Unknown error")
  {
    var r := Polling(c, server, taskId);
    LastQueryDecides(Verdicts(c, server, taskId), server.latency, taskId, 0, 0);
    if r.outcome.GenerationFailed? {
      ClassifyStops(QueryBody(c, server, taskId, r.polls - 1), taskId);
    }
  }

  /** A failed task whose body explains the failure is reported as a failed status query. */
  lemma FailedTaskWithErrorIsQueryFailure(body: Fields, taskId: Json)
    requires HasKey(body, "error") && Lookup(body, "status", Str("")) == Str("failed")
    ensures Classify(body, taskId) == Stop(StatusQueryFailed(Lookup(body, "error", Null)))
  {
  }

  /** Any status other than the four known ones, including a missing one, stops at once. */
  lemma UnknownStatusStops(body: Fields, taskId: Json)
    requires !HasKey(body, "error")
    requires Lookup(body, "status", Str("")) !in {Str("succeeded"), Str("failed"), Str("queued"), Str("running")}
    ensures Classify(body, taskId) == Stop(UnknownStatus(Lookup(body, "status", Str("")), taskId))
  {
  }

  /**
    A local image whose read error mentions "404" (say, in its file name) is
    reported as the model-activation problem, not as a creation failure.
  */
  lemma EncodeErrorMentioning404(c: Client, ids: ModelIds, files: Files, path: string, prompt: string, model: string,
                                 resolution: string, duration: int, seed: Option<int>, watermark: bool, server: Server)
    requires path != ""
    requires files.encode(path).Failure? && Contains(files.encode(path).error, "404")
    ensures var req := ImageToVideoRequest(ids, files, None, Some(path), prompt, model, resolution, duration, seed, watermark);
      Generation(c, ImageToVideo, req, server) == PollResult(ModelNotActivated, 0)
  {
    var e := files.encode(path).error;
    ContainsAfterPrefix("Failed to encode " + "image" + ": ", e, "404");
    assert EncodeError("image", e) == ("Failed to encode " + "image" + ": ") + e;
  }

  // ----- the poll loop as written -----

  /** The handler after `create_*_task` returned: the checks, then the timed loop. */
  method RunGeneration(c: Client, mode: Mode, req: Request, server: Server) returns (r: PollResult)
    ensures r == Generation(c, mode, req, server)
  {
    var result := Submit(c, mode, req, server.post);
    if HasKey(result, "error") {
      var errorMessage := Lookup(result, "error", Null);
      if Contains(PyStr(errorMessage), "404") {
        return PollResult(ModelNotActivated, 0);
      }
      return PollResult(CreationFailed(errorMessage), 0);
    }
    var taskId := Lookup(result, "id", Null);
    if !Truthy(taskId) {
      return PollResult(MissingTaskId, 0);
    }
    ghost var verdict := Verdicts(c, server, taskId);
    var elapsed: nat := 0;
    var k: nat := 0;
    while elapsed < MaxWaitMs
      invariant Polling(c, server, taskId) == PollFrom(verdict, server.latency, taskId, k, elapsed)
      decreases MaxWaitMs - elapsed
    {
      var statusResult := StatusBody(server.get(TaskUrl(c, PyStr(taskId)), k));
      if HasKey(statusResult, "error") {
        return PollResult(StatusQueryFailed(Lookup(statusResult, "error", Null)), k + 1);
      }
      var status := Lookup(statusResult, "status", Str(""));
      if status == Str("succeeded") {
        var videoUrl := ExtractVideoUrl(statusResult);
        match videoUrl {
          case Found(v) => return PollResult(Generated(v, taskId), k + 1);
          case NotFound => return PollResult(VideoUrlNotFound(taskId), k + 1);
          case Raised => return PollResult(Crashed, k + 1);
        }
      } else if status == Str("failed") {
        var errorMsg := Lookup(statusResult, "error", Str("Unknown error"));
        return PollResult(GenerationFailed(errorMsg, taskId), k + 1);
      } else if status == Str("queued") || status == Str("running") {
        elapsed := elapsed + server.latency(k) + PollIntervalMs;
        k := k + 1;
      } else {
        return PollResult(UnknownStatus(status, taskId), k + 1);
      }
    }
    return PollResult(TimedOut(taskId), k);
  }

  // ----- wait_for_task_completion -----

  /** `wait_for_task_completion` sleeps five seconds between queries. */
  const WaitIntervalMs := 5000

  /**
    The helper's loop from the k-th query on, with `done` the status it
    treats as success: it returns the status dict on `done`, an error dict
    on "failed", a query error or the timeout, and polls again on any other
    status (a missing one reads as "unknown").
  */
  function WaitFrom(c: Client, server: Server, taskId: string, done: string, timeoutMs: nat, k: nat, elapsed: nat): (r: Fields)
    decreases timeoutMs - elapsed
  {
    if elapsed >= timeoutMs then ErrorBody("Task timeout")
    else
      var body := StatusBody(server.get(TaskUrl(c, taskId), k));
      if HasKey(body, "error") then body
      else
        var status := Lookup(body, "status", Str("unknown"));
        if status == Str(done) then body
        else if status == Str("failed") then ErrorBody("Task execution failed")
        else WaitFrom(c, server, taskId, done, timeoutMs, k + 1, elapsed + server.latency(k) + WaitIntervalMs)
  }

  /** The helper as written, with its `timeout` in seconds (300 by default). */
  method WaitForTaskCompletion(c: Client, server: Server, taskId: string, timeout: nat) returns (r: Fields)
    ensures r == WaitFrom(c, server, taskId, "success", timeout * 1000, 0, 0)
  {
    var elapsed: nat := 0;
    var k: nat := 0;
    while elapsed < timeout * 1000
      invariant WaitFrom(c, server, taskId, "success", timeout * 1000, 0, 0)
             == WaitFrom(c, server, taskId, "success", timeout * 1000, k, elapsed)
      decreases timeout * 1000 - elapsed
    {
      var statusResponse := StatusBody(server.get(TaskUrl(c, taskId), k));
      if HasKey(statusResponse, "error") {
        return statusResponse;
      }
      var status := Lookup(statusResponse, "status", Str("unknown"));
      if status == Str("success") {
        return statusResponse;
      } else if status == Str("failed") {
        return ErrorBody("Task execution failed");
      }
      elapsed := elapsed + server.latency(k) + WaitIntervalMs;
      k := k + 1;
    }
    return ErrorBody("Task timeout");
  }

  /** A server that answers every query with the same error-free body. */
  ghost predicate AlwaysAnswers(c: Client, server: Server, taskId: string, body: Fields)
  {
    forall j: nat :: server.get(TaskUrl(c, taskId), j) == Response(body)
  }

  /**
    As written: the helper waits for "success", which the service never
    reports, so a task that has succeeded is waited on until the timeout.
  */
  lemma {:induction false} WaitAsWrittenTimesOutOnSucceeded(c: Client, server: Server, taskId: string, body: Fields,
                                                            timeoutMs: nat, k: nat, elapsed: nat)
    requires AlwaysAnswers(c, server, taskId, body)
    requires !HasKey(body, "error") && Lookup(body, "status", Str("unknown")) == Str("succeeded")
    ensures WaitFrom(c, server, taskId, "success", timeoutMs, k, elapsed) == ErrorBody("Task timeout")
    decreases timeoutMs - elapsed
  {
    assert Str("succeeded") != Str("success") by { assert |"succeeded"| != |"success"|; }
    assert Str("succeeded") != Str("failed") by { assert |"succeeded"| != |"failed"|; }
    if elapsed < timeoutMs {
      WaitAsWrittenTimesOutOnSucceeded(c, server, taskId, body, timeoutMs, k + 1, elapsed + server.latency(k) + WaitIntervalMs);
    }
  }

  /** When query k starts, if query j started at `elapsed` and every query in between was followed by the sleep. */
  function WaitClock(server: Server, elapsed: nat, j: nat, k: nat): (t: nat)
    ensures t >= elapsed
    decreases k - j
  {
    if k <= j then elapsed else WaitClock(server, elapsed + server.latency(j) + WaitIntervalMs, j + 1, k)
  }

  /**
    Corrected: waiting for "succeeded" returns the body of the first query
    that reports it, when the queries before it report neither "succeeded"
    nor "failed" and it starts before the timeout.
  */
  lemma {:induction false} IntendedWaitReturnsSucceeded(c: Client, server: Server, taskId: string, timeoutMs: nat,
                                                        j: nat, k: nat, elapsed: nat)
    requires j <= k
    requires forall i :: j <= i < k ==>
      var b := StatusBody(server.get(TaskUrl(c, taskId), i));
      !HasKey(b, "error") && Lookup(b, "status", Str("unknown")) != Str("succeeded") && Lookup(b, "status", Str("unknown")) != Str("failed")
    requires var b := StatusBody(server.get(TaskUrl(c, taskId), k));
      !HasKey(b, "error") && Lookup(b, "status", Str("unknown")) == Str("succeeded")
    requires WaitClock(server, elapsed, j, k) < timeoutMs
    ensures WaitFrom(c, server, taskId, "succeeded", timeoutMs, j, elapsed) == StatusBody(server.get(TaskUrl(c, taskId), k))
    decreases k - j
  {
    if j < k {
      IntendedWaitReturnsSucceeded(c, server, taskId, timeoutMs, j + 1, k, elapsed + server.latency(j) + WaitIntervalMs);
    }
  }
}
