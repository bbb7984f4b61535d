/** The video-generation hook (`useVideoGeneration` in src/hooks/useApi.js):
    the task request, the immediate-result check, and the bounded polling
    loop with its progress counter.  The provider is given as the reply to the
    task submission and, for each attempt index, the reply to the status
    query made at that attempt; the five-second wait between queries is not
    modelled. */
module Video {
  import opened Js
  import opened Catalogue
  import opened Lifecycle

  const MAX_ATTEMPTS: nat := 120
  const VIDEO_ENDPOINT: string := "/videos"
  const NO_TASK_ID: string := "未获取到任务 ID"
  const GENERATION_FAILED: string := "视频生成失败"
  const GENERATION_TIMEOUT: string := "视频生成超时"

  /** The request body and the endpoint option of the task submission. */
  datatype VideoRequest = VideoRequest(body: Record, endpoint: Value)

  /** The keys a submission body may carry. */
  const VIDEO_KEYS: set<string> := {"model", "prompt", "first_frame_image", "last_frame_image", "size", "seconds"}

  /** The parameter a request key is copied from. */
  function SourceKey(key: string): string
  {
    if key == "size" then "ratio" else if key == "seconds" then "dur" else key
  }

  /** Whether the request carries `key`: model and prompt always, the
      optional keys only when their parameter is truthy. */
  predicate Sends(params: Record, key: string)
  {
    key == "model" || key == "prompt" || Truthy(Field(params, SourceKey(key)))
  }

  /** The value sent under `key`; a missing prompt is sent as `''`. */
  function SentValue(params: Record, key: string): Value
  {
    if key == "prompt" then Or(Field(params, "prompt"), Str("")) else Field(params, SourceKey(key))
  }

  /** The submission for `params`: model and prompt (empty when missing),
      then each optional parameter that is set, with `ratio` sent as `size`
      and `dur` sent as `seconds`. */
  function BuildVideoRequest(params: Record): (r: VideoRequest)
    ensures r.body.Keys <= VIDEO_KEYS
    ensures "model" in r.body && r.body["model"] == Field(params, "model")
    ensures "prompt" in r.body && r.body["prompt"] == (if Truthy(Field(params, "prompt")) then Field(params, "prompt") else Str(""))
    ensures var endpoint := ConfigField(GetModelByName(Field(params, "model")), "endpoint");
            Truthy(r.endpoint) && (!Truthy(endpoint) ==> r.endpoint == Str(VIDEO_ENDPOINT))
  {
    var config := GetModelByName(Field(params, "model"));
    var body := map key | key in VIDEO_KEYS && Sends(params, key) :: SentValue(params, key);
    VideoRequest(body, Or(ConfigField(config, "endpoint"), Str(VIDEO_ENDPOINT)))
  }

  /** The frame images are sent exactly when they are set. */
  lemma VideoRequestFrames(params: Record)
    ensures var r := BuildVideoRequest(params);
            && ("first_frame_image" in r.body <==> Truthy(Field(params, "first_frame_image")))
            && ("first_frame_image" in r.body ==> r.body["first_frame_image"] == Field(params, "first_frame_image"))
            && ("last_frame_image" in r.body <==> Truthy(Field(params, "last_frame_image")))
            && ("last_frame_image" in r.body ==> r.body["last_frame_image"] == Field(params, "last_frame_image"))
  {
  }

  /** `ratio` is sent as `size` and `dur` as `seconds`, each exactly when it
      is set. */
  lemma VideoRequestRenamed(params: Record)
    ensures var r := BuildVideoRequest(params);
            && ("size" in r.body <==> Truthy(Field(params, "ratio")))
            && ("size" in r.body ==> r.body["size"] == Field(params, "ratio"))
            && ("seconds" in r.body <==> Truthy(Field(params, "dur")))
            && ("seconds" in r.body ==> r.body["seconds"] == Field(params, "dur"))
  {
  }

  /** `modelConfig?.async !== false` */
  predicate IsAsync(config: Option<Record>)
  {
    !StrictEquals(ConfigField(config, "async"), Bool(false))
  }

  /** With the static catalogue every model is asynchronous and every task is
      submitted to the default endpoint. */
  lemma CatalogueVideoDefaults(params: Record)
    ensures IsAsync(GetModelByName(Field(params, "model")))
    ensures BuildVideoRequest(params).endpoint == Str(VIDEO_ENDPOINT)
  {
    var config := GetModelByName(Field(params, "model"));
    CatalogueDefaults();
    if config.Some? {
      var i :| 0 <= i < |ALL_MODELS| && ALL_MODELS[i] == config.value;
      assert PlainDefaults(ALL_MODELS[i]);
    }
  }

  /** `{ url, ...response }`: the response's own properties come last, so a
      `url` key of the response replaces the derived one. */
  function WithUrl(url: Value, response: Value): (r: Value)
    ensures r.Obj? && "url" in r.fields
    ensures r.fields["url"] == if response.Obj? && "url" in response.fields then response.fields["url"] else url
    ensures forall key :: key != "url" ==> Field(r.fields, key) == Prop(response, key)
  {
    Obj(map["url" := url] + Spread(response))
  }

  /** The progress shown before query `i`: `Math.round(i / 120 * 100)`, at
      most 99.  The exact quotient is rounded half up, except at `i = 69`,
      where the double-precision product is 57.49999999999999 and rounds
      down. */
  function Percentage(i: nat): (p: nat)
    ensures p <= 99
    ensures i < MAX_ATTEMPTS ==> -3 <= 6 * p - 5 * i <= 3
  {
    if i == 69 then 57 else if (5 * i + 3) / 6 < 99 then (5 * i + 3) / 6 else 99
  }

  /** The progress never goes back as the attempts advance. */
  lemma PercentageMonotone(i: nat, j: nat)
    requires i <= j
    ensures Percentage(i) <= Percentage(j)
  {
    assert (5 * i + 3) / 6 <= (5 * j + 3) / 6;
  }

  /** What one status query says. */
  datatype Verdict = Completed(video: Value) | Errored(error: JsError) | Pending

  /** `result.status === 'completed' || result.status === 'succeeded' || result.data` */
  predicate IsDone(result: Value)
  {
    StrictEquals(Prop(result, "status"), Str("completed")) || StrictEquals(Prop(result, "status"), Str("succeeded"))
    || Truthy(Prop(result, "data"))
  }

  /** `result.status === 'failed' || result.status === 'error'` */
  predicate IsFailed(result: Value)
  {
    StrictEquals(Prop(result, "status"), Str("failed")) || StrictEquals(Prop(result, "status"), Str("error"))
  }

  /** `result.data?.url || result.data?.[0]?.url || result.url || result.video_url` */
  function PolledUrl(result: Value): Value
  {
    var data := Prop(result, "data");
    Or(Or(Or(Prop(data, "url"), Prop(First(data), "url")), Prop(result, "url")), Prop(result, "video_url"))
  }

  /** `result.error?.message || result.message || '视频生成失败'` */
  function FailureMessage(result: Value): (m: Value)
    ensures Truthy(m)
    ensures var nested := Prop(Prop(result, "error"), "message");
            && (Truthy(nested) ==> m == nested)
            && (!Truthy(nested) && Truthy(Prop(result, "message")) ==> m == Prop(result, "message"))
            && (!Truthy(nested) && !Truthy(Prop(result, "message")) ==> m == Str(GENERATION_FAILED))
  {
    Or(Or(Prop(Prop(result, "error"), "message"), Prop(result, "message")), Str(GENERATION_FAILED))
  }

  /** One status query: a rejected query, or a `null`/`undefined` result,
      throws; completion is checked before failure. */
  function Classify(reply: Reply): (v: Verdict)
    ensures reply.Fails? ==> v == Errored(reply.error)
    ensures reply.Answer? && Nullish(reply.value) ==> v == Errored(NullAccess)
    ensures v.Completed? ==> v.video.Obj? && "url" in v.video.fields
  {
    match reply
    case Fails(e) => Errored(e)
    case Answer(result) =>
      if Nullish(result) then Errored(NullAccess)
      else if IsDone(result) then Completed(WithUrl(PolledUrl(result), result))
      else if IsFailed(result) then Errored(JsError("Error", FailureMessage(result)))
      else Pending
  }

  /** A status result is completed exactly when it reports completion or
      carries data, and then the video is the result with its URL; it has
      failed exactly when it reports failure without completing, and then
      the error always has a message. */
  lemma ClassifyResult(result: Value)
    requires !Nullish(result)
    ensures var v := Classify(Answer(result));
            && (v.Completed? <==> IsDone(result))
            && (v.Errored? <==> !IsDone(result) && IsFailed(result))
            && (v.Completed? ==> v.video == WithUrl(PolledUrl(result), result))
            && (v.Errored? ==> v.error.name == "Error" && Truthy(v.error.message))
  {
  }

  /** A result that carries data counts as completed even when its status
      says it failed. */
  lemma CompletionBeforeFailure(result: Value)
    requires Truthy(Prop(result, "data")) && IsFailed(result)
    ensures Classify(Answer(result)).Completed?
  {
  }

  /** How a decisive verdict settles the generation. */
  function Settle(v: Verdict): Outcome<Value>
    requires !v.Pending?
  {
    if v.Completed? then Ok(v.video) else Thrown(v.error)
  }

  /** The polling loop from attempt `i` on: the outcome and the number of
      status queries made, one at least and never more than the attempts
      left; a video it resolves to is an object with a `url` key. */
  function PollFrom(poll: nat -> Reply, i: nat): (r: (Outcome<Value>, nat))
    requires i <= MAX_ATTEMPTS
    decreases MAX_ATTEMPTS - i
    ensures r.1 <= MAX_ATTEMPTS - i
    ensures i < MAX_ATTEMPTS ==> 1 <= r.1
    ensures r.0.Ok? ==> r.0.value.Obj? && "url" in r.0.value.fields
  {
    if i == MAX_ATTEMPTS then (Thrown(Error(GENERATION_TIMEOUT)), 0)
    else
      var v := Classify(poll(i));
      if !v.Pending? then (Settle(v), 1)
      else
        var rest := PollFrom(poll, i + 1);
        (rest.0, rest.1 + 1)
  }

  /** When every remaining query is pending, polling times out after using
      all the remaining attempts. */
  lemma {:induction false} PollTimesOut(poll: nat -> Reply, i: nat)
    requires i <= MAX_ATTEMPTS
    requires forall j :: i <= j < MAX_ATTEMPTS ==> Classify(poll(j)).Pending?
    ensures PollFrom(poll, i) == (Thrown(Error(GENERATION_TIMEOUT)), MAX_ATTEMPTS - i)
    decreases MAX_ATTEMPTS - i
  {
    if i < MAX_ATTEMPTS {
      PollTimesOut(poll, i + 1);
    }
  }

  /** The first decisive verdict, at attempt `k`, settles polling after
      exactly the queries up to and including it. */
  lemma {:induction false} PollSettlesAtFirstDecisive(poll: nat -> Reply, i: nat, k: nat)
    requires i <= k < MAX_ATTEMPTS
    requires !Classify(poll(k)).Pending?
    requires forall j :: i <= j < k ==> Classify(poll(j)).Pending?
    ensures PollFrom(poll, i) == (Settle(Classify(poll(k))), k - i + 1)
    decreases k - i
  {
    if i < k {
      PollSettlesAtFirstDecisive(poll, i + 1, k);
    }
  }

  /** What the task submission gives: a video right away, a task id to poll,
      or an error. */
  datatype Submission = Immediate(video: Value) | Task(id: Value) | Rejected(error: JsError)

  /** The submission step: a rejected call or a `null`/`undefined` task
      throws; a synchronous model, or a task that already carries a URL,
      resolves at once; otherwise the task needs a truthy `id`, `task_id` or
      `taskId`. */
  function Submit(config: Option<Record>, submit: Reply): (s: Submission)
    ensures submit.Fails? ==> s == Rejected(submit.error)
    ensures submit.Answer? && Nullish(submit.value) ==> s == Rejected(NullAccess)
    ensures submit.Answer? && !Nullish(submit.value) ==>
              var task := submit.value;
              && (s.Immediate? <==> !IsAsync(config) || Truthy(Prop(Prop(task, "data"), "url")) || Truthy(Prop(task, "url")))
              && (s.Immediate? ==> s.video.Obj? && "url" in s.video.fields
                                   && forall key :: key != "url" ==> Field(s.video.fields, key) == Prop(task, key))
              && (s.Immediate? && "url" in Spread(task) ==> s.video.fields["url"] == Prop(task, "url"))
              && (s.Immediate? && "url" !in Spread(task) ==>
                    s.video.fields["url"] == Or(Prop(Prop(task, "data"), "url"), Prop(First(Prop(task, "data")), "url")))
              && (s.Task? ==> Truthy(s.id) && s.id in {Prop(task, "id"), Prop(task, "task_id"), Prop(task, "taskId")})
              && (s.Task? && Truthy(Prop(task, "id")) ==> s.id == Prop(task, "id"))
              && (s.Task? && !Truthy(Prop(task, "id")) && Truthy(Prop(task, "task_id")) ==> s.id == Prop(task, "task_id"))
              && (s.Task? && !Truthy(Prop(task, "id")) && !Truthy(Prop(task, "task_id")) ==> s.id == Prop(task, "taskId"))
              && (s.Rejected? ==> s.error == Error(NO_TASK_ID))
  {
    match submit
    case Fails(e) => Rejected(e)
    case Answer(task) =>
      if Nullish(task) then Rejected(NullAccess)
      else
        var data := Prop(task, "data");
        if !IsAsync(config) || Truthy(Prop(data, "url")) || Truthy(Prop(task, "url")) then
          Immediate(WithUrl(Or(Or(Prop(data, "url"), Prop(task, "url")), Prop(First(data), "url")), task))
        else
          var id := Or(Or(Prop(task, "id"), Prop(task, "task_id")), Prop(task, "taskId"));
          if Truthy(id) then Task(id) else Rejected(Error(NO_TASK_ID))
  }

  /** A whole generation: its outcome, the task id recorded (`Null` when
      none), and how many status queries it made. */
  datatype VideoRun = VideoRun(outcome: Outcome<Value>, taskId: Value, queries: nat)

  /** The run that follows a submission: nothing more to do unless it gave
      a task, which is then polled. */
  function RunAfter(s: Submission, poll: nat -> Reply): (r: VideoRun)
    ensures r.queries <= MAX_ATTEMPTS
    ensures r.queries == 0 <==> !s.Task?
    ensures s.Immediate? ==> r.outcome == Ok(s.video) && r.taskId == Null
    ensures s.Rejected? ==> r.outcome == Thrown(s.error) && r.taskId == Null
    ensures s.Task? ==> r.taskId == s.id && (r.outcome, r.queries) == PollFrom(poll, 0)
  {
    match s
    case Immediate(video) => VideoRun(Ok(video), Null, 0)
    case Rejected(e) => VideoRun(Thrown(e), Null, 0)
    case Task(id) =>
      var (outcome, queries) := PollFrom(poll, 0);
      VideoRun(outcome, id, queries)
  }

  /** A whole generation: at most 120 status queries, none unless the
      submission gave a task to poll, and a resolved video is always an
      object with a `url` key. */
  function RunVideo(params: Record, submit: Reply, poll: nat -> Reply): (r: VideoRun)
    ensures r.queries <= MAX_ATTEMPTS
    ensures r.queries == 0 <==> !Submit(GetModelByName(Field(params, "model")), submit).Task?
    ensures r.outcome.Ok? ==> r.outcome.value.Obj? && "url" in r.outcome.value.fields
  {
    RunAfter(Submit(GetModelByName(Field(params, "model")), submit), poll)
  }

  /** A task whose every status query stays pending times out after
      120 queries. */
  lemma VideoTimesOut(params: Record, submit: Reply, poll: nat -> Reply)
    requires Submit(GetModelByName(Field(params, "model")), submit).Task?
    requires forall j :: 0 <= j < MAX_ATTEMPTS ==> Classify(poll(j)).Pending?
    ensures RunVideo(params, submit, poll).outcome == Thrown(Error(GENERATION_TIMEOUT))
    ensures RunVideo(params, submit, poll).queries == MAX_ATTEMPTS
  {
    PollTimesOut(poll, 0);
  }

  /** A task whose first decisive status is at attempt `k` settles with that
      verdict after `k + 1` queries. */
  lemma VideoSettlesAtFirstDecisive(params: Record, submit: Reply, poll: nat -> Reply, k: nat)
    requires Submit(GetModelByName(Field(params, "model")), submit).Task?
    requires k < MAX_ATTEMPTS && !Classify(poll(k)).Pending?
    requires forall j :: 0 <= j < k ==> Classify(poll(j)).Pending?
    ensures RunVideo(params, submit, poll).outcome == Settle(Classify(poll(k)))
    ensures RunVideo(params, submit, poll).queries == k + 1
  {
    PollSettlesAtFirstDecisive(poll, 0, k);
  }

  class VideoGeneration {
    const life: ApiState
    /** The resolved video, `Null` until there is one. */
    var video: Value
    var taskId: Value
    var attempt: nat
    var percentage: nat

    constructor ()
      ensures fresh(life) && life.Coherent() && life.status == Idle
      ensures video == Null && taskId == Null && attempt == 0 && percentage == 0
    {
      life := new ApiState();
      video := Null;
      taskId := Null;
      attempt := 0;
      percentage := 0;
    }

    /** `generate(params)`.  The progress shows the number of queries made
        and the rounded share of the attempts used before the last one; it
        jumps to 100 only when a query reports completion, and stays 0 when
        the video came back with the submission. */
    method Generate(params: Record, submit: Reply, poll: nat -> Reply) returns (r: Outcome<Value>, request: VideoRequest, queries: nat)
      modifies this, life
      ensures request == BuildVideoRequest(params)
      ensures var run := RunVideo(params, submit, poll);
              r == run.outcome && queries == run.queries && taskId == run.taskId
      ensures attempt == queries
      ensures percentage == if queries == 0 then 0 else if r.Ok? then 100 else Percentage(queries - 1)
      ensures life.Coherent()
      ensures r.Ok? ==> video == r.value && life.status == Success && !life.loading && life.error == None
      ensures r.Thrown? ==> video == Null && life.status == Failed && !life.loading && life.error == Some(r.error)
    {
      life.SetLoading(true);
      video := Null;
      taskId := Null;
      attempt := 0;
      percentage := 0;
      queries := 0;
      var config := GetModelByName(Field(params, "model"));
      var s := Submit(config, submit);
      r, queries := Complete(s, poll);
      request := BuildVideoRequest(params);
    }

    /** What `generate` does once the submission has settled. */
    method Complete(s: Submission, poll: nat -> Reply) returns (r: Outcome<Value>, queries: nat)
      modifies this`video, this`taskId, this`attempt, this`percentage, life
      ensures var run := RunAfter(s, poll);
              r == run.outcome && queries == run.queries
      ensures taskId == if s.Task? then s.id else old(taskId)
      ensures attempt == if queries == 0 then old(attempt) else queries
      ensures percentage == if queries == 0 then old(percentage) else if r.Ok? then 100 else Percentage(queries - 1)
      ensures life.Coherent()
      ensures r.Ok? ==> video == r.value && life.status == Success && !life.loading && life.error == None
      ensures r.Thrown? ==> video == old(video) && life.status == Failed && !life.loading && life.error == Some(r.error)
    {
      match s {
        case Immediate(found) =>
          video := found;
          life.SetSuccess();
          r, queries := Ok(found), 0;
        case Rejected(e) =>
          life.SetError(e);
          r, queries := Thrown(e), 0;
        case Task(id) =>
          taskId := id;
          life.Enter(Polling);
          r, queries := PollTask(poll);
      }
    }

    /** The polling loop of `generate` once the task id is recorded: at most
        120 status queries, the progress updated before each. */
    method PollTask(poll: nat -> Reply) returns (r: Outcome<Value>, queries: nat)
      modifies this`attempt, this`percentage, this`video, life
      ensures (r, queries) == PollFrom(poll, 0)
      ensures attempt == queries
      ensures percentage == if r.Ok? then 100 else Percentage(queries - 1)
      ensures life.Coherent()
      ensures r.Ok? ==> video == r.value && life.status == Success && !life.loading && life.error == None
      ensures r.Thrown? ==> video == old(video) && life.status == Failed && !life.loading && life.error == Some(r.error)
    {
      var i := 0;
      while i < MAX_ATTEMPTS
        invariant 0 <= i <= MAX_ATTEMPTS
        invariant forall j :: 0 <= j < i ==> Classify(poll(j)).Pending?
        invariant attempt == (if i == 0 then old(attempt) else i)
        invariant i > 0 ==> percentage == Percentage(i - 1)
        invariant video == old(video)
      {
        attempt := i + 1;
        percentage := Percentage(i);
        var v := Classify(poll(i));
        if !v.Pending? {
          PollSettlesAtFirstDecisive(poll, 0, i);
        }
        match v {
          case Completed(found) =>
            percentage := 100;
            video := found;
            life.SetSuccess();
            return Ok(found), i + 1;
          case Errored(e) =>
            life.SetError(e);
            return Thrown(e), i + 1;
          case Pending =>
        }
        i := i + 1;
      }
      PollTimesOut(poll, 0);
      r := Thrown(Error(GENERATION_TIMEOUT));
      queries := MAX_ATTEMPTS;
      life.SetError(r.error);
    }
  }
}
