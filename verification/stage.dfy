/** The stage controller (exec/stage.py): starting the fetch and upload
    stages, and the completion callback that decides what happens after a
    stage's future finishes. */
module StageController {

  import opened Py
  import opened Values
  import opened JobModel
  import opened Futures
  import FetchAdapter
  import Uploader

  /** `job_begin_fetch(job, profile)`: submit the fetch task with a
      completion callback tagged "fetching"; the job itself is untouched. */
  function JobBeginFetch(job: Job, profileOptions: Json): (r: Step)
    ensures r.job == job
    ensures r.effects == [Submit(FetchUrlTask(profileOptions), StageFetching)]
  {
    Step(job, [Submit(FetchUrlTask(profileOptions), StageFetching)])
  }

  /** `job_begin_upload(job)`: mark the job "uploading" and save it, and
      only then submit the upload task with a callback tagged "uploading". */
  function JobBeginUpload(job: Job): (r: Step)
    ensures r.job == job.(status := Uploading)
    ensures r.effects == [Save(r.job), Submit(UploadFileTask, StageUploading)]
  {
    var uploading := job.(status := Uploading);
    Step(uploading, [Save(uploading), Submit(UploadFileTask, StageUploading)])
  }

  /** `job_stage_callback(job, stage, fut)`. A raised or cancelled future
      makes the callback raise before meta or status is touched. Otherwise
      the future's value is merged under meta `result` and the job saved;
      then a fetch stage with a `destinations` key (whatever its value)
      begins the upload, a fetch stage without one stops there with the
      status unchanged, and an upload stage marks the job "completed". */
  function JobStageCallback(job: Job, stage: Stage, fut: Outcome<Json>): (r: Result<Step>)
    ensures fut.Raised? ==> r == Failure(fut.exc)
    ensures fut.Cancelled? ==> r == Failure(CancelledError)
    ensures fut.Ok? ==> r.Success?
    ensures r.Success? ==>
              && r.value.job.id == job.id && r.value.job.createdAt == job.createdAt
              && r.value.job.meta == job.meta["result" := fut.value]
              && |r.value.effects| >= 1
              && r.value.effects[0] == Save(MetaUpdate(job, Single("result", fut.value)))
    ensures r.Success? && stage == StageFetching && "destinations" in job.meta ==>
              && r.value.job.status == Uploading
              && r.value.effects == [Save(MetaUpdate(job, Single("result", fut.value))),
                                     Save(r.value.job), Submit(UploadFileTask, StageUploading)]
    ensures r.Success? && stage == StageFetching && "destinations" !in job.meta ==>
              && r.value.job.status == job.status
              && r.value.effects == [Save(r.value.job)]
    ensures r.Success? && stage == StageUploading ==>
              && r.value.job.status == Completed
              && r.value.effects == [Save(MetaUpdate(job, Single("result", fut.value))), Save(r.value.job)]
  {
    var exc :- fut.Exception();
    if exc.Some? then Failure(exc.value)
    else
      var value := fut.Result().value;
      var merged := MetaUpdate(job, Single("result", value));
      match stage
      case StageFetching =>
        if "destinations" in merged.meta then
          var upload := JobBeginUpload(merged);
          Success(Step(upload.job, [Save(merged)] + upload.effects))
        else Success(Step(merged, [Save(merged)]))
      case StageUploading =>
        var completed := merged.(status := Completed);
        Success(Step(completed, [Save(merged), Save(completed)]))
  }

  /** The upload tasks `upload_file` will submit for this metadata. */
  function PlannedUploads(meta: Meta): seq<Uploader.UploadTask> {
    Uploader.UploadFile(meta, _ => Cancelled).submitted
  }

  /** The foreign side of uploading: which destination names are
      registered, and how the copy of the i-th submitted task ends. */
  datatype UploadWorld = UploadWorld(registered: set<string>, copyError: nat -> Option<Exc>)

  /** How the i-th submitted destination task's future finishes. */
  function WorldOutcome(meta: Meta, world: UploadWorld): nat -> Outcome<Json> {
    var tasks := PlannedUploads(meta);
    (i: nat) => if i < |tasks|
         then FromResult(Uploader.UploadToDestinationTask(tasks[i], world.registered, world.copyError(i)))
         else Cancelled
  }

  /** The upload task's future: the returned map as a dict value, or what
      `upload_file` raised. */
  function UploadTaskOutcome(fan: Uploader.Fanout): (f: Outcome<Json>)
    ensures f.Ok? <==> fan.result.Success?
    ensures f.Ok? ==> f.value == JObj(fan.result.value)
    ensures fan.result.Failure? ==> f == Raised(fan.result.exc)
  {
    match fan.result
    case Success(m) => Ok(JObj(m))
    case Failure(e) => Raised(e)
  }

  /** The upload task `job_begin_upload` submitted, run against the
      world, followed by its completion callback. */
  function UploadStage(job: Job, world: UploadWorld): Result<Step> {
    var fan := Uploader.UploadFile(job.meta, WorldOutcome(job.meta, world));
    JobStageCallback(job, StageUploading, UploadTaskOutcome(fan))
  }

  /** A whole run of one job: what happened to it and, if a callback
      raised on a worker thread, what escaped. */
  datatype Trace = Trace(job: Job, effects: seq<Effect>, escaped: Option<Exc>)

  /** `job_begin_fetch`, the fetch task, its callback, and — when the
      callback began the upload — the upload task and its callback. */
  function Pipeline(job: Job, profileOptions: Json, script: FetchAdapter.EngineScript, world: UploadWorld): (t: Trace)
    ensures t.job.id == job.id && t.job.createdAt == job.createdAt
  {
    var begin := JobBeginFetch(job, profileOptions);
    var fetch := FetchAdapter.FetchTask(job, profileOptions, script);
    var soFar := begin.effects + fetch.effects;
    match JobStageCallback(fetch.job, StageFetching, fetch.outcome)
    case Failure(e) => Trace(fetch.job, soFar, Some(e))
    case Success(afterFetch) =>
      if "destinations" !in fetch.job.meta then Trace(afterFetch.job, soFar + afterFetch.effects, None)
      else
        match UploadStage(afterFetch.job, world)
        case Failure(e) => Trace(afterFetch.job, soFar + afterFetch.effects, Some(e))
        case Success(afterUpload) => Trace(afterUpload.job, soFar + afterFetch.effects + afterUpload.effects, None)
  }

  /** What `upload_to_destination` returns when it completes. */
  const UploadSucceeded: Json := JObj(Single("success", JBool(true)))

  /** A `destinations` value that is a list of names. */
  predicate NameList(j: Json) {
    j.JArr? && forall i :: 0 <= i < |j.items| ==> j.items[i].JStr?
  }

  /** The set of names in a name list. */
  function ListedNames(j: Json): set<string>
    requires NameList(j)
  {
    set i | 0 <= i < |j.items| :: j.items[i].s
  }

  /** The upload stage on a job whose filename is in place: when every
      destination is registered and every copy succeeds, the job ends
      "completed" with meta `result` mapping exactly the destination names
      to `{'result': {'success': True}}`. */
  lemma UploadStageDelivers(job: Job, world: UploadWorld)
    requires Uploader.LocalFilename(job.meta).Success?
    requires "destinations" in job.meta && NameList(job.meta["destinations"])
    requires ListedNames(job.meta["destinations"]) <= world.registered
    requires forall i: nat :: world.copyError(i) == None
    ensures UploadStage(job, world).Success?
    ensures UploadStage(job, world).value.job.status == Completed
    ensures var result := UploadStage(job, world).value.job.meta["result"];
            && result.JObj?
            && result.fields.Keys == ListedNames(job.meta["destinations"])
            && forall n :: n in result.fields ==> result.fields[n] == JObj(Single("result", UploadSucceeded))
  {
    var items := job.meta["destinations"].items;
    var names := Uploader.DestinationNames(job.meta).value;
    assert |names| == |items| && forall i :: 0 <= i < |names| ==> names[i] == items[i].s;
    var outcome := WorldOutcome(job.meta, world);
    var tasks := PlannedUploads(job.meta);
    forall i | 0 <= i < |names|
      ensures outcome(i) == Ok(UploadSucceeded)
    {
      assert tasks[i].dest == names[i];
      assert names[i] in ListedNames(job.meta["destinations"]);
      assert world.copyError(i) == None;
    }
    Uploader.UniformSuccess(job.meta, outcome, UploadSucceeded);
    assert Uploader.NameSet(names) == ListedNames(job.meta["destinations"]) by {
      forall n | n in Uploader.NameSet(names)
        ensures n in ListedNames(job.meta["destinations"])
      {
        var i :| 0 <= i < |names| && names[i] == n;
      }
    }
  }

  /** The fetch stage with a downloaded file: the callback begins the
      upload, and the job it hands on keeps `destinations` and carries the
      engine's `filepath` as the local filename. */
  lemma FetchStageHandsOn(job: Job, profileOptions: Json, script: FetchAdapter.EngineScript)
    requires profileOptions.JObj? && "url" in job.meta && "destinations" in job.meta
    requires FetchAdapter.StringStatuses(script.events)
    requires script.end.Downloaded? && FetchAdapter.FilterInfo(script.end.raw).Success?
    requires "filepath" in script.end.raw && Truthy(script.end.raw["filepath"])
    ensures var fetch := FetchAdapter.FetchTask(job, profileOptions, script);
            && fetch.outcome.Ok?
            && "destinations" in fetch.job.meta
            && JobStageCallback(fetch.job, StageFetching, fetch.outcome).Success?
            && var handed := JobStageCallback(fetch.job, StageFetching, fetch.outcome).value.job;
               && handed.status == Uploading
               && "destinations" in handed.meta && handed.meta["destinations"] == job.meta["destinations"]
               && Uploader.LocalFilename(handed.meta) == Success(script.end.raw["filepath"])
  {
    var fetch := FetchAdapter.FetchTask(job, profileOptions, script);
    var handed := JobStageCallback(fetch.job, StageFetching, fetch.outcome).value.job;
    assert handed.meta["info"] == fetch.job.meta["info"];
    FilenameFromInfo(handed.meta, script.end.raw);
  }

  /** Meta whose `info` is the normalised document of the engine's dict
      yields the engine's `filepath` as the local filename. */
  lemma FilenameFromInfo(meta: Meta, raw: Object)
    requires FetchAdapter.FilterInfo(raw).Success?
    requires "info" in meta && meta["info"] == FetchAdapter.FilterInfo(raw).value
    requires "filepath" in raw && Truthy(raw["filepath"])
    ensures Uploader.LocalFilename(meta) == Success(raw["filepath"])
  {
    var doc := FetchAdapter.FilterInfo(raw).value;
    var downloaded := FetchAdapter.DownloadedGroup(raw);
    assert doc.fields["downloaded"] == JObj(downloaded);
    assert downloaded["filename"] == raw["filepath"];
    assert Uploader.FilenameAt(meta) == Some(raw["filepath"]);
  }

  /** The end-to-end run with destinations: when the fetch succeeds with a
      downloaded file, every destination is registered and every copy
      succeeds, nothing escapes and the job ends "completed" with meta
      `result` mapping exactly the destination names to
      `{'result': {'success': True}}` — the fetch stage's value under the
      same key is overwritten. */
  lemma PipelineDeliversEverywhere(job: Job, profileOptions: Json, script: FetchAdapter.EngineScript, world: UploadWorld)
    requires profileOptions.JObj? && "url" in job.meta
    requires "destinations" in job.meta && NameList(job.meta["destinations"])
    requires FetchAdapter.StringStatuses(script.events)
    requires script.end.Downloaded? && FetchAdapter.FilterInfo(script.end.raw).Success?
    requires "filepath" in script.end.raw && Truthy(script.end.raw["filepath"])
    requires ListedNames(job.meta["destinations"]) <= world.registered
    requires forall i: nat :: world.copyError(i) == None
    ensures var t := Pipeline(job, profileOptions, script, world);
            && t.escaped == None
            && t.job.status == Completed
            && "result" in t.job.meta && t.job.meta["result"].JObj?
            && t.job.meta["result"].fields.Keys == ListedNames(job.meta["destinations"])
            && forall n :: n in t.job.meta["result"].fields ==>
                 t.job.meta["result"].fields[n] == JObj(Single("result", UploadSucceeded))
  {
    FetchStageHandsOn(job, profileOptions, script);
    var fetch := FetchAdapter.FetchTask(job, profileOptions, script);
    var handed := JobStageCallback(fetch.job, StageFetching, fetch.outcome).value.job;
    UploadStageDelivers(handed, world);
  }

  /** No upload task was ever submitted. */
  predicate NoUploadSubmitted(effects: seq<Effect>) {
    forall i :: 0 <= i < |effects| ==> effects[i] != Submit(UploadFileTask, StageUploading)
  }

  /** Without a `destinations` key, once the fetch succeeds with a
      downloaded file, the run stops after the fetch callback:
      no upload is submitted, nothing marks the job "completed" (its status
      stays the post-processor's "finished"), and meta `result` holds the
      engine's return code. */
  lemma PipelineWithoutDestinations(job: Job, profileOptions: Json, script: FetchAdapter.EngineScript, world: UploadWorld)
    requires profileOptions.JObj? && "url" in job.meta && "destinations" !in job.meta
    requires FetchAdapter.StringStatuses(script.events)
    requires script.end.Downloaded? && FetchAdapter.FilterInfo(script.end.raw).Success?
    ensures var t := Pipeline(job, profileOptions, script, world);
            && t.escaped == None
            && t.job.status == Finished
            && "result" in t.job.meta && t.job.meta["result"] == script.end.retcode
            && NoUploadSubmitted(t.effects)
  {
    FetchCallbackStops(job, profileOptions, script);
    StopsWithoutDestinations(job, profileOptions, script, world);
  }

  /** The same conclusion from a successful fetch outcome, whatever made
      it succeed. */
  lemma StopsWithoutDestinations(job: Job, profileOptions: Json, script: FetchAdapter.EngineScript, world: UploadWorld)
    requires "destinations" !in job.meta && script.end.Downloaded?
    requires FetchAdapter.FetchTask(job, profileOptions, script).outcome.Ok?
    ensures var t := Pipeline(job, profileOptions, script, world);
            && t.escaped == None
            && t.job.status == Finished
            && "result" in t.job.meta && t.job.meta["result"] == script.end.retcode
            && NoUploadSubmitted(t.effects)
  {
    var begin := JobBeginFetch(job, profileOptions);
    var fetch := FetchAdapter.FetchTask(job, profileOptions, script);
    FetchCallbackStops(job, profileOptions, script);
    var after := JobStageCallback(fetch.job, StageFetching, fetch.outcome).value;
    PipelineStopsAfterFetch(job, profileOptions, script, world);
    NoUploadSubmittedConcat(begin.effects, fetch.effects, after.effects);
  }

  /** A run whose fetch callback succeeds on a job without destinations
      ends with that callback. */
  lemma PipelineStopsAfterFetch(job: Job, profileOptions: Json, script: FetchAdapter.EngineScript, world: UploadWorld)
    requires "destinations" !in FetchAdapter.FetchTask(job, profileOptions, script).job.meta
    requires FetchAdapter.FetchTask(job, profileOptions, script).outcome.Ok?
    ensures var fetch := FetchAdapter.FetchTask(job, profileOptions, script);
            var after := JobStageCallback(fetch.job, StageFetching, fetch.outcome).value;
            Pipeline(job, profileOptions, script, world)
              == Trace(after.job, JobBeginFetch(job, profileOptions).effects + fetch.effects + after.effects, None)
  {
  }

  /** The fetch callback of a job without destinations only saves. */
  lemma FetchCallbackStops(job: Job, profileOptions: Json, script: FetchAdapter.EngineScript)
    requires "destinations" !in job.meta && script.end.Downloaded?
    requires FetchAdapter.FetchTask(job, profileOptions, script).outcome.Ok?
    ensures var fetch := FetchAdapter.FetchTask(job, profileOptions, script);
            var cb := JobStageCallback(fetch.job, StageFetching, fetch.outcome);
            && "destinations" !in fetch.job.meta
            && cb.Success? && cb.value.effects == [Save(cb.value.job)]
            && cb.value.job.status == Finished
            && "result" in cb.value.job.meta && cb.value.job.meta["result"] == script.end.retcode
  {
  }

  /** Concatenating effect lists without an upload submission. */
  lemma NoUploadSubmittedConcat(a: seq<Effect>, b: seq<Effect>, c: seq<Effect>)
    requires NoUploadSubmitted(a)
    requires forall i :: 0 <= i < |b| ==> b[i].Save?
    requires forall i :: 0 <= i < |c| ==> c[i].Save?
    ensures NoUploadSubmitted(a + b + c)
  {
    forall i | 0 <= i < |a + b + c|
      ensures (a + b + c)[i] != Submit(UploadFileTask, StageUploading)
    {
      if i < |a| {
        assert (a + b + c)[i] == a[i];
      } else if i < |a| + |b| {
        assert (a + b + c)[i] == b[i - |a|];
      } else {
        assert (a + b + c)[i] == c[i - |a| - |b|];
      }
    }
  }

  /** A fetch whose engine returned without handing over an info dict
      completes with the return code, leaves the job as the progress hooks
      left it, and stores no `info`. */
  lemma ReturnedFetch(job: Job, profileOptions: Json, script: FetchAdapter.EngineScript)
    requires profileOptions.JObj? && "url" in job.meta && "info" !in job.meta
    requires FetchAdapter.StringStatuses(script.events) && script.end.Returned?
    ensures var fetch := FetchAdapter.FetchTask(job, profileOptions, script);
            && fetch.outcome == Ok(script.end.retcode)
            && fetch.job == FetchAdapter.RunHooks(job, script.events).job
            && "info" !in fetch.job.meta
            && ("destinations" in fetch.job.meta <==> "destinations" in job.meta)
  {
  }

  /** With destinations, a fetch that never ran the post-processor still
      begins the upload; `upload_file` then finds no filename and raises
      TypeError, which escapes, and the job is left "uploading" with the
      engine's return code as its `result`. */
  lemma ReturnedFetchStrandsUpload(job: Job, profileOptions: Json, script: FetchAdapter.EngineScript, world: UploadWorld)
    requires profileOptions.JObj? && "url" in job.meta && "info" !in job.meta && "destinations" in job.meta
    requires FetchAdapter.StringStatuses(script.events) && script.end.Returned?
    ensures var t := Pipeline(job, profileOptions, script, world);
            && t.escaped == Some(Uploader.NoFilename)
            && t.job.status == Uploading
            && "result" in t.job.meta && t.job.meta["result"] == script.end.retcode
  {
    ReturnedFetch(job, profileOptions, script);
    var fetch := FetchAdapter.FetchTask(job, profileOptions, script);
    var cb := JobStageCallback(fetch.job, StageFetching, fetch.outcome).value;
    assert "info" !in cb.job.meta;
    assert Uploader.FilenameAt(cb.job.meta) == Some(JNull);
    assert UploadStage(cb.job, world) == Failure(Uploader.NoFilename);
  }

  /** Without destinations, a fetch that never ran the post-processor ends
      the run with nothing escaping, no `info`, the status the progress
      hooks left (the job's own status when there were no events), and the
      return code as `result`. */
  lemma ReturnedFetchWithoutDestinations(job: Job, profileOptions: Json, script: FetchAdapter.EngineScript, world: UploadWorld)
    requires profileOptions.JObj? && "url" in job.meta && "info" !in job.meta && "destinations" !in job.meta
    requires FetchAdapter.StringStatuses(script.events) && script.end.Returned?
    ensures var t := Pipeline(job, profileOptions, script, world);
            && t.escaped == None
            && t.job.status == FetchAdapter.RunHooks(job, script.events).job.status
            && (script.events == [] ==> t.job.status == job.status)
            && "info" !in t.job.meta
            && "result" in t.job.meta && t.job.meta["result"] == script.end.retcode
  {
    ReturnedFetch(job, profileOptions, script);
  }

  /** A fetch that raised makes the fetch callback re-raise on the worker
      thread: nothing is uploaded and the job is left as the fetch task
      left it, never "completed". */
  lemma FailedFetchEscapes(job: Job, profileOptions: Json, script: FetchAdapter.EngineScript, world: UploadWorld)
    requires FetchAdapter.FetchTask(job, profileOptions, script).outcome.Raised?
    ensures var t := Pipeline(job, profileOptions, script, world);
            && t.escaped == Some(FetchAdapter.FetchTask(job, profileOptions, script).outcome.exc)
            && t.job == FetchAdapter.FetchTask(job, profileOptions, script).job
            && NoUploadSubmitted(t.effects)
  {
    var begin := JobBeginFetch(job, profileOptions);
    var fetch := FetchAdapter.FetchTask(job, profileOptions, script);
    assert Pipeline(job, profileOptions, script, world) == Trace(fetch.job, begin.effects + fetch.effects, Some(fetch.outcome.exc));
    NoUploadSubmittedConcat(begin.effects, fetch.effects, []);
    assert begin.effects + fetch.effects + [] == begin.effects + fetch.effects;
  }

  /** One unregistered destination makes `upload_file` raise instead of
      returning a map, so the upload callback re-raises: the failure escapes,
      and the job stays "uploading" with the fetch stage's `result`. */
  lemma UnregisteredDestinationEscapes(job: Job, profileOptions: Json, script: FetchAdapter.EngineScript, world: UploadWorld)
    requires profileOptions.JObj? && "url" in job.meta
    requires "destinations" in job.meta && NameList(job.meta["destinations"])
    requires FetchAdapter.StringStatuses(script.events)
    requires script.end.Downloaded? && FetchAdapter.FilterInfo(script.end.raw).Success?
    requires "filepath" in script.end.raw && Truthy(script.end.raw["filepath"])
    requires !(ListedNames(job.meta["destinations"]) <= world.registered)
    ensures var t := Pipeline(job, profileOptions, script, world);
            && t.escaped.Some?
            && t.job.status == Uploading
            && t.job.meta["result"] == script.end.retcode
  {
    FetchStageHandsOn(job, profileOptions, script);
    var fetch := FetchAdapter.FetchTask(job, profileOptions, script);
    var cb := JobStageCallback(fetch.job, StageFetching, fetch.outcome).value;
    UploadStageFails(cb.job, world);
    assert cb.job.meta["result"] == script.end.retcode;
  }

  /** The upload stage on a job with a destination outside the registry
      raises. */
  lemma UploadStageFails(job: Job, world: UploadWorld)
    requires Uploader.LocalFilename(job.meta).Success?
    requires "destinations" in job.meta && NameList(job.meta["destinations"])
    requires !(ListedNames(job.meta["destinations"]) <= world.registered)
    ensures UploadStage(job, world).Failure?
  {
    var items := job.meta["destinations"].items;
    var names := Uploader.DestinationNames(job.meta).value;
    assert |names| == |items| && forall i :: 0 <= i < |names| ==> names[i] == items[i].s;
    var n :| n in ListedNames(job.meta["destinations"]) && n !in world.registered;
    var i :| 0 <= i < |items| && items[i].s == n;
    var tasks := PlannedUploads(job.meta);
    assert i < |tasks| && tasks[i].dest == n;
    var outcome := WorldOutcome(job.meta, world);
    assert Uploader.UploadToDestinationTask(tasks[i], world.registered, world.copyError(i)).Failure?;
    assert outcome(i) == FromResult(Uploader.UploadToDestinationTask(tasks[i], world.registered, world.copyError(i)));
    Uploader.UploadFileResult(job.meta, outcome);
  }
}
