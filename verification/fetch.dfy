/** The fetch adapter (exec/youtubedl.py): the progress hook, the
    post-processor that normalises the engine's info dict, the option
    merge in `fetch_url`, and the fetch task as a whole. The engine itself
    is foreign: a run of it is given as an `EngineScript`. */
module FetchAdapter {

  import opened Py
  import opened Values
  import opened JobModel
  import Futures

  /** The job status a progress-event status becomes: the engine's
      "finished" means the bytes are down and post-processing is pending. */
  function HookStatus(eventStatus: string): (s: string)
    ensures s != Finished
    ensures eventStatus == Finished ==> s == Processing
    ensures eventStatus != Finished ==> s == eventStatus
  {
    if eventStatus == Finished then Processing else eventStatus
  }

  /** `_progress_hook(job, info)`. Missing `status` raises KeyError. If the
      job's status already equals the event's, nothing happens. Otherwise
      the status is set (with "finished" remapped), the whole event is
      stored under meta `extractor`, and the job is saved once. The engine
      reports statuses as strings; any other value is refused here. */
  function ProgressHook(job: Job, info: Object): (r: Result<Step>)
    ensures "status" !in info ==> r == Failure(KeyError("status"))
    ensures "status" in info && !info["status"].JStr? ==> r.Failure?
    ensures "status" in info && info["status"] == JStr(job.status) ==> r == Success(Step(job, []))
    ensures r.Success? && r.value.job != job ==>
              && "status" in info && info["status"].JStr?
              && info["status"].s != job.status
    ensures "status" in info && info["status"].JStr? && info["status"].s != job.status ==>
              && r.Success?
              && r.value.job.id == job.id && r.value.job.createdAt == job.createdAt
              && r.value.job.status == (if info["status"].s == Finished then Processing else info["status"].s)
              && r.value.job.meta.Keys == job.meta.Keys + {"extractor"}
              && r.value.job.meta["extractor"] == JObj(info)
              && (forall k :: k in job.meta && k != "extractor" ==> r.value.job.meta[k] == job.meta[k])
              && r.value.effects == [Save(r.value.job)]
  {
    if "status" !in info then Failure(KeyError("status"))
    else match info["status"]
      case JStr(s) =>
        if job.status == s then Success(Step(job, []))
        else
          var changed := MetaUpdate(job.(status := HookStatus(s)), Single("extractor", JObj(info)));
          Success(Step(changed, [Save(changed)]))
      case _ => Failure(TypeError("progress status is not a string"))
  }

  /** The statuses of the snapshots saved by a run of effects, in order. */
  function SavedStatuses(effects: seq<Effect>): seq<string> {
    if effects == [] then []
    else (if effects[0].Save? then [effects[0].snapshot.status] else []) + SavedStatuses(effects[1..])
  }

  lemma {:induction false} SavedStatusesAppend(a: seq<Effect>, b: seq<Effect>)
    ensures SavedStatuses(a + b) == SavedStatuses(a) + SavedStatuses(b)
  {
    if a == [] {
      assert a + b == b;
    } else {
      var head := if a[0].Save? then [a[0].snapshot.status] else [];
      assert (a + b)[0] == a[0];
      assert (a + b)[1..] == a[1..] + b;
      assert SavedStatuses(a + b) == head + SavedStatuses(a[1..] + b);
      SavedStatusesAppend(a[1..], b);
      assert SavedStatuses(a) == head + SavedStatuses(a[1..]);
    }
  }

  /** What a task did to the shared job object before it returned or
      raised, and how its future completed. */
  datatype TaskRun = TaskRun(job: Job, effects: seq<Effect>, outcome: Futures.Outcome<Json>)

  /** Every event reports its status as a string, as the engine does. */
  predicate StringStatuses(events: seq<Object>) {
    forall i :: 0 <= i < |events| ==> "status" in events[i] && events[i]["status"].JStr?
  }

  /** The engine calling the progress hook once per event, in order; the
      first hook that raises ends the run. Hooks touch no meta key but
      `extractor`. */
  function RunHooks(job: Job, events: seq<Object>): (r: TaskRun)
    ensures r.outcome.Ok? || r.outcome.Raised?
    ensures StringStatuses(events) ==> r.outcome.Ok?
    ensures r.job.id == job.id && r.job.createdAt == job.createdAt
    ensures forall k :: k != "extractor" ==> (k in r.job.meta <==> k in job.meta)
    ensures forall k :: k in job.meta && k != "extractor" ==> r.job.meta[k] == job.meta[k]
    ensures forall i :: 0 <= i < |r.effects| ==> r.effects[i].Save?
    decreases |events|
  {
    if events == [] then TaskRun(job, [], Futures.Ok(JNull))
    else match ProgressHook(job, events[0])
      case Failure(e) => TaskRun(job, [], Futures.Raised(e))
      case Success(step) =>
        var rest := RunHooks(step.job, events[1..]);
        TaskRun(rest.job, step.effects + rest.effects, rest.outcome)
  }

  /** Progress hooks never surface the engine's "finished" as a job status:
      starting from any other status, no saved snapshot and not the final
      job carries it. */
  lemma {:induction false} HooksNeverSurfaceFinished(job: Job, events: seq<Object>)
    requires job.status != Finished
    ensures Finished !in SavedStatuses(RunHooks(job, events).effects)
    ensures RunHooks(job, events).job.status != Finished
    decreases |events|
  {
    if events != [] {
      match ProgressHook(job, events[0])
      case Failure(e) =>
      case Success(step) =>
        HooksNeverSurfaceFinished(step.job, events[1..]);
        SavedStatusesAppend(step.effects, RunHooks(step.job, events[1..]).effects);
    }
  }

  function Event(status: string): Object {
    Single("status", JStr(status))
  }

  /** Events downloading, downloading, finished seen from a queued job are
      observed as the status sequence downloading, processing. */
  lemma DownloadThenFinishObserved(job: Job)
    requires job.status == Queued
    ensures SavedStatuses(RunHooks(job, [Event("downloading"), Event("downloading"), Event(Finished)]).effects)
              == ["downloading", Processing]
  {
    var events := [Event("downloading"), Event("downloading"), Event(Finished)];
    var s1 := ProgressHook(job, events[0]).value;
    var s2 := ProgressHook(s1.job, events[1]).value;
    var s3 := ProgressHook(s2.job, events[2]).value;
    HookSteps(job);
    RunHooksStep(job, events);
    RunHooksStep(s1.job, events[1..]);
    RunHooksStep(s2.job, events[1..][1..]);
    assert events[1..][1..][1..] == [];
    assert RunHooks(job, events).effects == [Save(s1.job), Save(s3.job)];
    assert SavedStatuses([Save(s3.job)]) == [Processing];
  }

  /** The three hook calls of `DownloadThenFinishObserved`, one by one. */
  lemma HookSteps(job: Job)
    requires job.status == Queued
    ensures var s1 := ProgressHook(job, Event("downloading"));
            var s2 := ProgressHook(s1.value.job, Event("downloading"));
            var s3 := ProgressHook(s2.value.job, Event(Finished));
            && s1.Success? && s1.value.job.status == "downloading" && s1.value.effects == [Save(s1.value.job)]
            && s2 == Success(Step(s1.value.job, []))
            && s3.Success? && s3.value.job.status == Processing && s3.value.effects == [Save(s3.value.job)]
  {
  }

  /** One step of `RunHooks` whose hook succeeds. */
  lemma RunHooksStep(job: Job, events: seq<Object>)
    requires events != [] && ProgressHook(job, events[0]).Success?
    ensures var step := ProgressHook(job, events[0]).value;
            RunHooks(job, events).effects == step.effects + RunHooks(step.job, events[1..]).effects
  {
  }

  /** A second "finished" event is not recognised as a repeat, since the job
      already shows "processing": the update fires again (one more save, a
      new `extractor`), and the status stays "processing". */
  lemma RepeatedFinishedRefires(job: Job, info: Object)
    requires job.status == Processing
    requires "status" in info && info["status"] == JStr(Finished)
    ensures ProgressHook(job, info).Success?
    ensures ProgressHook(job, info).value.job.status == Processing
    ensures ProgressHook(job, info).value.effects == [Save(ProgressHook(job, info).value.job)]
    ensures ProgressHook(job, info).value.job.meta["extractor"] == JObj(info)
  {
  }

  // ---------------------------------------------------------------------
  // JobPostProcessor.filter_info

  /** `[t.get('url') for t in items]`: every thumbnail must be a dict. */
  function ThumbnailUrls(items: seq<Json>): (r: Result<seq<Json>>)
    ensures r.Success? <==> forall i :: 0 <= i < |items| ==> items[i].JObj?
    ensures r.Success? ==> |r.value| == |items|
    ensures r.Success? ==> forall i :: 0 <= i < |items| ==> r.value[i] == Get(items[i].fields, "url")
  {
    if items == [] then Success([])
    else if !items[0].JObj? then Failure(AttributeError("thumbnail has no attribute 'get'"))
    else
      var rest :- ThumbnailUrls(items[1..]);
      Success([Get(items[0].fields, "url")] + rest)
  }

  /** The `thumbnails` list comprehension over `info.get('thumbnails', [])`.
      A list is mapped; an empty string or dict iterates to nothing; a
      non-empty one yields strings, which have no `.get`; anything else is
      not iterable. */
  function Thumbnails(info: Object): (r: Result<seq<Json>>)
    ensures "thumbnails" !in info ==> r == Success([])
    ensures "thumbnails" in info && info["thumbnails"].JArr? ==> r == ThumbnailUrls(info["thumbnails"].items)
    ensures "thumbnails" in info && !info["thumbnails"].JArr? ==>
              (r.Success? <==> info["thumbnails"] in {JStr(""), JObj(map[])})
    ensures "thumbnails" in info && info["thumbnails"] in {JStr(""), JObj(map[])} ==> r == Success([])
  {
    if "thumbnails" !in info then Success([])
    else match info["thumbnails"]
      case JArr(items) => ThumbnailUrls(items)
      case JStr(s) => if s == "" then Success([]) else Failure(AttributeError("'str' object has no attribute 'get'"))
      case JObj(m) => if m == map[] then Success([]) else Failure(AttributeError("'str' object has no attribute 'get'"))
      case _ => Failure(TypeError("object is not iterable"))
  }

  /** Every copied field of the normalised document: group, sub-key, and
      the engine's key it is copied from. `source.thumbnails` is the one
      computed field. */
  const CopiedFields: seq<(string, string, string)> := [
    ("codecs", "audio", "acodec"),
    ("codecs", "video", "vcodec"),
    ("downloaded", "filename", "filepath"),
    ("downloaded", "filesize_bytes", "filesize"),
    ("source", "description", "description"),
    ("source", "duration", "duration"),
    ("source", "original_url", "webpage_url"),
    ("source", "tags", "tags"),
    ("source", "title", "title"),
    ("uploader", "id", "uploader_id"),
    ("uploader", "url", "uploader_url")
  ]

  const Groups: set<string> := {"codecs", "downloaded", "source", "uploader"}

  function GroupKeys(group: string): set<string> {
    if group == "codecs" then {"audio", "video"}
    else if group == "downloaded" then {"filename", "filesize_bytes"}
    else if group == "source" then {"description", "duration", "original_url", "tags", "thumbnails", "title"}
    else if group == "uploader" then {"id", "url"}
    else {}
  }

  /** The fixed shape of a normalised document: four groups, each with its
      fixed sub-keys. */
  predicate InfoShape(doc: Json) {
    && doc.JObj?
    && doc.fields.Keys == Groups
    && forall g :: g in doc.fields ==> doc.fields[g].JObj? && doc.fields[g].fields.Keys == GroupKeys(g)
  }

  /** `doc[group][key]` of a shaped document. */
  function Field(doc: Json, group: string, key: string): Json {
    if doc.JObj? && group in doc.fields && doc.fields[group].JObj? && key in doc.fields[group].fields
    then doc.fields[group].fields[key]
    else JNull
  }

  /** A two-field group: `key1` and `key2` hold the engine's values under
      `from1` and `from2`. */
  function PairGroup(info: Object, key1: string, from1: string, key2: string, from2: string): (g: Object)
    requires key1 != key2
    ensures g.Keys == {key1, key2}
    ensures g[key1] == Get(info, from1) && g[key2] == Get(info, from2)
  {
    map[key1 := Get(info, from1), key2 := Get(info, from2)]
  }

  function CodecsGroup(info: Object): (g: Object)
    ensures g.Keys == GroupKeys("codecs")
  {
    PairGroup(info, "audio", "acodec", "video", "vcodec")
  }

  function DownloadedGroup(info: Object): (g: Object)
    ensures g.Keys == GroupKeys("downloaded")
  {
    PairGroup(info, "filename", "filepath", "filesize_bytes", "filesize")
  }

  function SourceGroup(info: Object, thumbs: seq<Json>): (g: Object)
    ensures g.Keys == GroupKeys("source")
  {
    map["description" := Get(info, "description"),
        "duration" := Get(info, "duration"),
        "original_url" := Get(info, "webpage_url"),
        "tags" := Get(info, "tags"),
        "thumbnails" := JArr(thumbs),
        "title" := Get(info, "title")]
  }

  function UploaderGroup(info: Object): (g: Object)
    ensures g.Keys == GroupKeys("uploader")
  {
    PairGroup(info, "id", "uploader_id", "url", "uploader_url")
  }

  /** `JobPostProcessor.filter_info(info)`: the normalised document. It
      always has the fixed shape and raises only when the thumbnails cannot
      be iterated. */
  function FilterInfo(info: Object): (r: Result<Json>)
    ensures r.Success? <==> Thumbnails(info).Success?
    ensures r.Success? ==> InfoShape(r.value)
  {
    var thumbs :- Thumbnails(info);
    Success(JObj(map[
      "codecs" := JObj(CodecsGroup(info)),
      "downloaded" := JObj(DownloadedGroup(info)),
      "source" := JObj(SourceGroup(info, thumbs)),
      "uploader" := JObj(UploaderGroup(info))
    ]))
  }

  /** Each copied field of the normalised document is the engine's value
      under its source key, or `None` when the key is absent; the
      thumbnails are each thumbnail's `url`, in order. */
  lemma FilterInfoFields(info: Object)
    requires FilterInfo(info).Success?
    ensures forall i :: 0 <= i < |CopiedFields| ==>
              Field(FilterInfo(info).value, CopiedFields[i].0, CopiedFields[i].1) == Get(info, CopiedFields[i].2)
    ensures Field(FilterInfo(info).value, "source", "thumbnails") == JArr(Thumbnails(info).value)
  {
    var doc := FilterInfo(info).value;
    var thumbs := Thumbnails(info).value;
    assert doc.fields["codecs"] == JObj(CodecsGroup(info));
    assert doc.fields["downloaded"] == JObj(DownloadedGroup(info));
    assert doc.fields["source"] == JObj(SourceGroup(info, thumbs));
    assert doc.fields["uploader"] == JObj(UploaderGroup(info));
    forall i | 0 <= i < |CopiedFields|
      ensures Field(doc, CopiedFields[i].0, CopiedFields[i].1) == Get(info, CopiedFields[i].2)
    {
      if i < 2 {
        assert CopiedFields[i].0 == "codecs";
      } else if i < 4 {
        assert CopiedFields[i].0 == "downloaded";
      } else if i < 9 {
        assert CopiedFields[i].0 == "source";
      } else {
        assert CopiedFields[i].0 == "uploader";
      }
    }
  }

  /** The normalised document of an info dict carrying none of the engine's
      keys: every field `None`, no thumbnails. */
  const EmptyInfo: Json := JObj(map[
    "codecs" := JObj(map["audio" := JNull, "video" := JNull]),
    "downloaded" := JObj(map["filename" := JNull, "filesize_bytes" := JNull]),
    "source" := JObj(map[
      "description" := JNull, "duration" := JNull, "original_url" := JNull,
      "tags" := JNull, "thumbnails" := JArr([]), "title" := JNull]),
    "uploader" := JObj(map["id" := JNull, "url" := JNull])
  ])

  /** Every key of the engine's info dict that `filter_info` reads. */
  const EngineKeys: set<string> := {
    "acodec", "vcodec", "filepath", "filesize", "description", "duration",
    "webpage_url", "tags", "thumbnails", "title", "uploader_id", "uploader_url"}

  lemma FilterOfEmpty()
    ensures FilterInfo(map[]) == Success(EmptyInfo)
  {
    assert CodecsGroup(map[]) == map["audio" := JNull, "video" := JNull];
    assert DownloadedGroup(map[]) == map["filename" := JNull, "filesize_bytes" := JNull];
    assert SourceGroup(map[], []) == map[
      "description" := JNull, "duration" := JNull, "original_url" := JNull,
      "tags" := JNull, "thumbnails" := JArr([]), "title" := JNull];
    assert UploaderGroup(map[]) == map["id" := JNull, "url" := JNull];
  }

  /** Keys the filter does not read make no difference to its result: two
      info dicts that agree on every engine key normalise alike. */
  lemma FilterIgnoresOtherKeys(m: Object, m2: Object)
    requires forall k :: k in EngineKeys ==> (k in m <==> k in m2) && (k in m ==> m[k] == m2[k])
    ensures FilterInfo(m) == FilterInfo(m2)
  {
    forall k | k in EngineKeys
      ensures Get(m, k) == Get(m2, k)
    {
    }
    assert Thumbnails(m) == Thumbnails(m2);
  }

  /** Normalising a normalised document loses everything: its top-level
      keys are the group names, none of which the filter reads. */
  lemma FilterOfFilteredIsEmpty(doc: Json)
    requires InfoShape(doc)
    ensures FilterInfo(doc.fields) == Success(EmptyInfo)
  {
    GroupsAreNotEngineKeys();
    FilterIgnoresOtherKeys(doc.fields, map[]);
    FilterOfEmpty();
  }

  lemma GroupsAreNotEngineKeys()
    ensures Groups !! EngineKeys
  {
  }

  // ---------------------------------------------------------------------
  // JobPostProcessor.run

  /** What `run` returns to the engine: files to delete and the info dict
      handed on down the post-processor chain. */
  datatype RunReturn = RunReturn(toDelete: seq<Json>, info: Json)

  /** `JobPostProcessor.run(info)`: normalise the engine's dict, set the job
      status to the literal "finished", store the normalised document under
      meta `info`, save, and hand back `filter_info` of the normalised
      document — which is always `EmptyInfo`. */
  function PostProcessorRun(job: Job, raw: Object): (r: Result<(Step, RunReturn)>)
    ensures r.Success? <==> FilterInfo(raw).Success?
    ensures r.Success? ==>
              && r.value.0.job.status == Finished
              && r.value.0.job.id == job.id && r.value.0.job.createdAt == job.createdAt
              && r.value.0.job.meta == job.meta["info" := FilterInfo(raw).value]
              && r.value.0.effects == [Save(r.value.0.job)]
              && r.value.1 == RunReturn([], EmptyInfo)
  {
    match FilterInfo(raw)
    case Failure(e) => Failure(e)
    case Success(info) =>
      var finished := MetaUpdate(job.(status := Finished), Single("info", info));
      MetaUpdateSingle(job.(status := Finished), "info", info);
      FilterOfFilteredIsEmpty(info);
      var handedOn := FilterInfo(info.fields).value;
      Success((Step(finished, [Save(finished)]), RunReturn([], handedOn)))
  }

  // ---------------------------------------------------------------------
  // fetch_url

  /** A value in the option dict handed to the engine: a profile option, or
      one of the two objects `fetch_url` builds for the job. */
  datatype Opt = Plain(j: Json) | LoggerFor(jobId: string) | ProgressHooksFor(jobId: string)

  const Overridden: set<string> := {"outtmpl", "logger", "progress_hooks"}

  /** The merged value under `k`: the job's own value for an overridden
      key, the profile's otherwise. */
  function MergedOption(m: Object, jobId: string, k: string): Opt
    requires k in m || k in Overridden
  {
    if k == "outtmpl" then Plain(JStr(jobId + ".%(format)s"))
    else if k == "logger" then LoggerFor(jobId)
    else if k == "progress_hooks" then ProgressHooksFor(jobId)
    else Plain(m[k])
  }

  /** The option merge in `fetch_url`: the profile's decoded options (which
      must be a dict), with `outtmpl`, `logger` and `progress_hooks`
      overridden and every other key kept. */
  function FetchOptions(job: Job, profileOptions: Json): (r: Result<map<string, Opt>>)
    ensures r.Success? <==> profileOptions.JObj?
    ensures r.Success? ==> r.value.Keys == profileOptions.fields.Keys + Overridden
    ensures r.Success? ==> forall k :: k in profileOptions.fields && k !in Overridden ==>
              r.value[k] == Plain(profileOptions.fields[k])
    ensures r.Success? ==> r.value["outtmpl"] == Plain(JStr(job.id + ".%(format)s"))
    ensures r.Success? ==> r.value["logger"] == LoggerFor(job.id)
    ensures r.Success? ==> r.value["progress_hooks"] == ProgressHooksFor(job.id)
  {
    match profileOptions
    case JObj(m) =>
      Success(map k | k in m.Keys + Overridden :: MergedOption(m, job.id, k))
    case _ => Failure(AttributeError("options have no attribute 'update'"))
  }

  /** The default profile stores `{}` as its options: the engine then gets
      exactly the three options `fetch_url` sets. */
  lemma EmptyProfileOptions(job: Job)
    ensures FetchOptions(job, JObj(map[])) == Success(map[
              "outtmpl" := Plain(JStr(job.id + ".%(format)s")),
              "logger" := LoggerFor(job.id),
              "progress_hooks" := ProgressHooksFor(job.id)])
  {
    var r := FetchOptions(job, JObj(map[])).value;
    var want := map["outtmpl" := Plain(JStr(job.id + ".%(format)s")),
                    "logger" := LoggerFor(job.id),
                    "progress_hooks" := ProgressHooksFor(job.id)];
    assert r.Keys == want.Keys;
    assert r["outtmpl"] == want["outtmpl"];
    assert r["logger"] == want["logger"];
    assert r["progress_hooks"] == want["progress_hooks"];
    assert r == want;
  }

  /** The engine invocation `fetch_url` makes. */
  datatype FetchCall = FetchCall(url: Json, options: map<string, Opt>)

  /** `fetch_url(job, profile)` up to the engine call: options first, then
      meta `url`, which must be present. */
  function FetchUrl(job: Job, profileOptions: Json): (r: Result<FetchCall>)
    ensures r.Success? <==> profileOptions.JObj? && "url" in job.meta
    ensures profileOptions.JObj? && "url" !in job.meta ==> r == Failure(KeyError("url"))
    ensures r.Success? ==> r.value.url == job.meta["url"] && Success(r.value.options) == FetchOptions(job, profileOptions)
  {
    var options :- FetchOptions(job, profileOptions);
    if "url" !in job.meta then Failure(KeyError("url"))
    else Success(FetchCall(job.meta["url"], options))
  }

  /** How the foreign engine ends after reporting its progress events:
      with the raw info dict handed to the post-processor chain and its
      return code; with a return code but without ever calling the
      post-processor (a simulated or skipped download, a filtered entry,
      an empty playlist, or an error it was told to ignore); or by
      raising. */
  datatype EngineEnd =
    | Downloaded(raw: Object, retcode: Json)
    | Returned(retcode: Json)
    | EngineFailed(e: Exc)

  datatype EngineScript = EngineScript(events: seq<Object>, end: EngineEnd)

  /** The fetch task `job_begin_fetch` submits: `fetch_url` with the
      engine's progress events fed to the hook, then the post-processor on
      the raw dict when the engine hands one over. Its future holds the
      engine's return code. */
  function FetchTask(job: Job, profileOptions: Json, script: EngineScript): (r: TaskRun)
    ensures !r.outcome.Cancelled?
    ensures r.job.id == job.id && r.job.createdAt == job.createdAt
    ensures forall i :: 0 <= i < |r.effects| ==> r.effects[i].Save?
    ensures r.outcome.Ok? ==> !script.end.EngineFailed? && r.outcome.value == script.end.retcode
    ensures r.outcome.Ok? && script.end.Downloaded? ==> r.job.status == Finished
    ensures r.outcome.Ok? && script.end.Downloaded? ==>
              && FilterInfo(script.end.raw).Success? && "info" in r.job.meta
              && r.job.meta["info"] == FilterInfo(script.end.raw).value
    ensures r.outcome.Ok? && script.end.Returned? ==>
              r.job == RunHooks(job, script.events).job && r.effects == RunHooks(job, script.events).effects
    ensures r.outcome.Ok? ==> forall k :: k != "extractor" && k != "info" ==>
              (k in r.job.meta <==> k in job.meta) && (k in job.meta ==> r.job.meta[k] == job.meta[k])
    ensures (&& profileOptions.JObj? && "url" in job.meta && StringStatuses(script.events)
             && (script.end.Returned? || (script.end.Downloaded? && FilterInfo(script.end.raw).Success?)))
            ==> r.outcome.Ok?
  {
    match FetchUrl(job, profileOptions)
    case Failure(e) => TaskRun(job, [], Futures.Raised(e))
    case Success(_) =>
      var hooks := RunHooks(job, script.events);
      if hooks.outcome.Raised? then hooks
      else EngineEnds(hooks.job, hooks.effects, script.end)
  }

  /** How the engine's end completes the fetch task, from the job and the
      saves the progress hooks left: a raise fails the future, a bare
      return completes it, and a download first runs the post-processor. */
  function EngineEnds(job: Job, effects: seq<Effect>, end: EngineEnd): (r: TaskRun)
    ensures !r.outcome.Cancelled?
    ensures r.job.id == job.id && r.job.createdAt == job.createdAt
    ensures (forall i :: 0 <= i < |effects| ==> effects[i].Save?) ==>
              forall i :: 0 <= i < |r.effects| ==> r.effects[i].Save?
    ensures end.EngineFailed? ==> r == TaskRun(job, effects, Futures.Raised(end.e))
    ensures end.Returned? ==> r == TaskRun(job, effects, Futures.Ok(end.retcode))
    ensures end.Downloaded? ==> (r.outcome.Ok? <==> FilterInfo(end.raw).Success?)
    ensures r.outcome.Ok? ==> !end.EngineFailed? && r.outcome.value == end.retcode
    ensures r.outcome.Ok? && end.Downloaded? ==>
              && r.job.status == Finished
              && r.job.meta == job.meta["info" := FilterInfo(end.raw).value]
  {
    match end
    case EngineFailed(e) => TaskRun(job, effects, Futures.Raised(e))
    case Returned(retcode) => TaskRun(job, effects, Futures.Ok(retcode))
    case Downloaded(raw, retcode) =>
      match PostProcessorRun(job, raw)
      case Failure(e) => TaskRun(job, effects, Futures.Raised(e))
      case Success(done) =>
        TaskRun(done.0.job, effects + done.0.effects, Futures.Ok(retcode))
  }
}
