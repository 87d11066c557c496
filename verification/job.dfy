/** The job record (`Job` in model/job.py) and the persistence effects the
    pipeline performs on it. The `meta` blob is stored JSON-encoded; the
    model keeps the decoded dict, since decoding an encoded dict gives it
    back. */
module JobModel {

  import opened Py
  import opened Values

  /** Decoded job metadata: `url`, `profile`, `destinations`, `info`,
      `extractor`, `result`, and whatever else a caller put there. */
  type Meta = map<string, Json>

  /** `created_at` is a timestamp the pipeline only copies; it is kept as
      its rendered text. */
  datatype Job = Job(id: string, createdAt: string, status: string, meta: Meta)

  const Queued := "queued"
  const Processing := "processing"
  const Finished := "finished"
  const Uploading := "uploading"
  const Completed := "completed"

  /** The two stage tags the completion callback is registered with. */
  datatype Stage = StageFetching | StageUploading

  /** Work handed to the executor: fetching with a profile's decoded
      options, or uploading the job's download to its destinations. */
  datatype Task = FetchUrlTask(profileOptions: Json) | UploadFileTask

  /** An externally visible action, in the order it happens: persisting a
      snapshot of the job, or submitting a task whose future gets
      `job_stage_callback` registered with the given stage. */
  datatype Effect = Save(snapshot: Job) | Submit(task: Task, stage: Stage)

  /** The job after a step, and what the step did, in order. */
  datatype Step = Step(job: Job, effects: seq<Effect>)

  /** `job.meta_update(**kw)`: a shallow merge. Each named top-level key is
      set to exactly its new value (a nested dict under it is replaced, not
      merged); every other key keeps its value; `id`, `created_at` and
      `status` are untouched. */
  function MetaUpdate(job: Job, kw: Meta): (r: Job)
    ensures r.id == job.id && r.createdAt == job.createdAt && r.status == job.status
    ensures r.meta.Keys == job.meta.Keys + kw.Keys
    ensures forall k :: k in kw ==> r.meta[k] == kw[k]
    ensures forall k :: k in job.meta && k !in kw ==> r.meta[k] == job.meta[k]
  {
    job.(meta := job.meta + kw)
  }

  /** Applying the same update twice is the same as applying it once. */
  lemma MetaUpdateIdempotent(job: Job, kw: Meta)
    ensures MetaUpdate(MetaUpdate(job, kw), kw) == MetaUpdate(job, kw)
  {
  }

  /** Two updates in a row are one update with the later values winning. */
  lemma MetaUpdateSequential(job: Job, a: Meta, b: Meta)
    ensures MetaUpdate(MetaUpdate(job, a), b) == MetaUpdate(job, a + b)
    ensures forall k :: k in b ==> MetaUpdate(MetaUpdate(job, a), b).meta[k] == b[k]
  {
  }

  /** Updating one key is storing that key. */
  lemma MetaUpdateSingle(job: Job, key: string, value: Json)
    ensures MetaUpdate(job, Single(key, value)).meta == job.meta[key := value]
  {
    var r := MetaUpdate(job, Single(key, value)).meta;
    assert r.Keys == job.meta.Keys + {key};
    forall k | k in r
      ensures r[k] == job.meta[key := value][k]
    {
    }
  }

  /** `job.to_dict()`: exactly the keys id, created_at, status and meta,
      with meta the decoded dict. */
  function ToDict(job: Job): (d: Object)
    ensures d.Keys == {"id", "created_at", "status", "meta"}
    ensures d["id"] == JStr(job.id) && d["created_at"] == JStr(job.createdAt)
    ensures d["status"] == JStr(job.status) && d["meta"] == JObj(job.meta)
  {
    map["id" := JStr(job.id), "created_at" := JStr(job.createdAt),
        "status" := JStr(job.status), "meta" := JObj(job.meta)]
  }

  /** A metadata update shows in the serialised job only under `meta`. */
  lemma ToDictAfterMetaUpdate(job: Job, kw: Meta)
    ensures forall k :: k in ToDict(job) && k != "meta" ==>
              ToDict(MetaUpdate(job, kw))[k] == ToDict(job)[k]
    ensures ToDict(MetaUpdate(job, kw))["meta"] == JObj(job.meta + kw)
  {
  }
}
