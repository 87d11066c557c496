/** Upload fan-out (exec/uploader.py): the filename precondition, one
    upload task per destination name in list order, and the fold of the
    finished futures into a map keyed by destination name. */
module Uploader {

  import opened Py
  import opened Values
  import opened JobModel
  import opened Futures

  /** `meta.info.downloaded.filename` when both levels are dicts. */
  function FilenameAt(meta: Meta): Option<Json> {
    if "info" in meta && meta["info"].JObj? then
      var info := meta["info"].fields;
      if "downloaded" in info && info["downloaded"].JObj? then
        Some(Get(info["downloaded"].fields, "filename"))
      else if "downloaded" !in info then Some(JNull)
      else None
    else if "info" !in meta then Some(JNull)
    else None
  }

  const NoFilename := TypeError("Expected a filename (str) at `job.meta.info.downloaded.filename`, got None")

  /** The chained `.get` lookup of the local filename and its truthiness
      check: a missing or falsy filename raises TypeError; a level that is
      present but not a dict has no `.get` and raises AttributeError. */
  function LocalFilename(meta: Meta): (r: Result<Json>)
    ensures r.Success? <==> FilenameAt(meta).Some? && Truthy(FilenameAt(meta).value)
    ensures r.Success? ==> r.value == FilenameAt(meta).value
    ensures FilenameAt(meta).Some? && !Truthy(FilenameAt(meta).value) ==> r == Failure(NoFilename)
    ensures FilenameAt(meta).None? ==> r.Failure? && r.exc.AttributeError?
  {
    var info :- GetDict(meta, "info");
    var downloaded :- GetDict(info, "downloaded");
    var filename := Get(downloaded, "filename");
    if !Truthy(filename) then Failure(NoFilename) else Success(filename)
  }

  /** Iterating `meta.get('destinations', [])`: an absent key is the empty
      list, a list of names is taken in order, and a string iterates
      character by character. Anything else is refused before any task is
      submitted. */
  function DestinationNames(meta: Meta): (r: Result<seq<string>>)
    ensures "destinations" !in meta ==> r == Success([])
    ensures "destinations" in meta && meta["destinations"].JArr? ==>
              (r.Success? <==> forall i :: 0 <= i < |meta["destinations"].items| ==> meta["destinations"].items[i].JStr?)
    ensures r.Success? && "destinations" in meta && meta["destinations"].JArr? ==>
              && |r.value| == |meta["destinations"].items|
              && forall i :: 0 <= i < |r.value| ==> r.value[i] == meta["destinations"].items[i].s
  {
    if "destinations" !in meta then Success([])
    else match meta["destinations"]
      case JArr(items) =>
        if forall i :: 0 <= i < |items| ==> items[i].JStr? then
          Success(seq(|items|, i requires 0 <= i < |items| => items[i].s))
        else Failure(TypeError("destination name is not a string"))
      case JStr(s) => Success(seq(|s|, i requires 0 <= i < |s| => [s[i]]))
      case _ => Failure(TypeError("destinations are not iterable"))
  }

  /** `str(exc)` */
  function ExcText(e: Exc): string {
    match e
    case ValueError(m) => m
    case TypeError(m) => m
    case KeyError(k) => k
    case AttributeError(m) => m
    case RuntimeError(m) => m
    case CancelledError => ""
    case BinasciiError(m) => m
    case Foreign(w) => w
  }

  /** The record built for one destination: `fut.exception()` first (which
      raises on a cancelled future), `error` set from a stored exception,
      then `result` from `fut.result()`, which re-raises that exception. So
      a record is only ever produced for a successful task, and it is
      exactly `{'result': value}`. */
  function Record(fut: Outcome<Json>): (r: Result<Json>)
    ensures r.Success? <==> fut.Ok?
    ensures fut.Ok? ==> r.value == JObj(Single("result", fut.value))
    ensures fut.Raised? ==> r == Failure(fut.exc)
    ensures fut.Cancelled? ==> r == Failure(CancelledError)
  {
    var exc :- fut.Exception();
    var record: Object := if exc.Some? then Single("error", JStr(ExcText(exc.value))) else map[];
    var value :- fut.Result();
    Success(JObj(record["result" := value]))
  }

  function NameSet(names: seq<string>): set<string> {
    set n | n in names
  }

  /** No later entry repeats the name at index `i`. */
  ghost predicate LastOccurrence(names: seq<string>, i: int) {
    0 <= i < |names| && forall j :: i < j < |names| ==> names[j] != names[i]
  }

  /** Index `i` holds the first future that did not succeed. */
  ghost predicate FirstFailure(futs: seq<Outcome<Json>>, i: int) {
    0 <= i < |futs| && !futs[i].Ok? && forall j :: 0 <= j < i ==> futs[j].Ok?
  }

  /** What re-raising a failed future raises. */
  function RaisedBy(fut: Outcome<Json>): Exc
    requires !fut.Ok?
  {
    if fut.Raised? then fut.exc else CancelledError
  }

  /** The aggregation loop: destinations in submission order, each record
      stored under its name with `dict.update`, so a repeated name keeps the
      record of its last occurrence. The first failed future, in order,
      makes the whole fold raise its exception. */
  function Aggregate(names: seq<string>, futs: seq<Outcome<Json>>, acc: map<string, Json>): (r: Result<map<string, Json>>)
    requires |names| == |futs|
    ensures r.Success? <==> forall i :: 0 <= i < |futs| ==> futs[i].Ok?
    ensures r.Success? ==> r.value.Keys == acc.Keys + NameSet(names)
    ensures r.Success? ==> forall k :: k in acc && k !in names ==> r.value[k] == acc[k]
    ensures r.Success? ==> forall i :: LastOccurrence(names, i) ==>
              r.value[names[i]] == JObj(Single("result", futs[i].value))
    ensures r.Failure? ==> exists i :: FirstFailure(futs, i) && r.exc == RaisedBy(futs[i])
    decreases |names|
  {
    if names == [] then Success(acc)
    else
      var record :- Record(futs[0]);
      FirstFailureShift(futs);
      LastOccurrenceShift(names);
      Aggregate(names[1..], futs[1..], acc[names[0] := record])
  }

  /** A last occurrence past the head is a last occurrence in the tail;
      a last occurrence at the head is a name the tail lacks. */
  lemma LastOccurrenceShift(names: seq<string>)
    requires |names| > 0
    ensures forall i :: 0 < i && LastOccurrence(names, i) ==> LastOccurrence(names[1..], i - 1) && names[1..][i - 1] == names[i]
    ensures LastOccurrence(names, 0) ==> names[0] !in names[1..]
  {
  }

  /** Behind a successful head, the first failure of the tail is the first
      failure of the whole. */
  lemma FirstFailureShift(futs: seq<Outcome<Json>>)
    requires |futs| > 0 && futs[0].Ok?
    ensures forall i :: FirstFailure(futs[1..], i) ==> FirstFailure(futs, i + 1) && futs[1..][i] == futs[i + 1]
  {
  }

  /** A per-destination upload `upload_file` submits. */
  datatype UploadTask = UploadToDestination(filename: Json, dest: string)

  /** The destination tasks `upload_file` submitted, in order, and what it
      returned or raised. */
  datatype Fanout = Fanout(submitted: seq<UploadTask>, result: Result<map<string, Json>>)

  /** The futures of the first `n` submitted tasks, in order. */
  function SubmittedFutures(outcome: nat -> Outcome<Json>, n: nat): (futs: seq<Outcome<Json>>)
    ensures |futs| == n && forall i :: 0 <= i < n ==> futs[i] == outcome(i)
  {
    seq(n, i requires 0 <= i < n => outcome(i))
  }

  /** `upload_file(job)`. `outcome(i)` is how the i-th submitted task's
      future finished (the barrier waits for all of them). The filename is
      checked before anything is submitted; then exactly one task per
      destination name, in list order, without deduplication. */
  function UploadFile(meta: Meta, outcome: nat -> Outcome<Json>): (r: Fanout)
    ensures LocalFilename(meta).Failure? ==> r == Fanout([], Failure(LocalFilename(meta).exc))
    ensures DestinationNames(meta).Failure? ==> r.submitted == [] && r.result.Failure?
    ensures LocalFilename(meta).Success? && DestinationNames(meta).Success? ==>
              && |r.submitted| == |DestinationNames(meta).value|
              && forall i :: 0 <= i < |r.submitted| ==>
                   r.submitted[i] == UploadToDestination(LocalFilename(meta).value, DestinationNames(meta).value[i])
    ensures r.result.Success? ==> LocalFilename(meta).Success? && DestinationNames(meta).Success?
  {
    match LocalFilename(meta)
    case Failure(e) => Fanout([], Failure(e))
    case Success(filename) =>
      match DestinationNames(meta)
      case Failure(e) => Fanout([], Failure(e))
      case Success(names) =>
        var tasks := seq(|names|, i requires 0 <= i < |names| => UploadToDestination(filename, names[i]));
        Fanout(tasks, Aggregate(names, SubmittedFutures(outcome, |names|), map[]))
  }

  /** Once the precondition holds and the names are read: `upload_file`
      returns exactly when every destination task succeeded; the map's keys
      are the destination names; a name maps to `{'result': value}` of its
      last occurrence; otherwise it raises what the first failed task (in
      list order) raised. */
  lemma UploadFileResult(meta: Meta, outcome: nat -> Outcome<Json>)
    requires LocalFilename(meta).Success? && DestinationNames(meta).Success?
    ensures var names := DestinationNames(meta).value;
            var r := UploadFile(meta, outcome).result;
            && (r.Success? <==> forall i :: 0 <= i < |names| ==> outcome(i).Ok?)
            && (r.Success? ==> r.value.Keys == NameSet(names))
            && (r.Success? ==> forall i :: LastOccurrence(names, i) ==>
                  r.value[names[i]] == JObj(Single("result", outcome(i).value)))
            && (r.Failure? ==>
                  exists i :: (0 <= i < |names| && !outcome(i).Ok? &&
                    (forall j :: 0 <= j < i ==> outcome(j).Ok?) && r.exc == RaisedBy(outcome(i))))
  {
    var names := DestinationNames(meta).value;
    var futs := SubmittedFutures(outcome, |names|);
    var r := UploadFile(meta, outcome).result;
    assert r == Aggregate(names, futs, map[]);
    if r.Failure? {
      var i :| FirstFailure(futs, i) && r.exc == RaisedBy(futs[i]);
      assert 0 <= i < |names| && !outcome(i).Ok? && r.exc == RaisedBy(outcome(i));
    }
  }

  /** Every name in the list has a last occurrence. */
  lemma {:induction false} HasLastOccurrence(names: seq<string>, n: string)
    requires n in names
    ensures exists i :: LastOccurrence(names, i) && names[i] == n
  {
    var last := |names| - 1;
    if names[last] == n {
      assert LastOccurrence(names, last);
    } else {
      var init := names[..last];
      assert names == init + [names[last]];
      assert n in init;
      HasLastOccurrence(init, n);
      var i :| LastOccurrence(init, i) && init[i] == n;
      assert LastOccurrence(names, i);
    }
  }

  /** When every destination task returned the same value, `upload_file`
      maps every destination name, and nothing else, to `{'result': value}`. */
  lemma UniformSuccess(meta: Meta, outcome: nat -> Outcome<Json>, value: Json)
    requires LocalFilename(meta).Success? && DestinationNames(meta).Success?
    requires forall i :: 0 <= i < |DestinationNames(meta).value| ==> outcome(i) == Ok(value)
    ensures UploadFile(meta, outcome).result.Success?
    ensures UploadFile(meta, outcome).result.value.Keys == NameSet(DestinationNames(meta).value)
    ensures forall n :: n in UploadFile(meta, outcome).result.value ==>
              UploadFile(meta, outcome).result.value[n] == JObj(Single("result", value))
  {
    var names := DestinationNames(meta).value;
    UploadFileResult(meta, outcome);
    var r := UploadFile(meta, outcome).result.value;
    forall n | n in r
      ensures r[n] == JObj(Single("result", value))
    {
      HasLastOccurrence(names, n);
      var i :| LastOccurrence(names, i) && names[i] == n;
    }
  }

  /** `upload_to_destination(filename, name)`: look the destination up by
      name (unknown names raise), copy the file through the destination's
      filesystem handle (`copyError` is how that copy ended), and return
      `{'success': True}` when it completes. */
  function UploadToDestinationTask(task: UploadTask, registered: set<string>, copyError: Option<Exc>): (r: Result<Json>)
    ensures r.Success? <==> task.dest in registered && copyError.None?
    ensures r.Success? ==> r.value == JObj(Single("success", JBool(true)))
    ensures task.dest !in registered ==> r == Failure(Foreign("Destination.DoesNotExist"))
    ensures task.dest in registered && copyError.Some? ==> r == Failure(copyError.value)
  {
    if task.dest !in registered then Failure(Foreign("Destination.DoesNotExist"))
    else if copyError.Some? then Failure(copyError.value)
    else Success(JObj(Single("success", JBool(true))))
  }
}
