/**
 * `start_inference` and `lambda_handler` of terraform/src/lib/awscc_tool_use.py:
 * the dispatch of a step name to its marker and the step after it, the
 * SUCCESS/FAILED verdict from the marker's presence after
 * `process_resource`, and the handler's choice between a step, the COPY
 * build and the "Invalid prompt type" answer.
 *
 * The two downloads are parameters (what they leave in the local tree); the
 * uploads only read the local tree and are stated by their arguments.
 */
module Handler {
  import opened Wrappers
  import opened Strings
  import opened Explorer
  import opened S3Helper
  import opened Pipeline
  import opened Artifact

  // ---------------------------------------------------------------------
  // Dispatch (awscc_tool_use.py:657-677)
  // ---------------------------------------------------------------------

  /** The `match` on `prompt_type`: the step's marker and the next prompt type. */
  function Dispatch(promptType: string): (r: Option<(Marker, string)>)
    ensures r.Some? ==> r.value.0 in {Created, Deleted, Reviewed, Cleaned, Summary}
  {
    match promptType
    case "CREATE" => Some((Created, "DELETE"))
    case "DELETE" => Some((Deleted, "REVIEW"))
    case "REVIEW" => Some((Reviewed, "CLEANER"))
    case "CLEANER" => Some((Cleaned, "SUMMARY"))
    case "SUMMARY" => Some((Summary, "COPY"))
    case _ => None
  }

  /** The step names that have a case. */
  const DispatchedTypes: seq<string> := ["CREATE", "DELETE", "REVIEW", "CLEANER", "SUMMARY"]

  /** A step name has a case exactly when it is one of the five; different names, different markers. */
  lemma DispatchCases(p: string, q: string)
    ensures Dispatch(p).Some? <==> p in DispatchedTypes
    ensures Dispatch(p).Some? && Dispatch(q).Some? && p != q ==> Dispatch(p).value.0 != Dispatch(q).value.0
  {
  }

  /** The markers a resource carries once the step that sets `m`, and every step before it, succeeded. */
  function Progress(m: Marker): set<Marker> {
    match m
    case Created => {Created}
    case Deleted => {Created, Deleted}
    case Reviewed => {Created, Deleted, Reviewed}
    case Cleaned => {Created, Deleted, Reviewed, Cleaned}
    case Summary => {Created, Deleted, Reviewed, Cleaned, Summary}
    case _ => {}
  }

  /**
   * Following the chain of next steps from CREATE, every step's
   * preconditions are met by the markers its predecessors set, the chain
   * ends in COPY after SUMMARY, and COPY's readiness is met by then.
   */
  lemma ChainMeetsPreconditions(p: string)
    requires Dispatch(p).Some?
    ensures var (m, next) := Dispatch(p).value;
      && (next == "COPY" <==> m == Summary)
      && (next != "COPY" ==> Dispatch(next).Some? && Required(Dispatch(next).value.0) <= Progress(m))
      && (next == "COPY" ==> Required(Summary) <= Progress(m))
  {
  }

  // ---------------------------------------------------------------------
  // start_inference (awscc_tool_use.py:634-710)
  // ---------------------------------------------------------------------

  /** `/tmp/target_resources/<target>`, the resource's working directory. */
  function InferenceDirText(target: string): string {
    "/tmp/target_resources/" + target
  }

  function InferenceDir(target: string): Path {
    Components(InferenceDirText(target))
  }

  /** The download before the step: the resource's own prefix, without its `.terraform`. */
  function InferenceDownload(target: string): DownloadConfig {
    DownloadConfig(InferenceDirText(target), target, [], [".terraform"], true)
  }

  /** The upload in the `finally`: the working directory back under the resource's prefix. */
  function InferenceUpload(target: string): UploadConfig {
    UploadConfig(InferenceDirText(target), target, [".terraform/*"], true)
  }

  /**
   * The upload's ".terraform" pattern is matched against an absolute path, so
   * it excludes nothing: every file below the resource directory, `.terraform`
   * included, is a candidate.
   */
  lemma InferenceUploadKeepsTerraform(target: string, found: set<Path>)
    ensures Candidates(found, InferenceUpload(target)) == found
  {
    UploadKeepsTerraformFiles(found, InferenceUpload(target));
  }

  /**
   * What `start_inference` returns: `resource_event` without `logger` and
   * `base_prompt`. `status` and `prompt_type` are keys that may be absent.
   */
  datatype InferenceEvent = InferenceEvent(
    targetResource: string, dirPath: string,
    perInferenceSleep: nat, perResourceSleep: nat, perResourceTimeout: nat, reRun: bool,
    marker: Marker, status: Option<string>, promptType: Option<string>)

  /** The ValueError the `finally` upload raises when the resource directory is gone. */
  function MissingInferenceDir(target: string): PyError {
    ValueError(MissingDirectoryMessage(PathText(InferenceDirText(target))))
  }

  /**
   * `start_inference` from the local tree `fs`: `download` is what the
   * download leaves, `agent` what a run of the model does. The `finally`
   * first uploads the resource directory, which raises ValueError out of the
   * function when the directory no longer exists. Otherwise a name without a
   * case reaches the `pop` with no `base_prompt` key, which raises KeyError.
   */
  function StartInferenceFs(fs: FsState, target: string, promptType: string,
                            download: FsState -> FsState, agent: FsState -> (AgentEnd, FsState))
    : (r: (Result<InferenceEvent, PyError>, FsState))
    ensures r.0.Err? <==> Dispatch(promptType).None? || InferenceDir(target) !in r.1
    ensures r.0.Err? ==> r.0.error == (if InferenceDir(target) !in r.1 then MissingInferenceDir(target)
                                       else KeyError("base_prompt"))
    ensures Dispatch(promptType).None? ==> r.1 == download(fs)
    ensures r.0.Ok? ==>
      var e := r.0.value;
      && (e.status == Some("SUCCESS") <==> HasMarker(r.1, InferenceDir(target), e.marker))
      && (e.status.Some? && (e.status.value == "SUCCESS" || e.status.value == "FAILED"))
      && (e.promptType.Some? <==> e.status == Some("SUCCESS"))
      && e.marker == Dispatch(promptType).value.0
      && (e.promptType.Some? ==> e.promptType.value == Dispatch(promptType).value.1)
  {
    var dir := InferenceDir(target);
    var fs1 := download(fs);
    match Dispatch(promptType)
    case None =>
      (Err(if dir !in fs1 then MissingInferenceDir(target) else KeyError("base_prompt")), fs1)
    case Some((m, next)) =>
      var fs2 := ProcessResourceFs(fs1, dir, m, false, agent).1;
      var ok := HasMarker(fs2, dir, m);
      if dir !in fs2 then (Err(MissingInferenceDir(target)), fs2)
      else
        (Ok(InferenceEvent(target, InferenceDirText(target), 5, 60, 900, false, m,
                           Some(if ok then "SUCCESS" else "FAILED"), if ok then Some(next) else None)),
         fs2)
  }

  /** A step whose marker the download brought back succeeds without running anything. */
  lemma AlreadyMarkedSucceeds(fs: FsState, target: string, promptType: string,
                              download: FsState -> FsState, agent: FsState -> (AgentEnd, FsState))
    requires Dispatch(promptType).Some?
    requires HasMarker(download(fs), InferenceDir(target), Dispatch(promptType).value.0)
    ensures var r := StartInferenceFs(fs, target, promptType, download, agent);
      r.0.Ok? && r.0.value.status == Some("SUCCESS") && r.1 == download(fs)
  {
    var m := Dispatch(promptType).value.0;
    var dir := InferenceDir(target);
    var fs1 := download(fs);
    assert m in Markers(fs1, dir);
    assert GuardSkips(Markers(fs1, dir), m, false);
    SkippedChangesNothing(fs1, dir, m, false, agent);
  }

  /**
   * When the model's runs never write the step's marker, the step succeeds
   * exactly when the marker was already there: `process_resource` itself
   * never sets it.
   */
  lemma SuccessNeedsMarkerFromRun(fs: FsState, target: string, promptType: string,
                                  download: FsState -> FsState, agent: FsState -> (AgentEnd, FsState))
    requires Dispatch(promptType).Some?
    requires var m := Dispatch(promptType).value.0;
      forall x :: HasMarker(agent(x).1, InferenceDir(target), m) ==> HasMarker(x, InferenceDir(target), m)
    ensures var r := StartInferenceFs(fs, target, promptType, download, agent).0;
      r.Ok? && r.value.status == Some("SUCCESS") <==> HasMarker(download(fs), InferenceDir(target), Dispatch(promptType).value.0)
  {
    var m := Dispatch(promptType).value.0;
    NeverCreatesStepMarker(download(fs), InferenceDir(target), m, false, agent);
    if HasMarker(download(fs), InferenceDir(target), m) {
      AlreadyMarkedSucceeds(fs, target, promptType, download, agent);
    }
  }

  /** `start_inference` on the working file system, filling the event as it goes. */
  method StartInference(fsys: FileSystem, target: string, promptType: string,
                        download: FsState -> FsState, agent: FsState -> (AgentEnd, FsState))
    returns (r: Result<InferenceEvent, PyError>)
    modifies fsys
    ensures (r, fsys.entries) == StartInferenceFs(old(fsys.entries), target, promptType, download, agent)
  {
    var dir := InferenceDir(target);
    fsys.entries := download(fsys.entries);
    var dispatch := Dispatch(promptType);
    if dispatch.None? {
      return Err(if dir !in fsys.entries then MissingInferenceDir(target) else KeyError("base_prompt"));
    }
    var (m, next) := dispatch.value;
    var event := InferenceEvent(target, InferenceDirText(target), 5, 60, 900, false, m, None, None);
    var _ := ProcessResource(fsys, dir, m, false, agent);
    if HasMarker(fsys.entries, dir, m) {
      event := event.(status := Some("SUCCESS"), promptType := Some(next));
    } else {
      event := event.(status := Some("FAILED"));
    }
    if dir !in fsys.entries {
      return Err(MissingInferenceDir(target));
    }
    return Ok(event);
  }

  // ---------------------------------------------------------------------
  // lambda_handler (awscc_tool_use.py:712-735)
  // ---------------------------------------------------------------------

  /** The fields of the Lambda event the handler reads. */
  datatype HandlerEvent = HandlerEvent(promptType: Option<string>, targetResource: string,
                                       targetResources: seq<PayloadItem>)

  /** A step's event, the `None` that `build_artifact` returns, or the rejection. */
  datatype HandlerResult =
    | Inference(event: InferenceEvent)
    | NoResult
    | Invalid(status: string, message: string)

  /** The step names the handler accepts as written: UPDATE included, though it has no case. */
  const AcceptedAsWritten: seq<string> := ["CREATE", "DELETE", "UPDATE", "REVIEW", "CLEANER", "SUMMARY"]

  /** The external parts of one invocation. */
  datatype Environment = Environment(
    downloadOne: FsState -> FsState, downloadAll: FsState -> FsState,
    agent: FsState -> (AgentEnd, FsState), tmpl: DocTemplate)

  /** The handler, given the step names it sends to `start_inference`. */
  function HandleWith(accepted: seq<string>, fs: FsState, ev: HandlerEvent, env: Environment)
    : (r: (Result<HandlerResult, PyError>, FsState))
  {
    if ev.promptType.Some? && ev.promptType.value in accepted then
      var (s, fs') := StartInferenceFs(fs, ev.targetResource, ev.promptType.value, env.downloadOne, env.agent);
      (if s.Ok? then Ok(Inference(s.value)) else Err(s.error), fs')
    else if ev.promptType == Some("COPY") then
      var (b, fs') := BuildArtifactFs(env.downloadAll(fs), ev.targetResources, true, env.tmpl);
      (if b.Ok? then Ok(NoResult) else Err(b.error), fs')
    else (Ok(Invalid("FAILED", "Invalid prompt type")), fs)
  }

  /** `lambda_handler` as written. */
  function LambdaHandlerAsWrittenFs(fs: FsState, ev: HandlerEvent, env: Environment)
    : (r: (Result<HandlerResult, PyError>, FsState))
  {
    HandleWith(AcceptedAsWritten, fs, ev, env)
  }

  /**
   * As written, UPDATE is accepted, has no case, and the call raises: KeyError
   * from the `pop`, or the upload's ValueError when the download left no
   * resource directory.
   */
  lemma UpdateRaisesAsWritten(fs: FsState, ev: HandlerEvent, env: Environment)
    requires ev.promptType == Some("UPDATE")
    ensures LambdaHandlerAsWrittenFs(fs, ev, env).0
      == Err(if InferenceDir(ev.targetResource) in env.downloadOne(fs) then KeyError("base_prompt")
             else MissingInferenceDir(ev.targetResource))
  {
    assert "UPDATE" in AcceptedAsWritten;
  }

  /** `lambda_handler` accepting exactly the step names that have a case. */
  function LambdaHandlerFs(fs: FsState, ev: HandlerEvent, env: Environment)
    : (r: (Result<HandlerResult, PyError>, FsState))
  {
    HandleWith(DispatchedTypes, fs, ev, env)
  }

  /**
   * Accepting exactly the dispatched names, an unknown name (UPDATE among
   * them) gets the "Invalid prompt type" answer. A step raises only the
   * upload's ValueError, when its resource directory is gone by the
   * `finally`, and the COPY build only the IndexError of a name without
   * "awscc_".
   */
  lemma CorrectedHandlerErrors(fs: FsState, ev: HandlerEvent, env: Environment)
    ensures var (r, fs') := LambdaHandlerFs(fs, ev, env);
      r.Err? ==>
        (ev.promptType == Some("COPY") && r.error == IndexError)
        || (ev.promptType.Some? && ev.promptType.value in DispatchedTypes
            && InferenceDir(ev.targetResource) !in fs' && r.error == MissingInferenceDir(ev.targetResource))
    ensures ev.promptType.Some? && ev.promptType.value != "COPY" && ev.promptType.value !in DispatchedTypes ==>
      LambdaHandlerFs(fs, ev, env) == (Ok(Invalid("FAILED", "Invalid prompt type")), fs)
  {
    if ev.promptType.Some? && ev.promptType.value in DispatchedTypes {
      DispatchCases(ev.promptType.value, ev.promptType.value);
    }
  }

  /** Apart from UPDATE, the corrected handler answers as the one written. */
  lemma HandlerAgreesExceptUpdate(fs: FsState, ev: HandlerEvent, env: Environment)
    requires ev.promptType != Some("UPDATE")
    ensures LambdaHandlerFs(fs, ev, env) == LambdaHandlerAsWrittenFs(fs, ev, env)
  {
    if ev.promptType.Some? {
      var p := ev.promptType.value;
      assert p in AcceptedAsWritten <==> p in DispatchedTypes;
    }
  }

  /** `lambda_handler` on the working file system, accepting the dispatched names. */
  method LambdaHandler(fsys: FileSystem, ev: HandlerEvent, env: Environment)
    returns (r: Result<HandlerResult, PyError>)
    modifies fsys
    ensures (r, fsys.entries) == LambdaHandlerFs(old(fsys.entries), ev, env)
  {
    if ev.promptType.Some? && ev.promptType.value in DispatchedTypes {
      var s := StartInference(fsys, ev.targetResource, ev.promptType.value, env.downloadOne, env.agent);
      r := if s.Ok? then Ok(Inference(s.value)) else Err(s.error);
    } else if ev.promptType == Some("COPY") {
      fsys.entries := env.downloadAll(fsys.entries);
      var b, _ := BuildArtifact(fsys, ev.targetResources, true, env.tmpl);
      r := if b.Ok? then Ok(NoResult) else Err(b.error);
    } else {
      r := Ok(Invalid("FAILED", "Invalid prompt type"));
    }
  }
}
