# Verified model of the AWSCC example-generation pipeline

This project models the deterministic rules of a pipeline that generates
Terraform examples for AWS Cloud Control (AWSCC) resources. The pipeline runs
one resource at a time through six steps: CREATE, DELETE, REVIEW, CLEANER,
SUMMARY, then COPY into an output tree. It keeps no database. A resource's state
is the set of zero-byte marker files (`created.marker`, …, `skip.marker`) in its
working directory.

The model covers five parts of the program:

- **Markers and file helpers.** The marker store and the file helpers of
  `terraform/src/lib/helpers/explorer.py`. The local file system is a
  `map<Path, Entry>`. Each change to it is a function from the old map to a
  result and the new map. The class `Explorer.FileSystem` performs the same
  changes in place, and each of its methods is proved equal to its function.
- **Step guard and handlers.** From `terraform/src/lib/awscc_tool_use.py`:
  - the step guard of `process_resource` (module `Pipeline`);
  - the dispatch and verdict of `start_inference` and `lambda_handler`
    (module `Handler`);
  - the COPY loops of `build_artifact` and `write_artifact` (module `Artifact`);
  - the tool-result shaping and the turn structure of `sampling_loop`
    (module `ToolUse`).
- **Transfers.** The filters, key mapping and per-item counters of the
  transfer helpers in `terraform/src/lib/helpers/s3_helper.py` (module
  `S3Helper`). The thread pool becomes a sequential loop over the listed
  items.
- **Next-resource selection.** The choice of the next resource in
  `agents/discovery_agent.py` (module `Discovery`).
- **Template substitution.** The substitution and validation body of
  `template_replacer` in `agents/storage_agent.py` (module `Storage`).

`Wrappers` holds `Option`, `Result` and the Python exceptions that can escape.
`Strings` models the Python string operations the code uses (`startswith`,
`in`, `lstrip`/`rstrip`/`strip`, `replace`, `split`, `sorted`).

The outside world enters as parameters:

- the model's replies and the tools' results in the sampling loop;
- what a run of the agent does to the working directory (`agent`);
- what a download leaves in the local tree;
- the reply of `head_object`, whether a transfer raises;
- the table scan, the release list and the fetched template.

The code was followed where the design description and the code differ:

- `process_resource` never writes the step's marker. Only the agent's run can
  write it (`Pipeline.NeverCreatesStepMarker`).
- A FAILED `start_inference` returns no `prompt_type` key at all. It does not
  return the same step again.
- The upload helper removes excluded files from the candidate list before the
  workers run. So excluded files are not counted as skipped; they are not
  counted at all.

## Model

| member | source | states |
|---|---|---|
| `Explorer.AllMarkersComplete` | terraform/src/lib/helpers/explorer.py:7-16 | Every `FileMarker` is visited by `for marker in FileMarker`. |
| `Explorer.FileNameInjective` | terraform/src/lib/helpers/explorer.py:7-16 | Distinct markers have distinct file names. |
| `Explorer.Markers` | terraform/src/lib/helpers/explorer.py:140-160 | A marker is in a directory's marker set iff the directory exists and has an entry with exactly that name. A missing directory has no markers. |
| `Explorer.StatefileIsNotExample` | terraform/src/lib/helpers/explorer.py:119-181 | A name ending in ".tfstate" does not end in ".tf", so a state file never counts as an example. |
| `Explorer.MarkerIsNeitherStateNorExample` | terraform/src/lib/helpers/explorer.py:119-181 | No marker file counts as a state file or as an example file. |
| `Explorer.CheckFileSizeInBytes` | terraform/src/lib/helpers/explorer.py:411-453 | For a known unit of factor f, the check is `Ok(true)` iff the file exists and its size is at most max_size × f. A missing file gives false. The check equals the byte check with max_size × f. |
| `Explorer.UnitCaseInsensitive` | terraform/src/lib/helpers/explorer.py:438-446 | The unit is upper-cased first, so "kb" is "KB", i.e. 1024 bytes per unit. |
| `Explorer.CreateMarkerFs` | terraform/src/lib/helpers/explorer.py:251-280 | The result is true iff the directory exists and the marker file does not. When true, the marker is present afterwards. When false, nothing changes. No other path ever changes. |
| `Explorer.DeleteMarkerFs` | terraform/src/lib/helpers/explorer.py:282-307 | The result is true iff the marker file existed. When true, it is absent afterwards. When false, nothing changes. No other path ever changes. |
| `Explorer.CreateThenDeleteMarker` | terraform/src/lib/helpers/explorer.py:251-307 | Creating an absent marker and then deleting it both report true and restore the file system exactly. |
| `Explorer.CreateMarkerTwice` | terraform/src/lib/helpers/explorer.py:267-271 | A second `create_marker` reports false and changes nothing. |
| `Explorer.MarkerChangesAreLocal` | terraform/src/lib/helpers/explorer.py:251-307 | Creating or deleting one marker leaves every other marker of the directory as it was. |
| `Explorer.DeleteDirectoryFs` | terraform/src/lib/helpers/explorer.py:222-249 | The result is true iff the directory exists. When true, nothing at or below it remains. Every path outside it is unchanged, and a missing directory changes nothing. |
| `Explorer.MakeDirs` | terraform/src/lib/helpers/explorer.py:375 | `mkdir(parents=True, exist_ok=True)` fails iff some prefix of the path is a file. On success every prefix is a directory, old entries are kept, and the only new entries are those prefixes. |
| `Explorer.ComponentsAfterSlash` | terraform/src/lib/awscc_tool_use.py:471 | Joining two path strings with "/" names the first one's path followed by the second one's names. |
| `Explorer.PathTextNamesSameDir` | terraform/src/lib/helpers/s3_helper.py:245 | `str(Path(s))` is absolute iff `s` is, and, unless it is ".", names the same directory as `s`. |
| `Explorer.CopyFileFs` | terraform/src/lib/helpers/explorer.py:351-382 | Returns false and changes nothing when the source is not a file, or when the destination exists and replace is off. On true, the destination holds the source text. A non-UTF-8 source raises UnicodeDecodeError. Only the destination and its parent directories change. |
| `Explorer.ReadTextFile` | terraform/src/lib/helpers/explorer.py:384-409 | A non-empty result implies the file exists and decodes as UTF-8. The result never contains a carriage return (universal newlines). |
| `Explorer.CopyThenRead` | terraform/src/lib/helpers/explorer.py:351-409 | After a successful copy, the destination reads back exactly as the source does. |
| `Explorer.Render` | terraform/src/lib/helpers/explorer.py:335-337 | The summary is inserted verbatim between the template's fixed head and tail. |
| `Explorer.RenderInjective` | terraform/src/lib/helpers/explorer.py:335-337 | Different summaries render to different pages. |
| `Explorer.CreateTemplateFs` | terraform/src/lib/helpers/explorer.py:309-349 | The call raises UnboundLocalError iff the directory cannot be made, and then changes nothing. On success the result is `os.path.join(dir, name) + '.md.tmpl'` (`TemplateFile`), which reads back as the rendered template with newlines normalised. An existing file without replace, or a directory in its place, gives `False`. Only that file and the directory's missing prefixes can change. |
| `Explorer.WriteTemplate` | terraform/src/lib/helpers/explorer.py:326-343 | After the directory exists, the answer is `False` with nothing changed iff the file exists without replace, a directory is in its place, or its parent is missing or not a directory (the caught error of `open`). Otherwise the path reads back as the rendered template, and only that file changes. |
| `Explorer.TemplateFilePlainName` | terraform/src/lib/helpers/explorer.py:326 | For a name without "/", the template file is `<name>.md.tmpl` directly in the directory. |
| `Explorer.NestedTemplateNameNeedsParent` | terraform/src/lib/helpers/explorer.py:324-343 | For a name "a/b" whose subdirectory `a` does not exist, `create_template` answers `False` (or raises as for any makedirs failure), and only the directory is made. |
| `Explorer.CorrectedCreateTemplateFs` | terraform/src/lib/helpers/explorer.py:341-343 | Corrected: a directory that cannot be made gives `False` with nothing changed. Whenever the directory can be made, the result is exactly that of `create_template` as written. |
| `Explorer.FindDirsWithoutTfFiles` | terraform/src/lib/helpers/explorer.py:50-84 | The result lists, each once, exactly the directories strictly below the base that have no `*.tf` entry and whose relative path starts with "examples/resources/". A missing base gives []. |
| `Explorer.FileSystem.CreateMarker` | terraform/src/lib/helpers/explorer.py:251-280 | Result and new entries equal `CreateMarkerFs` of the old entries. |
| `Explorer.FileSystem.DeleteMarker` | terraform/src/lib/helpers/explorer.py:282-307 | Result and new entries equal `DeleteMarkerFs` of the old entries. |
| `Explorer.FileSystem.DeleteDirectory` | terraform/src/lib/helpers/explorer.py:222-249 | Result and new entries equal `DeleteDirectoryFs` of the old entries. |
| `Explorer.FileSystem.CopyFile` | terraform/src/lib/helpers/explorer.py:351-382 | Result and new entries equal `CopyFileFs` of the old entries. |
| `Explorer.FileSystem.CreateTemplate` | terraform/src/lib/helpers/explorer.py:309-349 | Result and new entries equal `CreateTemplateFs` of the old entries. |
| `S3Helper.Tally` | terraform/src/lib/helpers/s3_helper.py:11-28 | Each classified item adds exactly one to the total of the three counters. |
| `S3Helper.AnyMatchesIff` | terraform/src/lib/helpers/s3_helper.py:88-105 | The `any(...)` scan matches iff some entry's filter prefix (`prefix.rstrip('/') + '/' + e.strip('/')`, or `e.strip('/')` without prefix) starts the key. |
| `S3Helper.ShouldProcessIff` | terraform/src/lib/helpers/s3_helper.py:69-112 | A key is processed iff (the include list is empty or some include entry matches) and no exclude entry matches. |
| `S3Helper.IncludeIsNotSegmentMatch` | terraform/src/lib/helpers/s3_helper.py:88-96 | The include test is a raw text prefix: entry "x" admits every key that merely continues "x". |
| `S3Helper.FilterPrefixNormalises` | terraform/src/lib/helpers/s3_helper.py:90-105 | Slashes around an entry and after the prefix are stripped ("d/", "/x/" gives "d/x"; "", "/x/" gives "x"). |
| `S3Helper.RelativePathSplitsKey` | terraform/src/lib/helpers/s3_helper.py:122 | Under a non-empty prefix, the key is the prefix, then only slashes, then the relative path. The relative path has no leading slash. |
| `S3Helper.JoinLocal` | terraform/src/lib/helpers/s3_helper.py:123 | `os.path.join(directory, name)` ends with the name. |
| `S3Helper.DownloadRun` | terraform/src/lib/helpers/s3_helper.py:114-137 | The counts grow by exactly the number of listed keys, and local files are only added. |
| `S3Helper.DownloadCountsWithOverwrite` | terraform/src/lib/helpers/s3_helper.py:114-137 | With overwrite: skipped = keys the filter rejects; failed = admitted keys whose transfer raises; downloaded = the rest. |
| `S3Helper.DownloadSkippedWithOverwrite` | terraform/src/lib/helpers/s3_helper.py:117-128 | With overwrite, the loop's skipped counter grows by exactly the number of rejected keys. |
| `S3Helper.DownloadFailedWithOverwrite` | terraform/src/lib/helpers/s3_helper.py:130-137 | With overwrite, the failed counter grows by exactly the number of admitted keys whose transfer raises. |
| `S3Helper.DownloadSkipsAtLeastRejected` | terraform/src/lib/helpers/s3_helper.py:117-128 | Whatever the local files, every rejected key is counted as skipped. |
| `S3Helper.DownloadStats.constructor` | terraform/src/lib/helpers/s3_helper.py:12-16 | All three counters start at zero. |
| `S3Helper.DownloadStats.Record` | terraform/src/lib/helpers/s3_helper.py:114-137 | Recording an outcome raises exactly its counter by one. |
| `S3Helper.DownloadStats.IncrementDownloaded` | terraform/src/lib/helpers/s3_helper.py:18-20 | `downloaded` grows by one, the other counters stay. |
| `S3Helper.DownloadStats.IncrementSkipped` | terraform/src/lib/helpers/s3_helper.py:22-24 | `skipped` grows by one, the other counters stay. |
| `S3Helper.DownloadStats.IncrementFailed` | terraform/src/lib/helpers/s3_helper.py:26-28 | `failed` grows by one, the other counters stay. |
| `S3Helper.DownloadFromPrefix` | terraform/src/lib/helpers/s3_helper.py:139-178 | The returned counts and local files are those of `DownloadRun` over all listed keys. downloaded + skipped + failed = the number of listed keys. |
| `S3Helper.StarMatchesAll` | terraform/src/lib/helpers/s3_helper.py:247-249 | A lone `*` glob matches every name. |
| `S3Helper.LiteralStarIsPrefix` | terraform/src/lib/helpers/s3_helper.py:247-249 | A literal followed by `*` matches exactly the names starting with that literal. |
| `S3Helper.ShouldExcludeIff` | terraform/src/lib/helpers/s3_helper.py:247-249 | A file is excluded iff some pattern in the list matches its name. |
| `S3Helper.GetS3KeyEmptyPrefix` | terraform/src/lib/helpers/s3_helper.py:251-254 | An empty prefix gives the bare relative path. |
| `S3Helper.GetS3KeyUnderPrefix` | terraform/src/lib/helpers/s3_helper.py:251-254 | A prefix without surrounding slashes gives `prefix + "/" + path`. |
| `S3Helper.UploadThenDownloadPath` | terraform/src/lib/helpers/s3_helper.py:251-254 | The key of an uploaded file lies under the prefix. Downloading that prefix maps the key back to the same relative path. |
| `S3Helper.FileExistsInS3` | terraform/src/lib/helpers/s3_helper.py:256-264 | Found gives true, a 404 gives false, and any other client error is re-raised. |
| `S3Helper.UploadRun` | terraform/src/lib/helpers/s3_helper.py:266-301 | uploaded + skipped + failed = the number of files given to the workers. |
| `S3Helper.UploadOverwriteSkipsNothing` | terraform/src/lib/helpers/s3_helper.py:276-280 | With overwrite, no non-excluded file is skipped. |
| `S3Helper.OverwriteNeverSkips` | terraform/src/lib/helpers/s3_helper.py:269-280 | With overwrite, a file whose full path no pattern excludes is uploaded or failed, never skipped. |
| `S3Helper.Candidates` | terraform/src/lib/helpers/s3_helper.py:321-324 | Every candidate is a found file whose full path `str(f)` no exclude pattern matches. |
| `S3Helper.UploadKeepsTerraformFiles` | terraform/src/lib/helpers/s3_helper.py:321-324 | As written, an upload from an absolute local directory with the `.terraform/*` exclusion keeps every file found as a candidate. |
| `S3Helper.CorrectedCandidatesDropTerraform` | terraform/src/lib/helpers/s3_helper.py:321-324 | Corrected, with the pattern matched against the relative path, a file is a candidate iff it is found and its relative path does not start with ".terraform/". |
| `S3Helper.UploadStats.constructor` | terraform/src/lib/helpers/s3_helper.py:192-196 | All three counters start at zero. |
| `S3Helper.UploadStats.Record` | terraform/src/lib/helpers/s3_helper.py:266-301 | Recording an outcome raises exactly its counter by one. |
| `S3Helper.UploadStats.IncrementUploaded` | terraform/src/lib/helpers/s3_helper.py:198-200 | `uploaded` grows by one, the other counters stay. |
| `S3Helper.UploadStats.IncrementSkipped` | terraform/src/lib/helpers/s3_helper.py:202-204 | `skipped` grows by one, the other counters stay. |
| `S3Helper.UploadStats.IncrementFailed` | terraform/src/lib/helpers/s3_helper.py:206-208 | `failed` grows by one, the other counters stay. |
| `S3Helper.Enumerate` | terraform/src/lib/helpers/s3_helper.py:321-324 | The walk lists each found file exactly once. |
| `S3Helper.UploadToPrefix` | terraform/src/lib/helpers/s3_helper.py:245-355 | The local directory is `Path(local_directory)` resolved against the working directory. A missing one raises ValueError naming its normalised text. Otherwise the workers run over exactly the files whose full path no pattern excludes, each once, and the counts total their number. No candidate gives {0,0,0}; with overwrite, skipped is 0. |
| `S3Helper.UploadCandidates` | terraform/src/lib/helpers/s3_helper.py:326-337 | An empty candidate list returns zeros without running a worker. Otherwise the counts are those of the workers over the listed candidates. |
| `S3Helper.RunUploads` | terraform/src/lib/helpers/s3_helper.py:335-340 | Walking the files front to back, as `executor.map` hands them out, gives the counters `UploadRun` over the files. |
| `S3Helper.UploadNext` | terraform/src/lib/helpers/s3_helper.py:266-301 | One worker adds its file's outcome to the counters. So the counters of the first i files become those of the first i+1. |
| `S3Helper.UploadRunAppend` | terraform/src/lib/helpers/s3_helper.py:337 | The counters do not depend on the order the workers finish in: appending a file adds exactly its outcome. |
| `S3Helper.TerraformPatternAsWritten` | terraform/src/lib/helpers/s3_helper.py:321-324 | As written, ".terraform/*" is matched against the full path under an absolute local directory, so it never excludes anything. |
| `S3Helper.TerraformPatternExcludesTerraformDir` | terraform/src/lib/helpers/s3_helper.py:247-249 | Matched against the relative path, the pattern excludes exactly the files whose relative path starts with ".terraform/". |
| `ToolUse.MaybePrependSystem` | terraform/src/lib/awscc_tool_use.py:270-273 | The text is kept at the end. It is prefixed by the system tag iff `system` is set. |
| `ToolUse.UnprefixPrepend` | terraform/src/lib/awscc_tool_use.py:270-273 | Removing the system tag recovers the original text. |
| `ToolUse.MakeApiToolResult` | terraform/src/lib/awscc_tool_use.py:233-268 | `tool_use_id` is passed through. `is_error` holds iff `error` is set, iff the content is a bare string. Otherwise the list has one entry per set field among `output` and image. The tagged output text comes first and the PNG image last. |
| `ToolUse.RecoverMakeApiToolResult` | terraform/src/lib/awscc_tool_use.py:233-268 | A result without error, or with nothing but an error, is read back unchanged from its block. |
| `ToolUse.ErrorHidesOutput` | terraform/src/lib/awscc_tool_use.py:241-243 | With an error set, output and image make no difference to the block. |
| `ToolUse.ToolResults` | terraform/src/lib/awscc_tool_use.py:128-139 | A reply yields at most one result per block, and every entry is a tool result. |
| `ToolUse.ToolResultsAnswerInOrder` | terraform/src/lib/awscc_tool_use.py:128-139 | The results answer the reply's `tool_use` blocks one to one, in block order. |
| `ToolUse.NoResultsIffNoToolUse` | terraform/src/lib/awscc_tool_use.py:128-142 | A reply produces no tool results iff it has no `tool_use` block. |
| `ToolUse.LoopAddsRounds` | terraform/src/lib/awscc_tool_use.py:103-148 | The loop only appends. What it appends is complete rounds (an assistant turn with tool uses, then one user turn holding exactly its results), closed by a final assistant turn iff the loop returned. |
| `ToolUse.LoopStopsOnlyWithoutToolUse` | terraform/src/lib/awscc_tool_use.py:141-142 | A loop that returned ends with an assistant turn that has no tool use. |
| `ToolUse.SamplingLoop` | terraform/src/lib/awscc_tool_use.py:103-148 | The messages and the returned flag equal the `Loop` function: every round it adds, and whether it returned. |
| `ToolUse.CollectToolResults` | terraform/src/lib/awscc_tool_use.py:128-139 | The inner `for` collects exactly `ToolResults` of the reply. |
| `ToolUse.InitialMessages` | terraform/src/lib/awscc_tool_use.py:158-168 | The conversation starts as one user turn. |
| `ToolUse.FirstReplyFollowsPrompt` | terraform/src/lib/awscc_tool_use.py:158-180 | The user's prompt stays first, and the first added turn is the assistant's. |
| `Pipeline.Required` | terraform/src/lib/awscc_tool_use.py:327-347 | No step requires its own marker or SKIP. |
| `Pipeline.PreconditionIsRequiredMarkers` | terraform/src/lib/awscc_tool_use.py:327-347 | Apart from DELETED, a step's precondition skips iff one of its required markers is missing. REVIEWED needs {C,D}, CLEANED needs {C,D,R}, SUMMARY needs {C,D,R,Cl}. |
| `Pipeline.DeletedPrecondition` | terraform/src/lib/awscc_tool_use.py:320-326 | DELETED skips iff there is no `*.tfstate`, or `terraform.tfstate` is at most 200 bytes. |
| `Pipeline.SkipMarkerWins` | terraform/src/lib/awscc_tool_use.py:304-317 | With SKIP present, the guard skips whatever `re_run` is, and the reset never happens. |
| `Pipeline.GuardIff` | terraform/src/lib/awscc_tool_use.py:304-317 | The guard skips iff SKIP is present, or the step's marker is present without re-run. The reset happens iff there is no SKIP, re-run is on and the step is CREATED or UPDATED. The two never coincide. |
| `Pipeline.DeleteMarkersEffect` | terraform/src/lib/awscc_tool_use.py:315-317 | After deleting a list of markers, each listed marker file is gone, a listed marker that is a directory stays, and unlisted markers are unchanged. |
| `Pipeline.DeleteMarkersKeepsOthers` | terraform/src/lib/awscc_tool_use.py:315-317 | Deleting markers changes no path other than marker files. |
| `Pipeline.ResetClearsMarkers` | terraform/src/lib/awscc_tool_use.py:312-317 | When every marker is a file, the reset leaves the directory with no markers. |
| `Pipeline.SkipDecisionByMarkers` | terraform/src/lib/awscc_tool_use.py:304-347 | Apart from DELETED, `process_resource` skips iff the guard skips or a required marker is missing. |
| `Pipeline.SkippedChangesNothing` | terraform/src/lib/awscc_tool_use.py:349-356 | A skipped step neither runs the agent nor changes the file system. |
| `Pipeline.DeleteTerraformKeepsMarkers` | terraform/src/lib/awscc_tool_use.py:377-387 | Deleting `<dir>/.terraform` keeps every marker of the directory. |
| `Pipeline.CompletedRemovesTerraform` | terraform/src/lib/awscc_tool_use.py:364-396 | A completed step leaves no `.terraform` directory, however the run ended. |
| `Pipeline.MarkersAfterRun` | terraform/src/lib/awscc_tool_use.py:357-396 | After a run, the markers are exactly those the agent left. |
| `Pipeline.NeverCreatesStepMarker` | terraform/src/lib/awscc_tool_use.py:275-396 | `process_resource` never writes the step's marker. If the agent never writes it, it is present afterwards only if it was present before. |
| `Pipeline.ProcessResourceKeepsOrder` | terraform/src/lib/awscc_tool_use.py:304-396 | Suppose the agent only adds the step's marker. Then step order is preserved: every present marker keeps its required markers. |
| `Pipeline.ProcessResource` | terraform/src/lib/awscc_tool_use.py:275-396 | The status and new file system equal `ProcessResourceFs`. |
| `Pipeline.CheckGuard` | terraform/src/lib/awscc_tool_use.py:301-317 | The skip flag is the guard's decision, and the file system is reset exactly on the re-run branch. |
| `Pipeline.RunStep` | terraform/src/lib/awscc_tool_use.py:364-387 | After the agent runs, `.terraform` is deleted, and deleted once more when the run timed out or raised. |
| `Pipeline.DeleteAllMarkers` | terraform/src/lib/awscc_tool_use.py:315-317 | The loop deletes every `FileMarker` in declaration order. |
| `Artifact.BuildLayoutSeparate` | terraform/src/lib/awscc_tool_use.py:470-515 | In `build_artifact`, for every payload name, relative or absolute, the copied `main.tf` and the template directory lie outside the resource's directory. |
| `Artifact.TemplateKeepsMarkers` | terraform/src/lib/awscc_tool_use.py:505-511 | Writing the template, wherever its short name puts it, changes no marker of an existing resource directory outside the template directory. |
| `Artifact.BuildDirIsJoinedText` | terraform/src/lib/awscc_tool_use.py:470-471 | The resource's directory is the text `f"{source_local_dir}/{resource_name}"` split at its slashes, so a "/" inside a payload name descends into subdirectories. |
| `Artifact.NestedNameReadsNestedDir` | terraform/src/lib/awscc_tool_use.py:470-490 | For the payload name "awscc_a/b" the markers are read in `/tmp/target_resources/awscc_a/b`, and the resource is skipped iff that directory is not ready or already copied. |
| `Artifact.ReadyIsSummaryPrecondition` | terraform/src/lib/awscc_tool_use.py:478-482 | COPY is ready iff CREATED, DELETED, REVIEWED and CLEANED are present, i.e. SUMMARY's requirement. |
| `Artifact.StepFs` | terraform/src/lib/awscc_tool_use.py:476-523 | A resource is counted as skipped iff a required marker is missing, or COPIED is present without re-run. A skipped resource changes nothing. |
| `Artifact.TemplatesFileFailsStep` | terraform/src/lib/awscc_tool_use.py:503-523 | With a regular file at `/tmp/output/templates`, an unblocked resource is counted as failed. The exception `create_template` raises is caught, and no marker changes. |
| `Artifact.StepMarkers` | terraform/src/lib/awscc_tool_use.py:476-523 | A successful step adds exactly COPIED to the markers. Any other outcome leaves them unchanged. |
| `Artifact.MarkAddsCopied` | terraform/src/lib/awscc_tool_use.py:515 | Setting COPIED in a ready directory adds exactly COPIED. |
| `Artifact.DoneThenSkipped` | terraform/src/lib/awscc_tool_use.py:486-490 | A resource copied once is skipped by every later COPY without re-run. |
| `Artifact.RunFs` | terraform/src/lib/awscc_tool_use.py:463-523 | Every item adds one to exactly one counter, so a finished loop's total is the item count. The only escaping error is IndexError. |
| `Artifact.RunFailsIff` | terraform/src/lib/awscc_tool_use.py:469-470 | The loop raises iff some resource name lacks "awscc_". |
| `Artifact.RunSkipsCopied` | terraform/src/lib/awscc_tool_use.py:486-490 | Without re-run, resources that all carry COPIED are all counted as skipped, and nothing changes. |
| `Artifact.LoggedShares` | terraform/src/lib/awscc_tool_use.py:549-552 | `build_artifact` logs the shares iff there is at least one resource. |
| `Artifact.LoggedSharesAsWritten` | terraform/src/lib/awscc_tool_use.py:629-631 | As written, `write_artifact` divides by the total unguarded and raises ZeroDivisionError iff the total is 0. |
| `Artifact.SharesAddUp` | terraform/src/lib/awscc_tool_use.py:549-552 | When the counters partition the total, the three logged shares add up to 100. |
| `Artifact.Texts` | terraform/src/lib/awscc_tool_use.py:451 | The filter keeps exactly the string items, with their multiplicity. |
| `Artifact.EmptyPayloadDownloadsAll` | terraform/src/lib/awscc_tool_use.py:451-461 | With no string item, the download admits every key not starting with ".terraform". |
| `Artifact.NestedTerraformDownloaded` | terraform/src/lib/awscc_tool_use.py:454-461 | A resource's own `<name>/.terraform/…` keys pass the download filter. |
| `Artifact.SourceUploadKeepsTerraform` | terraform/src/lib/awscc_tool_use.py:527-534 | The source upload's ".terraform/*" pattern excludes nothing. |
| `Artifact.BuildArtifactCounts` | terraform/src/lib/awscc_tool_use.py:451-469 | Every string item is counted once; other items are dropped before counting. |
| `Artifact.WriteArtifactEmptyAsWritten` | terraform/src/lib/awscc_tool_use.py:626-631 | As written, an empty list raises ZeroDivisionError and changes nothing. |
| `Artifact.WriteArtifactShares` | terraform/src/lib/awscc_tool_use.py:626-631 | Guarded, an empty list gives zero counts and no share lines. A non-empty one logs shares summing to 100. |
| `Artifact.CopyStep` | terraform/src/lib/awscc_tool_use.py:476-523 | The outcome and new file system equal `StepFs`. |
| `Artifact.Turn` | terraform/src/lib/awscc_tool_use.py:469-523 | One turn either raises IndexError with nothing changed, or leaves the loop where `RunFs` continues with the rest. |
| `Artifact.RunLoop` | terraform/src/lib/awscc_tool_use.py:469-525 | The counters and file system after the `for` loop equal `RunFs` from zero counts. |
| `Artifact.BuildArtifact` | terraform/src/lib/awscc_tool_use.py:436-553 | The counts and file system are those of the COPY loop over the string items in sorted order. Shares are logged iff the loop finished and there was at least one string item. |
| `Artifact.WriteArtifact` | terraform/src/lib/awscc_tool_use.py:555-632 | The counts and file system equal the corrected `WriteArtifactFs`. |
| `Handler.Dispatch` | terraform/src/lib/awscc_tool_use.py:657-677 | Each of the five step names maps to one of the five step markers. |
| `Handler.DispatchCases` | terraform/src/lib/awscc_tool_use.py:657-677 | A name has a case iff it is CREATE, DELETE, REVIEW, CLEANER or SUMMARY. Different names give different markers. |
| `Handler.ChainMeetsPreconditions` | terraform/src/lib/awscc_tool_use.py:657-677 | Each next step's required markers are set by the steps before it. The chain reaches COPY exactly after SUMMARY. |
| `Handler.InferenceUploadKeepsTerraform` | terraform/src/lib/awscc_tool_use.py:696-704 | The upload in the `finally` keeps every file below the resource directory as a candidate, `.terraform` included. |
| `Handler.StartInferenceFs` | terraform/src/lib/awscc_tool_use.py:634-710 | When the resource directory is gone by the `finally`, its upload raises ValueError("Local directory does not exist: …"). Otherwise a name without a case raises KeyError("base_prompt"), and for the others status is SUCCESS iff the marker is present after `process_resource`, else FAILED. `prompt_type` is present, and is the next step, iff SUCCESS. |
| `Handler.AlreadyMarkedSucceeds` | terraform/src/lib/awscc_tool_use.py:681-692 | A step whose marker is already present succeeds without running anything. |
| `Handler.SuccessNeedsMarkerFromRun` | terraform/src/lib/awscc_tool_use.py:681-692 | If the agent never writes the marker, the call returns SUCCESS iff the marker was there before. |
| `Handler.StartInference` | terraform/src/lib/awscc_tool_use.py:634-710 | The event and file system equal `StartInferenceFs`. |
| `Handler.UpdateRaisesAsWritten` | terraform/src/lib/awscc_tool_use.py:719-720 | As written, UPDATE is accepted and the handler raises: KeyError, or the upload's ValueError when the download left no resource directory. |
| `Handler.CorrectedHandlerErrors` | terraform/src/lib/awscc_tool_use.py:712-735 | Corrected, a step raises only the upload's ValueError for a resource directory that is gone, and COPY only IndexError. Every other unknown name gets `{FAILED, "Invalid prompt type"}` with nothing changed. |
| `Handler.HandlerAgreesExceptUpdate` | terraform/src/lib/awscc_tool_use.py:719 | The corrected handler answers like the written one on every name but UPDATE. |
| `Handler.LambdaHandler` | terraform/src/lib/awscc_tool_use.py:712-735 | The result and file system equal the corrected `LambdaHandlerFs`. |
| `Discovery.GetProcessedResources` | agents/discovery_agent.py:15-33 | A name is in the set iff some item has a string `resource_name` equal to it. A failed scan gives {}. |
| `Discovery.VersionOf` | agents/discovery_agent.py:51-52 | An empty tag gives "unknown". Otherwise the result is the tag minus its leading "v"s: a suffix of the tag not starting with "v", preceded only by "v"s. |
| `Discovery.VersionOfTag` | agents/discovery_agent.py:51-52 | Tagging a version with "v" and extracting it again gives it back. |
| `Discovery.LatestVersion` | agents/discovery_agent.py:73 | The newest release's tag without its leading "v"s. An empty tag gives "", not "unknown". |
| `Discovery.FirstNotInIsFirst` | agents/discovery_agent.py:82-85 | The in-release search returns an unprocessed element with every earlier element processed, or none when all are processed. |
| `Discovery.FirstUnprocessedIsFlat` | agents/discovery_agent.py:76-85 | The nested search equals a flat search over all releases' resources in order. |
| `Discovery.FindUnprocessedChoice` | agents/discovery_agent.py:60-88 | All processed (or no release) gives NONE/NONE. Otherwise the result is the first unprocessed resource in release order, then in-release order, paired with the newest release's version. |
| `Discovery.ChoiceMovesOn` | agents/discovery_agent.py:76-85 | Once the chosen resource is processed, it is never chosen again. |
| `Storage.Replacements` | agents/storage_agent.py:38-42 | Every placeholder of the substitution list is non-empty, so each `replace` is well defined. |
| `Storage.ApplyReplacements` | agents/storage_agent.py:44-46 | The loop applies the replace-alls in order, each to the previous result. |
| `Storage.SubstituteThree` | agents/storage_agent.py:44-46 | Three pairs are three nested replace-alls, the first innermost. |
| `Storage.LaterSubstitutionsReachInsertedText` | agents/storage_agent.py:38-46 | The heading and service placeholders are also replaced inside the inserted description. |
| `Storage.HeadingReplacesInsertedPlaceholder` | agents/storage_agent.py:38-46 | A description equal to "First example" ends up as the heading. |
| `Storage.NoPlaceholderUnchanged` | agents/storage_agent.py:44-46 | A template without placeholders comes out unchanged. |
| `Storage.LinesWith` | agents/storage_agent.py:53-54 | Every listed index is a line containing the pattern. |
| `Storage.LinesWithNonEmpty` | agents/storage_agent.py:51-57 | The index list is non-empty iff some line contains the pattern. |
| `Storage.ValidateCases` | agents/storage_agent.py:48-59 | No `{{ tffile` gives the missing-pattern error. Both `{{ tffile` and `resource "` give the both-embedded error. Otherwise the text is returned unchanged. |
| `Storage.TemplateReplacerAnswers` | agents/storage_agent.py:17-62 | The answer is the exception text after "Error in template replacement: ", or one of the two errors, or a substituted text with `{{ tffile` and no `resource "`. |
| `Storage.TemplateReplacer` | agents/storage_agent.py:30-62 | The answer equals `TemplateReplacerResult`. |

## Left out

- Calls to the language model, tool execution, and the tools module are not modelled. This covers Bedrock and Anthropic. The replies and the tool results are parameters.
- `asyncio.wait_for` and its timeout are not modelled. A run's end (returned, timed out, raised) is part of the `agent` parameter.
- The throttling sleep and retry in `sampling_loop` are not modelled. A failed call is a `None` reply, and the loop tries again.
- ToolUse.SamplingLoop: `while True` is bounded by a `fuel` count of API calls. A loop that never stops on its own is not captured beyond that bound.
- S3 and DynamoDB are not modelled, nor is GitHub HTTP. Pagination, sessions and client closing are left out too. The listed keys, `head_object` replies, transfer failures, scan replies and releases are inputs.
- The thread pool, semaphore and locks are not modelled. Transfers run as a sequential loop, and only the final counts are stated.
- The uploads after `build_artifact` and in `start_inference` only read the local tree. They are stated through their arguments (`SourceUpload`, `TargetUpload`, `InferenceUpload`), not run. The one exception they add that the model states is the ValueError of `start_inference`'s upload for a missing resource directory.
- Artifact.BuildArtifactFs: the ValueError of the two uploads after the loop is not modelled. `/tmp/target_resources` is made by the download's `makedirs`, and `/tmp/output` by `create_directory`, before the loop. S3 errors of any upload are not modelled either.
- The downloads in `build_artifact` and `start_inference` are parameters: what they leave in the local tree. Their filters are the `S3Helper` model.
- The regular expression in `extract_resources_from_release` is not modelled. Each release comes with its list of resource names.
- A JSON `null` tag is not modelled. A missing tag is the empty text.
- The `discovery_agent` tool wrapper (JSON encoding and its "ERROR" result) is left out.
- `resource_name` of `template_replacer` is unused by its body and is not a parameter.
- Fetching and decoding the generic template is an input: its text or an exception message.
- Logging, `_render_message`, `_tool_output_callback` and `logger_level` are left out.
- Timing statistics and the `.1f` formatting of the percentages are left out. The shares are modelled as exact reals before formatting.
- The content of `TEMPLATE_FILE_FORMAT` and all prompt texts are left out. The template is a head and a tail around `$summary_text`.
- `list_subdirectories` is not used by the modelled code. The `create_directory` call at the start of `build_artifact` is not modelled: `/tmp/output` is taken to exist.
- Paths are sequences of names. The path strings of `build_artifact`, `write_artifact` and `create_template` are split on "/", and "." and ".." are not resolved.
- S3Helper.UploadToPrefix: pathlib's normalisation of the local directory collapses repeated slashes and drops a trailing one, but "." names are not dropped and a leading "//" is not kept, because every caller passes a plain absolute directory.
- A file's size is its UTF-8 length. File modes, permissions and OSErrors other than a file in the way or a missing parent directory are not modelled.
- `copy_file` may return `False`, or `create_template` may return `False` for an existing template, a directory in its place, or a missing parent (a short name holding "/"). In both cases the step still counts as successful when the summary is non-empty, because the code ignores both results. Only an exception counts as failed. Examples are an IOError from `copy_file`, a non-UTF-8 source, or the UnboundLocalError of a template directory that cannot be made.
- S3Helper.GlobMatch and S3Helper.ShouldExclude model `fnmatch` for literal characters, `?` and `*` only. The character classes `[seq]` and `[!seq]` are not interpreted, and `[` is read as a literal. The only glob pattern the code passes is ".terraform/*".
- Exceptions inside `process_resource` other than those of the run itself are not modelled.

## Findings

| source | as written | input that shows it | evidently intended | confidence | as-written member | corrected member |
|---|---|---|---|---|---|---|
| terraform/src/lib/helpers/s3_helper.py:321-324 | The exclude glob ".terraform/*" is matched against `str(f)`, the full path of the file, which starts with "/" under an absolute local directory. | `start_inference` uploads `/tmp/target_resources/awscc_x`: the file `.terraform/providers/p` below it stays a candidate and is uploaded. | Match the pattern against the path relative to the local directory, so `.terraform` contents are excluded. | not executed | `S3Helper.UploadKeepsTerraformFiles` | `S3Helper.CorrectedCandidatesDropTerraform` |
| terraform/src/lib/awscc_tool_use.py:719 | `lambda_handler` accepts "UPDATE", but `start_inference` has no UPDATE case. Its `finally` then pops the missing "base_prompt" key and raises KeyError. | An event with `prompt_type` "UPDATE" raises KeyError. | Accept only the step names that have a case; UPDATE gets "Invalid prompt type". | not executed | `Handler.UpdateRaisesAsWritten` | `Handler.CorrectedHandlerErrors` |
| terraform/src/lib/awscc_tool_use.py:629-631 | `write_artifact` divides by `total_count` without the `total_count > 0` guard that `build_artifact` has. | An empty `target_resources_dir` raises ZeroDivisionError. | Log the shares only when there is a resource. | not executed | `Artifact.WriteArtifactEmptyAsWritten` | `Artifact.WriteArtifactShares` |
| terraform/src/lib/helpers/explorer.py:324-343 | When `os.makedirs` raises OSError, the handler formats `file_path`, which is assigned only after that call. So it raises UnboundLocalError instead of returning `False`. | `build_artifact` with a regular file at `/tmp/output/templates`: the caught exception counts each ready resource as failed. | Log the error and return `False`, as the other failures do. | not executed | `Explorer.CreateTemplateFs` | `Explorer.CorrectedCreateTemplateFs` |
