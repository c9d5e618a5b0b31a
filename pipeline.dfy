/**
 * `process_resource` of terraform/src/lib/awscc_tool_use.py: the guard that
 * decides from a resource's markers, the step and the re-run flag whether the
 * step runs, the reset of the markers on a re-run of CREATED or UPDATED, the
 * step preconditions, and the clean-up of `.terraform` after a run.
 *
 * The run itself (`run_prompt` under `asyncio.wait_for`) is a parameter
 * `agent`: from the working file system it gives how the run ended and the
 * file system it left.
 */
module Pipeline {
  import opened Wrappers
  import opened Strings
  import opened Explorer

  /** How `run_prompt` ended: normally, by the per-resource timeout, or by an exception. */
  datatype AgentEnd = Returned | TimedOut | Raised

  /** The `status` that `process_resource` records for the resource. */
  datatype RunStatus = SkippedRun | Completed

  // ---------------------------------------------------------------------
  // The decision (awscc_tool_use.py:304-347)
  // ---------------------------------------------------------------------

  /** The first `if`/`elif` pair: the skip marker, or the step's own marker without re-run. */
  predicate GuardSkips(markers: set<Marker>, step: Marker, reRun: bool) {
    if Skip in markers then true
    else step in markers && !reRun
  }

  /** The third branch: a re-run of CREATED or UPDATED that the guard let through. */
  predicate Resets(markers: set<Marker>, step: Marker, reRun: bool) {
    if Skip in markers then false
    else if step in markers && !reRun then false
    else reRun && (step == Created || step == Updated)
  }

  /** The markers a step needs before it is worth running. */
  function Required(step: Marker): (r: set<Marker>)
    ensures step !in r && Skip !in r
  {
    match step
    case Reviewed => {Created, Deleted}
    case Cleaned => {Created, Deleted, Reviewed}
    case Summary => {Created, Deleted, Reviewed, Cleaned}
    case _ => {}
  }

  /** The path of the state file that the DELETED precondition measures. */
  function StatefilePath(d: Path): Path {
    d + ["terraform.tfstate"]
  }

  /** The deterministic checks that follow the guard, as the code chains them. */
  predicate PreconditionSkips(fs: FsState, d: Path, step: Marker) {
    match step
    case Deleted =>
      if !ContainsStatefile(fs, d) then true
      else CheckFileSizeWithUnits(fs, StatefilePath(d), 200.0, "B") == Ok(true)
    case Reviewed =>
      !HasMarker(fs, d, Created) || !HasMarker(fs, d, Deleted)
    case Cleaned =>
      !HasMarker(fs, d, Created) || !HasMarker(fs, d, Deleted) || !HasMarker(fs, d, Reviewed)
    case Summary =>
      !HasMarker(fs, d, Created) || !HasMarker(fs, d, Deleted) || !HasMarker(fs, d, Reviewed)
        || !HasMarker(fs, d, Cleaned)
    case _ => false
  }

  /** Apart from DELETED, the precondition is "every required marker is present". */
  lemma PreconditionIsRequiredMarkers(fs: FsState, d: Path, step: Marker)
    requires step != Deleted
    ensures PreconditionSkips(fs, d, step) <==> !(Required(step) <= Markers(fs, d))
  {
    var ms := Markers(fs, d);
    match step
    case Reviewed =>
      assert Required(step) <= ms <==> Created in ms && Deleted in ms;
    case Cleaned =>
      assert Required(step) <= ms <==> Created in ms && Deleted in ms && Reviewed in ms;
    case Summary =>
      assert Required(step) <= ms <==> Created in ms && Deleted in ms && Reviewed in ms && Cleaned in ms;
    case _ =>
  }

  /** DELETED runs only on a state file of more than 200 bytes. */
  lemma DeletedPrecondition(fs: FsState, d: Path)
    ensures PreconditionSkips(fs, d, Deleted) <==>
      !ContainsStatefile(fs, d) || (IsFile(fs, StatefilePath(d)) && fs[StatefilePath(d)].size <= 200)
  {
    CheckFileSizeInBytes(fs, StatefilePath(d), 200.0, "B", 1);
  }

  /** The skip marker stops every step, whatever the re-run flag. */
  lemma SkipMarkerWins(markers: set<Marker>, step: Marker, reRun: bool)
    requires Skip in markers
    ensures GuardSkips(markers, step, reRun) && !Resets(markers, step, reRun)
  {
  }

  /**
   * The guard skips exactly on the skip marker, or on the step's own marker
   * without re-run; the reset happens exactly on a re-run of CREATED or
   * UPDATED without the skip marker.
   */
  lemma GuardIff(markers: set<Marker>, step: Marker, reRun: bool)
    ensures GuardSkips(markers, step, reRun) <==> Skip in markers || (step in markers && !reRun)
    ensures Resets(markers, step, reRun) <==> Skip !in markers && reRun && step in {Created, Updated}
    ensures !(GuardSkips(markers, step, reRun) && Resets(markers, step, reRun))
  {
  }

  // ---------------------------------------------------------------------
  // The marker reset (awscc_tool_use.py:312-317)
  // ---------------------------------------------------------------------

  /** The marker files of `d`. */
  function MarkerPaths(d: Path): set<Path> {
    set m | m in AllMarkers :: d + [FileName(m)]
  }

  /** `delete_marker` for each marker of `ms`, in order. */
  function DeleteMarkersFs(fs: FsState, d: Path, ms: seq<Marker>): FsState {
    if ms == [] then fs
    else DeleteMarkerFs(DeleteMarkersFs(fs, d, ms[..|ms| - 1]), d, ms[|ms| - 1]).1
  }

  /**
   * The marker files of `ms` are gone afterwards; a marker that is a
   * directory stays (`delete_marker` removes files only), and every other
   * marker is as it was.
   */
  lemma {:induction false} DeleteMarkersEffect(fs: FsState, d: Path, ms: seq<Marker>, m: Marker)
    ensures HasMarker(DeleteMarkersFs(fs, d, ms), d, m)
      == (HasMarker(fs, d, m) && (m !in ms || !IsFile(fs, d + [FileName(m)])))
    ensures IsFile(DeleteMarkersFs(fs, d, ms), d + [FileName(m)]) ==> IsFile(fs, d + [FileName(m)])
    ensures m !in ms ==> IsFile(DeleteMarkersFs(fs, d, ms), d + [FileName(m)]) == IsFile(fs, d + [FileName(m)])
    ensures IsDir(DeleteMarkersFs(fs, d, ms), d) == IsDir(fs, d)
  {
    if ms != [] {
      var init := ms[..|ms| - 1];
      var last := ms[|ms| - 1];
      var mid := DeleteMarkersFs(fs, d, init);
      var p := d + [FileName(m)];
      var q := d + [FileName(last)];
      DeleteMarkersEffect(fs, d, init, m);
      assert m in ms <==> m in init || m == last;
      assert d != q by { assert |d| < |q|; }
      if m != last {
        FileNameInjective(m, last);
        assert p != q by { assert p[|d|] != q[|d|]; }
      }
    }
  }

  /** Nothing but the marker files of `d` changes. */
  lemma {:induction false} DeleteMarkersKeepsOthers(fs: FsState, d: Path, ms: seq<Marker>, q: Path)
    requires forall m :: q != d + [FileName(m)]
    ensures q in DeleteMarkersFs(fs, d, ms) <==> q in fs
    ensures q in fs ==> DeleteMarkersFs(fs, d, ms)[q] == fs[q]
  {
    if ms != [] {
      DeleteMarkersKeepsOthers(fs, d, ms[..|ms| - 1], q);
      assert q != d + [FileName(ms[|ms| - 1])];
    }
  }

  /** Every marker present in `d` is a file, as `create_marker` makes them. */
  predicate MarkersAreFiles(fs: FsState, d: Path) {
    forall m :: HasMarker(fs, d, m) ==> IsFile(fs, d + [FileName(m)])
  }

  /** After the reset no marker file is left. */
  lemma ResetClearsMarkers(fs: FsState, d: Path)
    requires MarkersAreFiles(fs, d)
    ensures Markers(DeleteMarkersFs(fs, d, AllMarkers), d) == {}
  {
    var r := DeleteMarkersFs(fs, d, AllMarkers);
    forall m | true ensures m !in Markers(r, d) {
      AllMarkersComplete(m);
      DeleteMarkersEffect(fs, d, AllMarkers, m);
    }
  }

  // ---------------------------------------------------------------------
  // process_resource (awscc_tool_use.py:275-396)
  // ---------------------------------------------------------------------

  function TerraformDir(d: Path): Path {
    d + [".terraform"]
  }

  /** The file system after the guard: reset when the re-run of CREATED or UPDATED applies. */
  function AfterGuard(fs: FsState, d: Path, step: Marker, reRun: bool): FsState {
    if Resets(Markers(fs, d), step, reRun) then DeleteMarkersFs(fs, d, AllMarkers) else fs
  }

  /** Whether `process_resource` skips the step. */
  predicate Skips(fs: FsState, d: Path, step: Marker, reRun: bool) {
    GuardSkips(Markers(fs, d), step, reRun) || PreconditionSkips(AfterGuard(fs, d, step, reRun), d, step)
  }

  /**
   * `process_resource` as a function of the file system: a skipped step
   * does not run the agent; a step that runs ends with `.terraform` deleted
   * (twice when the run timed out or raised) and is recorded as completed
   * however the run ended.
   */
  function ProcessResourceFs(fs: FsState, d: Path, step: Marker, reRun: bool,
                             agent: FsState -> (AgentEnd, FsState)): (RunStatus, FsState)
  {
    var fs1 := AfterGuard(fs, d, step, reRun);
    if Skips(fs, d, step, reRun) then (SkippedRun, fs1)
    else
      var (end, fs2) := agent(fs1);
      var fs3 := if end != Returned then DeleteDirectoryFs(fs2, TerraformDir(d)).1 else fs2;
      (Completed, DeleteDirectoryFs(fs3, TerraformDir(d)).1)
  }

  /**
   * For every step but DELETED the decision depends only on the marker set,
   * the step and the re-run flag: skip on the guard or on a missing required
   * marker.
   */
  lemma SkipDecisionByMarkers(fs: FsState, d: Path, step: Marker, reRun: bool)
    requires step != Deleted
    ensures Skips(fs, d, step, reRun) <==>
      GuardSkips(Markers(fs, d), step, reRun) || !(Required(step) <= Markers(fs, d))
  {
    PreconditionIsRequiredMarkers(AfterGuard(fs, d, step, reRun), d, step);
  }

  /** A skipped step changes nothing: the reset only happens on a step that then runs. */
  lemma SkippedChangesNothing(fs: FsState, d: Path, step: Marker, reRun: bool,
                              agent: FsState -> (AgentEnd, FsState))
    requires ProcessResourceFs(fs, d, step, reRun, agent).0 == SkippedRun
    ensures ProcessResourceFs(fs, d, step, reRun, agent).1 == fs
  {
  }

  /** Deleting `.terraform` keeps every marker of the working directory. */
  lemma DeleteTerraformKeepsMarkers(fs: FsState, d: Path)
    ensures Markers(DeleteDirectoryFs(fs, TerraformDir(d)).1, d) == Markers(fs, d)
  {
    var r := DeleteDirectoryFs(fs, TerraformDir(d)).1;
    assert !Under(TerraformDir(d), d);
    forall m ensures HasMarker(r, d, m) == HasMarker(fs, d, m) {
      var p := d + [FileName(m)];
      assert p[|d|] == FileName(m);
      assert FileName(m)[0] != '.';
      assert !Under(TerraformDir(d), p) by {
        assert ".terraform"[0] == '.';
      }
    }
  }

  /** A completed step leaves no `.terraform` directory behind. */
  lemma CompletedRemovesTerraform(fs: FsState, d: Path, step: Marker, reRun: bool,
                                  agent: FsState -> (AgentEnd, FsState))
    requires ProcessResourceFs(fs, d, step, reRun, agent).0 == Completed
    ensures !IsDir(ProcessResourceFs(fs, d, step, reRun, agent).1, TerraformDir(d))
  {
    var fs1 := AfterGuard(fs, d, step, reRun);
    var fs2 := agent(fs1).1;
    var fs3 := if agent(fs1).0 != Returned then DeleteDirectoryFs(fs2, TerraformDir(d)).1 else fs2;
    assert Under(TerraformDir(d), TerraformDir(d));
  }

  /** The markers after the step: those the agent left (the clean-up keeps them). */
  lemma MarkersAfterRun(fs: FsState, d: Path, step: Marker, reRun: bool,
                        agent: FsState -> (AgentEnd, FsState))
    requires !Skips(fs, d, step, reRun)
    ensures Markers(ProcessResourceFs(fs, d, step, reRun, agent).1, d)
      == Markers(agent(AfterGuard(fs, d, step, reRun)).1, d)
  {
    var fs1 := AfterGuard(fs, d, step, reRun);
    var fs2 := agent(fs1).1;
    var fs3 := if agent(fs1).0 != Returned then DeleteDirectoryFs(fs2, TerraformDir(d)).1 else fs2;
    DeleteTerraformKeepsMarkers(fs2, d);
    DeleteTerraformKeepsMarkers(fs3, d);
  }

  /**
   * `process_resource` never writes the step's marker itself: when the agent
   * never creates it, it is present afterwards only if it was present before.
   */
  lemma NeverCreatesStepMarker(fs: FsState, d: Path, step: Marker, reRun: bool,
                               agent: FsState -> (AgentEnd, FsState))
    requires forall x :: HasMarker(agent(x).1, d, step) ==> HasMarker(x, d, step)
    ensures HasMarker(ProcessResourceFs(fs, d, step, reRun, agent).1, d, step) ==> HasMarker(fs, d, step)
  {
    var fs1 := AfterGuard(fs, d, step, reRun);
    if !Skips(fs, d, step, reRun) {
      MarkersAfterRun(fs, d, step, reRun, agent);
      if Resets(Markers(fs, d), step, reRun) {
        AllMarkersComplete(step);
        DeleteMarkersEffect(fs, d, AllMarkers, step);
      }
    }
  }

  /** The markers respect the step order: each present marker has its required ones. */
  predicate Ordered(markers: set<Marker>) {
    forall m :: m in markers ==> Required(m) <= markers
  }

  /** An agent that adds the step's marker or nothing, and removes none. */
  ghost predicate OnlyAddsStepMarker(agent: FsState -> (AgentEnd, FsState), d: Path, step: Marker) {
    forall x :: Markers(x, d) <= Markers(agent(x).1, d) <= Markers(x, d) + {step}
  }

  /**
   * With an agent that only adds the step's marker, the markers stay in step
   * order: a step that needs markers runs only when they are all present.
   */
  lemma ProcessResourceKeepsOrder(fs: FsState, d: Path, step: Marker, reRun: bool,
                                  agent: FsState -> (AgentEnd, FsState))
    requires Ordered(Markers(fs, d)) && MarkersAreFiles(fs, d) && OnlyAddsStepMarker(agent, d, step)
    ensures Ordered(Markers(ProcessResourceFs(fs, d, step, reRun, agent).1, d))
  {
    if !Skips(fs, d, step, reRun) {
      var fs1 := AfterGuard(fs, d, step, reRun);
      var before := Markers(fs1, d);
      if Resets(Markers(fs, d), step, reRun) {
        ResetClearsMarkers(fs, d);
      }
      assert Markers(fs1, d) <= Markers(fs, d);
      assert Ordered(before);
      if step != Deleted {
        PreconditionIsRequiredMarkers(fs1, d, step);
      }
      assert Required(step) <= before;
      MarkersAfterRun(fs, d, step, reRun, agent);
      var after := Markers(agent(fs1).1, d);
      assert before <= after <= before + {step};
      forall m | m in after ensures Required(m) <= after {
        if m != step {
          assert m in before;
        }
      }
    }
  }

  /**
   * `process_resource`, in place on the working file system. The reset
   * deletes the markers one by one in declaration order.
   */
  method ProcessResource(fsys: FileSystem, d: Path, step: Marker, reRun: bool,
                         agent: FsState -> (AgentEnd, FsState))
    returns (status: RunStatus)
    modifies fsys
    ensures (status, fsys.entries) == ProcessResourceFs(old(fsys.entries), d, step, reRun, agent)
  {
    var skip := CheckGuard(fsys, d, step, reRun);
    if PreconditionSkips(fsys.entries, d, step) {
      skip := true;
    }
    if skip {
      return SkippedRun;
    }
    RunStep(fsys, d, agent);
    return Completed;
  }

  /** The `if`/`elif` chain on the markers, with the reset on its third branch. */
  method CheckGuard(fsys: FileSystem, d: Path, step: Marker, reRun: bool) returns (skip: bool)
    modifies fsys
    ensures skip == GuardSkips(Markers(old(fsys.entries), d), step, reRun)
    ensures fsys.entries == AfterGuard(old(fsys.entries), d, step, reRun)
  {
    var markers := Markers(fsys.entries, d);
    skip := false;
    if Skip in markers {
      skip := true;
    } else if step in markers && !reRun {
      skip := true;
    } else if reRun {
      if step == Created || step == Updated {
        DeleteAllMarkers(fsys, d);
      }
    }
  }

  /** The run and the clean-up of `.terraform` (once more when the run timed out or raised). */
  method RunStep(fsys: FileSystem, d: Path, agent: FsState -> (AgentEnd, FsState))
    modifies fsys
    ensures var (end, fs2) := agent(old(fsys.entries));
      var fs3 := if end != Returned then DeleteDirectoryFs(fs2, TerraformDir(d)).1 else fs2;
      fsys.entries == DeleteDirectoryFs(fs3, TerraformDir(d)).1
  {
    var (end, after) := agent(fsys.entries);
    fsys.entries := after;
    if end != Returned {
      var _ := fsys.DeleteDirectory(TerraformDir(d));
    }
    var _ := fsys.DeleteDirectory(TerraformDir(d));
  }

  /** `for marker in FileMarker: delete_marker(dir_path, marker)`. */
  method DeleteAllMarkers(fsys: FileSystem, d: Path)
    modifies fsys
    ensures fsys.entries == DeleteMarkersFs(old(fsys.entries), d, AllMarkers)
  {
    for i := 0 to |AllMarkers|
      invariant fsys.entries == DeleteMarkersFs(old(fsys.entries), d, AllMarkers[..i])
    {
      var _ := fsys.DeleteMarker(d, AllMarkers[i]);
      assert AllMarkers[..i + 1][..i] == AllMarkers[..i];
    }
    assert AllMarkers[..|AllMarkers|] == AllMarkers;
  }
}
