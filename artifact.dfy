/**
 * `build_artifact` and `write_artifact` of terraform/src/lib/awscc_tool_use.py:
 * for each resource, in sorted order, the COPY step copies `main.tf` to the
 * output tree, renders the documentation template from `summary.txt` and
 * sets the COPIED marker; each resource adds one to exactly one of the
 * successful, skipped and failed counters, and the counters are logged as
 * shares of the total.
 *
 * The local tree is the file system of the Explorer model. The transfers
 * around the loop are the S3Helper model; here only their arguments are
 * stated. Log lines other than the final shares are not modelled.
 */
module Artifact {
  import opened Wrappers
  import opened Strings
  import opened Explorer
  import opened S3Helper
  import opened Pipeline

  // ---------------------------------------------------------------------
  // Where one resource is read and written (awscc_tool_use.py:446-503, 568-598)
  // ---------------------------------------------------------------------

  /** The paths one COPY step touches. */
  datatype Layout = Layout(dir: Path, mainDst: Path, summary: Path, templateDir: Path)

  /** `/tmp/target_resources`, where `build_artifact` downloads the resources. */
  const SourceRoot: Path := ["tmp", "target_resources"]

  /** `/tmp/output`, the tree `build_artifact` uploads as the artifact. */
  const TargetRoot: Path := ["tmp", "output"]

  /**
   * The paths `build_artifact` uses for the resource `name`. The paths are
   * built as text, so a "/" inside the name descends into subdirectories; the
   * marker directory is `f"{source_local_dir}/{name}"`, while the two
   * `os.path.join` calls let an absolute name replace what precedes it.
   */
  function BuildLayout(name: string): Layout {
    Layout(
      SourceRoot + Components(name),
      DirPath(TargetRoot + ["examples", "resources"], name) + ["main.tf"],
      DirPath(SourceRoot, name) + ["summary.txt"],
      TargetRoot + ["templates", "resources"])
  }

  /** `source_local_dir`, the text "/tmp/target_resources". */
  const SourceDirText: string := "/" + "tmp" + "/" + "target_resources"

  /** The marker directory is the text `f"{source_local_dir}/{name}"` split at its slashes. */
  lemma BuildDirIsJoinedText(name: string)
    ensures BuildLayout(name).dir == Components(SourceDirText + "/" + name)
  {
    ComponentsAfterSlash(SourceDirText, name);
    SourceRootText();
  }

  /** "/tmp/target_resources" names `SourceRoot`. */
  lemma SourceRootText()
    ensures Components(SourceDirText) == SourceRoot
  {
    ComponentsAfterSlash("/" + "tmp", "target_resources");
    ComponentsAfterSlash("", "tmp");
    assert "" + "/" == "/";
    ComponentsOfName("tmp");
    ComponentsOfName("target_resources");
  }

  /**
   * A payload name with a slash names a nested directory: for "awscc_a/b"
   * the markers are looked up in `/tmp/target_resources/awscc_a/b`.
   */
  lemma NestedNameReadsNestedDir(fs: FsState, short: string, reRun: bool, tmpl: DocTemplate)
    ensures BuildLayout("awscc_a/b").dir == ["tmp", "target_resources", "awscc_a", "b"]
    ensures StepFs(fs, BuildLayout("awscc_a/b"), short, reRun, tmpl).0 == Skipped
      <==> Blocked(fs, ["tmp", "target_resources", "awscc_a", "b"], reRun)
  {
    NestedNameSplits();
  }

  lemma NestedNameSplits()
    ensures Components("awscc_a/b") == ["awscc_a", "b"]
  {
    ComponentsAfterSlash("awscc_a", "b");
    assert "awscc_a" + "/" + "b" == "awscc_a/b";
    ComponentsOfName("awscc_a");
    ComponentsOfName("b");
  }

  /** `dir_path.split("/")[-1]`: the resource name `write_artifact` takes from a directory string. */
  function ResourceName(s: string): string {
    LastPiece(s, '/')
  }

  /** The paths `write_artifact` uses for the directory string `s`, relative to the working directory. */
  function WriteLayout(cwd: Path, s: string): Layout {
    var name := ResourceName(s);
    Layout(
      DirPath(cwd, s),
      cwd + ["output", "examples", "resources", name, "main.tf"],
      cwd + ["target_resources", "examples", "resources", name, "summary.txt"],
      cwd + ["output", "templates", "resources"])
  }

  /**
   * Neither the copied `main.tf` nor the template directory lies in the
   * resource directory. The template file itself may lie anywhere, since the
   * short name can hold "/" or be absolute, but its name ends in ".md.tmpl"
   * and so is never taken for a marker.
   */
  predicate Separate(lay: Layout) {
    !Under(lay.dir, lay.mainDst) && !Under(lay.dir, lay.templateDir)
  }

  /** The build layout keeps its outputs apart from the downloaded resource. */
  lemma BuildLayoutSeparate(name: string)
    ensures Separate(BuildLayout(name))
  {
    var lay := BuildLayout(name);
    if StartsWith(name, "/") {
      assert |lay.mainDst| < |lay.dir|;
    } else {
      assert lay.mainDst[1] != lay.dir[1];
    }
    assert lay.templateDir[1] != lay.dir[1];
  }

  // ---------------------------------------------------------------------
  // One COPY step (awscc_tool_use.py:476-522)
  // ---------------------------------------------------------------------

  /** CREATED, DELETED, REVIEWED and CLEANED are all present. */
  predicate Ready(fs: FsState, dir: Path) {
    HasMarker(fs, dir, Created) && HasMarker(fs, dir, Deleted)
    && HasMarker(fs, dir, Reviewed) && HasMarker(fs, dir, Cleaned)
  }

  /** COPY needs the same markers as SUMMARY, and not SUMMARY's own. */
  lemma ReadyIsSummaryPrecondition(fs: FsState, dir: Path)
    ensures Ready(fs, dir) <==> Required(Summary) <= Markers(fs, dir)
  {
    if Required(Summary) <= Markers(fs, dir) {
      assert Created in Required(Summary) && Deleted in Required(Summary);
      assert Reviewed in Required(Summary) && Cleaned in Required(Summary);
    }
  }

  /** The `if`/`elif` that skips: a missing marker, or COPIED already set without re-run. */
  predicate Blocked(fs: FsState, dir: Path, reRun: bool) {
    !Ready(fs, dir) || (HasMarker(fs, dir, Copied) && !reRun)
  }

  /**
   * The body of the `try` for one resource. A `False` from `copy_file` or
   * `create_template` is ignored; an exception from `copy_file` or
   * `create_template` is caught and counts as a failure without the COPIED
   * marker, leaving what was written; an empty summary fails.
   */
  function StepFs(fs: FsState, lay: Layout, short: string, reRun: bool, tmpl: DocTemplate): (r: (Outcome, FsState))
    ensures r.0 == Skipped <==> Blocked(fs, lay.dir, reRun)
    ensures r.0 == Skipped ==> r.1 == fs
  {
    if Blocked(fs, lay.dir, reRun) then (Skipped, fs)
    else
      var copied := CopyFileFs(fs, lay.dir + ["main.tf"], lay.mainDst, true);
      if copied.0.Err? then (Failed, copied.1)
      else
        var summary := ReadTextFile(copied.1, lay.summary);
        if summary == "" then (Failed, copied.1)
        else
          var written := CreateTemplateFs(copied.1, lay.templateDir, short, summary, true, tmpl);
          if written.0.Err? then (Failed, written.1)
          else (Done, CreateMarkerFs(written.1, lay.dir, Copied).1)
  }

  /** What lies above a path outside `dir` is not one name below `dir`. */
  lemma NotUnderChild(dir: Path, name: string, dst: Path)
    requires !Under(dir, dst)
    ensures !Under(dir + [name], dst)
  {
    if |dir| + 1 <= |dst| {
      assert dst[..|dir|] == dst[..|dir| + 1][..|dir|];
    }
  }

  /**
   * Writing `dst`, and the directories above it, changes no marker of a
   * directory that `dst` does not lie under.
   */
  lemma WriteKeepsMarkers(fs: FsState, fs': FsState, dst: Path, dir: Path)
    requires !Under(dir, dst)
    requires forall q :: q in fs && q != dst ==> q in fs' && fs'[q] == fs[q]
    requires forall q :: q in fs' && q !in fs ==> Under(q, dst)
    ensures Markers(fs', dir) == Markers(fs, dir)
  {
    assert dir != dst by { assert dir[..|dir|] == dir; }
    NotUnderChild(dir, "", dst);
    forall m
      ensures HasMarker(fs', dir, m) == HasMarker(fs, dir, m)
    {
      var p := dir + [FileName(m)];
      assert p[..|dir|] == dir;
      NotUnderChild(dir, FileName(m), dst);
    }
  }

  /**
   * Writing the template changes no marker of an existing directory that the
   * template directory does not lie under.
   */
  lemma TemplateKeepsMarkers(fs: FsState, dir: Path, templateDir: Path, short: string, summary: string,
                             tmpl: DocTemplate)
    requires IsDir(fs, dir) && !Under(dir, templateDir)
    ensures Markers(CreateTemplateFs(fs, templateDir, short, summary, true, tmpl).1, dir) == Markers(fs, dir)
  {
    var fs' := CreateTemplateFs(fs, templateDir, short, summary, true, tmpl).1;
    TemplateEntryKeepsMarkers(fs, fs', dir, templateDir, TemplateFile(templateDir, short));
  }

  /**
   * Writing one `.md.tmpl` file and directories above `templateDir` keeps
   * the markers of an existing directory outside `templateDir`.
   */
  lemma TemplateEntryKeepsMarkers(fs: FsState, fs': FsState, dir: Path, templateDir: Path, file: Path)
    requires IsDir(fs, dir) && !Under(dir, templateDir)
    requires file != [] && EndsWith(file[|file| - 1], ".md.tmpl")
    requires forall q :: q in fs && q != file ==> q in fs' && fs'[q] == fs[q]
    requires IsDir(fs, file) ==> IsDir(fs', file)
    requires forall q :: q in fs' && q !in fs ==> q == file || Under(q, templateDir)
    ensures Markers(fs', dir) == Markers(fs, dir)
  {
    assert IsDir(fs', dir);
    forall m
      ensures HasMarker(fs', dir, m) == HasMarker(fs, dir, m)
    {
      var p := dir + [FileName(m)];
      assert p != file by {
        var n := FileName(m);
        assert n[|n| - 1] == 'r';
        assert p[|p| - 1] == n;
      }
    }
  }

  /** A COPY step sets COPIED when it succeeds and changes no other marker. */
  lemma StepMarkers(fs: FsState, lay: Layout, short: string, reRun: bool, tmpl: DocTemplate)
    requires Separate(lay)
    ensures var r := StepFs(fs, lay, short, reRun, tmpl);
      && (r.0 == Done ==> Markers(r.1, lay.dir) == Markers(fs, lay.dir) + {Copied})
      && (r.0 != Done ==> Markers(r.1, lay.dir) == Markers(fs, lay.dir))
  {
    if !Blocked(fs, lay.dir, reRun) {
      var copied := CopyFileFs(fs, lay.dir + ["main.tf"], lay.mainDst, true);
      WriteKeepsMarkers(fs, copied.1, lay.mainDst, lay.dir);
      var summary := ReadTextFile(copied.1, lay.summary);
      if copied.0.Ok? && summary != "" {
        var written := CreateTemplateFs(copied.1, lay.templateDir, short, summary, true, tmpl);
        TemplateKeepsMarkers(copied.1, lay.dir, lay.templateDir, short, summary, tmpl);
        MarkAddsCopied(written.1, lay.dir);
      }
    }
  }

  /** Setting COPIED in a ready directory adds exactly COPIED to its markers. */
  lemma MarkAddsCopied(fs: FsState, dir: Path)
    requires HasMarker(fs, dir, Created)
    ensures Markers(CreateMarkerFs(fs, dir, Copied).1, dir) == Markers(fs, dir) + {Copied}
  {
    var marked := CreateMarkerFs(fs, dir, Copied).1;
    forall m | m != Copied
      ensures HasMarker(marked, dir, m) == HasMarker(fs, dir, m)
    {
      MarkerChangesAreLocal(fs, dir, Copied, m);
    }
  }

  /** A resource copied once is skipped by every later COPY step without re-run. */
  lemma DoneThenSkipped(fs: FsState, lay: Layout, short: string, reRun: bool, tmpl: DocTemplate,
                        short': string, tmpl': DocTemplate)
    requires Separate(lay)
    requires StepFs(fs, lay, short, reRun, tmpl).0 == Done
    ensures StepFs(StepFs(fs, lay, short, reRun, tmpl).1, lay, short', false, tmpl').0 == Skipped
  {
    StepMarkers(fs, lay, short, reRun, tmpl);
    var fs' := StepFs(fs, lay, short, reRun, tmpl).1;
    assert Copied in Markers(fs', lay.dir);
    assert Created in Markers(fs', lay.dir) && Deleted in Markers(fs', lay.dir);
    assert Reviewed in Markers(fs', lay.dir) && Cleaned in Markers(fs', lay.dir);
  }

  /**
   * A regular file at `/tmp/output/templates` makes `os.makedirs` fail inside
   * `create_template`; the UnboundLocalError its handler raises is caught by
   * the loop, so a ready resource counts as failed and gets no COPIED marker.
   */
  lemma TemplatesFileFailsStep(fs: FsState, name: string, short: string, reRun: bool, tmpl: DocTemplate)
    requires IsFile(fs, TargetRoot + ["templates"])
    ensures var r := StepFs(fs, BuildLayout(name), short, reRun, tmpl);
      && r.0 == (if Blocked(fs, BuildLayout(name).dir, reRun) then Skipped else Failed)
      && Markers(r.1, BuildLayout(name).dir) == Markers(fs, BuildLayout(name).dir)
  {
    var lay := BuildLayout(name);
    BuildLayoutSeparate(name);
    StepMarkers(fs, lay, short, reRun, tmpl);
    if !Blocked(fs, lay.dir, reRun) {
      TemplatesFileSurvivesCopy(fs, name);
    }
  }

  /** The copy of `main.tf` leaves the file at `/tmp/output/templates`, so the template directory cannot be made. */
  lemma TemplatesFileSurvivesCopy(fs: FsState, name: string)
    requires IsFile(fs, TargetRoot + ["templates"])
    ensures var lay := BuildLayout(name);
      MakeDirs(CopyFileFs(fs, lay.dir + ["main.tf"], lay.mainDst, true).1, lay.templateDir).None?
  {
    var lay := BuildLayout(name);
    var copied := CopyFileFs(fs, lay.dir + ["main.tf"], lay.mainDst, true);
    var blocker := TargetRoot + ["templates"];
    assert blocker[|blocker| - 1] != lay.mainDst[|lay.mainDst| - 1];
    assert IsFile(copied.1, blocker);
    assert lay.templateDir[..3] == blocker;
  }

  // ---------------------------------------------------------------------
  // The loop and its counters (awscc_tool_use.py:463-522, 563-621)
  // ---------------------------------------------------------------------

  /** Which of the two functions runs the loop: they differ only in where files are. */
  datatype Site = Build | Write(cwd: Path)

  /** The resource name of one loop item: the item itself, or the last name of a directory string. */
  function NameOf(site: Site, item: string): string {
    match site
    case Build => item
    case Write(_) => ResourceName(item)
  }

  function LayoutOf(site: Site, item: string): Layout {
    match site
    case Build => BuildLayout(item)
    case Write(cwd) => WriteLayout(cwd, item)
  }

  /**
   * The loop over the items from the counts `c`. The short name is taken
   * outside the `try`: a name without "awscc_" raises IndexError and ends
   * the whole call, with the earlier resources' files already written.
   */
  function RunFs(fs: FsState, site: Site, items: seq<string>, reRun: bool, tmpl: DocTemplate, c: Counts)
    : (r: (Result<Counts, PyError>, FsState))
    ensures r.0.Ok? ==> r.0.value.Total() == c.Total() + |items|
    ensures r.0.Err? ==> r.0.error == IndexError
    decreases |items|
  {
    if items == [] then (Ok(c), fs)
    else
      match SecondPiece(NameOf(site, items[0]), "awscc_")
      case None => (Err(IndexError), fs)
      case Some(short) =>
        var step := StepFs(fs, LayoutOf(site, items[0]), short, reRun, tmpl);
        RunFs(step.1, site, items[1..], reRun, tmpl, Tally(c, step.0))
  }

  /** One turn of the loop: the first item's step, then the rest from the state it left. */
  lemma RunFsUnfold(fs: FsState, site: Site, items: seq<string>, reRun: bool, tmpl: DocTemplate, c: Counts)
    requires items != []
    ensures var short := SecondPiece(NameOf(site, items[0]), "awscc_");
      && (short.None? ==> RunFs(fs, site, items, reRun, tmpl, c) == (Err(IndexError), fs))
      && (short.Some? ==>
            var step := StepFs(fs, LayoutOf(site, items[0]), short.value, reRun, tmpl);
            RunFs(fs, site, items, reRun, tmpl, c) == RunFs(step.1, site, items[1..], reRun, tmpl, Tally(c, step.0)))
  {
  }

  /** Every item's resource name contains "awscc_". */
  predicate AllTagged(site: Site, items: seq<string>) {
    forall i :: 0 <= i < |items| ==> Contains(NameOf(site, items[i]), "awscc_")
  }

  lemma AllTaggedCons(site: Site, items: seq<string>)
    requires items != []
    ensures AllTagged(site, items) <==> Contains(NameOf(site, items[0]), "awscc_") && AllTagged(site, items[1..])
  {
    var rest := items[1..];
    if AllTagged(site, items) {
      forall i | 0 <= i < |rest|
        ensures Contains(NameOf(site, rest[i]), "awscc_")
      {
        assert rest[i] == items[i + 1];
      }
    }
    if Contains(NameOf(site, items[0]), "awscc_") && AllTagged(site, rest) {
      forall i | 0 <= i < |items|
        ensures Contains(NameOf(site, items[i]), "awscc_")
      {
        if i > 0 {
          assert items[i] == rest[i - 1];
        }
      }
    }
  }

  /** The loop raises exactly when some item's name lacks "awscc_". */
  lemma {:induction false} RunFailsIff(fs: FsState, site: Site, items: seq<string>, reRun: bool, tmpl: DocTemplate, c: Counts)
    ensures RunFs(fs, site, items, reRun, tmpl, c).0.Err? <==> !AllTagged(site, items)
    decreases |items|
  {
    if items != [] {
      AllTaggedCons(site, items);
      RunFsUnfold(fs, site, items, reRun, tmpl, c);
      var short := SecondPiece(NameOf(site, items[0]), "awscc_");
      if short.Some? {
        var step := StepFs(fs, LayoutOf(site, items[0]), short.value, reRun, tmpl);
        RunFailsIff(step.1, site, items[1..], reRun, tmpl, Tally(c, step.0));
      }
    }
  }

  /** Without re-run, every item that already carries COPIED is counted as skipped. */
  lemma {:induction false} RunSkipsCopied(fs: FsState, items: seq<string>, tmpl: DocTemplate, c: Counts)
    requires forall i :: 0 <= i < |items| ==> HasMarker(fs, BuildLayout(items[i]).dir, Copied)
    ensures var r := RunFs(fs, Build, items, false, tmpl, c);
      r.0.Ok? ==> r.0.value == c.(skipped := c.skipped + |items|) && r.1 == fs
    decreases |items|
  {
    if items != [] {
      match SecondPiece(items[0], "awscc_")
      case None =>
      case Some(short) =>
        var step := StepFs(fs, BuildLayout(items[0]), short, false, tmpl);
        assert step == (Skipped, fs);
        RunSkipsCopied(fs, items[1..], tmpl, Tally(c, Skipped));
    }
  }

  // ---------------------------------------------------------------------
  // The logged shares (awscc_tool_use.py:545-551, 623-632)
  // ---------------------------------------------------------------------

  /** The three logged percentages, before formatting to one decimal. */
  datatype Shares = Shares(done: real, skipped: real, failed: real)

  function SharesOf(c: Counts, total: nat): Shares
    requires total > 0
  {
    Shares(c.done as real / total as real * 100.0,
           c.skipped as real / total as real * 100.0,
           c.failed as real / total as real * 100.0)
  }

  /** `build_artifact`: the share lines are logged only when there is a resource. */
  function LoggedShares(c: Counts, total: nat): (r: Option<Shares>)
    ensures r.Some? <==> total > 0
  {
    if total > 0 then Some(SharesOf(c, total)) else None
  }

  /** `write_artifact` as written: the shares are logged unconditionally, so no item divides by zero. */
  function LoggedSharesAsWritten(c: Counts, total: nat): (r: Result<Shares, PyError>)
    ensures r.Err? <==> total == 0
  {
    if total == 0 then Err(ZeroDivisionError) else Ok(SharesOf(c, total))
  }

  /** Since every item adds to exactly one counter, the shares add up to a hundred percent. */
  lemma SharesAddUp(c: Counts, total: nat)
    requires total > 0 && c.Total() == total
    ensures var s := SharesOf(c, total); s.done + s.skipped + s.failed == 100.0
  {
    SumOfShares(c.done as real, c.skipped as real, c.failed as real, total as real);
  }

  /** Three parts of a positive whole, each as a percentage of it, add up to a hundred. */
  lemma SumOfShares(a: real, b: real, f: real, t: real)
    requires t > 0.0 && a + b + f == t
    ensures a / t * 100.0 + b / t * 100.0 + f / t * 100.0 == 100.0
  {
    assert a / t + b / t + f / t == (a + b + f) / t;
    assert (a + b + f) / t == 1.0;
  }

  // ---------------------------------------------------------------------
  // build_artifact (awscc_tool_use.py:436-553)
  // ---------------------------------------------------------------------

  /** An item of the `target_resources` payload: a string, or anything else an upstream failure left. */
  datatype PayloadItem = Text(text: string) | NonText

  /** `[item for item in target_resources if isinstance(item, str)]`. */
  function Texts(items: seq<PayloadItem>): (r: seq<string>)
    ensures forall s :: multiset(r)[s] == multiset(items)[Text(s)]
  {
    if items == [] then []
    else
      assert items == [items[0]] + items[1..];
      if items[0].Text? then [items[0].text] + Texts(items[1..]) else Texts(items[1..])
  }

  /** The download before the loop: the resources' own prefixes, without `.terraform`, overwriting. */
  function SourceDownload(names: seq<string>): DownloadConfig {
    DownloadConfig("/tmp/target_resources", "", names, [".terraform"], true)
  }

  /** The two uploads after the loop: the working tree back to its bucket, the output tree to the artifact bucket. */
  function SourceUpload(): UploadConfig {
    UploadConfig("/tmp/target_resources", "", [".terraform/*"], true)
  }

  function TargetUpload(requestPrefix: string): UploadConfig {
    UploadConfig("/tmp/output", requestPrefix, [".terraform/*"], true)
  }

  /**
   * With no string in the payload the include list is empty, and an empty
   * include list admits every key that is not under ".terraform".
   */
  lemma EmptyPayloadDownloadsAll(key: string)
    ensures var cfg := SourceDownload([]);
      ShouldProcessObject(key, cfg.prefix, cfg.includes, cfg.excludes) <==> !StartsWith(key, ".terraform")
  {
    StripPlain(".terraform");
    ShouldProcessIff(key, "", [], [".terraform"]);
    assert forall e :: e in [".terraform"] <==> e == ".terraform";
  }

  /**
   * Without a source prefix the exclude entry only matches keys that start
   * with ".terraform": a resource's own `.terraform` directory is downloaded.
   */
  lemma NestedTerraformDownloaded(names: seq<string>, name: string, rest: string)
    requires name in names && StartsWith(name, "awscc_")
    ensures var cfg := SourceDownload(names);
      ShouldProcessObject(name + "/.terraform/" + rest, cfg.prefix, cfg.includes, cfg.excludes)
  {
    var key := name + "/.terraform/" + rest;
    IncludedByName(name, key);
    AnyMatchesIff(key, "", names);
    NotUnderTerraform(name, key);
  }

  /** A key that starts like a resource name is not matched by the ".terraform" entry. */
  lemma NotUnderTerraform(name: string, key: string)
    requires StartsWith(name, "awscc_") && StartsWith(key, name)
    ensures !AnyMatches(key, "", [".terraform"])
  {
    StripPlain(".terraform");
    assert name[..6][0] == 'a';
    assert key[..|name|][0] == name[0];
    assert !StartsWith(key, ".terraform");
    assert [".terraform"][1..] == [];
  }

  /** A key that continues a name starting with "awscc_" passes that name's include test. */
  lemma IncludedByName(name: string, key: string)
    requires StartsWith(name, "awscc_") && StartsWith(key, name)
    ensures StartsWith(key, FilterPrefix("", name))
  {
    assert name[..6][0] == 'a';
    assert name[0] == 'a';
    LStripNoLead(name, '/');
    var r := RStrip(name, '/');
    assert key[..|r|] == name[..|r|];
  }

  /** A text that neither starts nor ends with "/" is its own `strip('/')`. */
  lemma StripPlain(s: string)
    requires s != [] && s[0] != '/' && s[|s| - 1] != '/'
    ensures Strip(s, '/') == s
  {
    LStripNoLead(s, '/');
    RStripNoTrail(s, '/');
  }

  /**
   * The source upload's ".terraform" pattern is matched against paths that
   * begin with "/tmp/target_resources", so it excludes nothing.
   */
  lemma SourceUploadKeepsTerraform(rel: Path)
    ensures !ShouldExclude(ExcludeTarget(SourceUpload(), rel), SourceUpload().excludes)
  {
    TerraformPatternAsWritten(SourceUpload(), rel);
  }

  /**
   * The loop of `build_artifact` over the downloaded tree `fs`: the string
   * items in sorted order. The result is the final counts, or the exception
   * that ended the call.
   */
  function BuildArtifactFs(fs: FsState, items: seq<PayloadItem>, reRun: bool, tmpl: DocTemplate)
    : (r: (Result<Counts, PyError>, FsState))
  {
    RunFs(fs, Build, Sort(Texts(items)), reRun, tmpl, Counts(0, 0, 0))
  }

  /** Every string item is counted once; the other items are dropped before counting. */
  lemma BuildArtifactCounts(fs: FsState, items: seq<PayloadItem>, reRun: bool, tmpl: DocTemplate)
    ensures var r := BuildArtifactFs(fs, items, reRun, tmpl);
      r.0.Ok? ==> r.0.value.Total() == |Texts(items)| && |Texts(items)| <= |items|
  {
    var names := Texts(items);
    assert |Sort(names)| == |multiset(Sort(names))| == |multiset(names)| == |names|;
    TextsShorter(items);
  }

  lemma {:induction false} TextsShorter(items: seq<PayloadItem>)
    ensures |Texts(items)| <= |items|
  {
    if items != [] {
      TextsShorter(items[1..]);
    }
  }

  // ---------------------------------------------------------------------
  // write_artifact (awscc_tool_use.py:555-632)
  // ---------------------------------------------------------------------

  /** `write_artifact` as written: the loop over the sorted directory strings, then the shares. */
  function WriteArtifactAsWrittenFs(fs: FsState, cwd: Path, dirs: seq<string>, reRun: bool, tmpl: DocTemplate)
    : (r: (Result<(Counts, Shares), PyError>, FsState))
  {
    var run := RunFs(fs, Write(cwd), Sort(dirs), reRun, tmpl, Counts(0, 0, 0));
    if run.0.Err? then (Err(run.0.error), run.1)
    else
      match LoggedSharesAsWritten(run.0.value, |dirs|)
      case Err(e) => (Err(e), run.1)
      case Ok(s) => (Ok((run.0.value, s)), run.1)
  }

  /** As written, an empty list raises ZeroDivisionError after doing nothing. */
  lemma WriteArtifactEmptyAsWritten(fs: FsState, cwd: Path, reRun: bool, tmpl: DocTemplate)
    ensures WriteArtifactAsWrittenFs(fs, cwd, [], reRun, tmpl) == (Err(ZeroDivisionError), fs)
  {
    assert Sort([]) == [];
  }

  /** `write_artifact` with the shares guarded as in `build_artifact`. */
  function WriteArtifactFs(fs: FsState, cwd: Path, dirs: seq<string>, reRun: bool, tmpl: DocTemplate)
    : (r: (Result<(Counts, Option<Shares>), PyError>, FsState))
  {
    var run := RunFs(fs, Write(cwd), Sort(dirs), reRun, tmpl, Counts(0, 0, 0));
    if run.0.Err? then (Err(run.0.error), run.1)
    else (Ok((run.0.value, LoggedShares(run.0.value, |dirs|))), run.1)
  }

  /**
   * Guarded, an empty list gives zero counts and no share lines, and a
   * non-empty one logs shares that add up to a hundred percent.
   */
  lemma WriteArtifactShares(fs: FsState, cwd: Path, dirs: seq<string>, reRun: bool, tmpl: DocTemplate)
    ensures dirs == [] ==> WriteArtifactFs(fs, cwd, dirs, reRun, tmpl) == (Ok((Counts(0, 0, 0), None)), fs)
    ensures var r := WriteArtifactFs(fs, cwd, dirs, reRun, tmpl).0;
      r.Ok? && dirs != [] ==> r.value.1.Some? && r.value.1.value.done + r.value.1.value.skipped + r.value.1.value.failed == 100.0
  {
    assert Sort([]) == [];
    var sorted := Sort(dirs);
    assert |sorted| == |multiset(sorted)| == |multiset(dirs)| == |dirs|;
    var run := RunFs(fs, Write(cwd), sorted, reRun, tmpl, Counts(0, 0, 0));
    if run.0.Ok? && dirs != [] {
      SharesAddUp(run.0.value, |dirs|);
    }
  }

  // ---------------------------------------------------------------------
  // The two functions over the working file system
  // ---------------------------------------------------------------------

  /** One COPY step on the file system. */
  method CopyStep(fsys: FileSystem, lay: Layout, short: string, reRun: bool, tmpl: DocTemplate)
    returns (o: Outcome)
    modifies fsys
    ensures (o, fsys.entries) == StepFs(old(fsys.entries), lay, short, reRun, tmpl)
  {
    if Blocked(fsys.entries, lay.dir, reRun) {
      return Skipped;
    }
    var copied := fsys.CopyFile(lay.dir + ["main.tf"], lay.mainDst, true);
    if copied.Err? {
      return Failed;
    }
    var summary := ReadTextFile(fsys.entries, lay.summary);
    if summary == "" {
      return Failed;
    }
    var written := fsys.CreateTemplate(lay.templateDir, short, summary, true, tmpl);
    if written.Err? {
      return Failed;
    }
    var _ := fsys.CreateMarker(lay.dir, Copied);
    return Done;
  }

  /**
   * One turn of the loop: the short name, then the step and the counter it
   * adds to; `None` when the name has no "awscc_" (the IndexError). `rest`
   * is the items still to come.
   */
  method Turn(fsys: FileSystem, site: Site, item: string, ghost rest: seq<string>, reRun: bool, tmpl: DocTemplate, c: Counts)
    returns (next: Option<Counts>)
    modifies fsys
    ensures next.None? ==>
      fsys.entries == old(fsys.entries)
      && RunFs(old(fsys.entries), site, [item] + rest, reRun, tmpl, c) == (Err(IndexError), old(fsys.entries))
    ensures next.Some? ==>
      RunFs(old(fsys.entries), site, [item] + rest, reRun, tmpl, c)
      == RunFs(fsys.entries, site, rest, reRun, tmpl, next.value)
  {
    RunFsUnfold(fsys.entries, site, [item] + rest, reRun, tmpl, c);
    assert ([item] + rest)[1..] == rest;
    var short := SecondPiece(NameOf(site, item), "awscc_");
    if short.None? {
      return None;
    }
    var o := CopyStep(fsys, LayoutOf(site, item), short.value, reRun, tmpl);
    return Some(Tally(c, o));
  }

  /** The loop over the items; it stops at the first name without "awscc_". */
  method RunLoop(fsys: FileSystem, site: Site, items: seq<string>, reRun: bool, tmpl: DocTemplate)
    returns (r: Result<Counts, PyError>)
    modifies fsys
    ensures (r, fsys.entries) == RunFs(old(fsys.entries), site, items, reRun, tmpl, Counts(0, 0, 0))
  {
    var counts := Counts(0, 0, 0);
    var i := 0;
    while i < |items|
      invariant 0 <= i <= |items|
      invariant RunFs(fsys.entries, site, items[i..], reRun, tmpl, counts)
        == RunFs(old(fsys.entries), site, items, reRun, tmpl, Counts(0, 0, 0))
    {
      assert items[i..] == [items[i]] + items[i + 1..];
      var next := Turn(fsys, site, items[i], items[i + 1..], reRun, tmpl, counts);
      if next.None? {
        return Err(IndexError);
      }
      counts := next.value;
      i := i + 1;
    }
    return Ok(counts);
  }

  /**
   * `build_artifact` after the download: the counts (or the exception that
   * ended the call) and the share lines it logs.
   */
  method BuildArtifact(fsys: FileSystem, items: seq<PayloadItem>, reRun: bool, tmpl: DocTemplate)
    returns (r: Result<Counts, PyError>, shares: Option<Shares>)
    modifies fsys
    ensures (r, fsys.entries) == BuildArtifactFs(old(fsys.entries), items, reRun, tmpl)
    ensures shares == if r.Ok? then LoggedShares(r.value, |Texts(items)|) else None
  {
    var names := Texts(items);
    r := RunLoop(fsys, Build, Sort(names), reRun, tmpl);
    shares := if r.Ok? then LoggedShares(r.value, |names|) else None;
  }

  /** `write_artifact`, with the shares guarded against an empty list. */
  method WriteArtifact(fsys: FileSystem, cwd: Path, dirs: seq<string>, reRun: bool, tmpl: DocTemplate)
    returns (r: Result<(Counts, Option<Shares>), PyError>)
    modifies fsys
    ensures (r, fsys.entries) == WriteArtifactFs(old(fsys.entries), cwd, dirs, reRun, tmpl)
  {
    var run := RunLoop(fsys, Write(cwd), Sort(dirs), reRun, tmpl);
    if run.Err? {
      return Err(run.error);
    }
    return Ok((run.value, LoggedShares(run.value, |dirs|)));
  }
}
