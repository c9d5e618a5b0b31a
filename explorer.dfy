/**
 * The marker store and the file helpers of the pipeline
 * (terraform/src/lib/helpers/explorer.py).
 *
 * The file system is a map from paths (sequences of names below the root) to
 * entries. A resource's state is the set of zero-byte marker files in its
 * working directory. The checks are functions of the map; the operations that
 * change the file system are functions from the old map to a result and the
 * new map, and the `FileSystem` class carries them out in place.
 */
module Explorer {
  import opened Wrappers
  import opened Strings

  /** `FileMarker`: one zero-byte file per completed step, plus SKIP. */
  datatype Marker = Created | Updated | Deleted | Reviewed | Cleaned | Summary | Copied | Finished | Skip

  function FileName(m: Marker): string {
    match m
    case Created => "created.marker"
    case Updated => "updated.marker"
    case Deleted => "deleted.marker"
    case Reviewed => "reviewed.marker"
    case Cleaned => "cleaned.marker"
    case Summary => "summary.marker"
    case Copied => "copied.marker"
    case Finished => "finished.marker"
    case Skip => "skip.marker"
  }

  /** The members of `FileMarker` in declaration order, as `for marker in FileMarker` visits them. */
  const AllMarkers: seq<Marker> :=
    [Created, Updated, Deleted, Reviewed, Cleaned, Summary, Copied, Finished, Skip]

  /** Every marker is listed. */
  lemma AllMarkersComplete(m: Marker)
    ensures m in AllMarkers
  {
    match m
    case Created => assert AllMarkers[0] == m;
    case Updated => assert AllMarkers[1] == m;
    case Deleted => assert AllMarkers[2] == m;
    case Reviewed => assert AllMarkers[3] == m;
    case Cleaned => assert AllMarkers[4] == m;
    case Summary => assert AllMarkers[5] == m;
    case Copied => assert AllMarkers[6] == m;
    case Finished => assert AllMarkers[7] == m;
    case Skip => assert AllMarkers[8] == m;
  }

  /** Distinct markers are distinct files. */
  lemma FileNameInjective(m1: Marker, m2: Marker)
    ensures FileName(m1) == FileName(m2) ==> m1 == m2
  {
    if m1 != m2 {
      assert FileName(m1)[0] != FileName(m2)[0] || FileName(m1)[1] != FileName(m2)[1];
    }
  }

  type Path = seq<string>

  /** A file's size in bytes and its text; `None` when the bytes are not valid UTF-8. */
  datatype Entry = File(size: nat, text: Option<string>) | Dir

  type FsState = map<Path, Entry>

  /**
   * The names of a path string: `os.path` joins and the file system ignore
   * empty names, so "a//b/" names the same directory as "a/b".
   */
  function Components(s: string): (r: Path)
    ensures forall j :: 0 <= j < |r| ==> r[j] != "" && '/' !in r[j]
    ensures s != [] && s[0] != '/' ==> r != [] && r[0][0] == s[0]
  {
    if s == [] then []
    else if s[0] == '/' then Components(s[1..])
    else if |s| == 1 || s[1] == '/' then [[s[0]]] + Components(s[1..])
    else
      var rest := Components(s[1..]);
      [[s[0]] + rest[0]] + rest[1..]
  }

  /** The directory a path string names, relative ones resolved against `cwd`. */
  function DirPath(cwd: Path, s: string): Path {
    if StartsWith(s, "/") then Components(s) else cwd + Components(s)
  }

  /** Joining two path strings with "/" joins their names. */
  lemma {:induction false} ComponentsAfterSlash(a: string, b: string)
    ensures Components(a + "/" + b) == Components(a) + Components(b)
    decreases |a|
  {
    var s := a + "/" + b;
    if a == [] {
      assert s[1..] == b;
    } else {
      assert s[1..] == a[1..] + "/" + b;
      if a[0] == '/' {
        ComponentsAfterSlash(a[1..], b);
      } else if |a| == 1 {
        ComponentsAfterSlash([], b);
        assert a[1..] == [];
      } else {
        ComponentsAfterSlash(a[1..], b);
      }
    }
  }

  /** Names joined with slashes split back into the same names. */
  lemma {:induction false} ComponentsOfJoin(names: Path)
    requires names != []
    requires forall j :: 0 <= j < |names| ==> names[j] != "" && '/' !in names[j]
    ensures Components(JoinPath(names)) == names
    decreases |names|
  {
    ComponentsOfName(names[0]);
    if |names| > 1 {
      ComponentsOfJoin(names[1..]);
      ComponentsAfterSlash(names[0], JoinPath(names[1..]));
      assert [names[0]] + names[1..] == names;
    }
  }

  /**
   * The normalised text names the same directory as the text it came from,
   * and is absolute exactly when that text is.
   */
  lemma PathTextNamesSameDir(s: string)
    ensures StartsWith(PathText(s), "/") <==> StartsWith(s, "/")
    ensures PathText(s) != "." ==> Components(PathText(s)) == Components(s)
  {
    var names := Components(s);
    if names != [] {
      ComponentsOfJoin(names);
      if StartsWith(s, "/") {
        ComponentsAfterSlash("", JoinPath(names));
        assert "" + "/" + JoinPath(names) == "/" + JoinPath(names);
      } else {
        assert JoinPath(names)[0] == names[0][0] by { JoinPathStartsWithName(names); }
      }
    } else if StartsWith(s, "/") {
      assert Components("/") == Components("/"[1..]);
    }
  }

  lemma {:induction false} JoinPathStartsWithName(names: Path)
    requires names != [] && names[0] != ""
    ensures JoinPath(names) != "" && JoinPath(names)[0] == names[0][0]
  {
  }

  /** A name without slashes is a single path name. */
  lemma {:induction false} ComponentsOfName(w: string)
    requires w != "" && '/' !in w
    ensures Components(w) == [w]
    decreases |w|
  {
    if |w| > 1 {
      assert w[1] in w && w[0] in w;
      ComponentsOfName(w[1..]);
      var rest := Components(w[1..]);
      assert Components(w) == [[w[0]] + rest[0]] + rest[1..];
      assert [w[0]] + w[1..] == w;
    } else {
      assert w[1..] == [] && [w[0]] == w;
    }
  }

  /**
   * `str(Path(s))`: pathlib joins the names with single slashes, keeps one
   * leading slash for an absolute path and prints an empty relative path as ".".
   */
  function PathText(s: string): (r: string)
    ensures StartsWith(s, "/") ==> r != "" && r[0] == '/'
    ensures !StartsWith(s, "/") && Components(s) == [] ==> r == "."
  {
    var names := Components(s);
    if StartsWith(s, "/") then (if names == [] then "/" else "/" + JoinPath(names))
    else if names == [] then "."
    else JoinPath(names)
  }

  predicate IsDir(fs: FsState, p: Path) {
    p in fs && fs[p].Dir?
  }

  predicate IsFile(fs: FsState, p: Path) {
    p in fs && fs[p].File?
  }

  /** `p` is `d` itself or lies below it. */
  predicate Under(d: Path, p: Path) {
    |d| <= |p| && p[..|d|] == d
  }

  /** `p` is a direct entry of `d`. */
  predicate IsChild(d: Path, p: Path) {
    |p| == |d| + 1 && p[..|d|] == d
  }

  /** The two maps agree on every path except `p`. */
  ghost predicate AgreeExcept(fs: FsState, fs': FsState, p: Path) {
    forall q :: q != p ==> (q in fs' <==> q in fs) && (q in fs ==> fs'[q] == fs[q])
  }

  /** Bytes of one character in UTF-8. */
  function CharBytes(c: char): nat {
    if c as int < 0x80 then 1
    else if c as int < 0x800 then 2
    else if c as int < 0x10000 then 3
    else 4
  }

  /** Size in bytes of a text written with `encoding='utf-8'`. */
  function Utf8Size(t: string): (n: nat)
    ensures |t| <= n <= 4 * |t|
  {
    if t == [] then 0 else CharBytes(t[0]) + Utf8Size(t[1..])
  }

  function TextFile(t: string): Entry {
    File(Utf8Size(t), Some(t))
  }

  const EmptyFile: Entry := File(0, Some(""))

  /**
   * What reading in text mode returns: universal newlines turn "\r\n" and a
   * lone "\r" into "\n".
   */
  function UniversalNewlines(t: string): (r: string)
    ensures '\r' !in r
    ensures '\r' !in t ==> r == t
  {
    if t == [] then []
    else if t[0] == '\r' then
      if |t| > 1 && t[1] == '\n' then ['\n'] + UniversalNewlines(t[2..])
      else ['\n'] + UniversalNewlines(t[1..])
    else [t[0]] + UniversalNewlines(t[1..])
  }

  // ---------------------------------------------------------------------
  // Checks (explorer.py:119-181)
  // ---------------------------------------------------------------------

  /** `check_if_dir_contains_marker`: `d` is a directory holding an entry named after `m`. */
  predicate HasMarker(fs: FsState, d: Path, m: Marker) {
    IsDir(fs, d) && d + [FileName(m)] in fs
  }

  /** `check_if_dir_contains_statefile`: some entry's name ends with ".tfstate". */
  predicate ContainsStatefile(fs: FsState, d: Path) {
    IsDir(fs, d) && exists q :: q in fs && IsChild(d, q) && EndsWith(q[|d|], ".tfstate")
  }

  /** `check_if_dir_contains_example`: some entry's name ends with ".tf". */
  predicate ContainsExample(fs: FsState, d: Path) {
    IsDir(fs, d) && exists q :: q in fs && IsChild(d, q) && EndsWith(q[|d|], ".tf")
  }

  /** The markers present in `d`. */
  function Markers(fs: FsState, d: Path): (ms: set<Marker>)
    ensures forall m :: m in ms <==> HasMarker(fs, d, m)
  {
    set m | m in AllMarkers && HasMarker(fs, d, m)
  }

  /** A state file is never an example file: ".tfstate" names do not end with ".tf". */
  lemma StatefileIsNotExample(name: string)
    requires EndsWith(name, ".tfstate")
    ensures !EndsWith(name, ".tf")
  {
    assert name[|name| - 1] == 'e';
  }

  /** No marker file counts as a state file or an example file. */
  lemma MarkerIsNeitherStateNorExample(m: Marker)
    ensures !EndsWith(FileName(m), ".tfstate") && !EndsWith(FileName(m), ".tf")
  {
    var n := FileName(m);
    assert n[|n| - 1] == 'r';
  }

  // ---------------------------------------------------------------------
  // check_file_size_with_units (explorer.py:411-453)
  // ---------------------------------------------------------------------

  /** `unit_map`; keys are matched after `unit.upper()`. */
  function UnitFactor(unit: string): Option<nat> {
    if unit == "B" then Some(1)
    else if unit == "KB" then Some(1024)
    else if unit == "MB" then Some(1024 * 1024)
    else if unit == "GB" then Some(1024 * 1024 * 1024)
    else if unit == "TB" then Some(1024 * 1024 * 1024 * 1024)
    else None
  }

  /**
   * `check_file_size_with_units`: whether the file's size is at most
   * `max_size` units. A missing file is `false` before the unit is looked at;
   * an unknown unit raises ValueError, which is not an OSError and escapes.
   */
  function CheckFileSizeWithUnits(fs: FsState, p: Path, maxSize: real, unit: string): Result<bool, PyError> {
    if !IsFile(fs, p) then Ok(false)
    else
      match UnitFactor(Upper(unit))
      case None => Err(ValueError("Invalid unit. Must be one of B, KB, MB, GB, TB"))
      case Some(f) => Ok(fs[p].size as real <= maxSize * f as real)
  }

  /**
   * The unit only scales the limit: `n` units of factor `f` is the same check
   * as `n * f` bytes, and the outcome is `true` exactly when the file exists
   * and its byte size is within that many bytes.
   */
  lemma CheckFileSizeInBytes(fs: FsState, p: Path, maxSize: real, unit: string, f: nat)
    requires UnitFactor(Upper(unit)) == Some(f)
    ensures CheckFileSizeWithUnits(fs, p, maxSize, unit) == CheckFileSizeWithUnits(fs, p, maxSize * f as real, "B")
    ensures CheckFileSizeWithUnits(fs, p, maxSize, unit) == Ok(IsFile(fs, p) && fs[p].size as real <= maxSize * f as real)
  {
    assert Upper("B") == "B";
  }

  /** The lower-case spelling of a unit is accepted: "kb" is "KB". */
  lemma UnitCaseInsensitive(fs: FsState, p: Path, maxSize: real)
    ensures CheckFileSizeWithUnits(fs, p, maxSize, "kb") == CheckFileSizeWithUnits(fs, p, maxSize, "KB")
    ensures CheckFileSizeWithUnits(fs, p, maxSize, "kb") == CheckFileSizeWithUnits(fs, p, maxSize * 1024.0, "B")
  {
    assert Upper("kb") == "KB";
    assert Upper("KB") == "KB";
    assert Upper("B") == "B";
  }

  // ---------------------------------------------------------------------
  // Changes to the file system, as functions of the old state
  // ---------------------------------------------------------------------

  /**
   * `create_marker`: fails without change when `d` is not a directory or the
   * marker file already exists; otherwise the marker is present afterwards.
   * (`Path.touch` on an existing directory of that name succeeds and leaves it.)
   */
  function CreateMarkerFs(fs: FsState, d: Path, m: Marker): (r: (bool, FsState))
    ensures r.0 <==> IsDir(fs, d) && !IsFile(fs, d + [FileName(m)])
    ensures r.0 ==> HasMarker(r.1, d, m)
    ensures !r.0 ==> r.1 == fs
    ensures AgreeExcept(fs, r.1, d + [FileName(m)])
  {
    var p := d + [FileName(m)];
    if !IsDir(fs, d) || IsFile(fs, p) then (false, fs)
    else if p in fs then (true, fs)
    else (true, fs[p := EmptyFile])
  }

  /**
   * `delete_marker`: `true` exactly when the marker file existed and was
   * removed; afterwards it is absent and nothing else has changed.
   */
  function DeleteMarkerFs(fs: FsState, d: Path, m: Marker): (r: (bool, FsState))
    ensures r.0 <==> IsDir(fs, d) && IsFile(fs, d + [FileName(m)])
    ensures r.0 ==> !HasMarker(r.1, d, m) && !IsFile(r.1, d + [FileName(m)])
    ensures !r.0 ==> r.1 == fs
    ensures AgreeExcept(fs, r.1, d + [FileName(m)])
  {
    var p := d + [FileName(m)];
    if IsDir(fs, d) && IsFile(fs, p) then (true, fs - {p}) else (false, fs)
  }

  /** Creating an absent marker and deleting it again restores the directory. */
  lemma {:induction false} CreateThenDeleteMarker(fs: FsState, d: Path, m: Marker)
    requires IsDir(fs, d) && d + [FileName(m)] !in fs
    ensures CreateMarkerFs(fs, d, m).0
    ensures DeleteMarkerFs(CreateMarkerFs(fs, d, m).1, d, m) == (true, fs)
  {
    var p := d + [FileName(m)];
    var fs1 := CreateMarkerFs(fs, d, m).1;
    assert fs1 == fs[p := EmptyFile];
    assert |d| < |p|;
    assert d != p;
    assert fs1 - {p} == fs;
  }

  /** Creating a marker twice: the second call reports false and changes nothing. */
  lemma CreateMarkerTwice(fs: FsState, d: Path, m: Marker)
    requires IsDir(fs, d) && d + [FileName(m)] !in fs
    ensures CreateMarkerFs(CreateMarkerFs(fs, d, m).1, d, m) == (false, CreateMarkerFs(fs, d, m).1)
  {
    var p := d + [FileName(m)];
    assert d != p by { assert |d| < |p|; }
  }

  /** Creating or deleting one marker leaves every other marker as it was. */
  lemma MarkerChangesAreLocal(fs: FsState, d: Path, m: Marker, other: Marker)
    requires other != m
    ensures HasMarker(CreateMarkerFs(fs, d, m).1, d, other) == HasMarker(fs, d, other)
    ensures HasMarker(DeleteMarkerFs(fs, d, m).1, d, other) == HasMarker(fs, d, other)
  {
    FileNameInjective(m, other);
    var p := d + [FileName(m)];
    assert d != p by { assert |d| < |p|; }
    assert d + [FileName(other)] != p by { assert (d + [FileName(other)])[|d|] != p[|d|]; }
  }

  /**
   * `delete_directory`: when `d` is a directory it and everything below it are
   * removed; every other entry is kept.
   */
  function DeleteDirectoryFs(fs: FsState, d: Path): (r: (bool, FsState))
    ensures r.0 <==> IsDir(fs, d)
    ensures r.0 ==> forall q :: Under(d, q) ==> q !in r.1
    ensures !r.0 ==> r.1 == fs
    ensures forall q :: !Under(d, q) ==> (q in r.1 <==> q in fs) && (q in fs ==> r.1[q] == fs[q])
  {
    if !IsDir(fs, d) then (false, fs)
    else (true, map q | q in fs && !Under(d, q) :: fs[q])
  }

  /**
   * `os.makedirs(p, exist_ok=True)`: every non-empty prefix of `p` becomes a
   * directory; `None` (an OSError) when one of them is a file.
   */
  function MakeDirs(fs: FsState, p: Path): (r: Option<FsState>)
    ensures r.None? <==> exists k :: 1 <= k <= |p| && IsFile(fs, p[..k])
    ensures r.Some? ==> forall k :: 1 <= k <= |p| ==> IsDir(r.value, p[..k])
    ensures r.Some? ==> forall q :: q in fs ==> q in r.value && r.value[q] == fs[q]
    ensures r.Some? ==> forall q :: q in r.value && q !in fs ==> r.value[q] == Dir && 1 <= |q| <= |p| && q == p[..|q|]
    decreases |p|
  {
    if p == [] then Some(fs)
    else
      var parent := p[..|p| - 1];
      assert forall k :: 1 <= k <= |parent| ==> parent[..k] == p[..k];
      match MakeDirs(fs, parent)
      case None => None
      case Some(fs1) =>
        assert p[..|p|] == p;
        if p in fs1 then (if fs1[p].Dir? then Some(fs1) else None)
        else Some(fs1[p := Dir])
  }

  /**
   * `copy_file`: `false` when the source is not a file, or when the
   * destination file exists and `replace` is off; otherwise the parent
   * directories are created and the source text is written to the
   * destination. Both files are opened before reading, so a source that is
   * not UTF-8 leaves an empty destination and raises UnicodeDecodeError
   * (which `except IOError` does not catch), and copying a file onto itself
   * empties it.
   */
  function CopyFileFs(fs: FsState, src: Path, dst: Path, replace: bool): (r: (Result<bool, PyError>, FsState))
    ensures !IsFile(fs, src) || (IsFile(fs, dst) && !replace) ==> r == (Ok(false), fs)
    ensures r.0 == Ok(true) ==> IsFile(fs, src) && (replace || !IsFile(fs, dst))
    ensures r.0 == Ok(true) && src != dst ==>
      fs[src].text.Some? && dst in r.1 && r.1[dst] == TextFile(UniversalNewlines(fs[src].text.value))
    ensures r.0.Err? ==> r.0.error == UnicodeDecodeError && IsFile(fs, src) && fs[src].text.None?
    ensures forall q :: q in fs && q != dst ==> q in r.1 && r.1[q] == fs[q]
    ensures forall q :: q in r.1 && q !in fs ==> Under(q, dst)
  {
    if !IsFile(fs, src) then (Ok(false), fs)
    else if IsFile(fs, dst) && !replace then (Ok(false), fs)
    else if dst == [] then (Ok(false), fs)
    else
      match MakeDirs(fs, dst[..|dst| - 1])
      case None => (Ok(false), fs)
      case Some(fs1) =>
        if IsDir(fs1, dst) then (Ok(false), fs1)
        else if src == dst then (Ok(true), fs1[dst := EmptyFile])
        else
          match fs[src].text
          case None => (Err(UnicodeDecodeError), fs1[dst := EmptyFile])
          case Some(t) => (Ok(true), fs1[dst := TextFile(UniversalNewlines(t))])
  }

  /** `read_text_file`: the file's text read in text mode, or "" when it is missing or not UTF-8. */
  function ReadTextFile(fs: FsState, p: Path): (r: string)
    ensures r != "" ==> IsFile(fs, p) && fs[p].text.Some?
    ensures '\r' !in r
  {
    if !IsFile(fs, p) then ""
    else
      match fs[p].text
      case None => ""
      case Some(t) => UniversalNewlines(t)
  }

  /** After a successful copy the destination reads back exactly as the source does. */
  lemma {:induction false} CopyThenRead(fs: FsState, src: Path, dst: Path, replace: bool)
    requires CopyFileFs(fs, src, dst, replace).0 == Ok(true) && src != dst
    ensures ReadTextFile(CopyFileFs(fs, src, dst, replace).1, dst) == ReadTextFile(fs, src)
  {
  }

  /**
   * The documentation template (`TEMPLATE_FILE_FORMAT`), split around its one
   * `$summary_text` placeholder; its wording is not part of this model.
   */
  datatype DocTemplate = DocTemplate(head: string, tail: string)

  /** `Template.substitute(summary_text=...)`: the summary is inserted verbatim. */
  function Render(tmpl: DocTemplate, summary: string): (r: string)
    ensures |r| == |tmpl.head| + |summary| + |tmpl.tail|
    ensures r[|tmpl.head|..|tmpl.head| + |summary|] == summary
  {
    tmpl.head + summary + tmpl.tail
  }

  /** Different summaries render to different pages. */
  lemma RenderInjective(tmpl: DocTemplate, s1: string, s2: string)
    requires Render(tmpl, s1) == Render(tmpl, s2)
    ensures s1 == s2
  {
  }

  /**
   * `os.path.join(directory_path, resource_name) + '.md.tmpl'`: a "/" in the
   * name descends into subdirectories, and an absolute name replaces the
   * directory.
   */
  function TemplateFile(dir: Path, name: string): (r: Path)
    ensures r != [] && EndsWith(r[|r| - 1], ".md.tmpl")
  {
    ComponentsKeepLastName(name, ".md.tmpl");
    DirPath(dir, name + ".md.tmpl")
  }

  /** A name without slashes gives the file `<name>.md.tmpl` directly in the directory. */
  lemma TemplateFilePlainName(dir: Path, name: string)
    requires '/' !in name
    ensures TemplateFile(dir, name) == dir + [name + ".md.tmpl"]
  {
    var file := name + ".md.tmpl";
    assert forall i :: 0 <= i < |file| ==> file[i] == (if i < |name| then name[i] else ".md.tmpl"[i - |name|]);
    assert '/' !in file;
    ComponentsOfName(file);
  }

  /** The directory `open(file_path, 'w')` needs: the parent of the path, the root being one. */
  predicate ParentIsDir(fs: FsState, p: Path) {
    |p| <= 1 || IsDir(fs, p[..|p| - 1])
  }

  /**
   * `create_template`: makes the directory, then writes the rendered template
   * to `TemplateFile(dir, name)` and returns that path (`Ok(Some)`);
   * `Ok(None)` (the source's `False`) when the file exists and `replace` is
   * off, when the path is a directory, or when its parent is missing or not a
   * directory (the `OSError` of `open`, caught with `file_path` bound). When
   * the directory cannot be made, the `OSError` handler formats `file_path`
   * before it was assigned and raises UnboundLocalError, with nothing written.
   */
  function CreateTemplateFs(fs: FsState, dir: Path, name: string, summary: string, replace: bool, tmpl: DocTemplate)
    : (r: (Result<Option<Path>, PyError>, FsState))
    ensures r.0.Err? <==> MakeDirs(fs, dir).None?
    ensures r.0.Err? ==> r.0.error == UnboundLocalError && r.1 == fs
    ensures r.0.Ok? && r.0.value.Some? ==>
      r.0.value.value == TemplateFile(dir, name)
      && ReadTextFile(r.1, r.0.value.value) == UniversalNewlines(Render(tmpl, summary))
    ensures r.0.Ok? && IsFile(fs, TemplateFile(dir, name)) && !replace ==> r.0.value.None?
    ensures r.0.Ok? && IsDir(fs, TemplateFile(dir, name)) ==> r.0.value.None?
    ensures forall q :: q in fs && q != TemplateFile(dir, name) ==> q in r.1 && r.1[q] == fs[q]
    ensures IsDir(fs, TemplateFile(dir, name)) ==> IsDir(r.1, TemplateFile(dir, name))
    ensures forall q :: q in r.1 && q !in fs ==> q == TemplateFile(dir, name) || Under(q, dir)
  {
    match MakeDirs(fs, dir)
    case None => (Err(UnboundLocalError), fs)
    case Some(fs1) =>
      var w := WriteTemplate(fs1, TemplateFile(dir, name), summary, replace, tmpl);
      (Ok(w.0), w.1)
  }

  /** The part of `create_template` after the directory exists: the existence check and the write. */
  function WriteTemplate(fs: FsState, fp: Path, summary: string, replace: bool, tmpl: DocTemplate)
    : (r: (Option<Path>, FsState))
    ensures r.0.None? <==> (IsFile(fs, fp) && !replace) || IsDir(fs, fp) || !ParentIsDir(fs, fp)
    ensures r.0.None? ==> r.1 == fs
    ensures r.0.Some? ==> r.0.value == fp && ReadTextFile(r.1, fp) == UniversalNewlines(Render(tmpl, summary))
    ensures forall q :: q in fs && q != fp ==> q in r.1 && r.1[q] == fs[q]
    ensures forall q :: q in r.1 ==> q in fs || q == fp
  {
    if IsFile(fs, fp) && !replace then (None, fs)
    else if IsDir(fs, fp) || !ParentIsDir(fs, fp) then (None, fs)
    else (Some(fp), fs[fp := TextFile(Render(tmpl, summary))])
  }

  /**
   * A short name "a/b" whose subdirectory `a` does not exist writes nothing:
   * `open` fails and `create_template` answers `False`, with only the
   * directory made.
   */
  lemma NestedTemplateNameNeedsParent(fs: FsState, dir: Path, a: string, b: string, summary: string,
                                      replace: bool, tmpl: DocTemplate)
    requires a != "" && '/' !in a && '/' !in b
    requires dir + [a] !in fs
    ensures var r := CreateTemplateFs(fs, dir, a + "/" + b, summary, replace, tmpl);
      r.0.Ok? ==> r.0.value.None? && Some(r.1) == MakeDirs(fs, dir)
  {
    NestedTemplateFile(dir, a, b);
    var file := dir + [a, b + ".md.tmpl"];
    assert file[..|file| - 1] == dir + [a];
  }

  lemma NestedTemplateFile(dir: Path, a: string, b: string)
    requires a != "" && '/' !in a && '/' !in b
    ensures TemplateFile(dir, a + "/" + b) == dir + [a, b + ".md.tmpl"]
  {
    var tail := b + ".md.tmpl";
    assert forall i :: 0 <= i < |tail| ==> tail[i] == (if i < |b| then b[i] else ".md.tmpl"[i - |b|]);
    assert '/' !in tail;
    ComponentsAfterSlash(a, tail);
    assert (a + "/" + b) + ".md.tmpl" == a + "/" + tail;
    ComponentsOfName(a);
    ComponentsOfName(tail);
  }

  /** Joining a slash-free tail to a name keeps it at the end of the last path name. */
  lemma {:induction false} ComponentsKeepLastName(s: string, t: string)
    requires t != "" && '/' !in t
    ensures var r := Components(s + t); r != [] && EndsWith(r[|r| - 1], t)
    decreases |s|
  {
    var st := s + t;
    if s == [] {
      assert st == t;
      ComponentsOfName(t);
    } else {
      assert st[1..] == s[1..] + t;
      ComponentsKeepLastName(s[1..], t);
      if s[0] != '/' && st[1] != '/' {
        var rest := Components(st[1..]);
        if |rest| == 1 {
          var last := [s[0]] + rest[0];
          assert last[|last| - |t|..] == rest[0][|rest[0]| - |t|..];
        }
      }
    }
  }

  /**
   * `create_template` as its handler is meant to work: a directory that
   * cannot be made is logged and answered with `False`, like every other
   * failure; otherwise it behaves as written.
   */
  function CorrectedCreateTemplateFs(fs: FsState, dir: Path, name: string, summary: string, replace: bool,
                                     tmpl: DocTemplate)
    : (r: (Option<Path>, FsState))
    ensures MakeDirs(fs, dir).None? ==> r == (None, fs)
    ensures r.0.Some? ==>
      r.0.value == TemplateFile(dir, name)
      && ReadTextFile(r.1, r.0.value) == UniversalNewlines(Render(tmpl, summary))
    ensures MakeDirs(fs, dir).Some? ==> CreateTemplateFs(fs, dir, name, summary, replace, tmpl) == (Ok(r.0), r.1)
  {
    var written := CreateTemplateFs(fs, dir, name, summary, replace, tmpl);
    if written.0.Err? then (None, fs) else (written.0.value, written.1)
  }

  // ---------------------------------------------------------------------
  // find_dirs_without_tf_files (explorer.py:50-84)
  // ---------------------------------------------------------------------

  /** A relative path written with "/" between its names, as `os.path.relpath` prints it. */
  function JoinPath(rel: Path): string {
    if rel == [] then "."
    else if |rel| == 1 then rel[0]
    else rel[0] + "/" + JoinPath(rel[1..])
  }

  /**
   * The directories `find_dirs_without_tf_files` reports: directories strictly
   * below `base`, holding no `*.tf` entry, whose relative path starts with
   * "examples/resources/".
   */
  predicate Reported(fs: FsState, base: Path, rel: Path) {
    && IsDir(fs, base)
    && rel != []
    && IsDir(fs, base + rel)
    && !ContainsExample(fs, base + rel)
    && StartsWith(JoinPath(rel), "examples/resources/")
  }

  method FindDirsWithoutTfFiles(fs: FsState, base: Path) returns (found: seq<Path>)
    ensures forall rel :: rel in found <==> Reported(fs, base, rel)
    ensures forall i, j :: 0 <= i < j < |found| ==> found[i] != found[j]
  {
    found := [];
    if base !in fs {
      return;
    }
    if !IsDir(fs, base) {
      // os.walk over a file yields nothing
      return;
    }
    var todo := set p | p in fs && IsDir(fs, p) && |p| > |base| && p[..|base|] == base;
    ghost var all := todo;
    while todo != {}
      invariant todo <= all
      invariant forall rel :: rel in found ==> Reported(fs, base, rel) && base + rel in all - todo
      invariant forall p :: p in all - todo ==> Reported(fs, base, p[|base|..]) ==> p[|base|..] in found
      invariant forall i, j :: 0 <= i < j < |found| ==> found[i] != found[j]
      decreases todo
    {
      var p :| p in todo;
      var rel := p[|base|..];
      assert base + rel == p;
      assert forall r :: r in found ==> r != rel;
      if !ContainsExample(fs, p) && StartsWith(JoinPath(rel), "examples/resources/") {
        found := found + [rel];
      }
      todo := todo - {p};
    }
    forall rel | Reported(fs, base, rel)
      ensures rel in found
    {
      var p := base + rel;
      assert p[..|base|] == base && p[|base|..] == rel;
    }
  }

  // ---------------------------------------------------------------------
  // The working file system, changed in place
  // ---------------------------------------------------------------------

  class FileSystem {
    var entries: FsState

    constructor (initial: FsState)
      ensures entries == initial
    {
      entries := initial;
    }

    method CreateMarker(d: Path, m: Marker) returns (ok: bool)
      modifies this
      ensures (ok, entries) == CreateMarkerFs(old(entries), d, m)
    {
      if !IsDir(entries, d) {
        return false;
      }
      var marker := d + [FileName(m)];
      if IsFile(entries, marker) {
        return false;
      }
      if marker !in entries {
        entries := entries[marker := EmptyFile];
      }
      return true;
    }

    method DeleteMarker(d: Path, m: Marker) returns (ok: bool)
      modifies this
      ensures (ok, entries) == DeleteMarkerFs(old(entries), d, m)
    {
      if !IsDir(entries, d) {
        return false;
      }
      var marker := d + [FileName(m)];
      if IsFile(entries, marker) {
        entries := entries - {marker};
        return true;
      }
      return false;
    }

    method DeleteDirectory(d: Path) returns (ok: bool)
      modifies this
      ensures (ok, entries) == DeleteDirectoryFs(old(entries), d)
    {
      if !IsDir(entries, d) {
        return false;
      }
      entries := map q | q in entries && !Under(d, q) :: entries[q];
      return true;
    }

    method CopyFile(src: Path, dst: Path, replace: bool) returns (r: Result<bool, PyError>)
      modifies this
      ensures (r, entries) == CopyFileFs(old(entries), src, dst, replace)
    {
      if !IsFile(entries, src) {
        return Ok(false);
      }
      if IsFile(entries, dst) && !replace {
        return Ok(false);
      }
      if dst == [] {
        return Ok(false);
      }
      var made := MakeDirs(entries, dst[..|dst| - 1]);
      if made.None? {
        return Ok(false);
      }
      var source := entries[src];
      entries := made.value;
      if IsDir(entries, dst) {
        return Ok(false);
      }
      if src == dst || source.text.None? {
        // opening the destination for writing truncates it before the source is read
        entries := entries[dst := EmptyFile];
        return if src == dst then Ok(true) else Err(UnicodeDecodeError);
      }
      entries := entries[dst := TextFile(UniversalNewlines(source.text.value))];
      return Ok(true);
    }

    method CreateTemplate(dir: Path, name: string, summary: string, replace: bool, tmpl: DocTemplate)
      returns (r: Result<Option<Path>, PyError>)
      modifies this
      ensures (r, entries) == CreateTemplateFs(old(entries), dir, name, summary, replace, tmpl)
    {
      var made := MakeDirs(entries, dir);
      if made.None? {
        return Err(UnboundLocalError);
      }
      entries := made.value;
      var filePath := TemplateFile(dir, name);
      if IsFile(entries, filePath) && !replace {
        return Ok(None);
      }
      if IsDir(entries, filePath) || !ParentIsDir(entries, filePath) {
        return Ok(None);
      }
      entries := entries[filePath := TextFile(Render(tmpl, summary))];
      return Ok(Some(filePath));
    }
  }
}
