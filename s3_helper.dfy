/**
 * Transfer filtering, key mapping and the per-item counters of the S3
 * helpers (terraform/src/lib/helpers/s3_helper.py).
 *
 * The bucket is not modelled: the listed keys, the outcome of `head_object`
 * and whether a transfer raises are inputs. The thread pool becomes a
 * sequential loop; the locks only protect the increments, so the final
 * counts are those of the loop.
 */
module S3Helper {
  import opened Wrappers
  import opened Strings
  import opened Explorer

  /** The three counters both transfers return. */
  datatype Counts = Counts(done: nat, skipped: nat, failed: nat) {
    function Total(): nat {
      done + skipped + failed
    }
  }

  /** How the worker classified one item; each adds one to exactly one counter. */
  datatype Outcome = Done | Skipped | Failed

  function Tally(c: Counts, o: Outcome): (r: Counts)
    ensures r.Total() == c.Total() + 1
  {
    match o
    case Done => c.(done := c.done + 1)
    case Skipped => c.(skipped := c.skipped + 1)
    case Failed => c.(failed := c.failed + 1)
  }

  // ---------------------------------------------------------------------
  // Download filter and relative path (s3_helper.py:64-122)
  // ---------------------------------------------------------------------

  /**
   * The text a key must start with for one include or exclude entry:
   * `prefix.rstrip('/') + '/' + entry.strip('/')`, or `entry.strip('/')`
   * when the prefix is empty.
   */
  function FilterPrefix(prefix: string, entry: string): string {
    if prefix != "" then RStrip(prefix, '/') + "/" + Strip(entry, '/') else Strip(entry, '/')
  }

  /** `any(key.startswith(FilterPrefix(prefix, e)) for e in entries)`, scanned left to right. */
  function AnyMatches(key: string, prefix: string, entries: seq<string>): bool {
    if entries == [] then false
    else StartsWith(key, FilterPrefix(prefix, entries[0])) || AnyMatches(key, prefix, entries[1..])
  }

  /** The scan finds a match exactly when some entry of the list yields a prefix of the key. */
  lemma {:induction false} AnyMatchesIff(key: string, prefix: string, entries: seq<string>)
    ensures AnyMatches(key, prefix, entries) <==> exists e :: e in entries && StartsWith(key, FilterPrefix(prefix, e))
  {
    if entries != [] {
      AnyMatchesIff(key, prefix, entries[1..]);
      assert forall e :: e in entries <==> e == entries[0] || e in entries[1..];
    }
  }

  /**
   * `should_process_object`: an empty include list admits every key; a
   * non-empty one admits the keys matching one of its entries; then any
   * matching exclude entry rejects the key.
   */
  function ShouldProcessObject(key: string, prefix: string, includes: seq<string>, excludes: seq<string>): bool {
    if includes != [] && !AnyMatches(key, prefix, includes) then false
    else if excludes != [] && AnyMatches(key, prefix, excludes) then false
    else true
  }

  /** Acceptance is (included) and (not excluded), each stated over the entries. */
  lemma ShouldProcessIff(key: string, prefix: string, includes: seq<string>, excludes: seq<string>)
    ensures ShouldProcessObject(key, prefix, includes, excludes) <==>
      (includes == [] || exists e :: e in includes && StartsWith(key, FilterPrefix(prefix, e)))
      && !(exists e :: e in excludes && StartsWith(key, FilterPrefix(prefix, e)))
  {
    AnyMatchesIff(key, prefix, includes);
    AnyMatchesIff(key, prefix, excludes);
  }

  /**
   * The include test is a raw prefix test on text, not on path segments: an
   * entry such as "awscc_s3_bucket" admits every key that continues it in any
   * way, "awscc_s3_bucket_policy/main.tf" included.
   */
  lemma IncludeIsNotSegmentMatch(entry: string, rest: string)
    requires entry != "" && entry[0] != '/' && entry[|entry| - 1] != '/'
    ensures ShouldProcessObject(entry + rest, "", [entry], [])
  {
    LStripNoLead(entry, '/');
    RStripNoTrail(entry, '/');
    assert (entry + rest)[..|entry|] == entry;
  }

  /** Slashes around an entry and at the end of the prefix do not matter. */
  lemma FilterPrefixNormalises()
    ensures FilterPrefix("d/", "/x/") == "d/x"
    ensures FilterPrefix("", "/x/") == "x"
  {
    assert "/x/"[1..] == "x/";
    LStripLead("/x/", '/');
    LStripNoLead("x/", '/');
    assert "x/"[..1] == "x";
    RStripTrail("x/", '/');
    RStripNoTrail("x", '/');
    assert "d/"[..1] == "d";
    RStripTrail("d/", '/');
    RStripNoTrail("d", '/');
  }

  /** `s[n:]` in Python: empty when `n` is past the end. */
  function Drop(s: string, n: nat): string {
    if n <= |s| then s[n..] else ""
  }

  /** The local path of a downloaded object, relative to the local directory. */
  function RelativePath(key: string, prefix: string): string {
    if prefix != "" then LStrip(Drop(key, |prefix|), '/') else key
  }

  /**
   * A key under a non-empty prefix is the prefix, then only slashes, then the
   * relative path, and the relative path does not start with a slash.
   */
  lemma RelativePathSplitsKey(key: string, prefix: string)
    requires prefix != "" && StartsWith(key, prefix)
    ensures |prefix| + |RelativePath(key, prefix)| <= |key|
    ensures key == prefix + key[|prefix|..|key| - |RelativePath(key, prefix)|] + RelativePath(key, prefix)
    ensures forall i :: |prefix| <= i < |key| - |RelativePath(key, prefix)| ==> key[i] == '/'
    ensures RelativePath(key, prefix) == [] || RelativePath(key, prefix)[0] != '/'
  {
    var rest := key[|prefix|..];
    assert key == prefix + rest;
    var rel := LStrip(rest, '/');
    assert RelativePath(key, prefix) == rel;
    SplitOffSuffix(prefix, rest, rel);
  }

  /** A text made of `prefix` then `rest`, where `rest` ends with `rel`, splits three ways. */
  lemma SplitOffSuffix(prefix: string, rest: string, rel: string)
    requires |rel| <= |rest| && rel == rest[|rest| - |rel|..]
    ensures var key := prefix + rest;
      key == prefix + key[|prefix|..|key| - |rel|] + rel
  {
    var key := prefix + rest;
    var mid := rest[..|rest| - |rel|];
    assert key[|prefix|..|key| - |rel|] == mid;
    assert rest == mid + rel;
    ConcatAssoc(prefix, mid, rel);
  }

  /** `os.path.join(directory, name)`: an absolute name replaces the directory. */
  function JoinLocal(directory: string, name: string): (r: string)
    ensures EndsWith(r, name)
  {
    if StartsWith(name, "/") || directory == "" then name
    else if EndsWith(directory, "/") then directory + name
    else directory + "/" + name
  }

  // ---------------------------------------------------------------------
  // Download classification and loop (s3_helper.py:11-28, 114-160)
  // ---------------------------------------------------------------------

  /** The arguments of `download_from_s3_prefix` that decide each object's outcome; "" is a missing prefix. */
  datatype DownloadConfig = DownloadConfig(
    localDirectory: string, prefix: string, includes: seq<string>, excludes: seq<string>, overwrite: bool)

  /** Where `download_file` writes `key`. */
  function LocalFile(cfg: DownloadConfig, key: string): string {
    JoinLocal(cfg.localDirectory, RelativePath(key, cfg.prefix))
  }

  /**
   * `download_file` for one object: skipped when the filter rejects the key
   * or, without overwrite, when the local file exists; failed when the
   * transfer raises (`fails`); downloaded otherwise.
   */
  function DownloadOutcome(cfg: DownloadConfig, key: string, local: set<string>, fails: string -> bool): Outcome {
    if !ShouldProcessObject(key, cfg.prefix, cfg.includes, cfg.excludes) then Skipped
    else if !cfg.overwrite && LocalFile(cfg, key) in local then Skipped
    else if fails(key) then Failed
    else Done
  }

  /**
   * The workers over the listed keys, one at a time, starting from the
   * counts `c`: the final counts and the local files afterwards.
   */
  function DownloadRun(cfg: DownloadConfig, keys: seq<string>, local: set<string>, fails: string -> bool, c: Counts)
    : (r: (Counts, set<string>))
    ensures r.0.Total() == c.Total() + |keys|
    ensures local <= r.1
    decreases |keys|
  {
    if keys == [] then (c, local)
    else
      var o := DownloadOutcome(cfg, keys[0], local, fails);
      var local' := if o == Done then local + {LocalFile(cfg, keys[0])} else local;
      DownloadRun(cfg, keys[1..], local', fails, Tally(c, o))
  }

  /** The number of keys the filter rejects. */
  function CountRejected(cfg: DownloadConfig, keys: seq<string>): nat {
    if keys == [] then 0
    else
      var here := if ShouldProcessObject(keys[0], cfg.prefix, cfg.includes, cfg.excludes) then 0 else 1;
      here + CountRejected(cfg, keys[1..])
  }

  /** The number of keys the filter admits and whose transfer raises. */
  function CountAdmittedFailing(cfg: DownloadConfig, keys: seq<string>, fails: string -> bool): nat {
    if keys == [] then 0
    else
      var here := if ShouldProcessObject(keys[0], cfg.prefix, cfg.includes, cfg.excludes) && fails(keys[0]) then 1 else 0;
      here + CountAdmittedFailing(cfg, keys[1..], fails)
  }

  /**
   * With overwrite on, the counts do not depend on the local files: skipped
   * is exactly the rejected keys, failed the admitted keys whose transfer
   * raises, and downloaded the rest.
   */
  lemma DownloadCountsWithOverwrite(cfg: DownloadConfig, keys: seq<string>, local: set<string>, fails: string -> bool)
    requires cfg.overwrite
    ensures DownloadRun(cfg, keys, local, fails, Counts(0, 0, 0)).0.skipped == CountRejected(cfg, keys)
    ensures DownloadRun(cfg, keys, local, fails, Counts(0, 0, 0)).0.failed == CountAdmittedFailing(cfg, keys, fails)
    ensures DownloadRun(cfg, keys, local, fails, Counts(0, 0, 0)).0.done
      == |keys| - CountRejected(cfg, keys) - CountAdmittedFailing(cfg, keys, fails)
  {
    DownloadSkippedWithOverwrite(cfg, keys, local, fails, Counts(0, 0, 0));
    DownloadFailedWithOverwrite(cfg, keys, local, fails, Counts(0, 0, 0));
  }

  lemma {:induction false} DownloadSkippedWithOverwrite(
    cfg: DownloadConfig, keys: seq<string>, local: set<string>, fails: string -> bool, c: Counts)
    requires cfg.overwrite
    ensures DownloadRun(cfg, keys, local, fails, c).0.skipped == c.skipped + CountRejected(cfg, keys)
    decreases |keys|
  {
    if keys != [] {
      var o := DownloadOutcome(cfg, keys[0], local, fails);
      var local' := if o == Done then local + {LocalFile(cfg, keys[0])} else local;
      DownloadSkippedWithOverwrite(cfg, keys[1..], local', fails, Tally(c, o));
      assert o == Skipped <==> !ShouldProcessObject(keys[0], cfg.prefix, cfg.includes, cfg.excludes);
    }
  }

  lemma {:induction false} DownloadFailedWithOverwrite(
    cfg: DownloadConfig, keys: seq<string>, local: set<string>, fails: string -> bool, c: Counts)
    requires cfg.overwrite
    ensures DownloadRun(cfg, keys, local, fails, c).0.failed == c.failed + CountAdmittedFailing(cfg, keys, fails)
    decreases |keys|
  {
    if keys != [] {
      var o := DownloadOutcome(cfg, keys[0], local, fails);
      var local' := if o == Done then local + {LocalFile(cfg, keys[0])} else local;
      DownloadFailedWithOverwrite(cfg, keys[1..], local', fails, Tally(c, o));
      assert o == Failed <==> ShouldProcessObject(keys[0], cfg.prefix, cfg.includes, cfg.excludes) && fails(keys[0]);
    }
  }

  /** Whatever the local files, a rejected key is skipped: never downloaded and never counted as failed. */
  lemma {:induction false} DownloadSkipsAtLeastRejected(
    cfg: DownloadConfig, keys: seq<string>, local: set<string>, fails: string -> bool, c: Counts)
    ensures DownloadRun(cfg, keys, local, fails, c).0.skipped >= c.skipped + CountRejected(cfg, keys)
    decreases |keys|
  {
    if keys != [] {
      var o := DownloadOutcome(cfg, keys[0], local, fails);
      var local' := if o == Done then local + {LocalFile(cfg, keys[0])} else local;
      DownloadSkipsAtLeastRejected(cfg, keys[1..], local', fails, Tally(c, o));
    }
  }

  /** `DownloadStats`: three counters, each raised by one per call. */
  class DownloadStats {
    var downloaded: nat
    var skipped: nat
    var failed: nat

    constructor ()
      ensures downloaded == 0 && skipped == 0 && failed == 0
    {
      downloaded, skipped, failed := 0, 0, 0;
    }

    function AsCounts(): Counts
      reads this
    {
      Counts(downloaded, skipped, failed)
    }

    method Record(o: Outcome)
      modifies this
      ensures AsCounts() == Tally(old(AsCounts()), o)
    {
      match o
      case Done => IncrementDownloaded();
      case Skipped => IncrementSkipped();
      case Failed => IncrementFailed();
    }

    method IncrementDownloaded()
      modifies this
      ensures downloaded == old(downloaded) + 1 && skipped == old(skipped) && failed == old(failed)
    {
      downloaded := downloaded + 1;
    }

    method IncrementSkipped()
      modifies this
      ensures skipped == old(skipped) + 1 && downloaded == old(downloaded) && failed == old(failed)
    {
      skipped := skipped + 1;
    }

    method IncrementFailed()
      modifies this
      ensures failed == old(failed) + 1 && downloaded == old(downloaded) && skipped == old(skipped)
    {
      failed := failed + 1;
    }
  }

  /**
   * `download_from_s3_prefix` over the listed keys (all pages, in order):
   * returns the final counters and the set of local files afterwards.
   */
  method DownloadFromPrefix(cfg: DownloadConfig, keys: seq<string>, local: set<string>, fails: string -> bool)
    returns (counts: Counts, localAfter: set<string>)
    ensures (counts, localAfter) == DownloadRun(cfg, keys, local, fails, Counts(0, 0, 0))
    ensures counts.Total() == |keys|
  {
    var stats := new DownloadStats();
    localAfter := local;
    var i := 0;
    assert keys[0..] == keys;
    while i < |keys|
      invariant 0 <= i <= |keys|
      invariant DownloadRun(cfg, keys[i..], localAfter, fails, stats.AsCounts())
        == DownloadRun(cfg, keys, local, fails, Counts(0, 0, 0))
    {
      var key := keys[i];
      var o := DownloadOutcome(cfg, key, localAfter, fails);
      assert keys[i..][1..] == keys[i + 1..];
      if o == Done {
        localAfter := localAfter + {LocalFile(cfg, key)};
      }
      stats.Record(o);
      i := i + 1;
    }
    assert keys[i..] == [];
    counts := stats.AsCounts();
  }

  // ---------------------------------------------------------------------
  // Upload: exclusion, keys and classification (s3_helper.py:191-366)
  // ---------------------------------------------------------------------

  /**
   * `fnmatch.fnmatch(name, pattern)` for patterns built from literal
   * characters, `?` and `*`: the whole name must match, and `*` also
   * matches "/".
   */
  function GlobMatch(name: string, pattern: string): bool
    decreases |name| + |pattern|
  {
    if pattern == [] then name == []
    else if pattern[0] == '*' then
      GlobMatch(name, pattern[1..]) || (name != [] && GlobMatch(name[1..], pattern))
    else name != [] && (pattern[0] == '?' || pattern[0] == name[0]) && GlobMatch(name[1..], pattern[1..])
  }

  /** A lone `*` matches every name. */
  lemma {:induction false} StarMatchesAll(name: string)
    ensures GlobMatch(name, "*")
    decreases |name|
  {
    if name != [] {
      StarMatchesAll(name[1..]);
    }
  }

  predicate Literal(p: string) {
    forall i :: 0 <= i < |p| ==> p[i] != '*' && p[i] != '?'
  }

  /** A literal followed by `*` matches exactly the names starting with that literal. */
  lemma {:induction false} LiteralStarIsPrefix(name: string, lit: string)
    requires Literal(lit)
    ensures GlobMatch(name, lit + "*") <==> StartsWith(name, lit)
    decreases |lit|
  {
    if lit == [] {
      assert lit + "*" == "*";
      StarMatchesAll(name);
    } else {
      assert (lit + "*")[1..] == lit[1..] + "*";
      assert lit[0] != '*' && lit[0] != '?';
      if name != [] {
        LiteralStarIsPrefix(name[1..], lit[1..]);
        if name[0] == lit[0] {
          assert StartsWith(name, lit) <==> StartsWith(name[1..], lit[1..]);
        }
      }
    }
  }

  /** `should_exclude_file`: the name matches one of the glob patterns. */
  function ShouldExclude(name: string, patterns: seq<string>): bool {
    if patterns == [] then false
    else GlobMatch(name, patterns[0]) || ShouldExclude(name, patterns[1..])
  }

  /** The scan finds a match exactly when some pattern of the list matches the name. */
  lemma {:induction false} ShouldExcludeIff(name: string, patterns: seq<string>)
    ensures ShouldExclude(name, patterns) <==> exists p :: p in patterns && GlobMatch(name, p)
  {
    if patterns != [] {
      ShouldExcludeIff(name, patterns[1..]);
      if GlobMatch(name, patterns[0]) {
        assert patterns[0] in patterns;
      }
      assert forall p :: p in patterns[1..] ==> p in patterns;
      if exists p :: p in patterns && GlobMatch(name, p) {
        var p :| p in patterns && GlobMatch(name, p);
        assert p == patterns[0] || p in patterns[1..];
      }
    }
  }

  /** `get_s3_key`: the relative path under the prefix, without leading slashes. */
  function GetS3Key(s3Prefix: string, rel: string): string {
    LStrip(RStrip(s3Prefix, '/') + "/" + rel, '/')
  }

  /** An empty prefix gives the bare relative path. */
  lemma GetS3KeyEmptyPrefix(rel: string)
    requires rel == [] || rel[0] != '/'
    ensures GetS3Key("", rel) == rel
  {
    assert RStrip("", '/') + "/" + rel == "/" + rel;
    assert ("/" + rel)[1..] == rel;
    LStripLead("/" + rel, '/');
    LStripNoLead(rel, '/');
  }

  /** A prefix that does not start with a slash is kept, followed by one slash and the path. */
  lemma GetS3KeyUnderPrefix(s3Prefix: string, rel: string)
    requires s3Prefix != [] && s3Prefix[0] != '/' && s3Prefix[|s3Prefix| - 1] != '/'
    ensures GetS3Key(s3Prefix, rel) == s3Prefix + "/" + rel
  {
    assert RStrip(s3Prefix, '/') == s3Prefix;
    LStripNoLead(s3Prefix + "/" + rel, '/');
  }

  /**
   * Uploading under a prefix and downloading that prefix again puts every
   * file back at the same relative path.
   */
  lemma UploadThenDownloadPath(s3Prefix: string, rel: string)
    requires s3Prefix != [] && s3Prefix[0] != '/' && s3Prefix[|s3Prefix| - 1] != '/'
    requires rel == [] || rel[0] != '/'
    ensures StartsWith(GetS3Key(s3Prefix, rel), s3Prefix)
    ensures RelativePath(GetS3Key(s3Prefix, rel), s3Prefix) == rel
  {
    GetS3KeyUnderPrefix(s3Prefix, rel);
    var key := s3Prefix + "/" + rel;
    assert key[..|s3Prefix|] == s3Prefix;
    assert Drop(key, |s3Prefix|) == "/" + rel;
    assert ("/" + rel)[1..] == rel;
    LStripLead("/" + rel, '/');
    LStripNoLead(rel, '/');
  }

  /** What `head_object` answered for a key. */
  datatype HeadReply = Found | NotFound404 | OtherClientError

  /** `file_exists_in_s3`: a 404 is "absent", any other client error is re-raised. */
  function FileExistsInS3(reply: HeadReply): (r: Result<bool, HeadReply>)
    ensures r.Ok? <==> reply != OtherClientError
    ensures r.Ok? ==> (r.value <==> reply == Found)
  {
    match reply
    case Found => Ok(true)
    case NotFound404 => Ok(false)
    case OtherClientError => Err(reply)
  }

  /** The arguments of `upload_to_s3_prefix` that decide each file's outcome. */
  datatype UploadConfig = UploadConfig(root: string, s3Prefix: string, excludes: seq<string>, overwrite: bool)

  /**
   * `str(f)` for a file found by `rglob` below `Path(root)`: the normalised
   * text of the local directory, then the names below it.
   */
  function FullText(root: string, rel: Path): string {
    var dir := PathText(root);
    if dir == "." then JoinPath(rel)
    else if dir == "/" then "/" + JoinPath(rel)
    else dir + "/" + JoinPath(rel)
  }

  /**
   * The text the excludes patterns are matched against, as written: the full
   * path of the file, which begins with the local directory.
   */
  function ExcludeTarget(cfg: UploadConfig, rel: Path): string {
    FullText(cfg.root, rel)
  }

  /** The text the excludes patterns are meant for: the path relative to the local directory. */
  function RelativeExcludeTarget(cfg: UploadConfig, rel: Path): string {
    JoinPath(rel)
  }

  /**
   * `upload_file` for one file: skipped when excluded, or without overwrite
   * when the key exists in the bucket; failed when `head_object` raises an
   * error other than 404 or the transfer raises (`fails`); uploaded otherwise.
   */
  function UploadOutcome(cfg: UploadConfig, rel: Path, head: string -> HeadReply, fails: string -> bool): Outcome {
    if ShouldExclude(ExcludeTarget(cfg, rel), cfg.excludes) then Skipped
    else
      var key := GetS3Key(cfg.s3Prefix, JoinPath(rel));
      if !cfg.overwrite && FileExistsInS3(head(key)).Err? then Failed
      else if !cfg.overwrite && FileExistsInS3(head(key)) == Ok(true) then Skipped
      else if fails(key) then Failed
      else Done
  }

  function UploadRun(cfg: UploadConfig, files: seq<Path>, head: string -> HeadReply, fails: string -> bool)
    : (r: Counts)
    ensures r.Total() == |files|
  {
    if files == [] then Counts(0, 0, 0)
    else Tally(UploadRun(cfg, files[1..], head, fails), UploadOutcome(cfg, files[0], head, fails))
  }

  /**
   * With overwrite on, nothing that survived the exclusion filter is
   * skipped: every file is uploaded or failed.
   */
  lemma {:induction false} UploadOverwriteSkipsNothing(
    cfg: UploadConfig, files: seq<Path>, head: string -> HeadReply, fails: string -> bool)
    requires cfg.overwrite
    requires forall f :: f in files ==> !ShouldExclude(ExcludeTarget(cfg, f), cfg.excludes)
    ensures UploadRun(cfg, files, head, fails).skipped == 0
  {
    if files != [] {
      UploadOverwriteSkipsNothing(cfg, files[1..], head, fails);
      OverwriteNeverSkips(cfg, files[0], head, fails);
    }
  }

  /** With overwrite on, a file that passed the exclusion filter is uploaded or failed. */
  lemma OverwriteNeverSkips(cfg: UploadConfig, f: Path, head: string -> HeadReply, fails: string -> bool)
    requires cfg.overwrite && !ShouldExclude(ExcludeTarget(cfg, f), cfg.excludes)
    ensures UploadOutcome(cfg, f, head, fails) != Skipped
  {
  }

  /** The files `rglob('*')` finds below `dir`, relative to `dir`. */
  function FilesBelow(fs: FsState, dir: Path): set<Path> {
    set q | q in fs && IsFile(fs, q) && |q| > |dir| && q[..|dir|] == dir :: q[|dir|..]
  }

  /**
   * The upload candidates: the found files whose full path (`str(f)`) no
   * exclude pattern matches.
   */
  function Candidates(found: set<Path>, cfg: UploadConfig): (r: set<Path>)
    ensures forall rel :: rel in r ==> rel in found && !ShouldExclude(ExcludeTarget(cfg, rel), cfg.excludes)
  {
    set rel | rel in found && !ShouldExclude(ExcludeTarget(cfg, rel), cfg.excludes)
  }

  /** `UploadStats`: three counters, each raised by one per call. */
  class UploadStats {
    var uploaded: nat
    var skipped: nat
    var failed: nat

    constructor ()
      ensures uploaded == 0 && skipped == 0 && failed == 0
    {
      uploaded, skipped, failed := 0, 0, 0;
    }

    function AsCounts(): Counts
      reads this
    {
      Counts(uploaded, skipped, failed)
    }

    method Record(o: Outcome)
      modifies this
      ensures AsCounts() == Tally(old(AsCounts()), o)
    {
      match o
      case Done => IncrementUploaded();
      case Skipped => IncrementSkipped();
      case Failed => IncrementFailed();
    }

    method IncrementUploaded()
      modifies this
      ensures uploaded == old(uploaded) + 1 && skipped == old(skipped) && failed == old(failed)
    {
      uploaded := uploaded + 1;
    }

    method IncrementSkipped()
      modifies this
      ensures skipped == old(skipped) + 1 && uploaded == old(uploaded) && failed == old(failed)
    {
      skipped := skipped + 1;
    }

    method IncrementFailed()
      modifies this
      ensures failed == old(failed) + 1 && uploaded == old(uploaded) && skipped == old(skipped)
    {
      failed := failed + 1;
    }
  }

  /** `xs` lists the set `s`, each element once. */
  ghost predicate Lists(xs: seq<Path>, s: set<Path>) {
    && (forall x :: x in xs <==> x in s)
    && (forall i, j :: 0 <= i < j < |xs| ==> xs[i] != xs[j])
    && |xs| == |s|
  }

  /** Lists a finite set once per element, in an unspecified order (the walk order of `rglob`). */
  method Enumerate(s: set<Path>) returns (xs: seq<Path>)
    ensures forall x :: x in xs <==> x in s
    ensures forall i, j :: 0 <= i < j < |xs| ==> xs[i] != xs[j]
    ensures |xs| == |s|
  {
    xs := [];
    var todo := s;
    while todo != {}
      invariant todo <= s
      invariant forall x :: x in xs <==> x in s - todo
      invariant forall i, j :: 0 <= i < j < |xs| ==> xs[i] != xs[j]
      invariant |xs| + |todo| == |s|
      decreases todo
    {
      var x :| x in todo;
      xs := xs + [x];
      todo := todo - {x};
    }
  }

  /** The message of the ValueError for a missing local directory. */
  function MissingDirectoryMessage(root: string): string {
    "Local directory does not exist: " + root
  }

  /**
   * `upload_to_s3_prefix`: a missing local directory raises ValueError; the
   * candidates are the files below it that no exclude pattern matches; no
   * candidate gives all-zero counts; otherwise each candidate adds one to
   * exactly one counter. `files` is the order the candidates were visited in.
   * The local directory is `cfg.root` resolved against the working directory
   * `cwd`, the same text the patterns see the files under.
   */
  method UploadToPrefix(fs: FsState, cwd: Path, cfg: UploadConfig, head: string -> HeadReply, fails: string -> bool)
    returns (r: Result<Counts, PyError>, files: seq<Path>)
    ensures DirPath(cwd, cfg.root) !in fs ==> r == Err(ValueError(MissingDirectoryMessage(PathText(cfg.root))))
    ensures DirPath(cwd, cfg.root) in fs ==> r.Ok?
    ensures r.Ok? ==> Lists(files, Candidates(FilesBelow(fs, DirPath(cwd, cfg.root)), cfg))
    ensures r.Ok? ==> r.value == UploadRun(cfg, files, head, fails) && r.value.Total() == |files|
    ensures r.Ok? && files == [] ==> r.value == Counts(0, 0, 0)
    ensures r.Ok? && cfg.overwrite ==> r.value.skipped == 0
  {
    var dir := DirPath(cwd, cfg.root);
    if dir !in fs {
      r, files := Err(ValueError(MissingDirectoryMessage(PathText(cfg.root)))), [];
    } else {
      var counts;
      counts, files := UploadCandidates(Candidates(FilesBelow(fs, dir), cfg), cfg, head, fails);
      r := Ok(counts);
    }
  }

  /** The candidate list once built: empty gives zeros, otherwise the workers run over it. */
  method UploadCandidates(candidates: set<Path>, cfg: UploadConfig, head: string -> HeadReply, fails: string -> bool)
    returns (counts: Counts, files: seq<Path>)
    requires forall rel :: rel in candidates ==> !ShouldExclude(ExcludeTarget(cfg, rel), cfg.excludes)
    ensures Lists(files, candidates)
    ensures counts == UploadRun(cfg, files, head, fails) && counts.Total() == |files|
    ensures files == [] ==> counts == Counts(0, 0, 0)
    ensures cfg.overwrite ==> counts.skipped == 0
  {
    files := Enumerate(candidates);
    if files == [] {
      return Counts(0, 0, 0), files;
    }
    counts := RunUploads(cfg, files, head, fails);
    if cfg.overwrite {
      UploadOverwriteSkipsNothing(cfg, files, head, fails);
    }
  }

  /** The workers over the candidate files: each adds one to exactly one counter. */
  method RunUploads(cfg: UploadConfig, files: seq<Path>, head: string -> HeadReply, fails: string -> bool)
    returns (counts: Counts)
    ensures counts == UploadRun(cfg, files, head, fails)
  {
    var stats := new UploadStats();
    var i := 0;
    ghost var done: seq<Path> := [];
    while i < |files|
      invariant 0 <= i <= |files| && done == files[..i]
      invariant stats.AsCounts() == UploadRun(cfg, done, head, fails)
    {
      UploadNext(stats, cfg, files, i, head, fails);
      i := i + 1;
      done := files[..i];
    }
    assert done == files;
    counts := stats.AsCounts();
  }

  /** One worker: the file at `i` adds its outcome to the counters of the files before it. */
  method UploadNext(stats: UploadStats, cfg: UploadConfig, files: seq<Path>, i: nat,
                    head: string -> HeadReply, fails: string -> bool)
    requires i < |files|
    modifies stats
    ensures stats.AsCounts() == Tally(old(stats.AsCounts()), UploadOutcome(cfg, files[i], head, fails))
    ensures old(stats.AsCounts()) == UploadRun(cfg, files[..i], head, fails) ==>
      stats.AsCounts() == UploadRun(cfg, files[..i + 1], head, fails)
  {
    stats.Record(UploadOutcome(cfg, files[i], head, fails));
    UploadRunAppend(cfg, files[..i], files[i], head, fails);
    PrefixGrows(files, i);
  }

  /** The prefix one element longer. */
  lemma PrefixGrows<T>(xs: seq<T>, i: nat)
    requires i < |xs|
    ensures xs[..i + 1] == xs[..i] + [xs[i]]
  {
  }

  /** Two outcomes raise the counters the same in either order. */
  lemma TallyCommutes(c: Counts, a: Outcome, b: Outcome)
    ensures Tally(Tally(c, a), b) == Tally(Tally(c, b), a)
  {
  }

  /** The counters do not depend on the order the workers finish in: one more file adds its outcome. */
  lemma {:induction false} UploadRunAppend(cfg: UploadConfig, files: seq<Path>, f: Path,
                                           head: string -> HeadReply, fails: string -> bool)
    ensures UploadRun(cfg, files + [f], head, fails) == Tally(UploadRun(cfg, files, head, fails), UploadOutcome(cfg, f, head, fails))
  {
    var last := UploadOutcome(cfg, f, head, fails);
    if files == [] {
      assert files + [f] == [f] && [f][1..] == [];
    } else {
      var first := UploadOutcome(cfg, files[0], head, fails);
      var rest := UploadRun(cfg, files[1..], head, fails);
      assert (files + [f])[0] == files[0];
      assert (files + [f])[1..] == files[1..] + [f];
      UploadRunAppend(cfg, files[1..], f, head, fails);
      calc {
        UploadRun(cfg, files + [f], head, fails);
        Tally(UploadRun(cfg, files[1..] + [f], head, fails), first);
        Tally(Tally(rest, last), first);
        { TallyCommutes(rest, last, first); }
        Tally(Tally(rest, first), last);
        Tally(UploadRun(cfg, files, head, fails), last);
      }
    }
  }

  /**
   * As written, the pattern for the `.terraform` directory (".terraform/" then a star) is matched against the full path,
   * which under an absolute local directory starts with "/": it never
   * matches, so the files of `.terraform` stay candidates.
   */
  lemma TerraformPatternAsWritten(cfg: UploadConfig, rel: Path)
    requires cfg.root != "" && cfg.root[0] == '/' && cfg.excludes == [".terraform/*"]
    ensures !ShouldExclude(ExcludeTarget(cfg, rel), cfg.excludes)
  {
    var name := ExcludeTarget(cfg, rel);
    assert StartsWith(cfg.root, "/");
    assert name[0] == '/';
  }

  /**
   * Matched against the path relative to the local directory, the pattern
   * excludes exactly the files whose relative path starts with ".terraform/".
   */
  lemma TerraformPatternExcludesTerraformDir(cfg: UploadConfig, rel: Path)
    requires cfg.excludes == [".terraform/*"]
    ensures ShouldExclude(RelativeExcludeTarget(cfg, rel), cfg.excludes) <==> StartsWith(JoinPath(rel), ".terraform/")
  {
    assert ".terraform/*" == ".terraform/" + "*";
    LiteralStarIsPrefix(JoinPath(rel), ".terraform/");
  }

  /**
   * As written, the `.terraform` exclusion of an upload from an absolute
   * local directory removes no file: every file found is a candidate.
   */
  lemma UploadKeepsTerraformFiles(found: set<Path>, cfg: UploadConfig)
    requires cfg.root != "" && cfg.root[0] == '/' && cfg.excludes == [".terraform/*"]
    ensures Candidates(found, cfg) == found
  {
    forall rel | rel in found
      ensures rel in Candidates(found, cfg)
    {
      TerraformPatternAsWritten(cfg, rel);
    }
  }

  /** The candidates with the exclude patterns matched against the relative path. */
  function CorrectedCandidates(found: set<Path>, cfg: UploadConfig): set<Path> {
    set rel | rel in found && !ShouldExclude(RelativeExcludeTarget(cfg, rel), cfg.excludes)
  }

  /** Corrected, the pattern removes exactly the files below `.terraform`. */
  lemma CorrectedCandidatesDropTerraform(found: set<Path>, cfg: UploadConfig, rel: Path)
    requires cfg.excludes == [".terraform/*"]
    ensures rel in CorrectedCandidates(found, cfg) <==> rel in found && !StartsWith(JoinPath(rel), ".terraform/")
  {
    TerraformPatternExcludesTerraformDir(cfg, rel);
  }
}
