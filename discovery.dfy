/**
 * The next-resource selection of agents/discovery_agent.py: the processed
 * names read from the table, the provider version of a release tag, and the
 * first resource, newest release first, that has not been processed.
 *
 * The table scan and the release list are inputs; the regular expression
 * that finds a release's new resources is not modelled, each release comes
 * with its list of names.
 */
module Discovery {
  import opened Wrappers
  import opened Strings

  // ---------------------------------------------------------------------
  // get_processed_resources (discovery_agent.py:15-33)
  // ---------------------------------------------------------------------

  /** One scanned item: attribute name to its typed value (type tag to text). */
  type TableItem = map<string, map<string, string>>

  /** What the scan gave: an exception, or a reply with or without an `Items` list. */
  datatype ScanReply = ScanFailed | Scanned(items: Option<seq<TableItem>>)

  /** The item has a `resource_name` attribute of string type. */
  predicate HasName(item: TableItem) {
    "resource_name" in item && "S" in item["resource_name"]
  }

  function NameOf(item: TableItem): string
    requires HasName(item)
  {
    item["resource_name"]["S"]
  }

  /** The items of the reply: none on a failed scan or a reply without `Items`. */
  function ItemsOf(reply: ScanReply): seq<TableItem> {
    if reply.Scanned? && reply.items.Some? then reply.items.value else []
  }

  /**
   * `get_processed_resources`: the string names of the scanned items,
   * skipping items without one; an exception gives the empty set.
   */
  method GetProcessedResources(reply: ScanReply) returns (processed: set<string>)
    ensures forall n :: n in processed <==>
      exists i :: 0 <= i < |ItemsOf(reply)| && HasName(ItemsOf(reply)[i]) && NameOf(ItemsOf(reply)[i]) == n
    ensures reply == ScanFailed ==> processed == {}
  {
    processed := {};
    if reply == ScanFailed {
      return;
    }
    var items := ItemsOf(reply);
    for i := 0 to |items|
      invariant forall n :: n in processed <==>
        exists j :: 0 <= j < i && HasName(items[j]) && NameOf(items[j]) == n
    {
      if HasName(items[i]) {
        processed := processed + {NameOf(items[i])};
      }
    }
  }

  // ---------------------------------------------------------------------
  // extract_resources_from_release and the version (discovery_agent.py:46-58, 73)
  // ---------------------------------------------------------------------

  /** A release: its tag ("" when it has none) and the new resources its notes announce. */
  datatype Release = Release(tag: string, resources: seq<string>)

  /** The version of a release: the tag without its leading "v"s, or "unknown" for no tag. */
  function VersionOf(tag: string): (r: string)
    ensures tag == "" ==> r == "unknown"
    ensures tag != "" ==> EndsWith(tag, r) && (r == "" || r[0] != 'v')
    ensures tag != "" ==> forall i :: 0 <= i < |tag| - |r| ==> tag[i] == 'v'
  {
    if tag == "" then "unknown" else LStrip(tag, 'v')
  }

  /** Putting one "v" before a version without one, and taking the version again, gives it back. */
  lemma VersionOfTag(v: string)
    requires v != "" && v[0] != 'v'
    ensures VersionOf("v" + v) == v
  {
    LStripLead("v" + v, 'v');
    assert ("v" + v)[1..] == v;
    LStripNoLead(v, 'v');
  }

  /**
   * The version paired with the chosen resource: the newest tag without its
   * leading "v"s, and here with no "unknown" fallback, so an empty tag gives "".
   */
  function LatestVersion(releases: seq<Release>): (r: string)
    requires releases != []
    ensures releases[0].tag != "" ==> r == VersionOf(releases[0].tag)
    ensures releases[0].tag == "" ==> r == ""
  {
    LStrip(releases[0].tag, 'v')
  }

  // ---------------------------------------------------------------------
  // find_unprocessed_resource (discovery_agent.py:60-88)
  // ---------------------------------------------------------------------

  /** The resources of all releases, newest release first, each in its own order. */
  function Candidates(releases: seq<Release>): seq<string> {
    if releases == [] then [] else releases[0].resources + Candidates(releases[1..])
  }

  /** The nested search: the first resource of the first release that has one not in `processed`. */
  function FirstUnprocessed(releases: seq<Release>, processed: set<string>): Option<string> {
    if releases == [] then None
    else
      match FirstNotIn(releases[0].resources, processed)
      case Some(r) => Some(r)
      case None => FirstUnprocessed(releases[1..], processed)
  }

  /** The first element of `xs` not in `processed`. */
  function FirstNotIn(xs: seq<string>, processed: set<string>): Option<string> {
    if xs == [] then None
    else if xs[0] !in processed then Some(xs[0])
    else FirstNotIn(xs[1..], processed)
  }

  /** The first element not in the set: found at some index, with every earlier element in the set. */
  predicate IsFirstNotIn(xs: seq<string>, processed: set<string>, r: Option<string>) {
    match r
    case None => forall i :: 0 <= i < |xs| ==> xs[i] in processed
    case Some(x) =>
      exists k :: 0 <= k < |xs| && xs[k] == x && x !in processed && forall i :: 0 <= i < k ==> xs[i] in processed
  }

  lemma {:induction false} FirstNotInIsFirst(xs: seq<string>, processed: set<string>)
    ensures IsFirstNotIn(xs, processed, FirstNotIn(xs, processed))
  {
    if xs != [] && xs[0] in processed {
      FirstNotInIsFirst(xs[1..], processed);
      match FirstNotIn(xs[1..], processed)
      case None =>
      case Some(x) =>
        var k :| 0 <= k < |xs[1..]| && xs[1..][k] == x && x !in processed
          && forall i :: 0 <= i < k ==> xs[1..][i] in processed;
        assert xs[k + 1] == x;
        assert forall i :: 1 <= i < k + 1 ==> xs[i] == xs[1..][i - 1];
    } else if xs != [] {
      assert xs[0] == xs[0];
    }
  }

  /** The nested search is the flat search over all candidates in order. */
  lemma {:induction false} FirstUnprocessedIsFlat(releases: seq<Release>, processed: set<string>)
    ensures FirstUnprocessed(releases, processed) == FirstNotIn(Candidates(releases), processed)
  {
    if releases != [] {
      FirstUnprocessedIsFlat(releases[1..], processed);
      FirstNotInAppend(releases[0].resources, Candidates(releases[1..]), processed);
    }
  }

  lemma {:induction false} FirstNotInAppend(xs: seq<string>, ys: seq<string>, processed: set<string>)
    ensures FirstNotIn(xs + ys, processed)
      == match FirstNotIn(xs, processed) case Some(x) => Some(x) case None => FirstNotIn(ys, processed)
  {
    if xs != [] {
      assert (xs + ys)[1..] == xs[1..] + ys;
      FirstNotInAppend(xs[1..], ys, processed);
    } else {
      assert xs + ys == ys;
    }
  }

  /** What the search returns: a resource name and a provider version. */
  datatype Discovered = Discovered(resourceName: string, providerVersion: string)

  const NothingFound: Discovered := Discovered("NONE", "NONE")

  /** `find_unprocessed_resource` over the processed set and the fetched releases. */
  function FindUnprocessedResource(processed: set<string>, releases: seq<Release>): Discovered {
    if releases == [] then NothingFound
    else
      match FirstUnprocessed(releases, processed)
      case None => NothingFound
      case Some(r) => Discovered(r, LatestVersion(releases))
  }

  /**
   * The choice: when some announced resource is unprocessed, the first one
   * in release order and then in-release order, paired with the newest
   * release's version whichever release it came from; otherwise NONE/NONE.
   */
  lemma FindUnprocessedChoice(processed: set<string>, releases: seq<Release>)
    ensures var d := FindUnprocessedResource(processed, releases);
      var all := Candidates(releases);
      && ((forall i :: 0 <= i < |all| ==> all[i] in processed) ==> d == NothingFound)
      && (!(forall i :: 0 <= i < |all| ==> all[i] in processed) ==>
            releases != [] && d.providerVersion == LatestVersion(releases)
            && exists k :: 0 <= k < |all| && all[k] == d.resourceName && d.resourceName !in processed
                 && forall i :: 0 <= i < k ==> all[i] in processed)
  {
    FirstUnprocessedIsFlat(releases, processed);
    FirstNotInIsFirst(Candidates(releases), processed);
  }

  /** Processing the chosen resource moves the choice on: it is never chosen again. */
  lemma ChoiceMovesOn(processed: set<string>, releases: seq<Release>)
    requires FindUnprocessedResource(processed, releases) != NothingFound
    ensures var r := FindUnprocessedResource(processed, releases).resourceName;
      var next := FindUnprocessedResource(processed + {r}, releases);
      next == NothingFound || next.resourceName != r
  {
    var r := FindUnprocessedResource(processed, releases).resourceName;
    FindUnprocessedChoice(processed + {r}, releases);
  }
}
