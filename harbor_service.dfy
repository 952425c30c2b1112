/** The registry service: how it classifies project identifiers, composes repository paths,
    reshapes artifact and repository listings, and resolves a tag or chart version to the
    digest it deletes. The remote registry client is replaced by an abstract store held in
    the service object. */
module Harbor {
  import opened Wrappers
  import opened JsValues
  import opened Types

  // ---------------------------------------------------------------------------
  // Project identifiers
  // ---------------------------------------------------------------------------

  /** A string of decimal digits only; the empty string is included, as `Number("")` is 0. */
  predicate IsDecimal(s: string) {
    forall i | 0 <= i < |s| :: '0' <= s[i] <= '9'
  }

  function Pow10(n: nat): nat {
    if n == 0 then 1 else 10 * Pow10(n - 1)
  }

  /** `Number(s)` for a decimal string: a value below 10 to the number of digits. */
  function DecimalValue(s: string): (v: nat)
    requires IsDecimal(s)
    ensures v < Pow10(|s|)
  {
    if s == [] then 0 else 10 * DecimalValue(s[..|s| - 1]) + (s[|s| - 1] as int - '0' as int)
  }

  /** Whether `Number(s)` is NaN. Decimal strings are numbers; for every other string JavaScript's
      numeric-literal grammar (signs, fractions, exponents, hex, surrounding white space) is the
      abstract `numberSyntax`. */
  predicate NumberIsNaN(s: string, numberSyntax: string -> bool) {
    !IsDecimal(s) && !numberSyntax(s)
  }

  /** What the client is given: a number without flag, or the name with the by-name flag set. */
  datatype ProjectRef =
    | ById(id: nat)               // Number(projectId) for a decimal string
    | ByOtherNumber(text: string) // Number(projectId) for another numeric string; value not built
    | ByName(name: string)        // (projectId, true)

  /** The classification getProject and deleteProject share: a number when `Number(projectId)`
      is not NaN, else the string itself looked up by name. */
  function ClassifyProjectId(projectId: string, numberSyntax: string -> bool): (r: ProjectRef)
    ensures r.ByName? <==> NumberIsNaN(projectId, numberSyntax)
    ensures r.ByName? ==> r.name == projectId
    ensures r.ById? <==> IsDecimal(projectId)
    ensures r.ById? ==> r.id == DecimalValue(projectId)
    ensures r.ByOtherNumber? ==> r.text == projectId
  {
    if IsDecimal(projectId) then ById(DecimalValue(projectId))
    else if numberSyntax(projectId) then ByOtherNumber(projectId)
    else ByName(projectId)
  }

  /** "1" is project 1 and the empty string is project 0, whatever the rest of the numeric
      grammar says; a name that is not numeric is looked up by name. */
  lemma ClassifyExamples(numberSyntax: string -> bool)
    ensures ClassifyProjectId("1", numberSyntax) == ById(1)
    ensures ClassifyProjectId("", numberSyntax) == ById(0)
    ensures ClassifyProjectId("42", numberSyntax) == ById(42)
    ensures !numberSyntax("test-project") ==>
      ClassifyProjectId("test-project", numberSyntax) == ByName("test-project")
  {
    assert !IsDecimal("test-project") by { assert "test-project"[0] == 't'; }
    assert DecimalValue("42") == 42 by { assert "42"[..1] == "4"; }
  }

  // ---------------------------------------------------------------------------
  // Artifacts: tag lookup and deletion by digest
  // ---------------------------------------------------------------------------

  /** `a.tags && a.tags.includes(tag)` as the service writes it: a `tags` array is present
      and holds the string `tag` by strict equality, so a tag record never matches. */
  predicate IncludesTag(a: HarborArtifact, tag: string)
    ensures IncludesTag(a, tag) ==> a.tags.Some? && exists i | 0 <= i < |a.tags.value| :: a.tags.value[i] == TagName(tag)
  {
    a.tags.Some? && TagName(tag) in a.tags.value
  }

  /** The match by tag name the service evidently intends: one of the artifact's `tags`
      entries is named `tag` (see RecordTagMissedAsWritten). */
  predicate HasTag(a: HarborArtifact, tag: string) {
    a.tags.Some? && exists e | e in a.tags.value :: EntryName(e) == tag
  }

  /** As written, a tag record named like the wanted tag does not make an artifact match. */
  lemma RecordsNeverMatch(a: HarborArtifact, tag: string)
    requires a.tags.Some?
    requires forall e | e in a.tags.value :: e.TagRecord?
    ensures !IncludesTag(a, tag)
  {
  }

  /** Every artifact the written match finds is found by the name match, and on artifacts whose
      tags are all bare strings the two agree. */
  lemma IncludesTagIsHasTagOnNames(a: HarborArtifact, tag: string)
    ensures IncludesTag(a, tag) ==> HasTag(a, tag)
    ensures a.tags.Some? && (forall e | e in a.tags.value :: e.TagName?) ==>
      (IncludesTag(a, tag) <==> HasTag(a, tag))
  {
    if IncludesTag(a, tag) {
      assert EntryName(TagName(tag)) == tag;
    }
  }

  /** The artifact the registry returns for a tagged image: its tags are records. */
  function TaggedLatest(): HarborArtifact {
    HarborArtifact("sha256:123",
      Some([TagRecord(HarborArtifactTag(1, "latest", "", "", false, None, None, None))]),
      None, None, None, None)
  }

  /** As written, deleteTag(project, repo, "latest") on a repository holding TaggedLatest()
      finds no artifact (and so throws "Tag latest not found in repository repo"); matching by
      tag name finds it. */
  lemma RecordTagMissedAsWritten()
    ensures LookupIncludes(Got([TaggedLatest()]), "latest") == NoMatch
    ensures LookupTagged(Got([TaggedLatest()]), "latest") == Matched(0, "sha256:123")
  {
    RecordsNeverMatch(TaggedLatest(), "latest");
    var e := TaggedLatest().tags.value[0];
    assert EntryName(e) == "latest";
    assert HasTag(TaggedLatest(), "latest");
  }

  /** No two artifacts of one repository share a digest. */
  ghost predicate UniqueDigests(s: seq<HarborArtifact>) {
    forall i, j :: 0 <= i < j < |s| ==> s[i].digest != s[j].digest
  }

  /** What the registry does on an artifact delete by digest: every artifact with that digest
      goes, the others stay in order. */
  function RemoveDigest(s: seq<HarborArtifact>, digest: string): (r: seq<HarborArtifact>)
    ensures |r| <= |s|
    ensures forall a | a in r :: a in s && a.digest != digest
  {
    if s == [] then []
    else if s[0].digest == digest then RemoveDigest(s[1..], digest)
    else [s[0]] + RemoveDigest(s[1..], digest)
  }

  /** Removing a digest that is not there changes nothing. */
  lemma {:induction false} RemoveAbsentDigest(s: seq<HarborArtifact>, digest: string)
    requires forall a | a in s :: a.digest != digest
    ensures RemoveDigest(s, digest) == s
  {
    if s != [] {
      RemoveAbsentDigest(s[1..], digest);
    }
  }

  /** With unique digests, deleting by the digest of the artifact at `i` removes exactly that
      artifact; the list stays free of duplicate digests. */
  lemma RemoveDigestRemovesOne(s: seq<HarborArtifact>, i: nat)
    requires UniqueDigests(s) && i < |s|
    ensures RemoveDigest(s, s[i].digest) == s[..i] + s[i + 1..]
    ensures UniqueDigests(s[..i] + s[i + 1..])
  {
    forall j | 0 <= j < |s| && j != i ensures s[j].digest != s[i].digest {
      if j < i { assert s[j].digest != s[i].digest; } else { assert s[i].digest != s[j].digest; }
    }
    RemoveOnlyMatch(s, s[i].digest, i);
    UniqueWithout(s, i);
  }

  /** Deleting by a digest only the artifact at `i` has removes exactly that artifact. */
  lemma RemoveOnlyMatch(s: seq<HarborArtifact>, d: string, i: nat)
    requires i < |s| && s[i].digest == d
    requires forall j | 0 <= j < |s| && j != i :: s[j].digest != d
    ensures RemoveDigest(s, d) == s[..i] + s[i + 1..]
  {
    var before, after := s[..i], s[i + 1..];
    assert s == before + ([s[i]] + after);
    forall a | a in before ensures a.digest != d {
      var j :| 0 <= j < |before| && before[j] == a;
      assert s[j] == a;
    }
    forall a | a in after ensures a.digest != d {
      var j :| 0 <= j < |after| && after[j] == a;
      assert s[i + 1 + j] == a;
    }
    RemoveAbsentDigest(before, d);
    RemoveAbsentDigest(after, d);
    RemoveDigestAppend(before, [s[i]] + after, d);
    assert ([s[i]] + after)[1..] == after;
  }

  /** Deleting by digest works piecewise on a concatenation. */
  lemma {:induction false} RemoveDigestAppend(s: seq<HarborArtifact>, t: seq<HarborArtifact>, d: string)
    ensures RemoveDigest(s + t, d) == RemoveDigest(s, d) + RemoveDigest(t, d)
  {
    if s == [] {
      assert s + t == t;
    } else {
      assert (s + t)[1..] == s[1..] + t;
      RemoveDigestAppend(s[1..], t, d);
    }
  }

  /** Dropping one artifact keeps digests unique. */
  lemma UniqueWithout(s: seq<HarborArtifact>, i: nat)
    requires UniqueDigests(s) && i < |s|
    ensures UniqueDigests(s[..i] + s[i + 1..])
  {
    var t := s[..i] + s[i + 1..];
    forall p, q | 0 <= p < q < |t| ensures t[p].digest != t[q].digest {
      var p' := if p < i then p else p + 1;
      var q' := if q < i then q else q + 1;
      assert t[p] == s[p'] && t[q] == s[q'];
    }
  }

  /** The artifacts an answered listing stands for: `artifacts || []`. */
  datatype Reply<T> = Got(value: T) | Nothing | Failed(message: string)

  function Listed(reply: Reply<seq<HarborArtifact>>): seq<HarborArtifact> {
    match reply
    case Got(s) => s
    case _ => []
  }

  /** The outcome of the list-then-find step of deleteTag and deleteChart. */
  datatype Lookup = ListFailed(message: string) | NoMatch | Matched(index: nat, digest: string)

  /** List the artifacts (`artifacts || []`), then take the first one satisfying `p`. */
  function FirstCarrying(reply: Reply<seq<HarborArtifact>>, p: HarborArtifact -> bool): (r: Lookup)
    ensures r.ListFailed? <==> reply.Failed?
    ensures r.ListFailed? ==> r.message == reply.message
    ensures r.Matched? ==> reply.Got? && r.index < |reply.value|
    ensures r.Matched? ==> r.digest == reply.value[r.index].digest && p(reply.value[r.index])
    ensures r.Matched? ==> forall j :: 0 <= j < r.index ==> !p(reply.value[j])
    ensures r.NoMatch? <==> !reply.Failed? && forall a | a in Listed(reply) :: !p(a)
  {
    match reply
    case Failed(m) => ListFailed(m)
    case Nothing => NoMatch
    case Got(s) =>
      match FindIndex(s, p)
      case None => NoMatch
      case Some(i) => Matched(i, s[i].digest)
  }

  /** The list-then-find step of deleteTag and deleteChart as written:
      `(artifacts || []).find(a => a.tags && a.tags.includes(tag))`. */
  function LookupIncludes(reply: Reply<seq<HarborArtifact>>, tag: string): (r: Lookup)
    ensures r.ListFailed? <==> reply.Failed?
    ensures r.ListFailed? ==> r.message == reply.message
    ensures r.Matched? ==> reply.Got? && r.index < |reply.value|
    ensures r.Matched? ==> r.digest == reply.value[r.index].digest && IncludesTag(reply.value[r.index], tag)
    ensures r.Matched? ==> forall j :: 0 <= j < r.index ==> !IncludesTag(reply.value[j], tag)
    ensures r.NoMatch? <==> !reply.Failed? && forall a | a in Listed(reply) :: !IncludesTag(a, tag)
  {
    FirstCarrying(reply, a => IncludesTag(a, tag))
  }

  /** The same step with the evidently intended match by tag name. */
  function LookupTagged(reply: Reply<seq<HarborArtifact>>, tag: string): (r: Lookup)
    ensures r.ListFailed? <==> reply.Failed?
    ensures r.ListFailed? ==> r.message == reply.message
    ensures r.Matched? ==> reply.Got? && r.index < |reply.value|
    ensures r.Matched? ==> r.digest == reply.value[r.index].digest && HasTag(reply.value[r.index], tag)
    ensures r.Matched? ==> forall j :: 0 <= j < r.index ==> !HasTag(reply.value[j], tag)
    ensures r.NoMatch? <==> !reply.Failed? && forall a | a in Listed(reply) :: !HasTag(a, tag)
  {
    FirstCarrying(reply, a => HasTag(a, tag))
  }

  /** When every listed tag is a bare string, the written lookup and the lookup by name find
      the same artifact. */
  lemma LookupsAgreeOnBareNames(reply: Reply<seq<HarborArtifact>>, tag: string)
    requires forall a | a in Listed(reply) && a.tags.Some? :: forall e | e in a.tags.value :: e.TagName?
    ensures LookupIncludes(reply, tag) == LookupTagged(reply, tag)
  {
    forall a | a in Listed(reply) ensures IncludesTag(a, tag) <==> HasTag(a, tag) {
      IncludesTagIsHasTagOnNames(a, tag);
    }
  }

  // ---------------------------------------------------------------------------
  // getTags and getChartVersions: artifact list mappers
  // ---------------------------------------------------------------------------

  /** One entry of getTags: the digest as `name`, `tags || []`, and the copied metadata. */
  datatype TagSummary = TagSummary(
    name: string,
    tags: seq<TagEntry>,
    size: Option<int>,
    push_time: Option<string>,
    pull_time: Option<string>)

  function Summarize(a: HarborArtifact): (t: TagSummary)
    ensures t.name == a.digest && t.tags == (if a.tags.Some? then a.tags.value else [])
    ensures t.size == a.size && t.push_time == a.push_time && t.pull_time == a.pull_time
  {
    TagSummary(a.digest, a.tags.GetOr([]), a.size, a.push_time, a.pull_time)
  }

  /** `artifacts.map(...)` of getTags. */
  function TagSummaries(s: seq<HarborArtifact>): (r: seq<TagSummary>)
    ensures |r| == |s|
  {
    if s == [] then [] else [Summarize(s[0])] + TagSummaries(s[1..])
  }

  /** getTags keeps length and order: entry `i` describes artifact `i`, with its digest as the
      name, its tags unmodified (or none when absent) and its size and times copied. */
  lemma {:induction false} TagSummariesAt(s: seq<HarborArtifact>, i: nat)
    requires i < |s|
    ensures TagSummaries(s)[i].name == s[i].digest
    ensures TagSummaries(s)[i].tags == (if s[i].tags.Some? then s[i].tags.value else [])
    ensures TagSummaries(s)[i].size == s[i].size
    ensures TagSummaries(s)[i].push_time == s[i].push_time
    ensures TagSummaries(s)[i].pull_time == s[i].pull_time
  {
    if i > 0 {
      TagSummariesAt(s[1..], i - 1);
    }
  }

  /** `artifact.tags?.[0] || ""` as the service writes it: the first entry when there is one
      (a record is truthy and passes through unchanged; an empty string falls back to itself),
      else the empty string. */
  function FirstTagAsWritten(a: HarborArtifact): (r: TagEntry)
    ensures r == (if a.tags.Some? && |a.tags.value| > 0 then a.tags.value[0] else TagName(""))
  {
    if a.tags.Some? && |a.tags.value| > 0 && a.tags.value[0] != TagName("") then a.tags.value[0]
    else TagName("")
  }

  /** The evidently intended version of a chart artifact: the name of its first tag, or ""
      when it has none. */
  function FirstTagName(a: HarborArtifact): (v: string)
    ensures a.tags.Some? && |a.tags.value| > 0 ==> v == EntryName(a.tags.value[0])
    ensures a.tags.None? || a.tags.value == [] ==> v == ""
  {
    if a.tags.Some? && |a.tags.value| > 0 then EntryName(a.tags.value[0]) else ""
  }

  /** The chart artifact of a chart with one version "1.0.0". */
  function ChartVersionOne(): HarborArtifact {
    HarborArtifact("sha256:123",
      Some([TagRecord(HarborArtifactTag(1, "1.0.0", "", "", false, None, None, None))]),
      None, Some("2024-01-01T00:00:00Z"), None, None)
  }

  /** As written, the version reported for ChartVersionOne() is the whole tag record, not the
      string "1.0.0" that HarborChartVersion declares; taking the first tag's name gives "1.0.0". */
  lemma RecordVersionAsWritten()
    ensures FirstTagAsWritten(ChartVersionOne()).TagRecord?
    ensures FirstTagAsWritten(ChartVersionOne()) != TagName("1.0.0")
    ensures FirstTagName(ChartVersionOne()) == "1.0.0"
  {
  }

  /** The intended version is the name of the entry the written code reports. */
  lemma FirstTagNameIsNameOfFirstTag(a: HarborArtifact)
    ensures FirstTagName(a) == EntryName(FirstTagAsWritten(a))
  {
  }

  /** One entry of getChartVersions: the digest as the name, the first tags entry as the
      version, and the push and update times. */
  function ChartVersionOf(a: HarborArtifact): (v: HarborChartVersion)
    ensures v.name == a.digest && v.version == FirstTagAsWritten(a)
    ensures v.created == a.push_time && v.updated == a.update_time
  {
    HarborChartVersion(a.digest, FirstTagAsWritten(a), a.push_time, a.update_time)
  }

  /** `artifacts.map(...)` of getChartVersions. */
  function ChartVersionList(s: seq<HarborArtifact>): (r: seq<HarborChartVersion>)
    ensures |r| == |s|
  {
    if s == [] then [] else [ChartVersionOf(s[0])] + ChartVersionList(s[1..])
  }

  /** getChartVersions keeps length and order: entry `i` is artifact `i`'s digest, its first
      tags entry as it is (or "" when there is none), its push time and its update time. */
  lemma {:induction false} ChartVersionListAt(s: seq<HarborArtifact>, i: nat)
    requires i < |s|
    ensures ChartVersionList(s)[i].name == s[i].digest
    ensures ChartVersionList(s)[i].version ==
      (if s[i].tags.Some? && |s[i].tags.value| > 0 then s[i].tags.value[0] else TagName(""))
    ensures ChartVersionList(s)[i].created == s[i].push_time
    ensures ChartVersionList(s)[i].updated == s[i].update_time
  {
    if i > 0 {
      ChartVersionListAt(s[1..], i - 1);
    }
  }

  // ---------------------------------------------------------------------------
  // getCharts: the chart view over repositories
  // ---------------------------------------------------------------------------

  /** The shapes a repository listing may take: an array, an object with a `data` field (its
      value, None when falsy), anything else (null included), or a failed request. */
  datatype RepositoryReply =
    | RepoArray(repos: seq<HarborRepository>)
    | DataObject(data: Option<seq<HarborRepository>>)
    | OtherShape
    | RepoFailed(message: string)

  /** `repoArray` of getCharts. */
  function RepositoryArray(reply: RepositoryReply): (r: seq<HarborRepository>)
    ensures reply.RepoArray? ==> r == reply.repos
    ensures reply.DataObject? && reply.data.Some? ==> r == reply.data.value
    ensures reply.OtherShape? || (reply.DataObject? && reply.data.None?) ==> r == []
  {
    match reply
    case RepoArray(rs) => rs
    case DataObject(d) => d.GetOr([])
    case _ => []
  }

  /** `repo.name && repo.name.includes("/charts/")`. */
  predicate IsChartRepository(repo: HarborRepository)
    ensures IsChartRepository(repo) ==> repo.name.Some? && |repo.name.value| >= |"/charts/"|
  {
    repo.name.Some? && repo.name.value != "" && Contains(repo.name.value, "/charts/")
  }

  /** The chart view of one repository: the last path segment as the name, `artifact_count || 0`
      as the version count, no latest version, and the repository's times. */
  function ChartOf(repo: HarborRepository): (c: HarborChart)
    requires IsChartRepository(repo)
    ensures c.name == LastSegment(repo.name.value) && '/' !in c.name
    ensures Contains(repo.name.value, c.name)
    ensures c.total_versions == (if repo.artifact_count.Some? then repo.artifact_count.value else 0)
    ensures c.latest_version == ""
    ensures c.created == repo.creation_time && c.updated == repo.update_time
  {
    var name := LastSegment(repo.name.value);
    assert OccursAt(repo.name.value, name, |repo.name.value| - |name|);
    HarborChart(
      name,
      match repo.artifact_count case Some(n) => n case None => 0,
      "",
      repo.creation_time,
      repo.update_time)
  }

  /** `repoArray.filter(...)`: the chart repositories, in order. */
  function ChartRepositories(repos: seq<HarborRepository>): (r: seq<HarborRepository>)
    ensures forall x | x in r :: IsChartRepository(x) && x in repos
    ensures |r| <= |repos|
  {
    if repos == [] then []
    else (ChartRepositories(repos[..|repos| - 1]) +
          (if IsChartRepository(repos[|repos| - 1]) then [repos[|repos| - 1]] else []))
  }

  /** The chart view of a repository list: filter, then map. */
  function Charts(repos: seq<HarborRepository>): (r: seq<HarborChart>)
    ensures |r| <= |repos|
    ensures forall c | c in r :: '/' !in c.name && c.latest_version == ""
  {
    var chartRepos := ChartRepositories(repos);
    seq(|chartRepos|, k requires 0 <= k < |chartRepos| => ChartOf(chartRepos[k]))
  }

  /** The positions of the chart repositories in `repos`: increasing, and holding exactly the
      positions whose repository is a chart repository. */
  function ChartPositions(repos: seq<HarborRepository>): (idx: seq<nat>)
    ensures forall k | 0 <= k < |idx| :: idx[k] < |repos| && IsChartRepository(repos[idx[k]])
    ensures forall k, l | 0 <= k < l < |idx| :: idx[k] < idx[l]
    ensures forall j | 0 <= j < |repos| && IsChartRepository(repos[j]) :: j in idx
  {
    if repos == [] then []
    else (ChartPositions(repos[..|repos| - 1]) +
          (if IsChartRepository(repos[|repos| - 1]) then [|repos| - 1] else []))
  }

  /** getCharts returns exactly the chart repositories, in input order: entry `k` is the chart
      view of the repository at the `k`-th chart position. */
  lemma {:induction false} ChartsAreTheChartRepositories(repos: seq<HarborRepository>)
    ensures |Charts(repos)| == |ChartPositions(repos)|
    ensures forall k | 0 <= k < |Charts(repos)| ::
      Charts(repos)[k] == ChartOf(repos[ChartPositions(repos)[k]])
  {
    ChartRepositoriesArePositions(repos);
  }

  lemma {:induction false} ChartRepositoriesArePositions(repos: seq<HarborRepository>)
    ensures |ChartRepositories(repos)| == |ChartPositions(repos)|
    ensures forall k | 0 <= k < |ChartPositions(repos)| ::
      ChartRepositories(repos)[k] == repos[ChartPositions(repos)[k]]
  {
    if repos != [] {
      var init := repos[..|repos| - 1];
      ChartRepositoriesArePositions(init);
      forall k | 0 <= k < |ChartPositions(init)|
        ensures repos[ChartPositions(init)[k]] == init[ChartPositions(init)[k]]
      {
      }
    }
  }

  /** `s` cannot contain `sub` when a character of `sub` does not occur in `s`. */
  lemma MissingCharRulesOut(s: string, sub: string, j: nat)
    requires j < |sub| && sub[j] !in s
    ensures !Contains(s, sub)
  {
    forall i | 0 <= i <= |s| - |sub| ensures !OccursAt(s, sub, i) {
      assert s[i..i + |sub|][j] == s[i + j];
    }
  }

  /** Filtering a chart repository followed by another repository keeps the first alone. */
  lemma ChartRepositoriesOfPair(chart: HarborRepository, other: HarborRepository)
    requires IsChartRepository(chart) && !IsChartRepository(other)
    ensures ChartRepositories([chart, other]) == [chart]
  {
    assert [chart, other][..1] == [chart];
    assert [chart][..0] == [];
  }

  /** The chart view of the repository `project1/charts/chart1`. */
  lemma ChartOfExample(created: Option<string>, updated: Option<string>)
    ensures var chart := HarborRepository(Some("project1/charts/chart1"), None, Some(2), created, updated);
      IsChartRepository(chart) && ChartOf(chart) == HarborChart("chart1", 2, "", created, updated)
  {
    var chart := HarborRepository(Some("project1/charts/chart1"), None, Some(2), created, updated);
    assert OccursAt(chart.name.value, "/charts/", 8);
    LastSegmentUnique(chart.name.value, "chart1");
  }

  /** The example of the chart listing: a repository under `charts/` is reported by its last
      segment, another repository is left out. */
  lemma ChartsExample(created: Option<string>, updated: Option<string>)
    ensures Charts([
      HarborRepository(Some("project1/charts/chart1"), None, Some(2), created, updated),
      HarborRepository(Some("project1/not-a-chart"), None, Some(1), created, updated)
    ]) == [HarborChart("chart1", 2, "", created, updated)]
  {
    var chart := HarborRepository(Some("project1/charts/chart1"), None, Some(2), created, updated);
    var other := HarborRepository(Some("project1/not-a-chart"), None, Some(1), created, updated);
    ChartOfExample(created, updated);
    assert !Contains(other.name.value, "/charts/") by {
      assert 's' !in other.name.value;
      MissingCharRulesOut(other.name.value, "/charts/", 6);
    }
    ChartRepositoriesOfPair(chart, other);
  }

  // ---------------------------------------------------------------------------
  // The service over an abstract registry
  // ---------------------------------------------------------------------------

  /** Where the registry keeps a repository's artifacts. */
  datatype ArtifactPath = ArtifactPath(projectName: string, repositoryName: string)

  /** The repository path chart versions live under: `charts/<chartName>`. */
  function ChartPath(projectId: string, chartName: string): (p: ArtifactPath)
    ensures p.projectName == projectId
    ensures |p.repositoryName| == |"charts/"| + |chartName|
    ensures p.repositoryName[..|"charts/"|] == "charts/" && p.repositoryName[|"charts/"|..] == chartName
  {
    ArtifactPath(projectId, "charts/" + chartName)
  }

  /** The requests the service sends to the registry, recorded in order. Only an artifact
      delete also changes the store; project and repository deletes leave the listings as
      they are. */
  datatype ClientRequest =
    | GetProjectRequest(ref: ProjectRef)
    | DeleteProjectRequest(ref: ProjectRef)
    | DeleteRepositoryRequest(fullName: string)
    | DeleteArtifactRequest(projectName: string, repositoryName: string, tagOrDigest: string)

  class HarborService {
    /** JavaScript's `Number()` syntax beyond decimal digits (see NumberIsNaN). */
    const numberSyntax: string -> bool
    /** What a repository listing of each project answers. */
    var repositories: map<string, RepositoryReply>
    /** What an artifact listing of each repository answers. */
    var artifacts: map<ArtifactPath, Reply<seq<HarborArtifact>>>
    /** The requests sent to the registry that the store does not answer, in order. */
    var issued: seq<ClientRequest>

    /** Digests are unique within each listed repository. */
    ghost predicate Valid()
      reads this
    {
      forall p | p in artifacts && artifacts[p].Got? :: UniqueDigests(artifacts[p].value)
    }

    constructor (numberSyntax: string -> bool,
                 repositories: map<string, RepositoryReply>,
                 artifacts: map<ArtifactPath, Reply<seq<HarborArtifact>>>)
      requires forall p | p in artifacts && artifacts[p].Got? :: UniqueDigests(artifacts[p].value)
      ensures Valid()
      ensures this.numberSyntax == numberSyntax && this.repositories == repositories
      ensures this.artifacts == artifacts && issued == []
    {
      this.numberSyntax := numberSyntax;
      this.repositories := repositories;
      this.artifacts := artifacts;
      issued := [];
    }

    /** The artifact listing of `path`; a repository the store does not know lists nothing. */
    function ArtifactsAt(path: ArtifactPath): Reply<seq<HarborArtifact>>
      reads this
    {
      if path in artifacts then artifacts[path] else Nothing
    }

    /** The repository listing of a project; an unknown project answers null. */
    function RepositoriesOf(projectName: string): RepositoryReply
      reads this
    {
      if projectName in repositories then repositories[projectName] else OtherShape
    }

    /** getProject: fetches the project by number or by name; the fetched record is the
        registry's. */
    method GetProject(projectId: string)
      requires Valid()
      modifies this`issued
      ensures Valid()
      ensures issued == old(issued) + [GetProjectRequest(ClassifyProjectId(projectId, numberSyntax))]
    {
      issued := issued + [GetProjectRequest(ClassifyProjectId(projectId, numberSyntax))];
    }

    /** deleteProject: the same classification as getProject. */
    method DeleteProject(projectId: string)
      requires Valid()
      modifies this`issued
      ensures Valid()
      ensures issued == old(issued) + [DeleteProjectRequest(ClassifyProjectId(projectId, numberSyntax))]
    {
      issued := issued + [DeleteProjectRequest(ClassifyProjectId(projectId, numberSyntax))];
    }

    /** deleteRepository: targets `projectId/repositoryName`. */
    method DeleteRepository(projectId: string, repositoryName: string)
      requires Valid()
      modifies this`issued
      ensures Valid()
      ensures issued == old(issued) + [DeleteRepositoryRequest(projectId + "/" + repositoryName)]
    {
      issued := issued + [DeleteRepositoryRequest(projectId + "/" + repositoryName)];
    }

    /** getTags: a failed listing propagates its error; otherwise the mapped artifacts. */
    function GetTags(projectId: string, repositoryName: string): (r: Result<seq<TagSummary>, string>)
      reads this
      ensures ArtifactsAt(ArtifactPath(projectId, repositoryName)).Failed? <==> r.Failure?
      ensures r.Failure? ==> r.error == ArtifactsAt(ArtifactPath(projectId, repositoryName)).message
      ensures r.Success? ==> r.value == TagSummaries(Listed(ArtifactsAt(ArtifactPath(projectId, repositoryName))))
      ensures r.Success? ==> |r.value| == |Listed(ArtifactsAt(ArtifactPath(projectId, repositoryName)))|
    {
      match ArtifactsAt(ArtifactPath(projectId, repositoryName))
      case Failed(m) => Failure(m)
      case reply => Success(TagSummaries(Listed(reply)))
    }

    /** getCharts: a failed listing propagates its error; any other shape is reduced to an
        array and viewed as charts. */
    function GetCharts(projectId: string): (r: Result<seq<HarborChart>, string>)
      reads this
      ensures RepositoriesOf(projectId).RepoFailed? <==> r.Failure?
      ensures r.Failure? ==> r.error == RepositoriesOf(projectId).message
      ensures r.Success? ==> r.value == Charts(RepositoryArray(RepositoriesOf(projectId)))
    {
      match RepositoriesOf(projectId)
      case RepoFailed(m) => Failure(m)
      case reply => Success(Charts(RepositoryArray(reply)))
    }

    /** getChartVersions: lists `charts/<chartName>`; any failure yields the empty list. */
    function GetChartVersions(projectId: string, chartName: string): (r: seq<HarborChartVersion>)
      reads this
      ensures ArtifactsAt(ChartPath(projectId, chartName)).Failed? ==> r == []
      ensures !ArtifactsAt(ChartPath(projectId, chartName)).Failed? ==>
        r == ChartVersionList(Listed(ArtifactsAt(ChartPath(projectId, chartName))))
      ensures |r| == |Listed(ArtifactsAt(ChartPath(projectId, chartName)))|
    {
      match ArtifactsAt(ChartPath(projectId, chartName))
      case Failed(_) => []
      case reply => ChartVersionList(Listed(reply))
    }

    /** The step deleteTag and deleteChart share: list `path`, take the first artifact whose
        `tags` include `tag` (as written, see LookupIncludes), and delete it by its digest.
        Nothing is deleted when the listing fails or nothing matches; otherwise the listing
        loses exactly the matched artifact. */
    method DeleteTagged(path: ArtifactPath, tag: string) returns (found: Lookup)
      requires Valid()
      modifies this
      ensures Valid() && repositories == old(repositories)
      ensures found == LookupIncludes(old(ArtifactsAt(path)), tag)
      ensures found.Matched? ==>
        && issued == old(issued) + [DeleteArtifactRequest(path.projectName, path.repositoryName, found.digest)]
        && artifacts == old(artifacts)[path := Got(
             old(ArtifactsAt(path)).value[..found.index] + old(ArtifactsAt(path)).value[found.index + 1..])]
      ensures !found.Matched? ==> artifacts == old(artifacts) && issued == old(issued)
    {
      var reply := ArtifactsAt(path);
      found := LookupIncludes(reply, tag);
      if found.Matched? {
        var list := reply.value;
        issued := issued + [DeleteArtifactRequest(path.projectName, path.repositoryName, found.digest)];
        RemoveDigestRemovesOne(list, found.index);
        artifacts := artifacts[path := Got(RemoveDigest(list, found.digest))];
      }
    }

    /** deleteTag. Errors are rethrown with their message, or "Failed to delete tag" when the
        message is empty. */
    method DeleteTag(projectId: string, repositoryName: string, tag: string)
      returns (r: Result<DeleteResponse, string>)
      requires Valid()
      modifies this
      ensures Valid() && repositories == old(repositories)
      ensures var found := LookupIncludes(old(ArtifactsAt(ArtifactPath(projectId, repositoryName))), tag);
        && (found.ListFailed? ==> r == Failure(OrElse(found.message, "Failed to delete tag")))
        && (found.NoMatch? ==> r == Failure("Tag " + tag + " not found in repository " + repositoryName))
        && (found.Matched? ==> r == Success(DeleteResponse(true, "Tag " + tag + " deleted successfully")))
        && (found.Matched? ==>
             && issued == old(issued) + [DeleteArtifactRequest(projectId, repositoryName, found.digest)]
             && artifacts == old(artifacts)[ArtifactPath(projectId, repositoryName) := Got(
                  Listed(old(ArtifactsAt(ArtifactPath(projectId, repositoryName))))[..found.index] +
                  Listed(old(ArtifactsAt(ArtifactPath(projectId, repositoryName))))[found.index + 1..])])
        && (!found.Matched? ==> artifacts == old(artifacts) && issued == old(issued))
    {
      var found := DeleteTagged(ArtifactPath(projectId, repositoryName), tag);
      match found
      case ListFailed(m) =>
        r := Failure(OrElse(m, "Failed to delete tag"));
      case NoMatch =>
        r := Failure(OrElse("Tag " + tag + " not found in repository " + repositoryName, "Failed to delete tag"));
      case Matched(_, _) =>
        r := Success(DeleteResponse(true, "Tag " + tag + " deleted successfully"));
    }

    /** deleteChart: the same lookup under `charts/<chartName>`, deleting from that path. */
    method DeleteChart(projectId: string, chartName: string, version: string)
      returns (r: Result<DeleteResponse, string>)
      requires Valid()
      modifies this
      ensures Valid() && repositories == old(repositories)
      ensures var found := LookupIncludes(old(ArtifactsAt(ChartPath(projectId, chartName))), version);
        && (found.ListFailed? ==> r == Failure(OrElse(found.message, "Failed to delete chart version")))
        && (found.NoMatch? ==> r == Failure("Chart version " + version + " not found for chart " + chartName))
        && (found.Matched? ==> r == Success(DeleteResponse(true,
              "Chart " + chartName + " version " + version + " deleted successfully")))
        && (found.Matched? ==>
             && issued == old(issued) + [DeleteArtifactRequest(projectId, "charts/" + chartName, found.digest)]
             && artifacts == old(artifacts)[ChartPath(projectId, chartName) := Got(
                  Listed(old(ArtifactsAt(ChartPath(projectId, chartName))))[..found.index] +
                  Listed(old(ArtifactsAt(ChartPath(projectId, chartName))))[found.index + 1..])])
        && (!found.Matched? ==> artifacts == old(artifacts) && issued == old(issued))
    {
      var found := DeleteTagged(ChartPath(projectId, chartName), version);
      match found
      case ListFailed(m) =>
        r := Failure(OrElse(m, "Failed to delete chart version"));
      case NoMatch =>
        r := Failure(OrElse("Chart version " + version + " not found for chart " + chartName,
                            "Failed to delete chart version"));
      case Matched(_, _) =>
        r := Success(DeleteResponse(true, "Chart " + chartName + " version " + version + " deleted successfully"));
    }
  }
}
