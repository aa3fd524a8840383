/** The note generator: its configuration defaulting chain, the split of the
    merged pull requests into documentation-related and feature ones, and the
    text of the two prompts it sends to the language model. */
module Notes {
  import opened Common
  import opened Collector

  const DefaultApiVersion := "2023-05-15"
  const DefaultPeriodDays := 7

  /** The AZURE_OPENAI_* environment variables. */
  datatype AzureEnv = AzureEnv(apiKey: Option<string>, endpoint: Option<string>, deployment: Option<string>,
                               apiVersion: Option<string>)

  datatype Settings = Settings(apiKey: string, azureEndpoint: string, azureDeployment: string,
                               azureApiVersion: string)

  /** The constructor's defaulting chain: each explicit argument, else its
      environment variable; key and endpoint are mandatory, the deployment
      falls back to the model name and the API version to a fixed date. */
  function ResolveSettings(apiKey: Option<string>, model: string, azureEndpoint: Option<string>,
                           azureDeployment: Option<string>, azureApiVersion: Option<string>, env: AzureEnv)
    : (r: Result<Settings, string>)
    ensures !Truthy(apiKey) && !Truthy(env.apiKey) <==> r.Failure? && r.error == "Azure OpenAI API key is required."
    ensures (Truthy(apiKey) || Truthy(env.apiKey)) && !Truthy(azureEndpoint) && !Truthy(env.endpoint) <==>
              r.Failure? && r.error == "Azure OpenAI endpoint is required."
    ensures r.Success? ==> r.value.apiKey != "" && r.value.azureEndpoint != ""
    ensures r.Success? ==> r.value.apiKey == (if Truthy(apiKey) then apiKey.value else env.apiKey.value)
    ensures r.Success? ==>
      r.value.azureEndpoint == (if Truthy(azureEndpoint) then azureEndpoint.value else env.endpoint.value)
    ensures r.Success? ==>
      r.value.azureDeployment ==
        (if Truthy(azureDeployment) then azureDeployment.value
         else if Truthy(env.deployment) then env.deployment.value
         else model)
    ensures r.Success? ==>
      r.value.azureApiVersion ==
        (if Truthy(azureApiVersion) then azureApiVersion.value
         else if Truthy(env.apiVersion) then env.apiVersion.value
         else DefaultApiVersion)
  {
    var key := Or(apiKey, env.apiKey);
    if !Truthy(key) then Failure("Azure OpenAI API key is required.")
    else
      var endpoint := Or(azureEndpoint, env.endpoint);
      if !Truthy(endpoint) then Failure("Azure OpenAI endpoint is required.")
      else
        Success(Settings(key.value, endpoint.value, OrElse(Or(azureDeployment, env.deployment), model),
                         OrElse(Or(azureApiVersion, env.apiVersion), DefaultApiVersion)))
  }

  /** The collected data a prompt is built from. A list key that is absent is
      its empty default; `periodDays` is None when its key is absent. */
  datatype GitHubData = GitHubData(mergedPrs: seq<MergedPr>, commits: seq<Commit>, issues: seq<Issue>,
                                   periodDays: Option<int>)

  // ----- classification -----

  predicate InLower(name: string, words: seq<string>) {
    Lower(name) in words
  }

  predicate AnyLabelIn(labels: seq<string>, words: seq<string>) {
    exists name :: name in labels && InLower(name, words)
  }

  const DocLabels: seq<string> := ["documentation", "docs", "readme"]
  const FeatureLabels: seq<string> := ["feature", "enhancement", "new"]

  predicate MentionsDocs(text: string) {
    Contains(Lower(text), "doc") || Contains(Lower(text), "readme")
  }

  /** A PR is documentation-related when a label is one of the documentation
      labels, or its title, or its non-empty body, mentions "doc" or "readme"
      (all compared in lower case). The body is consulted only when neither
      the labels nor the title decided it. */
  predicate IsDocRelated(pr: MergedPr): (ok: bool)
    ensures ok <==> (exists name :: name in pr.labels && Lower(name) in ["documentation", "docs", "readme"])
                    || MentionsDocs(pr.title) || (Truthy(pr.body) && MentionsDocs(pr.body.value))
  {
    var byLabelOrTitle := AnyLabelIn(pr.labels, DocLabels)
                          || Contains(Lower(pr.title), "doc") || Contains(Lower(pr.title), "readme");
    if Truthy(pr.body) && !byLabelOrTitle then
      Contains(Lower(pr.body.value), "doc") || Contains(Lower(pr.body.value), "readme")
    else
      byLabelOrTitle
  }

  /** A PR is a feature when a label is one of the feature labels, or its
      title mentions "feature" or "add" (a substring: "address" counts). */
  predicate IsFeature(pr: MergedPr): (ok: bool)
    ensures ok <==> (exists name :: name in pr.labels && Lower(name) in ["feature", "enhancement", "new"])
                    || Contains(Lower(pr.title), "feature") || Contains(Lower(pr.title), "add")
  {
    AnyLabelIn(pr.labels, FeatureLabels) || Contains(Lower(pr.title), "feature") || Contains(Lower(pr.title), "add")
  }

  /** Lower-casing is idempotent on the ASCII letters. */
  lemma LowerIdempotent(s: string)
    ensures Lower(Lower(s)) == Lower(s)
  {
  }

  /** Classification ignores the case of the title and of the body. */
  lemma ClassificationIgnoresCase(pr: MergedPr)
    ensures IsDocRelated(pr.(title := Lower(pr.title), body := if pr.body.Some? then Some(Lower(pr.body.value)) else None))
            == IsDocRelated(pr)
    ensures IsFeature(pr.(title := Lower(pr.title))) == IsFeature(pr)
  {
    LowerIdempotent(pr.title);
    if pr.body.Some? {
      LowerIdempotent(pr.body.value);
    }
  }

  /** The elements of `s` satisfying `p`, in their order in `s`. */
  function Filter<T>(s: seq<T>, p: T -> bool): seq<T> {
    if s == [] then [] else Filter(s[..|s| - 1], p) + (if p(s[|s| - 1]) then [s[|s| - 1]] else [])
  }

  lemma {:induction false} FilterMembers<T>(s: seq<T>, p: T -> bool)
    ensures forall x :: x in Filter(s, p) <==> x in s && p(x)
    ensures |Filter(s, p)| <= |s|
  {
    if s != [] {
      FilterMembers(s[..|s| - 1], p);
      assert s == s[..|s| - 1] + [s[|s| - 1]];
    }
  }

  /** Filtering keeps order: it distributes over concatenation. */
  lemma {:induction false} FilterCongruent<T>(s: seq<T>, p: T -> bool, q: T -> bool)
    requires forall x :: x in s ==> p(x) == q(x)
    ensures Filter(s, p) == Filter(s, q)
  {
    if s != [] {
      FilterCongruent(s[..|s| - 1], p, q);
    }
  }

  function DocRelatedPrs(prs: seq<MergedPr>): seq<MergedPr> {
    Filter(prs, IsDocRelated)
  }

  /** The feature PRs as the source selects them: feature PRs, in input
      order, that are not equal to an already selected
      documentation-related PR. */
  function FeaturePrs(prs: seq<MergedPr>): (r: seq<MergedPr>)
    ensures forall pr :: pr in r <==> pr in prs && IsFeature(pr) && !IsDocRelated(pr)
    ensures |r| <= |prs|
  {
    var docRelated := DocRelatedPrs(prs);
    FilterMembers(prs, IsDocRelated);
    FilterMembers(prs, (pr: MergedPr) => IsFeature(pr) && pr !in docRelated);
    Filter(prs, (pr: MergedPr) => IsFeature(pr) && pr !in docRelated)
  }

  /** Excluding by equality with a selected record is the same as excluding
      documentation-related records, since relatedness depends on the record
      alone. */
  lemma FeaturePrsAreNotDocRelated(prs: seq<MergedPr>)
    ensures FeaturePrs(prs) == Filter(prs, (pr: MergedPr) => IsFeature(pr) && !IsDocRelated(pr))
  {
    FilterMembers(prs, IsDocRelated);
    FilterCongruent(prs, (pr: MergedPr) => IsFeature(pr) && pr !in DocRelatedPrs(prs),
                    (pr: MergedPr) => IsFeature(pr) && !IsDocRelated(pr));
  }

  /** The two selections share no PR; each is a selection of the input. */
  lemma ClassificationDisjoint(prs: seq<MergedPr>)
    ensures forall pr :: pr in FeaturePrs(prs) ==> pr !in DocRelatedPrs(prs)
    ensures forall pr :: pr in DocRelatedPrs(prs) <==> pr in prs && IsDocRelated(pr)
    ensures forall pr :: pr in FeaturePrs(prs) <==> pr in prs && IsFeature(pr) && !IsDocRelated(pr)
    ensures |DocRelatedPrs(prs)| <= |prs| && |FeaturePrs(prs)| <= |prs|
  {
    FilterMembers(prs, IsDocRelated);
    FeaturePrsAreNotDocRelated(prs);
    FilterMembers(prs, (pr: MergedPr) => IsFeature(pr) && !IsDocRelated(pr));
  }

  // ----- entries and sections -----

  /** The optional description line of a PR or issue. */
  function DescriptionLine(body: Option<string>): (r: string)
    ensures r == "" <==> !Truthy(body)
    ensures Truthy(body) ==> r == "  Description: " + body.value + "\n"
  {
    if Truthy(body) then "  Description: " + body.value + "\n" else ""
  }

  function LabelsLine(labels: seq<string>): string {
    "  Labels: " + Join(", ", labels) + "\n"
  }

  /** The labels line that ends an entry, followed by its blank line. */
  function LastLabelsLine(labels: seq<string>): string {
    "  Labels: " + Join(", ", labels) + "\n\n"
  }

  function AuthorLine(author: string): string {
    "  Author: " + author + "\n\n"
  }

  function PrLine(pr: MergedPr): string {
    "- PR #" + IntString(pr.id) + ": " + pr.title + " (" + pr.url + ")\n"
  }

  /** A PR in the release-notes prompt: heading, optional description,
      labels and author. */
  function ReleasePrEntry(pr: MergedPr): (r: string)
    ensures IsEntry(r)
  {
    PrLine(pr) + DescriptionLine(pr.body) + LabelsLine(pr.labels) + AuthorLine(pr.user)
  }

  /** A PR in the documentation prompt names no author. */
  function DocPrEntry(pr: MergedPr): (r: string)
    ensures IsEntry(r)
  {
    PrLine(pr) + DescriptionLine(pr.body) + LastLabelsLine(pr.labels)
  }

  /** A commit is shown by the first seven characters of its SHA. */
  function ShortSha(sha: string): (r: string)
    ensures |r| == if |sha| < 7 then |sha| else 7
    ensures r <= sha
  {
    Take(sha, 7)
  }

  function CommitLine(c: Commit): string {
    "- Commit " + ShortSha(c.sha) + ": " + c.message + " (" + c.url + ")\n"
  }

  function CommitEntry(c: Commit): (r: string)
    ensures IsEntry(r)
  {
    CommitLine(c) + AuthorLine(c.author)
  }

  /** An issue is reported "closed" exactly when its state is "closed". */
  function Status(state: string): (r: string)
    ensures r == "closed" <==> state == "closed"
    ensures r == "closed" || r == "updated"
  {
    if state == "closed" then "closed" else "updated"
  }

  function IssueLine(issue: Issue): string {
    "- Issue #" + IntString(issue.id) + " (" + Status(issue.state) + "): " + issue.title + " (" + issue.url + ")\n"
  }

  function IssueEntry(issue: Issue): (r: string)
    ensures IsEntry(r)
  {
    IssueLine(issue) + DescriptionLine(issue.body) + LastLabelsLine(issue.labels)
  }

  /** The entries of `xs`, one after the other, as the `+=` loops build them. */
  function Render<T>(xs: seq<T>, entry: T -> string): string {
    if xs == [] then "" else Render(xs[..|xs| - 1], entry) + entry(xs[|xs| - 1])
  }

  lemma RenderSnoc<T>(xs: seq<T>, i: nat, entry: T -> string)
    requires i < |xs|
    ensures Render(xs[..i + 1], entry) == Render(xs[..i], entry) + entry(xs[i])
  {
    assert xs[..i + 1][..i] == xs[..i];
  }

  lemma RenderAll<T>(xs: seq<T>, entry: T -> string)
    ensures Render(xs[..|xs|], entry) == Render(xs, entry)
  {
    assert xs[..|xs|] == xs;
  }

  /** Every entry is a "- " bullet ending in a newline. */
  predicate IsEntry(text: string) {
    |text| > 2 && text[..2] == "- " && text[|text| - 1] == '\n'
  }

  /** A rendered list is empty exactly when the list is, and otherwise ends
      in a newline. */
  lemma {:induction false} RenderShape<T>(xs: seq<T>, entry: T -> string)
    requires forall x :: IsEntry(entry(x))
    ensures Render(xs, entry) == "" <==> xs == []
    ensures xs != [] ==> Render(xs, entry)[|Render(xs, entry)| - 1] == '\n'
  {
    if xs != [] {
      var last := entry(xs[|xs| - 1]);
      assert IsEntry(last);
      var t := Render(xs, entry);
      assert t == Render(xs[..|xs| - 1], entry) + last;
      assert t[|t| - 1] == last[|last| - 1];
    }
  }

  /** `text if text else placeholder` */
  function Section(text: string, placeholder: string): (r: string)
    ensures text != "" ==> r == text
    ensures text == "" ==> r == placeholder
  {
    if text != "" then text else placeholder
  }

  const NoPrs := "No pull requests merged in this period."
  const NoCommits := "No commits in this period."
  const NoIssues := "No issues updated in this period."
  const NoDocPrs := "No documentation-specific pull requests in this period."
  const NoFeatures := "No new features added in this period."

  /** A section shows its placeholder exactly when its list is empty, and
      otherwise the entries in order (a placeholder ends in a full stop, not
      in the newline every entry ends in). */
  lemma SectionPlaceholder<T>(xs: seq<T>, entry: T -> string, placeholder: string)
    requires forall x :: IsEntry(entry(x))
    requires placeholder != "" && placeholder[|placeholder| - 1] == '.'
    ensures Section(Render(xs, entry), placeholder) == placeholder <==> xs == []
    ensures xs != [] ==> Section(Render(xs, entry), placeholder) == Render(xs, entry)
  {
    RenderShape(xs, entry);
  }

  /** The five sections of the two prompts fall back to their placeholders
      exactly when their lists are empty. */
  lemma PromptPlaceholders(data: GitHubData)
    ensures Section(Render(data.mergedPrs, ReleasePrEntry), NoPrs) == NoPrs <==> data.mergedPrs == []
    ensures Section(Render(data.commits, CommitEntry), NoCommits) == NoCommits <==> data.commits == []
    ensures Section(Render(data.issues, IssueEntry), NoIssues) == NoIssues <==> data.issues == []
    ensures Section(Render(DocRelatedPrs(data.mergedPrs), DocPrEntry), NoDocPrs) == NoDocPrs <==>
              DocRelatedPrs(data.mergedPrs) == []
    ensures Section(Render(FeaturePrs(data.mergedPrs), DocPrEntry), NoFeatures) == NoFeatures <==>
              FeaturePrs(data.mergedPrs) == []
  {
    SectionPlaceholder(data.mergedPrs, ReleasePrEntry, NoPrs);
    SectionPlaceholder(data.commits, CommitEntry, NoCommits);
    SectionPlaceholder(data.issues, IssueEntry, NoIssues);
    SectionPlaceholder(DocRelatedPrs(data.mergedPrs), DocPrEntry, NoDocPrs);
    SectionPlaceholder(FeaturePrs(data.mergedPrs), DocPrEntry, NoFeatures);
  }

  lemma PromptSectionsShown(data: GitHubData)
    ensures Section(Render(data.mergedPrs, ReleasePrEntry), NoPrs) == Shown(data.mergedPrs, ReleasePrEntry, NoPrs)
    ensures Section(Render(data.commits, CommitEntry), NoCommits) == Shown(data.commits, CommitEntry, NoCommits)
    ensures Section(Render(data.issues, IssueEntry), NoIssues) == Shown(data.issues, IssueEntry, NoIssues)
  {
    SectionPlaceholder(data.mergedPrs, ReleasePrEntry, NoPrs);
    SectionPlaceholder(data.commits, CommitEntry, NoCommits);
    SectionPlaceholder(data.issues, IssueEntry, NoIssues);
  }

  lemma DocSectionsShown(prs: seq<MergedPr>)
    ensures Section(Render(DocRelatedPrs(prs), DocPrEntry), NoDocPrs) == Shown(DocRelatedPrs(prs), DocPrEntry, NoDocPrs)
    ensures Section(Render(FeaturePrs(prs), DocPrEntry), NoFeatures) == Shown(FeaturePrs(prs), DocPrEntry, NoFeatures)
  {
    SectionPlaceholder(DocRelatedPrs(prs), DocPrEntry, NoDocPrs);
    SectionPlaceholder(FeaturePrs(prs), DocPrEntry, NoFeatures);
  }

  /** `Version: v` followed by a newline when a version is given, else nothing. */
  function VersionText(version: Option<string>): (r: string)
    ensures r == "" <==> !Truthy(version)
    ensures Truthy(version) ==> r == "Version: " + version.value + "\n"
  {
    if Truthy(version) then "Version: " + version.value + "\n" else ""
  }

  /** The collection period, 7 days when the data does not say. */
  function PeriodText(periodDays: Option<int>): (r: string)
    ensures periodDays.None? ==> r == "Collection period: 7 days"
    ensures periodDays.Some? ==> r == "Collection period: " + IntString(periodDays.value) + " days"
  {
    "Collection period: " + IntString(if periodDays.Some? then periodDays.value else DefaultPeriodDays) + " days"
  }

  const ReleaseIntro := "\nYou are a technical writer creating release notes for a software project. \n"
    + "Please generate comprehensive release notes based on the following GitHub data.\n"
  const ReleaseOutline := "Please organize the release notes into the following sections:\n"
    + "1. Summary (brief overview of the changes)\n2. New Features\n3. Bug Fixes\n"
    + "4. Documentation Updates\n5. Other Changes\n\nFormat the release notes in "
  const ReleaseClosing := " format and make them user-friendly.\n"
    + "Include links to PRs, issues, and commits where relevant.\n"
    + "Focus on the impact to users rather than technical implementation details.\n"
  const DocIntro := "\nYou are a technical writer updating documentation for a software project.\n"
    + "Please suggest documentation updates based on the following GitHub data.\n\n"
  const DocOutline := "Please provide the following:\n1. Summary of documentation changes needed\n"
    + "2. Specific sections that should be updated or created\n"
    + "3. Sample content for each section (in markdown format)\n\nFocus on "
  const DocClosing := " documentation specifically.\n"

  /** `s.endswith(suffix)` */
  predicate EndsWith(s: string, suffix: string) {
    |suffix| <= |s| && s[|s| - |suffix|..] == suffix
  }

  /** `p` followed by anything starts with `p`. */
  lemma PrefixExtended(p: string, s: string, t: string)
    requires p <= s
    ensures p <= s + t
  {
  }

  /** `sub` occurs in any string that starts with `s + sub`. */
  lemma ContainsAtEnd(s: string, sub: string, t: string)
    requires s + sub <= t
    ensures Contains(t, sub)
  {
    assert t[|s|..|s| + |sub|] == (s + sub)[|s|..] == sub;
    assert OccursAt(t, sub, |s|);
  }

  /** The layout both prompts share: a head, parts `x1`..`x4` separated by
      fixed texts, then an outline, the requested kind and a closing. Every
      part occurs in the whole, which starts with the head and ends with the
      kind and the closing. */
  lemma PromptLayout(intro: string, version: string, newline: string, x1: string, s1: string, x2: string,
                     s2: string, x3: string, s3: string, x4: string, s4: string, outline: string, kind: string,
                     closing: string)
    ensures var r := intro + version + newline + x1 + s1 + x2 + s2 + x3 + s3 + x4 + s4 + outline + kind + closing;
      intro <= r && Contains(r, x1) && Contains(r, x2) && Contains(r, x3) && Contains(r, x4) &&
      EndsWith(r, kind + closing)
  {
    var head := intro + version + newline;
    PrefixExtended(intro, intro, version);
    PrefixExtended(intro, intro + version, newline);
    var p1 := head + x1;
    var p2 := p1 + s1 + x2;
    var p3 := p2 + s2 + x3;
    var p4 := p3 + s3 + x4;
    var q := p4 + s4 + outline;
    var r := q + kind + closing;
    PrefixExtended(head, head, x1);
    PrefixExtended(p3, p3, s3);
    PrefixExtended(p3, p3 + s3, x4);
    PrefixExtended(p2, p2, s2);
    PrefixExtended(p2, p2 + s2, x3);
    PrefixExtended(p1, p1, s1);
    PrefixExtended(p1, p1 + s1, x2);
    assert p4 <= r by {
      PrefixExtended(p4, p4, s4);
      PrefixExtended(p4, p4 + s4, outline);
      PrefixExtended(p4, q, kind);
      PrefixExtended(p4, q + kind, closing);
    }
    ContainsAtEnd(head, x1, r);
    ContainsAtEnd(p1 + s1, x2, r);
    ContainsAtEnd(p2 + s2, x3, r);
    ContainsAtEnd(p3 + s3, x4, r);
    assert r == q + (kind + closing);
  }

  /** The same layout with two parts. */
  lemma TwoPartLayout(intro: string, heading: string, x1: string, s1: string, x2: string, s2: string,
                      outline: string, kind: string, closing: string)
    ensures var r := intro + heading + x1 + s1 + x2 + s2 + outline + kind + closing;
      intro <= r && Contains(r, x1) && Contains(r, x2) &&
      EndsWith(r, kind + closing)
  {
    var head := intro + heading;
    PrefixExtended(intro, intro, heading);
    var p1 := head + x1;
    var p2 := p1 + s1 + x2;
    var q := p2 + s2 + outline;
    var r := q + kind + closing;
    PrefixExtended(head, head, x1);
    PrefixExtended(p1, p1, s1);
    PrefixExtended(p1, p1 + s1, x2);
    assert p2 <= r by {
      PrefixExtended(p2, p2, s2);
      PrefixExtended(p2, p2 + s2, outline);
      PrefixExtended(p2, q, kind);
      PrefixExtended(p2, q + kind, closing);
    }
    ContainsAtEnd(head, x1, r);
    ContainsAtEnd(p1 + s1, x2, r);
    assert r == q + (kind + closing);
  }

  /** A section's text is its entries, or its placeholder when there are none. */
  function Shown<T>(xs: seq<T>, entry: T -> string, placeholder: string): string {
    if xs == [] then placeholder else Render(xs, entry)
  }

  const PrsHeading := "\n\n## Merged Pull Requests:\n"
  const CommitsHeading := "\n\n## Commits:\n"
  const IssuesHeading := "\n\n## Issues:\n"
  const DocPrsHeading := "## Documentation-Related Pull Requests:\n"
  const FeaturesHeading := "\n\n## New Features That Might Need Documentation:\n"

  /** The release-notes prompt: the fixed intro, the version line when one is
      given, the collection period, the three sections (each its entries, or
      its placeholder when empty), then the fixed outline naming the
      requested format. */
  function ReleasePrompt(data: GitHubData, formatType: string, version: Option<string>): (r: string)
    ensures ReleaseIntro <= r
    ensures Contains(r, PeriodText(data.periodDays))
    ensures Contains(r, Shown(data.mergedPrs, ReleasePrEntry, NoPrs))
    ensures Contains(r, Shown(data.commits, CommitEntry, NoCommits))
    ensures Contains(r, Shown(data.issues, IssueEntry, NoIssues))
    ensures EndsWith(r, formatType + ReleaseClosing)
  {
    var period := PeriodText(data.periodDays);
    var prs := Section(Render(data.mergedPrs, ReleasePrEntry), NoPrs);
    var commits := Section(Render(data.commits, CommitEntry), NoCommits);
    var issues := Section(Render(data.issues, IssueEntry), NoIssues);
    PromptSectionsShown(data);
    PromptLayout(ReleaseIntro, VersionText(version), "\n", period, PrsHeading, prs, CommitsHeading, commits,
                 IssuesHeading, issues, "\n\n", ReleaseOutline, formatType, ReleaseClosing);
    ReleaseIntro + VersionText(version) + "\n" + period + PrsHeading + prs + CommitsHeading + commits + IssuesHeading + issues
    + "\n\n" + ReleaseOutline + formatType + ReleaseClosing
  }

  /** The documentation prompt: the fixed intro, the documentation-related
      section and the feature section (each its entries, or its placeholder
      when empty), then the fixed outline naming the documentation type. */
  function DocumentationPrompt(prs: seq<MergedPr>, docType: string): (r: string)
    ensures DocIntro <= r
    ensures Contains(r, Shown(DocRelatedPrs(prs), DocPrEntry, NoDocPrs))
    ensures Contains(r, Shown(FeaturePrs(prs), DocPrEntry, NoFeatures))
    ensures EndsWith(r, docType + DocClosing)
  {
    var docs := Section(Render(DocRelatedPrs(prs), DocPrEntry), NoDocPrs);
    var features := Section(Render(FeaturePrs(prs), DocPrEntry), NoFeatures);
    DocSectionsShown(prs);
    TwoPartLayout(DocIntro, DocPrsHeading, docs, FeaturesHeading, features, "\n\n", DocOutline, docType, DocClosing);
    DocIntro + DocPrsHeading + docs + FeaturesHeading + features + "\n\n" + DocOutline + docType + DocClosing
  }

  class NoteGenerator {
    const apiKey: string
    const azureEndpoint: string
    const azureDeployment: string
    const azureApiVersion: string
    /** The deployment name doubles as the model name. */
    const model: string

    constructor (settings: Settings)
      ensures apiKey == settings.apiKey && azureEndpoint == settings.azureEndpoint
      ensures azureDeployment == settings.azureDeployment && azureApiVersion == settings.azureApiVersion
      ensures model == settings.azureDeployment
    {
      apiKey := settings.apiKey;
      azureEndpoint := settings.azureEndpoint;
      azureDeployment := settings.azureDeployment;
      azureApiVersion := settings.azureApiVersion;
      model := settings.azureDeployment;
    }

    /** Construction: the defaulting chain, or the ValueError it raises. */
    static method Create(apiKey: Option<string>, model: string, azureEndpoint: Option<string>,
                         azureDeployment: Option<string>, azureApiVersion: Option<string>, env: AzureEnv)
      returns (r: Result<NoteGenerator, string>)
      ensures var s := ResolveSettings(apiKey, model, azureEndpoint, azureDeployment, azureApiVersion, env);
              && (r.Failure? <==> s.Failure?)
              && (r.Failure? ==> r.error == s.error)
              && (r.Success? ==> fresh(r.value) && r.value.apiKey == s.value.apiKey
                                 && r.value.azureEndpoint == s.value.azureEndpoint
                                 && r.value.azureDeployment == s.value.azureDeployment
                                 && r.value.azureApiVersion == s.value.azureApiVersion
                                 && r.value.model == s.value.azureDeployment)
    {
      var s := ResolveSettings(apiKey, model, azureEndpoint, azureDeployment, azureApiVersion, env);
      if s.Failure? {
        return Failure(s.error);
      }
      var g := new NoteGenerator(s.value);
      return Success(g);
    }

    method CreateReleaseNotesPrompt(data: GitHubData, formatType: string, version: Option<string>)
      returns (prompt: string)
      ensures prompt == ReleasePrompt(data, formatType, version)
    {
      var mergedPrsText := ReleasePrsText(data.mergedPrs);
      var commitsText := CommitsText(data.commits);
      var issuesText := IssuesText(data.issues);
      var versionText := if Truthy(version) then "Version: " + version.value + "\n" else "";
      var periodText := "Collection period: "
                        + IntString(if data.periodDays.Some? then data.periodDays.value else DefaultPeriodDays) + " days";
      assert versionText == VersionText(version) && periodText == PeriodText(data.periodDays);
      var prsSection := if mergedPrsText != "" then mergedPrsText else NoPrs;
      var commitsSection := if commitsText != "" then commitsText else NoCommits;
      var issuesSection := if issuesText != "" then issuesText else NoIssues;
      assert prsSection == Section(Render(data.mergedPrs, ReleasePrEntry), NoPrs);
      assert commitsSection == Section(Render(data.commits, CommitEntry), NoCommits);
      assert issuesSection == Section(Render(data.issues, IssueEntry), NoIssues);
      prompt := ReleaseIntro + versionText + "\n" + periodText + PrsHeading + prsSection
        + CommitsHeading + commitsSection + IssuesHeading + issuesSection
        + "\n\n" + ReleaseOutline + formatType + ReleaseClosing;
    }

    method CreateDocumentationUpdatePrompt(data: GitHubData, docType: string) returns (prompt: string)
      ensures prompt == DocumentationPrompt(data.mergedPrs, docType)
    {
      var docRelatedPrs := SelectDocRelated(data.mergedPrs);
      var featurePrs := SelectFeatures(data.mergedPrs, docRelatedPrs);
      var docPrsText := DocPrsText(docRelatedPrs);
      var featurePrsText := DocPrsText(featurePrs);
      prompt := DocIntro + DocPrsHeading + (if docPrsText != "" then docPrsText else NoDocPrs)
        + FeaturesHeading + (if featurePrsText != "" then featurePrsText else NoFeatures)
        + "\n\n" + DocOutline + docType + DocClosing;
    }
  }

  // ----- the accumulator loops of the two prompt builders -----

  /** Appending an entry piece by piece, skipping an empty piece, appends
      the whole entry. */
  lemma PiecesAppended(text: string, a: string, b: string, c: string, d: string)
    ensures (if b == "" then text + a + c + d else text + a + b + c + d) == text + (a + b + c + d)
  {
    if b == "" {
      assert a + b == a;
    }
  }

  lemma TwoPiecesAppended(text: string, a: string, b: string)
    ensures text + a + b == text + (a + b)
  {
  }

  lemma ThreePiecesAppended(text: string, a: string, b: string, c: string)
    ensures (if b == "" then text + a + c else text + a + b + c) == text + (a + b + c)
  {
    if b == "" {
      assert a + b == a;
    }
  }

  /** The `merged_prs_text +=` loop of the release prompt. */
  method ReleasePrsText(prs: seq<MergedPr>) returns (text: string)
    ensures text == Render(prs, ReleasePrEntry)
  {
    text := "";
    for i := 0 to |prs|
      invariant text == Render(prs[..i], ReleasePrEntry)
    {
      var pr := prs[i];
      RenderSnoc(prs, i, ReleasePrEntry);
      ghost var before := text;
      text := text + PrLine(pr);
      if Truthy(pr.body) {
        text := text + DescriptionLine(pr.body);
      }
      text := text + LabelsLine(pr.labels);
      text := text + AuthorLine(pr.user);
      PiecesAppended(before, PrLine(pr), DescriptionLine(pr.body), LabelsLine(pr.labels), AuthorLine(pr.user));
    }
    RenderAll(prs, ReleasePrEntry);
  }

  /** The `commits_text +=` loop of the release prompt. */
  method CommitsText(commits: seq<Commit>) returns (text: string)
    ensures text == Render(commits, CommitEntry)
  {
    text := "";
    for i := 0 to |commits|
      invariant text == Render(commits[..i], CommitEntry)
    {
      var commit := commits[i];
      RenderSnoc(commits, i, CommitEntry);
      ghost var before := text;
      text := text + CommitLine(commit);
      text := text + AuthorLine(commit.author);
      TwoPiecesAppended(before, CommitLine(commit), AuthorLine(commit.author));
    }
    RenderAll(commits, CommitEntry);
  }

  /** The `issues_text +=` loop of the release prompt. */
  method IssuesText(issues: seq<Issue>) returns (text: string)
    ensures text == Render(issues, IssueEntry)
  {
    text := "";
    for i := 0 to |issues|
      invariant text == Render(issues[..i], IssueEntry)
    {
      var issue := issues[i];
      RenderSnoc(issues, i, IssueEntry);
      ghost var before := text;
      text := text + IssueLine(issue);
      if Truthy(issue.body) {
        text := text + DescriptionLine(issue.body);
      }
      text := text + LastLabelsLine(issue.labels);
      ThreePiecesAppended(before, IssueLine(issue), DescriptionLine(issue.body), LastLabelsLine(issue.labels));
    }
    RenderAll(issues, IssueEntry);
  }


  /** The `doc_related_prs.append` loop: the documentation test as the source
      evaluates it, the body consulted only while nothing else matched. */
  method SelectDocRelated(prs: seq<MergedPr>) returns (docRelatedPrs: seq<MergedPr>)
    ensures docRelatedPrs == DocRelatedPrs(prs)
  {
    docRelatedPrs := [];
    for i := 0 to |prs|
      invariant docRelatedPrs == Filter(prs[..i], IsDocRelated)
    {
      var pr := prs[i];
      var isDocRelated := AnyLabelIn(pr.labels, DocLabels);
      isDocRelated := isDocRelated || Contains(Lower(pr.title), "doc") || Contains(Lower(pr.title), "readme");
      if Truthy(pr.body) && !isDocRelated {
        isDocRelated := Contains(Lower(pr.body.value), "doc") || Contains(Lower(pr.body.value), "readme");
      }
      assert isDocRelated == IsDocRelated(pr);
      if isDocRelated {
        docRelatedPrs := docRelatedPrs + [pr];
      }
      assert prs[..i + 1][..i] == prs[..i];
    }
    assert prs[..|prs|] == prs;
  }

  /** The `feature_prs.append` loop: feature PRs not already in the
      documentation-related list. */
  method SelectFeatures(prs: seq<MergedPr>, docRelatedPrs: seq<MergedPr>) returns (featurePrs: seq<MergedPr>)
    requires docRelatedPrs == DocRelatedPrs(prs)
    ensures featurePrs == FeaturePrs(prs)
  {
    featurePrs := [];
    for i := 0 to |prs|
      invariant featurePrs == Filter(prs[..i], (pr: MergedPr) => IsFeature(pr) && pr !in docRelatedPrs)
    {
      var pr := prs[i];
      var isFeature := AnyLabelIn(pr.labels, FeatureLabels);
      isFeature := isFeature || Contains(Lower(pr.title), "feature") || Contains(Lower(pr.title), "add");
      if isFeature && pr !in docRelatedPrs {
        featurePrs := featurePrs + [pr];
      }
      assert prs[..i + 1][..i] == prs[..i];
    }
    assert prs[..|prs|] == prs;
  }

  /** The `doc_prs_text +=` and `feature_prs_text +=` loops, which are the same. */
  method DocPrsText(prs: seq<MergedPr>) returns (text: string)
    ensures text == Render(prs, DocPrEntry)
  {
    text := "";
    for i := 0 to |prs|
      invariant text == Render(prs[..i], DocPrEntry)
    {
      var pr := prs[i];
      RenderSnoc(prs, i, DocPrEntry);
      ghost var before := text;
      text := text + PrLine(pr);
      if Truthy(pr.body) {
        text := text + DescriptionLine(pr.body);
      }
      text := text + LastLabelsLine(pr.labels);
      ThreePiecesAppended(before, PrLine(pr), DescriptionLine(pr.body), LastLabelsLine(pr.labels));
    }
    RenderAll(prs, DocPrEntry);
  }

}
