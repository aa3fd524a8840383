/** The GitHub collector: merged pull requests, commits and updated issues of
    the configured repositories, each kind gathered under its own time budget.
    The remote service is a value (`Remote`) holding what each lookup and
    listing hands out; the wall clock is a `Clock` per collection call. */
module Collector {
  import opened Common
  import opened Bounded

  const SecondsPerDay := 86400

  /** A pull request as `repo.get_pull` returns it for one search hit. */
  datatype RawPr = RawPr(number: int, title: string, body: Option<string>, url: string,
                         merged: bool, mergedAt: Option<int>, user: string, labels: seq<string>)

  /** A commit as `repo.get_commits` hands it out. */
  datatype RawCommit = RawCommit(sha: string, message: string, url: string, date: int, author: string)

  /** An issue-search hit; `pullRequest` is true when the hit carries a truthy
      `pull_request` attribute. */
  datatype RawIssue = RawIssue(number: int, title: string, body: Option<string>, url: string, state: string,
                               createdAt: int, updatedAt: int, closedAt: Option<int>, user: string,
                               labels: seq<string>, pullRequest: bool)

  /** The records the collector appends, each tagged with its repository. */
  datatype MergedPr = MergedPr(id: int, title: string, body: Option<string>, url: string, mergedAt: int,
                               user: string, labels: seq<string>, repository: string)

  datatype Commit = Commit(sha: string, message: string, url: string, date: int, author: string, repository: string)

  datatype Issue = Issue(id: int, title: string, body: Option<string>, url: string, state: string,
                         createdAt: int, updatedAt: int, closedAt: Option<int>, user: string,
                         labels: seq<string>, repository: string)

  /** A repository and the remote's answers to this run's three queries on it. */
  datatype Repository = Repository(fullName: string, prs: Listing<RawPr>, commits: Listing<RawCommit>,
                                   issues: Listing<RawIssue>)

  /** The remote service: repositories by "owner/name", and the repository
      list of each organization. A missing key is a lookup that raises
      GithubException (not found). */
  datatype Remote = Remote(repos: map<string, Repository>, orgs: map<string, seq<Repository>>)

  /** The wall clock as one collection call sees it: the time at the call's
      start, and the elapsed seconds returned by the k-th timeout check. */
  datatype Clock = Clock(now: int, elapsed: nat -> int)

  datatype CollectedData = CollectedData(collectedAt: int, collectionPeriodDays: int,
                                         mergedPrs: seq<MergedPr>, commits: seq<Commit>, issues: seq<Issue>)

  /** The frozen window boundary `now - since_days days`. */
  function SinceDate(now: int, sinceDays: int): int {
    now - sinceDays * SecondsPerDay
  }

  /** The token the collector uses: the explicit one, else the environment's;
      none at all is a configuration error. */
  function ResolveToken(token: Option<string>, envToken: Option<string>): (r: Result<string, string>)
    ensures r.Failure? <==> !Truthy(token) && !Truthy(envToken)
    ensures r.Failure? ==> r.error == "GitHub token is required."
    ensures r.Success? ==> r.value != "" && r.value == (if Truthy(token) then token.value else envToken.value)
  {
    var t := Or(token, envToken);
    if !Truthy(t) then Failure("GitHub token is required.") else Success(t.value)
  }

  // ----- the local re-checks, as rules over one listed item -----

  /** The local re-check of one pull request, written as the negation of the
      skip condition: it is kept exactly when it is merged with a merge time
      on or after the window boundary. */
  predicate AcceptsPr(raw: RawPr, sinceDate: int): (ok: bool)
    ensures ok <==> raw.merged && raw.mergedAt.Some? && sinceDate <= raw.mergedAt.value
  {
    !(!raw.merged || raw.mergedAt.None? || raw.mergedAt.value < sinceDate)
  }

  /** The record of a kept pull request: its number as id, its merge time,
      the author's login and the label names, tagged with the repository. */
  function PrRecord(repo: string, raw: RawPr): (e: MergedPr)
    requires raw.mergedAt.Some?
    ensures e.id == raw.number && e.mergedAt == raw.mergedAt.value && e.repository == repo
    ensures e.title == raw.title && e.body == raw.body && e.url == raw.url
    ensures e.user == raw.user && e.labels == raw.labels
  {
    MergedPr(raw.number, raw.title, raw.body, raw.url, raw.mergedAt.value, raw.user, raw.labels, repo)
  }

  function PrRule(sinceDate: int): (string, RawPr) -> Option<MergedPr> {
    (repo: string, raw: RawPr) => if AcceptsPr(raw, sinceDate) then Some(PrRecord(repo, raw)) else None
  }

  function CommitRecord(repo: string, raw: RawCommit): Commit {
    Commit(raw.sha, raw.message, raw.url, raw.date, raw.author, repo)
  }

  function CommitRule(): (string, RawCommit) -> Option<Commit> {
    (repo: string, raw: RawCommit) => Some(CommitRecord(repo, raw))
  }

  function IssueRecord(repo: string, raw: RawIssue): Issue {
    Issue(raw.number, raw.title, raw.body, raw.url, raw.state, raw.createdAt, raw.updatedAt,
          raw.closedAt, raw.user, raw.labels, repo)
  }

  /** An issue-search hit is kept exactly when it is not a pull request, as
      the record of that hit tagged with the repository. */
  function IssueRule(): (rule: (string, RawIssue) -> Option<Issue>)
    ensures forall repo, raw :: rule(repo, raw).Some? <==> !raw.pullRequest
    ensures forall repo, raw :: rule(repo, raw).Some? ==>
              rule(repo, raw).value == IssueRecord(repo, raw) && rule(repo, raw).value.repository == repo
  {
    (repo: string, raw: RawIssue) => if raw.pullRequest then None else Some(IssueRecord(repo, raw))
  }

  function PrSources(repos: seq<Repository>): (s: seq<Source<RawPr>>)
    ensures |s| == |repos| && forall i :: 0 <= i < |repos| ==> s[i] == Source(repos[i].fullName, repos[i].prs)
  {
    seq(|repos|, i requires 0 <= i < |repos| => Source(repos[i].fullName, repos[i].prs))
  }

  function CommitSources(repos: seq<Repository>): (s: seq<Source<RawCommit>>)
    ensures |s| == |repos| && forall i :: 0 <= i < |repos| ==> s[i] == Source(repos[i].fullName, repos[i].commits)
  {
    seq(|repos|, i requires 0 <= i < |repos| => Source(repos[i].fullName, repos[i].commits))
  }

  function IssueSources(repos: seq<Repository>): (s: seq<Source<RawIssue>>)
    ensures |s| == |repos| && forall i :: 0 <= i < |repos| ==> s[i] == Source(repos[i].fullName, repos[i].issues)
  {
    seq(|repos|, i requires 0 <= i < |repos| => Source(repos[i].fullName, repos[i].issues))
  }

  // ----- what each kind promises about its output -----

  /** Every merged PR a run emits was listed by one of the repositories, is
      merged, carries that repository's name, and was merged on or after the
      window boundary. */
  lemma MergedPrsSound(repos: seq<Repository>, sinceDate: int, elapsed: nat -> int, timeout: int)
    ensures forall e :: e in BoundedRun(PrSources(repos), PrRule(sinceDate), elapsed, timeout) ==>
      e.mergedAt >= sinceDate &&
      (exists r, raw :: 0 <= r < |repos| && raw in repos[r].prs.items && raw.merged &&
         raw.mergedAt.Some? && e == PrRecord(repos[r].fullName, raw))
  {
    forall e | e in BoundedRun(PrSources(repos), PrRule(sinceDate), elapsed, timeout)
      ensures e.mergedAt >= sinceDate
      ensures (exists r, raw :: 0 <= r < |repos| && raw in repos[r].prs.items && raw.merged &&
                 raw.mergedAt.Some? && e == PrRecord(repos[r].fullName, raw))
    {
      BoundedSound(PrSources(repos), PrRule(sinceDate), elapsed, timeout, e);
      var r, raw :| 0 <= r < |PrSources(repos)| && raw in PrSources(repos)[r].listing.items
        && PrRule(sinceDate)(PrSources(repos)[r].name, raw) == Some(e);
      assert AcceptsPr(raw, sinceDate);
    }
  }

  /** Every issue a run emits was listed by one of the repositories, was not
      a pull request, and carries that repository's name. */
  lemma IssuesSound(repos: seq<Repository>, elapsed: nat -> int, timeout: int)
    ensures forall e :: e in BoundedRun(IssueSources(repos), IssueRule(), elapsed, timeout) ==>
      (exists r, raw :: 0 <= r < |repos| && raw in repos[r].issues.items && !raw.pullRequest &&
         e == IssueRecord(repos[r].fullName, raw))
  {
    forall e | e in BoundedRun(IssueSources(repos), IssueRule(), elapsed, timeout)
      ensures (exists r, raw :: 0 <= r < |repos| && raw in repos[r].issues.items && !raw.pullRequest &&
                 e == IssueRecord(repos[r].fullName, raw))
    {
      BoundedSound(IssueSources(repos), IssueRule(), elapsed, timeout, e);
      var r, raw :| 0 <= r < |IssueSources(repos)| && raw in IssueSources(repos)[r].listing.items
        && IssueRule()(IssueSources(repos)[r].name, raw) == Some(e);
      assert !raw.pullRequest;
    }
  }

  /** Every commit a run emits was listed by one of the repositories and
      carries that repository's name. */
  lemma CommitsSound(repos: seq<Repository>, elapsed: nat -> int, timeout: int)
    ensures forall e :: e in BoundedRun(CommitSources(repos), CommitRule(), elapsed, timeout) ==>
      (exists r, raw :: 0 <= r < |repos| && raw in repos[r].commits.items && e == CommitRecord(repos[r].fullName, raw))
  {
    forall e | e in BoundedRun(CommitSources(repos), CommitRule(), elapsed, timeout)
      ensures (exists r, raw :: 0 <= r < |repos| && raw in repos[r].commits.items &&
                 e == CommitRecord(repos[r].fullName, raw))
    {
      BoundedSound(CommitSources(repos), CommitRule(), elapsed, timeout, e);
      var r, raw :| 0 <= r < |CommitSources(repos)| && raw in CommitSources(repos)[r].listing.items
        && CommitRule()(CommitSources(repos)[r].name, raw) == Some(e);
      assert e == CommitRecord(repos[r].fullName, raw);
    }
  }

  /** Commits get no local date re-check: a repository's reference output is
      every listed commit, in listing order, tagged with the repository. */
  lemma {:induction false} CommitsAllKept(name: string, items: seq<RawCommit>)
    ensures |Listed(name, items, CommitRule())| == |items|
    ensures forall i :: 0 <= i < |items| ==> Listed(name, items, CommitRule())[i] == CommitRecord(name, items[i])
    decreases |items|
  {
    if items != [] {
      CommitsAllKept(name, items[1..]);
      assert Listed(name, items, CommitRule()) == [CommitRecord(name, items[0])] + Listed(name, items[1..], CommitRule());
    }
  }

  /** A merged-PR run's reference output for one repository is exactly the
      listed pull requests that pass the local re-check, in listing order. */
  lemma {:induction false} PrsListedFilter(name: string, items: seq<RawPr>, sinceDate: int)
    ensures forall e :: e in Listed(name, items, PrRule(sinceDate)) <==>
      exists raw :: raw in items && AcceptsPr(raw, sinceDate) && e == PrRecord(name, raw)
    decreases |items|
  {
    if items != [] {
      PrsListedFilter(name, items[1..], sinceDate);
      var head := if AcceptsPr(items[0], sinceDate) then [PrRecord(name, items[0])] else [];
      assert Listed(name, items, PrRule(sinceDate)) == head + Listed(name, items[1..], PrRule(sinceDate));
      forall e ensures e in Listed(name, items, PrRule(sinceDate)) <==>
        exists raw :: raw in items && AcceptsPr(raw, sinceDate) && e == PrRecord(name, raw)
      {
        if e in Listed(name, items, PrRule(sinceDate)) {
          if e in head {
            assert items[0] in items;
          } else {
            var raw :| raw in items[1..] && AcceptsPr(raw, sinceDate) && e == PrRecord(name, raw);
            assert raw in items;
          }
        } else {
          forall raw | raw in items && AcceptsPr(raw, sinceDate) ensures e != PrRecord(name, raw) {
            if raw != items[0] {
              assert raw in items[1..];
            }
          }
        }
      }
    }
  }

  /** One pass through the merged-PR item loop: the `i`-th PR listed is
      appended exactly when it passes the local re-check. */
  lemma PrListedSnoc(name: string, items: seq<RawPr>, sinceDate: int, i: nat)
    requires i < |items|
    ensures Listed(name, items[..i + 1], PrRule(sinceDate)) ==
              Listed(name, items[..i], PrRule(sinceDate)) +
              (if AcceptsPr(items[i], sinceDate) then [PrRecord(name, items[i])] else [])
  {
    ListedSnoc(name, items, PrRule(sinceDate), i);
  }

  /** Every listed commit is appended. */
  lemma CommitListedSnoc(name: string, items: seq<RawCommit>, i: nat)
    requires i < |items|
    ensures Listed(name, items[..i + 1], CommitRule()) ==
              Listed(name, items[..i], CommitRule()) + [CommitRecord(name, items[i])]
  {
    ListedSnoc(name, items, CommitRule(), i);
  }

  /** An issue-search hit is appended exactly when it is not a pull request. */
  lemma IssueListedSnoc(name: string, items: seq<RawIssue>, i: nat)
    requires i < |items|
    ensures Listed(name, items[..i + 1], IssueRule()) ==
              Listed(name, items[..i], IssueRule()) +
              (if items[i].pullRequest then [] else [IssueRecord(name, items[i])])
  {
    ListedSnoc(name, items, IssueRule(), i);
  }

  class GitHubCollector {
    const token: string
    const organization: Option<string>
    const repository: Option<string>
    const collectIssues: bool
    /** The service the client built from `token` talks to. */
    const github: Remote

    constructor (token: string, organization: Option<string>, repository: Option<string>,
                 collectIssues: bool, github: Remote)
      requires token != ""
      ensures this.token == token && this.organization == organization
      ensures this.repository == repository && this.collectIssues == collectIssues && this.github == github
    {
      this.token := token;
      this.organization := organization;
      this.repository := repository;
      this.collectIssues := collectIssues;
      this.github := github;
    }

    /** Construction: the explicit token or the environment's, else a
        ValueError before any client exists. */
    static method Create(token: Option<string>, envToken: Option<string>, organization: Option<string>,
                         repository: Option<string>, collectIssues: bool, github: Remote)
      returns (r: Result<GitHubCollector, string>)
      ensures r.Failure? <==> !Truthy(token) && !Truthy(envToken)
      ensures r.Failure? ==> r.error == "GitHub token is required."
      ensures r.Success? ==> fresh(r.value) && r.value.token == ResolveToken(token, envToken).value
      ensures r.Success? ==> r.value.organization == organization && r.value.repository == repository
      ensures r.Success? ==> r.value.collectIssues == collectIssues && r.value.github == github
    {
      var t := ResolveToken(token, envToken);
      if t.Failure? {
        return Failure(t.error);
      }
      var c := new GitHubCollector(t.value, organization, repository, collectIssues, github);
      return Success(c);
    }

    /** The repositories to collect from: the named repository of the
        organization when both are set, every repository of the organization
        when only it is set, none otherwise. `lookup` says how the remote
        lookup ends beyond the not-found case: GithubException (not found
        included) yields none, any other exception escapes. */
    function GetRepositories(lookup: Fault): (repos: Outcome<seq<Repository>>)
      ensures repos.Raised? <==> Truthy(organization) && lookup == OtherError
      ensures !Truthy(organization) || lookup == ApiError ==> repos == Returned([])
      ensures Truthy(organization) && Truthy(repository) && lookup == Ok ==>
        var key := organization.value + "/" + repository.value;
        repos == Returned(if key in github.repos then [github.repos[key]] else [])
      ensures Truthy(organization) && !Truthy(repository) && lookup == Ok ==>
        repos == Returned(if organization.value in github.orgs then github.orgs[organization.value] else [])
    {
      if Truthy(repository) && Truthy(organization) then
        var key := organization.value + "/" + repository.value;
        match lookup
        case OtherError => Raised
        case ApiError => Returned([])
        case Ok => Returned(if key in github.repos then [github.repos[key]] else [])
      else if Truthy(organization) then
        match lookup
        case OtherError => Raised
        case ApiError => Returned([])
        case Ok => Returned(if organization.value in github.orgs then github.orgs[organization.value] else [])
      else
        Returned([])
    }

    /** `[repository] if repository else self.get_repositories()`: a given
        repository is used as it is, with no lookup. */
    function Targets(repository: Option<Repository>, lookup: Fault): (targets: Outcome<seq<Repository>>)
      ensures repository.Some? ==> targets == Returned([repository.value])
      ensures repository.None? ==> targets == GetRepositories(lookup)
    {
      if repository.Some? then Returned([repository.value]) else GetRepositories(lookup)
    }

    /** The merged pull requests of the targets, under the budget, checked
        against the boundary frozen at the call's start; an exception from
        the repository lookup escapes. */
    method GetMergedPrs(sinceDays: int, repository: Option<Repository>, timeout: int, lookup: Fault, clock: Clock)
      returns (mergedPrs: Outcome<seq<MergedPr>>)
      ensures Targets(repository, lookup).Raised? ==> mergedPrs == Raised
      ensures Targets(repository, lookup).Returned? ==>
        mergedPrs == Returned(BoundedRun(PrSources(Targets(repository, lookup).value),
                                         PrRule(SinceDate(clock.now, sinceDays)), clock.elapsed, timeout))
    {
      var sinceDate := clock.now - sinceDays * SecondsPerDay;
      var prs := [];
      var targets := Targets(repository, lookup);
      if targets.Raised? {
        return Raised;
      }
      var repositories := targets.value;
      ghost var srcs := PrSources(repositories);
      ghost var rule := PrRule(sinceDate);
      var checks := 0;
      var prCount := 0;
      for r := 0 to |repositories|
        invariant checks == |AllSlots(srcs[..r])| <= Deadline(clock.elapsed, timeout, |AllSlots(srcs)|)
        invariant prCount == |prs| + CountedRaises(srcs[..r])
        invariant prs == AllListed(srcs[..r], rule)
      {
        var stopped;
        prs, prCount, checks, stopped :=
          MergedPrsOf(repositories[r], sinceDate, timeout, clock, prs, prCount, checks, srcs, r);
        if stopped {
          return Returned(prs);
        }
      }
      assert srcs[..|repositories|] == srcs;
      RunCompletes(srcs, rule, clock.elapsed, timeout);
      mergedPrs := Returned(prs);
    }

    /** The `try` block of one repository in `get_merged_prs`: its pull
        requests in listing order, the clock read before each, until the
        budget is exceeded (`stopped`), the listing ends, or an item raises.
        `checks` counts the clock readings of the whole call so far;
        `prCount` runs ahead of the records by one for every repository so
        far whose last PR raised after being counted. */
    static method MergedPrsOf(repo: Repository, sinceDate: int, timeout: int, clock: Clock,
                              mergedPrs0: seq<MergedPr>, prCount0: nat, checks0: nat,
                              ghost srcs: seq<Source<RawPr>>, ghost r: nat)
      returns (mergedPrs: seq<MergedPr>, prCount: nat, checks: nat, stopped: bool)
      requires r < |srcs| && srcs[r] == Source(repo.fullName, repo.prs)
      requires checks0 == |AllSlots(srcs[..r])| <= Deadline(clock.elapsed, timeout, |AllSlots(srcs)|)
      requires prCount0 == |mergedPrs0| + CountedRaises(srcs[..r])
      requires mergedPrs0 == AllListed(srcs[..r], PrRule(sinceDate))
      ensures stopped ==> Deadline(clock.elapsed, timeout, |AllSlots(srcs)|) < |AllSlots(srcs[..r + 1])|
      ensures stopped ==> mergedPrs == BoundedRun(srcs, PrRule(sinceDate), clock.elapsed, timeout)
      ensures stopped ==> prCount == |mergedPrs| + CountedRaises(srcs[..r])
      ensures !stopped ==> checks == |AllSlots(srcs[..r + 1])| <= Deadline(clock.elapsed, timeout, |AllSlots(srcs)|)
      ensures !stopped ==> mergedPrs == AllListed(srcs[..r + 1], PrRule(sinceDate))
      ensures !stopped ==> prCount == |mergedPrs| + CountedRaises(srcs[..r + 1])
    {
      ghost var rule := PrRule(sinceDate);
      ghost var deadline := Deadline(clock.elapsed, timeout, |AllSlots(srcs)|);
      NextRepo(srcs, rule, r);
      mergedPrs, prCount, checks := mergedPrs0, prCount0, checks0;
      var pulls := repo.prs;
      for i := 0 to |pulls.items|
        invariant checks == checks0 + i <= deadline
        invariant prCount == prCount0 + (|mergedPrs| - |mergedPrs0|)
        invariant mergedPrs == mergedPrs0 + Listed(repo.fullName, pulls.items[..i], rule)
      {
        SlotOf(srcs, r, i);
        if clock.elapsed(checks) > timeout {
          RunStopsIn(srcs, rule, clock.elapsed, timeout, r, i, checks);
          return mergedPrs, prCount, checks, true;
        }
        RunContinues(clock.elapsed, timeout, |AllSlots(srcs)|, checks);
        checks := checks + 1;
        var pr := pulls.items[i];
        PrListedSnoc(repo.fullName, pulls.items, sinceDate, i);
        ghost var kept := Listed(repo.fullName, pulls.items[..i], rule);
        if !pr.merged || pr.mergedAt.None? || pr.mergedAt.value < sinceDate {
          assert Listed(repo.fullName, pulls.items[..i + 1], rule) == kept;
          continue;
        }
        prCount := prCount + 1;
        AppendAssoc(mergedPrs0, kept, [PrRecord(repo.fullName, pr)]);
        mergedPrs := mergedPrs + [MergedPr(pr.number, pr.title, pr.body, pr.url, pr.mergedAt.value,
                                           pr.user, pr.labels, repo.fullName)];
        assert Listed(repo.fullName, pulls.items[..i + 1], rule) == kept + [PrRecord(repo.fullName, pr)];
      }
      assert pulls.items[..|pulls.items|] == pulls.items;
      if pulls.ending.InItem() {
        SlotOf(srcs, r, |pulls.items|);
        if clock.elapsed(checks) > timeout {
          RunStopsIn(srcs, rule, clock.elapsed, timeout, r, |pulls.items|, checks);
          return mergedPrs, prCount, checks, true;
        }
        RunContinues(clock.elapsed, timeout, |AllSlots(srcs)|, checks);
        checks := checks + 1;
        if pulls.ending == RaisesAfterCount {
          // the PR passed the re-check and was counted; building its record
          // raises. (`RaisesBeforeCount`: `repo.get_pull` raises.)
          prCount := prCount + 1;
        }
      }
      stopped := false;
    }

    /** Every commit the targets list, under the budget, tagged; an exception
        from the repository lookup escapes. */
    method GetRecentCommits(sinceDays: int, repository: Option<Repository>, timeout: int, lookup: Fault, clock: Clock)
      returns (commits: Outcome<seq<Commit>>)
      ensures Targets(repository, lookup).Raised? ==> commits == Raised
      ensures Targets(repository, lookup).Returned? ==>
        commits == Returned(BoundedRun(CommitSources(Targets(repository, lookup).value), CommitRule(),
                                       clock.elapsed, timeout))
    {
      // the window only shapes the remote query; nothing is re-checked locally
      var sinceDate := clock.now - sinceDays * SecondsPerDay;
      var acc := [];
      var targets := Targets(repository, lookup);
      if targets.Raised? {
        return Raised;
      }
      var repositories := targets.value;
      ghost var srcs := CommitSources(repositories);
      var checks := 0;
      var commitCount := 0;
      for r := 0 to |repositories|
        invariant checks == |AllSlots(srcs[..r])| <= Deadline(clock.elapsed, timeout, |AllSlots(srcs)|)
        invariant commitCount == |acc| + CountedRaises(srcs[..r])
        invariant acc == AllListed(srcs[..r], CommitRule())
      {
        var stopped;
        acc, commitCount, checks, stopped :=
          CommitsOf(repositories[r], timeout, clock, acc, commitCount, checks, srcs, r);
        if stopped {
          return Returned(acc);
        }
      }
      assert srcs[..|repositories|] == srcs;
      RunCompletes(srcs, CommitRule(), clock.elapsed, timeout);
      commits := Returned(acc);
    }

    /** The `try` block of one repository in `get_recent_commits`. Nothing
        between the clock reading and the increment can raise, so an item
        raises after being counted, while its fields are read; a listing of
        commits ending in `RaisesBeforeCount` has no counterpart there. */
    static method CommitsOf(repo: Repository, timeout: int, clock: Clock,
                            commits0: seq<Commit>, commitCount0: nat, checks0: nat,
                            ghost srcs: seq<Source<RawCommit>>, ghost r: nat)
      returns (commits: seq<Commit>, commitCount: nat, checks: nat, stopped: bool)
      requires r < |srcs| && srcs[r] == Source(repo.fullName, repo.commits)
      requires checks0 == |AllSlots(srcs[..r])| <= Deadline(clock.elapsed, timeout, |AllSlots(srcs)|)
      requires commitCount0 == |commits0| + CountedRaises(srcs[..r])
      requires commits0 == AllListed(srcs[..r], CommitRule())
      ensures stopped ==> Deadline(clock.elapsed, timeout, |AllSlots(srcs)|) < |AllSlots(srcs[..r + 1])|
      ensures stopped ==> commits == BoundedRun(srcs, CommitRule(), clock.elapsed, timeout)
      ensures stopped ==> commitCount == |commits| + CountedRaises(srcs[..r])
      ensures !stopped ==> checks == |AllSlots(srcs[..r + 1])| <= Deadline(clock.elapsed, timeout, |AllSlots(srcs)|)
      ensures !stopped ==> commits == AllListed(srcs[..r + 1], CommitRule())
      ensures !stopped ==> commitCount == |commits| + CountedRaises(srcs[..r + 1])
    {
      ghost var deadline := Deadline(clock.elapsed, timeout, |AllSlots(srcs)|);
      NextRepo(srcs, CommitRule(), r);
      commits, commitCount, checks := commits0, commitCount0, checks0;
      var repoCommits := repo.commits;
      for i := 0 to |repoCommits.items|
        invariant checks == checks0 + i <= deadline
        invariant commitCount == commitCount0 + (|commits| - |commits0|)
        invariant commits == commits0 + Listed(repo.fullName, repoCommits.items[..i], CommitRule())
      {
        SlotOf(srcs, r, i);
        if clock.elapsed(checks) > timeout {
          RunStopsIn(srcs, CommitRule(), clock.elapsed, timeout, r, i, checks);
          return commits, commitCount, checks, true;
        }
        RunContinues(clock.elapsed, timeout, |AllSlots(srcs)|, checks);
        checks := checks + 1;
        var commit := repoCommits.items[i];
        CommitListedSnoc(repo.fullName, repoCommits.items, i);
        ghost var kept := Listed(repo.fullName, repoCommits.items[..i], CommitRule());
        commitCount := commitCount + 1;
        AppendAssoc(commits0, kept, [CommitRecord(repo.fullName, commit)]);
        commits := commits + [Commit(commit.sha, commit.message, commit.url, commit.date, commit.author,
                                     repo.fullName)];
        assert Listed(repo.fullName, repoCommits.items[..i + 1], CommitRule()) == kept + [CommitRecord(repo.fullName, commit)];
      }
      assert repoCommits.items[..|repoCommits.items|] == repoCommits.items;
      if repoCommits.ending.InItem() {
        SlotOf(srcs, r, |repoCommits.items|);
        if clock.elapsed(checks) > timeout {
          RunStopsIn(srcs, CommitRule(), clock.elapsed, timeout, r, |repoCommits.items|, checks);
          return commits, commitCount, checks, true;
        }
        RunContinues(clock.elapsed, timeout, |AllSlots(srcs)|, checks);
        checks := checks + 1;
        if repoCommits.ending == RaisesAfterCount {
          // the commit is counted, then reading its fields raises
          commitCount := commitCount + 1;
        }
      }
      stopped := false;
    }

    /** [] when issue collection is disabled, before any lookup; otherwise
        the search hits of the targets that are not pull requests, under the
        budget, tagged; an exception from the repository lookup escapes. */
    method GetUpdatedIssues(sinceDays: int, repository: Option<Repository>, timeout: int, lookup: Fault, clock: Clock)
      returns (issues: Outcome<seq<Issue>>)
      ensures !collectIssues ==> issues == Returned([])
      ensures collectIssues && Targets(repository, lookup).Raised? ==> issues == Raised
      ensures collectIssues && Targets(repository, lookup).Returned? ==>
        issues == Returned(BoundedRun(IssueSources(Targets(repository, lookup).value), IssueRule(),
                                      clock.elapsed, timeout))
    {
      if !collectIssues {
        return Returned([]);
      }
      // the window only shapes the search query; nothing is re-checked locally
      var sinceDate := clock.now - sinceDays * SecondsPerDay;
      var acc := [];
      var targets := Targets(repository, lookup);
      if targets.Raised? {
        return Raised;
      }
      var repositories := targets.value;
      ghost var srcs := IssueSources(repositories);
      ghost var rule := IssueRule();
      var checks := 0;
      var issueCount := 0;
      for r := 0 to |repositories|
        invariant checks == |AllSlots(srcs[..r])| <= Deadline(clock.elapsed, timeout, |AllSlots(srcs)|)
        invariant issueCount == |acc| + CountedRaises(srcs[..r])
        invariant acc == AllListed(srcs[..r], rule)
      {
        var stopped;
        acc, issueCount, checks, stopped :=
          IssuesOf(repositories[r], timeout, clock, acc, issueCount, checks, srcs, r);
        if stopped {
          return Returned(acc);
        }
      }
      assert srcs[..|repositories|] == srcs;
      RunCompletes(srcs, rule, clock.elapsed, timeout);
      issues := Returned(acc);
    }

    /** The `try` block of one repository in `get_updated_issues`. */
    static method IssuesOf(repo: Repository, timeout: int, clock: Clock,
                           issues0: seq<Issue>, issueCount0: nat, checks0: nat,
                           ghost srcs: seq<Source<RawIssue>>, ghost r: nat)
      returns (issues: seq<Issue>, issueCount: nat, checks: nat, stopped: bool)
      requires r < |srcs| && srcs[r] == Source(repo.fullName, repo.issues)
      requires checks0 == |AllSlots(srcs[..r])| <= Deadline(clock.elapsed, timeout, |AllSlots(srcs)|)
      requires issueCount0 == |issues0| + CountedRaises(srcs[..r])
      requires issues0 == AllListed(srcs[..r], IssueRule())
      ensures stopped ==> Deadline(clock.elapsed, timeout, |AllSlots(srcs)|) < |AllSlots(srcs[..r + 1])|
      ensures stopped ==> issues == BoundedRun(srcs, IssueRule(), clock.elapsed, timeout)
      ensures stopped ==> issueCount == |issues| + CountedRaises(srcs[..r])
      ensures !stopped ==> checks == |AllSlots(srcs[..r + 1])| <= Deadline(clock.elapsed, timeout, |AllSlots(srcs)|)
      ensures !stopped ==> issues == AllListed(srcs[..r + 1], IssueRule())
      ensures !stopped ==> issueCount == |issues| + CountedRaises(srcs[..r + 1])
    {
      ghost var deadline := Deadline(clock.elapsed, timeout, |AllSlots(srcs)|);
      NextRepo(srcs, IssueRule(), r);
      issues, issueCount, checks := issues0, issueCount0, checks0;
      var updatedIssues := repo.issues;
      for i := 0 to |updatedIssues.items|
        invariant checks == checks0 + i <= deadline
        invariant issueCount == issueCount0 + (|issues| - |issues0|)
        invariant issues == issues0 + Listed(repo.fullName, updatedIssues.items[..i], IssueRule())
      {
        SlotOf(srcs, r, i);
        if clock.elapsed(checks) > timeout {
          RunStopsIn(srcs, IssueRule(), clock.elapsed, timeout, r, i, checks);
          return issues, issueCount, checks, true;
        }
        RunContinues(clock.elapsed, timeout, |AllSlots(srcs)|, checks);
        checks := checks + 1;
        var issue := updatedIssues.items[i];
        IssueListedSnoc(repo.fullName, updatedIssues.items, i);
        ghost var kept := Listed(repo.fullName, updatedIssues.items[..i], IssueRule());
        if issue.pullRequest {
          assert Listed(repo.fullName, updatedIssues.items[..i + 1], IssueRule()) == kept;
          continue;
        }
        issueCount := issueCount + 1;
        AppendAssoc(issues0, kept, [IssueRecord(repo.fullName, issue)]);
        issues := issues + [Issue(issue.number, issue.title, issue.body, issue.url, issue.state, issue.createdAt,
                                  issue.updatedAt, issue.closedAt, issue.user, issue.labels, repo.fullName)];
        assert Listed(repo.fullName, updatedIssues.items[..i + 1], IssueRule()) == kept + [IssueRecord(repo.fullName, issue)];
      }
      assert updatedIssues.items[..|updatedIssues.items|] == updatedIssues.items;
      if updatedIssues.ending.InItem() {
        SlotOf(srcs, r, |updatedIssues.items|);
        if clock.elapsed(checks) > timeout {
          RunStopsIn(srcs, IssueRule(), clock.elapsed, timeout, r, |updatedIssues.items|, checks);
          return issues, issueCount, checks, true;
        }
        RunContinues(clock.elapsed, timeout, |AllSlots(srcs)|, checks);
        checks := checks + 1;
        if updatedIssues.ending == RaisesAfterCount {
          // the issue is counted, then reading its fields raises.
          // (`RaisesBeforeCount`: reading `issue.pull_request` raises.)
          issueCount := issueCount + 1;
        }
      }
      stopped := false;
    }

    /** One collection: the time it started, the window, and the three
        kinds, each under its own budget, its own clock and its own
        repository lookup; issues only when enabled. An exception escaping a
        kind's lookup escapes the whole collection, before the later kinds. */
    method CollectData(sinceDays: int, timeout: int, now: int, prLookup: Fault, commitLookup: Fault,
                       issueLookup: Fault, prClock: Clock, commitClock: Clock, issueClock: Clock)
      returns (data: Outcome<CollectedData>)
      ensures data.Raised? <==>
        Truthy(organization) &&
        (prLookup == OtherError || commitLookup == OtherError || (collectIssues && issueLookup == OtherError))
      ensures data.Returned? ==> data.value.collectedAt == now && data.value.collectionPeriodDays == sinceDays
      ensures data.Returned? ==>
        data.value.mergedPrs == BoundedRun(PrSources(GetRepositories(prLookup).value),
                                           PrRule(SinceDate(prClock.now, sinceDays)), prClock.elapsed, timeout)
      ensures data.Returned? ==>
        data.value.commits == BoundedRun(CommitSources(GetRepositories(commitLookup).value), CommitRule(),
                                         commitClock.elapsed, timeout)
      ensures data.Returned? && !collectIssues ==> data.value.issues == []
      ensures data.Returned? && collectIssues ==>
        data.value.issues == BoundedRun(IssueSources(GetRepositories(issueLookup).value), IssueRule(),
                                        issueClock.elapsed, timeout)
    {
      var mergedPrs := GetMergedPrs(sinceDays, None, timeout, prLookup, prClock);
      if mergedPrs.Raised? {
        return Raised;
      }
      var commits := GetRecentCommits(sinceDays, None, timeout, commitLookup, commitClock);
      if commits.Raised? {
        return Raised;
      }
      var issues := [];
      if collectIssues {
        var found := GetUpdatedIssues(sinceDays, None, timeout, issueLookup, issueClock);
        if found.Raised? {
          return Raised;
        }
        issues := found.value;
      }
      data := Returned(CollectedData(now, sinceDays, mergedPrs.value, commits.value, issues));
    }
  }
}
