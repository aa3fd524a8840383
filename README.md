# release-notes-assist, modelled in Dafny

This project models the three pieces of logic at the centre of
release-notes-assist, a tool that collects recent GitHub activity, turns it
into release notes with a language model, and publishes the notes:

- **The GitHub collector** (`src/github_collector.py`). For each activity
  kind (merged pull requests, commits, issues), it walks the configured
  repositories in order and, within each, the items the remote listing hands
  out. Before every item it reads the clock. Once the elapsed time exceeds the
  kind's budget, it returns what it has gathered. It drops pull requests that
  are not merged or were merged before a window boundary frozen at the start
  of the call. It drops pull requests from the issue stream. It tags every
  kept record with its repository. An exception inside one repository ends
  that repository only. An exception other than `GithubException` while
  looking up the repositories escapes the collection call.
- **The note generator** (`src/note_generator.py`). Its constructor resolves
  settings through a chain of defaults. It classifies merged pull requests as
  documentation-related or as features. It assembles the text of the two
  prompts it sends to the model.
- **The publisher** (`src/publisher.py`). Its constructor builds a client for
  a destination only when that destination's credentials are present. It
  creates a GitHub release, builds the Slack block list (cut at 3000
  characters, with a truncation notice), and updates or creates a Confluence
  page by title. `publish_all` returns a result map with one key per
  destination.

Files:

- `common.dfy`: Option and Result, Python truthiness of optional strings
  (`a or b`), lower-casing, substring search and slicing.
- `bounded.dfy`: the time-boxed run shared by the three collection loops.
  - A run is flattened into slots, one per clock reading. `BoundedRun` is what
    the slots before the first over-budget reading emit.
  - `AllListed` is the reference definition of an unbounded run: each
    repository's kept items, in repository order.
  - The lemmas relate the two.
- `collector.dfy`: the records, and the `GitHubCollector` class.
  - The remote service is a value (`Remote`).
  - Each repository carries the listing each query returns, ending normally,
    raising before the next item, or raising inside an item before or after
    the loop's item counter has been incremented for it.
  - How the repository lookup ends (normally, with `GithubException`, or with
    another exception) is a `Fault` input to each collection call.
  - The clock is a function from the k-th reading to elapsed seconds, one
    clock per collection call.
  - The three collection methods are loops proved equal to `BoundedRun`. The
    body of each per-repository `try` block is a separate static method.
- `notes.dfy`: settings resolution, classification as order-preserving
  filters, entry and section text, the two prompts as functions, and the
  `NoteGenerator` class. The prompt methods build the text with the source's
  accumulator loops and are proved equal to those functions.
- `publish.dfy`: Slack blocks, Confluence title, body and upsert over a page
  store, and the `Publisher` class.
  - The class holds the three remote services as state: the releases, the
    posted messages and the page store.
  - Whether a remote call fails, and how, is a `Fault` input.

Points where the code behaves differently than one might expect; the model
follows the code:

- Only merged pull requests are re-checked locally against the window. Commits
  and issues are not re-checked against the window (`src/github_collector.py:114`, `:181-191`,
  `:255-273`).
- `publish_all` always reports all three destinations. One that is not
  attempted is `False`, not omitted (`src/publisher.py:245`).
- `publish_to_github` converts only `GithubException` to `False`. Any other
  exception escapes `publish_all`, and later destinations are not attempted
  (`src/publisher.py:108-110`). Slack likewise catches only `SlackApiError`.
- The collection loops' item counters, which only feed progress messages,
  are incremented before the record is built (`src/github_collector.py:117`,
  `:181`, `:258`). An item that raises while its record is built leaves the
  counter one ahead of the records. The model keeps this: each counter equals
  the number of records plus `Bounded.CountedRaises`.
- Feature pull requests are de-duplicated against the documentation-related
  ones by record equality (`src/note_generator.py:175`).
  `Notes.FeaturePrsAreNotDocRelated` proves this is the same as excluding
  documentation-related records, because relatedness depends on the record
  alone.

## Model

| member | source | states |
|---|---|---|
| Bounded.Deadline | src/github_collector.py:97-103 | the index of the first clock reading over the budget (or the number of readings); every earlier reading is within the budget |
| Bounded.UnboundedIsListed | src/github_collector.py:81-135 | a run that is never cut short emits exactly each repository's kept items, repository after repository, in listing order |
| Bounded.RepoEmitted | src/github_collector.py:131-135 | an exception that ends a repository removes nothing already appended from it |
| Bounded.EndingOnlyEndsRepo | src/github_collector.py:131-135 | without a deadline, changing how one repository's listing ends (normally, raising on fetch, raising in an item before or after the count) changes nothing in the records the run emits or their order |
| Bounded.CountedRaises | src/github_collector.py:117 | the number of repositories whose listing ends with an item raising after it was counted; zero exactly when no repository ends that way, so that a counter equals its records exactly then |
| Bounded.BoundedIsPrefix | src/github_collector.py:99-103 | the time-boxed result is a prefix of the unbounded run's output |
| Bounded.BoundedWithinBudget | src/github_collector.py:99-103 | when no reading exceeds the budget, the time-boxed result is the whole unbounded output |
| Bounded.RunStopsIn | src/github_collector.py:99-103 | stopping at the i-th item of repository r returns exactly the earlier repositories' output plus that repository's first i items' output |
| Bounded.RunCompletes | src/github_collector.py:81-140 | when the deadline lies past the last slot, the result is the whole unbounded output |
| Bounded.ListedSound | src/github_collector.py:114-129 | every record emitted for a repository comes from one of its listed items by the kind's rule |
| Bounded.AllListedSound | src/github_collector.py:81-129 | every record of the unbounded run comes from a listed item of some repository, tagged with that repository's name |
| Bounded.BoundedSound | src/github_collector.py:81-129 | the same provenance holds for every record of a time-boxed run |
| Collector.ResolveToken | src/github_collector.py:28-30 | fails with "GitHub token is required." exactly when neither the explicit nor the environment token is truthy; otherwise the explicit token wins |
| Collector.GitHubCollector.Create | src/github_collector.py:16-35 | construction fails exactly when there is no token, with that message; otherwise the fields are the resolved token and the arguments |
| Collector.GitHubCollector.constructor | src/github_collector.py:28-35 | the fields hold the token, organization, repository and issue switch as given |
| Collector.GitHubCollector.GetRepositories | src/github_collector.py:37-59 | the named repository of the organization when both are set, the organization's repositories when only it is set, none otherwise (repository alone included); a GithubException from the lookup (not found included) yields none; any other exception escapes, exactly when an organization is set |
| Collector.GitHubCollector.Targets | src/github_collector.py:76 | a given repository is the only target and no lookup happens; otherwise the targets are the lookup's outcome |
| Collector.GitHubCollector.GetMergedPrs | src/github_collector.py:61-140 | an escaping lookup exception escapes the call; otherwise the result is the time-boxed run over the target repositories' pull requests under the re-check against the boundary frozen at the call's start |
| Collector.GitHubCollector.MergedPrsOf | src/github_collector.py:81-135 | one repository's try block: either the budget ran out and the accumulator is the time-boxed result, or it is the reference output up to and including this repository; it stops only when a clock reading within this repository is over the budget; the counter is the accumulator's length plus the repositories so far whose last item raised after being counted, this one included when it did not stop |
| Collector.GitHubCollector.GetRecentCommits | src/github_collector.py:142-202 | an escaping lookup exception escapes the call; otherwise the time-boxed run over the target repositories' commits, each kept and tagged |
| Collector.GitHubCollector.CommitsOf | src/github_collector.py:162-197 | one repository's try block for commits, with the same two outcomes, the same stopping condition (a reading within this repository over the budget) and the same counter |
| Collector.GitHubCollector.GetUpdatedIssues | src/github_collector.py:204-284 | [] when issue collection is disabled, before any lookup; otherwise an escaping lookup exception escapes, or the result is the time-boxed run over the issue search hits that are not pull requests |
| Collector.GitHubCollector.IssuesOf | src/github_collector.py:229-279 | one repository's try block for issues, with the same two outcomes, the same stopping condition (a reading within this repository over the budget) and the same counter |
| Collector.GitHubCollector.CollectData | src/github_collector.py:286-326 | the call raises exactly when an organization is set and the lookup of a kind it runs raises other than GithubException; otherwise the period equals `since_days`, each kind is its own time-boxed run under its own clock and lookup, and issues are [] when disabled |
| Collector.AcceptsPr | src/github_collector.py:114 | the negated skip condition keeps a pull request exactly when it is merged with a merge time on or after the boundary |
| Collector.PrRecord | src/github_collector.py:118-129 | the record carries the number as id, title, body, URL, merge time, author login and label names, tagged with the repository |
| Collector.IssueRule | src/github_collector.py:255-273 | a search hit is kept exactly when it is not a pull request, as its record tagged with the repository |
| Collector.MergedPrsSound | src/github_collector.py:114-129 | every emitted pull request is merged, was merged on or after the boundary, was listed by some repository and carries that repository's name |
| Collector.CommitsSound | src/github_collector.py:169-191 | every emitted commit was listed by some repository and carries its name |
| Collector.IssuesSound | src/github_collector.py:255-273 | every emitted issue was listed by some repository, is not a pull request and carries its name |
| Collector.CommitsAllKept | src/github_collector.py:169-191 | commits get no local date re-check: a repository's output is every listed commit, in order, tagged |
| Collector.PrsListedFilter | src/github_collector.py:97-129 | a repository's merged-PR output holds exactly the listed pull requests that pass the re-check |
| Collector.PrListedSnoc | src/github_collector.py:114-129 | one pass of the loop appends the i-th pull request exactly when it passes the re-check |
| Collector.CommitListedSnoc | src/github_collector.py:181-191 | one pass of the loop appends the i-th commit, tagged |
| Collector.IssueListedSnoc | src/github_collector.py:255-273 | one pass of the loop appends the i-th hit exactly when it is not a pull request |
| Notes.ResolveSettings | src/note_generator.py:33-48 | fails with the API-key message exactly when no key is truthy, with the endpoint message exactly when a key is present but no endpoint; otherwise the deployment falls back to the model and the API version to "2023-05-15" |
| Notes.NoteGenerator.Create | src/note_generator.py:33-55 | construction fails exactly as the settings resolution does; otherwise the fields are the resolved settings |
| Notes.NoteGenerator.constructor | src/note_generator.py:41-50 | the fields are the settings, and the model name is the deployment |
| Notes.IsDocRelated | src/note_generator.py:143-156 | computed as the source stages it (labels, then title, then the body only when truthy and not yet decided): related exactly when a label lower-cases to "documentation", "docs" or "readme", or the lower-cased title, or truthy body, contains "doc" or "readme" |
| Notes.IsFeature | src/note_generator.py:165-173 | a feature exactly when a label lower-cases to "feature", "enhancement" or "new", or the lower-cased title contains "feature" or "add" |
| Notes.ClassificationIgnoresCase | src/note_generator.py:143-173 | lower-casing the title and body beforehand changes neither classification |
| Notes.FeaturePrs | src/note_generator.py:175 | the selection holds exactly the input's feature pull requests that are not documentation-related, and is no longer than the input |
| Notes.FilterMembers | src/note_generator.py:140-176 | a selection holds exactly the input's elements that satisfy the test, and is no longer than the input |
| Notes.FeaturePrsAreNotDocRelated | src/note_generator.py:162-176 | excluding pull requests equal to a selected documentation-related one is the same as excluding every documentation-related one |
| Notes.ClassificationDisjoint | src/note_generator.py:140-176 | the two selections share no pull request; each holds exactly its kind of the input's pull requests; neither is longer than the input |
| Notes.SelectDocRelated | src/note_generator.py:140-159 | the loop (body consulted only when not yet related) selects exactly the documentation-related pull requests, in order |
| Notes.SelectFeatures | src/note_generator.py:161-176 | the loop selects exactly the feature pull requests not among the documentation-related ones, in order |
| Notes.DescriptionLine | src/note_generator.py:74-75 | a description line appears exactly when the body is truthy, and holds the body |
| Notes.ReleasePrEntry | src/note_generator.py:73-77 | a pull-request entry is a "- " bullet ending in a newline |
| Notes.DocPrEntry | src/note_generator.py:181-184 | a documentation-prompt entry is a "- " bullet ending in a newline |
| Notes.ShortSha | src/note_generator.py:82 | the shown SHA is the first seven characters (all of a shorter SHA) |
| Notes.CommitEntry | src/note_generator.py:81-84 | a commit entry is a "- " bullet ending in a newline |
| Notes.Status | src/note_generator.py:88 | "closed" exactly when the state is "closed", otherwise "updated" |
| Notes.IssueEntry | src/note_generator.py:87-92 | an issue entry is a "- " bullet ending in a newline |
| Notes.RenderShape | src/note_generator.py:71-92 | a rendered list is empty exactly when the list is, and otherwise ends in a newline |
| Notes.Section | src/note_generator.py:106 | the section shows its text when non-empty and its placeholder otherwise |
| Notes.SectionPlaceholder | src/note_generator.py:106-112 | a section equals its placeholder exactly when its list is empty, and otherwise shows the entries |
| Notes.PromptPlaceholders | src/note_generator.py:105-201 | each of the five sections falls back to its own placeholder sentence exactly when its list is empty |
| Notes.VersionText | src/note_generator.py:94 | the version line is present exactly when the version is truthy |
| Notes.PeriodText | src/note_generator.py:95-97 | the period is the collected one, 7 when absent |
| Notes.ReleasePrsText | src/note_generator.py:71-77 | the accumulator loop builds the rendering of all pull requests in order |
| Notes.CommitsText | src/note_generator.py:79-84 | the accumulator loop builds the rendering of all commits in order |
| Notes.IssuesText | src/note_generator.py:86-92 | the accumulator loop builds the rendering of all issues in order |
| Notes.DocPrsText | src/note_generator.py:179-191 | the accumulator loop builds the rendering of a PR selection in order |
| Notes.ReleasePrompt | src/note_generator.py:99-124 | the prompt starts with the fixed intro, contains the period line and each of the three sections (its entries, or its placeholder when the list is empty), and ends with the requested format and the fixed closing |
| Notes.DocumentationPrompt | src/note_generator.py:193-209 | the prompt starts with the fixed intro, contains the documentation-related and the feature sections (entries or placeholder), and ends with the documentation type and the fixed closing |
| Notes.NoteGenerator.CreateReleaseNotesPrompt | src/note_generator.py:57-126 | the prompt is the release template with the version line, the period and the three sections |
| Notes.NoteGenerator.CreateDocumentationUpdatePrompt | src/note_generator.py:128-210 | the prompt is the documentation template with the two classified sections and the documentation type |
| Publish.ReleaseName | src/publisher.py:99 | the release is named by the given name, else "Release " and the tag |
| Publish.SlackBlocks | src/publisher.py:130-158 | header, divider, then the first 3000 characters of the notes (the whole notes when that short); a fourth block, the truncation notice, exactly when the notes are longer |
| Publish.SlackFallback | src/publisher.py:164 | the fallback text is the title, else "New Release Notes" |
| Publish.SlackSectionIsPrefix | src/publisher.py:143-158 | the section text followed by the rest of the notes is the whole document; the rest is empty exactly when no notice is added |
| Publish.SlackTitles | src/publisher.py:135-164 | with no title the header is the fallback text preceded by the emoji; with a title both are the title |
| Publish.PageTitle | src/publisher.py:198-200 | the page title is the given title, else "Release Notes - " and the date |
| Publish.PageBody | src/publisher.py:209 | the body is the fixed opening markup, the notes verbatim, then the fixed closing markup |
| Publish.UnwrapBody | src/publisher.py:209 | whatever is read back out of a body wraps back into that body |
| Publish.BodyRoundTrip | src/publisher.py:209 | the notes are wrapped verbatim: reading a wrapped body back gives the notes |
| Publish.Upsert | src/publisher.py:203-226 | an existing page with the title in the space keeps its id and parent and takes the new body; otherwise a page is created under the parent with a fresh id; no other page changes |
| Publish.UpsertValid | src/publisher.py:211-226 | page ids stay distinct and below the next id |
| Publish.UpsertTwice | src/publisher.py:203-226 | publishing the same title twice leaves one page holding the second body |
| Publish.InitialResults | src/publisher.py:245 | the result map starts with exactly the three destinations, all False |
| Publish.Publisher.constructor | src/publisher.py:38-62 | each credential is the argument, else the environment's; a client exists for GitHub and Slack when the token is truthy, for Confluence when the URL, username and token all are |
| Publish.Publisher.PublishToGithub | src/publisher.py:64-110 | False with no release without a client; on success one release with the resolved name; GithubException gives False, any other exception escapes; nothing else changes |
| Publish.Publisher.PublishToSlack | src/publisher.py:112-174 | False with no message without a client; on success one message with the block list and fallback text; SlackApiError gives False, any other exception escapes |
| Publish.Publisher.PublishToConfluence | src/publisher.py:176-232 | true exactly when the client exists and the calls succeed, and then the page store is upserted with the title and wrapped body; every failure gives False and leaves the store |
| Publish.Publisher.PublishAll | src/publisher.py:234-278 | the three keys always, each true exactly when that destination was attempted (client and truthy section) and succeeded; an escaping exception from GitHub stops Slack and Confluence; the exact new releases, messages and pages |

## Left out

- Real time. `datetime.now()`, `timedelta` and date formatting become parameters: an integer `now`, a per-call elapsed-time function, and the date string of a page title.
- Elapsed time is modelled as an integer per clock reading; the source compares float seconds.
- The remote services. PyGithub, Slack and Confluence are values or state: the listings, a repository and organization map, the release list, the message list and the page store. A failing call is an input.
- The search query strings, which shape what the remote returns. Paging and the total counts they report are not modelled.
- Logging and progress output, which affect no result.
- The language-model calls (`src/note_generator.py:212-275`). These are foreign calls; on an exception they return an "Error generating …" string.
- `src/main.py`, `demo.py` and the tests are not part of this model.
- Lower-casing covers the ASCII letters only.
- `collected_at` is the supplied `now`, not an ISO-formatted string.
- A commit listing whose item raises before being counted has no counterpart in the code: nothing between the clock reading and the increment can raise there. The model accepts such a listing and treats it like any other item that raises.
- Exceptions outside the per-repository `try` blocks other than those of the repository lookup (an overflowing `timedelta`, a failing `print`) are not modelled.
- Collector.GitHubCollector.GetMergedPrs: the timezone behaviour of comparing `merged_at` with a naive `since_date` is not modelled; both are integers here.
- Publish.PageBody: XML well-formedness of the storage format is not modelled. Notes containing "]]>" would end the CDATA section early.
- Publish.Publisher.PublishToConfluence: a failure part-way through a remote update is treated as changing nothing.
- Python's dictionary shape of the configuration is a datatype. An absent or empty section is `None`; an absent key inside a section is `None`, or `false` for the two release flags.
