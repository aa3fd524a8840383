/** The publisher: which destinations have a client, what each destination
    receives (a GitHub release, a Slack message built from blocks, a
    Confluence page created or updated by title), and the per-destination
    result map of a publishing run. The three remote services are state held
    by the publisher; whether a remote call fails is an input. */
module Publish {
  import opened Common

  const SlackTextLimit := 3000
  const SlackDefaultHeader := "\U{1F4DD} New Release Notes"
  const SlackDefaultFallback := "New Release Notes"
  const TruncationNotice := "...(content truncated due to length limits. See full release notes on GitHub)..."
  const MacroOpen := "<ac:structured-macro ac:name=\"markdown\">\n<ac:plain-text-body><![CDATA[\n"
  const MacroClose := "\n]]></ac:plain-text-body>\n</ac:structured-macro>"

  /** `str(x)` of an optional string: Python renders None as "None". */
  function PyStr(s: Option<string>): string {
    if s.Some? then s.value else "None"
  }

  // ----- GitHub -----

  datatype Release = Release(repoName: Option<string>, tag: Option<string>, name: string, message: string,
                             draft: bool, prerelease: bool)

  /** The release title: the given name, else "Release <tag>". */
  function ReleaseName(name: Option<string>, tagName: Option<string>): (r: string)
    ensures Truthy(name) ==> r == name.value
    ensures !Truthy(name) ==> r == "Release " + PyStr(tagName)
  {
    OrElse(name, "Release " + PyStr(tagName))
  }

  // ----- Slack -----

  datatype Block = Header(plainText: string) | Divider | Section(markdown: string)

  datatype SlackPost = SlackPost(channel: Option<string>, blocks: seq<Block>, text: string)

  /** The message blocks: a header, a divider, the first 3000 characters of
      the notes, and a truncation notice when the notes are longer. */
  function SlackBlocks(releaseNotes: string, title: Option<string>): (blocks: seq<Block>)
    ensures |blocks| == 3 || |blocks| == 4
    ensures blocks[0] == Header(OrElse(title, SlackDefaultHeader)) && blocks[1] == Divider
    ensures blocks[2].Section? && |blocks[2].markdown| <= SlackTextLimit && blocks[2].markdown <= releaseNotes
    ensures |releaseNotes| <= SlackTextLimit ==> blocks[2].markdown == releaseNotes
    ensures |releaseNotes| > SlackTextLimit ==> |blocks[2].markdown| == SlackTextLimit
    ensures |blocks| == 4 <==> |releaseNotes| > SlackTextLimit
    ensures |blocks| == 4 ==> blocks[3] == Section(TruncationNotice)
  {
    [Header(OrElse(title, SlackDefaultHeader)), Divider, Section(Take(releaseNotes, SlackTextLimit))]
    + (if |releaseNotes| > SlackTextLimit then [Section(TruncationNotice)] else [])
  }

  /** The notification text: the title, else a default without the emoji. */
  function SlackFallback(title: Option<string>): (r: string)
    ensures Truthy(title) ==> r == title.value
    ensures !Truthy(title) ==> r == SlackDefaultFallback
  {
    OrElse(title, SlackDefaultFallback)
  }

  /** Nothing of the notes is lost but what the notice announces: the section
      text followed by the rest is the whole document, and the rest is empty
      exactly when no notice is added. */
  lemma SlackSectionIsPrefix(releaseNotes: string, title: Option<string>)
    ensures var blocks := SlackBlocks(releaseNotes, title);
            && blocks[2].markdown + releaseNotes[|blocks[2].markdown|..] == releaseNotes
            && (releaseNotes[|blocks[2].markdown|..] == [] <==> |blocks| == 3)
  {
    var text := SlackBlocks(releaseNotes, title)[2].markdown;
    assert releaseNotes == text + releaseNotes[|text|..];
  }

  /** With no title the header carries the emoji and the fallback text does
      not; with a title both are the title. */
  lemma SlackTitles(releaseNotes: string, title: Option<string>)
    ensures !Truthy(title) ==> SlackBlocks(releaseNotes, title)[0].plainText == "\U{1F4DD} " + SlackFallback(title)
    ensures Truthy(title) ==> SlackBlocks(releaseNotes, title)[0].plainText == SlackFallback(title)
  {
    assert SlackDefaultHeader == "\U{1F4DD} " + SlackDefaultFallback;
  }

  // ----- Confluence -----

  /** The page title: the given title, else "Release Notes - " and the date. */
  function PageTitle(title: Option<string>, today: string): (r: string)
    ensures Truthy(title) ==> r == title.value
    ensures !Truthy(title) ==> r == "Release Notes - " + today
  {
    OrElse(title, "Release Notes - " + today)
  }

  /** The storage-format body: the notes verbatim inside a markdown macro. */
  function PageBody(releaseNotes: string): (body: string)
    ensures |body| == |MacroOpen| + |releaseNotes| + |MacroClose|
    ensures body[..|MacroOpen|] == MacroOpen && body[|body| - |MacroClose|..] == MacroClose
    ensures body[|MacroOpen|..|body| - |MacroClose|] == releaseNotes
  {
    MacroOpen + releaseNotes + MacroClose
  }

  /** Reading the notes back out of a page body. */
  function UnwrapBody(body: string): (r: Option<string>)
    ensures r.Some? ==> PageBody(r.value) == body
  {
    if |body| >= |MacroOpen| + |MacroClose| && body[..|MacroOpen|] == MacroOpen
       && body[|body| - |MacroClose|..] == MacroClose
    then
      var notes := body[|MacroOpen|..|body| - |MacroClose|];
      assert body == body[..|MacroOpen|] + notes + body[|body| - |MacroClose|..];
      Some(notes)
    else None
  }

  lemma BodyRoundTrip(releaseNotes: string)
    ensures UnwrapBody(PageBody(releaseNotes)) == Some(releaseNotes)
  {
    var body := PageBody(releaseNotes);
    assert body[..|MacroOpen|] == MacroOpen;
    assert body[|body| - |MacroClose|..] == MacroClose;
    assert body[|MacroOpen|..|body| - |MacroClose|] == releaseNotes;
  }

  /** A page is found by its space and title. */
  datatype PageKey = PageKey(space: Option<string>, title: string)

  datatype Page = Page(id: int, body: string, parentId: Option<string>)

  /** The wiki: pages by space and title (so a title is unique in a space),
      and the id the next created page receives. */
  datatype PageStore = PageStore(pages: map<PageKey, Page>, nextId: int)

  /** Every page id is distinct and below the next id. */
  predicate ValidStore(store: PageStore) {
    && (forall k :: k in store.pages ==> store.pages[k].id < store.nextId)
    && (forall k1, k2 :: k1 in store.pages && k2 in store.pages && k1 != k2 ==>
          store.pages[k1].id != store.pages[k2].id)
  }

  /** Get-then-update-or-create: an existing page with the title in the
      space keeps its id and parent and takes the new body; otherwise a page
      is created under the parent with the next id. */
  function Upsert(store: PageStore, space: Option<string>, parentId: Option<string>, title: string, body: string)
    : (r: PageStore)
    ensures PageKey(space, title) in r.pages && r.pages[PageKey(space, title)].body == body
    ensures r.pages.Keys == store.pages.Keys + {PageKey(space, title)}
    ensures forall k :: k in store.pages && k != PageKey(space, title) ==> r.pages[k] == store.pages[k]
    ensures PageKey(space, title) in store.pages ==>
              r.pages[PageKey(space, title)] == store.pages[PageKey(space, title)].(body := body)
              && r.nextId == store.nextId
    ensures PageKey(space, title) !in store.pages ==>
              r.pages[PageKey(space, title)] == Page(store.nextId, body, parentId) && r.nextId == store.nextId + 1
  {
    var key := PageKey(space, title);
    if key in store.pages then
      PageStore(store.pages[key := store.pages[key].(body := body)], store.nextId)
    else
      PageStore(store.pages[key := Page(store.nextId, body, parentId)], store.nextId + 1)
  }

  lemma UpsertValid(store: PageStore, space: Option<string>, parentId: Option<string>, title: string, body: string)
    requires ValidStore(store)
    ensures ValidStore(Upsert(store, space, parentId, title, body))
  {
    var r := Upsert(store, space, parentId, title, body);
    var key := PageKey(space, title);
    forall k1, k2 | k1 in r.pages && k2 in r.pages && k1 != k2
      ensures r.pages[k1].id != r.pages[k2].id
    {
      if key !in store.pages && (k1 == key || k2 == key) {
        assert r.pages[key].id == store.nextId;
      }
    }
  }

  /** Publishing the same title twice leaves one page, holding the second
      body, exactly as if only the second publication had created it. */
  lemma UpsertTwice(store: PageStore, space: Option<string>, parent1: Option<string>, parent2: Option<string>,
                    title: string, body1: string, body2: string)
    ensures Upsert(Upsert(store, space, parent1, title, body1), space, parent2, title, body2)
            == Upsert(store, space, parent1, title, body2)
  {
    var key := PageKey(space, title);
    if key in store.pages {
      assert store.pages[key := store.pages[key].(body := body1)][key := store.pages[key].(body := body2)]
             == store.pages[key := store.pages[key].(body := body2)];
    } else {
      assert store.pages[key := Page(store.nextId, body1, parent1)][key := Page(store.nextId, body2, parent1)]
             == store.pages[key := Page(store.nextId, body2, parent1)];
    }
  }

  // ----- configuration of a publishing run -----

  /** The environment variables the publisher falls back on. */
  datatype PublisherEnv = PublisherEnv(githubToken: Option<string>, slackToken: Option<string>,
                                       confluenceUrl: Option<string>, confluenceUsername: Option<string>,
                                       confluenceToken: Option<string>)

  /** The sections of the run configuration; None stands for a section that
      is absent or empty (falsy). Absent keys inside a section are None. */
  datatype GithubConfig = GithubConfig(repoName: Option<string>, tagName: Option<string>, name: Option<string>,
                                       draft: bool, prerelease: bool)
  datatype SlackConfig = SlackConfig(channelId: Option<string>, title: Option<string>)
  datatype ConfluenceConfig = ConfluenceConfig(spaceKey: Option<string>, parentPageId: Option<string>,
                                               title: Option<string>)
  datatype PublishConfig = PublishConfig(github: Option<GithubConfig>, slack: Option<SlackConfig>,
                                         confluence: Option<ConfluenceConfig>)

  /** How the remote calls of each destination end in this run. */
  datatype Faults = Faults(github: Fault, slack: Fault, confluence: Fault)

  /** The outcome of `publish_all`: the result map, or an exception that
      escaped from one destination and ended the run. */
  datatype RunOutcome = Completed(results: map<string, bool>) | Propagated(destination: string)

  const Destinations: set<string> := {"github", "slack", "confluence"}

  function InitialResults(): (r: map<string, bool>)
    ensures r.Keys == Destinations && forall d :: d in r ==> !r[d]
  {
    map["github" := false, "slack" := false, "confluence" := false]
  }

  /** A result map holding one status per destination. */
  function ResultsMap(github: bool, slack: bool, confluence: bool): (r: map<string, bool>)
    ensures r.Keys == Destinations
    ensures r["github"] == github && r["slack"] == slack && r["confluence"] == confluence
  {
    map["github" := github, "slack" := slack, "confluence" := confluence]
  }

  /** Overwriting one key changes that destination's status only. */
  lemma ResultsUpdate(github: bool, slack: bool, confluence: bool, status: bool)
    ensures ResultsMap(github, slack, confluence)["github" := status] == ResultsMap(status, slack, confluence)
    ensures ResultsMap(github, slack, confluence)["slack" := status] == ResultsMap(github, status, confluence)
    ensures ResultsMap(github, slack, confluence)["confluence" := status] == ResultsMap(github, slack, status)
  {
  }

  /** What each destination receives for a configuration section. */
  function ReleaseFor(c: GithubConfig, releaseNotes: string): Release {
    Release(c.repoName, c.tagName, ReleaseName(c.name, c.tagName), releaseNotes, c.draft, c.prerelease)
  }

  function PostFor(c: SlackConfig, releaseNotes: string): SlackPost {
    SlackPost(c.channelId, SlackBlocks(releaseNotes, c.title), SlackFallback(c.title))
  }

  function PageFor(store: PageStore, c: ConfluenceConfig, releaseNotes: string, today: string): PageStore {
    Upsert(store, c.spaceKey, c.parentPageId, PageTitle(c.title, today), PageBody(releaseNotes))
  }

  class Publisher {
    const githubToken: Option<string>
    const slackToken: Option<string>
    const confluenceUrl: Option<string>
    const confluenceUsername: Option<string>
    const confluenceToken: Option<string>
    /** Whether each client was built. */
    const hasGithub: bool
    const hasSlack: bool
    const hasConfluence: bool

    /** The remote services as the publisher sees them. */
    var releases: seq<Release>
    var slackPosts: seq<SlackPost>
    var wiki: PageStore

    constructor (githubToken: Option<string>, slackToken: Option<string>, confluenceUrl: Option<string>,
                 confluenceUsername: Option<string>, confluenceToken: Option<string>, env: PublisherEnv,
                 releases: seq<Release>, slackPosts: seq<SlackPost>, wiki: PageStore)
      ensures this.githubToken == Or(githubToken, env.githubToken)
      ensures this.slackToken == Or(slackToken, env.slackToken)
      ensures this.confluenceUrl == Or(confluenceUrl, env.confluenceUrl)
      ensures this.confluenceUsername == Or(confluenceUsername, env.confluenceUsername)
      ensures this.confluenceToken == Or(confluenceToken, env.confluenceToken)
      ensures hasGithub <==> Truthy(this.githubToken)
      ensures hasSlack <==> Truthy(this.slackToken)
      ensures hasConfluence <==>
        Truthy(this.confluenceUrl) && Truthy(this.confluenceUsername) && Truthy(this.confluenceToken)
      ensures this.releases == releases && this.slackPosts == slackPosts && this.wiki == wiki
    {
      this.githubToken := Or(githubToken, env.githubToken);
      this.hasGithub := Truthy(Or(githubToken, env.githubToken));
      this.slackToken := Or(slackToken, env.slackToken);
      this.hasSlack := Truthy(Or(slackToken, env.slackToken));
      this.confluenceUrl := Or(confluenceUrl, env.confluenceUrl);
      this.confluenceUsername := Or(confluenceUsername, env.confluenceUsername);
      this.confluenceToken := Or(confluenceToken, env.confluenceToken);
      this.hasConfluence := Truthy(Or(confluenceUrl, env.confluenceUrl))
                            && Truthy(Or(confluenceUsername, env.confluenceUsername))
                            && Truthy(Or(confluenceToken, env.confluenceToken));
      this.releases := releases;
      this.slackPosts := slackPosts;
      this.wiki := wiki;
    }

    /** A release is created only with a client and when the remote calls
        succeed; GithubException becomes False, any other exception escapes. */
    method PublishToGithub(repoName: Option<string>, tagName: Option<string>, releaseNotes: string,
                           name: Option<string>, draft: bool, prerelease: bool, fault: Fault)
      returns (outcome: Outcome<bool>)
      modifies this
      ensures slackPosts == old(slackPosts) && wiki == old(wiki)
      ensures !hasGithub ==> outcome == Returned(false) && releases == old(releases)
      ensures hasGithub && fault == Ok ==>
        outcome == Returned(true)
        && releases == old(releases) + [Release(repoName, tagName, ReleaseName(name, tagName), releaseNotes,
                                                draft, prerelease)]
      ensures hasGithub && fault == ApiError ==> outcome == Returned(false) && releases == old(releases)
      ensures hasGithub && fault == OtherError ==> outcome == Raised && releases == old(releases)
    {
      if !hasGithub {
        return Returned(false);
      }
      match fault {
        case Ok =>
          releases := releases + [Release(repoName, tagName, ReleaseName(name, tagName), releaseNotes,
                                          draft, prerelease)];
          return Returned(true);
        case ApiError =>
          return Returned(false);
        case OtherError =>
          return Raised;
      }
    }

    /** A message is posted only with a client and when the call succeeds;
        SlackApiError becomes False, any other exception escapes. */
    method PublishToSlack(channelId: Option<string>, releaseNotes: string, title: Option<string>, fault: Fault)
      returns (outcome: Outcome<bool>)
      modifies this
      ensures releases == old(releases) && wiki == old(wiki)
      ensures !hasSlack ==> outcome == Returned(false) && slackPosts == old(slackPosts)
      ensures hasSlack && fault == Ok ==>
        outcome == Returned(true)
        && slackPosts == old(slackPosts) + [SlackPost(channelId, SlackBlocks(releaseNotes, title), SlackFallback(title))]
      ensures hasSlack && fault == ApiError ==> outcome == Returned(false) && slackPosts == old(slackPosts)
      ensures hasSlack && fault == OtherError ==> outcome == Raised && slackPosts == old(slackPosts)
    {
      if !hasSlack {
        return Returned(false);
      }
      var blocks := [Header(if Truthy(title) then title.value else SlackDefaultHeader), Divider,
                     Section(Take(releaseNotes, SlackTextLimit))];
      if |releaseNotes| > SlackTextLimit {
        blocks := blocks + [Section(TruncationNotice)];
      }
      assert blocks == SlackBlocks(releaseNotes, title);
      match fault {
        case Ok =>
          slackPosts := slackPosts + [SlackPost(channelId, blocks, if Truthy(title) then title.value else SlackDefaultFallback)];
          return Returned(true);
        case ApiError =>
          return Returned(false);
        case OtherError =>
          return Raised;
      }
    }

    /** Upsert the page only with a client; every exception becomes False
        and leaves the wiki as it was. */
    method PublishToConfluence(spaceKey: Option<string>, parentPageId: Option<string>, releaseNotes: string,
                               title: Option<string>, today: string, fault: Fault)
      returns (outcome: Outcome<bool>)
      modifies this
      ensures releases == old(releases) && slackPosts == old(slackPosts)
      ensures outcome.Returned?
      ensures outcome.value <==> hasConfluence && fault == Ok
      ensures outcome.value ==>
        wiki == Upsert(old(wiki), spaceKey, parentPageId, PageTitle(title, today), PageBody(releaseNotes))
      ensures !outcome.value ==> wiki == old(wiki)
    {
      if !hasConfluence {
        return Returned(false);
      }
      if fault != Ok {
        return Returned(false);
      }
      var pageTitle := if Truthy(title) then title.value else "Release Notes - " + today;
      var content := MacroOpen + releaseNotes + MacroClose;
      var key := PageKey(spaceKey, pageTitle);
      if key in wiki.pages {
        var existing := wiki.pages[key];
        wiki := wiki.(pages := wiki.pages[key := existing.(body := content)]);
      } else {
        wiki := PageStore(wiki.pages[key := Page(wiki.nextId, content, parentPageId)], wiki.nextId + 1);
      }
      return Returned(true);
    }

    /** A destination is attempted when its client exists and its
        configuration section is truthy. */
    predicate TriesGithub(config: PublishConfig) {
      hasGithub && config.github.Some?
    }

    predicate TriesSlack(config: PublishConfig) {
      hasSlack && config.slack.Some?
    }

    predicate TriesConfluence(config: PublishConfig) {
      hasConfluence && config.confluence.Some?
    }

    /** Each destination is attempted, in the order GitHub, Slack,
        Confluence, only when its client exists and its configuration section
        is present; its key alone is overwritten. An escaping exception ends
        the run. */
    method PublishAll(releaseNotes: string, config: PublishConfig, faults: Faults, today: string)
      returns (outcome: RunOutcome)
      modifies this
      ensures outcome == Propagated("github") <==> TriesGithub(config) && faults.github == OtherError
      ensures outcome == Propagated("slack") <==>
                !(TriesGithub(config) && faults.github == OtherError) && TriesSlack(config) && faults.slack == OtherError
      ensures outcome.Propagated? ==> outcome.destination in {"github", "slack"}
      ensures outcome.Completed? ==>
                outcome.results == ResultsMap(TriesGithub(config) && faults.github == Ok,
                                              TriesSlack(config) && faults.slack == Ok,
                                              TriesConfluence(config) && faults.confluence == Ok)
      ensures releases == old(releases) +
                (if TriesGithub(config) && faults.github == Ok then [ReleaseFor(config.github.value, releaseNotes)]
                 else [])
      ensures slackPosts == old(slackPosts) +
                (if outcome != Propagated("github") && TriesSlack(config) && faults.slack == Ok
                 then [PostFor(config.slack.value, releaseNotes)] else [])
      ensures wiki ==
                (if outcome.Completed? && TriesConfluence(config) && faults.confluence == Ok
                 then PageFor(old(wiki), config.confluence.value, releaseNotes, today) else old(wiki))
    {
      var results := map["github" := false, "slack" := false, "confluence" := false];
      assert results == ResultsMap(false, false, false);

      if hasGithub && config.github.Some? {
        var githubConfig := config.github.value;
        var o := PublishToGithub(githubConfig.repoName, githubConfig.tagName, releaseNotes, githubConfig.name,
                                 githubConfig.draft, githubConfig.prerelease, faults.github);
        if o.Raised? {
          return Propagated("github");
        }
        ResultsUpdate(false, false, false, o.value);
        results := results["github" := o.value];
      }
      ghost var githubOk := TriesGithub(config) && faults.github == Ok;
      assert results == ResultsMap(githubOk, false, false);

      if hasSlack && config.slack.Some? {
        var slackConfig := config.slack.value;
        var o := PublishToSlack(slackConfig.channelId, releaseNotes, slackConfig.title, faults.slack);
        if o.Raised? {
          return Propagated("slack");
        }
        ResultsUpdate(githubOk, false, false, o.value);
        results := results["slack" := o.value];
      }
      ghost var slackOk := TriesSlack(config) && faults.slack == Ok;
      assert results == ResultsMap(githubOk, slackOk, false);

      if hasConfluence && config.confluence.Some? {
        var confluenceConfig := config.confluence.value;
        var o := PublishToConfluence(confluenceConfig.spaceKey, confluenceConfig.parentPageId, releaseNotes,
                                     confluenceConfig.title, today, faults.confluence);
        ResultsUpdate(githubOk, slackOk, false, o.value);
        results := results["confluence" := o.value];
      }

      return Completed(results);
    }
  }
}
