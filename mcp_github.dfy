/**
 * The GitHub context source (internal/mcp/github.go): for each repository URL
 * it recognises, up to five issues and five pull requests matching the query,
 * listed with the gh CLI.  The CLI is a function from its argument vector to
 * what the listing yields; the availability check (`gh auth status`) is a
 * boolean.
 */
module McpGitHub {
  import opened Wrappers
  import opened Strings
  import opened McpManager
  import Seqs

  /** One listed issue or pull request, as decoded from gh's JSON.  The
    * creation time is requested from gh but never used. */
  datatype Entry = Entry(number: int, title: string, body: string, url: string, author: string, state: string)

  /** The run fails, the output is not the expected JSON, or the entries. */
  datatype ListOutcome = RunFailed(err: string) | BadJson(err: string) | Listed(entries: seq<Entry>)

  type Gh = seq<string> -> ListOutcome

  datatype SearchKind = Issues | PullRequests {
    function Command(): string { if Issues? then "issue" else "pr" }
    function ItemType(): string { if Issues? then "issue" else "pull_request" }
    function Label(): string { if Issues? then "Issue" else "PR" }
    function RunError(e: string): string { "gh " + Command() + " list failed: " + e }
    function JsonError(e: string): string {
      "failed to parse " + (if Issues? then "issue" else "PR") + " JSON: " + e
    }
  }

  const HttpsHost := "github.com/"
  const SshHost := "git@github.com:"

  /** The repository URL's "owner/repo" part, or "" when it has none. */
  function ExtractOwnerRepo(repoURL: string): string {
    var u := TrimSuffix(repoURL, ".git");
    if Contains(u, HttpsHost) && |Split(u, HttpsHost)| == 2 then Split(u, HttpsHost)[1]
    else if Contains(u, SshHost) && |Split(u, SshHost)| == 2 then Split(u, SshHost)[1]
    else ""
  }

  /** `gh <issue|pr> list` for one repository and query. */
  function SearchArgs(kind: SearchKind, repo: string, query: string): seq<string> {
    [kind.Command(), "list", "--repo", repo, "--search", query, "--limit", "5",
     "--json", "number,title,body,url,author,state,createdAt"]
  }

  /** "**Issue #n: title** (State: s)", a blank line, then the body. */
  function ItemContent(kind: SearchKind, n: string, e: Entry): string {
    ItemHeading(kind, n, e.title) + StateLine(e.state, e.body)
  }

  function ItemHeading(kind: SearchKind, n: string, title: string): string {
    "**" + kind.Label() + " #" + n + ": " + title
  }

  function StateLine(state: string, body: string): string {
    "** (State: " + state + ")\n\n" + body
  }

  /** The context item for one listed entry of a repository. */
  function Item(kind: SearchKind, repo: string, e: Entry): ContextItem {
    var n := IntToString(e.number);
    ContextItem(SourceGitHub, kind.ItemType(), "#" + n, e.url, e.title, ItemContent(kind, n, e), e.author,
      map["number" := n, "state" := e.state, "repo" := repo])
  }

  function Items(kind: SearchKind, repo: string, es: seq<Entry>): seq<ContextItem> {
    seq(|es|, k requires 0 <= k < |es| => Item(kind, repo, es[k]))
  }

  /** searchIssues / searchPullRequests. */
  function Searched(gh: Gh, kind: SearchKind, repo: string, query: string): Result<seq<ContextItem>, string> {
    match gh(SearchArgs(kind, repo, query))
    case RunFailed(e) => Err(kind.RunError(e))
    case BadJson(e) => Err(kind.JsonError(e))
    case Listed(es) => Ok(Items(kind, repo, es))
  }

  function Part(r: Result<seq<ContextItem>, string>): seq<ContextItem> {
    if r.Ok? then r.value else []
  }

  /** A repository's issues, then its pull requests; a failed search adds nothing. */
  function RepoItems(gh: Gh, query: string, repo: string): seq<ContextItem> {
    var ownerRepo := ExtractOwnerRepo(repo);
    if ownerRepo == "" then [] else OwnerRepoItems(gh, query, ownerRepo)
  }

  function OwnerRepoItems(gh: Gh, query: string, ownerRepo: string): seq<ContextItem> {
    Part(Searched(gh, Issues, ownerRepo, query)) + Part(Searched(gh, PullRequests, ownerRepo, query))
  }

  /** Everything gathered from the listed repositories, in list order. */
  function GatheredFrom(gh: Gh, query: string, repos: seq<string>): seq<ContextItem> {
    Seqs.FlatMap(repo => RepoItems(gh, query, repo), repos)
  }

  /** NewGitHubClient as a manager client: named "github", available when gh
    * is authenticated, gathering with the gh CLI `gh`. */
  function NewClient(authenticated: bool, gh: Gh): (c: Client)
    ensures c.name == SourceGitHub && c.available == authenticated
    ensures forall query, repos :: c.gather(query, repos) == Ok(GatheredFrom(gh, query, repos))
  {
    Client(SourceGitHub, authenticated, (query, repos) => Ok(GatheredFrom(gh, query, repos)))
  }

  /** One search: the listing's errors are wrapped, the entries become items in order. */
  method Search(gh: Gh, kind: SearchKind, repo: string, query: string) returns (r: Result<seq<ContextItem>, string>)
    ensures r == Searched(gh, kind, repo, query)
  {
    var out := gh(SearchArgs(kind, repo, query));
    match out
    case RunFailed(e) =>
      return Err(kind.RunError(e));
    case BadJson(e) =>
      return Err(kind.JsonError(e));
    case Listed(es) =>
      var items: seq<ContextItem> := [];
      var i := 0;
      while i < |es|
        invariant 0 <= i <= |es|
        invariant |items| == i
        invariant forall k :: 0 <= k < i ==> items[k] == Item(kind, repo, es[k])
      {
        items := items + [Item(kind, repo, es[i])];
        i := i + 1;
      }
      assert items == Items(kind, repo, es);
      return Ok(items);
  }

  /** GatherContext: every recognised repository in order; errors are
    * dropped and the call itself never fails. */
  method GatherContext(gh: Gh, query: string, repos: seq<string>) returns (r: Result<seq<ContextItem>, string>)
    ensures r == Ok(GatheredFrom(gh, query, repos))
  {
    var items: seq<ContextItem> := [];
    var i := 0;
    while i < |repos|
      invariant 0 <= i <= |repos|
      invariant items == GatheredFrom(gh, query, repos[..i])
    {
      GatheredFromStep(gh, query, repos, i);
      var part := GatherRepo(gh, query, repos[i]);
      items := items + part;
      i := i + 1;
    }
    assert repos[..i] == repos;
    return Ok(items);
  }

  /** One iteration of GatherContext's loop. */
  method GatherRepo(gh: Gh, query: string, repo: string) returns (items: seq<ContextItem>)
    ensures items == RepoItems(gh, query, repo)
  {
    var ownerRepo := ExtractOwnerRepo(repo);
    if ownerRepo == "" {
      return [];
    }
    items := [];
    var issues := Search(gh, Issues, ownerRepo, query);
    if issues.Ok? {
      items := issues.value;
    }
    assert items == Part(Searched(gh, Issues, ownerRepo, query));
    var prs := Search(gh, PullRequests, ownerRepo, query);
    if prs.Ok? {
      items := items + prs.value;
    } else {
      assert items == items + [];
    }
    assert items == OwnerRepoItems(gh, query, ownerRepo);
  }

  // ---------------------------------------------------------------------------
  // Properties

  /** Every item is a GitHub item of its kind, identified by "#number", with
    * exactly the number, state and repository as metadata. */
  lemma ItemShape(kind: SearchKind, repo: string, e: Entry)
    ensures var it := Item(kind, repo, e);
      && it.source == SourceGitHub && it.kind == kind.ItemType()
      && it.metadata.Keys == {"number", "state", "repo"}
      && it.metadata["repo"] == repo && it.metadata["state"] == e.state
      && it.id == "#" + it.metadata["number"] && it.metadata["number"] == IntToString(e.number)
      && it.url == e.url && it.title == e.title && it.author == e.author
      && it.content == ItemContent(kind, IntToString(e.number), e)
  {
  }

  /** The content starts with the bold "Issue #n: title" (or "PR #n: title")
    * heading and ends with the body. */
  lemma ItemContentShape(kind: SearchKind, n: string, e: Entry)
    ensures HasPrefix(ItemContent(kind, n, e), ItemHeading(kind, n, e.title))
    ensures HasSuffix(ItemContent(kind, n, e), e.body)
  {
    var h, t := ItemHeading(kind, n, e.title), StateLine(e.state, e.body);
    PrefixOfAppend(h, t);
    var front := "** (State: " + e.state + ")\n\n";
    AppendAssoc(h, front, e.body, t);
    var c := ItemContent(kind, n, e);
    assert c == (h + front) + e.body;
    assert c[|c| - |e.body|..] == e.body;
  }

  /** A search succeeds exactly when the listing yielded entries, with one
    * item per entry in listing order; it fails with the wrapped error
    * otherwise. */
  lemma SearchedOutcome(gh: Gh, kind: SearchKind, repo: string, query: string)
    ensures var out := gh(SearchArgs(kind, repo, query));
      && (Searched(gh, kind, repo, query).Ok? <==> out.Listed?)
      && (out.Listed? ==> |Searched(gh, kind, repo, query).value| == |out.entries|)
      && (out.Listed? ==> forall k :: 0 <= k < |out.entries| ==>
            Searched(gh, kind, repo, query).value[k] == Item(kind, repo, out.entries[k]))
      && (out.RunFailed? ==> Searched(gh, kind, repo, query) == Err(kind.RunError(out.err)))
      && (out.BadJson? ==> Searched(gh, kind, repo, query) == Err(kind.JsonError(out.err)))
  {
  }

  lemma GatheredFromStep(gh: Gh, query: string, repos: seq<string>, i: nat)
    requires i < |repos|
    ensures GatheredFrom(gh, query, repos[..i + 1]) == GatheredFrom(gh, query, repos[..i]) + RepoItems(gh, query, repos[i])
  {
    Seqs.FlatMapStep(repo => RepoItems(gh, query, repo), repos, i);
  }

  /** Gathering from a concatenated list is gathering from each part. */
  lemma GatheredFromAppend(gh: Gh, query: string, r1: seq<string>, r2: seq<string>)
    ensures GatheredFrom(gh, query, r1 + r2) == GatheredFrom(gh, query, r1) + GatheredFrom(gh, query, r2)
  {
    Seqs.FlatMapAppend(repo => RepoItems(gh, query, repo), r1, r2);
  }

  /** An item of one search is a GitHub item of that kind naming the repository. */
  lemma SearchedShape(gh: Gh, kind: SearchKind, ownerRepo: string, query: string)
    ensures forall it :: it in Part(Searched(gh, kind, ownerRepo, query)) ==>
      (it.source == SourceGitHub && it.kind == kind.ItemType() &&
       "repo" in it.metadata && it.metadata["repo"] == ownerRepo)
  {
    forall it | it in Part(Searched(gh, kind, ownerRepo, query))
      ensures it.source == SourceGitHub && it.kind == kind.ItemType() &&
        "repo" in it.metadata && it.metadata["repo"] == ownerRepo
    {
      var es := gh(SearchArgs(kind, ownerRepo, query)).entries;
      var k :| 0 <= k < |es| && it == Item(kind, ownerRepo, es[k]);
      ItemShape(kind, ownerRepo, es[k]);
    }
  }

  /** An item of a repository's searches names that repository's owner/repo. */
  lemma RepoItemsShape(gh: Gh, query: string, repo: string)
    ensures forall it :: it in RepoItems(gh, query, repo) ==>
      (it.source == SourceGitHub && (it.kind == "issue" || it.kind == "pull_request") &&
       ExtractOwnerRepo(repo) != "" && "repo" in it.metadata && it.metadata["repo"] == ExtractOwnerRepo(repo))
  {
    var o := ExtractOwnerRepo(repo);
    if o != "" {
      SearchedShape(gh, Issues, o, query);
      SearchedShape(gh, PullRequests, o, query);
    }
  }

  /** Every gathered item comes from one of the listed repositories whose
    * owner/repo could be extracted, and records it. */
  lemma GatheredFromShape(gh: Gh, query: string, repos: seq<string>)
    ensures forall it :: it in GatheredFrom(gh, query, repos) ==>
      (it.source == SourceGitHub && (it.kind == "issue" || it.kind == "pull_request") &&
       exists k :: (0 <= k < |repos| && ExtractOwnerRepo(repos[k]) != "" &&
         "repo" in it.metadata && it.metadata["repo"] == ExtractOwnerRepo(repos[k])))
  {
    forall it | it in GatheredFrom(gh, query, repos)
      ensures it.source == SourceGitHub && (it.kind == "issue" || it.kind == "pull_request") &&
        exists k :: (0 <= k < |repos| && ExtractOwnerRepo(repos[k]) != "" &&
          "repo" in it.metadata && it.metadata["repo"] == ExtractOwnerRepo(repos[k]))
    {
      Seqs.FlatMapFrom(repo => RepoItems(gh, query, repo), repos, it);
      var k :| 0 <= k < |repos| && it in RepoItems(gh, query, repos[k]);
      RepoItemsShape(gh, query, repos[k]);
    }
  }

  /** What is extracted is what follows the host in the URL (after ".git"
    * is trimmed), and holds no further copy of that host. */
  lemma ExtractedFollowsHost(repoURL: string)
    ensures var u, r := TrimSuffix(repoURL, ".git"), ExtractOwnerRepo(repoURL);
      r != "" ==> exists p :: ((u == p + HttpsHost + r && !Contains(r, HttpsHost)) ||
                               (u == p + SshHost + r && !Contains(r, SshHost)))
  {
    var u := TrimSuffix(repoURL, ".git");
    if Contains(u, HttpsHost) && |Split(u, HttpsHost)| == 2 {
      SplitTwo(u, HttpsHost);
    } else if Contains(u, SshHost) && |Split(u, SshHost)| == 2 {
      SplitTwo(u, SshHost);
    }
  }

  /** An https URL yields its path, without a trailing ".git". */
  lemma ExtractHttps(path: string)
    requires !Contains(path, HttpsHost)
    ensures ExtractOwnerRepo("https://github.com/" + path) == TrimSuffix(path, ".git")
  {
    var p := TrimSuffix(path, ".git");
    assert "https://github.com/" == "https://" + HttpsHost;
    TrimSuffixAfter("https://github.com/", path, ".git");
    PrefixNotContained(path, |p|, HttpsHost);
    assert path[..|p|] == p;
    var u := "https://" + HttpsHost + p;
    assert TrimSuffix("https://github.com/" + path, ".git") == u;
    ContainedAt("https://", HttpsHost, p);
    SplitAround("https://", HttpsHost, p);
  }

  /** An ssh URL yields its path, without a trailing ".git". */
  lemma ExtractSsh(path: string)
    requires !Contains(path, HttpsHost) && !Contains(path, SshHost)
    ensures ExtractOwnerRepo(SshHost + path) == TrimSuffix(path, ".git")
  {
    var p := TrimSuffix(path, ".git");
    TrimSuffixAfter(SshHost, path, ".git");
    PrefixNotContained(path, |p|, HttpsHost);
    PrefixNotContained(path, |p|, SshHost);
    assert path[..|p|] == p;
    var u := SshHost + p;
    SshHostHidesHttpsHost(p);
    NotContainedAcross(SshHost, p, HttpsHost);
    assert "" + SshHost + p == u;
    ContainedAt("", SshHost, p);
    SplitAround("", SshHost, p);
  }

  /** No "github.com/" starts inside "git@github.com:". */
  lemma SshHostHidesHttpsHost(p: string)
    ensures forall j :: 0 <= j < |SshHost| ==> !OccursAt(SshHost + p, HttpsHost, j)
  {
    var s := SshHost + p;
    var h := HttpsHost;
    assert h[0] == 'g' && h[10] == '/';
    var g := SshHost;
    assert g[1] != 'g' && g[2] != 'g' && g[3] != 'g' && g[5] != 'g' && g[6] != 'g' && g[7] != 'g';
    assert g[8] != 'g' && g[9] != 'g' && g[10] != 'g' && g[11] != 'g' && g[12] != 'g' && g[13] != 'g';
    assert g[14] != 'g';
    forall j | 0 <= j < |SshHost| ensures !OccursAt(s, h, j) {
      if j + |h| <= |s| {
        var w := s[j..j + |h|];
        if j == 0 {
          assert w[10] == s[10] == '.';
        } else if j == 4 {
          assert w[10] == s[14] == ':';
        } else {
          assert w[0] == s[j] == g[j];
        }
      }
    }
  }
}
