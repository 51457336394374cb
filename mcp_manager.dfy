/**
 * Context sources (internal/mcp/types.go and manager.go): the items a source
 * produces, the client interface each source implements, the manager that
 * holds one client per source and gathers from a list of sources, and the
 * parser for a comma-separated source list.
 */
module McpManager {
  import opened Wrappers
  import opened Strings
  import Seqs

  /** A source name; only "github" and "slack" are accepted on the command line. */
  type Source = string

  const SourceGitHub: Source := "github"
  const SourceSlack: Source := "slack"
  const SourceManual: Source := "manual"

  /** A piece of gathered context.  The gathering time is not modelled. */
  datatype ContextItem = ContextItem(
    source: Source,
    kind: string,      // Go's Type: "issue", "pull_request", "message", ...
    id: string,
    url: string,
    title: string,
    content: string,
    author: string,
    metadata: map<string, string>)

  /**
   * A client as the manager sees it: the name it reports, whether it is
   * usable (for GitHub, whether `gh auth status` succeeds), and what it
   * gathers for a query and a list of repositories.
   */
  datatype Client = Client(
    name: Source,
    available: bool,
    gather: (string, seq<string>) -> Result<seq<ContextItem>, string>)

  /** What one listed source adds: nothing when it is not registered, not
    * available, or fails. */
  function Contribution(clients: map<Source, Client>, s: Source, query: string, repos: seq<string>): seq<ContextItem> {
    if s !in clients || !clients[s].available then []
    else match clients[s].gather(query, repos)
      case Ok(items) => items
      case Err(_) => []
  }

  /** Everything gathered from the listed sources, in list order. */
  function Gathered(clients: map<Source, Client>, sources: seq<Source>, query: string, repos: seq<string>): seq<ContextItem> {
    Seqs.FlatMap(s => Contribution(clients, s, query, repos), sources)
  }

  /** A source that is registered, available, and gathers without error. */
  predicate Usable(clients: map<Source, Client>, s: Source, query: string, repos: seq<string>) {
    s in clients && clients[s].available && clients[s].gather(query, repos).Ok?
  }

  predicate Distinct(xs: seq<Source>) {
    forall i, j :: 0 <= i < j < |xs| ==> xs[i] != xs[j]
  }

  class Manager {
    var clients: map<Source, Client>

    /** Every client is stored under the name it reports. */
    predicate Valid()
      reads this
    {
      forall s :: s in clients ==> clients[s].name == s
    }

    /** NewManager: no client registered. */
    constructor ()
      ensures clients == map[] && Valid()
    {
      clients := map[];
    }

    /** RegisterClient stores the client under its name, replacing any
      * client registered under that name before. */
    method RegisterClient(client: Client)
      modifies this
      requires Valid()
      ensures clients == old(clients)[client.name := client]
      ensures Valid()
    {
      clients := clients[client.name := client];
    }

    function GetClient(source: Source): (r: Option<Client>)
      reads this
      ensures r.Some? <==> source in clients
      ensures Valid() && r.Some? ==> r.value.name == source
    {
      if source in clients then Some(clients[source]) else None
    }

    /**
     * GatherContext: asks each listed source in turn, skipping the ones that
     * are not registered, not available, or fail, and never reports an error.
     */
    method GatherContext(sources: seq<Source>, query: string, repos: seq<string>)
      returns (r: Result<seq<ContextItem>, string>)
      ensures r == Ok(Gathered(clients, sources, query, repos))
    {
      var all: seq<ContextItem> := [];
      var i := 0;
      while i < |sources|
        invariant 0 <= i <= |sources|
        invariant all == Gathered(clients, sources[..i], query, repos)
      {
        var source := sources[i];
        GatheredStep(clients, sources, i, query, repos);
        var part := GatherOne(clients, source, query, repos);
        all := all + part;
        i := i + 1;
      }
      assert sources[..i] == sources;
      return Ok(all);
    }

    /** GetAvailableSources: every registered source whose client is
      * available, once each, in the map's iteration order (any order). */
    method GetAvailableSources() returns (available: seq<Source>)
      ensures forall s :: s in available <==> s in clients && clients[s].available
      ensures Distinct(available)
    {
      available := [];
      var remaining := clients.Keys;
      while remaining != {}
        invariant remaining <= clients.Keys
        invariant forall s :: s in available <==> s in clients.Keys - remaining && clients[s].available
        invariant Distinct(available)
        decreases |remaining|
      {
        var s :| s in remaining;
        if clients[s].available {
          available := available + [s];
        }
        remaining := remaining - {s};
      }
    }
  }

  /** One iteration of the manager's gathering loop. */
  method GatherOne(clients: map<Source, Client>, source: Source, query: string, repos: seq<string>)
    returns (items: seq<ContextItem>)
    ensures items == Contribution(clients, source, query, repos)
  {
    if source !in clients {
      return [];
    }
    var client := clients[source];
    if !client.available {
      return [];
    }
    var res := client.gather(query, repos);
    if res.Err? {
      return [];
    }
    return res.value;
  }

  lemma GatheredStep(clients: map<Source, Client>, sources: seq<Source>, i: nat, query: string, repos: seq<string>)
    requires i < |sources|
    ensures Gathered(clients, sources[..i + 1], query, repos) ==
            Gathered(clients, sources[..i], query, repos) + Contribution(clients, sources[i], query, repos)
  {
    Seqs.FlatMapStep(s => Contribution(clients, s, query, repos), sources, i);
  }

  /** Gathering from a concatenated list is gathering from each part. */
  lemma GatheredAppend(clients: map<Source, Client>, s1: seq<Source>, s2: seq<Source>, query: string, repos: seq<string>)
    ensures Gathered(clients, s1 + s2, query, repos) == Gathered(clients, s1, query, repos) + Gathered(clients, s2, query, repos)
  {
    Seqs.FlatMapAppend(s => Contribution(clients, s, query, repos), s1, s2);
  }

  /** The items of the i-th listed source follow those of the sources before it. */
  lemma GatheredInOrder(clients: map<Source, Client>, sources: seq<Source>, i: nat, query: string, repos: seq<string>)
    requires i < |sources|
    ensures Gathered(clients, sources[..i], query, repos) + Contribution(clients, sources[i], query, repos)
            <= Gathered(clients, sources, query, repos)
  {
    Seqs.FlatMapInOrder(s => Contribution(clients, s, query, repos), sources, i);
  }

  /** Every gathered item was produced by a usable listed source. */
  lemma GatheredFromUsable(clients: map<Source, Client>, sources: seq<Source>, query: string, repos: seq<string>)
    ensures forall it :: it in Gathered(clients, sources, query, repos) ==>
      exists k :: (0 <= k < |sources| && Usable(clients, sources[k], query, repos) &&
        it in clients[sources[k]].gather(query, repos).value)
  {
    forall it | it in Gathered(clients, sources, query, repos)
      ensures exists k :: (0 <= k < |sources| && Usable(clients, sources[k], query, repos) &&
        it in clients[sources[k]].gather(query, repos).value)
    {
      Seqs.FlatMapFrom(s => Contribution(clients, s, query, repos), sources, it);
      var k :| 0 <= k < |sources| && it in Contribution(clients, sources[k], query, repos);
      assert Usable(clients, sources[k], query, repos);
    }
  }

  /** A usable source contributes all of its items. */
  lemma UsableContributesAll(clients: map<Source, Client>, s: Source, query: string, repos: seq<string>)
    requires Usable(clients, s, query, repos)
    ensures Contribution(clients, s, query, repos) == clients[s].gather(query, repos).value
  {
  }

  predicate Known(part: string) { part == SourceGitHub || part == SourceSlack }

  function UnknownSource(part: string): string {
    "unknown MCP source: " + part
  }

  /** Every part trimmed of white space. */
  function Trimmed(parts: seq<string>): seq<string> {
    seq(|parts|, k requires 0 <= k < |parts| => TrimSpace(parts[k]))
  }

  /** The trimmed parts are all known sources (Ok, in order), or the first
    * that is not is named in the error. */
  predicate PartsParsed(trimmed: seq<string>, r: Result<seq<Source>, string>) {
    && (r.Ok? <==> forall k :: 0 <= k < |trimmed| ==> Known(trimmed[k]))
    && (r.Ok? ==> r.value == trimmed)
    && (r.Err? ==> exists k :: (0 <= k < |trimmed| && !Known(trimmed[k]) &&
          (forall j :: 0 <= j < k ==> Known(trimmed[j])) && r.error == UnknownSource(trimmed[k])))
  }

  /**
   * ParseSources.  The empty list parses to no sources; otherwise every
   * comma-separated part, trimmed of white space, must be "github" or
   * "slack" ("manual" and empty parts are refused), and the first part that
   * is not stops the parse with an error naming it.
   */
  method ParseSources(sourcesStr: string) returns (r: Result<seq<Source>, string>)
    ensures sourcesStr == "" ==> r == Ok([])
    ensures sourcesStr != "" ==> PartsParsed(Trimmed(Split(sourcesStr, ",")), r)
  {
    if sourcesStr == "" {
      return Ok([]);
    }
    r := ParseParts(Trimmed(Split(sourcesStr, ",")));
  }

  /** The loop of ParseSources over the trimmed parts. */
  method ParseParts(trimmed: seq<string>) returns (r: Result<seq<Source>, string>)
    ensures PartsParsed(trimmed, r)
  {
    var sources: seq<Source> := [];
    var i := 0;
    while i < |trimmed|
      invariant 0 <= i <= |trimmed|
      invariant sources == trimmed[..i]
      invariant forall k :: 0 <= k < i ==> Known(trimmed[k])
    {
      var part := trimmed[i];
      if part == SourceGitHub || part == SourceSlack {
        assert trimmed[..i + 1] == trimmed[..i] + [part];
        sources := sources + [part];
      } else {
        return Err(UnknownSource(part));
      }
      i := i + 1;
    }
    assert trimmed[..i] == trimmed;
    return Ok(sources);
  }

  /** A part of a list of sources that trims to "manual" is refused with an
    * error naming it. */
  lemma ManualRefused(trimmed: seq<string>, r: Result<seq<Source>, string>)
    requires PartsParsed(trimmed, r) && "manual" in trimmed
    ensures r.Err?
  {
    var k :| 0 <= k < |trimmed| && trimmed[k] == "manual";
    assert !Known(trimmed[k]) by {
      assert trimmed[k][0] == 'm';
    }
  }
}
