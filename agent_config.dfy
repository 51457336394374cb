/** The table of supported coding agents (internal/agent/config.go). */
module AgentConfig {
  import opened Wrappers

  datatype Config = Config(name: string, command: string, credentials: seq<string>)

  /** AgentConfigs: logical agent name to its configuration. */
  const AgentConfigs: map<string, Config> := map[
    "gemini-cli" := Config("gemini-cli", "gemini", ["GEMINI_API_KEY", "GEMINI_oauth_creds_json"]),
    "copilot-cli" := Config("copilot-cli", "copilot", ["COPILOT_TOKEN", "GITHUB_TOKEN"])
  ]

  /** GetConfig: the table entry, with None for Go's `ok == false`. */
  function GetConfig(agentName: string): (r: Option<Config>)
    ensures r.Some? <==> agentName in AgentConfigs
    ensures r.Some? ==> r.value == AgentConfigs[agentName]
  {
    if agentName in AgentConfigs then Some(AgentConfigs[agentName]) else None
  }

  /** GetCommand: the configured command, falling back to the name itself. */
  function GetCommand(agentName: string): (r: string)
    ensures agentName in AgentConfigs ==> r == AgentConfigs[agentName].command
    ensures agentName !in AgentConfigs ==> r == agentName
  {
    match GetConfig(agentName)
    case Some(config) => config.command
    case None => agentName
  }

  /** The table holds exactly the two agents, each under its own name. */
  lemma TableKeysAreNames()
    ensures AgentConfigs.Keys == {"gemini-cli", "copilot-cli"}
    ensures forall a :: a in AgentConfigs ==> AgentConfigs[a].name == a
  {
  }

  lemma KnownCommands()
    ensures GetCommand("gemini-cli") == "gemini"
    ensures GetCommand("copilot-cli") == "copilot"
  {
  }

  /** GetConfig succeeds exactly for the table keys, reports the key as the
    * name, and then agrees with GetCommand. */
  lemma GetConfigAgreesWithGetCommand(agentName: string)
    ensures GetConfig(agentName).Some? <==> agentName == "gemini-cli" || agentName == "copilot-cli"
    ensures GetConfig(agentName).Some? ==>
      GetConfig(agentName).value.name == agentName &&
      GetCommand(agentName) == GetConfig(agentName).value.command
  {
    TableKeysAreNames();
  }

  lemma UnknownAgentCommandIsName(agentName: string)
    requires agentName != "gemini-cli" && agentName != "copilot-cli"
    ensures GetCommand(agentName) == agentName
  {
    TableKeysAreNames();
  }
}
