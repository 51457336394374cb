/** The declarative Change document and its validation (internal/change). */
module Change {
  import opened Wrappers

  datatype ChangeSpec = ChangeSpec(
    agentsMD: string,
    resources: seq<string>,
    prompt: string,
    repos: seq<string>,
    agent: string,
    image: string,    // "" when omitted
    branch: string    // "" when omitted
  )

  datatype Change = Change(kind: string, apiVersion: string, spec: ChangeSpec)

  /** The four ways validation can reject a Change, in the order they are checked. */
  datatype ValidationError =
    | WrongKind(got: string)
    | PromptRequired
    | ReposRequired
    | AgentRequired
  {
    function Message(): string {
      match this
      case WrongKind(got) => "kind must be 'Change', got '" + got + "'"
      case PromptRequired => "spec.prompt is required"
      case ReposRequired => "spec.repos must contain at least one repository"
      case AgentRequired => "spec.agent is required"
    }
  }

  predicate IsValid(c: Change) {
    c.kind == "Change" && c.spec.prompt != "" && |c.spec.repos| > 0 && c.spec.agent != ""
  }

  /** `validate`: the guard chain kind, prompt, repos, agent. */
  function Validate(c: Change): (r: Result<(), ValidationError>)
    ensures r.Ok? <==> IsValid(c)
    ensures r == Err(WrongKind(c.kind)) <==> c.kind != "Change"
    ensures r == Err(PromptRequired) <==> c.kind == "Change" && c.spec.prompt == ""
    ensures r == Err(ReposRequired) <==>
      c.kind == "Change" && c.spec.prompt != "" && |c.spec.repos| == 0
    ensures r == Err(AgentRequired) <==>
      c.kind == "Change" && c.spec.prompt != "" && |c.spec.repos| > 0 && c.spec.agent == ""
  {
    if c.kind != "Change" then Err(WrongKind(c.kind))
    else if c.spec.prompt == "" then Err(PromptRequired)
    else if |c.spec.repos| == 0 then Err(ReposRequired)
    else if c.spec.agent == "" then Err(AgentRequired)
    else Ok(())
  }

  /** The agent name is only checked for being non-empty: any name passes. */
  lemma AnyAgentNamePasses(c: Change, agent: string)
    requires IsValid(c) && agent != ""
    ensures Validate(c.(spec := c.spec.(agent := agent))).Ok?
  {
  }

  datatype LoadError =
    | ReadFailed(reason: string)
    | ParseFailed(reason: string)
    | Invalid(cause: ValidationError)

  /**
   * `LoadFromFile`: reading the file is the input `contents` (Err when the
   * read fails) and YAML decoding is the function `unmarshal`.
   */
  function LoadFromFile(contents: Result<string, string>,
                        unmarshal: string -> Result<Change, string>): (r: Result<Change, LoadError>)
    ensures contents.Err? ==> r == Err(ReadFailed(contents.error))
    ensures contents.Ok? && unmarshal(contents.value).Err? ==>
      r == Err(ParseFailed(unmarshal(contents.value).error))
    ensures r.Ok? <==>
      contents.Ok? && unmarshal(contents.value).Ok? && IsValid(unmarshal(contents.value).value)
    ensures r.Ok? ==> r.value == unmarshal(contents.value).value && Validate(r.value).Ok?
    ensures r.Err? && r.error.Invalid? ==>
      contents.Ok? && unmarshal(contents.value).Ok? &&
      Validate(unmarshal(contents.value).value) == Err(r.error.cause)
  {
    match contents
    case Err(e) => Err(ReadFailed(e))
    case Ok(data) =>
      match unmarshal(data)
      case Err(e) => Err(ParseFailed(e))
      case Ok(c) =>
        match Validate(c)
        case Err(v) => Err(Invalid(v))
        case Ok(_) => Ok(c)
  }
}
