/**
 * The in-job executor (internal/agent/executor.go): download the resources,
 * run the agent, then ask it for pull-request metadata.  HTTP, the file system
 * and child processes are inputs: `HttpEnv` says how one download goes, and
 * the agent's exit status and output are given as Results.
 */
module AgentExecutor {
  import opened Wrappers
  import opened Strings
  import opened Change
  import AgentConfig

  // ---------------------------------------------------------------------------
  // Argument vectors

  /** The command runAgent executes, program first. */
  function AgentArgv(agent: string, prompt: string): (r: Result<seq<string>, string>)
    ensures agent == "copilot-cli" ==>
      r == Ok(["copilot", "--add-dir", "/workspace", "--add-dir", "/tmp", "--silent", "-p", prompt, "--allow-all-tools"])
    ensures agent == "gemini-cli" ==> r == Ok(["gemini", prompt])
    ensures agent != "copilot-cli" && agent != "gemini-cli" ==> r == Err("unsupported agent: " + agent)
  {
    var command := AgentConfig.GetCommand(agent);
    if agent == "copilot-cli" then
      Ok([command, "--add-dir", "/workspace", "--add-dir", "/tmp", "--silent", "-p", prompt, "--allow-all-tools"])
    else if agent == "gemini-cli" then
      Ok([command, prompt])
    else
      Err("unsupported agent: " + agent)
  }

  /** The command generatePRMetadata executes, program first. */
  function MetadataArgv(agent: string, workDir: string, prPrompt: string): (r: Result<seq<string>, string>)
    ensures agent == "copilot-cli" ==>
      r == Ok(["copilot", "--add-dir", workDir, "-p", prPrompt, "--allow-all-tools"])
    ensures agent == "gemini-cli" ==> r == Ok(["gemini", prPrompt])
    ensures agent != "copilot-cli" && agent != "gemini-cli" ==> r == Err("unsupported agent: " + agent)
  {
    var command := AgentConfig.GetCommand(agent);
    if agent == "copilot-cli" then Ok([command, "--add-dir", workDir, "-p", prPrompt, "--allow-all-tools"])
    else if agent == "gemini-cli" then Ok([command, prPrompt])
    else Err("unsupported agent: " + agent)
  }

  // ---------------------------------------------------------------------------
  // The pull-request prompt

  const Separator := "\n---\n"

  /** The prompt up to the first "\n---\n" line, or all of it. */
  function PromptClean(prompt: string): (r: string)
    ensures r <= prompt && !Contains(r, Separator)
    ensures !Contains(prompt, Separator) ==> r == prompt
    ensures Contains(prompt, Separator) ==> OccursAt(prompt, Separator, |r|)
  {
    IndexOfFirst(prompt, Separator);
    match IndexOf(prompt, Separator)
    case None => prompt
    case Some(i) =>
      PrefixBeforeFirstIsFree(prompt, Separator, i);
      prompt[..i]
  }

  const PRPromptHead :=
    "Review the git diff and create a pull request title and description.\n\n" +
    "Requirements:\n" +
    "- Title: One line, clear and descriptive (max 72 chars)\n" +
    "- Body: Summarize what changed and why (2-4 sentences)\n" +
    "- Add a \"## Prompt\" section at the end with the original prompt\n\n" +
    "Original prompt:\n"

  const PRPromptMiddle :=
    "\n\nFormat your response EXACTLY as:\n" +
    "TITLE: <your title here>\n" +
    "BODY:\n" +
    "<your description here>\n\n" +
    "## Prompt\n"

  /** The request text around the cleaned prompt: `x` placed after `head`
    * and again at the very end, after `middle`. */
  function Embed(head: string, x: string, middle: string): (r: string)
    ensures head <= r
    ensures OccursAt(r, x, |head|)
    ensures OccursAt(r, x, |r| - |x|)
  {
    var r := head + x + middle + x;
    assert r[..|head|] == head;
    assert r[|head|..|head| + |x|] == x;
    assert r[|r| - |x|..] == x;
    r
  }

  /** The metadata request embeds the cleaned prompt twice: after the
    * instructions and again as the closing "## Prompt" section. */
  function PRPrompt(prompt: string): string {
    Embed(PRPromptHead, PromptClean(prompt), PRPromptMiddle)
  }

  // ---------------------------------------------------------------------------
  // Downloads

  datatype Download = Download(url: string, file: string)

  function ResourceFile(i: nat): string {
    "resource-" + NatToString(i) + ".md"
  }

  /** The files downloadResources fetches, in order: agents.md when an
    * AGENTS.md URL is given, then resource-0.md, resource-1.md, ... */
  function DownloadTargets(spec: ChangeSpec): (r: seq<Download>)
    ensures |r| == (if spec.agentsMD != "" then 1 else 0) + |spec.resources|
  {
    (if spec.agentsMD != "" then [Download(spec.agentsMD, "agents.md")] else []) +
    seq(|spec.resources|, i requires 0 <= i < |spec.resources| => Download(spec.resources[i], ResourceFile(i)))
  }

  /** agents.md first when an AGENTS.md URL is given, then one resource file
    * per resource URL, numbered from 0. */
  lemma DownloadTargetsShape(spec: ChangeSpec)
    ensures var r := DownloadTargets(spec);
      var off := if spec.agentsMD != "" then 1 else 0;
      (spec.agentsMD != "" ==> r[0] == Download(spec.agentsMD, "agents.md")) &&
      forall i :: 0 <= i < |spec.resources| ==> r[off + i] == Download(spec.resources[i], ResourceFile(i))
  {
  }

  /** Different indices give different resource file names. */
  lemma ResourceFilesDistinct(a: nat, b: nat)
    requires a != b
    ensures ResourceFile(a) != ResourceFile(b)
  {
    var p, s := "resource-", ".md";
    var x, y := NatToString(a), NatToString(b);
    if ResourceFile(a) == ResourceFile(b) {
      assert |x| == |y|;
      assert (p + x + s)[9..9 + |x|] == x;
      assert (p + y + s)[9..9 + |y|] == y;
      NatToStringInjective(a, b);
    }
  }

  /** No resource file is named agents.md. */
  lemma AgentsFileIsNoResource(a: nat)
    ensures ResourceFile(a) != "agents.md"
  {
    var f := ResourceFile(a);
    assert f[0] == 'r';
  }

  /** No two downloads write the same file. */
  lemma DownloadFilesDistinct(spec: ChangeSpec, i: nat, j: nat)
    requires i < j < |DownloadTargets(spec)|
    ensures DownloadTargets(spec)[i].file != DownloadTargets(spec)[j].file
  {
    if spec.agentsMD == "" {
      ResourcesApart(spec, i, j);
    } else if i == 0 {
      AgentsBeforeResource(spec, j - 1);
    } else {
      ResourcesApart(spec, i - 1, j - 1);
    }
  }

  /** agents.md is not the file of any resource download. */
  lemma AgentsBeforeResource(spec: ChangeSpec, k: nat)
    requires spec.agentsMD != "" && k < |spec.resources|
    ensures DownloadTargets(spec)[0].file != DownloadTargets(spec)[1 + k].file
  {
    DownloadTargetsShape(spec);
    AgentsFileIsNoResource(k);
  }

  /** Two resource downloads write different files. */
  lemma ResourcesApart(spec: ChangeSpec, a: nat, b: nat)
    requires a < b < |spec.resources|
    ensures var off := if spec.agentsMD != "" then 1 else 0;
      DownloadTargets(spec)[off + a].file != DownloadTargets(spec)[off + b].file
  {
    DownloadTargetsShape(spec);
    ResourceFilesDistinct(a, b);
  }

  /** How one HTTP download goes: the transport result (a status code), then
    * creating the destination file, then copying the body. */
  datatype HttpEnv = HttpEnv(response: Result<int, string>, create: Result<(), string>, copy: Result<(), string>)

  datatype FileOutcome = FileOutcome(result: Result<(), string>, created: bool)

  /** downloadFile: a non-200 status fails before any file is created. */
  function DownloadFile(url: string, env: HttpEnv): (r: FileOutcome)
    ensures env.response.Ok? && env.response.value != 200 ==>
      r == FileOutcome(Err("failed to download " + url + ": status " + IntToString(env.response.value)), false)
    ensures r.created <==> env.response == Ok(200) && env.create.Ok?
    ensures r.result.Ok? <==> env.response == Ok(200) && env.create.Ok? && env.copy.Ok?
  {
    match env.response
    case Err(e) => FileOutcome(Err(e), false)
    case Ok(status) =>
      if status != 200 then
        FileOutcome(Err("failed to download " + url + ": status " + IntToString(status)), false)
      else match env.create
        case Err(e) => FileOutcome(Err(e), false)
        case Ok(_) => FileOutcome(env.copy, true)
  }

  /** The outcome of one download. */
  function Attempt(env: (string, string) -> HttpEnv, d: Download): Result<(), string> {
    DownloadFile(d.url, env(d.url, d.file)).result
  }

  predicate Fetches(env: (string, string) -> HttpEnv, d: Download) {
    Attempt(env, d).Ok?
  }

  /** The downloads in `attempted` were tried in this order: all but the
    * last succeeded, and the result is the last one's outcome when it failed. */
  predicate TriedInOrder(env: (string, string) -> HttpEnv, ds: seq<Download>, r: Result<(), string>,
                         attempted: seq<Download>) {
    && attempted <= ds
    && (forall k :: 0 <= k < |attempted| - 1 ==> Fetches(env, attempted[k]))
    && (r.Ok? <==> attempted == ds && forall k :: 0 <= k < |attempted| ==> Fetches(env, attempted[k]))
    && (r.Err? ==> attempted != [] && r == Attempt(env, attempted[|attempted| - 1]))
  }

  /** The loop over the resource URLs: each download in turn until one fails. */
  method DownloadEach(ds: seq<Download>, env: (string, string) -> HttpEnv)
    returns (r: Result<(), string>, attempted: seq<Download>)
    ensures TriedInOrder(env, ds, r, attempted)
  {
    attempted := [];
    var i := 0;
    while i < |ds|
      invariant 0 <= i <= |ds|
      invariant attempted == ds[..i]
      invariant forall k :: 0 <= k < |attempted| ==> Fetches(env, attempted[k])
    {
      assert ds[..i + 1] == ds[..i] + [ds[i]];
      attempted := attempted + [ds[i]];
      r := Attempt(env, ds[i]);
      if r.Err? {
        return;
      }
      i := i + 1;
    }
    assert attempted == ds;
    r := Ok(());
  }

  /**
   * downloadResources: `attempted` lists the downloads tried, in order.  They
   * are a prefix of DownloadTargets; all but the last succeeded, and the
   * whole sequence ran exactly when the result is Ok, else the result is the
   * failed download's error.
   */
  method DownloadResources(spec: ChangeSpec, env: (string, string) -> HttpEnv)
    returns (r: Result<(), string>, attempted: seq<Download>)
    ensures TriedInOrder(env, DownloadTargets(spec), r, attempted)
  {
    var targets := DownloadTargets(spec);
    var off := if spec.agentsMD != "" then 1 else 0;
    var head: seq<Download> := [];
    if spec.agentsMD != "" {
      head := [targets[0]];
      r := Attempt(env, targets[0]);
      if r.Err? {
        attempted := head;
        return;
      }
    }
    assert head == targets[..off];
    assert targets == head + targets[off..];
    var rest;
    r, rest := DownloadEach(targets[off..], env);
    attempted := head + rest;
    ConcatTried(env, head, targets[off..], r, rest);
  }

  /** A successful head followed by a tried tail is a tried whole. */
  lemma ConcatTried(env: (string, string) -> HttpEnv, head: seq<Download>, tail: seq<Download>,
                    r: Result<(), string>, rest: seq<Download>)
    requires forall k :: 0 <= k < |head| ==> Fetches(env, head[k])
    requires TriedInOrder(env, tail, r, rest)
    ensures TriedInOrder(env, head + tail, r, head + rest)
  {
    var a := head + rest;
    assert forall k :: 0 <= k < |a| - 1 ==> Fetches(env, a[k]) by {
      forall k | 0 <= k < |a| - 1 ensures Fetches(env, a[k]) {
        if k >= |head| {
          assert a[k] == rest[k - |head|];
        }
      }
    }
    if r.Ok? {
      assert forall k :: 0 <= k < |a| ==> Fetches(env, a[k]) by {
        forall k | 0 <= k < |a| ensures Fetches(env, a[k]) {
          if k >= |head| {
            assert a[k] == rest[k - |head|];
          }
        }
      }
    } else {
      assert a[|a| - 1] == rest[|rest| - 1];
      assert !Fetches(env, a[|a| - 1]);
    }
  }

  // ---------------------------------------------------------------------------
  // Running the agent and the error policy of Execute

  /** runAgent: the agent's exit status is `exit`; an unsupported agent fails
    * before any command runs. */
  function RunAgent(spec: ChangeSpec, exit: Result<(), string>): (r: Result<(), string>)
    ensures AgentArgv(spec.agent, spec.prompt).Err? ==> r == Err(AgentArgv(spec.agent, spec.prompt).error)
    ensures AgentArgv(spec.agent, spec.prompt).Ok? ==>
      (r.Ok? <==> exit.Ok?) && (exit.Err? ==> r == Err("agent execution failed: " + exit.error))
  {
    match AgentArgv(spec.agent, spec.prompt)
    case Err(e) => Err(e)
    case Ok(_) =>
      match exit
      case Err(e) => Err("agent execution failed: " + e)
      case Ok(_) => Ok(())
  }

  /** generatePRMetadata: `output` is the agent's captured output, `write`
    * the outcome of writing /workspace/pr-metadata.txt. */
  function GeneratePRMetadata(spec: ChangeSpec, workDir: string, output: Result<string, string>,
                              write: Result<(), string>): (r: Result<(), string>)
    ensures r.Ok? <==> MetadataArgv(spec.agent, workDir, PRPrompt(spec.prompt)).Ok? && output.Ok? && write.Ok?
  {
    match MetadataArgv(spec.agent, workDir, PRPrompt(spec.prompt))
    case Err(e) => Err(e)
    case Ok(_) =>
      match output
      case Err(e) => Err("agent failed to generate PR metadata: " + e)
      case Ok(_) =>
        match write
        case Err(e) => Err("failed to write PR metadata: " + e)
        case Ok(_) => Ok(())
  }

  datatype Step = Downloaded | AgentRan | MetadataAttempted

  datatype ExecError = DownloadFailed(reason: string) | AgentFailed(reason: string) {
    function Message(): string {
      match this
      case DownloadFailed(e) => "failed to download resources: " + e
      case AgentFailed(e) => "failed to run agent: " + e
    }
  }

  /**
   * Execute: a download failure stops before the agent, an agent failure is
   * returned, and then generatePRMetadata runs, its failure logged and
   * swallowed.  `steps` lists the phases that were entered and `metadata` the
   * outcome of generatePRMetadata when it ran; `output` and `write` are its
   * inputs, as for GeneratePRMetadata.
   */
  method Execute(spec: ChangeSpec, env: (string, string) -> HttpEnv, exit: Result<(), string>,
                 workDir: string, output: Result<string, string>, write: Result<(), string>)
    returns (r: Result<(), ExecError>, steps: seq<Step>, metadata: Option<Result<(), string>>)
    ensures steps == [Downloaded] <==> r.Err? && r.error.DownloadFailed?
    ensures steps == [Downloaded, AgentRan] <==> r.Err? && r.error.AgentFailed?
    ensures r.Err? && r.error.AgentFailed? ==> RunAgent(spec, exit) == Err(r.error.reason)
    ensures r.Ok? <==> steps == [Downloaded, AgentRan, MetadataAttempted]
    ensures r.Ok? <==> AgentRan in steps && RunAgent(spec, exit).Ok?
    ensures AgentRan in steps <==>
      forall k :: 0 <= k < |DownloadTargets(spec)| ==> Fetches(env, DownloadTargets(spec)[k])
    ensures metadata.Some? <==> MetadataAttempted in steps
    ensures metadata.Some? ==> metadata.value == GeneratePRMetadata(spec, workDir, output, write)
  {
    metadata := None;
    steps := [Downloaded];
    var downloaded, attempted := DownloadResources(spec, env);
    if downloaded.Err? {
      var last := |attempted| - 1;
      assert DownloadTargets(spec)[last] == attempted[last] && !Fetches(env, attempted[last]);
      r := Err(DownloadFailed(downloaded.error));
      return;
    }
    steps := steps + [AgentRan];
    var ran := RunAgent(spec, exit);
    if ran.Err? {
      r := Err(AgentFailed(ran.error));
      return;
    }
    steps := steps + [MetadataAttempted];
    var generated := GeneratePRMetadata(spec, workDir, output, write);
    metadata := Some(generated);
    r := Ok(());
  }
}
