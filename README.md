# baca: a Dafny model of the background coding agent's orchestration core

baca (the "background coding agent") applies a *Change* — a prompt, an
agent name, optional agents.md and resource URLs, and a list of
repositories — by creating one Kubernetes Job per repository. Each job
runs the agent against a clone of that repository. This project models
the core of that machinery and proves what it promises:

- `K8sNaming`, `KubeApi`, `K8sJob`: the Kubernetes backend. This covers job
  names and random suffixes, label sanitising, and the job spec with its
  fork-setup → git-clone → runner pipeline, its workspace volume and the
  gemini-only OAuth volume. It also covers ApplyChange.
- `JobStatus`, `JobMonitor`: mapping a job's conditions to Pending /
  Running / Complete / Failed, and the polling loop `monitorJobs`.
  `monitorJobs` is a state machine over the recorded-status map, the set of
  jobs whose logs were printed, and the per-tick `allDone` / `anyFailed`
  flags. Both backends share it. The older one prints no logs
  (`withLogs == false`).
- `LegacyJob`, `LegacySetup`: the older backend in `internal/backend`.
  - `LegacyJob` covers buildJobScript's ordered shell steps, the
    deterministic `bca-` job name and the one-container job.
  - `LegacySetup` covers Setup. That is create-or-get of the namespace,
    then create-or-update of the `bca-credentials` secret, against a
    cluster object (`Cluster`) whose state the calls change.
  - `internal/backend/kubernetes.go` holds the KubernetesBackend type, its
    constructor New, the pointer helpers boolPtr and int32Ptr, and the one
    `DefaultImage` constant, which `apply.go` also uses. Its lines 42-380
    also repeat the functions of `internal/backend/setup.go` and
    `internal/backend/apply.go` line for line. Each function is modelled
    once, and its table row cites both copies.
- `SetupCommand`: the `setup` command's credential assembly (`cmd/setup.go`).
- `AgentConfig`, `AgentExecutor`: the agent table, and the in-job executor.
  The executor downloads agents.md and the resources, runs the agent, and
  then asks the agent for pull-request metadata.
- `Change`: validating and loading a Change.
- `WorkflowSession`, `WorkflowRefiner`: the interactive prompt-refinement
  session and its Markdown prompt template.
- `McpManager`, `McpGitHub`: parsing context sources, and gathering issues
  and pull requests through the `gh` CLI.
- `GitClone`: token injection, the clone argument list and repository names.
- `GhaApply`: the GitHub Actions backend's workflow_dispatch loop.
- `CodeAndTests`: places where the repository's tests expect something the
  code does not do (below).
- `Wrappers`, `Strings`, `Seqs`: Option/Result, the subset of Go's
  `strings` package the code uses, and a flat-map over sequences.

Everything outside the program is a parameter:

- the cluster's answer to each Create (`create(i, job)`);
- each status query (`observe(tick, job)`);
- HTTP responses and file operations;
- `exec` and `gh` results and `url.Parse` outcomes;
- the random suffix (`suffix(i)` for the i-th repository);
- the home directory and file contents.

The 30-minute deadline of monitorJobs becomes a tick budget `maxTicks`.

Stateful code is written imperatively, with its specification functions
beside it:

- `Session`, `Manager` and `Cluster` are classes whose methods change their
  fields.
- The loops of monitorJobs, downloadResources, buildJobScript, the `setup`
  command, the MCP gathering, the refiner and the session summary, and the
  dispatch loop are `while` loops with invariants. Clone has no loop; it is
  a method whose steps run in the source's order.
- Each is proved equal to, or to satisfy, a function that states the
  result.

## Model

| member | source | states |
|---|---|---|
| AgentConfig.GetConfig | internal/agent/config.go:32-36 | found exactly when the name is a key of the agent table, and then returns that key's entry |
| AgentConfig.GetCommand | internal/agent/config.go:38-45 | the table's command for a known agent; any other name comes back unchanged |
| AgentConfig.TableKeysAreNames | internal/agent/config.go:10-30 | the table's keys are exactly gemini-cli and copilot-cli, and each entry's Name is its own key |
| AgentConfig.KnownCommands | internal/agent/config.go:10-30 | gemini-cli runs `gemini` and copilot-cli runs `copilot` |
| AgentConfig.GetConfigAgreesWithGetCommand | internal/agent/config.go:32-45 | GetConfig finds a name iff it is one of the two agents; then the entry's Name is that name and GetCommand returns the entry's Command |
| AgentConfig.UnknownAgentCommandIsName | internal/agent/config.go:43-44 | a name that is not in the table is its own command |
| AgentExecutor.AgentArgv | internal/agent/executor.go:102-119 | copilot-cli gets the nine-word argv with `--add-dir /workspace --add-dir /tmp --silent -p prompt --allow-all-tools`, gemini-cli gets `[gemini, prompt]`, and any other agent gets the "unsupported agent" error |
| AgentExecutor.MetadataArgv | internal/agent/executor.go:166-176 | the metadata call's argv per agent (copilot with `--add-dir` of the work directory), and the same error for other agents |
| AgentExecutor.PromptClean | internal/agent/executor.go:137-141 | the result is a prefix of the prompt that holds no `\n---\n`; it is the whole prompt when the separator is absent, and otherwise the separator starts right after it, so it is the text before the first separator |
| AgentExecutor.Embed | internal/agent/executor.go:144-160 | the cleaned prompt occurs right after the fixed head and again at the very end of the PR prompt |
| AgentExecutor.DownloadTargets | internal/agent/executor.go:50-67 | one target per resource, plus one when agents.md is given |
| AgentExecutor.DownloadTargetsShape | internal/agent/executor.go:51-64 | agents.md comes first when given; resource i follows at its place and is written to `resource-i.md` |
| AgentExecutor.ResourceFilesDistinct | internal/agent/executor.go:59-62 | distinct resource indexes name distinct files |
| AgentExecutor.AgentsFileIsNoResource | internal/agent/executor.go:51-62 | no resource file is called agents.md |
| AgentExecutor.DownloadFilesDistinct | internal/agent/executor.go:50-67 | no two downloads write the same file |
| AgentExecutor.AgentsBeforeResource | internal/agent/executor.go:51-62 | the agents.md target and each resource target write different files |
| AgentExecutor.ResourcesApart | internal/agent/executor.go:58-64 | two resource targets at different positions write different files |
| AgentExecutor.DownloadFile | internal/agent/executor.go:69-93 | a non-200 status gives the "status" error and creates no file; a file is created iff the status is 200 and the create succeeds; the download succeeds iff the copy succeeds as well |
| AgentExecutor.DownloadEach | internal/agent/executor.go:58-64 | downloads are tried in order: those tried are a prefix of the list and all but the last succeeded; the result is Ok iff every download succeeded, and otherwise it is the last one's error |
| AgentExecutor.DownloadResources | internal/agent/executor.go:50-67 | the same, over agents.md followed by the resources |
| AgentExecutor.RunAgent | internal/agent/executor.go:95-132 | an unsupported agent's error is returned without running anything; otherwise the agent's exit status decides, wrapped as "agent execution failed" |
| AgentExecutor.GeneratePRMetadata | internal/agent/executor.go:134-193 | succeeds iff the agent has a metadata argv, the agent produced output and the output file was written |
| AgentExecutor.Execute | internal/agent/executor.go:29-48 | a download failure stops before the agent runs; an agent failure is returned with RunAgent's error; success iff the agent ran and succeeded; after a successful agent run generatePRMetadata is called and its outcome is GeneratePRMetadata's, but the result does not depend on it (a metadata failure is swallowed); the agent runs iff every download succeeded |
| Change.Validate | internal/change/parser.go:28-46 | Ok iff the kind is Change, the prompt and the agent are non-empty and there is a repository; the checks run in the order kind, prompt, repos, agent, and the first failing one names the error |
| Change.AnyAgentNamePasses | internal/change/parser.go:41-43 | any non-empty agent name is accepted, whether or not it is known |
| Change.LoadFromFile | internal/change/parser.go:10-26 | a read error and a parse error are returned as such; a Change is returned iff it parsed and Validate accepted it, and otherwise Validate's error is returned |
| CodeAndTests.DefaultImageDiffersFromTest | tests/backend/apply_test.go:135-157 | a Change without an image runs on the code's default image, which is not the image the test expects |
| CodeAndTests.DefaultImagesDiffer | internal/backend/k8s/kubernetes.go:20 | the backend's default image differs from `ghcr.io/manno/baca-runner:latest` |
| CodeAndTests.SecretNamesDiffer | internal/backend/setup.go:33-40 | the older Setup writes the secret its own jobs import, `bca-credentials`, but not the `baca-credentials` that Kubernetes-backend jobs import |
| CodeAndTests.PathPartOfPlain | internal/backend/apply.go:190-206 | a path with nothing to clean is its own path part |
| CodeAndTests.OwnerRepoPathPart | internal/backend/apply.go:196-203 | `/owner/repo` becomes `owner-repo` |
| CodeAndTests.LegacyNameHasNoSuffix | internal/backend/apply_test.go:16-25 | the older backend names `/owner/repo` exactly `bca-owner-repo`, so the name does not start with `bca-owner-repo-` |
| CodeAndTests.LegacyFallbackIsNotTested | internal/backend/apply_test.go:46-55 | a plain path gives `bca-` + path, which starts with `bca-job-` iff the path starts with `job-`, and a URL that fails to parse gives `bca-job` |
| CodeAndTests.TestedInvalidUrlIsPlain | internal/backend/apply_test.go:46-55 | `not-a-valid-url` is such a plain path and does not start with `job-` |
| CodeAndTests.TestedFleetIsPlain | internal/backend/apply_test.go:16-25 | manno/fleet meets the conditions of LegacyNameHasNoSuffix |
| GhaApply.ApplyChange | internal/backend/gha/apply.go:40-77 | a workflow repository that is not two `/`-parts is refused before any request; otherwise identical requests are sent in repository order; the result is Ok iff every dispatch succeeded, and then one request per repository was sent; on failure the last request sent returned the error and every earlier one succeeded |
| GhaApply.Inputs | internal/backend/gha/apply.go:50-56 | defines the workflow inputs sent with each dispatch |
| GhaApply.InputsShape | internal/backend/gha/apply.go:50-56 | the inputs are exactly agent, prompt, branch, agentsmd and resources, each taken from the Change; comma-free resources survive the split of the joined string |
| GhaApply.WorkflowRepoAccepted | internal/backend/gha/apply.go:41-45 | `owner/repo` without further slashes splits into owner and repo |
| GhaApply.WorkflowRepoWithoutSlashRefused | internal/backend/gha/apply.go:41-45 | a workflow repository without a slash splits into one part, so it is refused |
| GitClone.InjectToken | internal/git/clone.go:55-76 | the URL is unchanged without a token or when it is not https; otherwise it is the parsed URL with the token as user and an empty password, or the wrapped parse error |
| GitClone.InjectTokenHttps | internal/git/clone.go:67-75 | for an https URL without user information, the result is `https://` + token + `:@` + the rest |
| GitClone.Clone | internal/git/clone.go:21-52 | a mkdir failure and a URL failure are returned before git runs; otherwise git runs on the clone arguments and its failure is wrapped |
| GitClone.CloneArgs | internal/git/clone.go:34-40 | defines git's arguments: `clone`, `--branch b` when a branch is given, the URL and the directory |
| GitClone.CloneArgsShape | internal/git/clone.go:34-40 | the arguments start with `clone`, end with the URL and the directory, and hold `--branch b` right after `clone` exactly when a branch is given |
| GitClone.CreateBranch | internal/git/clone.go:78-91 | runs `checkout -b branch` and wraps its failure |
| GitClone.ExtractRepoName | internal/git/clone.go:93-99 | the name is never empty |
| GitClone.ExtractRepoNameOf | internal/git/clone.go:93-99 | `…/name.git` and `…/name` both give `name` |
| GitClone.ExtractRepoNameKeepsBareGit | internal/git/clone.go:95-98 | a last element that is exactly `.git` is kept |
| JobMonitor.CreateJobs | internal/backend/k8s/apply.go:32-44 | jobs are created in repository order; those created are a prefix and each succeeded; all are created iff none failed; otherwise the first refusal is reported with its repository and no later job is attempted |
| JobMonitor.Visit | internal/backend/k8s/apply.go:324-351 | defines one job's visit in a tick: skip a job recorded terminal, log the query, keep the state on a failed query, else record the status, emit logs on a first terminal status with logging on, and update the flags |
| JobMonitor.Tick | internal/backend/k8s/apply.go:320-352 | defines one tick: the visits of every job name in order, from `allDone` true and `anyFailed` false |
| JobMonitor.Run | internal/backend/k8s/apply.go:316-366 | defines the polling loop: the timeout once the tick budget is spent, else one tick, then "some failed" or success on an all-done tick, else the next tick |
| JobMonitor.VisitJob | internal/backend/k8s/apply.go:324-351 | one job's visit in a tick equals the Visit step function |
| JobMonitor.RunTick | internal/backend/k8s/apply.go:322-352 | one tick's loop over the jobs equals Tick |
| JobMonitor.MonitorJobs | internal/backend/k8s/apply.go:308-366 | the polling loop equals Run from the initial state |
| JobMonitor.RecordedStep | internal/backend/k8s/apply.go:329-338 | a successful query overwrites the job's recorded status, and a failing one leaves the map alone |
| JobMonitor.StatusStep | internal/backend/k8s/apply.go:324-338 | visiting a job that is not recorded terminal adds exactly one query, and the map stays the replay of the queries |
| JobMonitor.NoRequeryStep | internal/backend/k8s/apply.go:325-327 | a job recorded Complete or Failed is never queried again |
| JobMonitor.TerminalKeptStep | internal/backend/k8s/apply.go:325-338 | the recorded terminal status is the one last observed |
| JobMonitor.EmitsTerminalStep | internal/backend/k8s/apply.go:341-344 | logs are printed once per job, only for a terminal observation, and never without logging; with logging, every job a query reported terminal has had its logs printed |
| JobMonitor.VisitConsistent | internal/backend/k8s/apply.go:324-351 | one visit keeps the monitor invariant |
| JobMonitor.TickFoldConsistent | internal/backend/k8s/apply.go:324-352 | a tick's loop keeps the invariant |
| JobMonitor.ConsistentTicks | internal/backend/k8s/apply.go:316-322 | advancing the tick counter keeps the invariant |
| JobMonitor.TickConsistent | internal/backend/k8s/apply.go:320-352 | a whole tick keeps the invariant |
| JobMonitor.RunPreserves | internal/backend/k8s/apply.go:316-366 | any property every tick keeps holds of the final state |
| JobMonitor.RunConsistent | internal/backend/k8s/apply.go:316-366 | the invariant holds when the loop ends |
| JobMonitor.VisitFlags | internal/backend/k8s/apply.go:329-351 | a visit leaves `allDone` set iff it was set and nothing queried is pending or running, and sets `anyFailed` iff it was set or a failure was observed |
| JobMonitor.TickFoldFlags | internal/backend/k8s/apply.go:322-352 | the same for the whole loop of one tick |
| JobMonitor.TickVerdict | internal/backend/k8s/apply.go:322-363 | after a tick, `anyFailed` means some query of that tick observed Failed, and `allDone` means no query of that tick observed Pending or Running |
| JobMonitor.RunStops | internal/backend/k8s/apply.go:316-366 | a timeout happens only at the budget, after a tick that was not all done; any other verdict comes from a tick that was all done, and it is "some failed" iff that tick saw a failure |
| JobMonitor.MonitorVerdicts | internal/backend/k8s/apply.go:354-363 | "some jobs failed" only if a job was observed Failed on the final tick; success only if no job queried on the final tick was pending or running; a timeout only at the budget |
| JobMonitor.MonitorInvariants | internal/backend/k8s/apply.go:324-344 | at the end, the map is the replay of all queries, a job is queried again only after non-terminal answers, each print follows a terminal observation of that job, no job's logs are printed twice, and there are no prints without logging; with logging, every job observed terminal has its logs printed, so exactly once |
| JobMonitor.QueryErrorKeepsStatus | internal/backend/k8s/apply.go:329-333 | a failing query changes nothing but the query log, not even the flags |
| JobMonitor.TickFoldAllErrors | internal/backend/k8s/apply.go:324-333 | a tick where every query fails leaves the map and both flags as they were |
| JobMonitor.RecordedAllErrors | internal/backend/k8s/apply.go:329-333 | queries that all failed record nothing |
| JobMonitor.AllQueriesFailingSucceeds | internal/backend/k8s/apply.go:322-363 | when every query of the first tick fails, monitorJobs reports success with nothing recorded |
| JobMonitor.ScenarioFirstTick | internal/backend/k8s/apply.go:322-352 | in the two-job scenario, tick 0 records `a` as Failed while `b` is still running, so there is no verdict |
| JobMonitor.ScenarioLaterTick | internal/backend/k8s/apply.go:325-352 | on a later tick `a` is skipped and `b` is Complete, so the tick is all done with no failure |
| JobMonitor.EarlierFailureHidden | internal/backend/k8s/apply.go:325-363 | the scenario ends in success although job `a` was observed Failed |
| JobStatus.StatusOf | internal/backend/k8s/apply.go:292-305 | without a deciding condition the job is Running iff it has an active pod, else Pending |
| JobStatus.FirstDecidingWins | internal/backend/k8s/apply.go:292-300 | the first condition in list order that is True with type Complete or Failed decides the status |
| JobStatus.TerminalIffDecided | internal/backend/k8s/apply.go:292-305 | the status is Complete or Failed iff some condition decides |
| JobStatus.FirstDeciding | internal/backend/k8s/apply.go:292-300 | when some condition decides, there is a first one |
| JobStatus.GetJobStatus | internal/backend/k8s/apply.go:285-306 | a failed fetch gives the "failed to get job" error, and a fetched job gives StatusOf its conditions and active count |
| JobStatus.StatusNames | internal/backend/k8s/apply.go:285-306 | the status is one of the four names, and distinct statuses have distinct names |
| K8sNaming.HexEncode | internal/backend/k8s/apply.go:261-269 | two lower-case hex digits per byte, high nibble first |
| K8sNaming.GenerateRandomSuffix | internal/backend/k8s/apply.go:261-269 | the hex of the four random bytes, or, when reading them fails, the hex of the clock's nanoseconds modulo 2^32 |
| K8sNaming.SuffixShape | internal/backend/k8s/apply.go:261-269 | the suffix is 1 to 8 lower-case hex digits, and exactly 8 from random bytes |
| K8sNaming.PathPart | internal/backend/k8s/apply.go:243-256 | the cleaned path is within its bound, lower-case and free of `/` |
| K8sNaming.GenerateJobName | internal/backend/k8s/apply.go:237-259 | `baca-job-` + suffix when parsing fails or there is no scheme; otherwise `baca-` + path part + `-` + suffix |
| K8sNaming.JobNameBounded | internal/backend/k8s/apply.go:237-259 | with a suffix of at most 8 hex digits, the name is at most 63 characters, as DNS labels must be (section 2.3.4 of RFC 1035); it is lower-case, starts with `baca-` and ends with `-` + suffix |
| K8sNaming.JobNameSuffixInjective | internal/backend/k8s/apply.go:237-259 | for one URL, distinct suffixes give distinct names |
| K8sNaming.SanitizeLabel | internal/backend/k8s/apply.go:271-283 | the label value is at most 63 characters with no `/`, no `.` and no upper-case letter |
| K8sNaming.SanitizeLabelIdempotent | internal/backend/k8s/apply.go:271-283 | sanitising a sanitised label changes nothing |
| KubeApi.GeminiItems | internal/backend/k8s/apply.go:200-205 | one item per gemini file, with key `GEMINI_` + path and mode 0600 |
| KubeApi.Names | internal/backend/k8s/apply.go:32-44 | the job names in creation order |
| K8sJob.JobSpec | internal/backend/k8s/apply.go:55-235 | defines the job createJob builds: the generated name, the namespace, the labels, TTL 300, the retry count as backoff limit, and PodFor's pod |
| K8sJob.PodFor | internal/backend/k8s/apply.go:66-210 | defines the pod: fork-setup and git-clone init containers, the runner, the workspace volume, and the gemini OAuth mount and volume for gemini-cli |
| K8sJob.CreateJob | internal/backend/k8s/apply.go:55-235 | building the job step by step gives JobSpec |
| K8sJob.AssemblePod | internal/backend/k8s/apply.go:177-210 | the pod holds the two init containers, the runner and the workspace volume; for gemini-cli the OAuth mount is appended to the runner and the OAuth volume to the volumes |
| K8sJob.JobPipeline | internal/backend/k8s/apply.go:55-235 | init containers fork-setup then git-clone and one runner; every container uses the Change's image, or the default when it is empty; FORK_ORG is set even when empty; the clone uses the branch, or `main`; the backoff limit is the retry count, the TTL is 300 and the restart policy is Never |
| K8sJob.PodPipeline | internal/backend/k8s/apply.go:66-182 | the same pipeline facts about the pod alone |
| K8sJob.JobCredentials | internal/backend/k8s/apply.go:66-210 | every container imports exactly the `baca-credentials` secret and mounts the workspace first; the OAuth volume and its mount are present iff the agent is gemini-cli, and otherwise the workspace is the only volume |
| K8sJob.PodCredentials | internal/backend/k8s/apply.go:66-210 | the same credential wiring about the pod alone |
| K8sJob.GeminiVolumeShape | internal/backend/k8s/apply.go:185-210 | the OAuth volume is `gemini-oauth` from `baca-credentials`, optional, with the four items at mode 0600, and its mount at `/root/.gemini` is read-only |
| K8sJob.JobMetadata | internal/backend/k8s/apply.go:212-232 | the name is at most 63 characters, the job is in the backend's namespace, the labels are exactly the five keys, and the repo label is the sanitised URL |
| K8sJob.Jobs | internal/backend/k8s/apply.go:32-44 | one job per repository |
| K8sJob.ApplyChange | internal/backend/k8s/apply.go:28-53 | jobs are created in repository order and the first refusal stops creation with that repository's error; with no refusal and no wait it returns success with one job per repository; with wait it returns monitorJobs' verdict over the created jobs |
| LegacyJob.ResourceSteps | internal/backend/apply.go:173-175 | one curl step per resource, resource i to `resource-i.md`, in list order; the same code is at internal/backend/kubernetes.go:249-251 |
| LegacyJob.ScriptSteps | internal/backend/apply.go:151-188 | defines the script's steps: the setup steps, agents.md when given, the resource steps, the copilot export for copilot-cli, the agent step and `gh pr create --fill`; the same code is at internal/backend/kubernetes.go:227-264 |
| LegacyJob.BuildJobScript | internal/backend/apply.go:151-188 | the steps appended one by one, joined with ` && `; the same code is at internal/backend/kubernetes.go:227-264 |
| LegacyJob.AppendResourceSteps | internal/backend/apply.go:173-175 | the loop appends exactly the resource steps; the same code is at internal/backend/kubernetes.go:249-251 |
| LegacyJob.ScriptLayout | internal/backend/apply.go:155-187 | 9 + [agents.md] + resources + [copilot] + 2 steps; the nine setup steps come first, starting with `set -e`; agents.md, the resources and the copilot export follow, the export only for copilot and right before the agent step; the last two steps are the agent command and `gh pr create --fill`; the same code is at internal/backend/kubernetes.go:231-263 |
| LegacyJob.CopilotExportIff | internal/backend/apply.go:179-181 | the COPILOT_TOKEN export is a step iff the agent is copilot-cli; the same code is at internal/backend/kubernetes.go:255-257 |
| LegacyJob.ScriptStepNotExport | internal/backend/apply.go:179-181 | for another agent no step is that export; the same code is at internal/backend/kubernetes.go:255-257 |
| LegacyJob.LegacyJobName | internal/backend/apply.go:190-206 | `bca-job` when parsing fails, otherwise `bca-` + the path part cut to 50 characters; the same code is at internal/backend/kubernetes.go:266-282 |
| LegacyJob.LegacyJobNameBounded | internal/backend/apply.go:190-206 | the name is at most 54 characters, lower-case and starts with `bca-`; the same code is at internal/backend/kubernetes.go:266-282 |
| LegacyJob.CreateJob | internal/backend/apply.go:45-149 | building the job step by step gives LegacyJobSpec with the built script; the same code is at internal/backend/kubernetes.go:121-225 |
| LegacyJob.LegacyJobSpec | internal/backend/apply.go:45-149 | defines the job createJob builds: one runner container running the script, its environment and credentials, and the gemini volume for gemini-cli; the same code is at internal/backend/kubernetes.go:121-225 |
| LegacyJob.LegacyJobShape | internal/backend/apply.go:52-141 | no init containers and one runner running the script; the Change's image or the default; env REPO_URL, AGENT, AGENTS_MD, PROMPT in that order; the `bca-credentials` secret; backoff 3, TTL 3600; the OAuth volume is the only volume, present iff the agent is gemini-cli; the same code is at internal/backend/kubernetes.go:128-217 |
| LegacyJob.LegacyJobs | internal/backend/apply.go:22-25 | one job per repository; the same code is at internal/backend/kubernetes.go:98-101 |
| LegacyJob.ApplyChange | internal/backend/apply.go:18-43 | the same creation and verdict rules as the Kubernetes backend, with monitorJobs printing no logs; the same code is at internal/backend/kubernetes.go:94-119 |
| LegacySetup.Cluster.constructor | internal/backend/setup.go:12-62 | a cluster with the given namespaces and secrets and no calls yet; the same code is at internal/backend/kubernetes.go:42-92 |
| LegacySetup.Cluster.CreateNamespace | internal/backend/setup.go:22 | succeeds iff no fault and the namespace is new, adding it; the same code is at internal/backend/kubernetes.go:52 |
| LegacySetup.Cluster.GetNamespace | internal/backend/setup.go:24 | succeeds iff no fault and the namespace exists, changing nothing; the same code is at internal/backend/kubernetes.go:54 |
| LegacySetup.Cluster.CreateSecret | internal/backend/setup.go:44 | succeeds iff no fault, the namespace exists and the secret is new, storing it; the same code is at internal/backend/kubernetes.go:74 |
| LegacySetup.Cluster.GetSecret | internal/backend/setup.go:47 | returns the stored secret iff no fault and it exists; the same code is at internal/backend/kubernetes.go:77 |
| LegacySetup.Cluster.UpdateSecret | internal/backend/setup.go:53 | replaces an existing secret iff no fault; the same code is at internal/backend/kubernetes.go:83 |
| LegacySetup.Setup | internal/backend/setup.go:12-62 | the namespace step comes first: any Create error falls back to Get, and a failing Get stops before any secret call; a new secret is created; after a failed Create the secret is fetched, its StringData is replaced by the credentials and it is updated; a failing Get or Update is an error and leaves the secrets alone; success leaves the namespace present and the secret holding the credentials; the same code is at internal/backend/kubernetes.go:42-92 |
| LegacySetup.SetupTwice | internal/backend/setup.go:44-56 | after two Setups, every key of the second map holds the second value; the same code is at internal/backend/kubernetes.go:74-86 |
| McpGitHub.NewClient | internal/mcp/github.go:27-39 | the client's name is github, it is available iff `gh` is authenticated, and its gathering is GatheredFrom |
| McpGitHub.Search | internal/mcp/github.go:80-183 | one search equals Searched |
| McpGitHub.GatherContext | internal/mcp/github.go:42-77 | the loop over the repositories equals GatheredFrom and never fails |
| McpGitHub.GatherRepo | internal/mcp/github.go:48-74 | one repository's items equal RepoItems |
| McpGitHub.Item | internal/mcp/github.go:110-127 | defines the context item built from one listed issue or pull request |
| McpGitHub.Searched | internal/mcp/github.go:80-130 | defines one search's outcome: the run error, the JSON error, or one item per listed entry |
| McpGitHub.GatheredFrom | internal/mcp/github.go:42-77 | defines the gathered items: each repository's issues then pull requests, in repository order |
| McpGitHub.ItemShape | internal/mcp/github.go:110-127 | an item has source github, type issue or pull_request, ID `#n`, metadata exactly number, state and repo, and the entry's URL, title and author |
| McpGitHub.ItemContentShape | internal/mcp/github.go:110-127 | the content starts with the heading and ends with the body |
| McpGitHub.SearchedOutcome | internal/mcp/github.go:80-130 | a search succeeds iff `gh` listed entries, giving one item per entry in order; a run error and a JSON error are reported as such |
| McpGitHub.GatheredFromAppend | internal/mcp/github.go:42-77 | gathering over two lists of repositories is the concatenation |
| McpGitHub.SearchedShape | internal/mcp/github.go:80-183 | every item of a search carries its kind and its owner/repo |
| McpGitHub.RepoItemsShape | internal/mcp/github.go:48-74 | a repository named by an empty owner/repo contributes nothing, and its items are issues and pull requests of that repository |
| McpGitHub.GatheredFromShape | internal/mcp/github.go:42-77 | every gathered item is an issue or pull request of some repository in the list |
| McpGitHub.ExtractOwnerRepo | internal/mcp/github.go:186-207 | defines extractOwnerRepo: drop one trailing `.git`, then take what follows the single `github.com/`, else what follows the single `git@github.com:`, else the empty string |
| McpGitHub.ExtractedFollowsHost | internal/mcp/github.go:186-207 | a non-empty result is what follows the only `github.com/`, or the only `git@github.com:`, in the URL without `.git` |
| McpGitHub.ExtractHttps | internal/mcp/github.go:186-196 | `https://github.com/` + path gives the path without one `.git` |
| McpGitHub.ExtractSsh | internal/mcp/github.go:198-206 | `git@github.com:` + path gives the path without one `.git` |
| McpGitHub.SshHostHidesHttpsHost | internal/mcp/github.go:186-206 | `github.com/` does not start inside the `git@github.com:` prefix |
| McpManager.Manager.constructor | internal/mcp/manager.go:16-21 | a manager without clients |
| McpManager.Manager.RegisterClient | internal/mcp/manager.go:24-27 | stores the client under its name, replacing any earlier one |
| McpManager.Manager.GetClient | internal/mcp/manager.go:30-33 | found iff the source is registered, and the client found has that name |
| McpManager.Manager.GatherContext | internal/mcp/manager.go:36-67 | never fails and returns Gathered: in source order, the items of every registered, available client whose gathering succeeded |
| McpManager.Manager.GetAvailableSources | internal/mcp/manager.go:70-78 | exactly the registered available sources, each once |
| McpManager.GatherOne | internal/mcp/manager.go:38-64 | one source's contribution |
| McpManager.GatheredAppend | internal/mcp/manager.go:36-67 | gathering over two lists of sources is the concatenation |
| McpManager.GatheredInOrder | internal/mcp/manager.go:36-67 | a source's items follow those of the sources before it |
| McpManager.GatheredFromUsable | internal/mcp/manager.go:36-67 | every gathered item comes from a usable source's result |
| McpManager.UsableContributesAll | internal/mcp/manager.go:53-64 | a usable source contributes all its items |
| McpManager.ParseSources | internal/mcp/manager.go:81-103 | the empty string gives no sources; otherwise the trimmed comma-separated parts are parsed as by ParseParts |
| McpManager.ParseParts | internal/mcp/manager.go:86-102 | success iff every part is github or slack, with one source per part in order; otherwise the error names the first other part |
| McpManager.ManualRefused | internal/mcp/manager.go:90-99 | a `manual` part is refused |
| SetupCommand.FlagOrEnv | cmd/setup.go:66-74 | the flag when non-empty, else the environment value, so empty iff both are |
| SetupCommand.AddGeminiFiles | cmd/setup.go:113-129 | reads the four gemini files; success iff all are read, adding `GEMINI_` + file for each; a failure names an unread file |
| SetupCommand.AddFiles | cmd/setup.go:122-129 | the same loop over any file list |
| SetupCommand.RunSetup | cmd/setup.go:58-149 | Setup is called iff the token checks, the home directory, every file read and the backend succeed, and then with the assembled map; an empty GitHub token, an API key with OAuth, a home-directory failure and a read failure each return their error: a failed read of a gemini file gives ReadFailed, and ReadFailed names a file whose read failed |
| SetupCommand.Credentials | cmd/setup.go:82-129 | defines the credential map passed to Setup: the token keys, plus the `GEMINI_` file contents when `--gemini-oauth` is set |
| SetupCommand.OAuthCredentialsShape | cmd/setup.go:122-129 | the OAuth keys are exactly `GEMINI_` + file, each holding that file's content |
| SetupCommand.TokenCredentialsShape | cmd/setup.go:82-103 | GITHUB_TOKEN always; COPILOT_TOKEN iff a Copilot token is given; GEMINI_API_KEY iff an API key is given; no other keys |
| SetupCommand.MergedShape | cmd/setup.go:82-129 | adding the OAuth keys never disturbs the token keys |
| SetupCommand.CredentialsShape | cmd/setup.go:66-129 | the map holds the token keys as above and the four OAuth keys iff `--gemini-oauth` is set |
| SetupCommand.OAuthKeysMatchVolume | cmd/setup.go:114-128 | the OAuth keys are exactly the keys of the gemini-oauth volume items |
| WorkflowRefiner.WriteClarifications | internal/workflow/refiner.go:36-41 | the loop writes UserLines of the log |
| WorkflowRefiner.WriteContexts | internal/workflow/refiner.go:47-54 | the loop writes ContextBlocks of the contexts |
| WorkflowRefiner.RefinePrompt | internal/workflow/refiner.go:22-58 | never fails, and returns the overview, the clarifications and the context section |
| WorkflowRefiner.GenerateQuestions | internal/workflow/refiner.go:61-73 | the four fixed questions |
| WorkflowRefiner.QuestionsIgnorePrompt | internal/workflow/refiner.go:61-73 | the questions do not depend on the prompt |
| WorkflowRefiner.Refined | internal/workflow/refiner.go:22-58 | defines the refined prompt: the overview, the clarifications section and the context section |
| WorkflowRefiner.RefinedStartsWithOverview | internal/workflow/refiner.go:29-31 | the result starts with `# Task Overview\n` + the prompt + `\n\n` |
| WorkflowRefiner.UserLinesAppend | internal/workflow/refiner.go:36-41 | a user message adds `- content\n` at the end, and any other message adds nothing |
| WorkflowRefiner.NoUserNoLines | internal/workflow/refiner.go:36-41 | a log without user messages adds no lines |
| WorkflowRefiner.ClarificationsIffLog | internal/workflow/refiner.go:34-42 | the clarifications section is present iff the log is non-empty, and starts with its heading |
| WorkflowRefiner.ContextSectionIffContext | internal/workflow/refiner.go:45-55 | the context section is present iff there is context, and starts with its heading |
| WorkflowRefiner.ContextBlockShape | internal/workflow/refiner.go:47-54 | each item is its heading, a `Source:` line iff it has a URL, then its content |
| WorkflowRefiner.ContextBlocksAppend | internal/workflow/refiner.go:47-54 | the blocks follow the items in order |
| WorkflowSession.Min | internal/workflow/session.go:74-79 | the smaller of the two arguments |
| WorkflowSession.Session.constructor | internal/workflow/session.go:11-20 | the initial prompt is set, the log and the context are empty, and the session is not complete |
| WorkflowSession.Session.AddMessage | internal/workflow/session.go:23-29 | appends exactly one message and changes nothing else |
| WorkflowSession.Session.AddContext | internal/workflow/session.go:32-35 | appends exactly one context item and changes nothing else |
| WorkflowSession.Session.SetRefinedPrompt | internal/workflow/session.go:38-46 | sets the refined prompt and completes the session, keeping the log and the context |
| WorkflowSession.Session.GetContextSummary | internal/workflow/session.go:58-72 | the loop builds ContextSummary of the gathered context |
| WorkflowSession.AppendItem | internal/workflow/session.go:65-69 | one item's line is appended |
| WorkflowSession.Lifecycle | internal/workflow/session.go:11-46 | a session is incomplete until SetRefinedPrompt, and then holds exactly what was added |
| WorkflowSession.ContextSummary | internal/workflow/session.go:58-72 | defines the summary: the no-context sentence, or the count header followed by one line per item |
| WorkflowSession.SummaryOfNothing | internal/workflow/session.go:58-64 | the summary is `No additional context gathered.` exactly when there is no context, and otherwise starts with the count header |
| WorkflowSession.ItemLinesPrefix | internal/workflow/session.go:64-70 | the lines of the first items are a prefix of all the lines |
| WorkflowSession.SummaryListsEachItem | internal/workflow/session.go:58-72 | the summary is the count header followed by each item's line, in order |
| WorkflowSession.ItemLineShape | internal/workflow/session.go:65-69 | the snippet is the content's first min(100, length) characters, and the line has a URL line iff the item has a URL |

## Code and tests disagree

The model follows the code. These lemmas show where a test of the
repository expects something else:

- Default image. tests/backend/apply_test.go:156 expects
  `ghcr.io/manno/baca-runner:latest`. The Kubernetes backend's
  `DefaultImage` is `ghcr.io/manno/background-coder:latest`
  (`CodeAndTests.DefaultImageDiffersFromTest`).
- Older job names. internal/backend/apply_test.go:16-25 expects
  `bca-manno-fleet-` followed by something. The older generateJobName
  returns exactly `bca-manno-fleet` (`CodeAndTests.LegacyNameHasNoSuffix`,
  `CodeAndTests.TestedFleetIsPlain`).
- The `bca-job-` fallback. Lines 46-55 of the same test expect `bca-job-`
  for `not-a-valid-url`. url.Parse accepts that string as a relative path
  with no error and no scheme, so the older code names the job
  `bca-not-a-valid-url`. A real parse error gives `bca-job` with no `-`
  (`CodeAndTests.LegacyFallbackIsNotTested`,
  `CodeAndTests.TestedInvalidUrlIsPlain`).
- Uniqueness. Lines 87-105 of the same test expect 100 distinct names for
  one URL. The older name is a function of the URL alone
  (`LegacyJob.LegacyJobName`), so every call gives the same name.
- Secret names. The older Setup writes `bca-credentials`
  (internal/backend/setup.go:35). Jobs of the Kubernetes backend import
  `baca-credentials` (internal/backend/k8s/apply.go:99), so the older Setup
  does not provide their credentials (`CodeAndTests.SecretNamesDiffer`).

## Notes on monitorJobs

The verdict of monitorJobs is decided by one tick alone. Two kinds of job
skip the `allDone` / `anyFailed` updates:

- a job whose recorded status is terminal;
- a job whose status query failed.

So "all jobs succeeded" does not mean that no job failed:

- `JobMonitor.EarlierFailureHidden` runs two jobs. Job `a` fails on the
  first tick while `b` is still running. On the next tick `a` is skipped
  and `b` completes. The run reports success.
- `JobMonitor.AllQueriesFailingSucceeds`: a first tick on which every
  query fails reports success with nothing recorded.

What is proved is what the code does guarantee (`JobMonitor.MonitorVerdicts`,
`JobMonitor.MonitorInvariants`).

In these details the code does the following:

- The older Setup falls back to Get after any namespace Create error, not
  only "already exists".
- The older Setup replaces the fetched secret's StringData with the new
  credentials. It does not merge them.
- The timestamp fallback of generateRandomSuffix is the hex of a 32-bit
  value without padding, so it has 1 to 8 digits.
- The path part of a job name is cut to 49 characters whatever the
  suffix's length.

## Left out

- Log printing and logging: printPodLogs, printContainerLogs and
  logJobSummary are not modelled. Printing is the event "logs of job j
  emitted", and slog output is not modelled.
- Clocks and concurrency: the 5-second ticker racing the 30-minute timeout
  becomes a tick budget. A tick budget of zero stands for a timeout before
  the first tick.
- Randomness: crypto/rand and time.Now are inputs (the random bytes, the
  nanosecond time, or the suffix itself). Uniqueness of random suffixes
  cannot be stated. `K8sNaming.JobNameSuffixInjective` says what the code
  guarantees instead.
- Foreign libraries are inputs or simplified:
  - url.Parse outcomes (`ParsedUrl`, `GitClone.Parser`);
  - url.URL.String, without escaping;
  - filepath.Base, for slash-separated paths;
  - json.Marshal, as the CONFIG value's outcome;
  - YAML unmarshalling, as a function from text to a Change.
- External systems are oracles: the Kubernetes client, the `gh` CLI,
  exec.Command, HTTP and the file system. The API server's merge of
  StringData into Data is not modelled.
- Go strings are sequences of characters assumed to be ASCII. Lower-casing
  and space trimming cover ASCII only.
- The embedded scripts fork-setup.sh and job-runner.sh are opaque text in
  `K8sJob.Backend`.
- The Kubernetes backend's own Setup is not part of this model. The
  `setup` command calls it as the `setup` oracle.
- SetupCommand.AddGeminiFiles ranges over a Go map, whose iteration order
  varies. The model reads the files in one fixed order. So it states only
  that a failure names some file that could not be read, not which one.
- LegacySetup.Cluster models only the store semantics the calls rely on.
  Create fails if the object exists; Get and Update fail if it does not.
  Faults are parameters.
- AgentExecutor.Execute returns the metadata outcome only as an extra
  out-parameter, because the code only logs it.
- Session.GetConversationHistory (RFC 3339 time formatting), the session
  UUID and the AddContext timestamp are left out.
- McpGitHub.NewClient takes `gh auth status` as a boolean
  (IsAvailable). The Slack source has no client in the code.
- CLI plumbing (the cmd files other than the credential assembly of
  setup.go), the interactive workflow agent, the constant workflow file of
  the GitHub Actions setup, and the client and scheme loading are outside
  the modelled core.
