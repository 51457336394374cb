/**
 * createJob and ApplyChange of the Kubernetes backend
 * (internal/backend/k8s/apply.go).  The embedded scripts are opaque text in
 * the backend value, the JSON encoding of the Change is an input, and so are
 * the cluster's answers to Create.
 */
module K8sJob {
  import opened Wrappers
  import opened Strings
  import opened Change
  import opened KubeApi
  import opened K8sNaming
  import opened JobMonitor

  /** internal/backend/k8s/kubernetes.go */
  const DefaultImage := "ghcr.io/manno/background-coder:latest"
  const CredentialsSecret := "baca-credentials"

  /** KubernetesBackend: its namespace and the two embedded scripts. */
  datatype Backend = Backend(namespace: string, forkSetupScript: string, jobScript: string)

  function ImageFor(spec: ChangeSpec): string {
    if spec.image == "" then DefaultImage else spec.image
  }

  function BranchFor(spec: ChangeSpec): string {
    if spec.branch == "" then "main" else spec.branch
  }

  /** The git-clone container's shell command for a branch. */
  function CloneCommand(branch: string): string {
    "FORK_URL=$(cat /workspace/fork-url.txt); fleet gitcloner --branch " + branch + " \"$FORK_URL\" /workspace/repo"
  }

  /** The CONFIG value: the marshalled spec, or "{}" when marshalling failed. */
  function ConfigValue(marshalled: Result<string, string>): string {
    match marshalled
    case Ok(json) => json
    case Err(_) => "{}"
  }

  const WorkspaceVolume := Volume("workspace", EmptyDir)
  const WorkspaceMount := VolumeMount("workspace", "/workspace", false)

  function Labels(repoURL: string): map<string, string> {
    map["app" := "background-automated-code-agent",
        "app.kubernetes.io/name" := "baca",
        "app.kubernetes.io/component" := "job",
        "app.kubernetes.io/managed-by" := "baca-cli",
        "repo" := SanitizeLabel(repoURL)]
  }

  function ForkSetupContainer(b: Backend, image: string, repoURL: string, forkOrg: string): Container {
    Container("fork-setup", image, PullIfNotPresent, ["sh", "-c", b.forkSetupScript],
              [EnvVar("ORIGINAL_REPO_URL", repoURL), EnvVar("FORK_ORG", forkOrg)],
              [CredentialsSecret], [WorkspaceMount])
  }

  function GitCloneContainer(image: string, branch: string): Container {
    Container("git-clone", image, PullIfNotPresent, ["sh", "-c", CloneCommand(branch)],
              [], [CredentialsSecret], [WorkspaceMount])
  }

  function RunnerContainer(b: Backend, image: string, spec: ChangeSpec, repoURL: string,
                           marshalled: Result<string, string>): Container {
    Container("runner", image, PullIfNotPresent, ["bash", "-c", b.jobScript],
              [EnvVar("CONFIG", ConfigValue(marshalled)), EnvVar("REPO_URL", repoURL),
               EnvVar("ORIGINAL_REPO_URL", repoURL), EnvVar("PROMPT", spec.prompt)],
              [CredentialsSecret], [WorkspaceMount])
  }

  /**
   * The job createJob builds, stated as one value: the gemini mount and
   * volume are present exactly for the gemini-cli agent.  `url` is what
   * url.Parse made of the repository URL, `suffix` the random suffix.
   */
  function JobSpec(b: Backend, spec: ChangeSpec, repoURL: string, retries: int, forkOrg: string,
                   url: ParsedUrl, suffix: string, marshalled: Result<string, string>): Job
  {
    Job(GenerateJobName(url, suffix), b.namespace, Labels(repoURL), Some(300), Some(retries),
        PodFor(b, spec, repoURL, forkOrg, marshalled))
  }

  function PodFor(b: Backend, spec: ChangeSpec, repoURL: string, forkOrg: string,
                  marshalled: Result<string, string>): PodSpec
  {
    var image := ImageFor(spec);
    var gemini := spec.agent == "gemini-cli";
    var runner := RunnerContainer(b, image, spec, repoURL, marshalled);
    PodSpec(RestartNever,
            [ForkSetupContainer(b, image, repoURL, forkOrg), GitCloneContainer(image, BranchFor(spec))],
            [runner.(volumeMounts := runner.volumeMounts + if gemini then [GeminiMount] else [])],
            [WorkspaceVolume] + if gemini then [GeminiVolume(CredentialsSecret)] else [])
  }

  /**
   * createJob, step by step: the name, the image and branch with their
   * defaults, the three containers, then the pod (AssemblePod) and the job.
   */
  method CreateJob(b: Backend, spec: ChangeSpec, repoURL: string, retries: int, forkOrg: string,
                   url: ParsedUrl, suffix: string, marshalled: Result<string, string>) returns (job: Job)
    ensures job == JobSpec(b, spec, repoURL, retries, forkOrg, url, suffix, marshalled)
  {
    var jobName := GenerateJobName(url, suffix);
    var image, branch := ImageFor(spec), BranchFor(spec);
    var podSpec := AssemblePod(RestartNever, ForkSetupContainer(b, image, repoURL, forkOrg),
                               GitCloneContainer(image, branch), RunnerContainer(b, image, spec, repoURL, marshalled),
                               WorkspaceVolume, spec.agent == "gemini-cli", GeminiMount, GeminiVolume(CredentialsSecret));
    job := Job(jobName, b.namespace, Labels(repoURL), Some(300), Some(retries), podSpec);
  }

  /**
   * The pod of createJob: the two init containers, the runner and the
   * workspace volume; for gemini-cli the OAuth mount is appended to the
   * runner, the runner is stored back, and the OAuth volume is appended.
   */
  method AssemblePod(restart: string, forkSetup: Container, gitClone: Container, container: Container,
                     workspace: Volume, gemini: bool, mount: VolumeMount, oauth: Volume) returns (podSpec: PodSpec)
    ensures podSpec == PodSpec(restart, [forkSetup, gitClone],
                               [container.(volumeMounts := container.volumeMounts + if gemini then [mount] else [])],
                               [workspace] + if gemini then [oauth] else [])
  {
    var runner := container;
    podSpec := PodSpec(restart, [forkSetup, gitClone], [runner], [workspace]);
    if gemini {
      runner := runner.(volumeMounts := runner.volumeMounts + [mount]);
      podSpec := podSpec.(containers := podSpec.containers[0 := runner]);
      podSpec := podSpec.(volumes := podSpec.volumes + [oauth]);
      assert podSpec.containers == [runner];
    } else {
      assert container.(volumeMounts := container.volumeMounts + []) == container;
      assert [workspace] + [] == [workspace];
    }
  }

  /** The pipeline: fork-setup then git-clone as init containers, one runner,
    * all on the Change's image or the default, with the Change's branch or
    * "main", FORK_ORG always set, retries as the backoff limit, a 300 s TTL
    * and restart policy Never. */
  lemma JobPipeline(b: Backend, spec: ChangeSpec, repoURL: string, retries: int, forkOrg: string,
                    url: ParsedUrl, suffix: string, marshalled: Result<string, string>)
    ensures var job := JobSpec(b, spec, repoURL, retries, forkOrg, url, suffix, marshalled);
      var pod := job.pod;
      && |pod.initContainers| == 2 && pod.initContainers[0].name == "fork-setup" && pod.initContainers[1].name == "git-clone"
      && |pod.containers| == 1 && pod.containers[0].name == "runner"
      && (forall c :: c in pod.initContainers + pod.containers ==>
            c.image == (if spec.image == "" then DefaultImage else spec.image) && c.pullPolicy == PullIfNotPresent)
      && EnvVar("FORK_ORG", forkOrg) in pod.initContainers[0].env
      && pod.initContainers[1].command ==
           ["sh", "-c", CloneCommand(if spec.branch == "" then "main" else spec.branch)]
      && pod.containers[0].command == ["bash", "-c", b.jobScript]
      && EnvVar("PROMPT", spec.prompt) in pod.containers[0].env
      && job.backoffLimit == Some(retries) && job.ttlSecondsAfterFinished == Some(300)
      && pod.restartPolicy == RestartNever
  {
    PodPipeline(b, spec, repoURL, forkOrg, marshalled);
  }

  lemma PodPipeline(b: Backend, spec: ChangeSpec, repoURL: string, forkOrg: string,
                    marshalled: Result<string, string>)
    ensures var pod := PodFor(b, spec, repoURL, forkOrg, marshalled);
      && |pod.initContainers| == 2 && pod.initContainers[0].name == "fork-setup" && pod.initContainers[1].name == "git-clone"
      && |pod.containers| == 1 && pod.containers[0].name == "runner"
      && (forall c :: c in pod.initContainers + pod.containers ==>
            c.image == (if spec.image == "" then DefaultImage else spec.image) && c.pullPolicy == PullIfNotPresent)
      && EnvVar("FORK_ORG", forkOrg) in pod.initContainers[0].env
      && pod.initContainers[1].command ==
           ["sh", "-c", CloneCommand(if spec.branch == "" then "main" else spec.branch)]
      && pod.containers[0].command == ["bash", "-c", b.jobScript]
      && EnvVar("PROMPT", spec.prompt) in pod.containers[0].env
      && pod.restartPolicy == RestartNever
  {
    var pod := PodFor(b, spec, repoURL, forkOrg, marshalled);
    var all := pod.initContainers + pod.containers;
    assert all == [pod.initContainers[0], pod.initContainers[1], pod.containers[0]];
    assert pod.initContainers[0].env[1] == EnvVar("FORK_ORG", forkOrg);
    assert pod.containers[0].env[3] == EnvVar("PROMPT", spec.prompt);
  }

  /** Credentials: every container imports baca-credentials and mounts the
    * workspace; the gemini OAuth volume and its read-only mount on the
    * runner are there iff the agent is gemini-cli. */
  lemma JobCredentials(b: Backend, spec: ChangeSpec, repoURL: string, retries: int, forkOrg: string,
                       url: ParsedUrl, suffix: string, marshalled: Result<string, string>)
    ensures var pod := JobSpec(b, spec, repoURL, retries, forkOrg, url, suffix, marshalled).pod;
      && |pod.initContainers| == 2 && |pod.containers| == 1
      && (forall c :: c in pod.initContainers + pod.containers ==>
            c.envFrom == [CredentialsSecret] && |c.volumeMounts| >= 1 && c.volumeMounts[0] == WorkspaceMount)
      && (spec.agent == "gemini-cli" ==>
            pod.volumes == [WorkspaceVolume, GeminiVolume(CredentialsSecret)] &&
            pod.containers[0].volumeMounts == [WorkspaceMount, GeminiMount])
      && (spec.agent != "gemini-cli" ==>
            pod.volumes == [WorkspaceVolume] && pod.containers[0].volumeMounts == [WorkspaceMount])
      && (forall c :: c in pod.initContainers ==> c.volumeMounts == [WorkspaceMount])
  {
    PodCredentials(b, spec, repoURL, forkOrg, marshalled);
  }

  lemma PodCredentials(b: Backend, spec: ChangeSpec, repoURL: string, forkOrg: string,
                       marshalled: Result<string, string>)
    ensures var pod := PodFor(b, spec, repoURL, forkOrg, marshalled);
      && |pod.initContainers| == 2 && |pod.containers| == 1
      && (forall c :: c in pod.initContainers + pod.containers ==>
            c.envFrom == [CredentialsSecret] && |c.volumeMounts| >= 1 && c.volumeMounts[0] == WorkspaceMount)
      && (spec.agent == "gemini-cli" ==>
            pod.volumes == [WorkspaceVolume, GeminiVolume(CredentialsSecret)] &&
            pod.containers[0].volumeMounts == [WorkspaceMount, GeminiMount])
      && (spec.agent != "gemini-cli" ==>
            pod.volumes == [WorkspaceVolume] && pod.containers[0].volumeMounts == [WorkspaceMount])
      && (forall c :: c in pod.initContainers ==> c.volumeMounts == [WorkspaceMount])
  {
    var pod := PodFor(b, spec, repoURL, forkOrg, marshalled);
    var all := pod.initContainers + pod.containers;
    assert all == [pod.initContainers[0], pod.initContainers[1], pod.containers[0]];
  }

  /** The gemini OAuth volume: four items from "GEMINI_"-prefixed keys, mode
    * 0600, optional, read from baca-credentials; the mount is read-only. */
  lemma GeminiVolumeShape()
    ensures var v := GeminiVolume(CredentialsSecret);
      && v.name == "gemini-oauth" && v.source.SecretVolume?
      && v.source.secretName == "baca-credentials" && v.source.optional == Some(true)
      && |v.source.items| == 4
      && (forall i :: 0 <= i < 4 ==> v.source.items[i] == KeyToPath("GEMINI_" + GeminiFiles[i], GeminiFiles[i], Some(Mode0600)))
    ensures GeminiMount.readOnly && GeminiMount.mountPath == "/root/.gemini"
  {
  }

  /** Name and labels: a bounded lower-case name and the fixed label set with
    * the sanitized repository URL. */
  lemma JobMetadata(b: Backend, spec: ChangeSpec, repoURL: string, retries: int, forkOrg: string,
                    url: ParsedUrl, suffix: string, marshalled: Result<string, string>)
    requires |suffix| <= SuffixLen && IsLowerHex(suffix)
    ensures var job := JobSpec(b, spec, repoURL, retries, forkOrg, url, suffix, marshalled);
      && |job.name| <= MaxNameLen && job.namespace == b.namespace
      && job.labels.Keys == {"app", "app.kubernetes.io/name", "app.kubernetes.io/component",
                             "app.kubernetes.io/managed-by", "repo"}
      && job.labels["repo"] == SanitizeLabel(repoURL) && |job.labels["repo"]| <= MaxNameLen
      && job.labels["app.kubernetes.io/managed-by"] == "baca-cli"
  {
    JobNameBounded(url, suffix);
  }

  // ---------------------------------------------------------------------------
  // ApplyChange

  /** The jobs ApplyChange creates, one per repository. */
  function Jobs(b: Backend, spec: ChangeSpec, retries: int, forkOrg: string,
                parse: string -> ParsedUrl, suffix: nat -> string, marshalled: Result<string, string>): (r: seq<Job>)
    ensures |r| == |spec.repos|
  {
    seq(|spec.repos|, i requires 0 <= i < |spec.repos| =>
      JobSpec(b, spec, spec.repos[i], retries, forkOrg, parse(spec.repos[i]), suffix(i), marshalled))
  }

  /**
   * ApplyChange: one job per repository, in order.  `parse` is url.Parse,
   * `suffix(i)` the random suffix drawn for the i-th job, `create(i, job)` the
   * cluster's answer to creating it; monitoring (when `wait`) observes the
   * cluster through `observe` for at most `maxTicks` ticks.  `created` holds
   * the jobs the cluster accepted: the first ones of Jobs(...).
   */
  method ApplyChange(b: Backend, spec: ChangeSpec, wait: bool, retries: int, forkOrg: string,
                     parse: string -> ParsedUrl, suffix: nat -> string, marshalled: Result<string, string>,
                     create: (nat, Job) -> Result<(), string>, observe: Observer, maxTicks: nat)
    returns (out: ApplyOutcome, created: seq<Job>)
    ensures var jobs := Jobs(b, spec, retries, forkOrg, parse, suffix, marshalled);
      && created <= jobs
      && (forall i :: 0 <= i < |created| ==> create(i, created[i]).Ok?)
      && (out.CreateFailed? <==> |created| < |spec.repos|)
      && (out.CreateFailed? ==>
            var res := create(|created|, jobs[|created|]);
            res.Err? && out == CreateFailed(spec.repos[|created|], res.error))
    ensures !out.CreateFailed? && !wait ==> out == Applied
    ensures !out.CreateFailed? && wait ==>
      out == Monitored(Run(Names(created), observe, true, maxTicks, Initial).0)
  {
    var jobs := Jobs(b, spec, retries, forkOrg, parse, suffix, marshalled);
    out, created := CreateJobs(spec.repos, jobs, create);
    if out.Applied? && wait {
      var r, _ := MonitorJobs(Names(created), observe, true, maxTicks);
      out := Monitored(r);
    }
  }
}
