/**
 * The GitHub Actions backend's ApplyChange (internal/backend/gha/apply.go):
 * one workflow_dispatch request per repository of the Change, all sent to
 * the workflow repository "owner/repo", stopping at the first request the
 * API refuses.  The API's answer to the i-th request (counting from 0) is
 * `respond(i)`: None for success, Some(error) otherwise.
 */
module GhaApply {
  import opened Wrappers
  import opened Strings
  import opened Change

  /** A workflow_dispatch request. */
  datatype Dispatch = Dispatch(owner: string, repo: string, workflowFile: string, ref: string,
                               inputs: map<string, string>)

  const InvalidRepoFormat := "invalid repo format, expected 'owner/repo'"
  const DispatchRef := "main"

  /** The workflow inputs taken from the Change; the resources are joined with ",". */
  function Inputs(spec: ChangeSpec): map<string, string> {
    map["agent" := spec.agent, "prompt" := spec.prompt, "branch" := spec.branch,
        "agentsmd" := spec.agentsMD, "resources" := Join(spec.resources, ",")]
  }

  function Request(spec: ChangeSpec, owner: string, repo: string, workflowFile: string): Dispatch {
    Dispatch(owner, repo, workflowFile, DispatchRef, Inputs(spec))
  }

  /**
   * ApplyChange.  A workflow repository that is not exactly two "/"-separated
   * parts is refused before any request.  Otherwise the same request is sent
   * once per repository, in order, until one fails: its error is returned and
   * no later repository is dispatched.  `sent` lists the requests sent.
   */
  method ApplyChange(ch: Change, workflowRepo: string, workflowFile: string, respond: nat -> Option<string>)
    returns (r: Result<(), string>, sent: seq<Dispatch>)
    ensures |Split(workflowRepo, "/")| != 2 ==> r == Err(InvalidRepoFormat) && sent == []
    ensures |Split(workflowRepo, "/")| == 2 ==> (
      var parts := Split(workflowRepo, "/");
      && |sent| <= |ch.spec.repos|
      && (forall k :: 0 <= k < |sent| ==> sent[k] == Request(ch.spec, parts[0], parts[1], workflowFile))
      && (r.Ok? <==> forall k :: 0 <= k < |ch.spec.repos| ==> respond(k).None?)
      && (r.Ok? ==> |sent| == |ch.spec.repos|)
      && (r.Err? ==> (|sent| >= 1 && respond(|sent| - 1) == Some(r.error) &&
                      forall k :: 0 <= k < |sent| - 1 ==> respond(k).None?)))
  {
    var parts := Split(workflowRepo, "/");
    if |parts| != 2 {
      return Err(InvalidRepoFormat), [];
    }
    var owner, repo := parts[0], parts[1];
    sent := [];
    var i := 0;
    while i < |ch.spec.repos|
      invariant 0 <= i <= |ch.spec.repos| && |sent| == i
      invariant forall k :: 0 <= k < i ==> sent[k] == Request(ch.spec, owner, repo, workflowFile)
      invariant forall k :: 0 <= k < i ==> respond(k).None?
    {
      var inputs := Inputs(ch.spec);
      var opts := Dispatch(owner, repo, workflowFile, DispatchRef, inputs);
      sent := sent + [opts];
      var err := respond(i);
      if err.Some? {
        return Err(err.value), sent;
      }
      i := i + 1;
    }
    return Ok(()), sent;
  }

  /** The inputs are exactly these five, and the resources survive the
    * workflow's split on "," when none of them contains a comma. */
  lemma InputsShape(spec: ChangeSpec)
    ensures Inputs(spec).Keys == {"agent", "prompt", "branch", "agentsmd", "resources"}
    ensures Inputs(spec)["agent"] == spec.agent && Inputs(spec)["prompt"] == spec.prompt
    ensures Inputs(spec)["branch"] == spec.branch && Inputs(spec)["agentsmd"] == spec.agentsMD
    ensures |spec.resources| >= 1 && (forall k :: 0 <= k < |spec.resources| ==> ',' !in spec.resources[k]) ==>
      Split(Inputs(spec)["resources"], ",") == spec.resources
  {
    if |spec.resources| >= 1 && (forall k :: 0 <= k < |spec.resources| ==> ',' !in spec.resources[k]) {
      SplitJoinInverse(spec.resources, ',');
    }
  }

  /** An "owner/repo" workflow repository without further slashes is accepted
    * and addressed as that owner and repository. */
  lemma WorkflowRepoAccepted(owner: string, repo: string)
    requires '/' !in owner && '/' !in repo
    ensures Split(owner + "/" + repo, "/") == [owner, repo]
  {
    AbsentCharNotContained(repo, "/", '/');
    SplitAround(owner, "/", repo);
  }

  /** A workflow repository without a slash is refused. */
  lemma WorkflowRepoWithoutSlashRefused(workflowRepo: string)
    requires '/' !in workflowRepo
    ensures |Split(workflowRepo, "/")| == 1
  {
    AbsentCharNotContained(workflowRepo, "/", '/');
  }
}
