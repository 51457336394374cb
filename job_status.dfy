/**
 * GetJobStatus (internal/backend/k8s/apply.go, and the identical copy in the
 * legacy backend): a job's conditions and active-pod count mapped to one of
 * four statuses.  Fetching the job from the cluster is an input.
 */
module JobStatus {
  import opened Wrappers

  datatype Status = Pending | Running | Complete | Failed
  {
    /** The string the Go code returns for this status. */
    function Name(): string {
      match this
      case Pending => "Pending"
      case Running => "Running"
      case Complete => "Complete"
      case Failed => "Failed"
    }

    predicate Terminal() { Complete? || Failed? }
  }

  /** A JobCondition: its type and its status ("True", "False", "Unknown"). */
  datatype Condition = Condition(kind: string, status: string)

  /** The part of a fetched Job that GetJobStatus reads. */
  datatype JobObservation = JobObservation(conditions: seq<Condition>, active: int)

  /** A condition that settles the status: Complete or Failed with status True. */
  predicate Decides(c: Condition) {
    c.status == "True" && (c.kind == "Complete" || c.kind == "Failed")
  }

  function Verdict(c: Condition): Status {
    if c.kind == "Complete" then Complete else Failed
  }

  /** The scan over the conditions: the first deciding condition in list order
    * wins; without one, the job is Running iff it has an active pod. */
  function StatusOf(conditions: seq<Condition>, active: int): (r: Status)
    ensures (forall i :: 0 <= i < |conditions| ==> !Decides(conditions[i])) ==>
      r == (if active > 0 then Running else Pending)
  {
    if conditions == [] then (if active > 0 then Running else Pending)
    else if conditions[0].kind == "Complete" && conditions[0].status == "True" then Complete
    else if conditions[0].kind == "Failed" && conditions[0].status == "True" then Failed
    else
      var r := StatusOf(conditions[1..], active);
      assert forall i :: 1 <= i < |conditions| ==> conditions[i] == conditions[1..][i - 1];
      r
  }

  /** The first deciding condition in list order gives the status. */
  lemma {:induction false} FirstDecidingWins(conditions: seq<Condition>, active: int, i: nat)
    requires i < |conditions| && Decides(conditions[i])
    requires forall j :: 0 <= j < i ==> !Decides(conditions[j])
    ensures StatusOf(conditions, active) == Verdict(conditions[i])
  {
    if i > 0 {
      assert !Decides(conditions[0]);
      var rest := conditions[1..];
      assert forall j :: 0 <= j < i - 1 ==> rest[j] == conditions[j + 1];
      FirstDecidingWins(rest, active, i - 1);
    }
  }

  /** The status is terminal exactly when some condition decides it. */
  lemma TerminalIffDecided(conditions: seq<Condition>, active: int)
    ensures StatusOf(conditions, active).Terminal() <==>
      exists i :: 0 <= i < |conditions| && Decides(conditions[i])
  {
    if exists i :: 0 <= i < |conditions| && Decides(conditions[i]) {
      var i :| 0 <= i < |conditions| && Decides(conditions[i]);
      FirstDeciding(conditions, i);
      var k :| 0 <= k <= i && Decides(conditions[k]) && forall j :: 0 <= j < k ==> !Decides(conditions[j]);
      FirstDecidingWins(conditions, active, k);
    }
  }

  /** Below any deciding index lies a first one. */
  lemma {:induction false} FirstDeciding(conditions: seq<Condition>, i: nat)
    requires i < |conditions| && Decides(conditions[i])
    ensures exists k :: (0 <= k <= i && Decides(conditions[k]) &&
                         forall j :: 0 <= j < k ==> !Decides(conditions[j]))
    decreases i
  {
    if exists j :: 0 <= j < i && Decides(conditions[j]) {
      var j :| 0 <= j < i && Decides(conditions[j]);
      FirstDeciding(conditions, j);
    }
  }

  /** GetJobStatus: `fetched` is the result of reading the Job. */
  function GetJobStatus(fetched: Result<JobObservation, string>): (r: Result<Status, string>)
    ensures fetched.Err? ==> r == Err("failed to get job: " + fetched.error)
    ensures fetched.Ok? ==> r.Ok? && r.value == StatusOf(fetched.value.conditions, fetched.value.active)
  {
    match fetched
    case Err(e) => Err("failed to get job: " + e)
    case Ok(job) => Ok(StatusOf(job.conditions, job.active))
  }

  /** The status strings are the four names and tell the statuses apart. */
  lemma StatusNames(s: Status, t: Status)
    ensures s.Name() in {"Pending", "Running", "Complete", "Failed"}
    ensures s.Name() == t.Name() ==> s == t
  {
  }
}
