/**
 * monitorJobs (internal/backend/k8s/apply.go; the legacy backend's copy is
 * the same loop without log printing).  The 5-second ticker and the
 * 30-minute deadline become a tick budget `maxTicks`: ticks 0, 1, ... run
 * until a verdict, and the deadline fires once `maxTicks` ticks have passed.
 * Reading a job at tick t is the input `observe(t, job)`.  Printing pod logs
 * is recorded as an emission event only.
 */
module JobMonitor {
  import opened Wrappers
  import opened JobStatus
  import opened KubeApi

  type Observer = (nat, string) -> Result<JobObservation, string>

  /** One GetJobStatus call: at which tick, for which job. */
  datatype Query = Query(tick: nat, job: string)

  /**
   * The state monitorJobs keeps across ticks: the jobStatus map (a missing
   * key is Go's ""), the loggedPods set, the number of ticks handled, and the
   * queries and log emissions so far, in order.
   */
  datatype Monitor = Monitor(status: map<string, Status>, logged: set<string>, ticks: nat,
                             queries: seq<Query>, emitted: seq<Query>)

  /** A tick in progress: the monitor plus the allDone / anyFailed flags. */
  datatype TickAcc = TickAcc(m: Monitor, allDone: bool, anyFailed: bool)

  datatype MonitorResult = AllSucceeded | SomeFailed | TimedOut
  {
    function Message(): Option<string> {
      match this
      case AllSucceeded => None
      case SomeFailed => Some("some jobs failed")
      case TimedOut => Some("timeout waiting for jobs to complete")
    }
  }

  /** What ApplyChange returns: nil, the Create failure for a repository, or
    * the outcome of monitoring. */
  datatype ApplyOutcome = Applied | CreateFailed(repo: string, reason: string) | Monitored(result: MonitorResult)
  {
    function Message(): Option<string> {
      match this
      case Applied => None
      case CreateFailed(repo, reason) => Some("failed to create kubernetes job for " + repo + ": " + reason)
      case Monitored(r) => r.Message()
    }
  }

  /**
   * The creation loop both backends' ApplyChange run: jobs[i] is created for
   * repos[i], in order, and the first refusal ends the loop with that
   * repository's error.  `create(i, job)` is the cluster's answer.
   */
  method CreateJobs(repos: seq<string>, jobs: seq<Job>, create: (nat, Job) -> Result<(), string>)
    returns (out: ApplyOutcome, created: seq<Job>)
    requires |jobs| == |repos|
    ensures created <= jobs
    ensures forall i :: 0 <= i < |created| ==> create(i, created[i]).Ok?
    ensures out.Applied? || out.CreateFailed?
    ensures out.Applied? <==> |created| == |repos|
    ensures out.CreateFailed? ==>
      var res := create(|created|, jobs[|created|]);
      res.Err? && out == CreateFailed(repos[|created|], res.error)
  {
    created := [];
    var i := 0;
    while i < |repos|
      invariant 0 <= i <= |repos| && created == jobs[..i]
      invariant forall k :: 0 <= k < i ==> create(k, created[k]).Ok?
    {
      var res := create(i, jobs[i]);
      if res.Err? {
        return CreateFailed(repos[i], res.error), created;
      }
      created := created + [jobs[i]];
      i := i + 1;
    }
    return Applied, created;
  }

  const Initial := Monitor(map[], {}, 0, [], [])

  function Observed(observe: Observer, q: Query): Result<Status, string> {
    GetJobStatus(observe(q.tick, q.job))
  }

  predicate RecordedTerminal(m: Monitor, job: string) {
    job in m.status && m.status[job].Terminal()
  }

  /** The body of the inner loop for one job name at tick t. */
  function Visit(acc: TickAcc, t: nat, job: string, observe: Observer, withLogs: bool): TickAcc {
    if RecordedTerminal(acc.m, job) then acc
    else
      var m := acc.m.(queries := acc.m.queries + [Query(t, job)]);
      match GetJobStatus(observe(t, job))
      case Err(_) => acc.(m := m)
      case Ok(s) =>
        var m1 := m.(status := m.status[job := s]);
        var m2 := if withLogs && s.Terminal() && job !in m1.logged
                  then m1.(logged := m1.logged + {job}, emitted := m1.emitted + [Query(t, job)])
                  else m1;
        TickAcc(m2, acc.allDone && s.Terminal(), acc.anyFailed || s == Failed)
  }

  /** The inner loop over the first k names. */
  function TickFold(names: seq<string>, k: nat, t: nat, observe: Observer, withLogs: bool, start: TickAcc): TickAcc
    requires k <= |names|
  {
    if k == 0 then start
    else Visit(TickFold(names, k - 1, t, observe, withLogs, start), t, names[k - 1], observe, withLogs)
  }

  /** One whole tick starting from monitor m. */
  function Tick(names: seq<string>, observe: Observer, withLogs: bool, m: Monitor): TickAcc {
    TickFold(names, |names|, m.ticks, observe, withLogs, TickAcc(m, true, false))
  }

  /** The outer loop: the verdict and the final monitor. */
  function Run(names: seq<string>, observe: Observer, withLogs: bool, maxTicks: nat, m: Monitor): (MonitorResult, Monitor)
    decreases maxTicks - m.ticks
  {
    if m.ticks >= maxTicks then (TimedOut, m)
    else
      var acc := Tick(names, observe, withLogs, m);
      var next := acc.m.(ticks := m.ticks + 1);
      if acc.allDone then (if acc.anyFailed then SomeFailed else AllSucceeded, next)
      else Run(names, observe, withLogs, maxTicks, next)
  }

  /** The inner loop's body for one job name: skip a job already recorded
    * terminal, skip a failed query, otherwise record the status, emit logs
    * once for a terminal status and update the flags. */
  method VisitJob(acc: TickAcc, t: nat, job: string, observe: Observer, withLogs: bool) returns (next: TickAcc)
    ensures next == Visit(acc, t, job, observe, withLogs)
  {
    var cur := acc.m;
    if job in cur.status && (cur.status[job] == Complete || cur.status[job] == Failed) {
      return acc;
    }
    cur := cur.(queries := cur.queries + [Query(t, job)]);
    var res := GetJobStatus(observe(t, job));
    if res.Err? {
      return acc.(m := cur);
    }
    var status := res.value;
    if job !in cur.status || status != cur.status[job] {
      cur := cur.(status := cur.status[job := status]);
    }
    assert cur.status == acc.m.status[job := status];
    if withLogs && (status == Complete || status == Failed) && job !in cur.logged {
      cur := cur.(logged := cur.logged + {job}, emitted := cur.emitted + [Query(t, job)]);
    }
    var allDone, anyFailed := acc.allDone, acc.anyFailed;
    if status != Complete && status != Failed {
      allDone := false;
    }
    if status == Failed {
      anyFailed := true;
    }
    next := TickAcc(cur, allDone, anyFailed);
  }

  /** One tick: the loop over all job names with fresh flags. */
  method RunTick(names: seq<string>, observe: Observer, withLogs: bool, m: Monitor) returns (acc: TickAcc)
    ensures acc == Tick(names, observe, withLogs, m)
  {
    acc := TickAcc(m, true, false);
    var i := 0;
    while i < |names|
      invariant 0 <= i <= |names|
      invariant acc == TickFold(names, i, m.ticks, observe, withLogs, TickAcc(m, true, false))
    {
      acc := VisitJob(acc, m.ticks, names[i], observe, withLogs);
      i := i + 1;
    }
  }

  /**
   * monitorJobs.  With `withLogs` false this is the legacy backend's loop.
   */
  method MonitorJobs(names: seq<string>, observe: Observer, withLogs: bool, maxTicks: nat)
    returns (r: MonitorResult, m: Monitor)
    ensures (r, m) == Run(names, observe, withLogs, maxTicks, Initial)
  {
    m := Initial;
    while m.ticks < maxTicks
      invariant Run(names, observe, withLogs, maxTicks, m) == Run(names, observe, withLogs, maxTicks, Initial)
      decreases maxTicks - m.ticks
    {
      var acc := RunTick(names, observe, withLogs, m);
      m := acc.m.(ticks := m.ticks + 1);
      if acc.allDone {
        if acc.anyFailed {
          r := SomeFailed;
        } else {
          r := AllSucceeded;
        }
        return;
      }
    }
    r := TimedOut;
  }

  // ---------------------------------------------------------------------------
  // What the monitor's state means

  /** The jobStatus map as the queries determine it: each successful query
    * records its status, a failed query changes nothing. */
  function Recorded(observe: Observer, qs: seq<Query>): map<string, Status>
  {
    if qs == [] then map[]
    else
      var prev := Recorded(observe, qs[..|qs| - 1]);
      match Observed(observe, qs[|qs| - 1])
      case Ok(s) => prev[qs[|qs| - 1].job := s]
      case Err(_) => prev
  }

  predicate TerminalObs(observe: Observer, q: Query) {
    Observed(observe, q).Ok? && Observed(observe, q).value.Terminal()
  }

  /** The query reported Pending or Running. */
  predicate ActiveObs(observe: Observer, q: Query) {
    Observed(observe, q).Ok? && !Observed(observe, q).value.Terminal()
  }

  /**
   * The invariant of the whole run:
   *  - jobStatus is exactly what the successful queries recorded;
   *  - once a query of a job reports a terminal status, that job is never
   *    queried again, and its recorded status stays terminal;
   *  - every log emission is a query that reported a terminal status, no job
   *    is emitted twice, and without log printing nothing is emitted;
   *  - with log printing, every job a query reported terminal has had its
   *    logs emitted.
   */
  predicate Consistent(observe: Observer, withLogs: bool, m: Monitor) {
    && m.status == Recorded(observe, m.queries)
    && NoRequery(observe, m.queries)
    && TerminalKept(observe, m)
    && EmitsTerminal(observe, withLogs, m)
  }

  /** No job is queried again after a query of it reported a terminal status. */
  predicate NoRequery(observe: Observer, qs: seq<Query>) {
    forall a, b :: 0 <= a < b < |qs| && qs[a].job == qs[b].job ==> !TerminalObs(observe, qs[a])
  }

  /** A job whose query reported a terminal status is recorded terminal. */
  predicate TerminalKept(observe: Observer, m: Monitor) {
    forall a :: 0 <= a < |m.queries| && TerminalObs(observe, m.queries[a]) ==> RecordedTerminal(m, m.queries[a].job)
  }

  /** Logs of `job` were printed at some point. */
  predicate EmittedFor(m: Monitor, job: string) {
    exists e :: 0 <= e < |m.emitted| && m.emitted[e].job == job
  }

  /** Emissions are terminal queries of logged jobs, once per job, and only
    * with log printing; every logged job was emitted, and with log printing
    * every job a query reported terminal is logged. */
  predicate EmitsTerminal(observe: Observer, withLogs: bool, m: Monitor) {
    && (forall e :: 0 <= e < |m.emitted| ==>
          m.emitted[e].job in m.logged && m.emitted[e] in m.queries && TerminalObs(observe, m.emitted[e]))
    && (forall a, b :: 0 <= a < b < |m.emitted| ==> m.emitted[a].job != m.emitted[b].job)
    && (!withLogs ==> m.emitted == [])
    && (forall j :: j in m.logged ==> EmittedFor(m, j))
    && (withLogs ==> forall a :: 0 <= a < |m.queries| && TerminalObs(observe, m.queries[a]) ==> m.queries[a].job in m.logged)
  }

  lemma RecordedStep(observe: Observer, qs: seq<Query>, q: Query)
    ensures Recorded(observe, qs + [q]) ==
      (if Observed(observe, q).Ok? then Recorded(observe, qs)[q.job := Observed(observe, q).value]
       else Recorded(observe, qs))
  {
    assert (qs + [q])[..|qs|] == qs;
  }

  lemma StatusStep(acc: TickAcc, t: nat, job: string, observe: Observer, withLogs: bool)
    requires acc.m.status == Recorded(observe, acc.m.queries) && !RecordedTerminal(acc.m, job)
    ensures var next := Visit(acc, t, job, observe, withLogs).m;
      next.queries == acc.m.queries + [Query(t, job)] && next.status == Recorded(observe, next.queries)
  {
    RecordedStep(observe, acc.m.queries, Query(t, job));
  }

  lemma NoRequeryStep(observe: Observer, m: Monitor, q: Query)
    requires NoRequery(observe, m.queries) && TerminalKept(observe, m) && !RecordedTerminal(m, q.job)
    ensures NoRequery(observe, m.queries + [q])
  {
    var qs := m.queries + [q];
    forall a, b | 0 <= a < b < |qs| && qs[a].job == qs[b].job
      ensures !TerminalObs(observe, qs[a])
    {
      assert qs[a] == m.queries[a];
      if b < |m.queries| {
        assert qs[b] == m.queries[b];
      }
    }
  }

  lemma TerminalKeptStep(acc: TickAcc, t: nat, job: string, observe: Observer, withLogs: bool)
    requires TerminalKept(observe, acc.m) && !RecordedTerminal(acc.m, job)
    ensures TerminalKept(observe, Visit(acc, t, job, observe, withLogs).m)
  {
    var next := Visit(acc, t, job, observe, withLogs).m;
    var qs := acc.m.queries + [Query(t, job)];
    assert next.queries == qs;
    forall a | 0 <= a < |qs| && TerminalObs(observe, qs[a])
      ensures RecordedTerminal(next, qs[a].job)
    {
      if a < |acc.m.queries| {
        assert qs[a] == acc.m.queries[a];
      }
    }
  }

  lemma EmitsTerminalStep(acc: TickAcc, t: nat, job: string, observe: Observer, withLogs: bool)
    requires EmitsTerminal(observe, withLogs, acc.m) && !RecordedTerminal(acc.m, job)
    ensures EmitsTerminal(observe, withLogs, Visit(acc, t, job, observe, withLogs).m)
  {
    var next := Visit(acc, t, job, observe, withLogs).m;
    var q := Query(t, job);
    var qs := acc.m.queries + [q];
    assert next.queries == qs;
    assert forall e :: 0 <= e < |acc.m.emitted| ==> acc.m.emitted[e] in qs;
    if next.emitted != acc.m.emitted {
      assert withLogs && TerminalObs(observe, q) && job !in acc.m.logged;
      assert next.emitted == acc.m.emitted + [q] && next.logged == acc.m.logged + {job};
      forall j | j in next.logged
        ensures EmittedFor(next, j)
      {
        if j == job {
          assert next.emitted[|acc.m.emitted|].job == j;
        } else {
          var e :| 0 <= e < |acc.m.emitted| && acc.m.emitted[e].job == j;
          assert next.emitted[e].job == j;
        }
      }
    } else {
      assert next.logged == acc.m.logged;
      assert forall j :: EmittedFor(acc.m, j) ==> EmittedFor(next, j);
      assert withLogs && TerminalObs(observe, q) ==> job in next.logged;
    }
    forall a | 0 <= a < |qs| && withLogs && TerminalObs(observe, qs[a])
      ensures qs[a].job in next.logged
    {
      if a < |acc.m.queries| {
        assert qs[a] == acc.m.queries[a];
      }
    }
  }

  lemma VisitConsistent(acc: TickAcc, t: nat, job: string, observe: Observer, withLogs: bool)
    requires Consistent(observe, withLogs, acc.m)
    ensures Consistent(observe, withLogs, Visit(acc, t, job, observe, withLogs).m)
  {
    if !RecordedTerminal(acc.m, job) {
      StatusStep(acc, t, job, observe, withLogs);
      NoRequeryStep(observe, acc.m, Query(t, job));
      TerminalKeptStep(acc, t, job, observe, withLogs);
      EmitsTerminalStep(acc, t, job, observe, withLogs);
    }
  }

  lemma {:induction false} TickFoldConsistent(names: seq<string>, k: nat, t: nat, observe: Observer,
                                              withLogs: bool, start: TickAcc)
    requires k <= |names| && Consistent(observe, withLogs, start.m)
    ensures Consistent(observe, withLogs, TickFold(names, k, t, observe, withLogs, start).m)
  {
    if k > 0 {
      TickFoldConsistent(names, k - 1, t, observe, withLogs, start);
      VisitConsistent(TickFold(names, k - 1, t, observe, withLogs, start), t, names[k - 1], observe, withLogs);
    }
  }

  /** The tick counter plays no part in the invariant. */
  lemma ConsistentTicks(observe: Observer, withLogs: bool, m: Monitor, t: nat)
    requires Consistent(observe, withLogs, m)
    ensures Consistent(observe, withLogs, m.(ticks := t))
  {
    var n := m.(ticks := t);
    assert n.status == m.status && n.queries == m.queries && n.emitted == m.emitted && n.logged == m.logged;
  }

  /** One tick keeps the invariant. */
  lemma TickConsistent(names: seq<string>, observe: Observer, withLogs: bool, m: Monitor)
    requires Consistent(observe, withLogs, m)
    ensures Consistent(observe, withLogs, Tick(names, observe, withLogs, m).m.(ticks := m.ticks + 1))
  {
    TickFoldConsistent(names, |names|, m.ticks, observe, withLogs, TickAcc(m, true, false));
    ConsistentTicks(observe, withLogs, Tick(names, observe, withLogs, m).m, m.ticks + 1);
  }

  /** Whatever one tick preserves, the whole run preserves. */
  lemma {:induction false} RunPreserves(names: seq<string>, observe: Observer, withLogs: bool, maxTicks: nat,
                                        m: Monitor, inv: Monitor -> bool)
    requires inv(m)
    requires forall n: Monitor :: inv(n) ==> inv(Tick(names, observe, withLogs, n).m.(ticks := n.ticks + 1))
    ensures inv(Run(names, observe, withLogs, maxTicks, m).1)
    decreases maxTicks - m.ticks
  {
    if m.ticks < maxTicks {
      var next := Tick(names, observe, withLogs, m).m.(ticks := m.ticks + 1);
      if !Tick(names, observe, withLogs, m).allDone {
        RunPreserves(names, observe, withLogs, maxTicks, next, inv);
      }
    }
  }

  lemma RunConsistent(names: seq<string>, observe: Observer, withLogs: bool, maxTicks: nat, m: Monitor)
    requires Consistent(observe, withLogs, m)
    ensures Consistent(observe, withLogs, Run(names, observe, withLogs, maxTicks, m).1)
  {
    var inv := (n: Monitor) => Consistent(observe, withLogs, n);
    forall n: Monitor | inv(n)
      ensures inv(Tick(names, observe, withLogs, n).m.(ticks := n.ticks + 1))
    {
      TickConsistent(names, observe, withLogs, n);
    }
    RunPreserves(names, observe, withLogs, maxTicks, m, inv);
  }

  // ---------------------------------------------------------------------------
  // What one tick decides

  /** No query in qs reported Pending or Running. */
  predicate Quiet(observe: Observer, qs: seq<Query>) {
    forall a :: 0 <= a < |qs| ==> !ActiveObs(observe, qs[a])
  }

  /** Some query in qs reported Failed. */
  predicate AnyFailedIn(observe: Observer, qs: seq<Query>) {
    exists a :: 0 <= a < |qs| && Observed(observe, qs[a]) == Ok(Failed)
  }

  /** Every query in qs was made at tick t for a job in `names`. */
  predicate Stamped(qs: seq<Query>, t: nat, names: seq<string>) {
    forall a :: 0 <= a < |qs| ==> qs[a].tick == t && qs[a].job in names
  }

  lemma ConcatFacts(observe: Observer, x: seq<Query>, y: seq<Query>, t: nat, names: seq<string>)
    ensures Quiet(observe, x + y) <==> Quiet(observe, x) && Quiet(observe, y)
    ensures AnyFailedIn(observe, x + y) <==> AnyFailedIn(observe, x) || AnyFailedIn(observe, y)
    ensures Stamped(x, t, names) && Stamped(y, t, names) ==> Stamped(x + y, t, names)
  {
    var xy := x + y;
    assert forall a :: 0 <= a < |x| ==> xy[a] == x[a];
    assert forall a :: 0 <= a < |y| ==> xy[|x| + a] == y[a];
    if AnyFailedIn(observe, xy) {
      var a :| 0 <= a < |xy| && Observed(observe, xy[a]) == Ok(Failed);
      if a >= |x| {
        assert Observed(observe, y[a - |x|]) == Ok(Failed);
      }
    }
  }

  /** One job of a tick adds at most one query, for that job at that tick,
    * and folds its report into the flags. */
  lemma VisitFlags(acc: TickAcc, t: nat, job: string, observe: Observer, withLogs: bool)
    ensures var n := Visit(acc, t, job, observe, withLogs);
      && n.m.ticks == acc.m.ticks
      && |acc.m.queries| <= |n.m.queries|
      && var added := n.m.queries[|acc.m.queries|..];
      && n.m.queries == acc.m.queries + added
      && Stamped(added, t, [job])
      && (n.allDone <==> acc.allDone && Quiet(observe, added))
      && (n.anyFailed <==> acc.anyFailed || AnyFailedIn(observe, added))
  {
    var n := Visit(acc, t, job, observe, withLogs);
    if !RecordedTerminal(acc.m, job) {
      var q := Query(t, job);
      assert n.m.queries[|acc.m.queries|..] == [q];
      assert [q][0] == q;
      assert Quiet(observe, [q]) <==> !ActiveObs(observe, q);
      assert AnyFailedIn(observe, [q]) <==> Observed(observe, q) == Ok(Failed);
    } else {
      assert n.m.queries[|acc.m.queries|..] == [];
    }
  }

  /** A tick's queries are appended after the earlier ones, stamped with the
    * tick, for listed jobs only; not all done iff one of them reported
    * Pending or Running; some failure iff one of them reported Failed. */
  lemma {:induction false} TickFoldFlags(names: seq<string>, k: nat, t: nat, observe: Observer,
                                         withLogs: bool, start: TickAcc)
    requires k <= |names|
    ensures var acc := TickFold(names, k, t, observe, withLogs, start);
      && acc.m.ticks == start.m.ticks
      && |start.m.queries| <= |acc.m.queries|
      && var added := acc.m.queries[|start.m.queries|..];
      && acc.m.queries == start.m.queries + added
      && Stamped(added, t, names)
      && (acc.allDone <==> start.allDone && Quiet(observe, added))
      && (acc.anyFailed <==> start.anyFailed || AnyFailedIn(observe, added))
  {
    if k > 0 {
      TickFoldFlags(names, k - 1, t, observe, withLogs, start);
      var prev := TickFold(names, k - 1, t, observe, withLogs, start);
      VisitFlags(prev, t, names[k - 1], observe, withLogs);
      var acc := Visit(prev, t, names[k - 1], observe, withLogs);
      var x := prev.m.queries[|start.m.queries|..];
      var y := acc.m.queries[|prev.m.queries|..];
      assert acc.m.queries[|start.m.queries|..] == x + y;
      assert Stamped(y, t, names);
      ConcatFacts(observe, x, y, t, names);
    }
  }

  /** Queries all lie before tick n. */
  predicate Before(qs: seq<Query>, n: nat) {
    forall a :: 0 <= a < |qs| ==> qs[a].tick < n
  }

  /** The queries of tick t on top of queries before t. */
  lemma LastTick(q0: seq<Query>, added: seq<Query>, t: nat, names: seq<string>)
    requires Before(q0, t) && Stamped(added, t, names)
    ensures Before(q0 + added, t + 1)
    ensures forall a :: 0 <= a < |q0 + added| && (q0 + added)[a].tick == t ==>
      |q0| <= a && (q0 + added)[a] == added[a - |q0|]
  {
  }

  lemma InAppended(q0: seq<Query>, added: seq<Query>, a: nat)
    requires a < |added|
    ensures |q0| + a < |q0 + added| && (q0 + added)[|q0| + a] == added[a]
  {
  }

  /** What one whole tick from p says about the queries made at that tick. */
  lemma TickVerdict(names: seq<string>, observe: Observer, withLogs: bool, p: Monitor)
    requires Before(p.queries, p.ticks)
    ensures var acc := Tick(names, observe, withLogs, p);
      var qs := acc.m.queries;
      && acc.m.ticks == p.ticks
      && Before(qs, p.ticks + 1)
      && (acc.anyFailed ==>
            exists a :: 0 <= a < |qs| && qs[a].tick == p.ticks && Observed(observe, qs[a]) == Ok(Failed))
      && (acc.allDone <==>
            forall a :: 0 <= a < |qs| && qs[a].tick == p.ticks ==> !ActiveObs(observe, qs[a]))
  {
    TickFoldFlags(names, |names|, p.ticks, observe, withLogs, TickAcc(p, true, false));
    var acc := Tick(names, observe, withLogs, p);
    TickVerdictOf(observe, names, p, acc, acc.m.queries[|p.queries|..]);
  }

  /** TickVerdict for a tick that added the queries `added` to those of p. */
  lemma TickVerdictOf(observe: Observer, names: seq<string>, p: Monitor, acc: TickAcc, added: seq<Query>)
    requires Before(p.queries, p.ticks)
    requires acc.m.queries == p.queries + added && Stamped(added, p.ticks, names)
    requires acc.allDone <==> Quiet(observe, added)
    requires acc.anyFailed <==> AnyFailedIn(observe, added)
    ensures var qs := acc.m.queries;
      && Before(qs, p.ticks + 1)
      && (acc.anyFailed ==>
            exists a :: 0 <= a < |qs| && qs[a].tick == p.ticks && Observed(observe, qs[a]) == Ok(Failed))
      && (acc.allDone <==>
            forall a :: 0 <= a < |qs| && qs[a].tick == p.ticks ==> !ActiveObs(observe, qs[a]))
  {
    LastTick(p.queries, added, p.ticks, names);
    if acc.anyFailed {
      var a :| 0 <= a < |added| && Observed(observe, added[a]) == Ok(Failed);
      InAppended(p.queries, added, a);
    }
    if !acc.allDone {
      var a :| 0 <= a < |added| && ActiveObs(observe, added[a]);
      InAppended(p.queries, added, a);
    }
  }

  /** The tick on which Run stopped: it started from a monitor p with every
    * query before p.ticks, and its outcome is the final monitor. */
  predicate LastTickFrom(names: seq<string>, observe: Observer, withLogs: bool, p: Monitor, f: Monitor) {
    Before(p.queries, p.ticks) && f == Tick(names, observe, withLogs, p).m.(ticks := p.ticks + 1)
  }

  /** Run stops at the deadline or on the first tick that found all jobs done. */
  lemma {:induction false} RunStops(names: seq<string>, observe: Observer, withLogs: bool, maxTicks: nat, m: Monitor)
    requires m.ticks <= maxTicks && Before(m.queries, m.ticks)
    ensures var r := Run(names, observe, withLogs, maxTicks, m).0;
      var f := Run(names, observe, withLogs, maxTicks, m).1;
      && (r == TimedOut ==> (f.ticks == maxTicks &&
            (m.ticks == maxTicks ||
             exists p :: LastTickFrom(names, observe, withLogs, p, f) && !Tick(names, observe, withLogs, p).allDone)))
      && (r != TimedOut ==>
            exists p :: (LastTickFrom(names, observe, withLogs, p, f) &&
                         Tick(names, observe, withLogs, p).allDone &&
                         (r == SomeFailed <==> Tick(names, observe, withLogs, p).anyFailed)))
    decreases maxTicks - m.ticks
  {
    if m.ticks < maxTicks {
      TickVerdict(names, observe, withLogs, m);
      var acc := Tick(names, observe, withLogs, m);
      var next := acc.m.(ticks := m.ticks + 1);
      assert LastTickFrom(names, observe, withLogs, m, next);
      if !acc.allDone {
        RunStops(names, observe, withLogs, maxTicks, next);
        var f := Run(names, observe, withLogs, maxTicks, next).1;
        if Run(names, observe, withLogs, maxTicks, next).0 == TimedOut && next.ticks == maxTicks {
          assert f == next;
        }
      }
    }
  }

  /**
   * The verdicts of monitorJobs as written.  "some jobs failed" means some job
   * reported Failed on the last tick; success means no job queried on the
   * last tick reported Pending or Running; the timeout comes after exactly
   * `maxTicks` ticks, the last of which still saw a job Pending or Running.
   */
  lemma MonitorVerdicts(names: seq<string>, observe: Observer, withLogs: bool, maxTicks: nat)
    ensures var r := Run(names, observe, withLogs, maxTicks, Initial).0;
      var f := Run(names, observe, withLogs, maxTicks, Initial).1;
      var qs := f.queries;
      && (r == SomeFailed ==> (f.ticks >= 1 &&
            exists a :: 0 <= a < |qs| && qs[a].tick == f.ticks - 1 && Observed(observe, qs[a]) == Ok(Failed)))
      && (r == AllSucceeded ==> (f.ticks >= 1 &&
            forall a :: 0 <= a < |qs| && qs[a].tick == f.ticks - 1 ==> !ActiveObs(observe, qs[a])))
      && (r == TimedOut ==> (f.ticks == maxTicks &&
            (maxTicks > 0 ==> exists a :: 0 <= a < |qs| && qs[a].tick == maxTicks - 1 && ActiveObs(observe, qs[a]))))
  {
    RunStops(names, observe, withLogs, maxTicks, Initial);
    var r := Run(names, observe, withLogs, maxTicks, Initial).0;
    var f := Run(names, observe, withLogs, maxTicks, Initial).1;
    if r != TimedOut {
      var p :| LastTickFrom(names, observe, withLogs, p, f) && Tick(names, observe, withLogs, p).allDone &&
               (r == SomeFailed <==> Tick(names, observe, withLogs, p).anyFailed);
      TickVerdict(names, observe, withLogs, p);
    } else if maxTicks > 0 {
      var p :| LastTickFrom(names, observe, withLogs, p, f) && !Tick(names, observe, withLogs, p).allDone;
      TickVerdict(names, observe, withLogs, p);
    }
  }

  /** The invariant holds of the final state of every run of monitorJobs. */
  lemma MonitorInvariants(names: seq<string>, observe: Observer, withLogs: bool, maxTicks: nat)
    ensures var f := Run(names, observe, withLogs, maxTicks, Initial).1;
      && f.status == Recorded(observe, f.queries)
      && (forall a, b :: 0 <= a < b < |f.queries| && f.queries[a].job == f.queries[b].job ==>
            !TerminalObs(observe, f.queries[a]))
      && (forall e :: 0 <= e < |f.emitted| ==> f.emitted[e] in f.queries && TerminalObs(observe, f.emitted[e]))
      && (forall a, b :: 0 <= a < b < |f.emitted| ==> f.emitted[a].job != f.emitted[b].job)
      && (!withLogs ==> f.emitted == [])
      && (withLogs ==> forall a :: 0 <= a < |f.queries| && TerminalObs(observe, f.queries[a]) ==>
            exists e :: 0 <= e < |f.emitted| && f.emitted[e].job == f.queries[a].job)
  {
    RunConsistent(names, observe, withLogs, maxTicks, Initial);
    var f := Run(names, observe, withLogs, maxTicks, Initial).1;
    assert forall a :: 0 <= a < |f.queries| && withLogs && TerminalObs(observe, f.queries[a]) ==>
      EmittedFor(f, f.queries[a].job);
  }

  /** A status query that errors changes neither the recorded status nor the flags. */
  lemma QueryErrorKeepsStatus(acc: TickAcc, t: nat, job: string, observe: Observer, withLogs: bool)
    requires observe(t, job).Err?
    ensures var n := Visit(acc, t, job, observe, withLogs);
      n.m.status == acc.m.status && n.m.logged == acc.m.logged && n.m.emitted == acc.m.emitted &&
      n.m.ticks == acc.m.ticks && n.allDone == acc.allDone && n.anyFailed == acc.anyFailed
  {
  }

  /** A tick in which every status query errors changes neither the
    * recorded status nor the flags. */
  lemma {:induction false} TickFoldAllErrors(names: seq<string>, k: nat, t: nat, observe: Observer,
                                             withLogs: bool, start: TickAcc)
    requires k <= |names| && forall job :: observe(t, job).Err?
    ensures var acc := TickFold(names, k, t, observe, withLogs, start);
      acc.m.status == start.m.status && acc.m.ticks == start.m.ticks &&
      acc.allDone == start.allDone && acc.anyFailed == start.anyFailed
  {
    if k > 0 {
      TickFoldAllErrors(names, k - 1, t, observe, withLogs, start);
      QueryErrorKeepsStatus(TickFold(names, k - 1, t, observe, withLogs, start), t, names[k - 1], observe, withLogs);
    }
  }

  // ---------------------------------------------------------------------------
  // The verdict is weaker than "no job failed"

  lemma {:induction false} RecordedAllErrors(observe: Observer, qs: seq<Query>)
    requires forall a :: 0 <= a < |qs| ==> Observed(observe, qs[a]).Err?
    ensures Recorded(observe, qs) == map[]
  {
    if qs != [] {
      RecordedAllErrors(observe, qs[..|qs| - 1]);
    }
  }

  /** If every status query of the first tick errors, monitorJobs reports
    * success at once with nothing recorded. */
  lemma AllQueriesFailingSucceeds(names: seq<string>, observe: Observer, withLogs: bool, maxTicks: nat)
    requires maxTicks >= 1
    requires forall job :: observe(0, job).Err?
    ensures Run(names, observe, withLogs, maxTicks, Initial).0 == AllSucceeded
    ensures Run(names, observe, withLogs, maxTicks, Initial).1.status == map[]
  {
    TickFoldAllErrors(names, |names|, 0, observe, withLogs, TickAcc(Initial, true, false));
  }

  const FailedJob := JobObservation([Condition("Failed", "True")], 0)
  const RunningJob := JobObservation([], 1)
  const CompleteJob := JobObservation([Condition("Complete", "True")], 0)

  /** Job "a" fails at once; job "b" runs on tick 0 and completes afterwards. */
  function Scenario(t: nat, job: string): Result<JobObservation, string> {
    if job == "a" then Ok(FailedJob) else if t == 0 then Ok(RunningJob) else Ok(CompleteJob)
  }

  /** Tick 0 of the scenario records "a" as Failed and "b" as Running, so it
    * has no verdict. */
  lemma ScenarioFirstTick(withLogs: bool)
    ensures var acc := Tick(["a", "b"], Scenario, withLogs, Initial);
      !acc.allDone && acc.m.ticks == 0 && "a" in acc.m.status && acc.m.status["a"] == Failed &&
      |acc.m.queries| >= 1 && acc.m.queries[0] == Query(0, "a")
  {
    var names := ["a", "b"];
    assert StatusOf(FailedJob.conditions, 0) == Failed;
    var t0a := Visit(TickAcc(Initial, true, false), 0, "a", Scenario, withLogs);
    assert t0a.m.status == map["a" := Failed] && t0a.m.queries == [Query(0, "a")];
    var t0 := Visit(t0a, 0, "b", Scenario, withLogs);
    assert !t0.allDone;
    assert names[0] == "a" && names[1] == "b";
    assert TickFold(names, 1, 0, Scenario, withLogs, TickAcc(Initial, true, false)) == t0a;
    assert Tick(names, Scenario, withLogs, Initial) == t0;
  }

  /** A later tick skips "a", recorded Failed, and sees "b" Complete: every
    * job is done and no failure is seen in this tick. */
  lemma ScenarioLaterTick(withLogs: bool, m: Monitor)
    requires m.ticks >= 1 && "a" in m.status && m.status["a"] == Failed
    ensures var acc := Tick(["a", "b"], Scenario, withLogs, m);
      acc.allDone && !acc.anyFailed && m.queries <= acc.m.queries
  {
    var names := ["a", "b"];
    assert StatusOf(CompleteJob.conditions, 0) == Complete;
    var t1a := Visit(TickAcc(m, true, false), m.ticks, "a", Scenario, withLogs);
    assert t1a == TickAcc(m, true, false);
    var t1 := Visit(t1a, m.ticks, "b", Scenario, withLogs);
    assert t1.allDone && !t1.anyFailed && m.queries <= t1.m.queries;
    assert names[0] == "a" && names[1] == "b";
    assert TickFold(names, 1, m.ticks, Scenario, withLogs, TickAcc(m, true, false)) == t1a;
    assert Tick(names, Scenario, withLogs, m) == t1;
  }

  /** Job "a" fails on tick 0 while "b" still runs; on tick 1 "a" is skipped
    * as terminal and "b" completes, so the run reports success although a
    * job failed. */
  lemma EarlierFailureHidden(withLogs: bool)
    ensures var run := Run(["a", "b"], Scenario, withLogs, 2, Initial);
      run.0 == AllSucceeded && Query(0, "a") in run.1.queries &&
      Observed(Scenario, Query(0, "a")) == Ok(Failed)
  {
    var names := ["a", "b"];
    assert StatusOf(FailedJob.conditions, 0) == Failed;
    ScenarioFirstTick(withLogs);
    var t0 := Tick(names, Scenario, withLogs, Initial);
    var m1 := t0.m.(ticks := 1);
    assert Run(names, Scenario, withLogs, 2, Initial) == Run(names, Scenario, withLogs, 2, m1);
    ScenarioLaterTick(withLogs, m1);
    var t1 := Tick(names, Scenario, withLogs, m1);
    assert Run(names, Scenario, withLogs, 2, m1) == (AllSucceeded, t1.m.(ticks := 2));
    assert t1.m.queries[0] == Query(0, "a");
  }
}
