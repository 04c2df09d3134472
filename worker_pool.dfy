/** `OctoLintProjectWorkerPool`: the project actions that run on a worker
    pool whose name does not match the configured regular expression. */
module WorkerPoolNames {
  import opened Wrappers
  import opened Seqs
  import opened Strings
  import opened Resources
  import opened Checks
  import ProcessScan

  const Id: string := "OctoLintProjectWorkerPool"

  /** Both messages quote the container-image pattern, not the worker-pool
      pattern the check tests against. */
  function Header(quoted: string): string
  {
    "The following project actions use worker pools that do not match the regex " + quoted + ":\n"
  }

  function OkMessage(quoted: string): string
  {
    "There are no actions that use worker pools that do not match the regex " + quoted
  }

  function IsDefault(): WorkerPool -> bool
  {
    (w: WorkerPool) => w.isDefault
  }

  function HasId(id: string): WorkerPool -> bool
  {
    (w: WorkerPool) => w.id == id
  }

  /** The name of the default worker pool, or "" unless exactly one pool is
      the default. */
  function DefaultPool(pools: seq<WorkerPool>): string
  {
    var defaults := Filter(pools, IsDefault());
    if |defaults| == 1 then defaults[0].name else ""
  }

  /** What one action of project `p` contributes. An action that takes its
      pool from a variable is never reported; one without a pool runs on the
      default pool; one naming a pool is reported only when its ID fails the
      pattern and the one pool with that ID has a name that fails it too. */
  function ActionEntry(rx: Regex, pattern: string, defaultPool: string, pools: seq<WorkerPool>): Project -> DeploymentAction -> seq<string>
  {
    (p: Project) => (a: DeploymentAction) => PoolEntry(rx, pattern, defaultPool, pools, p, a)
  }

  function PoolEntry(rx: Regex, pattern: string, defaultPool: string, pools: seq<WorkerPool>, p: Project, a: DeploymentAction): seq<string>
  {
    if a.workerPoolVariable != "" then []
    else if a.workerPool == "" then
      if defaultPool != "" && !rx.matches(pattern, defaultPool) then [p.name + "/" + a.name + ": " + defaultPool + " (default)"] else []
    else if !rx.matches(pattern, a.workerPool) then
      var workerPool := Filter(pools, HasId(a.workerPool));
      if |workerPool| == 1 && !rx.matches(pattern, workerPool[0].name) then [p.name + "/" + a.name + ": " + workerPool[0].name] else []
    else []
  }

  /** The outcome of the check; `containerImageRegex` is the pattern its
      messages quote. */
  function Verdict(env: Env, pattern: string, containerImageRegex: string, projects: Fetch<seq<Project>>,
                   pools: Fetch<seq<WorkerPool>>, processes: string -> Fetch<DeploymentProcess>): Execution
  {
    if !env.hasClient then Failed(NilClient)
    else if TrimSpace(pattern) == "" then Nothing
    else if !env.regex.compiles(pattern) then BadRegex(Id, pattern)
    else if projects.FetchFailed? then env.handler.handleError(Id, Naming, projects.error)
    else if pools.FetchFailed? then env.handler.handleError(Id, Naming, pools.error)
    else
      var entries := ActionEntry(env.regex, pattern, DefaultPool(pools.value), pools.value);
      Finish(projects.value, ProcessScan.ProcessStep(env, processes, entries), Id, Organization,
             Header(containerImageRegex), OkMessage(containerImageRegex))
  }

  /** The entries of `actions`, appended to `acc`. */
  method AppendActions(rx: Regex, pattern: string, defaultPool: string, pools: seq<WorkerPool>, p: Project,
                       actions: seq<DeploymentAction>, acc: seq<string>) returns (r: seq<string>)
    ensures r == acc + FlatMap(actions, ActionEntry(rx, pattern, defaultPool, pools)(p))
  {
    ghost var f := ActionEntry(rx, pattern, defaultPool, pools)(p);
    r := acc;
    var j := 0;
    while j < |actions|
      invariant 0 <= j <= |actions|
      invariant r == acc + FlatMap(actions[..j], f)
    {
      var a := actions[j];
      FlatMapAccGo(acc, actions, j, f);
      assert f(a) == PoolEntry(rx, pattern, defaultPool, pools, p, a);
      ghost var before := r;
      if a.workerPoolVariable != "" {
        assert r == before + f(a);
        j := j + 1;
        continue;
      }
      if a.workerPool == "" {
        if defaultPool != "" && !rx.matches(pattern, defaultPool) {
          r := r + [p.name + "/" + a.name + ": " + defaultPool + " (default)"];
        }
      } else if !rx.matches(pattern, a.workerPool) {
        var workerPool := Filter(pools, HasId(a.workerPool));
        if |workerPool| == 1 && !rx.matches(pattern, workerPool[0].name) {
          r := r + [p.name + "/" + a.name + ": " + workerPool[0].name];
        }
      }
      assert r == before + f(a);
      j := j + 1;
    }
    assert actions[..j] == actions;
  }

  /** The entries of the actions of `steps`, appended to `acc`. */
  method AppendSteps(rx: Regex, pattern: string, defaultPool: string, pools: seq<WorkerPool>, p: Project,
                     steps: seq<DeploymentStep>, acc: seq<string>) returns (r: seq<string>)
    ensures r == acc + FlatMap(steps, ProcessScan.StepEntries(ActionEntry(rx, pattern, defaultPool, pools)(p)))
  {
    ghost var g := ProcessScan.StepEntries(ActionEntry(rx, pattern, defaultPool, pools)(p));
    r := acc;
    var i := 0;
    while i < |steps|
      invariant 0 <= i <= |steps|
      invariant r == acc + FlatMap(steps[..i], g)
    {
      FlatMapAccGo(acc, steps, i, g);
      assert g(steps[i]) == FlatMap(steps[i].actions, ActionEntry(rx, pattern, defaultPool, pools)(p));
      r := AppendActions(rx, pattern, defaultPool, pools, p, steps[i].actions, r);
      i := i + 1;
    }
    assert steps[..i] == steps;
  }

  method Execute(env: Env, pattern: string, containerImageRegex: string, projects: Fetch<seq<Project>>,
                 pools: Fetch<seq<WorkerPool>>, processes: string -> Fetch<DeploymentProcess>) returns (out: Execution)
    ensures out == Verdict(env, pattern, containerImageRegex, projects, pools, processes)
  {
    if !env.hasClient {
      return Failed(NilClient);
    }
    if TrimSpace(pattern) == "" {
      return Nothing;
    }
    if !env.regex.compiles(pattern) {
      return BadRegex(Id, pattern);
    }
    if projects.FetchFailed? {
      return env.handler.handleError(Id, Naming, projects.error);
    }
    if pools.FetchFailed? {
      return env.handler.handleError(Id, Naming, pools.error);
    }
    var defaultWorkerPool := DefaultPool(pools.value);
    out := ScanProjects(env, pattern, containerImageRegex, defaultWorkerPool, pools.value, projects.value, processes);
  }

  /** The walk over the projects once both lists are fetched. */
  method ScanProjects(env: Env, pattern: string, containerImageRegex: string, defaultWorkerPool: string,
                      pools: seq<WorkerPool>, ps: seq<Project>, processes: string -> Fetch<DeploymentProcess>)
    returns (out: Execution)
    ensures out == Finish(ps, ProcessScan.ProcessStep(env, processes, ActionEntry(env.regex, pattern, defaultWorkerPool, pools)),
                          Id, Organization, Header(containerImageRegex), OkMessage(containerImageRegex))
  {
    ghost var step := ProcessScan.ProcessStep(env, processes, ActionEntry(env.regex, pattern, defaultWorkerPool, pools));
    var actionsWithInvalidWorkerPools: seq<string> := [];
    var i := 0;
    while i < |ps|
      invariant 0 <= i <= |ps|
      invariant Scan(ps[..i], step) == Done(actionsWithInvalidWorkerPools)
    {
      var stop, failure, r := VisitProject(env, pattern, defaultWorkerPool, pools, processes, ps[i], actionsWithInvalidWorkerPools);
      if stop {
        ScanStop(ps, i, step, actionsWithInvalidWorkerPools);
        return failure;
      }
      ScanGo(ps, i, step, actionsWithInvalidWorkerPools);
      actionsWithInvalidWorkerPools := r;
      i := i + 1;
    }
    assert ps[..|ps|] == ps;
    out := Summary(Id, Organization, Header(containerImageRegex), actionsWithInvalidWorkerPools, OkMessage(containerImageRegex));
  }

  /** One project of the walk: a failed process fetch stops it or is
      skipped, a project without a process adds nothing, and otherwise the
      entries of its actions are appended to `acc`. */
  method VisitProject(env: Env, pattern: string, defaultWorkerPool: string, pools: seq<WorkerPool>,
                      processes: string -> Fetch<DeploymentProcess>, p: Project, acc: seq<string>)
    returns (stop: bool, failure: Execution, r: seq<string>)
    ensures var s := ProcessScan.ProcessStep(env, processes, ActionEntry(env.regex, pattern, defaultWorkerPool, pools))(p);
      (stop <==> s.Exit?) && (stop ==> failure == s.outcome) && (!stop ==> r == acc + s.items)
  {
    var deploymentProcess := ProcessOrNil(p.deploymentProcessId, processes);
    if deploymentProcess.FetchFailed? {
      if !env.handler.shouldContinue(deploymentProcess.error) {
        return true, Failed(deploymentProcess.error), acc;
      }
      return false, Nothing, acc;
    }
    if deploymentProcess.value.None? {
      return false, Nothing, acc;
    }
    r := AppendSteps(env.regex, pattern, defaultWorkerPool, pools, p, deploymentProcess.value.value.steps, acc);
    return false, Nothing, r;
  }

  /** The default pool is named only when exactly one pool is the default,
      and then it is that pool. */
  lemma DefaultPoolIff(pools: seq<WorkerPool>)
    ensures DefaultPool(pools) != "" ==>
      exists k :: 0 <= k < |pools| && pools[k].isDefault && pools[k].name == DefaultPool(pools)
    ensures |Filter(pools, IsDefault())| != 1 ==> DefaultPool(pools) == ""
  {
    var defaults := Filter(pools, IsDefault());
    if |defaults| == 1 {
      FilterMember(pools, IsDefault(), defaults[0]);
    }
  }

  /** The rule for one action: nothing for an action whose pool comes from a
      variable; for an action without a pool, the default pool's name when
      it fails the pattern; for a named pool, that pool's name when both its
      ID and the name of the one pool with that ID fail the pattern. */
  lemma ActionEntryIff(rx: Regex, pattern: string, pools: seq<WorkerPool>, p: Project, a: DeploymentAction)
    ensures a.workerPoolVariable != "" ==> ActionEntry(rx, pattern, DefaultPool(pools), pools)(p)(a) == []
    ensures a.workerPoolVariable == "" && a.workerPool == "" ==>
      (ActionEntry(rx, pattern, DefaultPool(pools), pools)(p)(a) != [] <==>
        |Filter(pools, IsDefault())| == 1 && Filter(pools, IsDefault())[0].name != ""
        && !rx.matches(pattern, Filter(pools, IsDefault())[0].name))
    ensures a.workerPoolVariable == "" && a.workerPool != "" ==>
      (ActionEntry(rx, pattern, DefaultPool(pools), pools)(p)(a) != [] <==>
        !rx.matches(pattern, a.workerPool) && |Filter(pools, HasId(a.workerPool))| == 1
        && !rx.matches(pattern, Filter(pools, HasId(a.workerPool))[0].name))
    ensures a.workerPoolVariable == "" && a.workerPool != "" && ActionEntry(rx, pattern, DefaultPool(pools), pools)(p)(a) != [] ==>
      Filter(pools, HasId(a.workerPool))[0] in pools && Filter(pools, HasId(a.workerPool))[0].id == a.workerPool
  {
    if a.workerPoolVariable == "" && a.workerPool != "" && ActionEntry(rx, pattern, DefaultPool(pools), pools)(p)(a) != [] {
      FilterMember(pools, HasId(a.workerPool), Filter(pools, HasId(a.workerPool))[0]);
    }
  }

  /** Once the pattern compiles and both lists are fetched, and no process
      fetch ends the check, it warns exactly when some action of some
      project is reported. */
  lemma WarningIff(env: Env, pattern: string, containerImageRegex: string, ps: seq<Project>,
                   pools: seq<WorkerPool>, processes: string -> Fetch<DeploymentProcess>)
    requires env.hasClient && TrimSpace(pattern) != "" && env.regex.compiles(pattern)
    requires forall i :: 0 <= i < |ps| ==>
      ProcessOrNil(ps[i].deploymentProcessId, processes).Fetched?
      || env.handler.shouldContinue(ProcessOrNil(ps[i].deploymentProcessId, processes).error)
    ensures Verdict(env, pattern, containerImageRegex, Fetched(ps), Fetched(pools), processes).error == None
    ensures Verdict(env, pattern, containerImageRegex, Fetched(ps), Fetched(pools), processes).result.Some?
    ensures Verdict(env, pattern, containerImageRegex, Fetched(ps), Fetched(pools), processes).result.value.severity == Warning <==>
      exists i, j, k :: 0 <= i < |ps| && 0 <= j < |ProcessScan.StepsOf(ps[i], processes)|
        && 0 <= k < |ProcessScan.StepsOf(ps[i], processes)[j].actions|
        && ActionEntry(env.regex, pattern, DefaultPool(pools), pools)(ps[i])(ProcessScan.StepsOf(ps[i], processes)[j].actions[k]) != []
  {
    assert Verdict(env, pattern, containerImageRegex, Fetched(ps), Fetched(pools), processes)
      == Finish(ps, ProcessScan.ProcessStep(env, processes, ActionEntry(env.regex, pattern, DefaultPool(pools), pools)),
                Id, Organization, Header(containerImageRegex), OkMessage(containerImageRegex));
    ProcessScan.WarningIff(env, ps, processes, ActionEntry(env.regex, pattern, DefaultPool(pools), pools),
      Id, Organization, Header(containerImageRegex), OkMessage(containerImageRegex));
  }

  /** A blank or all-space pattern switches the check off. */
  lemma BlankPatternSwitchesOff(env: Env, pattern: string, containerImageRegex: string, projects: Fetch<seq<Project>>,
                                pools: Fetch<seq<WorkerPool>>, processes: string -> Fetch<DeploymentProcess>)
    requires env.hasClient
    requires forall k :: 0 <= k < |pattern| ==> IsSpace(pattern[k])
    ensures Verdict(env, pattern, containerImageRegex, projects, pools, processes) == Nothing
  {
    BlankIffAllSpace(pattern);
  }
}
