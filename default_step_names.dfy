/** `OctoLintProjectDefaultStepNames`: the project actions that kept the name
    Octopus gives a new step. */
module DefaultStepNames {
  import opened Wrappers
  import opened Seqs
  import opened Resources
  import opened Checks
  import ProcessScan

  const Id: string := "OctoLintProjectDefaultStepNames"

  const Header: string := "The following project actions use the default step names:\n"
  const OkMessage: string := "There are no project actions default step names"

  /** What one action of project `p` contributes: "project/action" when the
      action's name is one of `defaultNames` (compared exactly). */
  function ActionEntry(defaultNames: seq<string>): Project -> DeploymentAction -> seq<string>
  {
    (p: Project) => (a: DeploymentAction) =>
      if IndexOf(defaultNames, a.name) != -1 then [p.name + "/" + a.name] else []
  }

  /** The outcome of the check; `projects` is the (possibly limited) list
      the client wrapper returns. */
  function Verdict(env: Env, defaultNames: seq<string>, projects: Fetch<seq<Project>>,
                   processes: string -> Fetch<DeploymentProcess>): Execution
  {
    if !env.hasClient then Failed(NilClient)
    else if projects.FetchFailed? then env.handler.handleError(Id, Naming, projects.error)
    else Finish(projects.value, ProcessScan.ProcessStep(env, processes, ActionEntry(defaultNames)), Id, Organization,
                Header, OkMessage)
  }

  /** The entries of `actions`, appended to `acc`. */
  method AppendActions(defaultNames: seq<string>, p: Project, actions: seq<DeploymentAction>, acc: seq<string>)
    returns (r: seq<string>)
    ensures r == acc + FlatMap(actions, ActionEntry(defaultNames)(p))
  {
    ghost var f := ActionEntry(defaultNames)(p);
    r := acc;
    var j := 0;
    while j < |actions|
      invariant 0 <= j <= |actions|
      invariant r == acc + FlatMap(actions[..j], f)
    {
      var a := actions[j];
      FlatMapAccGo(acc, actions, j, f);
      ghost var before := r;
      if IndexOf(defaultNames, a.name) != -1 {
        r := r + [p.name + "/" + a.name];
      }
      assert r == before + f(a);
      j := j + 1;
    }
    assert actions[..j] == actions;
  }

  /** The entries of the actions of `steps`, appended to `acc`. */
  method AppendSteps(defaultNames: seq<string>, p: Project, steps: seq<DeploymentStep>, acc: seq<string>)
    returns (r: seq<string>)
    ensures r == acc + FlatMap(steps, ProcessScan.StepEntries(ActionEntry(defaultNames)(p)))
  {
    ghost var g := ProcessScan.StepEntries(ActionEntry(defaultNames)(p));
    r := acc;
    var i := 0;
    while i < |steps|
      invariant 0 <= i <= |steps|
      invariant r == acc + FlatMap(steps[..i], g)
    {
      FlatMapAccGo(acc, steps, i, g);
      assert g(steps[i]) == FlatMap(steps[i].actions, ActionEntry(defaultNames)(p));
      r := AppendActions(defaultNames, p, steps[i].actions, r);
      i := i + 1;
    }
    assert steps[..i] == steps;
  }

  method Execute(env: Env, defaultNames: seq<string>, projects: Fetch<seq<Project>>,
                 processes: string -> Fetch<DeploymentProcess>) returns (out: Execution)
    ensures out == Verdict(env, defaultNames, projects, processes)
  {
    if !env.hasClient {
      return Failed(NilClient);
    }
    if projects.FetchFailed? {
      return env.handler.handleError(Id, Naming, projects.error);
    }
    var ps := projects.value;
    ghost var step := ProcessScan.ProcessStep(env, processes, ActionEntry(defaultNames));
    var actionsWithDefaultNames: seq<string> := [];
    var i := 0;
    while i < |ps|
      invariant 0 <= i <= |ps|
      invariant Scan(ps[..i], step) == Done(actionsWithDefaultNames)
    {
      var p := ps[i];
      var deploymentProcess := ProcessOrNil(p.deploymentProcessId, processes);
      ProcessScan.StepOf(env, processes, ActionEntry(defaultNames), p);
      if deploymentProcess.FetchFailed? {
        if !env.handler.shouldContinue(deploymentProcess.error) {
          ScanStop(ps, i, step, actionsWithDefaultNames);
          return Failed(deploymentProcess.error);
        }
        ScanGo(ps, i, step, actionsWithDefaultNames);
        i := i + 1;
        continue;
      }
      if deploymentProcess.value.None? {
        ScanGo(ps, i, step, actionsWithDefaultNames);
        i := i + 1;
        continue;
      }
      ghost var before := actionsWithDefaultNames;
      actionsWithDefaultNames := AppendSteps(defaultNames, p, deploymentProcess.value.value.steps, actionsWithDefaultNames);
      ScanGo(ps, i, step, before);
      i := i + 1;
    }
    assert ps[..|ps|] == ps;
    out := Summary(Id, Organization, Header, actionsWithDefaultNames, OkMessage);
  }

  /** An entry is listed exactly when it names a project and one of its
      actions whose name is a default step name. */
  lemma ListedIff(env: Env, defaultNames: seq<string>, ps: seq<Project>, processes: string -> Fetch<DeploymentProcess>,
                  listed: seq<string>, e: string)
    requires Scan(ps, ProcessScan.ProcessStep(env, processes, ActionEntry(defaultNames))) == Done(listed)
    ensures e in listed <==>
      exists i, j, k :: 0 <= i < |ps| && 0 <= j < |ProcessScan.StepsOf(ps[i], processes)|
        && 0 <= k < |ProcessScan.StepsOf(ps[i], processes)[j].actions|
        && ProcessScan.StepsOf(ps[i], processes)[j].actions[k].name in defaultNames
        && e == ps[i].name + "/" + ProcessScan.StepsOf(ps[i], processes)[j].actions[k].name
  {
    ProcessScan.ListedIff(env, ps, processes, ActionEntry(defaultNames), listed, e);
  }

  /** A project contributes one entry per action with a default name, in
      step and then action order. */
  lemma ProjectEntries(defaultNames: seq<string>, p: Project, actions: seq<DeploymentAction>)
    ensures |FlatMap(actions, ActionEntry(defaultNames)(p))| <= |actions|
    ensures forall k :: 0 <= k < |actions| && actions[k].name !in defaultNames ==>
      ActionEntry(defaultNames)(p)(actions[k]) == []
  {
    FlatMapAtMostOne(actions, ActionEntry(defaultNames)(p));
  }

  /** When no process fetch ends the check, it warns exactly when some
      action of some project has a default name. */
  lemma WarningIff(env: Env, defaultNames: seq<string>, ps: seq<Project>, processes: string -> Fetch<DeploymentProcess>)
    requires env.hasClient
    requires forall i :: 0 <= i < |ps| ==>
      ProcessOrNil(ps[i].deploymentProcessId, processes).Fetched?
      || env.handler.shouldContinue(ProcessOrNil(ps[i].deploymentProcessId, processes).error)
    ensures Verdict(env, defaultNames, Fetched(ps), processes).error == None
    ensures Verdict(env, defaultNames, Fetched(ps), processes).result.Some?
    ensures Verdict(env, defaultNames, Fetched(ps), processes).result.value.severity == Warning <==>
      exists i, j, k :: 0 <= i < |ps| && 0 <= j < |ProcessScan.StepsOf(ps[i], processes)|
        && 0 <= k < |ProcessScan.StepsOf(ps[i], processes)[j].actions|
        && ProcessScan.StepsOf(ps[i], processes)[j].actions[k].name in defaultNames
  {
    ProcessScan.WarningIff(env, ps, processes, ActionEntry(defaultNames), Id, Organization, Header, OkMessage);
  }
}
