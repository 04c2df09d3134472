/** `OctoLintTooManySteps`: the projects whose deployment process has 20 or
    more steps. */
module TooManySteps {
  import opened Wrappers
  import opened Seqs
  import opened Strings
  import opened Resources
  import opened Checks

  const Id: string := "OctoLintTooManySteps"

  /** `maxStepCount`. */
  const MaxStepCount: int := 20

  const Header: string := "The following projects have 20 or more steps:\n"
  const OkMessage: string := "There are no projects with too many steps"

  /** `stepsInDeploymentProcess`: the number of steps of the deployment
      process with id `id`; no process (an empty id, or a 404 from the
      server) counts as zero steps, and any other failure is returned. */
  function StepCount(id: string, processes: string -> Fetch<DeploymentProcess>): (r: Fetch<nat>)
    ensures id == "" ==> r == Fetched(0)
    ensures id != "" && processes(id).FetchFailed? && NotFound(processes(id).error) ==> r == Fetched(0)
    ensures r.FetchFailed? <==> id != "" && processes(id).FetchFailed? && !NotFound(processes(id).error)
    ensures r.FetchFailed? ==> r.error == processes(id).error
    ensures id != "" && processes(id).Fetched? ==> r == Fetched(|processes(id).value.steps|)
  {
    if id == "" then Fetched(0)
    else match processes(id)
      case FetchFailed(e) => if NotFound(e) then Fetched(0) else FetchFailed(e)
      case Fetched(p) => Fetched(|p.steps|)
  }

  /** What one project contributes: its name when it has 20 or more steps; a
      failed process fetch is skipped or ends the check. */
  function ProjectStep(env: Env, processes: string -> Fetch<DeploymentProcess>): Project -> Step<string, Execution>
  {
    (p: Project) => match StepCount(p.deploymentProcessId, processes)
      case FetchFailed(e) => SkipOrStop(env.handler, e)
      case Fetched(n) => Emit(if n >= MaxStepCount then [p.name] else [])
  }

  function Verdict(env: Env, projects: Fetch<seq<Project>>, processes: string -> Fetch<DeploymentProcess>): Execution
  {
    if !env.hasClient then Failed(NilClient)
    else match projects
      case FetchFailed(e) => env.handler.handleError(Id, Organization, e)
      case Fetched(ps) => Finish(ps, ProjectStep(env, processes), Id, Organization, Header, OkMessage)
  }

  method Execute(env: Env, projects: Fetch<seq<Project>>, processes: string -> Fetch<DeploymentProcess>)
    returns (out: Execution)
    ensures out == Verdict(env, projects, processes)
  {
    if !env.hasClient {
      return Failed(NilClient);
    }
    if projects.FetchFailed? {
      return env.handler.handleError(Id, Organization, projects.error);
    }
    var ps := projects.value;
    ghost var step := ProjectStep(env, processes);
    var complexProjects: seq<string> := [];
    var i := 0;
    while i < |ps|
      invariant 0 <= i <= |ps|
      invariant Scan(ps[..i], step) == Done(complexProjects)
    {
      var p := ps[i];
      var stepCount := StepCount(p.deploymentProcessId, processes);
      if stepCount.FetchFailed? {
        if !env.handler.shouldContinue(stepCount.error) {
          ScanStop(ps, i, step, complexProjects);
          return Failed(stepCount.error);
        }
        ScanGo(ps, i, step, complexProjects);
        i := i + 1;
        continue;
      }
      ghost var before := complexProjects;
      if stepCount.value >= MaxStepCount {
        complexProjects := complexProjects + [p.name];
      }
      ScanGo(ps, i, step, before);
      i := i + 1;
    }
    assert ps[..|ps|] == ps;
    out := Summary(Id, Organization, Header, complexProjects, OkMessage);
  }

  /** A project is listed exactly when its step count is known and at least
      20; a project without a process (or whose process is missing) has no
      steps and is never listed. */
  lemma ListedIff(env: Env, ps: seq<Project>, processes: string -> Fetch<DeploymentProcess>,
                  listed: seq<string>, name: string)
    requires Scan(ps, ProjectStep(env, processes)) == Done(listed)
    ensures name in listed <==>
      exists i :: 0 <= i < |ps| && ps[i].name == name && ps[i].deploymentProcessId != ""
        && processes(ps[i].deploymentProcessId).Fetched?
        && |processes(ps[i].deploymentProcessId).value.steps| >= MaxStepCount
  {
    FinishEntries(ps, ProjectStep(env, processes), listed, name);
  }

  /** When no process fetch ends the check, it warns exactly when some
      project has 20 or more steps. */
  lemma WarningIff(env: Env, ps: seq<Project>, processes: string -> Fetch<DeploymentProcess>)
    requires env.hasClient
    requires forall i :: 0 <= i < |ps| ==>
      StepCount(ps[i].deploymentProcessId, processes).Fetched?
      || env.handler.shouldContinue(StepCount(ps[i].deploymentProcessId, processes).error)
    ensures Verdict(env, Fetched(ps), processes).error == None
    ensures Verdict(env, Fetched(ps), processes).result.Some?
    ensures Verdict(env, Fetched(ps), processes).result.value.severity == Warning <==>
      exists i :: 0 <= i < |ps| && StepCount(ps[i].deploymentProcessId, processes).Fetched?
        && StepCount(ps[i].deploymentProcessId, processes).value >= MaxStepCount
  {
    FinishWarningIff(ps, ProjectStep(env, processes), Id, Organization, Header, OkMessage);
  }
}
