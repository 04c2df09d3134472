/** `OctoLintEmptyProject`: the projects with neither runbooks nor deployment
    steps. */
module EmptyProject {
  import opened Wrappers
  import opened Seqs
  import opened Strings
  import opened Resources
  import opened Checks

  const Id: string := "OctoLintEmptyProject"

  const Header: string := "The following projects have no runbooks and no deployment process:\n"
  const OkMessage: string := "There are no empty projects"

  function InProject(projectId: string): Runbook -> bool
  {
    (r: Runbook) => r.projectId == projectId
  }

  /** `runbooksInProject`: how many of `runbooks` belong to the project. */
  method RunbooksInProject(projectId: string, runbooks: seq<Runbook>) returns (count: nat)
    ensures count == |Filter(runbooks, InProject(projectId))|
    ensures count <= |runbooks|
    ensures count == 0 <==> forall k :: 0 <= k < |runbooks| ==> runbooks[k].projectId != projectId
  {
    count := 0;
    var i := 0;
    while i < |runbooks|
      invariant 0 <= i <= |runbooks|
      invariant count == |Filter(runbooks[..i], InProject(projectId))|
    {
      assert runbooks[..i + 1] == runbooks[..i] + [runbooks[i]];
      FilterAppend(runbooks[..i], [runbooks[i]], InProject(projectId));
      if runbooks[i].projectId == projectId {
        count := count + 1;
      }
      i := i + 1;
    }
    assert runbooks[..i] == runbooks;
    FilterLength(runbooks, InProject(projectId));
    NoneInProject(projectId, runbooks);
  }

  /** A project has no runbooks exactly when none of them names it. */
  lemma NoneInProject(projectId: string, runbooks: seq<Runbook>)
    ensures |Filter(runbooks, InProject(projectId))| == 0 <==>
      forall k :: 0 <= k < |runbooks| ==> runbooks[k].projectId != projectId
  {
    forall r | r in runbooks
      ensures r in Filter(runbooks, InProject(projectId)) <==> r.projectId == projectId
    {
      FilterMember(runbooks, InProject(projectId), r);
    }
    if |Filter(runbooks, InProject(projectId))| != 0 {
      var r := Filter(runbooks, InProject(projectId))[0];
      FilterMember(runbooks, InProject(projectId), r);
    }
  }

  /** This check's `stepsInDeploymentProcess`: no process id means no steps;
      unlike the too-many-steps check, every failed fetch is returned,
      including a 404. */
  function StepCount(id: string, processes: string -> Fetch<DeploymentProcess>): (r: Fetch<nat>)
    ensures id == "" ==> r == Fetched(0)
    ensures id != "" ==> (r.FetchFailed? <==> processes(id).FetchFailed?)
    ensures r.FetchFailed? ==> r.error == processes(id).error
    ensures id != "" && processes(id).Fetched? ==> r == Fetched(|processes(id).value.steps|)
  {
    if id == "" then Fetched(0)
    else match processes(id)
      case FetchFailed(e) => FetchFailed(e)
      case Fetched(p) => Fetched(|p.steps|)
  }

  /** The runbooks the check counts: a failed runbook fetch is ignored and
      leaves no runbooks. */
  function RunbooksOrNone(runbooks: Fetch<seq<Runbook>>): (r: seq<Runbook>)
    ensures runbooks.FetchFailed? ==> r == []
    ensures runbooks.Fetched? ==> r == runbooks.value
  {
    match runbooks
    case Fetched(rs) => rs
    case FetchFailed(_) => []
  }

  predicate Empty(p: Project, runbooks: seq<Runbook>, steps: nat)
  {
    |Filter(runbooks, InProject(p.id))| == 0 && steps == 0
  }

  function ProjectStep(env: Env, runbooks: seq<Runbook>, processes: string -> Fetch<DeploymentProcess>): Project -> Step<string, Execution>
  {
    (p: Project) => match StepCount(p.deploymentProcessId, processes)
      case FetchFailed(e) => SkipOrStop(env.handler, e)
      case Fetched(n) => Emit(if Empty(p, runbooks, n) then [p.name] else [])
  }

  function Verdict(env: Env, projects: Fetch<seq<Project>>, runbooks: Fetch<seq<Runbook>>,
                   processes: string -> Fetch<DeploymentProcess>): Execution
  {
    if !env.hasClient then Failed(NilClient)
    else match projects
      case FetchFailed(e) => env.handler.handleError(Id, Organization, e)
      case Fetched(ps) => Finish(ps, ProjectStep(env, RunbooksOrNone(runbooks), processes), Id, Organization, Header, OkMessage)
  }

  method Execute(env: Env, projects: Fetch<seq<Project>>, runbooks: Fetch<seq<Runbook>>,
                 processes: string -> Fetch<DeploymentProcess>) returns (out: Execution)
    ensures out == Verdict(env, projects, runbooks, processes)
  {
    if !env.hasClient {
      return Failed(NilClient);
    }
    if projects.FetchFailed? {
      return env.handler.handleError(Id, Organization, projects.error);
    }
    var ps := projects.value;
    var rs := RunbooksOrNone(runbooks);
    ghost var step := ProjectStep(env, rs, processes);
    var emptyProjects: seq<string> := [];
    var i := 0;
    while i < |ps|
      invariant 0 <= i <= |ps|
      invariant Scan(ps[..i], step) == Done(emptyProjects)
    {
      var p := ps[i];
      var stepCount := StepCount(p.deploymentProcessId, processes);
      if stepCount.FetchFailed? {
        if !env.handler.shouldContinue(stepCount.error) {
          ScanStop(ps, i, step, emptyProjects);
          return Failed(stepCount.error);
        }
        ScanGo(ps, i, step, emptyProjects);
        i := i + 1;
        continue;
      }
      var runbookCount := RunbooksInProject(p.id, rs);
      ghost var before := emptyProjects;
      if runbookCount == 0 && stepCount.value == 0 {
        emptyProjects := emptyProjects + [p.name];
      }
      ScanGo(ps, i, step, before);
      i := i + 1;
    }
    assert ps[..|ps|] == ps;
    out := Summary(Id, Organization, Header, emptyProjects, OkMessage);
  }

  /** A project is listed exactly when its process was read (or it has
      none), the process has no steps and no runbook names the project. */
  lemma ListedIff(env: Env, ps: seq<Project>, runbooks: seq<Runbook>, processes: string -> Fetch<DeploymentProcess>,
                  listed: seq<string>, name: string)
    requires Scan(ps, ProjectStep(env, runbooks, processes)) == Done(listed)
    ensures name in listed <==>
      exists i :: 0 <= i < |ps| && ps[i].name == name
        && StepCount(ps[i].deploymentProcessId, processes) == Fetched(0)
        && forall k :: 0 <= k < |runbooks| ==> runbooks[k].projectId != ps[i].id
  {
    FinishEntries(ps, ProjectStep(env, runbooks, processes), listed, name);
    forall i | 0 <= i < |ps|
      ensures Empty(ps[i], runbooks, 0) <==> forall k :: 0 <= k < |runbooks| ==> runbooks[k].projectId != ps[i].id
    {
      NoneInProject(ps[i].id, runbooks);
    }
  }

  /** A project with a runbook is never empty, whatever its process. */
  lemma RunbookMakesNonEmpty(env: Env, ps: seq<Project>, runbooks: seq<Runbook>, processes: string -> Fetch<DeploymentProcess>,
                             listed: seq<string>, i: int, k: int)
    requires Scan(ps, ProjectStep(env, runbooks, processes)) == Done(listed)
    requires 0 <= i < |ps| && 0 <= k < |runbooks| && runbooks[k].projectId == ps[i].id
    requires forall j :: 0 <= j < |ps| && ps[j].name == ps[i].name ==> ps[j].id == ps[i].id
    ensures ps[i].name !in listed
  {
    ListedIff(env, ps, runbooks, processes, listed, ps[i].name);
  }

  /** When no process fetch ends the check, it warns exactly when some
      project is empty. */
  lemma WarningIff(env: Env, ps: seq<Project>, runbooks: Fetch<seq<Runbook>>, processes: string -> Fetch<DeploymentProcess>)
    requires env.hasClient
    requires forall i :: 0 <= i < |ps| ==>
      StepCount(ps[i].deploymentProcessId, processes).Fetched?
      || env.handler.shouldContinue(StepCount(ps[i].deploymentProcessId, processes).error)
    ensures Verdict(env, Fetched(ps), runbooks, processes).error == None
    ensures Verdict(env, Fetched(ps), runbooks, processes).result.Some?
    ensures Verdict(env, Fetched(ps), runbooks, processes).result.value.severity == Warning <==>
      exists i :: 0 <= i < |ps| && StepCount(ps[i].deploymentProcessId, processes) == Fetched(0)
        && |Filter(RunbooksOrNone(runbooks), InProject(ps[i].id))| == 0
  {
    FinishWarningIff(ps, ProjectStep(env, RunbooksOrNone(runbooks), processes), Id, Organization, Header, OkMessage);
  }
}
