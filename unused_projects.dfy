/** `OctoLintUnusedProjects`: the enabled projects that have not started a
    task within the configured number of days. */
module UnusedProjects {
  import opened Wrappers
  import opened Seqs
  import opened Strings
  import opened Resources
  import opened Checks

  const Id: string := "OctoLintUnusedProjects"

  function Header(maxDays: int): string
  {
    "The following projects have not had any tasks " + IntToString(maxDays) + " days:\n"
  }

  function OkMessage(maxDays: int): string
  {
    "There are no projects that have not had any tasks in the last " + IntToString(maxDays) + " days"
  }

  /** A task that started strictly after `since`. */
  predicate StartedAfter(since: int, t: ServerTask)
  {
    t.startTime.Some? && t.startTime.value > since
  }

  predicate HasTaskSince(since: int, tasks: seq<ServerTask>)
  {
    exists k :: 0 <= k < |tasks| && StartedAfter(since, tasks[k])
  }

  /** What one project contributes: nothing when it is disabled, its name when
      none of its tasks started in the last `maxDays` days; a failed task
      fetch hands the whole check to the error handler. */
  function ProjectStep(env: Env, now: int, maxDays: int, tasksOf: Project -> Fetch<seq<ServerTask>>): Project -> Step<string, Execution>
  {
    (p: Project) =>
      if p.isDisabled then Emit([])
      else match tasksOf(p)
        case FetchFailed(e) => Exit(env.handler.handleError(Id, Organization, e))
        case Fetched(tasks) => Emit(if HasTaskSince(now - maxDays * NanosPerDay, tasks) then [] else [p.name])
  }

  function Verdict(env: Env, now: int, maxDays: int, projects: Fetch<seq<Project>>,
                   tasksOf: Project -> Fetch<seq<ServerTask>>): Execution
  {
    if !env.hasClient then Failed(NilClient)
    else match projects
      case FetchFailed(e) => env.handler.handleError(Id, Organization, e)
      case Fetched(ps) => Finish(ps, ProjectStep(env, now, maxDays, tasksOf), Id, Organization, Header(maxDays), OkMessage(maxDays))
  }

  /** The loop over a project's tasks: whether one of them started after
      `since`. */
  method HasTask(since: int, tasks: seq<ServerTask>) returns (found: bool)
    ensures found == HasTaskSince(since, tasks)
  {
    var j := 0;
    while j < |tasks|
      invariant 0 <= j <= |tasks|
      invariant forall k :: 0 <= k < j ==> !StartedAfter(since, tasks[k])
    {
      var task := tasks[j];
      if task.startTime.Some? && task.startTime.value > since {
        return true;
      }
      j := j + 1;
    }
    return false;
  }

  method Execute(env: Env, now: int, maxDays: int, projects: Fetch<seq<Project>>,
                 tasksOf: Project -> Fetch<seq<ServerTask>>) returns (out: Execution)
    ensures out == Verdict(env, now, maxDays, projects, tasksOf)
  {
    if !env.hasClient {
      return Failed(NilClient);
    }
    if projects.FetchFailed? {
      return env.handler.handleError(Id, Organization, projects.error);
    }
    var ps := projects.value;
    ghost var step := ProjectStep(env, now, maxDays, tasksOf);
    var unusedProjects: seq<string> := [];
    var i := 0;
    while i < |ps|
      invariant 0 <= i <= |ps|
      invariant Scan(ps[..i], step) == Done(unusedProjects)
    {
      var project := ps[i];
      if project.isDisabled {
        ScanGo(ps, i, step, unusedProjects);
        i := i + 1;
        continue;
      }
      var tasks := tasksOf(project);
      if tasks.FetchFailed? {
        ScanStop(ps, i, step, unusedProjects);
        return env.handler.handleError(Id, Organization, tasks.error);
      }
      var projectHasTask := HasTask(now - maxDays * NanosPerDay, tasks.value);
      ghost var before := unusedProjects;
      if !projectHasTask {
        unusedProjects := unusedProjects + [project.name];
      }
      ScanGo(ps, i, step, before);
      i := i + 1;
    }
    assert ps[..|ps|] == ps;
    out := Summary(Id, Organization, Header(maxDays), unusedProjects, OkMessage(maxDays));
  }

  /** An enabled project whose tasks were fetched and none of which started
      in the last `maxDays` days. */
  predicate Unused(now: int, maxDays: int, tasksOf: Project -> Fetch<seq<ServerTask>>, p: Project)
  {
    !p.isDisabled && tasksOf(p).Fetched? && !HasTaskSince(now - maxDays * NanosPerDay, tasksOf(p).value)
  }

  lemma StepEntries(env: Env, now: int, maxDays: int, tasksOf: Project -> Fetch<seq<ServerTask>>, p: Project, name: string)
    ensures (ProjectStep(env, now, maxDays, tasksOf)(p).Emit? && name in ProjectStep(env, now, maxDays, tasksOf)(p).items)
      <==> p.name == name && Unused(now, maxDays, tasksOf, p)
  {
  }

  /** A project is listed exactly when it is enabled, its tasks were fetched
      and none of them started in the last `maxDays` days; in particular a
      disabled project is never listed. */
  lemma ListedIff(env: Env, now: int, maxDays: int, ps: seq<Project>, tasksOf: Project -> Fetch<seq<ServerTask>>,
                  unused: seq<string>, name: string)
    requires Scan(ps, ProjectStep(env, now, maxDays, tasksOf)) == Done(unused)
    ensures name in unused <==> exists i :: 0 <= i < |ps| && ps[i].name == name && Unused(now, maxDays, tasksOf, ps[i])
  {
    FinishEntries(ps, ProjectStep(env, now, maxDays, tasksOf), unused, name);
    forall i | 0 <= i < |ps|
      ensures (ProjectStep(env, now, maxDays, tasksOf)(ps[i]).Emit? && name in ProjectStep(env, now, maxDays, tasksOf)(ps[i]).items)
        <==> ps[i].name == name && Unused(now, maxDays, tasksOf, ps[i])
    {
      StepEntries(env, now, maxDays, tasksOf, ps[i], name);
    }
  }

  /** The first enabled project whose tasks cannot be fetched ends the check
      with the error handler's outcome, instead of being skipped. */
  lemma TaskErrorEndsCheck(env: Env, now: int, maxDays: int, ps: seq<Project>, tasksOf: Project -> Fetch<seq<ServerTask>>, i: int)
    requires env.hasClient && 0 <= i < |ps| && !ps[i].isDisabled && tasksOf(ps[i]).FetchFailed?
    requires forall k :: 0 <= k < i && !ps[k].isDisabled ==> tasksOf(ps[k]).Fetched?
    ensures Verdict(env, now, maxDays, Fetched(ps), tasksOf) == env.handler.handleError(Id, Organization, tasksOf(ps[i]).error)
  {
    var step := ProjectStep(env, now, maxDays, tasksOf);
    forall k | 0 <= k < i
      ensures step(ps[..i][k]).Emit?
    {
      assert ps[..i][k] == ps[k];
    }
    FinishStops(ps, step, Id, Organization, Header(maxDays), OkMessage(maxDays), i);
  }

  /** When every task fetch succeeds, the check warns exactly when some
      enabled project has no task started in the window, and both messages
      name the number of days. */
  lemma WarningIff(env: Env, now: int, maxDays: int, ps: seq<Project>, tasksOf: Project -> Fetch<seq<ServerTask>>)
    requires env.hasClient
    requires forall i :: 0 <= i < |ps| && !ps[i].isDisabled ==> tasksOf(ps[i]).Fetched?
    ensures Verdict(env, now, maxDays, Fetched(ps), tasksOf).error == None
    ensures Verdict(env, now, maxDays, Fetched(ps), tasksOf).result.Some?
    ensures Verdict(env, now, maxDays, Fetched(ps), tasksOf).result.value.severity == Warning <==>
      exists i :: 0 <= i < |ps| && !ps[i].isDisabled
        && !HasTaskSince(now - maxDays * NanosPerDay, tasksOf(ps[i]).value)
    ensures Verdict(env, now, maxDays, Fetched(ps), tasksOf).result.value.severity == Ok ==>
      Verdict(env, now, maxDays, Fetched(ps), tasksOf).result.value.description == OkMessage(maxDays)
  {
    FinishWarningIff(ps, ProjectStep(env, now, maxDays, tasksOf), Id, Organization, Header(maxDays), OkMessage(maxDays));
  }
}
