/** The walk three naming checks share: for each project, its deployment
    process (nil without one), then every action of every step in order. */
module ProcessScan {
  import opened Wrappers
  import opened Seqs
  import opened Resources
  import opened Checks

  /** The entries of one step: those of its actions, in order. */
  function StepEntries(f: DeploymentAction -> seq<string>): DeploymentStep -> seq<string>
  {
    (s: DeploymentStep) => FlatMap(s.actions, f)
  }

  /** What one project contributes when each of its actions contributes
      `entries(p)(a)`: nothing without a process, and a failed process fetch
      is skipped or ends the check. */
  function ProcessStep(env: Env, processes: string -> Fetch<DeploymentProcess>,
                       entries: Project -> DeploymentAction -> seq<string>): Project -> Step<string, Execution>
  {
    (p: Project) => match ProcessOrNil(p.deploymentProcessId, processes)
      case FetchFailed(e) => SkipOrStop(env.handler, e)
      case Fetched(None) => Emit([])
      case Fetched(Some(d)) => Emit(FlatMap(d.steps, StepEntries(entries(p))))
  }

  /** The three cases of ProcessStep for one project, spelled out. */
  lemma StepOf(env: Env, processes: string -> Fetch<DeploymentProcess>,
               entries: Project -> DeploymentAction -> seq<string>, p: Project)
    ensures ProcessOrNil(p.deploymentProcessId, processes).FetchFailed? ==>
      ProcessStep(env, processes, entries)(p) == SkipOrStop(env.handler, ProcessOrNil(p.deploymentProcessId, processes).error)
    ensures ProcessOrNil(p.deploymentProcessId, processes) == Fetched(None) ==>
      ProcessStep(env, processes, entries)(p) == Emit([])
    ensures ProcessOrNil(p.deploymentProcessId, processes).Fetched? && ProcessOrNil(p.deploymentProcessId, processes).value.Some? ==>
      ProcessStep(env, processes, entries)(p)
        == Emit(FlatMap(ProcessOrNil(p.deploymentProcessId, processes).value.value.steps, StepEntries(entries(p))))
  {
  }

  /** The steps the walk visits for a project: none when it has no process
      or the fetch failed. */
  function StepsOf(p: Project, processes: string -> Fetch<DeploymentProcess>): (r: seq<DeploymentStep>)
    ensures ProcessOrNil(p.deploymentProcessId, processes) == Fetched(None) ==> r == []
    ensures p.deploymentProcessId != "" && processes(p.deploymentProcessId).Fetched? ==>
      r == processes(p.deploymentProcessId).value.steps
  {
    match ProcessOrNil(p.deploymentProcessId, processes)
    case Fetched(Some(d)) => d.steps
    case _ => []
  }

  lemma {:induction false} StepsMember(steps: seq<DeploymentStep>, f: DeploymentAction -> seq<string>, e: string)
    ensures e in FlatMap(steps, StepEntries(f)) <==>
      exists i, j :: 0 <= i < |steps| && 0 <= j < |steps[i].actions| && e in f(steps[i].actions[j])
  {
    FlatMapMember(steps, StepEntries(f), e);
    forall i | 0 <= i < |steps|
      ensures e in StepEntries(f)(steps[i]) <==> exists j :: 0 <= j < |steps[i].actions| && e in f(steps[i].actions[j])
    {
      FlatMapMember(steps[i].actions, f, e);
    }
  }

  lemma {:induction false} StepsEmpty(steps: seq<DeploymentStep>, f: DeploymentAction -> seq<string>)
    ensures FlatMap(steps, StepEntries(f)) == [] <==>
      forall i, j :: 0 <= i < |steps| && 0 <= j < |steps[i].actions| ==> f(steps[i].actions[j]) == []
  {
    FlatMapEmpty(steps, StepEntries(f));
    forall i | 0 <= i < |steps|
      ensures StepEntries(f)(steps[i]) == [] <==> forall j :: 0 <= j < |steps[i].actions| ==> f(steps[i].actions[j]) == []
    {
      FlatMapEmpty(steps[i].actions, f);
    }
  }

  /** An entry is listed exactly when some action of some project whose
      process was fetched contributes it. */
  lemma ListedIff(env: Env, ps: seq<Project>, processes: string -> Fetch<DeploymentProcess>,
                  entries: Project -> DeploymentAction -> seq<string>, listed: seq<string>, e: string)
    requires Scan(ps, ProcessStep(env, processes, entries)) == Done(listed)
    ensures e in listed <==>
      exists i, j, k :: 0 <= i < |ps| && 0 <= j < |StepsOf(ps[i], processes)|
        && 0 <= k < |StepsOf(ps[i], processes)[j].actions|
        && e in entries(ps[i])(StepsOf(ps[i], processes)[j].actions[k])
  {
    var step := ProcessStep(env, processes, entries);
    FinishEntries(ps, step, listed, e);
    forall i | 0 <= i < |ps|
      ensures (step(ps[i]).Emit? && e in step(ps[i]).items) <==>
        exists j, k :: 0 <= j < |StepsOf(ps[i], processes)| && 0 <= k < |StepsOf(ps[i], processes)[j].actions|
          && e in entries(ps[i])(StepsOf(ps[i], processes)[j].actions[k])
    {
      StepsMember(StepsOf(ps[i], processes), entries(ps[i]), e);
    }
  }

  /** When no process fetch ends the check, the walk finishes, and it has
      entries exactly when some action contributes one. */
  lemma WarningIff(env: Env, ps: seq<Project>, processes: string -> Fetch<DeploymentProcess>,
                   entries: Project -> DeploymentAction -> seq<string>,
                   id: string, category: Category, header: string, okMessage: string)
    requires forall i :: 0 <= i < |ps| ==>
      ProcessOrNil(ps[i].deploymentProcessId, processes).Fetched?
      || env.handler.shouldContinue(ProcessOrNil(ps[i].deploymentProcessId, processes).error)
    ensures Finish(ps, ProcessStep(env, processes, entries), id, category, header, okMessage).error == None
    ensures Finish(ps, ProcessStep(env, processes, entries), id, category, header, okMessage).result.Some?
    ensures Finish(ps, ProcessStep(env, processes, entries), id, category, header, okMessage).result.value.severity == Warning <==>
      exists i, j, k :: 0 <= i < |ps| && 0 <= j < |StepsOf(ps[i], processes)|
        && 0 <= k < |StepsOf(ps[i], processes)[j].actions|
        && entries(ps[i])(StepsOf(ps[i], processes)[j].actions[k]) != []
  {
    var step := ProcessStep(env, processes, entries);
    FinishWarningIff(ps, step, id, category, header, okMessage);
    forall i | 0 <= i < |ps|
      ensures step(ps[i]).items != [] <==>
        exists j, k :: 0 <= j < |StepsOf(ps[i], processes)| && 0 <= k < |StepsOf(ps[i], processes)[j].actions|
          && entries(ps[i])(StepsOf(ps[i], processes)[j].actions[k]) != []
    {
      StepsEmpty(StepsOf(ps[i], processes), entries(ps[i]));
    }
  }
}
