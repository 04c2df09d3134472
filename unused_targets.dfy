/** `OctoLintUnusedTargets`: the targets that have not completed a deployment
    task in the last 30 days. */
module UnusedTargets {
  import opened Wrappers
  import opened Seqs
  import opened Strings
  import opened Resources
  import opened Checks

  const Id: string := "OctoLintUnusedTargets"

  /** `maxTimeSinceLastMachineDeployment`. */
  const MaxTimeSinceLastDeployment: int := 30 * NanosPerDay

  const Header: string := "The following targets have not performed a deployment in 30 days:\n"
  const OkMessage: string := "There are no unused targets"

  /** A task that completed less than 30 days before `now`. */
  predicate RecentTask(now: int, t: ServerTask)
  {
    t.completedTime.Some? && now - t.completedTime.value < MaxTimeSinceLastDeployment
  }

  predicate HasRecentTask(now: int, tasks: seq<ServerTask>)
  {
    exists k :: 0 <= k < |tasks| && RecentTask(now, tasks[k])
  }

  /** What one target contributes: its name when its deployment tasks hold no
      recent one; a failed task fetch is skipped or ends the check. */
  function TargetStep(env: Env, now: int, tasksOf: Machine -> Fetch<seq<ServerTask>>): Machine -> Step<string, Execution>
  {
    m => match tasksOf(m)
      case FetchFailed(e) => SkipOrStop(env.handler, e)
      case Fetched(tasks) => Emit(if HasRecentTask(now, tasks) then [] else [m.name])
  }

  /** The outcome of the check for the targets the server returns and the
      deployment tasks it returns for each of them. */
  function Verdict(env: Env, now: int, targets: Fetch<seq<Machine>>, tasksOf: Machine -> Fetch<seq<ServerTask>>): Execution
  {
    if !env.hasClient then Failed(NilClient)
    else match targets
      case FetchFailed(e) => env.handler.handleError(Id, Organization, e)
      case Fetched(ms) => Finish(ms, TargetStep(env, now, tasksOf), Id, Organization, Header, OkMessage)
  }

  method Execute(env: Env, now: int, targets: Fetch<seq<Machine>>, tasksOf: Machine -> Fetch<seq<ServerTask>>)
    returns (out: Execution)
    ensures out == Verdict(env, now, targets, tasksOf)
  {
    if !env.hasClient {
      return Failed(NilClient);
    }
    if targets.FetchFailed? {
      return env.handler.handleError(Id, Organization, targets.error);
    }
    var ms := targets.value;
    ghost var step := TargetStep(env, now, tasksOf);
    var unusedMachines: seq<string> := [];
    var i := 0;
    while i < |ms|
      invariant 0 <= i <= |ms|
      invariant Scan(ms[..i], step) == Done(unusedMachines)
    {
      var m := ms[i];
      var tasks := tasksOf(m);
      if tasks.FetchFailed? {
        if !env.handler.shouldContinue(tasks.error) {
          ScanStop(ms, i, step, unusedMachines);
          return Failed(tasks.error);
        }
        ScanGo(ms, i, step, unusedMachines);
        i := i + 1;
        continue;
      }
      var recentTask := false;
      var j := 0;
      while j < |tasks.value|
        invariant 0 <= j <= |tasks.value|
        invariant forall k :: 0 <= k < j ==> !RecentTask(now, tasks.value[k])
      {
        var t := tasks.value[j];
        if t.completedTime.Some? && now - t.completedTime.value < MaxTimeSinceLastDeployment {
          recentTask := true;
          break;
        }
        j := j + 1;
      }
      assert recentTask == HasRecentTask(now, tasks.value);
      ghost var before := unusedMachines;
      if !recentTask {
        unusedMachines := unusedMachines + [m.name];
      }
      ScanGo(ms, i, step, before);
      i := i + 1;
    }
    assert ms[..|ms|] == ms;
    out := Summary(Id, Organization, Header, unusedMachines, OkMessage);
  }

  /** A target is listed exactly when its tasks were fetched and none of them
      completed in the last 30 days. */
  lemma ListedIff(env: Env, now: int, ms: seq<Machine>, tasksOf: Machine -> Fetch<seq<ServerTask>>,
                  unused: seq<string>, name: string)
    requires Scan(ms, TargetStep(env, now, tasksOf)) == Done(unused)
    ensures name in unused <==>
      exists i :: 0 <= i < |ms| && ms[i].name == name && tasksOf(ms[i]).Fetched?
        && !HasRecentTask(now, tasksOf(ms[i]).value)
  {
    FinishEntries(ms, TargetStep(env, now, tasksOf), unused, name);
  }

  /** Tasks that have not completed never make a target used: dropping them
      does not change the verdict on the target. */
  lemma IncompleteTasksIrrelevant(now: int, tasks: seq<ServerTask>)
    ensures HasRecentTask(now, tasks) == HasRecentTask(now, Filter(tasks, (t: ServerTask) => t.completedTime.Some?))
  {
    var p := (t: ServerTask) => t.completedTime.Some?;
    var done := Filter(tasks, p);
    if HasRecentTask(now, tasks) {
      var k :| 0 <= k < |tasks| && RecentTask(now, tasks[k]);
      FilterMember(tasks, p, tasks[k]);
      var k' :| 0 <= k' < |done| && done[k'] == tasks[k];
    }
    if HasRecentTask(now, done) {
      var k :| 0 <= k < |done| && RecentTask(now, done[k]);
      FilterMember(tasks, p, done[k]);
    }
  }

  /** When no task fetch ends the check, it warns exactly when some target
      whose tasks were fetched has no recent one. */
  lemma WarningIff(env: Env, now: int, ms: seq<Machine>, tasksOf: Machine -> Fetch<seq<ServerTask>>)
    requires env.hasClient
    requires forall i :: 0 <= i < |ms| ==> tasksOf(ms[i]).Fetched? || env.handler.shouldContinue(tasksOf(ms[i]).error)
    ensures Verdict(env, now, Fetched(ms), tasksOf).error == None
    ensures Verdict(env, now, Fetched(ms), tasksOf).result.Some?
    ensures Verdict(env, now, Fetched(ms), tasksOf).result.value.severity == Warning <==>
      exists i :: 0 <= i < |ms| && tasksOf(ms[i]).Fetched? && !HasRecentTask(now, tasksOf(ms[i]).value)
  {
    FinishWarningIff(ms, TargetStep(env, now, tasksOf), Id, Organization, Header, OkMessage);
  }

  // ---------------------------------------------------------------- naive scans

  predicate ActionsMention(actions: seq<DeploymentAction>, name: string)
  {
    actions != [] && (PropertiesMention(actions[0].properties, name) || ActionsMention(actions[1..], name))
  }

  predicate StepsMention(steps: seq<DeploymentStep>, name: string)
  {
    steps != [] && (ActionsMention(steps[0].actions, name) || StepsMention(steps[1..], name))
  }

  /** `naiveStepVariableScan`: whether some action property value of the
      deployment process holds the variable's name; false without a process. */
  predicate StepVariableScan(process: Option<DeploymentProcess>, variable: Variable)
  {
    process.Some? && StepsMention(process.value.steps, variable.name)
  }

  lemma {:induction false} ActionsMentionIff(actions: seq<DeploymentAction>, name: string)
    ensures ActionsMention(actions, name) <==>
      exists j :: 0 <= j < |actions| && PropertiesMention(actions[j].properties, name)
  {
    if actions != [] {
      ActionsMentionIff(actions[1..], name);
      if exists j :: 0 <= j < |actions| && PropertiesMention(actions[j].properties, name) {
        var j :| 0 <= j < |actions| && PropertiesMention(actions[j].properties, name);
        if j > 0 {
          assert actions[1..][j - 1] == actions[j];
        }
      }
    }
  }

  lemma {:induction false} StepsMentionIff(steps: seq<DeploymentStep>, name: string)
    ensures StepsMention(steps, name) <==>
      exists i, j :: 0 <= i < |steps| && 0 <= j < |steps[i].actions|
        && PropertiesMention(steps[i].actions[j].properties, name)
  {
    if steps != [] {
      StepsMentionIff(steps[1..], name);
      ActionsMentionIff(steps[0].actions, name);
      if exists i, j :: 0 <= i < |steps| && 0 <= j < |steps[i].actions|
          && PropertiesMention(steps[i].actions[j].properties, name) {
        var i, j :| 0 <= i < |steps| && 0 <= j < |steps[i].actions|
          && PropertiesMention(steps[i].actions[j].properties, name);
        if i > 0 {
          assert steps[1..][i - 1] == steps[i];
        }
      }
    }
  }

  /** The step scan finds the name exactly when some property value of some
      action of some step holds it. */
  lemma StepVariableScanIff(process: Option<DeploymentProcess>, variable: Variable)
    ensures StepVariableScan(process, variable) <==>
      process.Some? &&
      exists i, j, k ::
        0 <= i < |process.value.steps| && 0 <= j < |process.value.steps[i].actions|
        && k in process.value.steps[i].actions[j].properties
        && Contains(process.value.steps[i].actions[j].properties[k], variable.name)
  {
    if process.Some? {
      StepsMentionIff(process.value.steps, variable.name);
    }
  }
}
