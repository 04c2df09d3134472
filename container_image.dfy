/** `OctoLintProjectContainerImageName`: the project actions whose container
    image does not match the configured regular expression. */
module ContainerImageNames {
  import opened Wrappers
  import opened Seqs
  import opened Strings
  import opened Resources
  import opened Checks
  import ProcessScan

  const Id: string := "OctoLintProjectContainerImageName"

  function Header(pattern: string): string
  {
    "The following project actions do not match the regex " + pattern + ":\n"
  }

  const OkMessage: string := "There are no project actions with invalid container images"

  /** An action with a container whose image is not blank. */
  predicate HasImage(a: DeploymentAction)
  {
    a.container.Some? && TrimSpace(a.container.value.image) != ""
  }

  /** What one action of project `p` contributes: its image, when it has
      one and the image fails the pattern. */
  function ActionEntry(rx: Regex, pattern: string): Project -> DeploymentAction -> seq<string>
  {
    (p: Project) => (a: DeploymentAction) => ImageEntry(rx, pattern, p, a)
  }

  /** An action with a non-blank image that fails the pattern. */
  predicate Fails(rx: Regex, pattern: string, a: DeploymentAction)
  {
    HasImage(a) && !rx.matches(pattern, a.container.value.image)
  }

  /** How a failing action is reported: project, action and image. */
  function Entry(p: Project, a: DeploymentAction): string
    requires a.container.Some?
  {
    p.name + "/" + a.name + ": " + a.container.value.image
  }

  function ImageEntry(rx: Regex, pattern: string, p: Project, a: DeploymentAction): seq<string>
  {
    if Fails(rx, pattern, a) then [Entry(p, a)] else []
  }

  function Verdict(env: Env, pattern: string, projects: Fetch<seq<Project>>,
                   processes: string -> Fetch<DeploymentProcess>): Execution
  {
    if !env.hasClient then Failed(NilClient)
    else if TrimSpace(pattern) == "" then Nothing
    else if !env.regex.compiles(pattern) then BadRegex(Id, pattern)
    else if projects.FetchFailed? then env.handler.handleError(Id, Naming, projects.error)
    else Finish(projects.value, ProcessScan.ProcessStep(env, processes, ActionEntry(env.regex, pattern)), Id, Organization,
                Header(pattern), OkMessage)
  }

  /** The entries of `actions`, appended to `acc`. */
  method AppendActions(rx: Regex, pattern: string, p: Project, actions: seq<DeploymentAction>, acc: seq<string>)
    returns (r: seq<string>)
    ensures r == acc + FlatMap(actions, ActionEntry(rx, pattern)(p))
  {
    ghost var f := ActionEntry(rx, pattern)(p);
    r := acc;
    var j := 0;
    while j < |actions|
      invariant 0 <= j <= |actions|
      invariant r == acc + FlatMap(actions[..j], f)
    {
      var a := actions[j];
      FlatMapAccGo(acc, actions, j, f);
      assert f(a) == ImageEntry(rx, pattern, p, a);
      if !HasImage(a) {
        assert r + f(a) == r;
        j := j + 1;
        continue;
      }
      ghost var before := r;
      if !rx.matches(pattern, a.container.value.image) {
        r := r + [Entry(p, a)];
      }
      assert r == before + f(a);
      j := j + 1;
    }
    assert actions[..j] == actions;
  }

  /** The entries of the actions of `steps`, appended to `acc`. */
  method AppendSteps(rx: Regex, pattern: string, p: Project, steps: seq<DeploymentStep>, acc: seq<string>)
    returns (r: seq<string>)
    ensures r == acc + FlatMap(steps, ProcessScan.StepEntries(ActionEntry(rx, pattern)(p)))
  {
    ghost var g := ProcessScan.StepEntries(ActionEntry(rx, pattern)(p));
    r := acc;
    var i := 0;
    while i < |steps|
      invariant 0 <= i <= |steps|
      invariant r == acc + FlatMap(steps[..i], g)
    {
      FlatMapAccGo(acc, steps, i, g);
      assert g(steps[i]) == FlatMap(steps[i].actions, ActionEntry(rx, pattern)(p));
      r := AppendActions(rx, pattern, p, steps[i].actions, r);
      i := i + 1;
    }
    assert steps[..i] == steps;
  }

  method Execute(env: Env, pattern: string, projects: Fetch<seq<Project>>,
                 processes: string -> Fetch<DeploymentProcess>) returns (out: Execution)
    ensures out == Verdict(env, pattern, projects, processes)
  {
    if !env.hasClient {
      return Failed(NilClient);
    }
    if TrimSpace(pattern) == "" {
      return Nothing;
    }
    if !env.regex.compiles(pattern) {
      return BadRegex(Id, pattern);
    }
    if projects.FetchFailed? {
      return env.handler.handleError(Id, Naming, projects.error);
    }
    out := ScanProjects(env, pattern, projects.value, processes);
  }

  /** The walk over the projects once the pattern compiles. */
  method ScanProjects(env: Env, pattern: string, ps: seq<Project>, processes: string -> Fetch<DeploymentProcess>)
    returns (out: Execution)
    ensures out == Finish(ps, ProcessScan.ProcessStep(env, processes, ActionEntry(env.regex, pattern)), Id, Organization,
                          Header(pattern), OkMessage)
  {
    ghost var step := ProcessScan.ProcessStep(env, processes, ActionEntry(env.regex, pattern));
    var actionsWithInvalidImages: seq<string> := [];
    var i := 0;
    while i < |ps|
      invariant 0 <= i <= |ps|
      invariant Scan(ps[..i], step) == Done(actionsWithInvalidImages)
    {
      var stop, failure, r := VisitProject(env, pattern, processes, ps[i], actionsWithInvalidImages);
      if stop {
        ScanStop(ps, i, step, actionsWithInvalidImages);
        return failure;
      }
      ScanGo(ps, i, step, actionsWithInvalidImages);
      actionsWithInvalidImages := r;
      i := i + 1;
    }
    assert ps[..|ps|] == ps;
    out := Summary(Id, Organization, Header(pattern), actionsWithInvalidImages, OkMessage);
  }

  /** One project of the walk: a failed process fetch stops it or is
      skipped, a project without a process adds nothing, and otherwise the
      entries of its actions are appended to `acc`. */
  method VisitProject(env: Env, pattern: string, processes: string -> Fetch<DeploymentProcess>, p: Project, acc: seq<string>)
    returns (stop: bool, failure: Execution, r: seq<string>)
    ensures var s := ProcessScan.ProcessStep(env, processes, ActionEntry(env.regex, pattern))(p);
      (stop <==> s.Exit?) && (stop ==> failure == s.outcome) && (!stop ==> r == acc + s.items)
  {
    var deploymentProcess := ProcessOrNil(p.deploymentProcessId, processes);
    if deploymentProcess.FetchFailed? {
      if !env.handler.shouldContinue(deploymentProcess.error) {
        return true, Failed(deploymentProcess.error), acc;
      }
      return false, Nothing, acc;
    }
    if deploymentProcess.value.None? {
      return false, Nothing, acc;
    }
    r := AppendSteps(env.regex, pattern, p, deploymentProcess.value.value.steps, acc);
    return false, Nothing, r;
  }

  /** An entry is listed exactly when it names a project, one of its actions
      and that action's image, the image not blank and failing the pattern. */
  lemma ListedIff(env: Env, pattern: string, ps: seq<Project>, processes: string -> Fetch<DeploymentProcess>,
                  listed: seq<string>, e: string)
    requires Scan(ps, ProcessScan.ProcessStep(env, processes, ActionEntry(env.regex, pattern))) == Done(listed)
    ensures e in listed <==>
      exists i, j, k :: 0 <= i < |ps| && 0 <= j < |ProcessScan.StepsOf(ps[i], processes)|
        && 0 <= k < |ProcessScan.StepsOf(ps[i], processes)[j].actions|
        && Fails(env.regex, pattern, ProcessScan.StepsOf(ps[i], processes)[j].actions[k])
        && e == Entry(ps[i], ProcessScan.StepsOf(ps[i], processes)[j].actions[k])
  {
    ProcessScan.ListedIff(env, ps, processes, ActionEntry(env.regex, pattern), listed, e);
  }

  /** Once the pattern compiles and no process fetch ends the check, it warns
      exactly when some action has a non-blank image that fails the pattern. */
  lemma WarningIff(env: Env, pattern: string, ps: seq<Project>, processes: string -> Fetch<DeploymentProcess>)
    requires env.hasClient && TrimSpace(pattern) != "" && env.regex.compiles(pattern)
    requires forall i :: 0 <= i < |ps| ==>
      ProcessOrNil(ps[i].deploymentProcessId, processes).Fetched?
      || env.handler.shouldContinue(ProcessOrNil(ps[i].deploymentProcessId, processes).error)
    ensures Verdict(env, pattern, Fetched(ps), processes).error == None
    ensures Verdict(env, pattern, Fetched(ps), processes).result.Some?
    ensures Verdict(env, pattern, Fetched(ps), processes).result.value.severity == Warning <==>
      exists i, j, k :: 0 <= i < |ps| && 0 <= j < |ProcessScan.StepsOf(ps[i], processes)|
        && 0 <= k < |ProcessScan.StepsOf(ps[i], processes)[j].actions|
        && Fails(env.regex, pattern, ProcessScan.StepsOf(ps[i], processes)[j].actions[k])
  {
    assert Verdict(env, pattern, Fetched(ps), processes)
      == Finish(ps, ProcessScan.ProcessStep(env, processes, ActionEntry(env.regex, pattern)), Id, Organization, Header(pattern), OkMessage);
    ProcessScan.WarningIff(env, ps, processes, ActionEntry(env.regex, pattern), Id, Organization, Header(pattern), OkMessage);
    SomeEntryIffSomeFails(env.regex, pattern, ps, processes);
  }

  /** An action contributes an entry exactly when it fails. */
  lemma SomeEntryIffSomeFails(rx: Regex, pattern: string, ps: seq<Project>, processes: string -> Fetch<DeploymentProcess>)
    ensures (exists i, j, k :: 0 <= i < |ps| && 0 <= j < |ProcessScan.StepsOf(ps[i], processes)|
               && 0 <= k < |ProcessScan.StepsOf(ps[i], processes)[j].actions|
               && ActionEntry(rx, pattern)(ps[i])(ProcessScan.StepsOf(ps[i], processes)[j].actions[k]) != [])
      <==>
      exists i, j, k :: 0 <= i < |ps| && 0 <= j < |ProcessScan.StepsOf(ps[i], processes)|
        && 0 <= k < |ProcessScan.StepsOf(ps[i], processes)[j].actions|
        && Fails(rx, pattern, ProcessScan.StepsOf(ps[i], processes)[j].actions[k])
  {
    forall p: Project, a: DeploymentAction
      ensures ActionEntry(rx, pattern)(p)(a) != [] <==> Fails(rx, pattern, a)
    {
      assert ActionEntry(rx, pattern)(p)(a) == ImageEntry(rx, pattern, p, a);
    }
  }
}
