/** `OctoLintInvalidVariableNames`: the project variables whose names do not
    match the configured regular expression. */
module InvalidVariables {
  import opened Wrappers
  import opened Seqs
  import opened Strings
  import opened Resources
  import opened Checks

  const Id: string := "OctoLintInvalidVariableNames"

  function Header(pattern: string): string
  {
    "The following variables do not match the regex " + pattern + ":\n"
  }

  const OkMessage: string := "There are no unused variables"

  /** A variable that is reported: not ignored, and its name fails the
      pattern. */
  predicate Invalid(rx: Regex, pattern: string, v: Variable)
  {
    !IgnoreVariable(v.name) && !rx.matches(pattern, v.name)
  }

  /** `entry` is the line that reports the invalid variable `v` of `p`. */
  predicate Reports(rx: Regex, pattern: string, p: Project, v: Variable, entry: string)
  {
    Invalid(rx, pattern, v) && entry == p.name + ": " + v.name
  }

  /** What one variable of project `projectName` contributes. */
  function VariableEntry(rx: Regex, pattern: string, projectName: string): Variable -> seq<string>
  {
    (v: Variable) => if IgnoreVariable(v.name) then []
      else if !rx.matches(pattern, v.name) then [projectName + ": " + v.name]
      else []
  }

  /** What one project contributes: an entry per invalid variable, in the
      order of its variable set; a failed variable fetch is skipped or ends
      the check. */
  function ProjectStep(env: Env, pattern: string, variablesOf: Project -> Fetch<seq<Variable>>): Project -> Step<string, Execution>
  {
    (p: Project) => match variablesOf(p)
      case FetchFailed(e) => SkipOrStop(env.handler, e)
      case Fetched(vs) => Emit(FlatMap(vs, VariableEntry(env.regex, pattern, p.name)))
  }

  /** The outcome of the check: the projects are fetched before the pattern
      is compiled, and a blank pattern does not switch the check off. */
  function Verdict(env: Env, pattern: string, projects: Fetch<seq<Project>>,
                   variablesOf: Project -> Fetch<seq<Variable>>): Execution
  {
    if !env.hasClient then Failed(NilClient)
    else if projects.FetchFailed? then env.handler.handleError(Id, Naming, projects.error)
    else if !env.regex.compiles(pattern) then BadRegex(Id, pattern)
    else Finish(projects.value, ProjectStep(env, pattern, variablesOf), Id, Naming, Header(pattern), OkMessage)
  }

  /** The entries of one variable set, appended to `messages`. */
  method AppendInvalid(env: Env, pattern: string, p: Project, vs: seq<Variable>, messages: seq<string>)
    returns (r: seq<string>)
    ensures r == messages + FlatMap(vs, VariableEntry(env.regex, pattern, p.name))
  {
    r := messages;
    var j := 0;
    while j < |vs|
      invariant 0 <= j <= |vs|
      invariant r == messages + FlatMap(vs[..j], VariableEntry(env.regex, pattern, p.name))
    {
      var v := vs[j];
      FlatMapAccGo(messages, vs, j, VariableEntry(env.regex, pattern, p.name));
      ghost var before := r;
      if IgnoreVariable(v.name) {
        assert r == before + VariableEntry(env.regex, pattern, p.name)(v);
        j := j + 1;
        continue;
      }
      if !env.regex.matches(pattern, v.name) {
        r := r + [p.name + ": " + v.name];
      }
      assert r == before + VariableEntry(env.regex, pattern, p.name)(v);
      j := j + 1;
    }
    assert vs[..j] == vs;
  }

  method Execute(env: Env, pattern: string, projects: Fetch<seq<Project>>,
                 variablesOf: Project -> Fetch<seq<Variable>>) returns (out: Execution)
    ensures out == Verdict(env, pattern, projects, variablesOf)
  {
    if !env.hasClient {
      return Failed(NilClient);
    }
    if projects.FetchFailed? {
      return env.handler.handleError(Id, Naming, projects.error);
    }
    if !env.regex.compiles(pattern) {
      return BadRegex(Id, pattern);
    }
    var ps := projects.value;
    ghost var step := ProjectStep(env, pattern, variablesOf);
    var messages: seq<string> := [];
    var i := 0;
    while i < |ps|
      invariant 0 <= i <= |ps|
      invariant Scan(ps[..i], step) == Done(messages)
    {
      var p := ps[i];
      var variableSet := variablesOf(p);
      if variableSet.FetchFailed? {
        if !env.handler.shouldContinue(variableSet.error) {
          ScanStop(ps, i, step, messages);
          return Failed(variableSet.error);
        }
        ScanGo(ps, i, step, messages);
        i := i + 1;
        continue;
      }
      ghost var before := messages;
      messages := AppendInvalid(env, pattern, p, variableSet.value, messages);
      ScanGo(ps, i, step, before);
      i := i + 1;
    }
    assert ps[..|ps|] == ps;
    out := Summary(Id, Naming, Header(pattern), messages, OkMessage);
  }

  /** An entry is listed exactly when it names a fetched project and one of
      its invalid variables. */
  lemma ListedIff(env: Env, pattern: string, ps: seq<Project>, variablesOf: Project -> Fetch<seq<Variable>>,
                  listed: seq<string>, entry: string)
    requires Scan(ps, ProjectStep(env, pattern, variablesOf)) == Done(listed)
    ensures entry in listed <==>
      exists i, j :: 0 <= i < |ps| && variablesOf(ps[i]).Fetched? && 0 <= j < |variablesOf(ps[i]).value|
        && Invalid(env.regex, pattern, variablesOf(ps[i]).value[j])
        && entry == ps[i].name + ": " + variablesOf(ps[i]).value[j].name
  {
    FinishEntries(ps, ProjectStep(env, pattern, variablesOf), listed, entry);
    forall i | 0 <= i < |ps|
      ensures (ProjectStep(env, pattern, variablesOf)(ps[i]).Emit? && entry in ProjectStep(env, pattern, variablesOf)(ps[i]).items)
        <==> variablesOf(ps[i]).Fetched?
             && exists j :: 0 <= j < |variablesOf(ps[i]).value| && Reports(env.regex, pattern, ps[i], variablesOf(ps[i]).value[j], entry)
    {
      ProjectEntries(env, pattern, variablesOf, ps[i], entry);
    }
  }

  /** The entries of one project: one per invalid variable of its fetched
      variable set. */
  lemma ProjectEntries(env: Env, pattern: string, variablesOf: Project -> Fetch<seq<Variable>>, p: Project, entry: string)
    ensures (ProjectStep(env, pattern, variablesOf)(p).Emit? && entry in ProjectStep(env, pattern, variablesOf)(p).items)
      <==> variablesOf(p).Fetched?
           && exists j :: 0 <= j < |variablesOf(p).value| && Reports(env.regex, pattern, p, variablesOf(p).value[j], entry)
  {
    if variablesOf(p).Fetched? {
      FlatMapMember(variablesOf(p).value, VariableEntry(env.regex, pattern, p.name), entry);
    }
  }

  /** The projects are fetched before the pattern is looked at: a failed
      project fetch wins over a pattern that does not compile, and a pattern
      that does not compile gives an Error result, never an error. */
  lemma RegexCheckedAfterFetch(env: Env, pattern: string, projects: Fetch<seq<Project>>,
                               variablesOf: Project -> Fetch<seq<Variable>>)
    requires env.hasClient
    ensures projects.FetchFailed? ==> Verdict(env, pattern, projects, variablesOf) == env.handler.handleError(Id, Naming, projects.error)
    ensures projects.Fetched? && !env.regex.compiles(pattern) ==>
      Verdict(env, pattern, projects, variablesOf).error == None
      && Verdict(env, pattern, projects, variablesOf).result.Some?
      && Verdict(env, pattern, projects, variablesOf).result.value.severity == Error
      && Verdict(env, pattern, projects, variablesOf).result.value.category == Naming
  {
  }

  /** Unlike the other naming checks, a blank pattern does not switch this
      one off: once the projects are fetched it always yields a result or an
      error. */
  lemma NeverSwitchedOff(env: Env, pattern: string, ps: seq<Project>, variablesOf: Project -> Fetch<seq<Variable>>)
    requires env.hasClient
    ensures Verdict(env, pattern, Fetched(ps), variablesOf) != Nothing
  {
    var step := ProjectStep(env, pattern, variablesOf);
    if env.regex.compiles(pattern) {
      match Scan(ps, step)
      case Done(entries) =>
      case Exited(o) =>
        var i :| 0 <= i < |ps| && step(ps[i]) == Exit(o) && NoExit(ps[..i], step) by {
          ScanExited(ps, step, o);
        }
    }
  }

  /** When no variable fetch ends the check, it warns exactly when some
      fetched project has an invalid variable. */
  lemma WarningIff(env: Env, pattern: string, ps: seq<Project>, variablesOf: Project -> Fetch<seq<Variable>>)
    requires env.hasClient && env.regex.compiles(pattern)
    requires forall i :: 0 <= i < |ps| ==> variablesOf(ps[i]).Fetched? || env.handler.shouldContinue(variablesOf(ps[i]).error)
    ensures Verdict(env, pattern, Fetched(ps), variablesOf).error == None
    ensures Verdict(env, pattern, Fetched(ps), variablesOf).result.Some?
    ensures Verdict(env, pattern, Fetched(ps), variablesOf).result.value.severity == Warning <==>
      exists i, j :: 0 <= i < |ps| && variablesOf(ps[i]).Fetched? && 0 <= j < |variablesOf(ps[i]).value|
        && Invalid(env.regex, pattern, variablesOf(ps[i]).value[j])
  {
    var step := ProjectStep(env, pattern, variablesOf);
    FinishWarningIff(ps, step, Id, Naming, Header(pattern), OkMessage);
    forall i | 0 <= i < |ps| && variablesOf(ps[i]).Fetched?
      ensures step(ps[i]).items != [] <==>
        exists j :: 0 <= j < |variablesOf(ps[i]).value| && Invalid(env.regex, pattern, variablesOf(ps[i]).value[j])
    {
      FlatMapEmpty(variablesOf(ps[i]).value, VariableEntry(env.regex, pattern, ps[i].name));
    }
  }

  // ---------------------------------------------------------------- naive scans

  /** Some package of an action names `name` in its feed or package ID. */
  predicate PackagesMention(packages: seq<PackageReference>, name: string)
  {
    exists k :: 0 <= k < |packages| && (Contains(packages[k].feedId, name) || Contains(packages[k].packageId, name))
  }

  predicate ActionMentions(a: DeploymentAction, name: string)
  {
    PropertiesMention(a.properties, name) || PackagesMention(a.packages, name)
  }

  predicate ActionsMention(actions: seq<DeploymentAction>, name: string)
  {
    actions != [] && (ActionMentions(actions[0], name) || ActionsMention(actions[1..], name))
  }

  predicate StepsMention(steps: seq<DeploymentStep>, name: string)
  {
    steps != [] && (ActionsMention(steps[0].actions, name) || StepsMention(steps[1..], name))
  }

  /** `naiveStepVariableScan` of this check: whether some action property
      value, package feed ID or package ID holds the variable's name. */
  predicate StepVariableScan(steps: seq<DeploymentStep>, variable: Variable)
  {
    StepsMention(steps, variable.name)
  }

  lemma {:induction false} ActionsMentionIff(actions: seq<DeploymentAction>, name: string)
    ensures ActionsMention(actions, name) <==> exists j :: 0 <= j < |actions| && ActionMentions(actions[j], name)
  {
    if actions != [] {
      ActionsMentionIff(actions[1..], name);
      if exists j :: 0 <= j < |actions| && ActionMentions(actions[j], name) {
        var j :| 0 <= j < |actions| && ActionMentions(actions[j], name);
        if j > 0 {
          assert actions[1..][j - 1] == actions[j];
        }
      }
    }
  }

  lemma {:induction false} StepsMentionIff(steps: seq<DeploymentStep>, name: string)
    ensures StepsMention(steps, name) <==>
      exists i, j :: 0 <= i < |steps| && 0 <= j < |steps[i].actions| && ActionMentions(steps[i].actions[j], name)
  {
    if steps != [] {
      StepsMentionIff(steps[1..], name);
      ActionsMentionIff(steps[0].actions, name);
      if exists i, j :: 0 <= i < |steps| && 0 <= j < |steps[i].actions| && ActionMentions(steps[i].actions[j], name) {
        var i, j :| 0 <= i < |steps| && 0 <= j < |steps[i].actions| && ActionMentions(steps[i].actions[j], name);
        if i > 0 {
          assert steps[1..][i - 1] == steps[i];
        }
      }
    }
  }

  /** The step scan finds the name exactly when some action of some step
      holds it in a property value, a package's feed ID or its package ID;
      no steps (a nil list) never mention it. */
  lemma StepVariableScanIff(steps: seq<DeploymentStep>, variable: Variable)
    ensures StepVariableScan(steps, variable) <==>
      exists i, j :: 0 <= i < |steps| && 0 <= j < |steps[i].actions|
        && ((exists k :: k in steps[i].actions[j].properties
               && Contains(steps[i].actions[j].properties[k], variable.name))
            || (exists k :: 0 <= k < |steps[i].actions[j].packages|
                  && (Contains(steps[i].actions[j].packages[k].feedId, variable.name)
                      || Contains(steps[i].actions[j].packages[k].packageId, variable.name))))
    ensures steps == [] ==> !StepVariableScan(steps, variable)
  {
    StepsMentionIff(steps, variable.name);
  }
}
