/** `OctoLintProjectReleaseTemplate`: the projects whose release versioning
    template does not match the configured regular expression. */
module ReleaseTemplates {
  import opened Wrappers
  import opened Seqs
  import opened Strings
  import opened Resources
  import opened Checks

  const Id: string := "OctoLintProjectReleaseTemplate"

  function Header(pattern: string): string
  {
    "The following project release templates do not match the regex " + pattern + ":\n"
  }

  function OkMessage(pattern: string): string
  {
    "All projects match the release templates regex " + pattern
  }

  /** A project with a versioning strategy whose template fails the pattern. */
  function BadTemplate(rx: Regex, pattern: string): Project -> bool
  {
    (p: Project) => p.versioningStrategy.Some? && !rx.matches(pattern, p.versioningStrategy.value.template)
  }

  /** The line that reports a project: its name, then its template. */
  function Line(p: Project): string
  {
    p.name + " - " + match p.versioningStrategy { case Some(v) => v.template case None => "" }
  }

  function ProjectEntry(rx: Regex, pattern: string): Project -> seq<string>
  {
    (p: Project) =>
      if p.versioningStrategy.Some? && !rx.matches(pattern, p.versioningStrategy.value.template)
      then [p.name + " - " + p.versioningStrategy.value.template]
      else []
  }

  function Verdict(env: Env, pattern: string, projects: Fetch<seq<Project>>): Execution
  {
    if !env.hasClient then Failed(NilClient)
    else if TrimSpace(pattern) == "" then Nothing
    else if !env.regex.compiles(pattern) then BadRegex(Id, pattern)
    else if projects.FetchFailed? then env.handler.handleError(Id, Naming, projects.error)
    else Summary(Id, Naming, Header(pattern), FlatMap(projects.value, ProjectEntry(env.regex, pattern)), OkMessage(pattern))
  }

  method Execute(env: Env, pattern: string, projects: Fetch<seq<Project>>) returns (out: Execution)
    ensures out == Verdict(env, pattern, projects)
  {
    if !env.hasClient {
      return Failed(NilClient);
    }
    if TrimSpace(pattern) == "" {
      return Nothing;
    }
    if !env.regex.compiles(pattern) {
      return BadRegex(Id, pattern);
    }
    if projects.FetchFailed? {
      return env.handler.handleError(Id, Naming, projects.error);
    }
    var ps := projects.value;
    var results: seq<string> := [];
    var i := 0;
    while i < |ps|
      invariant 0 <= i <= |ps|
      invariant results == FlatMap(ps[..i], ProjectEntry(env.regex, pattern))
    {
      var p := ps[i];
      FlatMapGo(ps, i, ProjectEntry(env.regex, pattern));
      if p.versioningStrategy.Some? && !env.regex.matches(pattern, p.versioningStrategy.value.template) {
        results := results + [p.name + " - " + p.versioningStrategy.value.template];
      }
      i := i + 1;
    }
    assert ps[..i] == ps;
    out := Summary(Id, Naming, Header(pattern), results, OkMessage(pattern));
  }

  /** The entries are the lines of the projects that have a versioning
      strategy whose template fails the pattern, one each and in project
      order; a project without a strategy is never reported. */
  lemma ReportedInOrder(rx: Regex, pattern: string, ps: seq<Project>)
    ensures |FlatMap(ps, ProjectEntry(rx, pattern))| == |Filter(ps, BadTemplate(rx, pattern))|
    ensures forall k :: 0 <= k < |Filter(ps, BadTemplate(rx, pattern))| ==>
      FlatMap(ps, ProjectEntry(rx, pattern))[k] == Line(Filter(ps, BadTemplate(rx, pattern))[k])
    ensures forall p :: p in Filter(ps, BadTemplate(rx, pattern)) ==> p in ps && p.versioningStrategy.Some?
  {
    FlatMapSelect(ps, BadTemplate(rx, pattern), Line, ProjectEntry(rx, pattern));
    forall p | p in Filter(ps, BadTemplate(rx, pattern))
      ensures p in ps && p.versioningStrategy.Some?
    {
      FilterMember(ps, BadTemplate(rx, pattern), p);
    }
  }

  /** Once the pattern compiles and the projects are fetched, the check
      warns exactly when some project's template fails the pattern. */
  lemma WarningIff(env: Env, pattern: string, ps: seq<Project>)
    requires env.hasClient && TrimSpace(pattern) != "" && env.regex.compiles(pattern)
    ensures Verdict(env, pattern, Fetched(ps)).error == None && Verdict(env, pattern, Fetched(ps)).result.Some?
    ensures Verdict(env, pattern, Fetched(ps)).result.value.severity == Warning <==>
      exists i :: 0 <= i < |ps| && ps[i].versioningStrategy.Some?
        && !env.regex.matches(pattern, ps[i].versioningStrategy.value.template)
  {
    ListingWarningIff(ps, ProjectEntry(env.regex, pattern), Id, Naming, Header(pattern), OkMessage(pattern));
  }
}
