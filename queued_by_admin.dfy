/** `OctoLintDeploymentQueuedByAdmin`: the projects that members of the
    administrator teams deployed. */
module QueuedByAdmin {
  import opened Wrappers
  import opened Seqs
  import opened Strings
  import opened Resources
  import opened Checks

  const Id: string := "OctoLintDeploymentQueuedByAdmin"

  const Header: string :=
    "The following projects were deployed by admins. Consider creating a limited user account to perform deployments:\n"
  const OkMessage: string := "No deployments were found"

  /** The teams whose members count as administrators, looked up by name. */
  const AdminTeamNames: seq<string> := ["Octopus Administrators", "Space Managers", "Octopus Managers"]

  // ---------------------------------------------------------------- admin teams

  function TeamStep(teamsNamed: string -> Fetch<seq<Team>>): string -> Step<Team, Err>
  {
    (name: string) => match teamsNamed(name)
      case FetchFailed(e) => Exit(e)
      case Fetched(ts) => Emit(ts)
  }

  /** `getAdminTeams`: the teams found for each administrator team name, in
      order; the first failed lookup fails the whole call. */
  function AdminTeams(teamsNamed: string -> Fetch<seq<Team>>): Fetch<seq<Team>>
  {
    match Scan(AdminTeamNames, TeamStep(teamsNamed))
    case Done(ts) => Fetched(ts)
    case Exited(e) => FetchFailed(e)
  }

  method GetAdminTeams(teamsNamed: string -> Fetch<seq<Team>>) returns (r: Fetch<seq<Team>>)
    ensures r == AdminTeams(teamsNamed)
  {
    var adminTeams := AdminTeamNames;
    var teamResources: seq<Team> := [];
    var i := 0;
    while i < |adminTeams|
      invariant 0 <= i <= |adminTeams|
      invariant Scan(adminTeams[..i], TeamStep(teamsNamed)) == Done(teamResources)
    {
      var team := teamsNamed(adminTeams[i]);
      if team.FetchFailed? {
        ScanStop(adminTeams, i, TeamStep(teamsNamed), teamResources);
        return FetchFailed(team.error);
      }
      ScanGo(adminTeams, i, TeamStep(teamsNamed), teamResources);
      teamResources := teamResources + team.value;
      i := i + 1;
    }
    assert adminTeams[..i] == adminTeams;
    return Fetched(teamResources);
  }

  /** Exactly the three administrator team names are looked up, in order:
      when all three lookups succeed the teams are theirs concatenated, and
      otherwise the first failure is returned. */
  lemma AdminTeamsQueries(teamsNamed: string -> Fetch<seq<Team>>)
    ensures AdminTeams(teamsNamed).Fetched? <==>
      teamsNamed("Octopus Administrators").Fetched? && teamsNamed("Space Managers").Fetched?
      && teamsNamed("Octopus Managers").Fetched?
    ensures AdminTeams(teamsNamed).Fetched? ==>
      AdminTeams(teamsNamed).value
        == teamsNamed("Octopus Administrators").value + teamsNamed("Space Managers").value + teamsNamed("Octopus Managers").value
    ensures teamsNamed("Octopus Administrators").FetchFailed? ==>
      AdminTeams(teamsNamed) == FetchFailed(teamsNamed("Octopus Administrators").error)
  {
    var names := AdminTeamNames;
    var f := TeamStep(teamsNamed);
    assert names[..0] == [];
    assert names[..1] == [names[0]];
    ScanSnoc(names[..0], names[0], f);
    assert names[..2] == names[..1] + [names[1]];
    ScanSnoc(names[..1], names[1], f);
    assert names == names[..2] + [names[2]];
    ScanSnoc(names[..2], names[2], f);
  }

  // ---------------------------------------------------------------- deployers of a project

  /** A user who belongs to one of the teams. */
  predicate IsAdmin(teams: seq<Team>, u: User)
  {
    exists q :: 0 <= q < |teams| && u.id in teams[q].memberUserIds
  }

  function AdminName(teams: seq<Team>): User -> seq<string>
  {
    (u: User) => if IsAdmin(teams, u) then [u.username] else []
  }

  /** The usernames of the administrators among `users`, each once, in the
      order they first appear. */
  function AdminsIn(teams: seq<Team>, users: seq<User>): seq<string>
  {
    Dedup(FlatMap(users, AdminName(teams)))
  }

  /** What one deployment-queued event contributes: nothing for the system
      user, otherwise the users the server finds for its username; a failed
      user lookup is skipped or ends the check. */
  function EventStep(env: Env, usersNamed: string -> Fetch<seq<User>>): Event -> Step<User, Execution>
  {
    (e: Event) =>
      if e.username == "system" then Emit([])
      else match usersNamed(e.username)
        case FetchFailed(err) => SkipOrStop(env.handler, err)
        case Fetched(us) => Emit(us)
  }

  /** What one project contributes: "name (u1,u2,...)" when administrators
      queued its deployments; a failed event fetch or user lookup is skipped
      or ends the check. */
  function ProjectStep(env: Env, teams: seq<Team>, eventsOf: Project -> Fetch<seq<Event>>,
                       usersNamed: string -> Fetch<seq<User>>): Project -> Step<string, Execution>
  {
    (p: Project) => match eventsOf(p)
      case FetchFailed(e) => SkipOrStop(env.handler, e)
      case Fetched(evs) =>
        match Scan(evs, EventStep(env, usersNamed))
        case Exited(o) => Exit(o)
        case Done(us) =>
          Emit(if AdminsIn(teams, us) != [] then [p.name + " (" + Join(AdminsIn(teams, us), ",") + ")"] else [])
  }

  /** The outcome of the check; `projects` is the (possibly limited) list the
      client wrapper returns, and `eventsOf` the deployment-queued events of
      a project in the last three months. */
  function Verdict(env: Env, projects: Fetch<seq<Project>>, teamsNamed: string -> Fetch<seq<Team>>,
                   eventsOf: Project -> Fetch<seq<Event>>, usersNamed: string -> Fetch<seq<User>>): Execution
  {
    if !env.hasClient then Failed(NilClient)
    else if projects.FetchFailed? then env.handler.handleError(Id, Security, projects.error)
    else match AdminTeams(teamsNamed)
      case FetchFailed(e) => env.handler.handleError(Id, Security, e)
      case Fetched(teams) => Finish(projects.value, ProjectStep(env, teams, eventsOf, usersNamed), Id, Security, Header, OkMessage)
  }

  /** The loop over the teams for one user: adds the user's name when the
      user belongs to some team and is not listed yet. */
  method AddIfAdmin(teams: seq<Team>, u: User, deployers: seq<string>, ghost prior: seq<string>)
    returns (r: seq<string>)
    requires deployers == Dedup(prior)
    ensures r == Dedup(prior + AdminName(teams)(u))
  {
    r := deployers;
    DedupSpec(prior);
    DedupSnoc(prior, u.username);
    DedupSpec(prior + [u.username]);
    var k := 0;
    while k < |teams|
      invariant 0 <= k <= |teams|
      invariant r == if exists q :: 0 <= q < k && u.id in teams[q].memberUserIds then Dedup(prior + [u.username]) else deployers
    {
      if IndexOf(teams[k].memberUserIds, u.id) != -1 && IndexOf(r, u.username) == -1 {
        r := r + [u.username];
      }
      k := k + 1;
    }
    if IsAdmin(teams, u) {
      assert prior + AdminName(teams)(u) == prior + [u.username];
    } else {
      assert prior + AdminName(teams)(u) == prior;
    }
  }

  /** One more user adds that user's name to the administrators found, unless
      it is already there. */
  lemma AdminsInSnoc(teams: seq<Team>, seen: seq<User>, items: seq<User>, j: int)
    requires 0 <= j < |items|
    ensures AdminsIn(teams, seen + items[..j + 1])
      == Dedup(FlatMap(seen + items[..j], AdminName(teams)) + AdminName(teams)(items[j]))
  {
    assert seen + items[..j + 1] == (seen + items[..j]) + [items[j]];
    FlatMapSnoc(seen + items[..j], items[j], AdminName(teams));
  }

  /** The loops over the users found for one event and over the teams: adds
      each administrator not yet listed. */
  method AddAdmins(teams: seq<Team>, items: seq<User>, deployers: seq<string>, ghost seen: seq<User>)
    returns (r: seq<string>)
    requires deployers == AdminsIn(teams, seen)
    ensures r == AdminsIn(teams, seen + items)
  {
    r := deployers;
    var j := 0;
    assert seen + items[..0] == seen;
    while j < |items|
      invariant 0 <= j <= |items|
      invariant r == AdminsIn(teams, seen + items[..j])
    {
      r := AddIfAdmin(teams, items[j], r, FlatMap(seen + items[..j], AdminName(teams)));
      AdminsInSnoc(teams, seen, items, j);
      j := j + 1;
    }
    assert items[..j] == items;
  }

  /** The loop over one project's events: the users found for them, or the
      outcome a failed lookup ends the check with. */
  method ProjectDeployers(env: Env, teams: seq<Team>, evs: seq<Event>, usersNamed: string -> Fetch<seq<User>>)
    returns (stop: Option<Execution>, deployers: seq<string>)
    ensures Scan(evs, EventStep(env, usersNamed)).Exited? <==> stop.Some?
    ensures stop.Some? ==> Scan(evs, EventStep(env, usersNamed)) == Exited(stop.value)
    ensures stop.None? ==> deployers == AdminsIn(teams, Scan(evs, EventStep(env, usersNamed)).items)
  {
    ghost var step := EventStep(env, usersNamed);
    ghost var seen: seq<User> := [];
    deployers := [];
    var i := 0;
    while i < |evs|
      invariant 0 <= i <= |evs|
      invariant Scan(evs[..i], step) == Done(seen)
      invariant deployers == AdminsIn(teams, seen)
    {
      var r := evs[i];
      if r.username == "system" {
        ScanGo(evs, i, step, seen);
        assert seen + [] == seen;
        i := i + 1;
        continue;
      }
      var user := usersNamed(r.username);
      if user.FetchFailed? {
        if !env.handler.shouldContinue(user.error) {
          ScanStop(evs, i, step, seen);
          return Some(Failed(user.error)), deployers;
        }
        ScanGo(evs, i, step, seen);
        assert seen + [] == seen;
        i := i + 1;
        continue;
      }
      deployers := AddAdmins(teams, user.value, deployers, seen);
      ScanGo(evs, i, step, seen);
      seen := seen + user.value;
      i := i + 1;
    }
    assert evs[..i] == evs;
    return None, deployers;
  }

  method Execute(env: Env, projects: Fetch<seq<Project>>, teamsNamed: string -> Fetch<seq<Team>>,
                 eventsOf: Project -> Fetch<seq<Event>>, usersNamed: string -> Fetch<seq<User>>) returns (out: Execution)
    ensures out == Verdict(env, projects, teamsNamed, eventsOf, usersNamed)
  {
    if !env.hasClient {
      return Failed(NilClient);
    }
    if projects.FetchFailed? {
      return env.handler.handleError(Id, Security, projects.error);
    }
    var teams := GetAdminTeams(teamsNamed);
    if teams.FetchFailed? {
      return env.handler.handleError(Id, Security, teams.error);
    }
    var ps := projects.value;
    ghost var step := ProjectStep(env, teams.value, eventsOf, usersNamed);
    var projectsDeployedByAdmins: seq<string> := [];
    var i := 0;
    while i < |ps|
      invariant 0 <= i <= |ps|
      invariant Scan(ps[..i], step) == Done(projectsDeployedByAdmins)
    {
      var p := ps[i];
      var resource := eventsOf(p);
      if resource.FetchFailed? {
        if !env.handler.shouldContinue(resource.error) {
          ScanStop(ps, i, step, projectsDeployedByAdmins);
          return Failed(resource.error);
        }
        ScanGo(ps, i, step, projectsDeployedByAdmins);
        i := i + 1;
        continue;
      }
      var stop, usersWhoDeployedProject := ProjectDeployers(env, teams.value, resource.value, usersNamed);
      if stop.Some? {
        ScanStop(ps, i, step, projectsDeployedByAdmins);
        return stop.value;
      }
      ghost var before := projectsDeployedByAdmins;
      if |usersWhoDeployedProject| != 0 {
        projectsDeployedByAdmins := projectsDeployedByAdmins + [p.name + " (" + Join(usersWhoDeployedProject, ",") + ")"];
      }
      ScanGo(ps, i, step, before);
      i := i + 1;
    }
    assert ps[..|ps|] == ps;
    out := Summary(Id, Security, Header, projectsDeployedByAdmins, OkMessage);
  }

  /** The deployers listed for a project never repeat, and they are exactly
      the administrators among the users found for its non-system events. */
  lemma AdminsInIff(teams: seq<Team>, users: seq<User>, name: string)
    ensures Distinct(AdminsIn(teams, users))
    ensures name in AdminsIn(teams, users) <==>
      exists k :: 0 <= k < |users| && IsAdmin(teams, users[k]) && users[k].username == name
  {
    DedupSpec(FlatMap(users, AdminName(teams)));
    FlatMapMember(users, AdminName(teams), name);
  }

  /** Events of the system user never contribute a user. */
  lemma SystemEventsSkipped(env: Env, usersNamed: string -> Fetch<seq<User>>, evs: seq<Event>)
    requires forall k :: 0 <= k < |evs| ==> evs[k].username == "system"
    ensures Scan(evs, EventStep(env, usersNamed)) == Done([])
  {
    ScanDone(evs, EventStep(env, usersNamed));
    FlatMapEmpty(evs, Emitted(EventStep(env, usersNamed)));
  }

  /** Project `p` is listed with the text `e`: its events were fetched,
      its users looked up, and `e` is its name followed by the non-empty
      comma-separated list of administrators among those users. */
  predicate ListedAs(env: Env, teams: seq<Team>, eventsOf: Project -> Fetch<seq<Event>>,
                     usersNamed: string -> Fetch<seq<User>>, p: Project, e: string)
  {
    eventsOf(p).Fetched? && Scan(eventsOf(p).value, EventStep(env, usersNamed)).Done?
    && AdminsIn(teams, Scan(eventsOf(p).value, EventStep(env, usersNamed)).items) != []
    && e == p.name + " (" + Join(AdminsIn(teams, Scan(eventsOf(p).value, EventStep(env, usersNamed)).items), ",") + ")"
  }

  /** The texts the project walk collects are exactly the listings of the
      projects deployed by administrators. */
  lemma ListedIff(env: Env, ps: seq<Project>, teams: seq<Team>, eventsOf: Project -> Fetch<seq<Event>>,
                  usersNamed: string -> Fetch<seq<User>>, listed: seq<string>, e: string)
    requires Scan(ps, ProjectStep(env, teams, eventsOf, usersNamed)) == Done(listed)
    ensures e in listed <==> exists i :: 0 <= i < |ps| && ListedAs(env, teams, eventsOf, usersNamed, ps[i], e)
  {
    var step := ProjectStep(env, teams, eventsOf, usersNamed);
    FinishEntries(ps, step, listed, e);
    forall i | 0 <= i < |ps|
      ensures (step(ps[i]).Emit? && e in step(ps[i]).items) <==> ListedAs(env, teams, eventsOf, usersNamed, ps[i], e)
    {
      StepListing(env, teams, eventsOf, usersNamed, ps[i], e);
    }
  }

  lemma StepListing(env: Env, teams: seq<Team>, eventsOf: Project -> Fetch<seq<Event>>,
                    usersNamed: string -> Fetch<seq<User>>, p: Project, e: string)
    ensures (ProjectStep(env, teams, eventsOf, usersNamed)(p).Emit? && e in ProjectStep(env, teams, eventsOf, usersNamed)(p).items)
      <==> ListedAs(env, teams, eventsOf, usersNamed, p, e)
  {
    match eventsOf(p)
    case FetchFailed(err) =>
      assert ProjectStep(env, teams, eventsOf, usersNamed)(p) == SkipOrStop(env.handler, err);
    case Fetched(evs) =>
      match Scan(evs, EventStep(env, usersNamed))
      case Exited(o) =>
      case Done(us) =>
  }

  /** When no fetch or lookup ends the check, it warns exactly when some
      project has a deployment queued by an administrator. */
  lemma WarningIff(env: Env, ps: seq<Project>, teams: seq<Team>, eventsOf: Project -> Fetch<seq<Event>>,
                   usersNamed: string -> Fetch<seq<User>>)
    requires NoExit(ps, ProjectStep(env, teams, eventsOf, usersNamed))
    ensures Finish(ps, ProjectStep(env, teams, eventsOf, usersNamed), Id, Security, Header, OkMessage).error == None
    ensures Finish(ps, ProjectStep(env, teams, eventsOf, usersNamed), Id, Security, Header, OkMessage).result.Some?
    ensures Finish(ps, ProjectStep(env, teams, eventsOf, usersNamed), Id, Security, Header, OkMessage).result.value.severity == Warning
      <==> exists i :: 0 <= i < |ps| && eventsOf(ps[i]).Fetched?
             && Scan(eventsOf(ps[i]).value, EventStep(env, usersNamed)).Done?
             && exists k :: 0 <= k < |Scan(eventsOf(ps[i]).value, EventStep(env, usersNamed)).items|
                  && IsAdmin(teams, Scan(eventsOf(ps[i]).value, EventStep(env, usersNamed)).items[k])
  {
    var step := ProjectStep(env, teams, eventsOf, usersNamed);
    FinishWarningIff(ps, step, Id, Security, Header, OkMessage);
    forall i | 0 <= i < |ps| && eventsOf(ps[i]).Fetched? && Scan(eventsOf(ps[i]).value, EventStep(env, usersNamed)).Done?
      ensures step(ps[i]).items != [] <==>
        exists k :: 0 <= k < |Scan(eventsOf(ps[i]).value, EventStep(env, usersNamed)).items|
          && IsAdmin(teams, Scan(eventsOf(ps[i]).value, EventStep(env, usersNamed)).items[k])
    {
      var us := Scan(eventsOf(ps[i]).value, EventStep(env, usersNamed)).items;
      FlatMapEmpty(us, AdminName(teams));
      DedupSpec(FlatMap(us, AdminName(teams)));
      if FlatMap(us, AdminName(teams)) != [] {
        assert FlatMap(us, AdminName(teams))[0] in Dedup(FlatMap(us, AdminName(teams)));
      }
    }
  }
}
