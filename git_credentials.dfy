/** `OctoLintSharedGitUsername`: Git usernames that several version
    controlled projects authenticate with. */
module GitCredentialsReuse {
  import opened Wrappers
  import opened Seqs
  import opened Strings
  import opened Resources
  import opened Checks

  const Id: string := "OctoLintSharedGitUsername"

  const Header: string := "The following Git usernames have been reused across the following projects:\n"
  const OkMessage: string := "No Git usernames have been resued"

  /** A version-controlled project that authenticates with a username and
      password and names the username. */
  predicate Counted(p: GitProject)
  {
    p.persistenceType == "VersionControlled" && p.credentials.Some?
    && p.credentials.value.credentialType == "UsernamePassword" && p.credentials.value.username.Some?
  }

  /** The check reads the credentials of every version-controlled project;
      a version-controlled project without credentials stops the program. */
  predicate CredentialsPresent(ps: seq<GitProject>)
  {
    forall i :: 0 <= i < |ps| && ps[i].persistenceType == "VersionControlled" ==> ps[i].credentials.Some?
  }

  /** The name of a project when it is counted under `u`. */
  function ProjectOfUser(u: string): GitProject -> seq<string>
  {
    (p: GitProject) => if Counted(p) && p.credentials.value.username.value == u then [p.name] else []
  }

  /** The projects counted under `u`, in input order. */
  function ProjectsOf(ps: seq<GitProject>, u: string): seq<string>
  {
    FlatMap(ps, ProjectOfUser(u))
  }

  /** `users` lists, each once and in some order, the usernames counted for
      two or more projects. */
  ghost predicate Duplicated(ps: seq<GitProject>, users: seq<string>)
  {
    Distinct(users) && forall u :: u in users <==> |ProjectsOf(ps, u)| > 1
  }

  function LineFor(ps: seq<GitProject>): string -> seq<string>
  {
    (u: string) => [u + " (" + Join(ProjectsOf(ps, u), ", ") + ")"]
  }

  /** The outcome of the check once the reused usernames are listed in
      `users` (the order the Go map yields them in). */
  function Verdict(env: Env, projects: Fetch<seq<GitProject>>, users: seq<string>): Execution
  {
    if !env.hasClient then Failed(NilClient)
    else if projects.FetchFailed? then env.handler.handleError(Id, Security, projects.error)
    else Summary(Id, Security, Header, FlatMap(users, LineFor(projects.value)), OkMessage)
  }

  /** `counts` and `names` hold, per username, how many projects of `done`
      are counted under it and which ones. */
  ghost predicate Tallied(done: seq<GitProject>, counts: map<string, int>, names: map<string, seq<string>>)
  {
    counts.Keys == names.Keys
    && (forall u :: u in names <==> ProjectsOf(done, u) != [])
    && (forall u :: u in names ==> names[u] == ProjectsOf(done, u) && counts[u] == |names[u]|)
  }

  /** The body of the first loop: counts `p` under its username. */
  method CountProject(p: GitProject, counts: map<string, int>, names: map<string, seq<string>>, ghost done: seq<GitProject>)
    returns (counts': map<string, int>, names': map<string, seq<string>>)
    requires p.persistenceType == "VersionControlled" ==> p.credentials.Some?
    requires Tallied(done, counts, names)
    ensures Tallied(done + [p], counts', names')
  {
    forall u
      ensures ProjectsOf(done + [p], u) == ProjectsOf(done, u) + ProjectOfUser(u)(p)
    {
      FlatMapSnoc(done, p, ProjectOfUser(u));
    }
    counts', names' := counts, names;
    if p.persistenceType == "VersionControlled" && p.credentials.value.credentialType == "UsernamePassword"
       && p.credentials.value.username.Some? {
      var username := p.credentials.value.username.value;
      if username !in counts' {
        counts' := counts'[username := 0];
      }
      counts' := counts'[username := counts'[username] + 1];
      if username !in names' {
        names' := names'[username := []];
      }
      names' := names'[username := names'[username] + [p.name]];
    }
  }

  /** The first loop: per username, how many counted projects use it and
      which ones, in input order. */
  method CountUsernames(ps: seq<GitProject>) returns (counts: map<string, int>, names: map<string, seq<string>>)
    requires CredentialsPresent(ps)
    ensures counts.Keys == names.Keys
    ensures forall u :: u in names <==> ProjectsOf(ps, u) != []
    ensures forall u :: u in names ==> names[u] == ProjectsOf(ps, u) && counts[u] == |names[u]|
  {
    counts := map[];
    names := map[];
    var i := 0;
    while i < |ps|
      invariant 0 <= i <= |ps|
      invariant Tallied(ps[..i], counts, names)
    {
      counts, names := CountProject(ps[i], counts, names, ps[..i]);
      TakeSnoc(ps, i);
      i := i + 1;
    }
    assert ps[..i] == ps;
    assert Tallied(ps, counts, names);
  }

  /** The second loop, over the counts map: the usernames counted more than
      once, with their projects. */
  method DuplicatedUsernames(counts: map<string, int>, names: map<string, seq<string>>)
    returns (duplicated: map<string, seq<string>>)
    requires counts.Keys == names.Keys
    ensures forall u :: u in duplicated <==> u in counts && counts[u] > 1
    ensures forall u :: u in duplicated ==> duplicated[u] == names[u]
  {
    duplicated := map[];
    var remaining := counts.Keys;
    while remaining != {}
      invariant remaining <= counts.Keys
      invariant forall u :: u in duplicated <==> u in counts && u !in remaining && counts[u] > 1
      invariant forall u :: u in duplicated ==> duplicated[u] == names[u]
      decreases remaining
    {
      var u :| u in remaining;
      if counts[u] > 1 {
        duplicated := duplicated[u := names[u]];
      }
      remaining := remaining - {u};
    }
  }

  /** The third loop, over the duplicates map: one line per username, in
      the order the map yields them, returned as `users`. */
  method Messages(duplicated: map<string, seq<string>>) returns (message: seq<string>, users: seq<string>)
    ensures Distinct(users) && forall u :: u in users <==> u in duplicated
    ensures |message| == |users|
    ensures forall k :: 0 <= k < |users| ==> message[k] == users[k] + " (" + Join(duplicated[users[k]], ", ") + ")"
  {
    message := [];
    users := [];
    var remaining := duplicated.Keys;
    while remaining != {}
      invariant remaining <= duplicated.Keys
      invariant Distinct(users) && forall u :: u in users <==> u in duplicated && u !in remaining
      invariant |message| == |users|
      invariant forall k :: 0 <= k < |users| ==> message[k] == users[k] + " (" + Join(duplicated[users[k]], ", ") + ")"
      decreases remaining
    {
      var u :| u in remaining;
      message := message + [u + " (" + Join(duplicated[u], ", ") + ")"];
      users := users + [u];
      remaining := remaining - {u};
    }
  }

  /** Lines built from the projects of each username are the check's lines. */
  lemma {:induction false} MessagesAreLines(ps: seq<GitProject>, users: seq<string>, message: seq<string>)
    requires |message| == |users|
    requires forall k :: 0 <= k < |users| ==> message[k] == users[k] + " (" + Join(ProjectsOf(ps, users[k]), ", ") + ")"
    ensures message == FlatMap(users, LineFor(ps))
    decreases |users|
  {
    if users != [] {
      var n := |users| - 1;
      var us, ms := users[..n], message[..n];
      forall k | 0 <= k < |us|
        ensures ms[k] == us[k] + " (" + Join(ProjectsOf(ps, us[k]), ", ") + ")"
      {
        assert ms[k] == message[k] && us[k] == users[k];
      }
      MessagesAreLines(ps, us, ms);
      assert FlatMap(users, LineFor(ps)) == FlatMap(us, LineFor(ps)) + LineFor(ps)(users[n]);
      assert message == ms + [message[n]];
    }
  }

  method Execute(env: Env, projects: Fetch<seq<GitProject>>) returns (out: Execution, users: seq<string>)
    requires projects.Fetched? ==> CredentialsPresent(projects.value)
    ensures out == Verdict(env, projects, users)
    ensures env.hasClient && projects.Fetched? ==> Duplicated(projects.value, users)
  {
    users := [];
    if !env.hasClient {
      return Failed(NilClient), users;
    }
    if projects.FetchFailed? {
      return env.handler.handleError(Id, Security, projects.error), users;
    }
    var ps := projects.value;
    var gitUsernameCounts, gitUsernameProjects := CountUsernames(ps);
    var duplicatedGitCredentials := DuplicatedUsernames(gitUsernameCounts, gitUsernameProjects);
    var message;
    message, users := Messages(duplicatedGitCredentials);
    forall u
      ensures u in users <==> |ProjectsOf(ps, u)| > 1
    {
      if u in users {
        assert gitUsernameCounts[u] > 1;
      }
    }
    MessagesAreLines(ps, users, message);
    out := Summary(Id, Security, Header, message, OkMessage);
  }

  /** A counted project that authenticates as `u`. */
  predicate UsesName(p: GitProject, u: string)
  {
    Counted(p) && p.credentials.value.username.value == u
  }

  /** Two counted projects that authenticate with the same username. */
  predicate SameUsername(p: GitProject, q: GitProject)
  {
    Counted(p) && Counted(q) && p.credentials.value.username.value == q.credentials.value.username.value
  }

  /** A username is reported exactly when two different counted projects
      use it. */
  lemma ReportedIff(ps: seq<GitProject>, users: seq<string>, u: string)
    requires Duplicated(ps, users)
    ensures u in users <==> exists i, j :: 0 <= i < j < |ps| && UsesName(ps[i], u) && UsesName(ps[j], u)
  {
    FlatMapAtLeastTwo(ps, ProjectOfUser(u));
  }

  /** The projects of a username are the counted projects that use it, in
      input order. */
  lemma ProjectsOfIff(ps: seq<GitProject>, u: string, name: string)
    ensures name in ProjectsOf(ps, u) <==> exists i :: 0 <= i < |ps| && UsesName(ps[i], u) && ps[i].name == name
  {
    FlatMapMember(ps, ProjectOfUser(u), name);
  }

  /** The check warns exactly when some username is counted for two
      different projects. */
  lemma WarningIff(env: Env, ps: seq<GitProject>, users: seq<string>)
    requires env.hasClient && Duplicated(ps, users)
    ensures Verdict(env, Fetched(ps), users).error == None && Verdict(env, Fetched(ps), users).result.Some?
    ensures Verdict(env, Fetched(ps), users).result.value.severity == Warning <==>
      exists i, j :: 0 <= i < j < |ps| && SameUsername(ps[i], ps[j])
  {
    ListingWarningIff(users, LineFor(ps), Id, Security, Header, OkMessage);
    assert Verdict(env, Fetched(ps), users).result.value.severity == Warning <==> users != [] by {
      if users != [] {
        assert LineFor(ps)(users[0]) != [];
      }
    }
    if exists i, j :: 0 <= i < j < |ps| && SameUsername(ps[i], ps[j]) {
      var i, j :| 0 <= i < j < |ps| && SameUsername(ps[i], ps[j]);
      var u := ps[i].credentials.value.username.value;
      ReportedIff(ps, users, u);
      assert UsesName(ps[i], u) && UsesName(ps[j], u);
    }
    if users != [] {
      ReportedIff(ps, users, users[0]);
      var i, j :| 0 <= i < j < |ps| && UsesName(ps[i], users[0]) && UsesName(ps[j], users[0]);
      assert SameUsername(ps[i], ps[j]);
    }
  }
}
