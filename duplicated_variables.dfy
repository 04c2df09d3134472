/** `OctoLintDuplicatedVariables`: pairs of project variables in different
    projects that hold the same value and could live in a library variable
    set instead.

    The check works in two phases. The first reads the variable set of each
    project, up to a configured number of projects. The second compares every
    variable of every project with every variable of every later project,
    stopping once a configured number of duplicates has been collected. */
module DuplicatedVariables {
  import opened Wrappers
  import opened Seqs
  import opened Strings
  import opened Resources
  import opened Checks

  const Id: string := "OctoLintDuplicatedVariables"

  const Header: string :=
    "The following variables are duplicated between projects. Consider moving these into library variable sets:\n"
  const OkMessage: string := "There are no duplicated variables"

  // ---------------------------------------------------------------- ignored variables

  /** `shouldIgnoreVariable`: a variable is left out of the comparison
      exactly when its value is empty, its type is not a plain string, its
      name is a special variable, its value spells "true", "false", "yes" or
      "no" in any ASCII case, or `strconv.Atoi` accepts its value. */
  predicate ShouldIgnoreVariable(v: Variable): (r: bool)
    ensures r <==>
      v.value == "" || v.variableType != "String" || v.name in SpecialVars
      || SpelledAnyCase(v.value, "true") || SpelledAnyCase(v.value, "false")
      || SpelledAnyCase(v.value, "yes") || SpelledAnyCase(v.value, "no")
      || Atoi(v.value).Some?
  {
    ToLowerSpelled(v.value, "true");
    ToLowerSpelled(v.value, "false");
    ToLowerSpelled(v.value, "yes");
    ToLowerSpelled(v.value, "no");
    v.value == ""
    || v.variableType != "String"
    || IndexOf(SpecialVars, v.name) != -1
    || ToLower(v.value) == "true"
    || ToLower(v.value) == "false"
    || ToLower(v.value) == "yes"
    || ToLower(v.value) == "no"
    || Atoi(v.value).Some?
  }

  /** Every 64-bit integer, written in decimal, is ignored: numbers are
      never reported as duplicates. */
  lemma NumbersIgnored(v: Variable, n: int)
    requires MinInt64 <= n <= MaxInt64 && v.value == IntToString(n)
    ensures ShouldIgnoreVariable(v)
  {
    AtoiIntToString(n);
  }

  // ---------------------------------------------------------------- phase 1: reading the variable sets

  /** The number of projects whose variables are read: all of them when the
      limit is 0, otherwise the loop breaks at the first index at or past
      the limit. */
  function Limit(maxProjects: int, n: nat): (r: nat)
    ensures r <= n
  {
    if maxProjects == 0 || maxProjects >= n then n
    else if maxProjects < 0 then 0
    else maxProjects
  }

  /** What reading one project's variables contributes: the variables, or
      no variables when the read failed and the handler says to go on (the
      project then has no entry in the check's map). */
  function VarsStep(env: Env, variablesOf: Project -> Fetch<seq<Variable>>): Project -> Step<seq<Variable>, Execution>
  {
    (p: Project) => match variablesOf(p)
      case FetchFailed(e) => if env.handler.shouldContinue(e) then Emit([[]]) else Exit(Failed(e))
      case Fetched(vs) => Emit([vs])
  }

  /** The variables the second phase sees for each of `n` projects: those
      read in the first phase, then none for the projects past the limit. */
  function Pad(sets: seq<seq<Variable>>, n: nat): (r: seq<seq<Variable>>)
    ensures |sets| <= n ==> |r| == n && r[..|sets|] == sets
    ensures forall i :: |sets| <= i < |r| ==> r[i] == []
  {
    if |sets| < n then sets + seq(n - |sets|, _ => []) else sets
  }

  /** After the first phase, the variable sets line up with the projects
      read: each is the project's variables, or empty when they could not be
      read. */
  lemma {:induction false} VariableSetsRead(env: Env, variablesOf: Project -> Fetch<seq<Variable>>,
                                            ps: seq<Project>, sets: seq<seq<Variable>>)
    requires Scan(ps, VarsStep(env, variablesOf)) == Done(sets)
    ensures |sets| == |ps|
    ensures forall i :: 0 <= i < |ps| ==>
      sets[i] == (if variablesOf(ps[i]).Fetched? then variablesOf(ps[i]).value else [])
    decreases |ps|
  {
    if ps != [] {
      var n := |ps| - 1;
      var step := VarsStep(env, variablesOf);
      ScanDone(ps[..n], step);
      var before := Scan(ps[..n], step).items;
      VariableSetsRead(env, variablesOf, ps[..n], before);
      assert sets == before + step(ps[n]).items;
    }
  }

  // ---------------------------------------------------------------- phase 2: comparing variables

  /** A variable of the project at `index`, as the outer two loops visit it. */
  datatype Candidate = Candidate(index: nat, variable: Variable)

  /** `projectVar`: `variable1` of the project at `index1` has the same value
      as `variable2` of the project at `index2`. */
  datatype Duplicate = Duplicate(index1: nat, variable1: Variable, index2: nat, variable2: Variable)

  function CandidatesOf(i: nat, vs: seq<Variable>): (r: seq<Candidate>)
    ensures |r| == |vs| && forall k :: 0 <= k < |vs| ==> r[k] == Candidate(i, vs[k])
  {
    seq(|vs|, k requires 0 <= k < |vs| => Candidate(i, vs[k]))
  }

  /** Every variable of every project, project by project, in order. */
  function Candidates(vars: seq<seq<Variable>>): seq<Candidate>
  {
    if vars == [] then []
    else Candidates(vars[..|vars| - 1]) + CandidatesOf(|vars| - 1, vars[|vars| - 1])
  }

  /** The duplicates of `v1` (of project `i`) among the variables `vs` of
      project `j`, in order. */
  function Matches(i: nat, v1: Variable, j: nat, vs: seq<Variable>): seq<Duplicate>
  {
    if vs == [] then []
    else
      var v2 := vs[|vs| - 1];
      Matches(i, v1, j, vs[..|vs| - 1]) + (if v1.value == v2.value then [Duplicate(i, v1, j, v2)] else [])
  }

  /** The duplicates of `v1` (of project `i`) in the projects after `i` and
      before `hi`. */
  function PairsBelow(vars: seq<seq<Variable>>, i: nat, v1: Variable, hi: nat): seq<Duplicate>
    requires hi <= |vars|
  {
    if hi <= i + 1 then [] else PairsBelow(vars, i, v1, hi - 1) + Matches(i, v1, hi - 1, vars[hi - 1])
  }

  /** What one visit of the outer loops adds: nothing for an ignored
      variable, otherwise its duplicates in every later project. */
  function DuplicatesOf(vars: seq<seq<Variable>>, c: Candidate): seq<Duplicate>
  {
    if ShouldIgnoreVariable(c.variable) then [] else PairsBelow(vars, c.index, c.variable, |vars|)
  }

  function DuplicatesFn(vars: seq<seq<Variable>>): Candidate -> seq<Duplicate>
  {
    (c: Candidate) => DuplicatesOf(vars, c)
  }

  /** The duplicates collected over `cands` when the collection is capped at
      `cap` (0: no cap): once it holds `cap` or more, the outer loops stop,
      but the duplicates of the variable being visited are all added. */
  function CapFold(vars: seq<seq<Variable>>, cands: seq<Candidate>, cap: int): seq<Duplicate>
  {
    if cands == [] then []
    else
      var acc := CapFold(vars, cands[..|cands| - 1], cap);
      if cap != 0 && |acc| >= cap then acc else acc + DuplicatesOf(vars, cands[|cands| - 1])
  }

  /** Every duplicate, with no cap. */
  function AllDuplicates(vars: seq<seq<Variable>>): seq<Duplicate>
  {
    FlatMap(Candidates(vars), DuplicatesFn(vars))
  }

  lemma CapFoldSnoc(vars: seq<seq<Variable>>, cands: seq<Candidate>, c: Candidate, cap: int)
    ensures CapFold(vars, cands + [c], cap) ==
      if cap != 0 && |CapFold(vars, cands, cap)| >= cap then CapFold(vars, cands, cap)
      else CapFold(vars, cands, cap) + DuplicatesOf(vars, c)
  {
    assert (cands + [c])[..|cands|] == cands;
  }

  /** Once the cap is reached, no later candidate changes the result. */
  lemma {:induction false} CapFoldSaturated(vars: seq<seq<Variable>>, c: seq<Candidate>, d: seq<Candidate>, cap: int)
    requires c <= d
    requires cap != 0 && |CapFold(vars, c, cap)| >= cap
    ensures CapFold(vars, d, cap) == CapFold(vars, c, cap)
    decreases |d|
  {
    if |d| > |c| {
      var n := |d| - 1;
      assert c <= d[..n];
      CapFoldSaturated(vars, c, d[..n], cap);
    } else {
      assert c == d;
    }
  }

  /** The capped collection is the uncapped one cut short: always a prefix
      of it, equal to it without a cap, and different from it only when the
      cap was reached. */
  lemma {:induction false} CapFoldPrefix(vars: seq<seq<Variable>>, cands: seq<Candidate>, cap: int)
    ensures CapFold(vars, cands, cap) <= FlatMap(cands, DuplicatesFn(vars))
    ensures cap == 0 ==> CapFold(vars, cands, cap) == FlatMap(cands, DuplicatesFn(vars))
    ensures CapFold(vars, cands, cap) != FlatMap(cands, DuplicatesFn(vars)) ==>
      cap != 0 && |CapFold(vars, cands, cap)| >= cap
    decreases |cands|
  {
    if cands != [] {
      var n := |cands| - 1;
      CapFoldPrefix(vars, cands[..n], cap);
      var acc := CapFold(vars, cands[..n], cap);
      var all := FlatMap(cands[..n], DuplicatesFn(vars));
      assert FlatMap(cands, DuplicatesFn(vars)) == all + DuplicatesOf(vars, cands[n]);
      if cap != 0 && |acc| >= cap {
        assert acc <= all + DuplicatesOf(vars, cands[n]);
      } else {
        assert acc == all;
      }
    }
  }

  lemma {:induction false} CandidatesOfMember(i: nat, vs: seq<Variable>, c: Candidate)
    ensures c in CandidatesOf(i, vs) <==> c.index == i && c.variable in vs
  {
    if c.index == i && c.variable in vs {
      var k :| 0 <= k < |vs| && vs[k] == c.variable;
      assert CandidatesOf(i, vs)[k] == c;
    }
  }

  lemma {:induction false} CandidatesMember(vars: seq<seq<Variable>>, c: Candidate)
    ensures c in Candidates(vars) <==> c.index < |vars| && c.variable in vars[c.index]
    decreases |vars|
  {
    if vars != [] {
      var n := |vars| - 1;
      CandidatesMember(vars[..n], c);
      CandidatesOfMember(n, vars[n], c);
      if c.index < n {
        assert vars[..n][c.index] == vars[c.index];
      }
    }
  }

  lemma {:induction false} MatchesMember(i: nat, v1: Variable, j: nat, vs: seq<Variable>, d: Duplicate)
    ensures d in Matches(i, v1, j, vs) <==>
      d.index1 == i && d.variable1 == v1 && d.index2 == j && d.variable2 in vs && v1.value == d.variable2.value
    decreases |vs|
  {
    if vs != [] {
      var n := |vs| - 1;
      MatchesMember(i, v1, j, vs[..n], d);
      assert vs == vs[..n] + [vs[n]];
    }
  }

  lemma {:induction false} PairsBelowMember(vars: seq<seq<Variable>>, i: nat, v1: Variable, hi: nat, d: Duplicate)
    requires hi <= |vars|
    ensures d in PairsBelow(vars, i, v1, hi) <==>
      d.index1 == i && d.variable1 == v1 && i < d.index2 < hi && d.variable2 in vars[d.index2]
      && v1.value == d.variable2.value
    decreases hi
  {
    if hi > i + 1 {
      PairsBelowMember(vars, i, v1, hi - 1, d);
      MatchesMember(i, v1, hi - 1, vars[hi - 1], d);
    }
  }

  /** A duplicate is reported (with no cap) exactly when it pairs a
      variable that is not ignored with a variable of the same value in a
      LATER project; the second variable is not filtered, and two variables
      of the same project are never compared. */
  lemma DuplicateMember(vars: seq<seq<Variable>>, d: Duplicate)
    ensures d in AllDuplicates(vars) <==>
      d.index1 < d.index2 < |vars| && d.variable1 in vars[d.index1] && d.variable2 in vars[d.index2]
      && !ShouldIgnoreVariable(d.variable1) && d.variable1.value == d.variable2.value
  {
    FlatMapMember(Candidates(vars), DuplicatesFn(vars), d);
    var c := Candidate(d.index1, d.variable1);
    if d in AllDuplicates(vars) {
      var k :| 0 <= k < |Candidates(vars)| && d in DuplicatesFn(vars)(Candidates(vars)[k]);
      var ck := Candidates(vars)[k];
      CandidatesMember(vars, ck);
      PairsBelowMember(vars, ck.index, ck.variable, |vars|, d);
    }
    if d.index1 < d.index2 < |vars| && d.variable1 in vars[d.index1] && d.variable2 in vars[d.index2]
      && !ShouldIgnoreVariable(d.variable1) && d.variable1.value == d.variable2.value {
      CandidatesMember(vars, c);
      PairsBelowMember(vars, c.index, c.variable, |vars|, d);
      var k :| 0 <= k < |Candidates(vars)| && Candidates(vars)[k] == c;
      assert d in DuplicatesFn(vars)(Candidates(vars)[k]);
    }
  }

  lemma {:induction false} CandidatesPrefix(vars: seq<seq<Variable>>, k: nat)
    requires k <= |vars|
    ensures Candidates(vars[..k]) <= Candidates(vars)
    decreases |vars| - k
  {
    if k < |vars| {
      CandidatesPrefix(vars, k + 1);
      assert vars[..k + 1][..k] == vars[..k];
    } else {
      assert vars[..k] == vars;
    }
  }

  // ---------------------------------------------------------------- the check

  function NameAt(ps: seq<Project>, i: nat): string
  {
    if i < |ps| then ps[i].name else ""
  }

  /** One report line: `project1/variable1 == project2/variable2`. */
  function MessageOf(ps: seq<Project>): Duplicate -> seq<string>
  {
    (d: Duplicate) => [NameAt(ps, d.index1) + "/" + d.variable1.name + " == " + NameAt(ps, d.index2) + "/" + d.variable2.name]
  }

  function Verdict(env: Env, maxProjects: int, maxDuplicates: int, projects: Fetch<seq<Project>>,
                   variablesOf: Project -> Fetch<seq<Variable>>): Execution
  {
    if !env.hasClient then Failed(NilClient)
    else match projects
      case FetchFailed(e) => env.handler.handleError(Id, Organization, e)
      case Fetched(ps) =>
        match Scan(ps[..Limit(maxProjects, |ps|)], VarsStep(env, variablesOf))
        case Exited(x) => x
        case Done(sets) =>
          var vars := Pad(sets, |ps|);
          var dupes := CapFold(vars, Candidates(vars), maxDuplicates);
          Summary(Id, Organization, Header, FlatMap(dupes, MessageOf(ps)), OkMessage)
  }

  /** The two inner loops: the duplicates of `variable1` of project `index1`
      in every later project. */
  method LaterDuplicates(vars: seq<seq<Variable>>, index1: nat, variable1: Variable) returns (found: seq<Duplicate>)
    requires index1 < |vars|
    ensures found == PairsBelow(vars, index1, variable1, |vars|)
  {
    found := [];
    var index2 := index1 + 1;
    while index2 < |vars|
      invariant index1 + 1 <= index2 <= |vars|
      invariant found == PairsBelow(vars, index1, variable1, index2)
    {
      var vs := vars[index2];
      var k := 0;
      while k < |vs|
        invariant 0 <= k <= |vs|
        invariant found == PairsBelow(vars, index1, variable1, index2) + Matches(index1, variable1, index2, vs[..k])
      {
        assert vs[..k + 1][..k] == vs[..k];
        if variable1.value == vs[k].value {
          found := found + [Duplicate(index1, variable1, index2, vs[k])];
        }
        k := k + 1;
      }
      assert vs[..k] == vs;
      index2 := index2 + 1;
    }
  }

  /** The first phase: the variable sets of the projects up to the limit,
      or the value the check returns when a read fails and the handler says
      to stop. */
  method ReadVariableSets(env: Env, maxProjects: int, ps: seq<Project>, variablesOf: Project -> Fetch<seq<Variable>>)
    returns (sets: seq<seq<Variable>>, stop: Option<Execution>)
    ensures Scan(ps[..Limit(maxProjects, |ps|)], VarsStep(env, variablesOf)) ==
      if stop.Some? then Exited(stop.value) else Done(sets)
  {
    ghost var step := VarsStep(env, variablesOf);
    ghost var firsts := ps[..Limit(maxProjects, |ps|)];
    sets := [];
    var i := 0;
    while i < |ps|
      invariant 0 <= i <= |firsts|
      invariant Scan(firsts[..i], step) == Done(sets)
    {
      if maxProjects != 0 && i >= maxProjects {
        break;
      }
      assert firsts[i] == ps[i];
      var variableSet := variablesOf(ps[i]);
      if variableSet.FetchFailed? {
        if !env.handler.shouldContinue(variableSet.error) {
          ScanStop(firsts, i, step, sets);
          return sets, Some(Failed(variableSet.error));
        }
        ScanGo(firsts, i, step, sets);
        sets := sets + [[]];
        i := i + 1;
        continue;
      }
      ScanGo(firsts, i, step, sets);
      sets := sets + [variableSet.value];
      i := i + 1;
    }
    assert firsts[..i] == firsts;
    stop := None;
  }

  /** The second phase: the outer two loops, which stop once `cap`
      duplicates (when `cap` is not 0) have been collected. */
  method CollectDuplicates(vars: seq<seq<Variable>>, cap: int) returns (duplicateVars: seq<Duplicate>)
    ensures duplicateVars == CapFold(vars, Candidates(vars), cap)
  {
    duplicateVars := [];
    var index1 := 0;
    while index1 < |vars|
      invariant 0 <= index1 <= |vars|
      invariant duplicateVars == CapFold(vars, Candidates(vars[..index1]), cap)
    {
      var capped;
      duplicateVars, capped := CollectFromProject(vars, index1, cap, duplicateVars);
      if capped {
        return;
      }
      index1 := index1 + 1;
    }
    assert vars[..|vars|] == vars;
  }

  /** The middle loop, over the variables of project `index1`; `capped`
      says that it broke out of both loops because the cap was reached. */
  method CollectFromProject(vars: seq<seq<Variable>>, index1: nat, cap: int, acc: seq<Duplicate>)
    returns (duplicateVars: seq<Duplicate>, capped: bool)
    requires index1 < |vars| && acc == CapFold(vars, Candidates(vars[..index1]), cap)
    ensures capped ==> duplicateVars == CapFold(vars, Candidates(vars), cap)
    ensures !capped ==> duplicateVars == CapFold(vars, Candidates(vars[..index1 + 1]), cap)
  {
    duplicateVars := acc;
    var vs := vars[index1];
    assert Visited(vars, index1, 0) == Candidates(vars[..index1]);
    var j := 0;
    while j < |vs|
      invariant 0 <= j <= |vs|
      invariant duplicateVars == CapFold(vars, Visited(vars, index1, j), cap)
    {
      if cap != 0 && |duplicateVars| >= cap {
        CapReached(vars, index1, j, cap);
        return duplicateVars, true;
      }
      var variable1 := vs[j];
      NextCandidate(vars, index1, j, cap);
      if ShouldIgnoreVariable(variable1) {
        j := j + 1;
        continue;
      }
      var found := LaterDuplicates(vars, index1, variable1);
      duplicateVars := duplicateVars + found;
      j := j + 1;
    }
    NextProject(vars, index1);
    capped := false;
  }

  /** The candidates of the first `index1` projects and the first `j`
      variables of the next one. */
  function Visited(vars: seq<seq<Variable>>, index1: nat, j: nat): seq<Candidate>
    requires index1 < |vars| && j <= |vars[index1]|
  {
    Candidates(vars[..index1]) + CandidatesOf(index1, vars[index1])[..j]
  }

  lemma NextCandidate(vars: seq<seq<Variable>>, index1: nat, j: nat, cap: int)
    requires index1 < |vars| && j < |vars[index1]|
    ensures CapFold(vars, Visited(vars, index1, j + 1), cap) ==
      if cap != 0 && |CapFold(vars, Visited(vars, index1, j), cap)| >= cap then CapFold(vars, Visited(vars, index1, j), cap)
      else CapFold(vars, Visited(vars, index1, j), cap) + DuplicatesOf(vars, Candidate(index1, vars[index1][j]))
  {
    assert Visited(vars, index1, j + 1) == Visited(vars, index1, j) + [Candidate(index1, vars[index1][j])];
    CapFoldSnoc(vars, Visited(vars, index1, j), Candidate(index1, vars[index1][j]), cap);
  }

  lemma NextProject(vars: seq<seq<Variable>>, index1: nat)
    requires index1 < |vars|
    ensures Visited(vars, index1, |vars[index1]|) == Candidates(vars[..index1 + 1])
  {
    assert CandidatesOf(index1, vars[index1])[..|vars[index1]|] == CandidatesOf(index1, vars[index1]);
    assert vars[..index1 + 1][..index1] == vars[..index1];
  }

  /** Breaking out of both loops once the cap is reached gives the capped
      result over every candidate. */
  lemma CapReached(vars: seq<seq<Variable>>, index1: nat, j: nat, cap: int)
    requires index1 < |vars| && j <= |vars[index1]|
    requires cap != 0 && |CapFold(vars, Visited(vars, index1, j), cap)| >= cap
    ensures CapFold(vars, Candidates(vars), cap) == CapFold(vars, Visited(vars, index1, j), cap)
  {
    NextProject(vars, index1);
    CandidatesPrefix(vars, index1 + 1);
    assert Visited(vars, index1, j) <= Visited(vars, index1, |vars[index1]|);
    CapFoldSaturated(vars, Visited(vars, index1, j), Candidates(vars), cap);
  }

  /** The report lines, one per duplicate. */
  method Messages(ps: seq<Project>, duplicateVars: seq<Duplicate>) returns (messages: seq<string>)
    ensures messages == FlatMap(duplicateVars, MessageOf(ps))
  {
    messages := [];
    var k := 0;
    while k < |duplicateVars|
      invariant 0 <= k <= |duplicateVars|
      invariant messages == FlatMap(duplicateVars[..k], MessageOf(ps))
    {
      var d := duplicateVars[k];
      FlatMapGo(duplicateVars, k, MessageOf(ps));
      messages := messages + [NameAt(ps, d.index1) + "/" + d.variable1.name + " == " + NameAt(ps, d.index2) + "/" + d.variable2.name];
      k := k + 1;
    }
    assert duplicateVars[..k] == duplicateVars;
  }

  method Execute(env: Env, maxProjects: int, maxDuplicates: int, projects: Fetch<seq<Project>>,
                 variablesOf: Project -> Fetch<seq<Variable>>) returns (out: Execution)
    ensures out == Verdict(env, maxProjects, maxDuplicates, projects, variablesOf)
  {
    if !env.hasClient {
      return Failed(NilClient);
    }
    if projects.FetchFailed? {
      return env.handler.handleError(Id, Organization, projects.error);
    }
    var ps := projects.value;
    var sets, stop := ReadVariableSets(env, maxProjects, ps, variablesOf);
    if stop.Some? {
      return stop.value;
    }
    var duplicateVars := CollectDuplicates(Pad(sets, |ps|), maxDuplicates);
    if |duplicateVars| > 0 {
      var messages := Messages(ps, duplicateVars);
      return Summary(Id, Organization, Header, messages, OkMessage);
    }
    return Summary(Id, Organization, Header, [], OkMessage);
  }

  /** With no cap on duplicates, a line is reported for a pair exactly when
      both variables were read, the first is not ignored, the second belongs
      to a later project (within the project limit), and their values are
      equal. */
  lemma ReportedIff(env: Env, maxProjects: int, ps: seq<Project>, variablesOf: Project -> Fetch<seq<Variable>>,
                    sets: seq<seq<Variable>>, d: Duplicate)
    requires Scan(ps[..Limit(maxProjects, |ps|)], VarsStep(env, variablesOf)) == Done(sets)
    ensures d in CapFold(Pad(sets, |ps|), Candidates(Pad(sets, |ps|)), 0) <==>
      d.index1 < d.index2 < Limit(maxProjects, |ps|)
      && variablesOf(ps[d.index1]).Fetched? && d.variable1 in variablesOf(ps[d.index1]).value
      && variablesOf(ps[d.index2]).Fetched? && d.variable2 in variablesOf(ps[d.index2]).value
      && !ShouldIgnoreVariable(d.variable1) && d.variable1.value == d.variable2.value
  {
    var firsts := ps[..Limit(maxProjects, |ps|)];
    VariableSetsRead(env, variablesOf, firsts, sets);
    var vars := Pad(sets, |ps|);
    CapFoldPrefix(vars, Candidates(vars), 0);
    DuplicateMember(vars, d);
    if d.index1 < |sets| {
      assert vars[d.index1] == vars[..|sets|][d.index1] == sets[d.index1];
      assert firsts[d.index1] == ps[d.index1];
    }
    if d.index2 < |sets| {
      assert vars[d.index2] == vars[..|sets|][d.index2] == sets[d.index2];
      assert firsts[d.index2] == ps[d.index2];
    }
  }

  /** With a cap, the reported duplicates are the first ones of the uncapped
      report, in the same order; fewer are reported only when at least `cap`
      were collected. */
  lemma CappedIsPrefix(vars: seq<seq<Variable>>, cap: int)
    ensures CapFold(vars, Candidates(vars), cap) <= AllDuplicates(vars)
    ensures CapFold(vars, Candidates(vars), cap) != AllDuplicates(vars) ==>
      cap != 0 && |CapFold(vars, Candidates(vars), cap)| >= cap
  {
    CapFoldPrefix(vars, Candidates(vars), cap);
  }

  /** The check warns exactly when it collected a duplicate, with one line
      per duplicate. */
  lemma WarningIff(env: Env, maxProjects: int, maxDuplicates: int, ps: seq<Project>,
                   variablesOf: Project -> Fetch<seq<Variable>>, sets: seq<seq<Variable>>)
    requires env.hasClient
    requires Scan(ps[..Limit(maxProjects, |ps|)], VarsStep(env, variablesOf)) == Done(sets)
    ensures Verdict(env, maxProjects, maxDuplicates, Fetched(ps), variablesOf).error == None
    ensures Verdict(env, maxProjects, maxDuplicates, Fetched(ps), variablesOf).result.Some?
    ensures Verdict(env, maxProjects, maxDuplicates, Fetched(ps), variablesOf).result.value.severity == Warning <==>
      CapFold(Pad(sets, |ps|), Candidates(Pad(sets, |ps|)), maxDuplicates) != []
    ensures |FlatMap(CapFold(Pad(sets, |ps|), Candidates(Pad(sets, |ps|)), maxDuplicates), MessageOf(ps))|
      == |CapFold(Pad(sets, |ps|), Candidates(Pad(sets, |ps|)), maxDuplicates)|
  {
    var dupes := CapFold(Pad(sets, |ps|), Candidates(Pad(sets, |ps|)), maxDuplicates);
    FlatMapEmpty(dupes, MessageOf(ps));
    FlatMapLength(dupes, MessageOf(ps));
  }
}
