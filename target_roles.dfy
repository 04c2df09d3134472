/** `OctoLintInvalidTargetRoles`: the targets with roles that do not match
    the configured regular expression. */
module TargetRoles {
  import opened Wrappers
  import opened Seqs
  import opened Strings
  import opened Resources
  import opened Checks

  const Id: string := "OctoLintInvalidTargetRoles"

  function Header(rolePattern: string): string
  {
    "The following target roles do not match the regex " + rolePattern + ":\n"
  }

  /** The Ok message quotes the target-name pattern, not the role pattern. */
  function OkMessage(namePattern: string): string
  {
    "All targets match the regex " + namePattern
  }

  function RoleFails(rx: Regex, pattern: string): string -> bool
  {
    (r: string) => !rx.matches(pattern, r)
  }

  /** The roles of a target that fail the pattern, in role order. */
  function InvalidRoles(rx: Regex, pattern: string, m: Machine): seq<string>
  {
    Filter(m.roles, RoleFails(rx, pattern))
  }

  function TargetEntry(rx: Regex, pattern: string): Machine -> seq<string>
  {
    (m: Machine) => if InvalidRoles(rx, pattern, m) != [] then [m.name + " - " + Join(InvalidRoles(rx, pattern, m), ",")] else []
  }

  /** The outcome of the check: `pattern` is the role pattern it tests,
      `namePattern` the target-name pattern two of its messages quote;
      `machines` is the (possibly limited) list the client wrapper returns. */
  function Verdict(env: Env, pattern: string, namePattern: string, machines: Fetch<seq<Machine>>): Execution
  {
    if !env.hasClient then Failed(NilClient)
    else if TrimSpace(pattern) == "" then Nothing
    else if !env.regex.compiles(pattern) then BadRegex(Id, namePattern)
    else if machines.FetchFailed? then env.handler.handleError(Id, Naming, machines.error)
    else Summary(Id, Naming, Header(pattern), FlatMap(machines.value, TargetEntry(env.regex, pattern)), OkMessage(namePattern))
  }

  /** The inner loop: the roles that fail the pattern. */
  method CollectInvalidRoles(rx: Regex, pattern: string, m: Machine) returns (invalidRoles: seq<string>)
    ensures invalidRoles == InvalidRoles(rx, pattern, m)
  {
    invalidRoles := [];
    var j := 0;
    while j < |m.roles|
      invariant 0 <= j <= |m.roles|
      invariant invalidRoles == Filter(m.roles[..j], RoleFails(rx, pattern))
    {
      var r := m.roles[j];
      assert m.roles[..j + 1] == m.roles[..j] + [r];
      if !rx.matches(pattern, r) {
        invalidRoles := invalidRoles + [r];
      }
      j := j + 1;
    }
    assert m.roles[..j] == m.roles;
  }

  method Execute(env: Env, pattern: string, namePattern: string, machines: Fetch<seq<Machine>>) returns (out: Execution)
    ensures out == Verdict(env, pattern, namePattern, machines)
  {
    if !env.hasClient {
      return Failed(NilClient);
    }
    if TrimSpace(pattern) == "" {
      return Nothing;
    }
    if !env.regex.compiles(pattern) {
      return BadRegex(Id, namePattern);
    }
    if machines.FetchFailed? {
      return env.handler.handleError(Id, Naming, machines.error);
    }
    var ms := machines.value;
    var responses: seq<string> := [];
    var i := 0;
    while i < |ms|
      invariant 0 <= i <= |ms|
      invariant responses == FlatMap(ms[..i], TargetEntry(env.regex, pattern))
    {
      var m := ms[i];
      FlatMapGo(ms, i, TargetEntry(env.regex, pattern));
      var invalidRoles := CollectInvalidRoles(env.regex, pattern, m);
      if |invalidRoles| != 0 {
        responses := responses + [m.name + " - " + Join(invalidRoles, ",")];
      }
      i := i + 1;
    }
    assert ms[..i] == ms;
    out := Summary(Id, Naming, Header(pattern), responses, OkMessage(namePattern));
  }

  /** A target's entry lists exactly its roles that fail the pattern, in
      role order. */
  lemma InvalidRolesExact(rx: Regex, pattern: string, m: Machine, r: string)
    ensures r in InvalidRoles(rx, pattern, m) <==> r in m.roles && !rx.matches(pattern, r)
    ensures |InvalidRoles(rx, pattern, m)| <= |m.roles|
  {
    FilterMember(m.roles, RoleFails(rx, pattern), r);
    FilterLength(m.roles, RoleFails(rx, pattern));
  }

  /** A target has an entry exactly when some role fails the pattern. */
  lemma HasEntryIff(rx: Regex, pattern: string, m: Machine)
    ensures TargetEntry(rx, pattern)(m) != [] <==> exists k :: 0 <= k < |m.roles| && !rx.matches(pattern, m.roles[k])
  {
    if exists k :: 0 <= k < |m.roles| && !rx.matches(pattern, m.roles[k]) {
      var k :| 0 <= k < |m.roles| && !rx.matches(pattern, m.roles[k]);
      FilterMember(m.roles, RoleFails(rx, pattern), m.roles[k]);
    }
    if InvalidRoles(rx, pattern, m) != [] {
      FilterMember(m.roles, RoleFails(rx, pattern), InvalidRoles(rx, pattern, m)[0]);
    }
  }

  function HasInvalidRole(rx: Regex, pattern: string): Machine -> bool
  {
    (m: Machine) => InvalidRoles(rx, pattern, m) != []
  }

  function RoleLine(rx: Regex, pattern: string): Machine -> string
  {
    (m: Machine) => m.name + " - " + Join(InvalidRoles(rx, pattern, m), ",")
  }

  /** The entries are the lines of the targets with a failing role, one each
      and in target order. */
  lemma ReportedInOrder(rx: Regex, pattern: string, ms: seq<Machine>)
    ensures |FlatMap(ms, TargetEntry(rx, pattern))| == |Filter(ms, HasInvalidRole(rx, pattern))|
    ensures forall k :: 0 <= k < |Filter(ms, HasInvalidRole(rx, pattern))| ==>
      FlatMap(ms, TargetEntry(rx, pattern))[k] == RoleLine(rx, pattern)(Filter(ms, HasInvalidRole(rx, pattern))[k])
  {
    FlatMapSelect(ms, HasInvalidRole(rx, pattern), RoleLine(rx, pattern), TargetEntry(rx, pattern));
  }

  /** A pattern that does not compile is reported with the target-name
      pattern in the message. */
  lemma BadRegexQuotesNamePattern(env: Env, pattern: string, namePattern: string, machines: Fetch<seq<Machine>>)
    requires env.hasClient && TrimSpace(pattern) != "" && !env.regex.compiles(pattern)
    ensures Verdict(env, pattern, namePattern, machines).result.Some?
    ensures Verdict(env, pattern, namePattern, machines).result.value.description
      == "The supplied regex " + namePattern + " does not compile"
  {
  }

  /** Once the pattern compiles and the targets are fetched, the check warns
      exactly when some role of some target fails the pattern. */
  lemma WarningIff(env: Env, pattern: string, namePattern: string, ms: seq<Machine>)
    requires env.hasClient && TrimSpace(pattern) != "" && env.regex.compiles(pattern)
    ensures Verdict(env, pattern, namePattern, Fetched(ms)).error == None
    ensures Verdict(env, pattern, namePattern, Fetched(ms)).result.Some?
    ensures Verdict(env, pattern, namePattern, Fetched(ms)).result.value.severity == Warning <==>
      exists i, k :: 0 <= i < |ms| && 0 <= k < |ms[i].roles| && !env.regex.matches(pattern, ms[i].roles[k])
  {
    ListingWarningIff(ms, TargetEntry(env.regex, pattern), Id, Naming, Header(pattern), OkMessage(namePattern));
    SomeEntryIff(env.regex, pattern, ms);
  }

  /** Some target has an entry exactly when some role of some target fails. */
  lemma SomeEntryIff(rx: Regex, pattern: string, ms: seq<Machine>)
    ensures (exists i :: 0 <= i < |ms| && TargetEntry(rx, pattern)(ms[i]) != []) <==>
      exists i, k :: 0 <= i < |ms| && 0 <= k < |ms[i].roles| && !rx.matches(pattern, ms[i].roles[k])
  {
    forall i | 0 <= i < |ms|
      ensures TargetEntry(rx, pattern)(ms[i]) != [] <==> exists k :: 0 <= k < |ms[i].roles| && !rx.matches(pattern, ms[i].roles[k])
    {
      HasEntryIff(rx, pattern, ms[i]);
    }
  }
}
