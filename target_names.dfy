/** `OctoLintInvalidTargetNames`: the targets whose names do not match the
    configured regular expression. */
module TargetNames {
  import opened Wrappers
  import opened Seqs
  import opened Strings
  import opened Resources
  import opened Checks

  const Id: string := "OctoLintInvalidTargetNames"

  function Header(pattern: string): string
  {
    "The following target names do not match the regex " + pattern + ":\n"
  }

  function OkMessage(pattern: string): string
  {
    "All targets match the regex " + pattern
  }

  function NameFails(rx: Regex, pattern: string): Machine -> bool
  {
    (m: Machine) => !rx.matches(pattern, m.name)
  }

  function NameOf(m: Machine): string
  {
    m.name
  }

  function TargetEntry(rx: Regex, pattern: string): Machine -> seq<string>
  {
    (m: Machine) => if !rx.matches(pattern, m.name) then [m.name] else []
  }

  /** The outcome of the check; `machines` is the (possibly limited) list the
      client wrapper returns. */
  function Verdict(env: Env, pattern: string, machines: Fetch<seq<Machine>>): Execution
  {
    if !env.hasClient then Failed(NilClient)
    else if TrimSpace(pattern) == "" then Nothing
    else if !env.regex.compiles(pattern) then BadRegex(Id, pattern)
    else if machines.FetchFailed? then env.handler.handleError(Id, Naming, machines.error)
    else Summary(Id, Naming, Header(pattern), FlatMap(machines.value, TargetEntry(env.regex, pattern)), OkMessage(pattern))
  }

  method Execute(env: Env, pattern: string, machines: Fetch<seq<Machine>>) returns (out: Execution)
    ensures out == Verdict(env, pattern, machines)
  {
    if !env.hasClient {
      return Failed(NilClient);
    }
    if TrimSpace(pattern) == "" {
      return Nothing;
    }
    if !env.regex.compiles(pattern) {
      return BadRegex(Id, pattern);
    }
    if machines.FetchFailed? {
      return env.handler.handleError(Id, Naming, machines.error);
    }
    var ms := machines.value;
    var responses: seq<string> := [];
    var i := 0;
    while i < |ms|
      invariant 0 <= i <= |ms|
      invariant responses == FlatMap(ms[..i], TargetEntry(env.regex, pattern))
    {
      var m := ms[i];
      FlatMapGo(ms, i, TargetEntry(env.regex, pattern));
      if !env.regex.matches(pattern, m.name) {
        responses := responses + [m.name];
      }
      i := i + 1;
    }
    assert ms[..i] == ms;
    out := Summary(Id, Naming, Header(pattern), responses, OkMessage(pattern));
  }

  /** The entries are the names of the targets whose names fail the
      pattern, one each and in target order. */
  lemma ReportedInOrder(rx: Regex, pattern: string, ms: seq<Machine>)
    ensures |FlatMap(ms, TargetEntry(rx, pattern))| == |Filter(ms, NameFails(rx, pattern))|
    ensures forall k :: 0 <= k < |Filter(ms, NameFails(rx, pattern))| ==>
      FlatMap(ms, TargetEntry(rx, pattern))[k] == Filter(ms, NameFails(rx, pattern))[k].name
    ensures forall m :: m in Filter(ms, NameFails(rx, pattern)) <==> m in ms && !rx.matches(pattern, m.name)
  {
    FlatMapSelect(ms, NameFails(rx, pattern), NameOf, TargetEntry(rx, pattern));
    forall m
      ensures m in Filter(ms, NameFails(rx, pattern)) <==> m in ms && !rx.matches(pattern, m.name)
    {
      FilterMember(ms, NameFails(rx, pattern), m);
    }
  }

  /** Once the pattern compiles and the targets are fetched, the check warns
      exactly when some target's name fails the pattern. */
  lemma WarningIff(env: Env, pattern: string, ms: seq<Machine>)
    requires env.hasClient && TrimSpace(pattern) != "" && env.regex.compiles(pattern)
    ensures Verdict(env, pattern, Fetched(ms)).error == None && Verdict(env, pattern, Fetched(ms)).result.Some?
    ensures Verdict(env, pattern, Fetched(ms)).result.value.severity == Warning <==>
      exists i :: 0 <= i < |ms| && !env.regex.matches(pattern, ms[i].name)
  {
    ListingWarningIff(ms, TargetEntry(env.regex, pattern), Id, Naming, Header(pattern), OkMessage(pattern));
  }
}
