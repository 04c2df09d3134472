/** `OctoLintInvalidLifecycleNames`: the lifecycles whose names do not
    match the configured regular expression. */
module LifecycleNames {
  import opened Wrappers
  import opened Seqs
  import opened Strings
  import opened Resources
  import opened Checks

  const Id: string := "OctoLintInvalidLifecycleNames"

  function Header(pattern: string): string
  {
    "The following lifecycle names do not match the regex " + pattern + ":\n"
  }

  function OkMessage(pattern: string): string
  {
    "All lifecycles match the regex " + pattern
  }

  function NameFails(rx: Regex, pattern: string): Lifecycle -> bool
  {
    (l: Lifecycle) => !rx.matches(pattern, l.name)
  }

  function NameOf(l: Lifecycle): string
  {
    l.name
  }

  function LifecycleEntry(rx: Regex, pattern: string): Lifecycle -> seq<string>
  {
    (l: Lifecycle) => if !rx.matches(pattern, l.name) then [l.name] else []
  }

  /** The outcome of the check for the lifecycles the server returns. */
  function Verdict(env: Env, pattern: string, lifecycles: Fetch<seq<Lifecycle>>): Execution
  {
    if !env.hasClient then Failed(NilClient)
    else if TrimSpace(pattern) == "" then Nothing
    else if !env.regex.compiles(pattern) then BadRegex(Id, pattern)
    else if lifecycles.FetchFailed? then env.handler.handleError(Id, Naming, lifecycles.error)
    else Summary(Id, Naming, Header(pattern), FlatMap(lifecycles.value, LifecycleEntry(env.regex, pattern)), OkMessage(pattern))
  }

  method Execute(env: Env, pattern: string, lifecycles: Fetch<seq<Lifecycle>>) returns (out: Execution)
    ensures out == Verdict(env, pattern, lifecycles)
  {
    if !env.hasClient {
      return Failed(NilClient);
    }
    if TrimSpace(pattern) == "" {
      return Nothing;
    }
    if !env.regex.compiles(pattern) {
      return BadRegex(Id, pattern);
    }
    if lifecycles.FetchFailed? {
      return env.handler.handleError(Id, Naming, lifecycles.error);
    }
    var ls := lifecycles.value;
    var responses: seq<string> := [];
    var i := 0;
    while i < |ls|
      invariant 0 <= i <= |ls|
      invariant responses == FlatMap(ls[..i], LifecycleEntry(env.regex, pattern))
    {
      var l := ls[i];
      FlatMapGo(ls, i, LifecycleEntry(env.regex, pattern));
      if !env.regex.matches(pattern, l.name) {
        responses := responses + [l.name];
      }
      i := i + 1;
    }
    assert ls[..i] == ls;
    out := Summary(Id, Naming, Header(pattern), responses, OkMessage(pattern));
  }

  /** The entries are the names of the lifecycles whose names fail the
      pattern, one each and in lifecycle order. */
  lemma ReportedInOrder(rx: Regex, pattern: string, ls: seq<Lifecycle>)
    ensures |FlatMap(ls, LifecycleEntry(rx, pattern))| == |Filter(ls, NameFails(rx, pattern))|
    ensures forall k :: 0 <= k < |Filter(ls, NameFails(rx, pattern))| ==>
      FlatMap(ls, LifecycleEntry(rx, pattern))[k] == Filter(ls, NameFails(rx, pattern))[k].name
    ensures forall l :: l in Filter(ls, NameFails(rx, pattern)) <==> l in ls && !rx.matches(pattern, l.name)
  {
    FlatMapSelect(ls, NameFails(rx, pattern), NameOf, LifecycleEntry(rx, pattern));
    forall l
      ensures l in Filter(ls, NameFails(rx, pattern)) <==> l in ls && !rx.matches(pattern, l.name)
    {
      FilterMember(ls, NameFails(rx, pattern), l);
    }
  }

  /** Once the pattern compiles and the lifecycles are fetched, the check warns
      exactly when some lifecycle's name fails the pattern. */
  lemma WarningIff(env: Env, pattern: string, ls: seq<Lifecycle>)
    requires env.hasClient && TrimSpace(pattern) != "" && env.regex.compiles(pattern)
    ensures Verdict(env, pattern, Fetched(ls)).error == None && Verdict(env, pattern, Fetched(ls)).result.Some?
    ensures Verdict(env, pattern, Fetched(ls)).result.value.severity == Warning <==>
      exists i :: 0 <= i < |ls| && !env.regex.matches(pattern, ls[i].name)
  {
    ListingWarningIff(ls, LifecycleEntry(env.regex, pattern), Id, Naming, Header(pattern), OkMessage(pattern));
  }
}
