/** `OctoLintInsecureK8sTargets`: the Kubernetes targets that skip TLS
    verification or reach their cluster over plain HTTP. */
module InsecureK8s {
  import opened Wrappers
  import opened Seqs
  import opened Strings
  import opened Resources
  import opened Checks

  const Id: string := "OctoLintInsecureK8sTargets"

  const Header: string := "The following Kubernetes targets skip TLS validation or use an insecure HTTP endpoint:\n"
  const OkMessage: string := "There are no insecure Kubernetes targets"

  /** The `lo.Filter` condition: a target with a Kubernetes endpoint. */
  predicate IsKubernetes(m: Machine)
  {
    m.endpoint.Some? && m.endpoint.value.communicationStyle == "Kubernetes"
  }

  predicate InsecureEndpoint(e: Endpoint)
  {
    e.skipTlsVerification || (e.clusterUrl.Some? && HasPrefix(e.clusterUrl.value, "http://"))
  }

  predicate InsecureTarget(m: Machine)
  {
    IsKubernetes(m) && InsecureEndpoint(m.endpoint.value)
  }

  function TargetName(m: Machine): string
  {
    m.name
  }

  /** The entry of one Kubernetes target. */
  function TargetEntry(m: Machine): seq<string>
  {
    if m.endpoint.Some? && InsecureEndpoint(m.endpoint.value) then [m.name] else []
  }

  /** The outcome of the check; `targets` is what the machines query returns
      under the configured limit. */
  function Verdict(env: Env, targets: Fetch<seq<Machine>>): Execution
  {
    if !env.hasClient then Failed(NilClient)
    else match targets
      case FetchFailed(e) => env.handler.handleError(Id, Security, e)
      case Fetched(ms) => Summary(Id, Security, Header, FlatMap(Filter(ms, IsKubernetes), TargetEntry), OkMessage)
  }

  method Execute(env: Env, targets: Fetch<seq<Machine>>) returns (out: Execution)
    ensures out == Verdict(env, targets)
  {
    if !env.hasClient {
      return Failed(NilClient);
    }
    if targets.FetchFailed? {
      return env.handler.handleError(Id, Security, targets.error);
    }
    var k8sTargets := Filter(targets.value, IsKubernetes);
    var insecureMachines: seq<string> := [];
    var i := 0;
    while i < |k8sTargets|
      invariant 0 <= i <= |k8sTargets|
      invariant insecureMachines == FlatMap(k8sTargets[..i], TargetEntry)
    {
      var m := k8sTargets[i];
      FlatMapGo(k8sTargets, i, TargetEntry);
      if m.endpoint.Some? {
        var k8sEndpoint := m.endpoint.value;
        if k8sEndpoint.skipTlsVerification || (k8sEndpoint.clusterUrl.Some? && HasPrefix(k8sEndpoint.clusterUrl.value, "http://")) {
          insecureMachines := insecureMachines + [m.name];
        }
      }
      i := i + 1;
    }
    assert k8sTargets[..i] == k8sTargets;
    out := Summary(Id, Security, Header, insecureMachines, OkMessage);
  }

  /** The entries are the names of the insecure Kubernetes targets, one each
      and in target order; a target of any other communication style is never
      listed, however its endpoint is configured. */
  lemma ReportedInOrder(ms: seq<Machine>)
    ensures |FlatMap(Filter(ms, IsKubernetes), TargetEntry)| == |Filter(ms, InsecureTarget)|
    ensures forall k :: 0 <= k < |Filter(ms, InsecureTarget)| ==>
      FlatMap(Filter(ms, IsKubernetes), TargetEntry)[k] == Filter(ms, InsecureTarget)[k].name
    ensures forall m :: m in Filter(ms, InsecureTarget) <==> m in ms && InsecureTarget(m)
    decreases |ms|
  {
    var ks := Filter(ms, IsKubernetes);
    forall i | 0 <= i < |ks|
      ensures TargetEntry(ks[i]) == if InsecureTarget(ks[i]) then [TargetName(ks[i])] else []
    {
      FilterMember(ms, IsKubernetes, ks[i]);
    }
    FlatMapSelect(ks, InsecureTarget, TargetName, TargetEntry);
    FilterOfFilter(ms);
    forall m
      ensures m in Filter(ms, InsecureTarget) <==> m in ms && InsecureTarget(m)
    {
      FilterMember(ms, InsecureTarget, m);
    }
  }

  /** Narrowing to the Kubernetes targets first, as the source does, loses no
      insecure target. */
  lemma {:induction false} FilterOfFilter(ms: seq<Machine>)
    ensures Filter(Filter(ms, IsKubernetes), InsecureTarget) == Filter(ms, InsecureTarget)
    decreases |ms|
  {
    if ms != [] {
      var n := |ms| - 1;
      FilterOfFilter(ms[..n]);
      var ks := Filter(ms[..n], IsKubernetes);
      if IsKubernetes(ms[n]) {
        assert Filter(ms, IsKubernetes) == ks + [ms[n]];
        assert (ks + [ms[n]])[..|ks|] == ks;
        assert Filter(ks + [ms[n]], InsecureTarget)
          == Filter(ks, InsecureTarget) + (if InsecureTarget(ms[n]) then [ms[n]] else []);
      } else {
        assert Filter(ms, IsKubernetes) == ks;
      }
    }
  }

  /** Once the targets are fetched, the check warns exactly when some target
      is an insecure Kubernetes target. */
  lemma WarningIff(env: Env, ms: seq<Machine>)
    requires env.hasClient
    ensures Verdict(env, Fetched(ms)).error == None && Verdict(env, Fetched(ms)).result.Some?
    ensures Verdict(env, Fetched(ms)).result.value.severity == Warning <==> exists i :: 0 <= i < |ms| && InsecureTarget(ms[i])
  {
    ListingWarningIff(Filter(ms, IsKubernetes), TargetEntry, Id, Security, Header, OkMessage);
    SomeEntryIff(ms);
  }

  /** Some Kubernetes target has an entry exactly when some target is an
      insecure Kubernetes target. */
  lemma SomeEntryIff(ms: seq<Machine>)
    ensures (exists j :: 0 <= j < |Filter(ms, IsKubernetes)| && TargetEntry(Filter(ms, IsKubernetes)[j]) != []) <==>
      exists i :: 0 <= i < |ms| && InsecureTarget(ms[i])
  {
    var ks := Filter(ms, IsKubernetes);
    if exists i :: 0 <= i < |ms| && InsecureTarget(ms[i]) {
      var i :| 0 <= i < |ms| && InsecureTarget(ms[i]);
      FilterMember(ms, IsKubernetes, ms[i]);
      var j :| 0 <= j < |ks| && ks[j] == ms[i];
      assert TargetEntry(ks[j]) != [];
    } else {
      forall j | 0 <= j < |ks|
        ensures TargetEntry(ks[j]) == []
      {
        FilterMember(ms, IsKubernetes, ks[j]);
        var i :| 0 <= i < |ms| && ms[i] == ks[j];
      }
    }
  }
}
