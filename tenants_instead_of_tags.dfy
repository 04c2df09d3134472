/** `OctoLintDirectTenantReferences`: groups of tenants that several
    accounts, certificates or targets reference directly, and that a tenant
    tag could name instead. */
module TenantsInsteadOfTags {
  import opened Wrappers
  import opened Seqs
  import opened Strings
  import opened Resources
  import opened Checks

  const Id: string := "OctoLintDirectTenantReferences"

  const Header: string :=
    "The following groups of tenants have been directly referenced more than once, and may be better grouped as tenant tags:\n"
  const OkMessage: string := "No duplicate groups of tenants were found"

  /** `core.TenantedDeploymentModeTenantedOrUntenanted`. */
  const TenantedOrUntenanted: string := "TenantedOrUntenanted"

  // ---------------------------------------------------------------- group keys

  /** The key of a group of tenant IDs: the IDs sorted and joined by ",". */
  function Key(ids: seq<string>): string
  {
    Join(Sort(ids), ",")
  }

  /** The key names the group, not the order the IDs were listed in. */
  lemma KeyPermutationInvariant(a: seq<string>, b: seq<string>)
    requires multiset(a) == multiset(b)
    ensures Key(a) == Key(b)
  {
    SortPermutationInvariant(a, b);
  }

  /** When no tenant ID holds a comma, splitting a key gives back the IDs of
      the group, sorted. */
  lemma SplitKey(ids: seq<string>)
    requires |ids| > 1
    requires forall k :: 0 <= k < |ids| ==> ',' !in ids[k]
    ensures Split(Key(ids), ',') == Sort(ids)
  {
    var sorted := Sort(ids);
    forall k | 0 <= k < |sorted|
      ensures ',' !in sorted[k]
    {
      assert sorted[k] in multiset(ids);
    }
    SplitJoin(sorted, ',');
  }

  // ---------------------------------------------------------------- the two maps

  /** A direct reference to a list of tenants, and the resource that makes it. */
  datatype Reference = Reference(ids: seq<string>, source: string)

  /** Only references to two or more tenants form a group. */
  predicate Counted(r: Reference)
  {
    |r.ids| > 1
  }

  function Get(m: map<string, seq<string>>, k: string): seq<string>
  {
    if k in m then m[k] else []
  }

  /** The sources map after `addTenants` records `r`. */
  function AddReference(m: map<string, seq<string>>, r: Reference): map<string, seq<string>>
  {
    if !Counted(r) then m else m[Key(r.ids) := Get(m, Key(r.ids)) + [r.source]]
  }

  /** The sources map after recording `refs` in order, starting from `m`. */
  function TallyFrom(m: map<string, seq<string>>, refs: seq<Reference>): map<string, seq<string>>
  {
    if refs == [] then m else AddReference(TallyFrom(m, refs[..|refs| - 1]), refs[|refs| - 1])
  }

  /** The sources of group `k` that one reference contributes. */
  function SourcesFor(k: string): Reference -> seq<string>
  {
    (r: Reference) => if Counted(r) && Key(r.ids) == k then [r.source] else []
  }

  /** The two maps `addTenants` fills: how often each group is referenced,
      and by which resources. */
  class TenantReferences {
    var counts: map<string, int>
    var sources: map<string, seq<string>>

    /** Both maps have the same groups, and each count is the number of
        sources recorded for its group. */
    ghost predicate Valid()
      reads this
    {
      Consistent(counts, sources)
    }

    constructor()
      ensures Valid() && counts == map[] && sources == map[]
    {
      counts := map[];
      sources := map[];
    }

    /** `addTenants`: fewer than two IDs change nothing; otherwise the IDs
        are sorted in place, and the group they form is counted once more and
        gains `source` as its last source. No other group changes. */
    method AddTenants(tenantIds: array<string>, source: string)
      requires Valid()
      modifies this, tenantIds
      ensures Valid()
      ensures tenantIds.Length <= 1 ==> counts == old(counts) && sources == old(sources) && tenantIds[..] == old(tenantIds[..])
      ensures tenantIds.Length > 1 ==> tenantIds[..] == Sort(old(tenantIds[..]))
      ensures tenantIds.Length > 1 ==>
        var key := Key(old(tenantIds[..]));
        counts == old(counts)[key := (if key in old(counts) then old(counts)[key] else 0) + 1]
      ensures sources == AddReference(old(sources), Reference(old(tenantIds[..]), source))
    {
      if tenantIds.Length <= 1 {
        return;
      }
      ghost var r := Reference(tenantIds[..], source);
      assert r.ids == old(tenantIds[..]);
      SortIds(tenantIds);
      var tenants := Join(tenantIds[..], ",");
      assert tenants == Key(old(tenantIds[..]));
      Bump(tenants, source);
    }

    /** The group `tenants` is counted once more and gains `source`. */
    method Bump(tenants: string, source: string)
      requires Valid()
      modifies this
      ensures Valid()
      ensures counts == old(counts)[tenants := (if tenants in old(counts) then old(counts)[tenants] else 0) + 1]
      ensures sources == old(sources)[tenants := Get(old(sources), tenants) + [source]]
    {
      if tenants !in counts {
        counts := counts[tenants := 0];
      }
      counts := counts[tenants := counts[tenants] + 1];
      assert counts == old(counts)[tenants := (if tenants in old(counts) then old(counts)[tenants] else 0) + 1];
      if tenants !in sources {
        sources := sources[tenants := []];
      }
      sources := sources[tenants := sources[tenants] + [source]];
      assert sources == old(sources)[tenants := Get(old(sources), tenants) + [source]];
      BumpConsistent(old(counts), old(sources), tenants, source);
    }
  }

  /** Both maps have the same groups, and each count is the number of
      sources recorded for its group. */
  ghost predicate Consistent(counts: map<string, int>, sources: map<string, seq<string>>)
  {
    counts.Keys == sources.Keys && forall k :: k in counts ==> counts[k] == |sources[k]|
  }

  /** Counting a group once more while adding one source to it keeps the
      two maps consistent. */
  lemma BumpConsistent(counts: map<string, int>, sources: map<string, seq<string>>, key: string, source: string)
    requires Consistent(counts, sources)
    ensures Consistent(counts[key := (if key in counts then counts[key] else 0) + 1],
                       sources[key := Get(sources, key) + [source]])
  {
  }

  /** `slices.Sort`: sorts the IDs in place. */
  method SortIds(tenantIds: array<string>)
    modifies tenantIds
    ensures tenantIds[..] == Sort(old(tenantIds[..]))
  {
    var sorted := Sort(tenantIds[..]);
    forall i | 0 <= i < tenantIds.Length {
      tenantIds[i] := sorted[i];
    }
    assert tenantIds[..] == sorted;
  }

  lemma {:induction false} TallyFromAppend(m: map<string, seq<string>>, a: seq<Reference>, b: seq<Reference>)
    ensures TallyFrom(m, a + b) == TallyFrom(TallyFrom(m, a), b)
    decreases |b|
  {
    if b == [] {
      assert a + b == a;
    } else {
      var n := |b| - 1;
      assert (a + b)[..|a + b| - 1] == a + b[..n];
      TallyFromAppend(m, a, b[..n]);
    }
  }

  /** A group is in the sources map exactly when it was there already or a
      counted reference names it. */
  lemma {:induction false} TallyKeys(m: map<string, seq<string>>, refs: seq<Reference>, k: string)
    ensures k in TallyFrom(m, refs) <==> k in m || exists i :: 0 <= i < |refs| && Counted(refs[i]) && Key(refs[i].ids) == k
    decreases |refs|
  {
    if refs != [] {
      var n := |refs| - 1;
      TallyKeys(m, refs[..n], k);
      forall i | 0 <= i < n
        ensures refs[..n][i] == refs[i]
      {
      }
    }
  }

  /** The sources of a group are the earlier ones followed by those of the
      references naming it, in order. */
  lemma {:induction false} TallySources(m: map<string, seq<string>>, refs: seq<Reference>, k: string)
    ensures Get(TallyFrom(m, refs), k) == Get(m, k) + FlatMap(refs, SourcesFor(k))
    decreases |refs|
  {
    if refs != [] {
      var n := |refs| - 1;
      TallySources(m, refs[..n], k);
      var before := TallyFrom(m, refs[..n]);
      assert TallyFrom(m, refs) == AddReference(before, refs[n]);
      assert FlatMap(refs, SourcesFor(k)) == FlatMap(refs[..n], SourcesFor(k)) + SourcesFor(k)(refs[n]);
    }
  }

  // ---------------------------------------------------------------- references of the three resource kinds

  function AccountReference(a: Account): seq<Reference>
  {
    if a.tenantedDeploymentMode == TenantedOrUntenanted then [Reference(a.tenantIds, "Account - " + a.name)] else []
  }

  function CertificateReference(c: Certificate): seq<Reference>
  {
    if c.tenantedDeploymentMode == TenantedOrUntenanted then [Reference(c.tenantIds, "Certificate - " + c.name)] else []
  }

  function TargetReference(m: Machine): seq<Reference>
  {
    if m.tenantedDeploymentMode == TenantedOrUntenanted then [Reference(m.tenantIds, "Target - " + m.name)] else []
  }

  /** Every direct reference, accounts first, then certificates, then targets. */
  function References(accounts: seq<Account>, certificates: seq<Certificate>, machines: seq<Machine>): seq<Reference>
  {
    FlatMap(accounts, AccountReference) + FlatMap(certificates, CertificateReference) + FlatMap(machines, TargetReference)
  }

  /** Only resources in the tenanted-or-untenanted mode make references. */
  lemma ReferenceIff(accounts: seq<Account>, certificates: seq<Certificate>, machines: seq<Machine>, r: Reference)
    ensures r in References(accounts, certificates, machines) <==>
      || (exists i ::
            0 <= i < |accounts| && accounts[i].tenantedDeploymentMode == TenantedOrUntenanted
            && r == Reference(accounts[i].tenantIds, "Account - " + accounts[i].name))
      || (exists i ::
            0 <= i < |certificates| && certificates[i].tenantedDeploymentMode == TenantedOrUntenanted
            && r == Reference(certificates[i].tenantIds, "Certificate - " + certificates[i].name))
      || (exists i ::
            0 <= i < |machines| && machines[i].tenantedDeploymentMode == TenantedOrUntenanted
            && r == Reference(machines[i].tenantIds, "Target - " + machines[i].name))
  {
    FlatMapMember(accounts, AccountReference, r);
    FlatMapMember(certificates, CertificateReference, r);
    FlatMapMember(machines, TargetReference, r);
  }

  // ---------------------------------------------------------------- tenant names

  /** `getTenantNameById`: the name of the first tenant with the ID, or "". */
  function TenantName(tenants: seq<Tenant>, id: string): (r: string)
    ensures (forall i :: 0 <= i < |tenants| ==> tenants[i].id != id) ==> r == ""
    ensures forall i :: 0 <= i < |tenants| && tenants[i].id == id && (forall j :: 0 <= j < i ==> tenants[j].id != id) ==>
      r == tenants[i].name
  {
    if tenants == [] then ""
    else if tenants[0].id == id then tenants[0].name
    else
      assert forall i :: 1 <= i < |tenants| ==> tenants[1..][i - 1] == tenants[i];
      TenantName(tenants[1..], id)
  }

  method GetTenantNameById(tenants: seq<Tenant>, id: string) returns (name: string)
    ensures name == TenantName(tenants, id)
  {
    var i := 0;
    while i < |tenants|
      invariant 0 <= i <= |tenants|
      invariant forall j :: 0 <= j < i ==> tenants[j].id != id
    {
      if tenants[i].id == id {
        return tenants[i].name;
      }
      i := i + 1;
    }
    return "";
  }

  function NameOf(tenants: seq<Tenant>): string -> seq<string>
  {
    (id: string) => [TenantName(tenants, id)]
  }

  /** One report line: the tenants' names, then the resources that reference
      the group. */
  function GroupLine(tenants: seq<Tenant>, group: string, sources: seq<string>): string
  {
    Join(FlatMap(Split(group, ','), NameOf(tenants)), ", ") + " (" + Join(sources, ", ") + ")"
  }

  function LineOf(tenants: seq<Tenant>, sources: map<string, seq<string>>): string -> seq<string>
  {
    (group: string) => [GroupLine(tenants, group, Get(sources, group))]
  }

  /** `groups` lists, each once and in some order, the groups referenced
      more than once. */
  ghost predicate MultipleGroups(sources: map<string, seq<string>>, groups: seq<string>)
  {
    Distinct(groups) && forall k :: k in groups <==> k in sources && |sources[k]| > 1
  }

  /** The outcome of the check once the groups referenced more than once are
      listed in `groups` (the order the Go map yields them in). */
  function Outcome(env: Env, tenants: Fetch<seq<Tenant>>, accounts: Fetch<seq<Account>>,
                   certificates: Fetch<seq<Certificate>>, machines: Fetch<seq<Machine>>, groups: seq<string>): Execution
  {
    if !env.hasClient then Failed(NilClient)
    else if tenants.FetchFailed? then env.handler.handleError(Id, Organization, tenants.error)
    else if accounts.FetchFailed? then env.handler.handleError(Id, Organization, accounts.error)
    else if certificates.FetchFailed? then env.handler.handleError(Id, Organization, certificates.error)
    else if machines.FetchFailed? then env.handler.handleError(Id, Organization, machines.error)
    else
      var sources := TallyFrom(map[], References(accounts.value, certificates.value, machines.value));
      Summary(Id, Organization, Header, FlatMap(groups, LineOf(tenants.value, sources)), OkMessage)
  }

  predicate AllFetched(tenants: Fetch<seq<Tenant>>, accounts: Fetch<seq<Account>>,
                       certificates: Fetch<seq<Certificate>>, machines: Fetch<seq<Machine>>)
  {
    tenants.Fetched? && accounts.Fetched? && certificates.Fetched? && machines.Fetched?
  }

  /** Copies a resource's tenant IDs into the slice `addTenants` sorts. */
  method IdArray(ids: seq<string>) returns (a: array<string>)
    ensures fresh(a) && a[..] == ids
  {
    a := new string[|ids|](i requires 0 <= i < |ids| => ids[i]);
  }

  /** The account loop: each account in the tenanted-or-untenanted mode
      records its tenants. */
  method RecordAccounts(refs: TenantReferences, allAccounts: seq<Account>)
    requires refs.Valid()
    modifies refs
    ensures refs.Valid()
    ensures refs.sources == TallyFrom(old(refs.sources), FlatMap(allAccounts, AccountReference))
  {
    ghost var start := refs.sources;
    var i := 0;
    while i < |allAccounts|
      invariant 0 <= i <= |allAccounts|
      invariant refs.Valid()
      invariant refs.sources == TallyFrom(start, FlatMap(allAccounts[..i], AccountReference))
    {
      var a := allAccounts[i];
      FlatMapGo(allAccounts, i, AccountReference);
      TallyFromAppend(start, FlatMap(allAccounts[..i], AccountReference), AccountReference(a));
      if a.tenantedDeploymentMode == TenantedOrUntenanted {
        var ids := IdArray(a.tenantIds);
        refs.AddTenants(ids, "Account - " + a.name);
      }
      i := i + 1;
    }
    assert allAccounts[..i] == allAccounts;
  }

  /** The certificate loop. */
  method RecordCertificates(refs: TenantReferences, allCertificates: seq<Certificate>)
    requires refs.Valid()
    modifies refs
    ensures refs.Valid()
    ensures refs.sources == TallyFrom(old(refs.sources), FlatMap(allCertificates, CertificateReference))
  {
    ghost var start := refs.sources;
    var i := 0;
    while i < |allCertificates|
      invariant 0 <= i <= |allCertificates|
      invariant refs.Valid()
      invariant refs.sources == TallyFrom(start, FlatMap(allCertificates[..i], CertificateReference))
    {
      var c := allCertificates[i];
      FlatMapGo(allCertificates, i, CertificateReference);
      TallyFromAppend(start, FlatMap(allCertificates[..i], CertificateReference), CertificateReference(c));
      if c.tenantedDeploymentMode == TenantedOrUntenanted {
        var ids := IdArray(c.tenantIds);
        refs.AddTenants(ids, "Certificate - " + c.name);
      }
      i := i + 1;
    }
    assert allCertificates[..i] == allCertificates;
  }

  /** The target loop. */
  method RecordTargets(refs: TenantReferences, allMachines: seq<Machine>)
    requires refs.Valid()
    modifies refs
    ensures refs.Valid()
    ensures refs.sources == TallyFrom(old(refs.sources), FlatMap(allMachines, TargetReference))
  {
    ghost var start := refs.sources;
    var i := 0;
    while i < |allMachines|
      invariant 0 <= i <= |allMachines|
      invariant refs.Valid()
      invariant refs.sources == TallyFrom(start, FlatMap(allMachines[..i], TargetReference))
    {
      var m := allMachines[i];
      FlatMapGo(allMachines, i, TargetReference);
      TallyFromAppend(start, FlatMap(allMachines[..i], TargetReference), TargetReference(m));
      if m.tenantedDeploymentMode == TenantedOrUntenanted {
        var ids := IdArray(m.tenantIds);
        refs.AddTenants(ids, "Target - " + m.name);
      }
      i := i + 1;
    }
    assert allMachines[..i] == allMachines;
  }

  /** The loop over the counts map: the groups counted more than once, in
      whatever order the map yields them. */
  method MultipleTenantReferences(refs: TenantReferences) returns (groups: seq<string>)
    requires refs.Valid()
    ensures MultipleGroups(refs.sources, groups)
  {
    groups := [];
    var remaining := refs.counts.Keys;
    while remaining != {}
      invariant remaining <= refs.counts.Keys
      invariant Distinct(groups)
      invariant forall k :: k in groups <==> k in refs.counts && k !in remaining && refs.counts[k] > 1
      decreases remaining
    {
      var tenantGroups :| tenantGroups in remaining;
      if refs.counts[tenantGroups] > 1 {
        groups := groups + [tenantGroups];
      }
      remaining := remaining - {tenantGroups};
    }
  }

  /** The names of the tenants of one group, in the order of its key. */
  method TenantNames(tenants: seq<Tenant>, group: string) returns (splitTenantNames: seq<string>)
    ensures splitTenantNames == FlatMap(Split(group, ','), NameOf(tenants))
  {
    var splitTenants := Split(group, ',');
    splitTenantNames := [];
    var t := 0;
    while t < |splitTenants|
      invariant 0 <= t <= |splitTenants|
      invariant splitTenantNames == FlatMap(splitTenants[..t], NameOf(tenants))
    {
      var name := GetTenantNameById(tenants, splitTenants[t]);
      FlatMapGo(splitTenants, t, NameOf(tenants));
      splitTenantNames := splitTenantNames + [name];
      t := t + 1;
    }
    assert splitTenants[..t] == splitTenants;
  }

  /** One report line per group, in the order of `groups`. */
  method GroupedTenants(tenants: seq<Tenant>, sources: map<string, seq<string>>, groups: seq<string>)
    returns (groupedTenants: seq<string>)
    ensures groupedTenants == FlatMap(groups, LineOf(tenants, sources))
  {
    groupedTenants := [];
    var g := 0;
    while g < |groups|
      invariant 0 <= g <= |groups|
      invariant groupedTenants == FlatMap(groups[..g], LineOf(tenants, sources))
    {
      var groupedTenant := groups[g];
      var splitTenantNames := TenantNames(tenants, groupedTenant);
      FlatMapGo(groups, g, LineOf(tenants, sources));
      var line := Join(splitTenantNames, ", ") + " (" + Join(Get(sources, groupedTenant), ", ") + ")";
      assert LineOf(tenants, sources)(groupedTenant) == [line];
      groupedTenants := groupedTenants + [line];
      g := g + 1;
    }
    assert groups[..g] == groups;
  }

  method Execute(env: Env, tenants: Fetch<seq<Tenant>>, accounts: Fetch<seq<Account>>,
                 certificates: Fetch<seq<Certificate>>, machines: Fetch<seq<Machine>>)
    returns (out: Execution, groups: seq<string>)
    ensures out == Outcome(env, tenants, accounts, certificates, machines, groups)
    ensures env.hasClient && AllFetched(tenants, accounts, certificates, machines) ==>
      MultipleGroups(TallyFrom(map[], References(accounts.value, certificates.value, machines.value)), groups)
  {
    groups := [];
    if !env.hasClient {
      return Failed(NilClient), groups;
    }
    if tenants.FetchFailed? {
      return env.handler.handleError(Id, Organization, tenants.error), groups;
    }
    if accounts.FetchFailed? {
      return env.handler.handleError(Id, Organization, accounts.error), groups;
    }
    if certificates.FetchFailed? {
      return env.handler.handleError(Id, Organization, certificates.error), groups;
    }
    if machines.FetchFailed? {
      return env.handler.handleError(Id, Organization, machines.error), groups;
    }
    ghost var a, c, m := FlatMap(accounts.value, AccountReference), FlatMap(certificates.value, CertificateReference),
      FlatMap(machines.value, TargetReference);
    var refs := new TenantReferences();
    RecordAccounts(refs, accounts.value);
    RecordCertificates(refs, certificates.value);
    RecordTargets(refs, machines.value);
    TallyFromAppend(map[], a, c);
    TallyFromAppend(map[], a + c, m);
    assert refs.sources == TallyFrom(map[], References(accounts.value, certificates.value, machines.value));
    groups := MultipleTenantReferences(refs);
    var groupedTenants := GroupedTenants(tenants.value, refs.sources, groups);
    out := Summary(Id, Organization, Header, groupedTenants, OkMessage);
  }

  /** A group is reported exactly when two or more of the counted
      references name it, and its line lists the sources of exactly those
      references, in the order the resources were read. */
  lemma ReportedIff(accounts: seq<Account>, certificates: seq<Certificate>, machines: seq<Machine>,
                    groups: seq<string>, k: string)
    requires MultipleGroups(TallyFrom(map[], References(accounts, certificates, machines)), groups)
    ensures k in groups <==> |FlatMap(References(accounts, certificates, machines), SourcesFor(k))| > 1
    ensures Get(TallyFrom(map[], References(accounts, certificates, machines)), k)
      == FlatMap(References(accounts, certificates, machines), SourcesFor(k))
  {
    var refs := References(accounts, certificates, machines);
    TallySources(map[], refs, k);
    if |FlatMap(refs, SourcesFor(k))| > 1 {
      FlatMapEmpty(refs, SourcesFor(k));
    }
  }

  /** Some group has two or more sources. */
  predicate Repeated(sources: map<string, seq<string>>)
  {
    exists k :: k in sources && |sources[k]| > 1
  }

  /** Listing one line per group referenced more than once warns exactly
      when some group is. */
  lemma GroupsWarning(tenants: seq<Tenant>, sources: map<string, seq<string>>, groups: seq<string>)
    requires MultipleGroups(sources, groups)
    ensures Summary(Id, Organization, Header, FlatMap(groups, LineOf(tenants, sources)), OkMessage).result.value.severity == Warning
      <==> Repeated(sources)
  {
    FlatMapLength(groups, LineOf(tenants, sources));
    if exists k :: k in sources && |sources[k]| > 1 {
      var k :| k in sources && |sources[k]| > 1;
      assert k in groups;
    }
    if groups != [] {
      assert groups[0] in groups;
    }
  }

  /** The check warns exactly when some group is referenced more than once. */
  lemma WarningIff(env: Env, tenants: seq<Tenant>, accounts: seq<Account>, certificates: seq<Certificate>,
                   machines: seq<Machine>, groups: seq<string>)
    requires env.hasClient
    requires MultipleGroups(TallyFrom(map[], References(accounts, certificates, machines)), groups)
    ensures Outcome(env, Fetched(tenants), Fetched(accounts), Fetched(certificates), Fetched(machines), groups).error == None
    ensures Outcome(env, Fetched(tenants), Fetched(accounts), Fetched(certificates), Fetched(machines), groups).result.Some?
    ensures Outcome(env, Fetched(tenants), Fetched(accounts), Fetched(certificates), Fetched(machines), groups).result.value.severity == Warning
      <==> Repeated(TallyFrom(map[], References(accounts, certificates, machines)))
  {
    var sources := TallyFrom(map[], References(accounts, certificates, machines));
    var out := Outcome(env, Fetched(tenants), Fetched(accounts), Fetched(certificates), Fetched(machines), groups);
    assert out == Summary(Id, Organization, Header, FlatMap(groups, LineOf(tenants, sources)), OkMessage);
    GroupsWarning(tenants, sources, groups);
  }

  /** When no tenant ID holds a comma, a group's line names its tenants in
      the order of their sorted IDs. */
  lemma GroupLineNames(tenants: seq<Tenant>, ids: seq<string>, sources: seq<string>)
    requires |ids| > 1
    requires forall k :: 0 <= k < |ids| ==> ',' !in ids[k]
    ensures GroupLine(tenants, Key(ids), sources)
      == Join(FlatMap(Sort(ids), NameOf(tenants)), ", ") + " (" + Join(sources, ", ") + ")"
  {
    SplitKey(ids);
  }
}
