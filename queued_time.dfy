/** `OctoLintDeploymentQueuedTime`: deployments that waited in the task queue
    for more than a minute; the check warns once ten or more of them are
    found. */
module QueuedTime {
  import opened Wrappers
  import opened Seqs
  import opened Strings
  import opened Resources
  import opened Checks

  const Id: string := "OctoLintDeploymentQueuedTime"

  /** `maxQueueTimeMinutes`. */
  const MaxQueueTimeMinutes: int := 1

  /** `maxQueuedTasks`. */
  const MaxQueuedTasks: int := 10

  const DeploymentPrefix: string := "Deployments-"

  /** `deploymentInfo`: a deployment, how long it was queued (in
      nanoseconds) and when it was queued. */
  datatype Queued = Queued(deploymentId: string, duration: int, queuedAt: int)

  // ---------------------------------------------------------------- getDeploymentFromRelatedDocs

  /** No document before index `i` names a deployment. */
  predicate FirstMatch(docs: seq<string>, i: int)
    requires 0 <= i <= |docs|
  {
    forall j :: 0 <= j < i ==> !HasPrefix(docs[j], DeploymentPrefix)
  }

  /** The first related document id that names a deployment, or "" when
      none does. */
  function DeploymentOf(docs: seq<string>): (r: string)
    ensures r == "" || HasPrefix(r, DeploymentPrefix)
    ensures r == "" <==> forall i :: 0 <= i < |docs| ==> !HasPrefix(docs[i], DeploymentPrefix)
    ensures r != "" ==>
      exists i :: 0 <= i < |docs| && docs[i] == r && FirstMatch(docs, i)
  {
    if docs == [] then ""
    else if HasPrefix(docs[0], DeploymentPrefix) then docs[0]
    else
      var r := DeploymentOf(docs[1..]);
      assert forall i :: 0 < i < |docs| ==> docs[i] == docs[1..][i - 1];
      assert r != "" ==>
        exists i :: 0 < i < |docs| && docs[i] == r && FirstMatch(docs, i) by {
        if r != "" {
          var k :| 0 <= k < |docs[1..]| && docs[1..][k] == r && FirstMatch(docs[1..], k);
          assert docs[k + 1] == r;
        }
      }
      r
  }

  /** `getDeploymentFromRelatedDocs`. */
  method GetDeploymentFromRelatedDocs(docs: seq<string>) returns (r: string)
    ensures r == DeploymentOf(docs)
  {
    var i := 0;
    while i < |docs|
      invariant 0 <= i <= |docs|
      invariant DeploymentOf(docs[i..]) == DeploymentOf(docs)
    {
      var d := docs[i];
      if HasPrefix(d, DeploymentPrefix) {
        return d;
      }
      assert docs[i..][1..] == docs[i + 1..];
      i := i + 1;
    }
    return "";
  }

  // ---------------------------------------------------------------- pairing

  /** More than `maxQueueTimeMinutes` between queueing and starting:
      `Duration.Minutes() > 1` holds exactly when the gap exceeds one minute
      of nanoseconds. */
  predicate TooLong(gap: int)
  {
    gap > MaxQueueTimeMinutes * NanosPerMinute
  }

  /** The entry a started event `s` adds for the queued event `q` of the
      deployment `id`. */
  function StartedEntry(q: Event, id: string): Event -> seq<Queued>
  {
    (s: Event) =>
      if s.category == "DeploymentStarted" && id == DeploymentOf(s.relatedDocumentIds) && TooLong(s.occurred - q.occurred)
      then [Queued(id, s.occurred - q.occurred, q.occurred)]
      else []
  }

  /** The entries of one event: for a queued event, one per started event
      of the same deployment that began more than a minute later. */
  function QueuedEntries(events: seq<Event>): Event -> seq<Queued>
  {
    (q: Event) =>
      if q.category == "DeploymentQueued" then FlatMap(events, StartedEntry(q, DeploymentOf(q.relatedDocumentIds)))
      else []
  }

  /** All the slow deployments the events show, in the order of the nested
      walk over queued and started events. */
  function SlowDeployments(events: seq<Event>): seq<Queued>
  {
    FlatMap(events, QueuedEntries(events))
  }

  /** One queued-started pair that the check records. */
  predicate SlowPair(q: Event, s: Event)
  {
    q.category == "DeploymentQueued" && s.category == "DeploymentStarted"
    && DeploymentOf(q.relatedDocumentIds) == DeploymentOf(s.relatedDocumentIds)
    && TooLong(s.occurred - q.occurred)
  }

  /** The inner walk over the started events for one queued event. */
  method AppendStarted(events: seq<Event>, q: Event, id: string, acc: seq<Queued>) returns (r: seq<Queued>)
    ensures r == acc + FlatMap(events, StartedEntry(q, id))
  {
    r := acc;
    var j := 0;
    while j < |events|
      invariant 0 <= j <= |events|
      invariant r == acc + FlatMap(events[..j], StartedEntry(q, id))
    {
      var r2 := events[j];
      FlatMapAccGo(acc, events, j, StartedEntry(q, id));
      ghost var before := r;
      if r2.category == "DeploymentStarted" {
        var startedId := GetDeploymentFromRelatedDocs(r2.relatedDocumentIds);
        if id == startedId {
          var queueTime := r2.occurred - q.occurred;
          if queueTime > MaxQueueTimeMinutes * NanosPerMinute {
            r := r + [Queued(id, queueTime, q.occurred)];
          }
        }
      }
      assert r == before + StartedEntry(q, id)(r2);
      j := j + 1;
    }
    assert events[..j] == events;
  }

  /** The outer walk over the queued events. */
  method CollectDeployments(events: seq<Event>) returns (deployments: seq<Queued>)
    ensures deployments == SlowDeployments(events)
  {
    deployments := [];
    var i := 0;
    while i < |events|
      invariant 0 <= i <= |events|
      invariant deployments == FlatMap(events[..i], QueuedEntries(events))
    {
      var r := events[i];
      FlatMapGo(events, i, QueuedEntries(events));
      if r.category == "DeploymentQueued" {
        var queuedDeploymentId := GetDeploymentFromRelatedDocs(r.relatedDocumentIds);
        deployments := AppendStarted(events, r, queuedDeploymentId, deployments);
      }
      i := i + 1;
    }
    assert events[..i] == events;
  }

  // ---------------------------------------------------------------- links and verdict

  /** The text of one entry: a link to the deployment when it can be
      fetched, its id otherwise; `stamp` renders the queue time and the
      duration in minutes. */
  function Link(url: string, space: string, deployments: string -> Fetch<Deployment>,
                stamp: Queued -> string, d: Queued): string
  {
    match deployments(d.deploymentId)
    case FetchFailed(_) => d.deploymentId + stamp(d)
    case Fetched(dep) =>
      url + "/app#/" + space + "/projects/" + dep.projectId + "/deployments/releases/" + dep.releaseId
      + "/deployments/" + d.deploymentId + stamp(d)
  }

  function Links(url: string, space: string, deployments: string -> Fetch<Deployment>,
                 stamp: Queued -> string, ds: seq<Queued>): (r: seq<string>)
    ensures |r| == |ds|
    ensures forall k :: 0 <= k < |ds| ==> r[k] == Link(url, space, deployments, stamp, ds[k])
  {
    if ds == [] then [] else Links(url, space, deployments, stamp, ds[..|ds| - 1]) + [Link(url, space, deployments, stamp, ds[|ds| - 1])]
  }

  /** The opening both messages share: "Found <count> deployment". */
  function CountPrefix(count: int): string
  {
    "Found " + IntToString(count) + " deployment"
  }

  /** What follows the count in the warning, before the texts. */
  const WarningLead: string :=
    "s that were queued for longer than " + IntToString(MaxQueueTimeMinutes)
    + " minutes. Consider increasing the task cap or adding a HA node to reduce task queue times:\n"

  function WarningMessage(count: int, links: seq<string>): string
  {
    CountPrefix(count) + WarningLead + Join(links, "\n")
  }

  /** What follows the count in the `Ok` message, before the texts. */
  const OkLead: string := " tasks that were queued for longer than " + IntToString(MaxQueueTimeMinutes) + " minutes:\n"

  function OkMessage(count: int, links: seq<string>): string
  {
    CountPrefix(count) + OkLead + Join(links, ", ")
  }

  function Summarize(ds: seq<Queued>, links: seq<string>): Execution
  {
    if |ds| >= MaxQueuedTasks then Reported(CheckResult(WarningMessage(|ds|, links), Id, "", Warning, Performance))
    else Reported(CheckResult(OkMessage(|ds|, links), Id, "", Ok, Performance))
  }

  /** The outcome of the check; `events` is the page of queued and started
      deployment events the server returns under the configured limit. */
  function Verdict(env: Env, url: string, space: string, events: Fetch<seq<Event>>,
                   deployments: string -> Fetch<Deployment>, stamp: Queued -> string): Execution
  {
    if !env.hasClient then Failed(NilClient)
    else match events
      case FetchFailed(e) => env.handler.handleError(Id, Performance, e)
      case Fetched(es) =>
        var ds := SlowDeployments(es);
        Summarize(ds, Links(url, space, deployments, stamp, ds))
  }

  /** The `lo.Map` from entries to their texts. */
  method MapLinks(url: string, space: string, deployments: string -> Fetch<Deployment>,
                  stamp: Queued -> string, ds: seq<Queued>) returns (links: seq<string>)
    ensures links == Links(url, space, deployments, stamp, ds)
  {
    links := [];
    var i := 0;
    while i < |ds|
      invariant 0 <= i <= |ds|
      invariant links == Links(url, space, deployments, stamp, ds[..i])
    {
      var item := ds[i];
      assert ds[..i + 1][..i] == ds[..i];
      var deployment := deployments(item.deploymentId);
      if deployment.FetchFailed? {
        links := links + [item.deploymentId + stamp(item)];
      } else {
        links := links + [url + "/app#/" + space + "/projects/" + deployment.value.projectId + "/deployments/releases/"
          + deployment.value.releaseId + "/deployments/" + item.deploymentId + stamp(item)];
      }
      i := i + 1;
    }
    assert ds[..i] == ds;
  }

  method Execute(env: Env, url: string, space: string, events: Fetch<seq<Event>>,
                 deployments: string -> Fetch<Deployment>, stamp: Queued -> string) returns (out: Execution)
    ensures out == Verdict(env, url, space, events, deployments, stamp)
  {
    if !env.hasClient {
      return Failed(NilClient);
    }
    if events.FetchFailed? {
      return env.handler.handleError(Id, Performance, events.error);
    }
    var ds := CollectDeployments(events.value);
    var deploymentLinks := MapLinks(url, space, deployments, stamp, ds);
    if |ds| >= MaxQueuedTasks {
      return Reported(CheckResult(WarningMessage(|ds|, deploymentLinks), Id, "", Warning, Performance));
    }
    return Reported(CheckResult(OkMessage(|ds|, deploymentLinks), Id, "", Ok, Performance));
  }

  // ---------------------------------------------------------------- properties

  /** The entry of the pair (`q`, `s`), as `SlowDeployments` records it. */
  predicate Recorded(q: Event, s: Event, d: Queued)
  {
    SlowPair(q, s) && d == Queued(DeploymentOf(q.relatedDocumentIds), s.occurred - q.occurred, q.occurred)
  }

  lemma QueuedEntriesIff(events: seq<Event>, q: Event, d: Queued)
    ensures d in QueuedEntries(events)(q) <==> exists j :: 0 <= j < |events| && Recorded(q, events[j], d)
  {
    if q.category == "DeploymentQueued" {
      var f := StartedEntry(q, DeploymentOf(q.relatedDocumentIds));
      FlatMapMember(events, f, d);
      forall j | 0 <= j < |events|
        ensures d in f(events[j]) <==> Recorded(q, events[j], d)
      {
        StartedEntryIff(q, events[j], d);
      }
    }
  }

  lemma StartedEntryIff(q: Event, s: Event, d: Queued)
    requires q.category == "DeploymentQueued"
    ensures d in StartedEntry(q, DeploymentOf(q.relatedDocumentIds))(s) <==> Recorded(q, s, d)
  {
  }

  /** An entry is recorded exactly for a queued event and a started event
      of the same deployment (both possibly without one, sharing "") that
      began more than a minute later; it carries that deployment, the gap
      and the queue time. */
  lemma SlowIff(events: seq<Event>, d: Queued)
    ensures d in SlowDeployments(events) <==>
      exists i, j :: 0 <= i < |events| && 0 <= j < |events| && Recorded(events[i], events[j], d)
  {
    FlatMapMember(events, QueuedEntries(events), d);
    forall i | 0 <= i < |events|
      ensures d in QueuedEntries(events)(events[i]) <==> exists j :: 0 <= j < |events| && Recorded(events[i], events[j], d)
    {
      QueuedEntriesIff(events, events[i], d);
    }
  }

  /** A gap of a minute or less, negative ones included, is never
      recorded. */
  lemma ShortGapsIgnored(events: seq<Event>, d: Queued)
    requires d in SlowDeployments(events)
    ensures d.duration > NanosPerMinute
    ensures d.deploymentId == "" || HasPrefix(d.deploymentId, DeploymentPrefix)
  {
    SlowIff(events, d);
  }

  /** Events that name no deployment all pair with each other: a queued and
      a started event without a deployment document, more than a minute
      apart, are recorded under the id "". */
  lemma UnnamedEventsPair(events: seq<Event>, i: int, j: int)
    requires 0 <= i < |events| && 0 <= j < |events|
    requires events[i].category == "DeploymentQueued" && events[j].category == "DeploymentStarted"
    requires forall k :: 0 <= k < |events[i].relatedDocumentIds| ==> !HasPrefix(events[i].relatedDocumentIds[k], DeploymentPrefix)
    requires forall k :: 0 <= k < |events[j].relatedDocumentIds| ==> !HasPrefix(events[j].relatedDocumentIds[k], DeploymentPrefix)
    requires events[j].occurred - events[i].occurred > NanosPerMinute
    ensures Queued("", events[j].occurred - events[i].occurred, events[i].occurred) in SlowDeployments(events)
  {
    SlowIff(events, Queued("", events[j].occurred - events[i].occurred, events[i].occurred));
    assert Recorded(events[i], events[j], Queued("", events[j].occurred - events[i].occurred, events[i].occurred));
  }

  lemma PrefixOfConcat(p: string, rest: string)
    ensures HasPrefix(p + rest, p)
  {
    assert (p + rest)[..|p|] == p;
  }

  lemma SuffixOfConcat(p: string, rest: string)
    ensures HasSuffix(p + rest, rest)
  {
    assert (p + rest)[|p|..] == rest;
  }

  /** The warning opens with the count and ends with the texts, one per line. */
  lemma WarningMessageShape(count: int, links: seq<string>)
    ensures HasPrefix(WarningMessage(count, links), CountPrefix(count))
    ensures HasSuffix(WarningMessage(count, links), Join(links, "\n"))
  {
    PrefixOfConcat(CountPrefix(count), WarningLead + Join(links, "\n"));
    SuffixOfConcat(CountPrefix(count) + WarningLead, Join(links, "\n"));
  }

  /** The `Ok` message opens with the count and ends with the texts,
      comma-separated. */
  lemma OkMessageShape(count: int, links: seq<string>)
    ensures HasPrefix(OkMessage(count, links), CountPrefix(count))
    ensures HasSuffix(OkMessage(count, links), Join(links, ", "))
  {
    PrefixOfConcat(CountPrefix(count), OkLead + Join(links, ", "));
    SuffixOfConcat(CountPrefix(count) + OkLead, Join(links, ", "));
  }

  /** Once the events are fetched, the check warns exactly when ten or more
      slow deployments are found (one to nine still give `Ok`); the message
      opens with their count and ends with one text per entry, one per line
      in the warning and comma-separated otherwise. */
  lemma WarningIff(env: Env, url: string, space: string, es: seq<Event>,
                   deployments: string -> Fetch<Deployment>, stamp: Queued -> string)
    requires env.hasClient
    ensures Verdict(env, url, space, Fetched(es), deployments, stamp).error == None
    ensures Verdict(env, url, space, Fetched(es), deployments, stamp).result.Some?
    ensures Verdict(env, url, space, Fetched(es), deployments, stamp).result.value.severity == Warning <==>
      |SlowDeployments(es)| >= MaxQueuedTasks
    ensures Verdict(env, url, space, Fetched(es), deployments, stamp).result.value.severity == Ok <==>
      |SlowDeployments(es)| < MaxQueuedTasks
    ensures HasPrefix(Verdict(env, url, space, Fetched(es), deployments, stamp).result.value.description,
      CountPrefix(|SlowDeployments(es)|))
    ensures |Links(url, space, deployments, stamp, SlowDeployments(es))| == |SlowDeployments(es)|
    ensures |SlowDeployments(es)| >= MaxQueuedTasks ==>
      HasSuffix(Verdict(env, url, space, Fetched(es), deployments, stamp).result.value.description,
        Join(Links(url, space, deployments, stamp, SlowDeployments(es)), "\n"))
    ensures |SlowDeployments(es)| < MaxQueuedTasks ==>
      HasSuffix(Verdict(env, url, space, Fetched(es), deployments, stamp).result.value.description,
        Join(Links(url, space, deployments, stamp, SlowDeployments(es)), ", "))
  {
    var ds := SlowDeployments(es);
    var links := Links(url, space, deployments, stamp, ds);
    WarningMessageShape(|ds|, links);
    OkMessageShape(|ds|, links);
  }
}
