/** `OctoLintInsecureWebhookUrls`: the subscriptions that call a webhook
    over plain HTTP. */
module InsecureSubscriptions {
  import opened Wrappers
  import opened Seqs
  import opened Strings
  import opened Resources
  import opened Checks

  const Id: string := "OctoLintInsecureWebhookUrls"

  const Header: string := "The following subscriptions use an insecure HTTP webhook URL:\n"
  const OkMessage: string := "There are no insecure subscriptions"

  /** A subscription with an event notification whose webhook URI starts
      with "http://". */
  predicate Insecure(s: Subscription)
  {
    s.notification.Some? && HasPrefix(s.notification.value.webhookUri, "http://")
  }

  function SubscriptionName(s: Subscription): string
  {
    s.name
  }

  function SubscriptionEntry(s: Subscription): seq<string>
  {
    if s.notification.Some? && HasPrefix(s.notification.value.webhookUri, "http://") then [s.name] else []
  }

  /** The outcome of the check; `subscriptions` is the single page of up to
      2147483647 subscriptions the query asks for. */
  function Verdict(env: Env, subscriptions: Fetch<seq<Subscription>>): Execution
  {
    if !env.hasClient then Failed(NilClient)
    else match subscriptions
      case FetchFailed(e) => env.handler.handleError(Id, Security, e)
      case Fetched(ss) => Summary(Id, Security, Header, FlatMap(ss, SubscriptionEntry), OkMessage)
  }

  method Execute(env: Env, subscriptions: Fetch<seq<Subscription>>) returns (out: Execution)
    ensures out == Verdict(env, subscriptions)
  {
    if !env.hasClient {
      return Failed(NilClient);
    }
    if subscriptions.FetchFailed? {
      return env.handler.handleError(Id, Security, subscriptions.error);
    }
    var items := subscriptions.value;
    var insecureItems: seq<string> := [];
    var i := 0;
    while i < |items|
      invariant 0 <= i <= |items|
      invariant insecureItems == FlatMap(items[..i], SubscriptionEntry)
    {
      var m := items[i];
      FlatMapGo(items, i, SubscriptionEntry);
      if m.notification.Some? && HasPrefix(m.notification.value.webhookUri, "http://") {
        insecureItems := insecureItems + [m.name];
      }
      i := i + 1;
    }
    assert items[..i] == items;
    out := Summary(Id, Security, Header, insecureItems, OkMessage);
  }

  /** The entries are the names of the insecure subscriptions, one each and
      in order; a subscription without an event notification is never
      listed. */
  lemma ReportedInOrder(ss: seq<Subscription>)
    ensures |FlatMap(ss, SubscriptionEntry)| == |Filter(ss, Insecure)|
    ensures forall k :: 0 <= k < |Filter(ss, Insecure)| ==>
      FlatMap(ss, SubscriptionEntry)[k] == Filter(ss, Insecure)[k].name
    ensures forall s :: s in Filter(ss, Insecure) <==> s in ss && Insecure(s)
  {
    FlatMapSelect(ss, Insecure, SubscriptionName, SubscriptionEntry);
    forall s
      ensures s in Filter(ss, Insecure) <==> s in ss && Insecure(s)
    {
      FilterMember(ss, Insecure, s);
    }
  }

  /** Once the subscriptions are fetched, the check warns exactly when some
      subscription is insecure. */
  lemma WarningIff(env: Env, ss: seq<Subscription>)
    requires env.hasClient
    ensures Verdict(env, Fetched(ss)).error == None && Verdict(env, Fetched(ss)).result.Some?
    ensures Verdict(env, Fetched(ss)).result.value.severity == Warning <==> exists i :: 0 <= i < |ss| && Insecure(ss[i])
  {
    ListingWarningIff(ss, SubscriptionEntry, Id, Security, Header, OkMessage);
  }
}
