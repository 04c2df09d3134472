/** `OctoLintInsecureFeedsTargets`: the package feeds reached over plain
    HTTP. */
module InsecureFeeds {
  import opened Wrappers
  import opened Seqs
  import opened Strings
  import opened Resources
  import opened Checks

  const Id: string := "OctoLintInsecureFeedsTargets"

  const Header: string := "The following feeds use an insecure HTTP endpoint:\n"
  const OkMessage: string := "There are no insecure feeds"

  /** The feed types whose URI the check inspects. */
  const UriFeedTypes: seq<string> := ["ArtifactoryGeneric", "NuGet", "Maven", "Helm", "GitHub", "Docker"]

  predicate Insecure(f: Feed)
  {
    f.feedType in UriFeedTypes && HasPrefix(f.feedUri, "http://")
  }

  function FeedName(f: Feed): string
  {
    f.name
  }

  /** One branch per feed type, as the source tests them; at most one of
      them applies to a feed. */
  function FeedEntry(f: Feed): (r: seq<string>)
    ensures r == if Insecure(f) then [f.name] else []
  {
    (if f.feedType == "ArtifactoryGeneric" && HasPrefix(f.feedUri, "http://") then [f.name] else [])
    + (if f.feedType == "NuGet" && HasPrefix(f.feedUri, "http://") then [f.name] else [])
    + (if f.feedType == "Maven" && HasPrefix(f.feedUri, "http://") then [f.name] else [])
    + (if f.feedType == "Helm" && HasPrefix(f.feedUri, "http://") then [f.name] else [])
    + (if f.feedType == "GitHub" && HasPrefix(f.feedUri, "http://") then [f.name] else [])
    + (if f.feedType == "Docker" && HasPrefix(f.feedUri, "http://") then [f.name] else [])
  }

  function Verdict(env: Env, feeds: Fetch<seq<Feed>>): Execution
  {
    if !env.hasClient then Failed(NilClient)
    else match feeds
      case FetchFailed(e) => env.handler.handleError(Id, Security, e)
      case Fetched(fs) => Summary(Id, Security, Header, FlatMap(fs, FeedEntry), OkMessage)
  }

  method Execute(env: Env, feeds: Fetch<seq<Feed>>) returns (out: Execution)
    ensures out == Verdict(env, feeds)
  {
    if !env.hasClient {
      return Failed(NilClient);
    }
    if feeds.FetchFailed? {
      return env.handler.handleError(Id, Security, feeds.error);
    }
    var targets := feeds.value;
    var insecureFeeds: seq<string> := [];
    var i := 0;
    while i < |targets|
      invariant 0 <= i <= |targets|
      invariant insecureFeeds == FlatMap(targets[..i], FeedEntry)
    {
      var m := targets[i];
      FlatMapGo(targets, i, FeedEntry);
      if m.feedType == "ArtifactoryGeneric" && HasPrefix(m.feedUri, "http://") {
        insecureFeeds := insecureFeeds + [m.name];
      }
      if m.feedType == "NuGet" && HasPrefix(m.feedUri, "http://") {
        insecureFeeds := insecureFeeds + [m.name];
      }
      if m.feedType == "Maven" && HasPrefix(m.feedUri, "http://") {
        insecureFeeds := insecureFeeds + [m.name];
      }
      if m.feedType == "Helm" && HasPrefix(m.feedUri, "http://") {
        insecureFeeds := insecureFeeds + [m.name];
      }
      if m.feedType == "GitHub" && HasPrefix(m.feedUri, "http://") {
        insecureFeeds := insecureFeeds + [m.name];
      }
      if m.feedType == "Docker" && HasPrefix(m.feedUri, "http://") {
        insecureFeeds := insecureFeeds + [m.name];
      }
      i := i + 1;
    }
    assert targets[..i] == targets;
    out := Summary(Id, Security, Header, insecureFeeds, OkMessage);
  }

  /** The entries are the names of the insecure feeds, one each and in feed
      order. */
  lemma ReportedInOrder(fs: seq<Feed>)
    ensures |FlatMap(fs, FeedEntry)| == |Filter(fs, Insecure)|
    ensures forall k :: 0 <= k < |Filter(fs, Insecure)| ==> FlatMap(fs, FeedEntry)[k] == Filter(fs, Insecure)[k].name
    ensures forall f :: f in Filter(fs, Insecure) <==> f in fs && Insecure(f)
  {
    FlatMapSelect(fs, Insecure, FeedName, FeedEntry);
    forall f
      ensures f in Filter(fs, Insecure) <==> f in fs && Insecure(f)
    {
      FilterMember(fs, Insecure, f);
    }
  }

  /** Once the feeds are fetched, the check warns exactly when some feed is
      insecure. */
  lemma WarningIff(env: Env, fs: seq<Feed>)
    requires env.hasClient
    ensures Verdict(env, Fetched(fs)).error == None && Verdict(env, Fetched(fs)).result.Some?
    ensures Verdict(env, Fetched(fs)).result.value.severity == Warning <==> exists i :: 0 <= i < |fs| && Insecure(fs[i])
  {
    ListingWarningIff(fs, FeedEntry, Id, Security, Header, OkMessage);
  }
}
