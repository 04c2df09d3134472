/** The Octopus Deploy API records the checks read, reduced to the fields
    they use, and the outcome of one API call. */
module Resources {
  import opened Wrappers

  /** A Go `error` from the Octopus client. `ApiError` is the client's
      `*core.APIError`, which carries the HTTP status code. */
  datatype Err = ApiError(message: string, statusCode: int) | OtherError(message: string)

  /** `err.Error()`. */
  function ErrorText(e: Err): string
  {
    e.message
  }

  /** The `(value, err)` pair of one API call. */
  datatype Fetch<+T> = Fetched(value: T) | FetchFailed(error: Err)

  /** Instants and durations are integer nanoseconds, like Go's `time.Duration`. */
  const NanosPerMinute: int := 60_000_000_000
  const NanosPerDay: int := 24 * 60 * NanosPerMinute

  datatype VersioningStrategy = VersioningStrategy(template: string)

  datatype Project = Project(
    id: string,
    name: string,
    deploymentProcessId: string,
    isDisabled: bool,
    versioningStrategy: Option<VersioningStrategy>)

  datatype Variable = Variable(name: string, value: string, variableType: string)

  datatype PackageReference = PackageReference(feedId: string, packageId: string)

  datatype Container = Container(image: string)

  /** A step action; `properties` maps property names to their values. */
  datatype DeploymentAction = DeploymentAction(
    name: string,
    properties: map<string, string>,
    packages: seq<PackageReference>,
    container: Option<Container>,
    workerPool: string,
    workerPoolVariable: string)

  datatype DeploymentStep = DeploymentStep(actions: seq<DeploymentAction>)

  datatype DeploymentProcess = DeploymentProcess(steps: seq<DeploymentStep>)

  /** A target's endpoint; the last two fields are those of a Kubernetes
      endpoint. `clusterUrl` is `ClusterURL.String()`, the parsed URL rendered
      back with its scheme as written, or `None` when the URL is nil. */
  datatype Endpoint = Endpoint(communicationStyle: string, skipTlsVerification: bool, clusterUrl: Option<string>)

  /** A deployment target. */
  datatype Machine = Machine(
    id: string,
    name: string,
    healthStatus: string,
    roles: seq<string>,
    endpoint: Option<Endpoint>,
    tenantedDeploymentMode: string,
    tenantIds: seq<string>)

  datatype ServerTask = ServerTask(startTime: Option<int>, completedTime: Option<int>)

  datatype Event = Event(category: string, occurred: int, username: string, relatedDocumentIds: seq<string>)

  /** An entry of the events API read back as an audit record. */
  datatype Audit = Audit(category: string, relatedDocumentIds: seq<string>)

  datatype Feed = Feed(name: string, feedType: string, feedUri: string)

  datatype Account = Account(
    id: string,
    name: string,
    accountType: string,
    tenantedDeploymentMode: string,
    tenantIds: seq<string>)

  datatype Certificate = Certificate(name: string, tenantedDeploymentMode: string, tenantIds: seq<string>)

  datatype Tenant = Tenant(id: string, name: string)

  datatype User = User(id: string, username: string)

  datatype ApiKey = ApiKey(expires: Option<int>, hint: Option<string>)

  datatype Team = Team(name: string, memberUserIds: seq<string>)

  datatype EventNotification = EventNotification(webhookUri: string)

  datatype Subscription = Subscription(name: string, notification: Option<EventNotification>)

  datatype Runbook = Runbook(projectId: string)

  datatype Lifecycle = Lifecycle(name: string)

  datatype WorkerPool = WorkerPool(id: string, name: string, isDefault: bool)

  datatype GitCredentials = GitCredentials(credentialType: string, username: Option<string>)

  /** A project as the Git-credential check reads it: its persistence type
      and, for a version-controlled project, its credentials. */
  datatype GitProject = GitProject(name: string, persistenceType: string, credentials: Option<GitCredentials>)

  /** The project and release a deployment belongs to. */
  datatype Deployment = Deployment(projectId: string, releaseId: string)
}
