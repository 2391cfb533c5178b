// The message types the deployment service exchanges: deploy requests as
// read from schedule files, and the deploy responses it queues, applies
// and reports.  The protobuf classes become value types; a field the
// source may leave null is an `Option`, and a null string is "".

module Messages {
  import opened Common

  /** `DateTime` as a count of 100-nanosecond ticks. */
  type Ticks = int

  const TicksPerSecond: int := 10_000_000
  const TicksPerMinute: int := 60 * TicksPerSecond

  /** Status codes a deploy response can carry. */
  datatype StatusCode = Pending | Successful | InvalidArgument | NotFound | Rejected | GeneralFailure

  /**
   * The request priority.  `PriorityValue` is an integer cast to the enum
   * that matches none of its names.
   */
  datatype Priority = Low | Medium | High | Critical | PriorityValue(code: int)

  /** What a deploy request asks for. */
  datatype DeployAction =
    | Apply | Create | Delete | BuildImage | LoadImageTarball | UplinkFile | RestartDeployment
    | ActionValue(code: int)

  datatype GpuOption = GpuNone | Nvidia | GpuValue(code: int)

  /** The enum names `Enum.ToString()` prints. */
  function ActionName(a: DeployAction): string
  {
    match a
    case Apply => "Apply"
    case Create => "Create"
    case Delete => "Delete"
    case BuildImage => "BuildImage"
    case LoadImageTarball => "LoadImageTarball"
    case UplinkFile => "UplinkFile"
    case RestartDeployment => "RestartDeployment"
    case ActionValue(c) => IntToString(c)
  }

  /** The actions that apply YAML manifests to the cluster. */
  predicate IsManifestAction(a: DeployAction)
  {
    a == Apply || a == Create || a == Delete
  }

  /** A protobuf `Duration`. */
  datatype Duration = Duration(seconds: int, nanos: int)

  /** Integer division toward zero, as C# divides. */
  function TruncDiv(a: int, b: int): int
    requires b > 0
  {
    if a >= 0 then a / b else -((-a) / b)
  }

  function DurationTicks(d: Duration): int
  {
    d.seconds * TicksPerSecond + TruncDiv(d.nanos, 100)
  }

  datatype RequestHeader = RequestHeader(trackingId: string, correlationId: string)

  datatype AppContainerImage = AppContainerImage(
    tarballFileName: string,
    destinationRepository: string,
    destinationTag: string)

  datatype AppContainerBuild = AppContainerBuild(
    dockerFile: string,
    destinationRepository: string,
    destinationTag: string,
    buildArguments: seq<(string, string)>)

  /**
   * The request's application context, a protobuf `oneof`: setting one
   * case clears the other.
   */
  datatype AppContext =
    | NoContext
    | ContextString(appContext: string)
    | ContextFile(fileName: string, required: bool)

  datatype DeployRequest = DeployRequest(
    header: RequestHeader,
    appName: string,
    nameSpace: string,
    appGroupLabel: string,
    customerTrackingId: string,
    schedule: string,
    yamlFileContents: string,
    containerInjectionTarget: string,
    deployAction: DeployAction,
    priority: Priority,
    gpuRequirement: GpuOption,
    startTime: Option<Ticks>,
    maxDuration: Option<Duration>,
    appContainerImage: Option<AppContainerImage>,
    appContainerBuild: Option<AppContainerBuild>,
    appContext: AppContext)

  datatype ResponseHeader = ResponseHeader(
    trackingId: string,
    correlationId: string,
    status: StatusCode,
    message: string)

  datatype DeployResponse = DeployResponse(header: ResponseHeader, request: DeployRequest)

  /** A freshly constructed request: every string empty, every message field null. */
  const EmptyRequest: DeployRequest :=
    DeployRequest(RequestHeader("", ""), "", "", "", "", "", "", "", ActionValue(0), PriorityValue(0),
                  GpuValue(0), None, None, None, None, NoContext)

  /**
   * A response built from its request: the response header takes the
   * request's tracking and correlation ids.
   */
  function ResponseFromRequest(request: DeployRequest): (r: DeployResponse)
    ensures r.request == request
    ensures r.header.trackingId == request.header.trackingId
    ensures r.header.correlationId == request.header.correlationId
  {
    DeployResponse(ResponseHeader(request.header.trackingId, request.header.correlationId, Pending, ""), request)
  }

  function TrackingId(r: DeployResponse): string
  {
    r.header.trackingId
  }

  function WithStatus(r: DeployResponse, status: StatusCode): DeployResponse
  {
    r.(header := r.header.(status := status))
  }

  function WithOutcome(r: DeployResponse, status: StatusCode, message: string): DeployResponse
  {
    r.(header := r.header.(status := status, message := message))
  }
}
