// The schedule processor: on each scan of the schedule import directory
// every "*.json" file is waited for, handed to the plugins, read item by
// item, and then renamed ".processed" (its items queued for deployment)
// or ".error" (rejected), with a ".response" file written to the outbox
// and both files downlinked.  A file whose manifest or attachments are
// not there yet, or that is not a schedule file, is left in place for
// the next scan; a file that is still being copied when it is opened is
// rejected, because the copy wait does not catch the sharing violation.

module ScheduleFiles {
  import opened Common
  import opened Messages
  import opened PluginDelegates
  import opened FileSystems
  import opened ScheduleItems
  import DeployRequests

  /** What the processor writes to the outbox or sends to ground. */
  datatype Output =
    | WriteResponseFile(path: string, header: ResponseHeader)
    | DownlinkFile(path: string)
    | DownlinkResponse(response: DeployResponse)

  /** The processor's setting: item processing, the outbox, the plugins, and how files read. */
  datatype ScheduleEnv = ScheduleEnv(
    items: ItemEnv,
    outboxDirectory: string,
    plugins: seq<Plugin>,
    readJson: string -> Result<Json, string>,
    readText: string -> string)

  function NotAScheduleFileMessage(path: string): string
  {
    "File '" + path + "' is not a schedule file.  Root element is not an array."
  }

  const PluginsNullifiedMessage: string := "Plugins nullified schedule file.  Rejecting processing"

  function MissingScheduleMessage(path: string): string
  {
    "Schedule file '" + path + "' does not exist.  Unable to process"
  }

  function InvalidItemMessage(item: nat, schedule: string, message: string): string
  {
    "Item #'" + NatToString(item) + "' in '" + schedule + "' is invalid.  Error: " + message
  }

  function ProcessedMessage(file: string): string
  {
    "Schedule file '" + file + "' has been proceed and items are pending."
  }

  function RejectedMessage(file: string, message: string): string
  {
    "Schedule file '" + file + "' rejected.  Error: " + message
  }

  // ---------------------------------------------------------------------
  // One item

  /** What handling one item produced, and the files afterwards. */
  datatype ItemOutcome = ItemOutcome(result: Result<DeployResponse, ScheduleError>, paths: set<string>, output: seq<Output>)

  /**
   * For the actions that apply YAML: wait for the manifest, replace its
   * file name by its text, and delete the file.
   */
  function ReadManifest(env: ScheduleEnv, paths: set<string>, response: DeployResponse): (r: Result<(DeployResponse, set<string>), ScheduleError>)
    ensures !IsManifestAction(response.request.deployAction) ==> r == Ok((response, paths))
    ensures r.Ok? && IsManifestAction(response.request.deployAction) ==>
              var path := ImportPath(env.items, response.request.yamlFileContents);
              path in paths && r.value.1 == paths - {path}
              && r.value.0 == response.(request := response.request.(yamlFileContents := env.readText(path)))
  {
    if !IsManifestAction(response.request.deployAction) then Ok((response, paths))
    else
      var path := ImportPath(env.items, response.request.yamlFileContents);
      var ready :- WaitForCopy(env.items, paths, path);
      Ok((response.(request := response.request.(yamlFileContents := env.readText(path))), paths - {path}))
  }

  /** Wait for the image tarball and the Dockerfile a request names. */
  function AwaitArtifacts(env: ScheduleEnv, paths: set<string>, request: DeployRequest): (r: Result<(), ScheduleError>)
    ensures r.Ok? <==>
              (request.appContainerImage.Some? ==>
                 WaitForCopy(env.items, paths, ImportPath(env.items, request.appContainerImage.value.tarballFileName)).Ok?)
              && (request.appContainerBuild.Some? ==>
                 WaitForCopy(env.items, paths, ImportPath(env.items, request.appContainerBuild.value.dockerFile)).Ok?)
    ensures request.appContainerImage.Some?
            && WaitForCopy(env.items, paths, ImportPath(env.items, request.appContainerImage.value.tarballFileName)).Err? ==>
              r.Err? && r.error == WaitForCopy(env.items, paths, ImportPath(env.items, request.appContainerImage.value.tarballFileName)).error
  {
    var image :- if request.appContainerImage.Some? then
                   WaitForCopy(env.items, paths, ImportPath(env.items, request.appContainerImage.value.tarballFileName))
                 else Ok(());
    if request.appContainerBuild.Some? then
      WaitForCopy(env.items, paths, ImportPath(env.items, request.appContainerBuild.value.dockerFile))
    else Ok(())
  }

  /** A complete item: its manifest read in, then its attachments waited for. */
  function Collect(env: ScheduleEnv, paths: set<string>, response: DeployResponse): (r: ItemOutcome)
    ensures r.output == [] && r.paths <= paths
    ensures r.result.Ok? ==> r.result.value.header == response.header
  {
    match ReadManifest(env, paths, response)
    case Err(e) => ItemOutcome(Err(e), paths, [])
    case Ok(read) =>
      match AwaitArtifacts(env, read.1, read.0.request)
      case Err(e) => ItemOutcome(Err(e), read.1, [])
      case Ok(_) => ItemOutcome(Ok(read.0), read.1, [])
  }

  /**
   * Item number `k` of the schedule file `schedule`: parsed, validated
   * (an incomplete item is downlinked and rejects the file), its manifest
   * read in, and its attachments waited for.
   */
  function ItemStep(env: ScheduleEnv, schedule: string, paths: set<string>, element: Json, k: nat): (r: ItemOutcome)
    ensures r.result.Ok? ==> r.result.value.header.status == Pending
    ensures r.output != [] ==> r.result.Err? && r.result.error.Failure?
    ensures r.paths <= paths
  {
    match ParseItem(env.items, element, schedule, k)
    case Err(e) => ItemOutcome(Err(e), paths, [])
    case Ok(parsed) =>
      match Validate(env.items, paths, parsed, schedule, k)
      case Err(e) => ItemOutcome(Err(e), paths, [])
      case Ok(response) =>
        if response.header.status == InvalidArgument then
          ItemOutcome(Err(Failure(InvalidItemMessage(k, schedule, response.header.message))), paths, [DownlinkResponse(response)])
        else Collect(env, paths, response)
  }

  // ---------------------------------------------------------------------
  // A schedule file

  /** What reading a schedule file produced: its items or why it stopped, and the files afterwards. */
  datatype Progress = Progress(result: Result<seq<DeployResponse>, ScheduleError>, paths: set<string>, output: seq<Output>)

  /** How one item is handled: from the files before it, the item and its number to its outcome. */
  type ItemHandler = (set<string>, Json, nat) -> ItemOutcome

  /** A handler whose accepted items are Pending and which only deletes files. */
  ghost predicate WellBehaved(handle: ItemHandler)
  {
    forall paths, element, k :: var o := handle(paths, element, k);
      (o.result.Ok? ==> o.result.value.header.status == Pending) && o.paths <= paths
  }

  /** The items of the schedule file `schedule` are handled by `ItemStep`. */
  function Handler(env: ScheduleEnv, schedule: string): ItemHandler
  {
    (paths: set<string>, element: Json, k: nat) => ItemStep(env, schedule, paths, element, k)
  }

  lemma HandlerWellBehaved(env: ScheduleEnv, schedule: string)
    ensures WellBehaved(Handler(env, schedule))
  {
    forall paths, element, k
      ensures var o := Handler(env, schedule)(paths, element, k);
              (o.result.Ok? ==> o.result.value.header.status == Pending) && o.paths <= paths
    {
      var o := ItemStep(env, schedule, paths, element, k);
    }
  }

  /** Item `k` handled after the items before it, unless one of those failed. */
  function Extend(handle: ItemHandler, prev: Progress, element: Json, k: nat): (r: Progress)
    ensures prev.result.Err? ==> r == prev
    ensures r.result.Ok? ==> prev.result.Ok? && |r.result.value| == |prev.result.value| + 1
                             && r.result.value[..|prev.result.value|] == prev.result.value
  {
    if prev.result.Err? then prev
    else
      var step := handle(prev.paths, element, k);
      Progress(if step.result.Ok? then Ok(prev.result.value + [step.result.value]) else Err(step.result.error),
               step.paths, prev.output + step.output)
  }

  /** The items of a schedule file, numbered from 1, up to the first one that fails. */
  function ItemsSpec(handle: ItemHandler, paths: set<string>, elements: seq<Json>): (r: Progress)
    ensures r.result.Ok? ==> |r.result.value| == |elements|
    decreases |elements|
  {
    if |elements| == 0 then Progress(Ok([]), paths, [])
    else Extend(handle, ItemsSpec(handle, paths, elements[..|elements| - 1]), elements[|elements| - 1], |elements|)
  }

  /** The items up to number `i + 1` are those up to `i`, extended by item `i + 1`. */
  lemma ItemsSpecStep(handle: ItemHandler, paths: set<string>, elements: seq<Json>, i: nat)
    requires i < |elements|
    ensures ItemsSpec(handle, paths, elements[..i + 1]) == Extend(handle, ItemsSpec(handle, paths, elements[..i]), elements[i], i + 1)
  {
    assert elements[..i + 1][..i] == elements[..i];
  }

  /** Once an item fails, the items after it are not looked at. */
  lemma {:induction false} ItemsStopAtError(handle: ItemHandler, paths: set<string>, elements: seq<Json>, n: nat)
    requires n <= |elements|
    requires ItemsSpec(handle, paths, elements[..n]).result.Err?
    ensures ItemsSpec(handle, paths, elements) == ItemsSpec(handle, paths, elements[..n])
    decreases |elements| - n
  {
    if n < |elements| {
      assert elements[..n + 1][..n] == elements[..n];
      ItemsStopAtError(handle, paths, elements, n + 1);
    } else {
      assert elements[..n] == elements;
    }
  }

  /** With a well-behaved handler every item a schedule file yields is Pending, and files are only deleted. */
  lemma {:induction false} ItemsArePending(handle: ItemHandler, paths: set<string>, elements: seq<Json>)
    requires WellBehaved(handle)
    ensures ItemsSpec(handle, paths, elements).paths <= paths
    ensures ItemsSpec(handle, paths, elements).result.Ok? ==>
              forall i :: 0 <= i < |elements| ==> ItemsSpec(handle, paths, elements).result.value[i].header.status == Pending
    decreases |elements|
  {
    if |elements| > 0 {
      var init := elements[..|elements| - 1];
      ItemsArePending(handle, paths, init);
      var prev := ItemsSpec(handle, paths, init);
      if prev.result.Ok? {
        var o := handle(prev.paths, elements[|elements| - 1], |elements|);
        assert (o.result.Ok? ==> o.result.value.header.status == Pending) && o.paths <= prev.paths;
      }
    }
  }

  /**
   * `ProcessScheduleFile`: wait for the file, check that it holds a JSON
   * array, let the plugins replace (or null) its path, read the array at
   * that path and process its items.
   */
  function ScheduleFileSpec(env: ScheduleEnv, paths: set<string>, path: string): (r: Progress)
    ensures r.paths <= paths
    ensures r.result.Ok? ==> forall i :: 0 <= i < |r.result.value| ==> r.result.value[i].header.status == Pending
  {
    match WaitForCopy(env.items, paths, path)
    case Err(e) => Progress(Err(e), paths, [])
    case Ok(_) =>
      match env.readJson(path)
      case Err(m) => Progress(Err(Failure(m)), paths, [])
      case Ok(root) =>
        if !root.JArray? then Progress(Err(NotAScheduleFile(NotAScheduleFileMessage(path))), paths, [])
        else
          var pluginResult := CallProcessScheduleFile(env.plugins, Some(path));
          if pluginResult.None? || IsBlank(pluginResult.value) then Progress(Err(Failure(PluginsNullifiedMessage)), paths, [])
          else if pluginResult.value !in paths then Progress(Err(Failure(MissingScheduleMessage(pluginResult.value))), paths, [])
          else
            match env.readJson(pluginResult.value)
            case Err(m) => Progress(Err(Failure(m)), paths, [])
            case Ok(doc) =>
              if !doc.JArray? then Progress(Err(Fault(env.items, NotAnArray)), paths, [])
              else
                HandlerWellBehaved(env, pluginResult.value);
                ItemsArePending(Handler(env, pluginResult.value), paths, doc.items);
                ItemsSpec(Handler(env, pluginResult.value), paths, doc.items)
  }

  /** What became of a schedule file on one scan. */
  datatype Verdict = Retry | Accepted(items: seq<DeployResponse>) | Refused(message: string)

  function AcceptedItems(v: Verdict): seq<DeployResponse>
  {
    if v.Accepted? then v.items else []
  }

  /** The downlinked responses of queueing `items`. */
  function Notices(items: seq<DeployResponse>): (r: seq<Output>)
    ensures |r| == |items| && forall i :: 0 <= i < |items| ==> r[i] == DownlinkResponse(WithStatus(items[i], Pending))
  {
    seq(|items|, i requires 0 <= i < |items| => DownlinkResponse(WithStatus(items[i], Pending)))
  }

  datatype FileOutcome = FileOutcome(verdict: Verdict, paths: set<string>, output: seq<Output>)

  function ResponsePath(env: ScheduleEnv, file: string): string
  {
    PathCombine(env.outboxDirectory, FileName(file) + ".response")
  }

  /**
   * A file that was dealt with: renamed to `destination`, its response
   * header written to the outbox, and both downlinked.
   */
  function Settle(env: ScheduleEnv, p: Progress, file: string, verdict: Verdict, destination: string, header: ResponseHeader): FileOutcome
  {
    var responsePath := ResponsePath(env, file);
    FileOutcome(verdict, (p.paths - {file}) + {destination} + {responsePath},
                p.output + [WriteResponseFile(responsePath, header), DownlinkFile(responsePath), DownlinkFile(destination)]
                + Notices(AcceptedItems(verdict)))
  }

  function NotifyHeader(env: ScheduleEnv, file: string, status: StatusCode, message: string): ResponseHeader
  {
    ResponseHeader(env.items.newGuid(file, 0, NotifyTrackingGuid), env.items.newGuid(file, 0, NotifyCorrelationGuid), status, message)
  }

  /**
   * One schedule file on one scan: left for the next scan on a missing or
   * still-copying file, a non-schedule file or a timeout; otherwise
   * accepted (renamed ".processed", items queued) or rejected (renamed
   * ".error").
   */
  function FileSpec(env: ScheduleEnv, paths: set<string>, file: string): (r: FileOutcome)
    ensures r.verdict.Retry? ==> r.output == [] && r.paths <= paths
    ensures !r.verdict.Retry? ==> ResponsePath(env, file) in r.paths
    ensures r.verdict.Accepted? ==> file + ".processed" in r.paths
    ensures r.verdict.Accepted? ==> forall i :: 0 <= i < |r.verdict.items| ==> r.verdict.items[i].header.status == Pending
    ensures r.verdict.Refused? ==> file + ".error" in r.paths
  {
    var p := ScheduleFileSpec(env, paths, file);
    match p.result
    case Ok(items) =>
      Settle(env, p, file, Accepted(items), file + ".processed", NotifyHeader(env, file, Pending, ProcessedMessage(file)))
    case Err(e) =>
      if IsRetried(e) then FileOutcome(Retry, p.paths, [])
      else Settle(env, p, file, Refused(e.message), file + ".error", NotifyHeader(env, file, Rejected, RejectedMessage(file, e.message)))
  }

  /**
   * A schedule file that is there but still being copied when the scan
   * opens it is rejected: it is renamed ".error" and reported, rather than
   * left for the next scan.
   */
  lemma StillCopyingScheduleRejected(env: ScheduleEnv, paths: set<string>, file: string)
    requires env.items.copyAttempts > 0 && file in paths
    requires env.items.tryOpen(file, 0) == SharingViolation
    ensures FileSpec(env, paths, file).verdict == Refused(env.items.codec.faultMessage(Locked))
    ensures file + ".error" in FileSpec(env, paths, file).paths
  {
    StillCopyingFails(env.items, paths, file);
  }

  // ---------------------------------------------------------------------
  // Queueing

  /** `QueueDeployment` of each item in turn. */
  function QueueAll(q: DeployRequests.Queue, items: seq<DeployResponse>): DeployRequests.Queue
    decreases |items|
  {
    if |items| == 0 then q
    else DeployRequests.CommitItem(QueueAll(q, items[..|items| - 1]), WithStatus(items[|items| - 1], Pending))
  }

  /** After queueing, every item waits Pending under its tracking id, and no other entry changed. */
  lemma {:induction false} QueueAllQueues(q: DeployRequests.Queue, items: seq<DeployResponse>)
    ensures forall i :: 0 <= i < |items| ==>
              TrackingId(items[i]) in QueueAll(q, items).cache
              && QueueAll(q, items).cache[TrackingId(items[i])].header.status == Pending
    ensures forall id :: (forall i :: 0 <= i < |items| ==> TrackingId(items[i]) != id) ==>
              (id in QueueAll(q, items).cache <==> id in q.cache)
              && (id in q.cache ==> QueueAll(q, items).cache[id] == q.cache[id])
    decreases |items|
  {
    if |items| > 0 {
      var init := items[..|items| - 1];
      var last := WithStatus(items[|items| - 1], Pending);
      QueueAllQueues(q, init);
      var prev := QueueAll(q, init);
      assert QueueAll(q, items) == DeployRequests.CommitItem(prev, last);
      forall i | 0 <= i < |items|
        ensures TrackingId(items[i]) in QueueAll(q, items).cache
                && QueueAll(q, items).cache[TrackingId(items[i])].header.status == Pending
      {
        if i < |items| - 1 {
          assert items[i] == init[i];
        }
      }
      forall id | forall i :: 0 <= i < |items| ==> TrackingId(items[i]) != id
        ensures (id in QueueAll(q, items).cache <==> id in q.cache)
                && (id in q.cache ==> QueueAll(q, items).cache[id] == q.cache[id])
      {
        assert TrackingId(last) == TrackingId(items[|items| - 1]);
        assert forall i :: 0 <= i < |init| ==> TrackingId(init[i]) != id by {
          forall i | 0 <= i < |init| ensures TrackingId(init[i]) != id {
            assert init[i] == items[i];
          }
        }
      }
    }
  }

  function IndexPairs(items: seq<DeployResponse>): seq<(string, DeployResponse)>
  {
    seq(|items|, i requires 0 <= i < |items| => (TrackingId(items[i]), WithStatus(items[i], Pending)))
  }

  function StorePairs(items: seq<DeployResponse>): seq<(string, Option<DeployResponse>)>
  {
    seq(|items|, i requires 0 <= i < |items| => (DeployRequests.StoreName(TrackingId(items[i])), Some(WithStatus(items[i], Pending))))
  }

  /** Queueing items is upserting their pairs into the index and into the persistent cache. */
  lemma {:induction false} QueueAllUpserts(q: DeployRequests.Queue, items: seq<DeployResponse>)
    ensures QueueAll(q, items) == DeployRequests.Queue(PutAll(q.cache, IndexPairs(items)), PutAll(q.store, StorePairs(items)))
    decreases |items|
  {
    if |items| > 0 {
      var init := items[..|items| - 1];
      var last := items[|items| - 1];
      QueueAllUpserts(q, init);
      assert IndexPairs(items) == IndexPairs(init) + [(TrackingId(last), WithStatus(last, Pending))];
      assert StorePairs(items) == StorePairs(init) + [(DeployRequests.StoreName(TrackingId(last)), Some(WithStatus(last, Pending)))];
      PutAllAppend(q.cache, IndexPairs(init), TrackingId(last), WithStatus(last, Pending));
      PutAllAppend(q.store, StorePairs(init), DeployRequests.StoreName(TrackingId(last)), Some(WithStatus(last, Pending)));
      assert TrackingId(WithStatus(last, Pending)) == TrackingId(last);
    }
  }

  /**
   * The scan queues the accepted items a second time once every file is
   * done; that second pass leaves the queue as the first one left it.
   */
  lemma QueueTwiceIsQueueOnce(q: DeployRequests.Queue, items: seq<DeployResponse>)
    ensures QueueAll(QueueAll(q, items), items) == QueueAll(q, items)
  {
    var once := QueueAll(q, items);
    QueueAllUpserts(q, items);
    QueueAllUpserts(once, items);
    PutAllIdempotent(q.cache, IndexPairs(items));
    PutAllIdempotent(q.store, StorePairs(items));
  }

  /** Queueing two lists one after the other is queueing their concatenation. */
  lemma {:induction false} QueueAllAppend(q: DeployRequests.Queue, a: seq<DeployResponse>, b: seq<DeployResponse>)
    ensures QueueAll(QueueAll(q, a), b) == QueueAll(q, a + b)
    decreases |b|
  {
    if |b| == 0 {
      assert a + b == a;
    } else {
      QueueAllAppend(q, a, b[..|b| - 1]);
      assert (a + b)[..|a + b| - 1] == a + b[..|b| - 1];
      assert (a + b)[|a + b| - 1] == b[|b| - 1];
    }
  }

  /** Queueing keeps the index and the persistent cache in step. */
  lemma {:induction false} QueueAllKeepsConsistent(q: DeployRequests.Queue, items: seq<DeployResponse>)
    requires DeployRequests.Consistent(q)
    ensures DeployRequests.Consistent(QueueAll(q, items))
    decreases |items|
  {
    if |items| > 0 {
      QueueAllKeepsConsistent(q, items[..|items| - 1]);
      DeployRequests.CommitKeepsConsistent(QueueAll(q, items[..|items| - 1]), WithStatus(items[|items| - 1], Pending));
    }
  }

  // ---------------------------------------------------------------------
  // A scan

  datatype Scan = Scan(items: seq<DeployResponse>, paths: set<string>, output: seq<Output>)

  /** The files of one scan, in listing order. */
  function ScanSpec(env: ScheduleEnv, paths: set<string>, files: seq<string>): (r: Scan)
    ensures forall i :: 0 <= i < |r.items| ==> r.items[i].header.status == Pending
    decreases |files|
  {
    if |files| == 0 then Scan([], paths, [])
    else
      var prev := ScanSpec(env, paths, files[..|files| - 1]);
      var o := FileSpec(env, prev.paths, files[|files| - 1]);
      Scan(prev.items + AcceptedItems(o.verdict), o.paths, prev.output + o.output)
  }

  // ---------------------------------------------------------------------
  // The processor

  class ScheduleProcessor {
    const env: ScheduleEnv
    const fs: FileSystem
    const deployRequestProcessor: DeployRequests.DeployRequestProcessor

    constructor (env: ScheduleEnv, fs: FileSystem, deployRequestProcessor: DeployRequests.DeployRequestProcessor)
      ensures this.env == env && this.fs == fs && this.deployRequestProcessor == deployRequestProcessor
    {
      this.env := env;
      this.fs := fs;
      this.deployRequestProcessor := deployRequestProcessor;
    }

    /**
     * The loop runs while the file has not opened and the deadline has not
     * passed; each attempt either opens the file or leaves with its error,
     * a sharing violation included.
     */
    method WaitForFileToFinishCopying(path: string) returns (r: Result<(), ScheduleError>)
      ensures r == WaitForCopy(env.items, fs.paths, path)
    {
      var finished := false;
      while !finished && env.items.copyAttempts > 0
        invariant finished ==> WaitForCopy(env.items, fs.paths, path) == Ok(())
        decreases if finished then 0 else 1
      {
        if path !in fs.paths {
          return Err(FileNotFound(path));
        }
        match env.items.tryOpen(path, 0)
        case Opened =>
          finished := true;
        case SharingViolation =>
          return Err(Fault(env.items, Locked));
        case OpenFailed(m) =>
          return Err(Failure(m));
      }
      if !finished {
        return Err(Timeout);
      }
      r := Ok(());
    }

    /** The string fields of an item, set one at a time on an empty request. */
    method ReadStringFields(element: Json) returns (r: Result<DeployRequest, ScheduleError>)
      ensures r == ReadStrings(env.items, element)
    {
      var e := env.items;
      var request := EmptyRequest;
      var s :- StringField(e, element, "AppName");
      request := request.(appName := OrEmpty(s));
      s :- StringField(e, element, "NameSpace");
      request := request.(nameSpace := OrEmpty(s));
      s :- StringField(e, element, "AppGroupLabel");
      request := request.(appGroupLabel := OrEmpty(s));
      s :- StringField(e, element, "CustomerTrackingId");
      request := request.(customerTrackingId := OrEmpty(s));
      s :- StringField(e, element, "Schedule");
      request := request.(schedule := OrEmpty(s));
      s :- StringField(e, element, "YamlFileContents");
      request := request.(yamlFileContents := OrEmpty(s));
      s :- StringField(e, element, "ContainerInjectionTarget");
      request := request.(containerInjectionTarget := OrEmpty(s));
      r := Ok(request);
    }

    /** The fields of an item after its action, set one at a time. */
    method ReadTailFields(element: Json, request: DeployRequest) returns (r: Result<DeployRequest, ScheduleError>)
      ensures r == ReadTail(env.items, element, request)
    {
      var e := env.items;
      var request := request;
      var startTime :- DecodeStartTime(e, element);
      request := request.(startTime := startTime);
      var maxDuration :- DecodeMaxDuration(e, element);
      request := request.(maxDuration := maxDuration);
      var gpu :- EnumField(e, element, "GpuRequirement", e.numbering.gpu, GpuByName);
      request := request.(gpuRequirement := if gpu.Some? then gpu.value else GpuNone);
      var image :- DecodeImage(e, element);
      request := request.(appContainerImage := image);
      var build :- ReadBuild(element);
      request := request.(appContainerBuild := build);
      var context :- DecodeContextString(e, element);
      request := request.(appContext := context);
      context :- DecodeContextFile(e, element, request.appContext);
      request := request.(appContext := context);
      r := Ok(request);
    }

    /** The build arguments, added one at a time; a name already added is refused. */
    method AddBuildArguments(props: seq<(string, Json)>) returns (r: Result<seq<(string, string)>, ScheduleError>)
      ensures r == AddArguments(env.items, [], props)
    {
      var args: seq<(string, string)> := [];
      var i := 0;
      while i < |props|
        invariant 0 <= i <= |props|
        invariant AddArguments(env.items, [], props) == AddArguments(env.items, args, props[i..])
      {
        assert props[i..][1..] == props[i + 1..];
        var repeated := exists j :: 0 <= j < |args| && args[j].0 == props[i].0;
        if repeated && props[i].1.JNull? {
          return Err(Fault(env.items, DuplicateKey));
        }
        var value :- StringValue(env.items, props[i].1);
        if repeated {
          return Err(Fault(env.items, DuplicateKey));
        }
        args := args + [(props[i].0, value)];
        i := i + 1;
      }
      r := Ok(args);
    }

    /** The container build section: its three names, then its arguments. */
    method ReadBuild(element: Json) returns (r: Result<Option<AppContainerBuild>, ScheduleError>)
      ensures r == DecodeBuild(env.items, element)
    {
      var e := env.items;
      var v :- Property(e, element, "AppContainerBuild");
      if v.None? || v.value.JNull? {
        return Ok(None);
      }
      var dockerFile :- StringField(e, v.value, "DockerFile");
      var repository :- StringField(e, v.value, "DestinationRepository");
      var tag :- StringField(e, v.value, "DestinationTag");
      var args :- ReadSectionArguments(v.value);
      r := Ok(Some(AppContainerBuild(OrEmpty(dockerFile), OrEmpty(repository), OrEmpty(tag), args)));
    }

    /** The `BuildArguments` of a build section, read with the argument loop. */
    method ReadSectionArguments(section: Json) returns (r: Result<seq<(string, string)>, ScheduleError>)
      ensures r == SectionArguments(env.items, section)
    {
      var e := env.items;
      var argsValue :- Property(e, section, "BuildArguments");
      if argsValue.None? {
        return Ok([]);
      }
      if !argsValue.value.JObject? {
        return Err(Fault(e, NotAnObject));
      }
      r := AddBuildArguments(argsValue.value.props);
    }

    method ProcessScheduleFileItem(element: Json, schedule: string, item: nat) returns (r: Result<ParsedItem, ScheduleError>)
      ensures r == ParseItem(env.items, element, schedule, item)
    {
      var e := env.items;
      var request :- ReadStringFields(element);
      var header :- DecodeHeader(e, element, schedule, item);
      request := request.(header := if header.Some? then header.value else RequestHeader("", ""));
      var priority :- EnumField(e, element, "Priority", e.numbering.priority, PriorityByName);
      request := request.(priority := if priority.Some? then priority.value else Low);
      var action :- EnumField(e, element, "DeployAction", e.numbering.action, ActionByName);
      if action.None? {
        return Err(Failure(InvalidActionMessage));
      }
      request := request.(deployAction := action.value);
      request :- ReadTailFields(element, request);
      r := Ok(ParsedItem(request, header.None?));
    }

    /** A file-name field of the request: blank, or a file that must be there and finish copying. */
    method CheckFile(request: DeployRequest, field: string, name: string) returns (r: Result<seq<string>, ScheduleError>)
      ensures r == RequiredFile(env.items, fs.paths, request, field, name)
    {
      if IsBlank(name) {
        return Ok([field]);
      }
      var path := ImportPath(env.items, name);
      if path !in fs.paths {
        return Err(FileNotFound(name));
      }
      var ready := WaitForFileToFinishCopying(path);
      if ready == Err(Timeout) {
        match request.appContext
        case ContextFile(_, required) =>
          if required {
            return Err(FileNotFound(name));
          }
        case _ =>
          return Err(Failure(NullReferenceMessage));
      } else if ready.Err? {
        return Err(ready.error);
      }
      r := Ok([]);
    }

    /** The manifest checks, for the actions that apply YAML. */
    method CheckManifest(request: DeployRequest) returns (r: Result<(string, seq<string>), ScheduleError>)
      ensures r == YamlSection(env.items, fs.paths, request)
    {
      if !IsManifestAction(request.deployAction) {
        return Ok(("", []));
      }
      var missing :- CheckFile(request, "YamlFileContents", request.yamlFileContents);
      if HasSpecialCharacter(FileNameWithoutExtension(request.yamlFileContents)) {
        return Ok((SpecialCharactersMessage, missing + ["YamlFileContents"]));
      }
      r := Ok(("", missing));
    }

    method CheckImage(request: DeployRequest) returns (r: Result<seq<string>, ScheduleError>)
      ensures r == ImageSection(env.items, fs.paths, request)
    {
      if request.appContainerImage.None? {
        return Ok([]);
      }
      var image := request.appContainerImage.value;
      var missing :- CheckFile(request, "TarballFileName", image.tarballFileName);
      r := Ok(missing + Blank("DestinationRepository", image.destinationRepository) + Blank("DestinationTag", image.destinationTag));
    }

    method CheckBuild(request: DeployRequest) returns (r: Result<seq<string>, ScheduleError>)
      ensures r == BuildSection(env.items, fs.paths, request)
    {
      if request.appContainerBuild.None? {
        return Ok([]);
      }
      var build := request.appContainerBuild.value;
      var missing :- CheckFile(request, "DockerFile", build.dockerFile);
      r := Ok(missing + Blank("DestinationRepository", build.destinationRepository) + Blank("DestinationTag", build.destinationTag));
    }

    method CheckContextFile(request: DeployRequest) returns (r: Result<seq<string>, ScheduleError>)
      ensures r == ContextSection(env.items, fs.paths, request)
    {
      if !request.appContext.ContextFile? {
        return Ok([]);
      }
      r := CheckFile(request, "FileName", request.appContext.fileName);
    }

    /** The note and the missing fields of a request, section by section. */
    method CollectFindings(request: DeployRequest) returns (r: Result<(string, seq<string>), ScheduleError>)
      ensures r == Findings(env.items, fs.paths, request)
    {
      var errorFields: seq<string> := [];
      if IsBlank(request.appName) {
        errorFields := errorFields + ["AppName"];
      }
      if IsBlank(ActionName(request.deployAction)) {
        errorFields := errorFields + ["DeployAction"];
      }
      assert errorFields == Blank("AppName", request.appName) + Blank("DeployAction", ActionName(request.deployAction));
      var yaml :- CheckManifest(request);
      var image :- CheckImage(request);
      var build :- CheckBuild(request);
      var context :- CheckContextFile(request);
      r := Ok((yaml.0, errorFields + yaml.1 + image + build + context));
    }

    method ValidatePrerequisites(parsed: ParsedItem, schedule: string, item: nat) returns (r: Result<DeployResponse, ScheduleError>)
      ensures r == Validate(env.items, fs.paths, parsed, schedule, item)
    {
      if parsed.nullHeader {
        return Err(Failure(NullReferenceMessage));
      }
      var request := parsed.request;
      var header := request.header;
      if IsBlank(header.trackingId) {
        header := header.(trackingId := env.items.newGuid(schedule, item, TrackingGuid));
      }
      if IsBlank(header.correlationId) {
        header := header.(correlationId := header.trackingId);
      }
      request := request.(header := header);
      if IsBlank(request.nameSpace) {
        request := request.(nameSpace := DefaultNameSpace);
      }
      if request.startTime.None? {
        request := request.(startTime := Some(env.items.now));
      }
      assert request == Defaulted(env.items, parsed.request, schedule, item);

      var findings :- CollectFindings(request);
      var message := findings.0;
      var status := Pending;
      if |findings.1| > 0 {
        status := InvalidArgument;
        message := message + RequiredFieldsMessage(findings.1);
      }
      r := Ok(DeployResponse(ResponseHeader(header.trackingId, header.correlationId, status, message), request));
    }

    /** One item of the schedule file `schedule`, numbered `k`. */
    method ProcessItem(schedule: string, element: Json, k: nat) returns (r: Result<DeployResponse, ScheduleError>, output: seq<Output>)
      modifies fs
      ensures ItemOutcome(r, fs.paths, output) == ItemStep(env, schedule, old(fs.paths), element, k)
    {
      output := [];
      var parsed := ProcessScheduleFileItem(element, schedule, k);
      if parsed.Err? {
        return Err(parsed.error), [];
      }
      var response := ValidatePrerequisites(parsed.value, schedule, k);
      if response.Err? {
        return Err(response.error), [];
      }
      var deployItem := response.value;
      if deployItem.header.status == InvalidArgument {
        return Err(Failure(InvalidItemMessage(k, schedule, deployItem.header.message))), [DownlinkResponse(deployItem)];
      }
      r, output := CollectItem(deployItem);
    }

    /** The manifest of a complete item read in and deleted, then its attachments waited for. */
    method CollectItem(response: DeployResponse) returns (r: Result<DeployResponse, ScheduleError>, output: seq<Output>)
      modifies fs
      ensures ItemOutcome(r, fs.paths, output) == Collect(env, old(fs.paths), response)
    {
      var deployItem := response;
      output := [];
      if IsManifestAction(deployItem.request.deployAction) {
        var yamlPath := ImportPath(env.items, deployItem.request.yamlFileContents);
        var ready := WaitForFileToFinishCopying(yamlPath);
        if ready.Err? {
          return Err(ready.error), [];
        }
        deployItem := deployItem.(request := deployItem.request.(yamlFileContents := env.readText(yamlPath)));
        fs.paths := fs.paths - {yamlPath};
      }
      if deployItem.request.appContainerImage.Some? {
        var ready := WaitForFileToFinishCopying(ImportPath(env.items, deployItem.request.appContainerImage.value.tarballFileName));
        if ready.Err? {
          return Err(ready.error), [];
        }
      }
      if deployItem.request.appContainerBuild.Some? {
        var ready := WaitForFileToFinishCopying(ImportPath(env.items, deployItem.request.appContainerBuild.value.dockerFile));
        if ready.Err? {
          return Err(ready.error), [];
        }
      }
      r := Ok(deployItem);
    }

    method ProcessScheduleFile(path: string) returns (r: Result<seq<DeployResponse>, ScheduleError>, output: seq<Output>)
      modifies fs
      ensures Progress(r, fs.paths, output) == ScheduleFileSpec(env, old(fs.paths), path)
    {
      output := [];
      var ready := WaitForFileToFinishCopying(path);
      if ready.Err? {
        return Err(ready.error), [];
      }
      var root := env.readJson(path);
      if root.Err? {
        return Err(Failure(root.error)), [];
      }
      if !root.value.JArray? {
        return Err(NotAScheduleFile(NotAScheduleFileMessage(path))), [];
      }
      var pluginResult := CallProcessScheduleFile(env.plugins, Some(path));
      if pluginResult.None? || IsBlank(pluginResult.value) {
        return Err(Failure(PluginsNullifiedMessage)), [];
      }
      var schedulePath := pluginResult.value;
      if schedulePath !in fs.paths {
        return Err(Failure(MissingScheduleMessage(schedulePath))), [];
      }
      var doc := env.readJson(schedulePath);
      if doc.Err? {
        return Err(Failure(doc.error)), [];
      }
      if !doc.value.JArray? {
        return Err(Fault(env.items, NotAnArray)), [];
      }

      r, output := ProcessItems(schedulePath, doc.value.items);
    }

    /** The items of the schedule file `schedule`, in order, up to the first that fails. */
    method ProcessItems(schedule: string, elements: seq<Json>) returns (r: Result<seq<DeployResponse>, ScheduleError>, output: seq<Output>)
      modifies fs
      ensures Progress(r, fs.paths, output) == ItemsSpec(Handler(env, schedule), old(fs.paths), elements)
    {
      output := [];
      var items: seq<DeployResponse> := [];
      var i := 0;
      while i < |elements|
        invariant 0 <= i <= |elements|
        invariant ItemsSpec(Handler(env, schedule), old(fs.paths), elements[..i]) == Progress(Ok(items), fs.paths, output)
      {
        ItemsSpecStep(Handler(env, schedule), old(fs.paths), elements, i);
        var item, sent := ProcessItem(schedule, elements[i], i + 1);
        output := output + sent;
        if item.Err? {
          ItemsStopAtError(Handler(env, schedule), old(fs.paths), elements, i + 1);
          return Err(item.error), output;
        }
        items := items + [item.value];
        i := i + 1;
      }
      assert elements[..i] == elements;
      r := Ok(items);
    }

    /** The response file, the rename and the downlinks for a file that was dealt with. */
    method Settle(file: string, destination: string, header: ResponseHeader) returns (output: seq<Output>)
      modifies fs
      ensures fs.paths == (old(fs.paths) - {file}) + {destination} + {ResponsePath(env, file)}
      ensures output == [WriteResponseFile(ResponsePath(env, file), header), DownlinkFile(ResponsePath(env, file)), DownlinkFile(destination)]
    {
      fs.paths := (fs.paths - {file}) + {destination};
      var responsePath := PathCombine(env.outboxDirectory, FileName(file) + ".response");
      fs.paths := fs.paths + {responsePath};
      output := [WriteResponseFile(responsePath, header), DownlinkFile(responsePath), DownlinkFile(destination)];
    }

    /** One schedule file of a scan, up to queueing its items. */
    method ProcessFile(file: string) returns (verdict: Verdict, output: seq<Output>)
      modifies fs, deployRequestProcessor
      ensures FileOutcome(verdict, fs.paths, output) == FileSpec(env, old(fs.paths), file)
      ensures deployRequestProcessor.Contents() == QueueAll(old(deployRequestProcessor.Contents()), AcceptedItems(verdict))
    {
      var result, sent := ProcessScheduleFile(file);
      if result.Err? && IsRetried(result.error) {
        return Retry, [];
      }
      var settled: seq<Output>;
      if result.Err? {
        var message := result.error.message;
        verdict := Refused(message);
        settled := Settle(file, file + ".error", NotifyHeader(env, file, Rejected, RejectedMessage(file, message)));
        output := sent + settled;
        return;
      }
      verdict := Accepted(result.value);
      settled := Settle(file, file + ".processed", NotifyHeader(env, file, Pending, ProcessedMessage(file)));
      output := sent + settled;
      var queued := QueueItems(result.value);
      output := output + queued;
    }

    /** `QueueDeployment` of each item, downlinking each queued response. */
    method QueueItems(items: seq<DeployResponse>) returns (output: seq<Output>)
      modifies deployRequestProcessor
      ensures deployRequestProcessor.Contents() == QueueAll(old(deployRequestProcessor.Contents()), items)
      ensures output == Notices(items)
    {
      output := [];
      var j := 0;
      while j < |items|
        invariant 0 <= j <= |items|
        invariant deployRequestProcessor.Contents() == QueueAll(old(deployRequestProcessor.Contents()), items[..j])
        invariant output == Notices(items[..j])
      {
        assert items[..j + 1][..j] == items[..j];
        var response := deployRequestProcessor.QueueDeployment(items[j]);
        output := output + [DownlinkResponse(response)];
        j := j + 1;
      }
      assert items[..j] == items;
    }

    /**
     * One scan of the schedule import directory, over the files it
     * listed: each file in turn, then every accepted item queued and
     * downlinked once more.
     */
    method ScanDirectory(files: seq<string>) returns (output: seq<Output>)
      modifies fs, deployRequestProcessor
      ensures fs.paths == ScanSpec(env, old(fs.paths), files).paths
      ensures output == ScanSpec(env, old(fs.paths), files).output + Notices(ScanSpec(env, old(fs.paths), files).items)
      ensures deployRequestProcessor.Contents() ==
                QueueAll(old(deployRequestProcessor.Contents()), ScanSpec(env, old(fs.paths), files).items)
    {
      output := [];
      var accepted: seq<DeployResponse> := [];
      var i := 0;
      while i < |files|
        invariant 0 <= i <= |files|
        invariant ScanSpec(env, old(fs.paths), files[..i]) == Scan(accepted, fs.paths, output)
        invariant deployRequestProcessor.Contents() == QueueAll(old(deployRequestProcessor.Contents()), accepted)
      {
        assert files[..i + 1][..i] == files[..i];
        var verdict, sent := ProcessFile(files[i]);
        QueueAllAppend(old(deployRequestProcessor.Contents()), accepted, AcceptedItems(verdict));
        accepted := accepted + AcceptedItems(verdict);
        output := output + sent;
        i := i + 1;
      }
      assert files[..i] == files;
      var again := QueueItems(accepted);
      QueueTwiceIsQueueOnce(old(deployRequestProcessor.Contents()), accepted);
      output := output + again;
    }
  }
}
