// The deployment queue and its scheduler.  Queued deploy responses live
// in an index keyed by tracking id; every write to the index is written
// through to the persistent cache under "deployCache_" + tracking id, and
// the index is rebuilt from those items at start-up.  A polling tick walks
// the index: it drains finished items, skips items not yet due, and runs
// the rest through the plugins, the container-image import, the context
// file upload and the Kubernetes client, queueing the recurrence and the
// automatic delete of a successful deployment.
//
// The plugins, the image importer, cron, GUID generation and the clock are
// parameters; the file system is the set of paths that exist.

module DeployRequests {
  import opened Common
  import opened Messages
  import opened TimeUtils
  import opened TemplateUtil
  import opened PluginDelegates
  import opened K8sClient
  import opened FileSystems

  // ---------------------------------------------------------------------
  // The index and the persistent cache

  const CachePrefix: string := "deployCache_"

  /** The persistent cache item a queued response is saved under. */
  function StoreName(trackingId: string): (r: string)
    ensures StartsWith(r, CachePrefix) && r[|CachePrefix|..] == trackingId
  {
    CachePrefix + trackingId
  }

  /** The in-memory index, keyed by tracking id. */
  type Cache = map<string, DeployResponse>

  /** The persistent cache: item name to what reads back from it (`None` when it is not a deploy response). */
  type Store = map<string, Option<DeployResponse>>

  datatype Queue = Queue(cache: Cache, store: Store)

  /** Every index entry sits under its own tracking id. */
  predicate KeysMatch(cache: Cache)
  {
    forall id :: id in cache ==> TrackingId(cache[id]) == id
  }

  /**
   * The persistent cache holds exactly the index: each entry is saved
   * under its name, and every "deployCache_" item is the save of an entry.
   */
  predicate Mirrors(q: Queue)
  {
    (forall id :: id in q.cache ==> StoreName(id) in q.store && q.store[StoreName(id)] == Some(q.cache[id]))
    && (forall n :: n in q.store && StartsWith(n, CachePrefix) ==> n[|CachePrefix|..] in q.cache)
  }

  predicate Consistent(q: Queue)
  {
    KeysMatch(q.cache) && Mirrors(q)
  }

  /** `CommitToCache`: an upsert into the index and a save under the item's name. */
  function CommitItem(q: Queue, item: DeployResponse): (r: Queue)
    ensures TrackingId(item) in r.cache && r.cache[TrackingId(item)] == item
    ensures StoreName(TrackingId(item)) in r.store && r.store[StoreName(TrackingId(item))] == Some(item)
    ensures forall id :: id != TrackingId(item) ==>
              (id in r.cache <==> id in q.cache) && (id in q.cache ==> r.cache[id] == q.cache[id])
    ensures forall n :: n != StoreName(TrackingId(item)) ==>
              (n in r.store <==> n in q.store) && (n in q.store ==> r.store[n] == q.store[n])
  {
    Queue(q.cache[TrackingId(item) := item], q.store[StoreName(TrackingId(item)) := Some(item)])
  }

  /** `RemoveFromCache`: the key leaves the index and its item leaves the persistent cache. */
  function RemoveItem(q: Queue, trackingId: string): (r: Queue)
    ensures trackingId !in r.cache && StoreName(trackingId) !in r.store
    ensures forall id :: id != trackingId ==>
              (id in r.cache <==> id in q.cache) && (id in q.cache ==> r.cache[id] == q.cache[id])
    ensures forall n :: n != StoreName(trackingId) ==>
              (n in r.store <==> n in q.store) && (n in q.store ==> r.store[n] == q.store[n])
  {
    Queue(q.cache - {trackingId}, q.store - {StoreName(trackingId)})
  }

  /** Committing the same item twice leaves the state of committing it once. */
  lemma CommitTwiceIsCommitOnce(q: Queue, item: DeployResponse)
    ensures CommitItem(CommitItem(q, item), item) == CommitItem(q, item)
  {
  }

  /** Commits of different items can be made in either order. */
  lemma {:induction false} CommitsCommute(q: Queue, a: DeployResponse, b: DeployResponse)
    requires TrackingId(a) != TrackingId(b)
    ensures CommitItem(CommitItem(q, a), b) == CommitItem(CommitItem(q, b), a)
  {
    assert StoreName(TrackingId(a)) != StoreName(TrackingId(b)) by {
      assert StoreName(TrackingId(a))[|CachePrefix|..] == TrackingId(a);
    }
  }

  lemma StoreNameInjective(a: string, b: string)
    requires StoreName(a) == StoreName(b)
    ensures a == b
  {
    assert StoreName(a)[|CachePrefix|..] == a;
  }

  lemma {:induction false} CommitKeepsConsistent(q: Queue, item: DeployResponse)
    requires Consistent(q)
    ensures Consistent(CommitItem(q, item))
  {
    var r := CommitItem(q, item);
    forall id | id in r.cache
      ensures StoreName(id) in r.store && r.store[StoreName(id)] == Some(r.cache[id])
    {
      if id != TrackingId(item) {
        if StoreName(id) == StoreName(TrackingId(item)) {
          StoreNameInjective(id, TrackingId(item));
        }
      }
    }
    forall n | n in r.store && StartsWith(n, CachePrefix)
      ensures n[|CachePrefix|..] in r.cache
    {
      if n == StoreName(TrackingId(item)) {
        assert n[|CachePrefix|..] == TrackingId(item);
      }
    }
  }

  lemma {:induction false} RemoveKeepsConsistent(q: Queue, trackingId: string)
    requires Consistent(q)
    ensures Consistent(RemoveItem(q, trackingId))
  {
    var r := RemoveItem(q, trackingId);
    forall id | id in r.cache
      ensures StoreName(id) in r.store && r.store[StoreName(id)] == Some(r.cache[id])
    {
      if StoreName(id) == StoreName(trackingId) {
        StoreNameInjective(id, trackingId);
      }
    }
    forall n | n in r.store && StartsWith(n, CachePrefix)
      ensures n[|CachePrefix|..] in r.cache
    {
      assert n == CachePrefix + n[|CachePrefix|..];
      assert n != StoreName(trackingId);
    }
  }

  /**
   * The index entry the item is updated in place: `DeployItem` mutates the
   * response object the index holds, with no save to the persistent cache.
   */
  function MarkItem(q: Queue, item: DeployResponse): (r: Queue)
    ensures TrackingId(item) in r.cache && r.cache[TrackingId(item)] == item
    ensures forall id :: id != TrackingId(item) ==>
              (id in r.cache <==> id in q.cache) && (id in q.cache ==> r.cache[id] == q.cache[id])
    ensures r.store == q.store
  {
    Queue(q.cache[TrackingId(item) := item], q.store)
  }

  /**
   * The index and the persistent cache as the tick leaves them: keys match,
   * every Pending entry is saved as it is, and every "deployCache_" item is
   * the save of an entry.  A finished entry may differ from its saved copy
   * (it was updated in place and not committed); the next tick drains it.
   */
  predicate InStep(q: Queue)
  {
    KeysMatch(q.cache)
    && (forall id :: id in q.cache && q.cache[id].header.status == Pending ==>
          StoreName(id) in q.store && q.store[StoreName(id)] == Some(q.cache[id]))
    && (forall n :: n in q.store && StartsWith(n, CachePrefix) ==> n[|CachePrefix|..] in q.cache)
  }

  /** Mirroring is the stronger state: it is in step, and in step with nothing finished is mirroring. */
  lemma InStepWhenConsistent(q: Queue)
    ensures Consistent(q) ==> InStep(q)
    ensures InStep(q) && (forall id :: id in q.cache ==> q.cache[id].header.status == Pending) ==> Consistent(q)
  {
  }

  lemma {:induction false} CommitKeepsInStep(q: Queue, item: DeployResponse)
    requires InStep(q)
    ensures InStep(CommitItem(q, item))
  {
    var r := CommitItem(q, item);
    forall id | id in r.cache && r.cache[id].header.status == Pending
      ensures StoreName(id) in r.store && r.store[StoreName(id)] == Some(r.cache[id])
    {
      if id != TrackingId(item) && StoreName(id) == StoreName(TrackingId(item)) {
        StoreNameInjective(id, TrackingId(item));
      }
    }
    forall n | n in r.store && StartsWith(n, CachePrefix)
      ensures n[|CachePrefix|..] in r.cache
    {
      if n == StoreName(TrackingId(item)) {
        assert n[|CachePrefix|..] == TrackingId(item);
      }
    }
  }

  lemma {:induction false} RemoveKeepsInStep(q: Queue, trackingId: string)
    requires InStep(q)
    ensures InStep(RemoveItem(q, trackingId))
  {
    var r := RemoveItem(q, trackingId);
    forall id | id in r.cache && r.cache[id].header.status == Pending
      ensures StoreName(id) in r.store && r.store[StoreName(id)] == Some(r.cache[id])
    {
      if StoreName(id) == StoreName(trackingId) {
        StoreNameInjective(id, trackingId);
      }
    }
    forall n | n in r.store && StartsWith(n, CachePrefix)
      ensures n[|CachePrefix|..] in r.cache
    {
      assert n == CachePrefix + n[|CachePrefix|..];
      assert n != StoreName(trackingId);
    }
  }

  /** An in-place update to a finished state keeps the index in step; it does break mirroring. */
  lemma {:induction false} MarkKeepsInStep(q: Queue, item: DeployResponse)
    requires InStep(q) && item.header.status != Pending
    ensures InStep(MarkItem(q, item))
  {
    var r := MarkItem(q, item);
    forall id | id in r.cache && r.cache[id].header.status == Pending
      ensures StoreName(id) in r.store && r.store[StoreName(id)] == Some(r.cache[id])
    {
      assert id != TrackingId(item);
    }
  }

  /** What processing an item does to the queue, in order. */
  datatype CacheOp = OpCommit(item: DeployResponse) | OpRemove(trackingId: string) | OpMark(item: DeployResponse)

  function ApplyOp(q: Queue, op: CacheOp): Queue
  {
    match op
    case OpCommit(item) => CommitItem(q, item)
    case OpRemove(id) => RemoveItem(q, id)
    case OpMark(item) => MarkItem(q, item)
  }

  /**
   * The first thing processing does to the queue settles the item: it is
   * removed, or committed or updated in place to a finished state.
   */
  predicate Settles(op: CacheOp, trackingId: string)
  {
    match op
    case OpRemove(id) => id == trackingId
    case OpCommit(x) => TrackingId(x) == trackingId && x.header.status != Pending
    case OpMark(x) => TrackingId(x) == trackingId && x.header.status != Pending
  }

  /** Every in-place update is to a finished state. */
  predicate MarksFinished(ops: seq<CacheOp>)
  {
    forall i :: 0 <= i < |ops| && ops[i].OpMark? ==> ops[i].item.header.status != Pending
  }

  function ApplyOps(q: Queue, ops: seq<CacheOp>): Queue
    decreases |ops|
  {
    if |ops| == 0 then q else ApplyOp(ApplyOps(q, ops[..|ops| - 1]), ops[|ops| - 1])
  }

  lemma ApplyOpsSnoc(q: Queue, ops: seq<CacheOp>, op: CacheOp)
    ensures ApplyOps(q, ops + [op]) == ApplyOp(ApplyOps(q, ops), op)
  {
    assert (ops + [op])[..|ops|] == ops;
  }

  lemma {:induction false} ApplyOpsAppend(q: Queue, a: seq<CacheOp>, b: seq<CacheOp>)
    ensures ApplyOps(q, a + b) == ApplyOps(ApplyOps(q, a), b)
    decreases |b|
  {
    if |b| == 0 {
      assert a + b == a;
    } else {
      assert (a + b)[..|a + b| - 1] == a + b[..|b| - 1];
      assert (a + b)[|a + b| - 1] == b[|b| - 1];
      ApplyOpsAppend(q, a, b[..|b| - 1]);
    }
  }

  /** Commits and removals alone keep the index and the persistent cache mirroring each other. */
  lemma {:induction false} ApplyOpsKeepsConsistent(q: Queue, ops: seq<CacheOp>)
    requires Consistent(q)
    requires forall i :: 0 <= i < |ops| ==> !ops[i].OpMark?
    ensures Consistent(ApplyOps(q, ops))
    decreases |ops|
  {
    if |ops| > 0 {
      var p := ApplyOps(q, ops[..|ops| - 1]);
      ApplyOpsKeepsConsistent(q, ops[..|ops| - 1]);
      match ops[|ops| - 1]
      case OpCommit(item) => CommitKeepsConsistent(p, item);
      case OpRemove(id) => RemoveKeepsConsistent(p, id);
    }
  }

  /** Whatever processing does to the queue, in-place updates to a finished state included, keeps it in step. */
  lemma {:induction false} ApplyOpsKeepsInStep(q: Queue, ops: seq<CacheOp>)
    requires InStep(q) && MarksFinished(ops)
    ensures InStep(ApplyOps(q, ops))
    decreases |ops|
  {
    if |ops| > 0 {
      var p := ApplyOps(q, ops[..|ops| - 1]);
      ApplyOpsKeepsInStep(q, ops[..|ops| - 1]);
      match ops[|ops| - 1]
      case OpCommit(item) => CommitKeepsInStep(p, item);
      case OpRemove(id) => RemoveKeepsInStep(p, id);
      case OpMark(item) => MarkKeepsInStep(p, item);
    }
  }

  // ---------------------------------------------------------------------
  // Reloading the index from the persistent cache

  /** A persistent cache item the reload picks up: a "deployCache_" name holding a deploy response. */
  predicate IsCacheEntry(store: Store, n: string)
  {
    StartsWith(n, CachePrefix) && n in store && store[n].Some?
  }

  /**
   * `PopulateCacheFromDisk` over the listed item names in turn: every
   * non-null "deployCache_" item is upserted under its own tracking id.
   */
  function Loaded(cache: Cache, store: Store, names: seq<string>): (r: Cache)
    ensures KeysMatch(cache) ==> KeysMatch(r)
    decreases |names|
  {
    if |names| == 0 then cache
    else
      var before := Loaded(cache, store, names[..|names| - 1]);
      var n := names[|names| - 1];
      if IsCacheEntry(store, n) then before[TrackingId(store[n].value) := store[n].value] else before
  }

  /**
   * The reload adds exactly the listed entries: each one ends up under its
   * tracking id, and every entry afterwards was there before or is one of them.
   */
  lemma {:induction false} LoadedExactly(cache: Cache, store: Store, names: seq<string>)
    ensures forall i :: 0 <= i < |names| && IsCacheEntry(store, names[i]) ==>
              TrackingId(store[names[i]].value) in Loaded(cache, store, names)
    ensures forall id :: id in Loaded(cache, store, names) ==>
              (id in cache && Loaded(cache, store, names)[id] == cache[id])
              || exists i :: 0 <= i < |names| && IsCacheEntry(store, names[i])
                             && store[names[i]].value == Loaded(cache, store, names)[id]
    decreases |names|
  {
    if |names| > 0 {
      var init := names[..|names| - 1];
      LoadedExactly(cache, store, init);
      assert forall i :: 0 <= i < |init| ==> init[i] == names[i];
    }
  }

  /** Loading from a persistent cache that mirrors the index gives the index entries whose items are listed. */
  lemma {:induction false} LoadedListed(q: Queue, names: seq<string>)
    requires Consistent(q)
    ensures forall id :: id in Loaded(map[], q.store, names) <==> id in q.cache && StoreName(id) in names
    ensures forall id :: id in Loaded(map[], q.store, names) ==> Loaded(map[], q.store, names)[id] == q.cache[id]
    decreases |names|
  {
    if |names| > 0 {
      var init := names[..|names| - 1];
      var n := names[|names| - 1];
      LoadedListed(q, init);
      var before := Loaded(map[], q.store, init);
      assert names == init + [n];
      assert forall x :: x in names <==> x in init || x == n;
      if IsCacheEntry(q.store, n) {
        var id := n[|CachePrefix|..];
        assert n == StoreName(id);
        assert q.store[n] == Some(q.cache[id]);
        assert Loaded(map[], q.store, names) == before[id := q.cache[id]];
      } else {
        assert Loaded(map[], q.store, names) == before;
        assert forall id :: id in q.cache ==> StoreName(id) != n;
      }
    }
  }

  /** Reloading a persistent cache that mirrors the index gives back the index. */
  lemma {:induction false} PopulateRoundTrip(q: Queue, names: seq<string>)
    requires Consistent(q)
    requires forall n :: n in q.store ==> n in names
    ensures Loaded(map[], q.store, names) == q.cache
  {
    var loaded := Loaded(map[], q.store, names);
    LoadedListed(q, names);
    assert forall id :: id in q.cache ==> StoreName(id) in names;
    assert loaded.Keys == q.cache.Keys;
  }

  // ---------------------------------------------------------------------
  // Processing one item

  /** The service settings and the outside world the processor sees. */
  datatype ProcessorEnv = ProcessorEnv(
    scheduleImportDirectory: string,
    outboxDirectory: string,
    regctlApp: string,                          // "" when regctl was not found at start-up
    containerRegistryInternal: string,
    purgeScheduleOnBootup: bool,
    plugins: seq<Plugin>,
    deploy: DeployEnv,
    regctl: string -> ProcessRun,               // running regctl with an argument string
    nextOccurrence: (string, Ticks) -> Option<Ticks>,   // cron: None when the schedule does not parse
    freshId: (string, nat) -> string)           // the n-th new GUID made while processing an item

  /** Messages sent to other services. */
  datatype Effect =
    | Uplink(trackingId: string, correlationId: string, fileName: string, destinationAppId: string)
    | Downlink(response: DeployResponse)

  /** What processing one item does: queue updates, the cluster and files afterwards, messages, and whether it threw. */
  datatype Processed = Processed(
    ops: seq<CacheOp>,
    objects: Objects,
    files: set<string>,
    effects: seq<Effect>,
    aborted: bool)

  predicate IsImageAction(a: DeployAction)
  {
    a == LoadImageTarball || a == Apply || a == Create
  }

  function TarballPath(env: ProcessorEnv, image: AppContainerImage): string
  {
    PathCombine(env.scheduleImportDirectory, image.tarballFileName)
  }

  function ImageImportName(env: ProcessorEnv, image: AppContainerImage): string
  {
    env.containerRegistryInternal + "/" + image.destinationRepository + ":" + image.destinationTag
  }

  function ImportArguments(env: ProcessorEnv, image: AppContainerImage): string
  {
    "image import " + ImageImportName(env, image) + " " + TarballPath(env, image)
    + " --host reg=" + env.containerRegistryInternal + ",tls=insecure"
  }

  function RegctlMissingMessage(env: ProcessorEnv, image: AppContainerImage): string
  {
    "regctl not found.  Unable to import image for '" + TarballPath(env, image) + "'.  Rejecting deploy request"
  }

  function RegctlFailedMessage(env: ProcessorEnv, image: AppContainerImage, run: ProcessRun): string
  {
    "regctl failed to import image for '" + TarballPath(env, image) + "'.  Rejecting deploy request.  Output: "
    + run.output + ".  Error: " + run.error + "  Return Code: " + IntToString(run.exitCode)
  }

  /** `ProcessContainerImage`: the import succeeds, or fails with the exception's message. */
  function ImportImage(env: ProcessorEnv, image: AppContainerImage): (r: Result<(), string>)
    ensures IsBlank(env.regctlApp) ==> r == Err(RegctlMissingMessage(env, image))
    ensures !IsBlank(env.regctlApp) && env.regctl(ImportArguments(env, image)).exitCode > 0 ==>
              r == Err(RegctlFailedMessage(env, image, env.regctl(ImportArguments(env, image))))
    ensures r.Ok? <==> !IsBlank(env.regctlApp) && env.regctl(ImportArguments(env, image)).exitCode <= 0
  {
    if IsBlank(env.regctlApp) then Err(RegctlMissingMessage(env, image))
    else
      var run := env.regctl(ImportArguments(env, image));
      if run.exitCode > 0 then Err(RegctlFailedMessage(env, image, run)) else Ok(())
  }

  function LoadedImageMessage(image: AppContainerImage): string
  {
    "Image '" + image.tarballFileName + "' loaded successfully as '"
    + image.destinationRepository + ":" + image.destinationTag + "'"
  }

  function ContextMissingMessage(source: string): string
  {
    "AppContextFile File '" + source + "' not found and required = 'TRUE'."
  }

  function UplinkMissingMessage(fileName: string, appName: string): string
  {
    "File '" + fileName + "' not found.  Unable to send to '" + appName + "'"
  }

  function UplinkedMessage(fileName: string, appName: string): string
  {
    "Successfully uplinked file '" + fileName + "' to '" + appName + "'"
  }

  /** The recurrence of a scheduled deployment: a new tracking id, the next start, Pending, no container sub-requests. */
  function ScheduleClone(item: DeployResponse, id: string, next: Ticks): (r: DeployResponse)
    ensures TrackingId(r) == id && r.header.status == Pending && r.request.startTime == Some(next)
    ensures r.request.appContainerBuild.None? && r.request.appContainerImage.None?
    ensures r.request.deployAction == item.request.deployAction && r.request.schedule == item.request.schedule
    ensures r.(header := r.header.(trackingId := item.header.trackingId, status := item.header.status),
               request := r.request.(startTime := item.request.startTime,
                                     appContainerBuild := item.request.appContainerBuild,
                                     appContainerImage := item.request.appContainerImage)) == item
  {
    item.(header := item.header.(trackingId := id, status := Pending),
          request := item.request.(startTime := Some(next), appContainerBuild := None, appContainerImage := None))
  }

  /** The automatic delete after a maximum duration: a new tracking id, action Delete, priority High, Pending. */
  function DeleteClone(item: DeployResponse, id: string, start: Ticks): (r: DeployResponse)
    ensures TrackingId(r) == id && r.header.status == Pending && r.request.startTime == Some(start)
    ensures r.request.deployAction == Delete && r.request.priority == High
    ensures r.request.appContainerBuild.None? && r.request.appContainerImage.None?
    ensures r.(header := r.header.(trackingId := item.header.trackingId, status := item.header.status),
               request := r.request.(deployAction := item.request.deployAction,
                                     startTime := item.request.startTime,
                                     priority := item.request.priority,
                                     appContainerBuild := item.request.appContainerBuild,
                                     appContainerImage := item.request.appContainerImage)) == item
  {
    item.(header := item.header.(trackingId := id, status := Pending),
          request := item.request.(deployAction := Delete, startTime := Some(start), priority := High,
                                   appContainerBuild := None, appContainerImage := None))
  }

  /** The recurrence of a scheduled deployment, or an exception when cron cannot parse its schedule. */
  function Recurrence(env: ProcessorEnv, item: DeployResponse, now: Ticks): (r: (seq<CacheOp>, bool))
    ensures |r.0| <= 1 && (r.1 ==> r.0 == [])
    ensures |r.0| == 1 <==> !IsBlank(item.request.schedule) && !r.1
    ensures r.1 <==> !IsBlank(item.request.schedule) && env.nextOccurrence(item.request.schedule, now + TicksPerSecond).None?
    ensures forall i :: 0 <= i < |r.0| ==> r.0[i].OpCommit? && r.0[i].item.header.status == Pending
  {
    if IsBlank(item.request.schedule) then ([], false)
    else match env.nextOccurrence(item.request.schedule, now + TicksPerSecond)
      case None => ([], true)
      case Some(next) => ([OpCommit(ScheduleClone(item, env.freshId(TrackingId(item), 1), next))], false)
  }

  /**
   * The follow-ups of a successful deployment: the recurrence when it has
   * a schedule, the delete when it is an Apply or Create with a maximum
   * duration.  A schedule cron cannot parse, or a missing start time under
   * a maximum duration, throws (and keeps what was queued before it).
   */
  function FollowUps(env: ProcessorEnv, item: DeployResponse, now: Ticks): (r: (seq<CacheOp>, bool))
    ensures |r.0| <= 2
    ensures forall i :: 0 <= i < |r.0| ==> r.0[i].OpCommit? && r.0[i].item.header.status == Pending
  {
    var req := item.request;
    var recur := Recurrence(env, item, now);
    if recur.1 then recur
    else if (req.deployAction == Apply || req.deployAction == Create) && req.maxDuration.Some? then
      match req.startTime
      case None => (recur.0, true)
      case Some(start) =>
        (recur.0 + [OpCommit(DeleteClone(item, env.freshId(TrackingId(item), 2),
                                          start + DurationTicks(req.maxDuration.value)))], false)
    else recur
  }

  /** `ProcessDeploymentItem` from the pre-deployment plugins on. */
  function ProcessSpec(env: ProcessorEnv, faults: Faults, m: Objects, files: set<string>, item: DeployResponse, now: Ticks): (r: Processed)
    ensures |r.ops| >= 1 && MarksFinished(r.ops)
    ensures r.ops[0].OpRemove? ==> r.ops[0] == OpRemove(TrackingId(item))
    ensures !r.ops[0].OpRemove? ==> r.ops[0].item.header.status != Pending
  {
    var pre := CallPreKubernetesDeployment(env.plugins, (Some(item.request), Some(item)));
    if pre.0.None? || pre.1.None? then Processed([OpRemove(TrackingId(item))], m, files, [], false)
    else ImageStage(env, faults, m, files, pre.1.value.(request := pre.0.value), now)
  }

  /** The container image import. */
  function ImageStage(env: ProcessorEnv, faults: Faults, m: Objects, files: set<string>, item: DeployResponse, now: Ticks): (r: Processed)
    ensures |r.ops| >= 1 && Settles(r.ops[0], TrackingId(item)) && !r.ops[0].OpRemove? && MarksFinished(r.ops)
  {
    var req := item.request;
    if req.appContainerImage.Some? && IsImageAction(req.deployAction) then
      var image := req.appContainerImage.value;
      match ImportImage(env, image)
      case Err(msg) => Processed([OpCommit(WithOutcome(item, GeneralFailure, msg))], m, files, [], false)
      case Ok(_) =>
        var files' := files - {TarballPath(env, image)};
        if req.deployAction == LoadImageTarball then
          Processed([OpCommit(WithOutcome(item, Successful, LoadedImageMessage(image)))], m, files', [], false)
        else BuildStage(env, faults, m, files', item, now)
    else BuildStage(env, faults, m, files, item, now)
  }

  /**
   * The build branch: an image action with a build section goes through
   * the Kubernetes client once before the main deployment.  Its inner test
   * for BuildImage can never hold, so it always falls through.
   */
  function BuildStage(env: ProcessorEnv, faults: Faults, m: Objects, files: set<string>, item: DeployResponse, now: Ticks): (r: Processed)
    ensures |r.ops| >= 1 && Settles(r.ops[0], TrackingId(item)) && !r.ops[0].OpRemove? && MarksFinished(r.ops)
  {
    if item.request.appContainerBuild.Some? && IsImageAction(item.request.deployAction) then
      var d := DeployOutcome(m, faults, env.deploy, WithDefaults(item));
      ContextStage(env, faults, d.objects, files, d.response, now)
    else ContextStage(env, faults, m, files, item, now)
  }

  /** The application context file: uplinked to the app when present. */
  function ContextStage(env: ProcessorEnv, faults: Faults, m: Objects, files: set<string>, item: DeployResponse, now: Ticks): (r: Processed)
    ensures |r.ops| >= 1 && Settles(r.ops[0], TrackingId(item)) && !r.ops[0].OpRemove? && MarksFinished(r.ops)
  {
    var req := item.request;
    match req.appContext
    case ContextFile(fileName, required) =>
      var source := PathCombine(env.scheduleImportDirectory, fileName);
      if source !in files then
        if required then
          Processed([OpCommit(WithOutcome(item, GeneralFailure, ContextMissingMessage(source)))], m, files, [], false)
        else if req.deployAction == UplinkFile then
          Processed([OpCommit(WithOutcome(item, NotFound, UplinkMissingMessage(fileName, req.appName)))], m, files, [], false)
        else DeployStage(env, faults, m, files, [], item, now)
      else
        var files' := (files - {source}) + {PathCombine(env.outboxDirectory, fileName)};
        var link := Uplink(env.freshId(TrackingId(item), 0), req.header.correlationId, fileName, req.appName);
        if req.deployAction == UplinkFile then
          Processed([OpCommit(WithOutcome(item, Successful, UplinkedMessage(fileName, req.appName)))], m, files', [link], false)
        else DeployStage(env, faults, m, files', [link], item, now)
    case _ => DeployStage(env, faults, m, files, [], item, now)
  }

  /** The deployment itself, the post-deployment plugins, the follow-ups and the final commit. */
  function DeployStage(env: ProcessorEnv, faults: Faults, m: Objects, files: set<string>, effects: seq<Effect>,
                       item: DeployResponse, now: Ticks): (r: Processed)
    ensures |r.ops| >= 1 && Settles(r.ops[0], TrackingId(item)) && !r.ops[0].OpRemove? && MarksFinished(r.ops)
  {
    var d := DeployOutcome(m, faults, env.deploy, WithDefaults(item));
    var done := d.response;
    if done.header.status != Successful then Processed([OpCommit(done)], d.objects, files, effects, false)
    else
      var post := CallPostKubernetesDeployment(env.plugins, (Some(done.request), Some(done)));
      if post.0.None? || post.1.None? then Processed([OpMark(done)], d.objects, files, effects, false)
      else
        var f := FollowUps(env, done, now);
        MarkThenCommitsFinish(done, if f.1 then f.0 else f.0 + [OpCommit(done)]);
        Processed([OpMark(done)] + (if f.1 then f.0 else f.0 + [OpCommit(done)]), d.objects, files, effects, f.1)
  }

  /** An in-place update to a finished state followed by commits only marks finished items. */
  lemma MarkThenCommitsFinish(done: DeployResponse, commits: seq<CacheOp>)
    requires done.header.status != Pending && forall i :: 0 <= i < |commits| ==> commits[i].OpCommit?
    ensures ([OpMark(done)] + commits)[0] == OpMark(done) && MarksFinished([OpMark(done)] + commits)
  {
    var ops := [OpMark(done)] + commits;
    forall i | 1 <= i < |ops| ensures ops[i].OpCommit? {
      assert ops[i] == commits[i - 1];
    }
  }

  // ---------------------------------------------------------------------
  // What processing promises

  /** Plugins that drop the request or the response remove the item, and nothing else happens. */
  lemma NulledByPrePlugins(env: ProcessorEnv, faults: Faults, m: Objects, files: set<string>, item: DeployResponse, now: Ticks)
    requires var pre := CallPreKubernetesDeployment(env.plugins, (Some(item.request), Some(item)));
             pre.0.None? || pre.1.None?
    ensures ProcessSpec(env, faults, m, files, item, now) == Processed([OpRemove(TrackingId(item))], m, files, [], false)
  {
  }

  /** A failed image import commits GeneralFailure with the importer's message and touches neither cluster nor files. */
  lemma ImageImportFailure(env: ProcessorEnv, faults: Faults, m: Objects, files: set<string>, item: DeployResponse, now: Ticks)
    requires item.request.appContainerImage.Some? && IsImageAction(item.request.deployAction)
    requires IsBlank(env.regctlApp) || env.regctl(ImportArguments(env, item.request.appContainerImage.value)).exitCode > 0
    ensures var p := ImageStage(env, faults, m, files, item, now);
            && p.objects == m && p.files == files && p.effects == [] && !p.aborted
            && |p.ops| == 1 && p.ops[0].OpCommit?
            && p.ops[0].item == WithOutcome(item, GeneralFailure, ImportImage(env, item.request.appContainerImage.value).error)
  {
  }

  /** LoadImageTarball with a successful import stops as Successful without a cluster call, having deleted the tarball. */
  lemma LoadImageTarballSucceeds(env: ProcessorEnv, faults: Faults, m: Objects, files: set<string>, item: DeployResponse, now: Ticks)
    requires item.request.appContainerImage.Some? && item.request.deployAction == LoadImageTarball
    requires ImportImage(env, item.request.appContainerImage.value).Ok?
    ensures var image := item.request.appContainerImage.value;
            ImageStage(env, faults, m, files, item, now)
            == Processed([OpCommit(WithOutcome(item, Successful, LoadedImageMessage(image)))], m,
                         files - {TarballPath(env, image)}, [], false)
  {
  }

  /**
   * A BuildImage request never enters the build branch (the branch only
   * admits image actions), so the BuildImage test inside it is dead and
   * the build goes through the single main deployment.
   */
  lemma BuildTestUnreachable(env: ProcessorEnv, faults: Faults, m: Objects, files: set<string>, item: DeployResponse, now: Ticks)
    ensures !IsImageAction(BuildImage)
    ensures item.request.deployAction == BuildImage ==>
              BuildStage(env, faults, m, files, item, now) == ContextStage(env, faults, m, files, item, now)
  {
  }

  /** The context-file rules: missing and required fails; missing for an uplink is NotFound; present for an uplink succeeds. */
  lemma ContextFileRules(env: ProcessorEnv, faults: Faults, m: Objects, files: set<string>, item: DeployResponse, now: Ticks)
    requires item.request.appContext.ContextFile?
    ensures var f := item.request.appContext;
            var source := PathCombine(env.scheduleImportDirectory, f.fileName);
            var p := ContextStage(env, faults, m, files, item, now);
            && (source !in files && f.required ==>
                  p == Processed([OpCommit(WithOutcome(item, GeneralFailure, ContextMissingMessage(source)))], m, files, [], false))
            && (source !in files && !f.required && item.request.deployAction == UplinkFile ==>
                  p == Processed([OpCommit(WithOutcome(item, NotFound, UplinkMissingMessage(f.fileName, item.request.appName)))],
                                 m, files, [], false))
            && (source in files && item.request.deployAction == UplinkFile ==>
                  p.ops == [OpCommit(WithOutcome(item, Successful, UplinkedMessage(f.fileName, item.request.appName)))]
                  && p.objects == m && source !in p.files - {PathCombine(env.outboxDirectory, f.fileName)}
                  && |p.effects| == 1 && p.effects[0].Uplink? && p.effects[0].fileName == f.fileName
                  && p.effects[0].destinationAppId == item.request.appName)
  {
  }

  /** A deployment that did not succeed is committed as it came back, with no follow-up. */
  lemma FailedDeployHasNoFollowUps(env: ProcessorEnv, faults: Faults, m: Objects, files: set<string>, effects: seq<Effect>,
                                   item: DeployResponse, now: Ticks)
    requires DeployOutcome(m, faults, env.deploy, WithDefaults(item)).response.header.status != Successful
    ensures var d := DeployOutcome(m, faults, env.deploy, WithDefaults(item));
            var p := DeployStage(env, faults, m, files, effects, item, now);
            p.ops == [OpCommit(d.response)] && d.response.header.status == GeneralFailure && !p.aborted
  {
  }

  /** The recurrence of a scheduled item: exactly one Pending clone under a new id, without container sub-requests. */
  lemma ScheduledItemRecurs(env: ProcessorEnv, item: DeployResponse, now: Ticks)
    requires !IsBlank(item.request.schedule)
    requires env.nextOccurrence(item.request.schedule, now + TicksPerSecond).Some?
    requires !(item.request.deployAction == Apply || item.request.deployAction == Create) || item.request.maxDuration.None?
    ensures var f := FollowUps(env, item, now);
            var c := f.0[0].item;
            && !f.1 && |f.0| == 1 && f.0[0].OpCommit?
            && TrackingId(c) == env.freshId(TrackingId(item), 1)
            && c.header.status == Pending
            && c.request.startTime == env.nextOccurrence(item.request.schedule, now + TicksPerSecond)
            && c.request.appContainerBuild.None? && c.request.appContainerImage.None?
            && c.request.(startTime := item.request.startTime, appContainerBuild := item.request.appContainerBuild,
                          appContainerImage := item.request.appContainerImage) == item.request
  {
  }

  /** The automatic delete: exactly one clone with action Delete, start plus duration, priority High, Pending, stripped. */
  lemma MaxDurationQueuesDelete(env: ProcessorEnv, item: DeployResponse, now: Ticks)
    requires IsBlank(item.request.schedule)
    requires item.request.deployAction == Apply || item.request.deployAction == Create
    requires item.request.maxDuration.Some? && item.request.startTime.Some?
    ensures var f := FollowUps(env, item, now);
            var c := f.0[0].item;
            && !f.1 && |f.0| == 1 && f.0[0].OpCommit?
            && TrackingId(c) == env.freshId(TrackingId(item), 2)
            && c.header.status == Pending
            && c.request.deployAction == Delete && c.request.priority == High
            && c.request.startTime == Some(item.request.startTime.value + DurationTicks(item.request.maxDuration.value))
            && c.request.appContainerBuild.None? && c.request.appContainerImage.None?
  {
  }

  /**
   * Post-deployment plugins that drop the response: the index entry keeps
   * the deployed, Successful state it was updated to in place, while the
   * persistent cache keeps the Pending copy; the next tick drains the entry,
   * sending the response down and removing the saved copy.
   */
  lemma NulledByPostPlugins(env: ProcessorEnv, faults: Faults, m: Objects, files: set<string>, effects: seq<Effect>,
                            item: DeployResponse, now: Ticks, q: Queue, later: Ticks)
    requires KeysMatch(q.cache)
    requires var d := DeployOutcome(m, faults, env.deploy, WithDefaults(item));
             var post := CallPostKubernetesDeployment(env.plugins, (Some(d.response.request), Some(d.response)));
             d.response.header.status == Successful && (post.0.None? || post.1.None?)
    ensures var d := DeployOutcome(m, faults, env.deploy, WithDefaults(item));
            var p := DeployStage(env, faults, m, files, effects, item, now);
            var q' := ApplyOps(q, p.ops);
            var s' := State(q', p.objects, p.files);
            && p.ops == [OpMark(d.response)] && !p.aborted
            && q'.store == q.store && q'.cache[TrackingId(item)] == d.response
            && TickStep(env, faults, s', TrackingId(item), later)
               == StepResult(s'.(queue := RemoveItem(q', TrackingId(item))), [Downlink(d.response)], false)
  {
    var d := DeployOutcome(m, faults, env.deploy, WithDefaults(item));
    ApplyOpsSnoc(q, [], OpMark(d.response));
  }

  /** A successful deployment whose plugins pass it on is committed last, after its follow-ups. */
  lemma SuccessCommitsLast(env: ProcessorEnv, faults: Faults, m: Objects, files: set<string>, effects: seq<Effect>,
                           item: DeployResponse, now: Ticks)
    requires var d := DeployOutcome(m, faults, env.deploy, WithDefaults(item));
             var post := CallPostKubernetesDeployment(env.plugins, (Some(d.response.request), Some(d.response)));
             d.response.header.status == Successful && post.0.Some? && post.1.Some?
             && !FollowUps(env, d.response, now).1
    ensures var d := DeployOutcome(m, faults, env.deploy, WithDefaults(item));
            var p := DeployStage(env, faults, m, files, effects, item, now);
            && |p.ops| >= 1 && p.ops[|p.ops| - 1] == OpCommit(d.response)
            && p.objects == d.objects && !p.aborted
  {
  }

  // ---------------------------------------------------------------------
  // One polling tick

  datatype State = State(queue: Queue, objects: Objects, files: set<string>)

  datatype StepResult = StepResult(state: State, effects: seq<Effect>, aborted: bool)

  /** Whether an item's start time has been reached, compared by the minute. */
  predicate Due(start: Ticks, now: Ticks)
  {
    RoundDown(start, TicksPerMinute) <= RoundDown(now, TicksPerMinute)
  }

  /** An item due now stays due later: the due check is monotone in the clock. */
  lemma DueStaysDue(start: Ticks, now: Ticks, later: Ticks)
    requires Due(start, now) && now <= later
    ensures Due(start, later)
  {
    RoundDownMonotone(now, later, TicksPerMinute);
  }

  /** An item starting before or at `now` is due. */
  lemma PastIsDue(start: Ticks, now: Ticks)
    requires start <= now
    ensures Due(start, now)
  {
    RoundDownMonotone(start, now, TicksPerMinute);
  }

  /** The loop body for one index key. */
  function TickStep(env: ProcessorEnv, faults: Faults, s: State, key: string, now: Ticks): (r: StepResult)
    ensures key !in s.queue.cache ==> r == StepResult(s, [], false)
    ensures key in s.queue.cache && s.queue.cache[key].header.status != Pending ==>
              && r.effects == [Downlink(s.queue.cache[key])] && !r.aborted
              && r.state == s.(queue := RemoveItem(s.queue, TrackingId(s.queue.cache[key])))
    ensures key in s.queue.cache && s.queue.cache[key].header.status == Pending && s.queue.cache[key].request.startTime.None? ==>
              r == StepResult(s, [], true)
    ensures key in s.queue.cache && s.queue.cache[key].header.status == Pending && s.queue.cache[key].request.startTime.Some?
            && !Due(s.queue.cache[key].request.startTime.value, now) ==>
              r == StepResult(s, [], false)
  {
    if key !in s.queue.cache then StepResult(s, [], false)
    else
      var item := s.queue.cache[key];
      if item.header.status != Pending then
        StepResult(s.(queue := RemoveItem(s.queue, TrackingId(item))), [Downlink(item)], false)
      else if item.request.startTime.None? then StepResult(s, [], true)
      else if !Due(item.request.startTime.value, now) then StepResult(s, [], false)
      else
        var p := ProcessSpec(env, faults, s.objects, s.files, item, now);
        StepResult(State(ApplyOps(s.queue, p.ops), p.objects, p.files), p.effects, p.aborted)
  }

  /** A finished item is drained under its own key: with keys matching, it is gone from the index afterwards. */
  lemma DrainedItemLeaves(env: ProcessorEnv, faults: Faults, s: State, key: string, now: Ticks)
    requires KeysMatch(s.queue.cache)
    requires key in s.queue.cache && s.queue.cache[key].header.status != Pending
    ensures var r := TickStep(env, faults, s, key, now);
            key !in r.state.queue.cache && StoreName(key) !in r.state.queue.store
            && r.state.objects == s.objects && r.effects == [Downlink(s.queue.cache[key])]
  {
  }

  /** The tick over the keys in enumeration order; an exception ends it early. */
  function TickSpec(env: ProcessorEnv, faults: Faults, s: State, order: seq<string>, now: Ticks): (r: StepResult)
    decreases |order|
  {
    if |order| == 0 then StepResult(s, [], false)
    else
      var first := TickStep(env, faults, s, order[0], now);
      if first.aborted then first
      else
        var rest := TickSpec(env, faults, first.state, order[1..], now);
        StepResult(rest.state, first.effects + rest.effects, rest.aborted)
  }

  /**
   * Each tick keeps the index and the persistent cache in step: keys match
   * and every Pending entry is saved as it is.
   */
  lemma {:induction false} TickKeepsInStep(env: ProcessorEnv, faults: Faults, s: State, order: seq<string>, now: Ticks)
    requires InStep(s.queue)
    ensures InStep(TickSpec(env, faults, s, order, now).state.queue)
    decreases |order|
  {
    if |order| > 0 {
      var key := order[0];
      var first := TickStep(env, faults, s, key, now);
      if key in s.queue.cache {
        var item := s.queue.cache[key];
        if item.header.status != Pending {
          RemoveKeepsInStep(s.queue, TrackingId(item));
        } else if item.request.startTime.Some? && Due(item.request.startTime.value, now) {
          ApplyOpsKeepsInStep(s.queue, ProcessSpec(env, faults, s.objects, s.files, item, now).ops);
        }
      }
      if !first.aborted {
        TickKeepsInStep(env, faults, first.state, order[1..], now);
      }
    }
  }

  // ---------------------------------------------------------------------
  // The processor

  class DeployRequestProcessor {
    var cache: Cache
    var store: Store
    const env: ProcessorEnv
    const cluster: Cluster
    const fs: FileSystem

    /** Start-up: optionally purge the persistent cache, then reload the index from it. */
    constructor (env: ProcessorEnv, cluster: Cluster, fs: FileSystem, store: Store, names: seq<string>)
      ensures this.env == env && this.cluster == cluster && this.fs == fs
      ensures this.store == (if env.purgeScheduleOnBootup then map[] else store)
      ensures cache == Loaded(map[], this.store, names)
    {
      this.env := env;
      this.cluster := cluster;
      this.fs := fs;
      this.store := if env.purgeScheduleOnBootup then map[] else store;
      this.cache := map[];
      new;
      PopulateCacheFromDisk(names);
    }

    function Contents(): Queue
      reads this
    {
      Queue(cache, store)
    }

    method PopulateCacheFromDisk(names: seq<string>)
      modifies this
      ensures cache == Loaded(old(cache), store, names)
      ensures store == old(store)
    {
      var i := 0;
      while i < |names|
        invariant 0 <= i <= |names|
        invariant store == old(store)
        invariant cache == Loaded(old(cache), store, names[..i])
      {
        var n := names[i];
        assert names[..i + 1][..i] == names[..i];
        if StartsWith(n, CachePrefix) && n in store && store[n].Some? {
          var response := store[n].value;
          cache := cache[TrackingId(response) := response];
        }
        i := i + 1;
      }
      assert names[..i] == names;
    }

    method CommitToCache(item: DeployResponse)
      modifies this
      ensures Contents() == CommitItem(old(Contents()), item)
    {
      cache := cache[TrackingId(item) := item];
      store := store[StoreName(TrackingId(item)) := Some(item)];
    }

    method RemoveFromCache(trackingId: string)
      modifies this
      ensures Contents() == RemoveItem(old(Contents()), trackingId)
    {
      cache := cache - {trackingId};
      store := store - {StoreName(trackingId)};
    }

    method QueueDeployment(item: DeployResponse) returns (r: DeployResponse)
      modifies this
      ensures r == WithStatus(item, Pending)
      ensures Contents() == CommitItem(old(Contents()), r)
    {
      r := WithStatus(item, Pending);
      CommitToCache(r);
    }

    method ProcessContainerImage(image: AppContainerImage) returns (r: Result<(), string>)
      modifies fs
      ensures r == ImportImage(env, image)
      ensures fs.paths == if r.Ok? then old(fs.paths) - {TarballPath(env, image)} else old(fs.paths)
    {
      var tarballPath := PathCombine(env.scheduleImportDirectory, image.tarballFileName);
      if IsBlank(env.regctlApp) {
        return Err(RegctlMissingMessage(env, image));
      }
      var run := env.regctl(ImportArguments(env, image));
      if run.exitCode > 0 {
        return Err(RegctlFailedMessage(env, image, run));
      }
      fs.paths := fs.paths - {tarballPath};
      r := Ok(());
    }

    /** The recurrence, when the item has a schedule. */
    method QueueRecurrence(item: DeployResponse, now: Ticks) returns (aborted: bool)
      modifies this
      ensures var r := Recurrence(env, item, now);
              Contents() == ApplyOps(old(Contents()), r.0) && aborted == r.1
    {
      if !IsBlank(item.request.schedule) {
        var next := env.nextOccurrence(item.request.schedule, now + TicksPerSecond);
        if next.None? {
          return true;
        }
        var nextDeployment := ScheduleClone(item, env.freshId(TrackingId(item), 1), next.value);
        var queued := QueueDeployment(nextDeployment);
        ApplyOpsSnoc(old(Contents()), [], OpCommit(queued));
      }
      aborted := false;
    }

    /** The follow-ups and the final commit, once the deployment succeeded and the plugins passed it on. */
    method QueueFollowUps(item: DeployResponse, now: Ticks) returns (aborted: bool)
      modifies this
      ensures var f := FollowUps(env, item, now);
              Contents() == ApplyOps(old(Contents()), if f.1 then f.0 else f.0 + [OpCommit(item)])
              && aborted == f.1
    {
      ghost var recur := Recurrence(env, item, now);
      aborted := QueueRecurrence(item, now);
      if aborted {
        return;
      }
      ghost var ops := recur.0;
      var req := item.request;
      if (req.deployAction == Apply || req.deployAction == Create) && req.maxDuration.Some? {
        if req.startTime.None? {
          return true;
        }
        var deleteDeployment := DeleteClone(item, env.freshId(TrackingId(item), 2),
                                            req.startTime.value + DurationTicks(req.maxDuration.value));
        var queued := QueueDeployment(deleteDeployment);
        ApplyOpsSnoc(old(Contents()), ops, OpCommit(queued));
        ops := ops + [OpCommit(queued)];
      }
      assert ops == FollowUps(env, item, now).0;
      CommitToCache(item);
      ApplyOpsSnoc(old(Contents()), ops, OpCommit(item));
    }

    /** From the main deployment on. */
    method DeployAndFollowUp(item: DeployResponse, now: Ticks) returns (aborted: bool)
      modifies this, cluster, fs
      ensures var p := DeployStage(env, cluster.faults, old(cluster.objects), old(fs.paths), [], item, now);
              Contents() == ApplyOps(old(Contents()), p.ops) && cluster.objects == p.objects
              && fs.paths == p.files && aborted == p.aborted
    {
      ghost var p := DeployStage(env, cluster.faults, old(cluster.objects), old(fs.paths), [], item, now);
      var done := DeployItem(cluster, env.deploy, item);
      if done.header.status != Successful {
        CommitToCache(done);
        ApplyOpsSnoc(old(Contents()), [], OpCommit(done));
        assert p.ops == [] + [OpCommit(done)];
        return false;
      }
      // DeployItem updated the response object the index holds: the entry is
      // now the deployed one, and nothing has been saved yet.
      cache := cache[TrackingId(done) := done];
      ghost var marked := Contents();
      ApplyOpsSnoc(old(Contents()), [], OpMark(done));
      assert [] + [OpMark(done)] == [OpMark(done)];
      assert marked == ApplyOps(old(Contents()), [OpMark(done)]);
      var post := CallPostKubernetesDeployment(env.plugins, (Some(done.request), Some(done)));
      if post.0.None? || post.1.None? {
        assert p.ops == [OpMark(done)];
        return false;
      }
      ghost var f := FollowUps(env, done, now);
      ghost var rest := if f.1 then f.0 else f.0 + [OpCommit(done)];
      assert p.ops == [OpMark(done)] + rest;
      aborted := QueueFollowUps(done, now);
      assert Contents() == ApplyOps(marked, rest);
      ApplyOpsAppend(old(Contents()), [OpMark(done)], rest);
    }

    method ProcessDeploymentItem(item: DeployResponse, now: Ticks) returns (aborted: bool, effects: seq<Effect>)
      modifies this, cluster, fs
      ensures var p := ProcessSpec(env, cluster.faults, old(cluster.objects), old(fs.paths), item, now);
              Contents() == ApplyOps(old(Contents()), p.ops) && cluster.objects == p.objects
              && fs.paths == p.files && effects == p.effects && aborted == p.aborted
    {
      var pre := CallPreKubernetesDeployment(env.plugins, (Some(item.request), Some(item)));
      if pre.0.None? || pre.1.None? {
        RemoveFromCache(TrackingId(item));
        ApplyOpsSnoc(old(Contents()), [], OpRemove(TrackingId(item)));
        assert [] + [OpRemove(TrackingId(item))] == [OpRemove(TrackingId(item))];
        return false, [];
      }
      aborted, effects := ImportAndBuild(pre.1.value.(request := pre.0.value), now);
    }

    /** After the pre-deployment plugins: the container image import, the build branch, and the rest. */
    method ImportAndBuild(item: DeployResponse, now: Ticks) returns (aborted: bool, effects: seq<Effect>)
      modifies this, cluster, fs
      ensures var p := ImageStage(env, cluster.faults, old(cluster.objects), old(fs.paths), item, now);
              Contents() == ApplyOps(old(Contents()), p.ops) && cluster.objects == p.objects
              && fs.paths == p.files && effects == p.effects && aborted == p.aborted
    {
      var deploymentItem := item;
      var req := item.request;
      if req.appContainerImage.Some? && IsImageAction(req.deployAction) {
        var image := req.appContainerImage.value;
        var imported := ProcessContainerImage(image);
        if imported.Err? {
          var failed := WithOutcome(item, GeneralFailure, imported.error);
          CommitToCache(failed);
          ApplyOpsSnoc(old(Contents()), [], OpCommit(failed));
          assert [] + [OpCommit(failed)] == [OpCommit(failed)];
          return false, [];
        }
        if req.deployAction == LoadImageTarball {
          var loaded := WithOutcome(item, Successful, LoadedImageMessage(image));
          CommitToCache(loaded);
          ApplyOpsSnoc(old(Contents()), [], OpCommit(loaded));
          assert [] + [OpCommit(loaded)] == [OpCommit(loaded)];
          return false, [];
        }
      }
      assert ImageStage(env, cluster.faults, old(cluster.objects), old(fs.paths), item, now)
          == BuildStage(env, cluster.faults, cluster.objects, fs.paths, item, now);

      if req.appContainerBuild.Some? && IsImageAction(req.deployAction) {
        deploymentItem := DeployItem(cluster, env.deploy, deploymentItem);
      }
      aborted, effects := ContextAndDeploy(deploymentItem, now);
    }

    /** From the context file on. */
    method ContextAndDeploy(item: DeployResponse, now: Ticks) returns (aborted: bool, effects: seq<Effect>)
      modifies this, cluster, fs
      ensures var p := ContextStage(env, cluster.faults, old(cluster.objects), old(fs.paths), item, now);
              Contents() == ApplyOps(old(Contents()), p.ops) && cluster.objects == p.objects
              && fs.paths == p.files && effects == p.effects && aborted == p.aborted
    {
      if !item.request.appContext.ContextFile? {
        aborted := DeployAndFollowUp(item, now);
        return aborted, [];
      }
      if PathCombine(env.scheduleImportDirectory, item.request.appContext.fileName) in fs.paths {
        aborted, effects := UplinkContextFile(item, now);
      } else {
        aborted := MissingContextFile(item, now);
        effects := [];
      }
    }

    /** A context file that is not there: fatal when required, and for an uplink. */
    method MissingContextFile(item: DeployResponse, now: Ticks) returns (aborted: bool)
      requires item.request.appContext.ContextFile?
      requires PathCombine(env.scheduleImportDirectory, item.request.appContext.fileName) !in fs.paths
      modifies this, cluster, fs
      ensures var p := ContextStage(env, cluster.faults, old(cluster.objects), old(fs.paths), item, now);
              Contents() == ApplyOps(old(Contents()), p.ops) && cluster.objects == p.objects
              && fs.paths == p.files && p.effects == [] && aborted == p.aborted
    {
      var req := item.request;
      var source := PathCombine(env.scheduleImportDirectory, req.appContext.fileName);
      if req.appContext.required {
        var failed := WithOutcome(item, GeneralFailure, ContextMissingMessage(source));
        CommitToCache(failed);
        ApplyOpsSnoc(old(Contents()), [], OpCommit(failed));
        return false;
      }
      if req.deployAction == UplinkFile {
        var missing := WithOutcome(item, NotFound, UplinkMissingMessage(req.appContext.fileName, req.appName));
        CommitToCache(missing);
        ApplyOpsSnoc(old(Contents()), [], OpCommit(missing));
        return false;
      }
      aborted := DeployAndFollowUp(item, now);
    }

    /** A context file that is there: moved to the outbox and uplinked, then the deployment unless it was the uplink itself. */
    method UplinkContextFile(item: DeployResponse, now: Ticks) returns (aborted: bool, effects: seq<Effect>)
      requires item.request.appContext.ContextFile?
      requires PathCombine(env.scheduleImportDirectory, item.request.appContext.fileName) in fs.paths
      modifies this, cluster, fs
      ensures var p := ContextStage(env, cluster.faults, old(cluster.objects), old(fs.paths), item, now);
              Contents() == ApplyOps(old(Contents()), p.ops) && cluster.objects == p.objects
              && fs.paths == p.files && effects == p.effects && aborted == p.aborted
    {
      var req := item.request;
      var fileName := req.appContext.fileName;
      var source := PathCombine(env.scheduleImportDirectory, fileName);
      fs.paths := (fs.paths - {source}) + {PathCombine(env.outboxDirectory, fileName)};
      effects := [Uplink(env.freshId(TrackingId(item), 0), req.header.correlationId, fileName, req.appName)];
      if req.deployAction == UplinkFile {
        var sent := WithOutcome(item, Successful, UplinkedMessage(fileName, req.appName));
        CommitToCache(sent);
        ApplyOpsSnoc(old(Contents()), [], OpCommit(sent));
        return false, effects;
      }
      aborted := DeployAndFollowUp(item, now);
    }

    /** The loop body for one key. */
    method TickOne(key: string, now: Ticks) returns (aborted: bool, effects: seq<Effect>)
      modifies this, cluster, fs
      ensures TickStep(env, cluster.faults, State(old(Contents()), old(cluster.objects), old(fs.paths)), key, now)
           == StepResult(State(Contents(), cluster.objects, fs.paths), effects, aborted)
    {
      if key !in cache {
        return false, [];
      }
      var item := cache[key];
      if item.header.status != Pending {
        RemoveFromCache(TrackingId(item));
        return false, [Downlink(item)];
      }
      if item.request.startTime.None? {
        return true, [];
      }
      if !Due(item.request.startTime.value, now) {
        return false, [];
      }
      aborted, effects := ProcessDeploymentItem(item, now);
    }

    /** One pass of the polling loop over the index keys, in the order the enumeration yields them. */
    method Tick(order: seq<string>, now: Ticks) returns (aborted: bool, effects: seq<Effect>)
      modifies this, cluster, fs
      ensures TickSpec(env, cluster.faults, State(old(Contents()), old(cluster.objects), old(fs.paths)), order, now)
           == StepResult(State(Contents(), cluster.objects, fs.paths), effects, aborted)
    {
      ghost var s0 := State(Contents(), cluster.objects, fs.paths);
      aborted, effects := false, [];
      var i := 0;
      while i < |order|
        invariant 0 <= i <= |order|
        invariant var rest := TickSpec(env, cluster.faults, State(Contents(), cluster.objects, fs.paths), order[i..], now);
                  TickSpec(env, cluster.faults, s0, order, now) == StepResult(rest.state, effects + rest.effects, rest.aborted)
      {
        ghost var s := State(Contents(), cluster.objects, fs.paths);
        ghost var pending := effects;
        assert order[i..][0] == order[i] && order[i..][1..] == order[i + 1..];
        var a, e := TickOne(order[i], now);
        effects := effects + e;
        if a {
          assert TickSpec(env, cluster.faults, s, order[i..], now) == StepResult(State(Contents(), cluster.objects, fs.paths), e, true);
          return true, effects;
        }
        ghost var rest := TickSpec(env, cluster.faults, State(Contents(), cluster.objects, fs.paths), order[i + 1..], now);
        assert TickSpec(env, cluster.faults, s, order[i..], now) == StepResult(rest.state, e + rest.effects, rest.aborted);
        assert pending + (e + rest.effects) == effects + rest.effects;
        i := i + 1;
      }
      assert order[i..] == [];
    }
  }
}
