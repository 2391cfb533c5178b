# Platform-Deployment, modelled in Dafny

Platform-Deployment is the Azure Orbital Space SDK service that installs
payload applications on a spacecraft's Kubernetes cluster. Operators uplink
*schedule files* into an inbox directory. Each file is a JSON array of
deploy requests, with the manifests, image tarballs and Dockerfiles they
name placed beside it. The service has two background loops:

- The schedule processor scans the directory. For each request it reads the
  fields case-insensitively, fills in defaults and validates what is
  required. It then renames the file `.processed` or `.error` and reports
  the outcome. A file that is not there yet is left for the next scan; one
  that is still being copied when the scan opens it is rejected.
- The deploy request processor keeps a durable queue of accepted requests.
  The queue is an in-memory index, written through to a persistent cache
  under `deployCache_<trackingId>`. On each poll it drains finished entries,
  skips entries that are not yet due, and processes the rest:
  - plugin hooks run first;
  - then come an optional image import with `regctl` and the application
    context file;
  - then the Kubernetes apply, create, delete, restart or build;
  - on success, follow-ups are queued: the next run of a cron schedule, and
    an automatic delete after a maximum duration.

The project models these pieces, one module per source file:

| module | file | source |
|---|---|---|
| `TimeUtils` | `time_utils.dfy` | minute rounding on ticks |
| `PluginDelegates` | `plugin_delegates.dfy` | plugin delegates and the plugin chain |
| `TemplateUtil` | `template_util.dfy` | helm-rendered annotations on deployments |
| `K8sClient` | `k8s_client.dfy` | the Kubernetes client |
| `DeployRequests` | `deploy_request_processor.dfy` | the queue and its tick |
| `ScheduleItems` | `schedule_items.dfy` | one schedule item, read and validated |
| `ScheduleFiles` | `schedule_processor.dfy` | schedule files and the scan |

Shared vocabulary lives in four more modules:

- `Common`: Option and Result, plus the .NET string operations on
  `seq<char>`;
- `Messages`: the protobuf messages as datatypes;
- `Kube`: the Kubernetes objects the client handles;
- `FileSystems`: the file system, as the set of paths that exist.

The model follows the shape of the code:

- **Functions** model the pure code: rounding, the delegates, the parsing
  pipelines and token replacement.
- **Classes** model the state the source changes in place, each with
  methods proved against specification functions:
  - `DeployRequests.DeployRequestProcessor`, with the index and the
    persistent cache as maps;
  - `K8sClient.Cluster`, the API server;
  - `FileSystems.FileSystem`;
  - `ScheduleFiles.ScheduleProcessor`.
- **Loops** in the source stay loops. These are:
  - the tick over the queue;
  - the apply loop of `DeployToKubernetes`;
  - the build-argument loops;
  - the password loop;
  - the volume-injection loops;
  - the copy wait;
  - the item loop of a schedule file;
  - the scan over the listed files.

Some things the code does are not under the service's control. They enter
as parameters of the model:

- the clock;
- GUIDs;
- cron's next occurrence;
- helm and regctl runs;
- the YAML and JSON libraries;
- file readiness;
- per-call API failures.

`DeployToKubernetes` hands each object to `PatchViaYamlObject`,
`DeleteViaYamlObject` or `CreateViaYamlObject`. These treat persistent
volumes, persistent volume claims and service accounts like any other kind
(src/Utils/K8sClient.cs:152-311). None of them checks first whether such an
object exists, and none creates companion objects next to a deployment.

Consequences of the code as written, proved as lemmas:

- **The build branch never sees BuildImage.** The build branch of
  `ProcessDeploymentItem` admits only LoadImageTarball, Apply and Create, so
  its inner BuildImage test can never hold (`DeployRequests.BuildTestUnreachable`).
- **A timed-out copy can be a null dereference.** When a manifest's copy
  times out, validation reads `AppContextFile.Required`. A request without a
  context file dereferences null there, and its schedule file is rejected
  (`ScheduleItems.ManifestCopyTimeout`).
- **A retried file can retry forever.** Reading a manifest deletes it. If a
  later item of the same file then asks for a retry, the earlier item's
  manifest is gone on the next scan, so the file keeps waiting for it
  (`ScheduleFiles.ScheduleProcessor.ProcessScheduleFile`, `ScheduleItems.MissingManifestRetries`).
- **A file still being copied is rejected, not waited for.** The copy
  wait's only handler (src/Services/ScheduleProcessor.cs:147) catches the
  I/O errors that are not sharing violations, to rethrow them. Its `when`
  filter lets the sharing violation of a file still being written escape
  at the first attempt, although the comment there says such a file should
  be waited for. A schedule file in that state is renamed `.error` and
  rejected (`ScheduleFiles.StillCopyingScheduleRejected`). A manifest in
  that state fails validation the same way (`ScheduleItems.ManifestStillCopying`).
  The wait the comment describes is kept beside it as
  `ScheduleItems.RetryingWait`. The two agree unless the first attempt
  meets a sharing violation (`ScheduleItems.WaitsAgreeWithoutSharingViolation`).
  A file locked at the first attempt and open at the second tells them
  apart (`ScheduleItems.SharingViolationNotRetried`).
- **The schedule file is queued twice.** A scan queues each accepted file's
  items twice: once as the file is processed, and again after all files are
  done. Because queueing is an upsert, the second pass changes nothing
  when no tick runs in between (`ScheduleFiles.QueueTwiceIsQueueOnce`). A
  tick in between may already have finished an item in the index; the second
  pass then sets it back to Pending and saves it again
  (src/Services/DeployRequestProcessor.cs:57-60).

The substance of the proofs is in a few places:

- the queue invariants `DeployRequests.ApplyOpsKeepsConsistent`,
  `DeployRequests.ApplyOpsKeepsInStep` and `DeployRequests.TickKeepsInStep`;
- the reload round trip `DeployRequests.PopulateRoundTrip`;
- the loops of the classes, each proved against its specification function,
  above all `DeployRequests.DeployRequestProcessor.Tick`;
- the parsing round trips `TemplateUtil.ParseRenderRoundTrip` and
  `TemplateUtil.LinesRoundTrip`.

The scenario lemmas (`NulledByPrePlugins`, `ContextFileRules` and the like)
follow by unfolding the specification functions.

## Model

| member | source | states |
|---|---|---|
| TimeUtils.RoundDown | src/Utils/TimeUtils.cs:22-25 | The result is a multiple of the interval, not after the input, and less than one interval before it |
| TimeUtils.RoundUp | src/Utils/TimeUtils.cs:33-37 | The result is a multiple of the interval, not before the input, and less than one interval after it; it equals the input exactly when the input is a multiple |
| TimeUtils.RoundDownUnique | src/Utils/TimeUtils.cs:22-25 | Rounding down gives the only multiple in the interval that ends at the input |
| TimeUtils.RoundUpUnique | src/Utils/TimeUtils.cs:33-37 | Rounding up gives the only multiple in the interval that starts at the input |
| TimeUtils.RoundDownIdempotent | src/Utils/TimeUtils.cs:22-25 | Rounding down twice is rounding down once |
| TimeUtils.RoundDownMonotone | src/Utils/TimeUtils.cs:22-25 | Rounding down preserves order, which the due check relies on |
| TimeUtils.RoundUpDownGap | src/Utils/TimeUtils.cs:22-37 | Rounding up and rounding down agree on multiples and are exactly one interval apart everywhere else |
| TimeUtils.CalculateCacheNameFromTimeStamp | src/Utils/TimeUtils.cs:44-47 | The cache name is "scheduleQueue_" followed by the formatted stamp of the minute the timestamp falls in, rounded down |
| TimeUtils.SuffixSeesOnlyTheMinute | src/Utils/TimeUtils.cs:54-57 | `CalculateTimeSuffixFromTimeStamp` gives a timestamp and its minute the same suffix |
| TimeUtils.SameMinuteSameBucket | src/Utils/TimeUtils.cs:44-57 | Timestamps within the same minute get the same cache name |
| TimeUtils.SameBucketIffSameMinute | src/Utils/TimeUtils.cs:44-57 | Two timestamps get the same cache name exactly when they round down to the same minute |
| PluginDelegates.DeploymentDelegate | src/PluginDelegates/PreKubernetesDeployment.cs:4-25 | A null request passes through unchanged and the plugin is not called; a normal return replaces the pair, possibly with nulls; an exception keeps the input pair; a null response alone still reaches the plugin |
| PluginDelegates.ProcessScheduleFile | src/PluginDelegates/ProcessScheduleFile.cs:4-24 | A null path passes through; a normal return replaces the path, possibly with null; an exception keeps the input path |
| PluginDelegates.NulledRequestShortCircuits | src/PluginDelegates/PreKubernetesDeployment.cs:6-9 | Once the request is null, a chain of pre- or post-deployment delegates of any length leaves the pair unchanged |
| PluginDelegates.NulledPathShortCircuits | src/PluginDelegates/ProcessScheduleFile.cs:7-10 | Once a path is null, every later delegate in the chain passes null through |
| PluginDelegates.ChainIgnoresHooksOnNull | src/PluginDelegates/PreKubernetesDeployment.cs:6-9 | For a null request the chain's result does not depend on which plugins it holds |
| PluginDelegates.ThrowingPluginsKeepInput | src/PluginDelegates/PreKubernetesDeployment.cs:12-24 | A chain of plugins that all throw returns the input pair |
| PluginDelegates.ChainConcatenates | src/Services/ScheduleProcessor.cs:183-186 | Running two plugin lists one after the other equals running their concatenation |
| TemplateUtil.GenerateTemplate | src/Utils/TemplateUtil.cs:77-112 | Helm receives `template <chart>` and then one ` --set k=v` per value; a positive exit code is an error carrying helm's output, any other code returns the output |
| TemplateUtil.SetFlagsInOrder | src/Utils/TemplateUtil.cs:84-86 | `SetFlags` is the front-to-back loop: one ` --set k=v` flag per value, in the order of the values |
| TemplateUtil.Lines | src/Utils/TemplateUtil.cs:123 | The lines are exactly the non-empty pieces between line breaks, in order: a subsequence of the split that holds every non-empty piece as often as it occurs and no empty one; each line is break-free |
| TemplateUtil.Pieces | src/Utils/TemplateUtil.cs:123 | The output splits into at least one break-free piece, and joining the pieces with line breaks gives the output back |
| TemplateUtil.PiecesOfJoin | src/Utils/TemplateUtil.cs:123 | Splitting break-free pieces joined with line breaks gives back exactly those pieces |
| TemplateUtil.NonEmpty | src/Utils/TemplateUtil.cs:123 | Dropping empty entries gives a subsequence of the input whose multiset is the input's with the empty entries removed, so every non-empty entry is kept, in order and with its multiplicity; a list with no empty entry comes back as it is |
| TemplateUtil.LinesFromPieces | src/Utils/TemplateUtil.cs:123 | There is a break-free split joining back to the output whose non-empty pieces, in order and with multiplicity, are exactly the lines |
| TemplateUtil.LinesRoundTrip | src/Utils/TemplateUtil.cs:123 | Splitting non-empty break-free lines joined with line breaks gives back exactly those lines |
| TemplateUtil.EntriesSelectWhere | src/Utils/TemplateUtil.cs:124-125 | The entries are the lines split at the first ':' with the lines without a ':' dropped, as the Select and the Where compute them |
| TemplateUtil.ToDictionary | src/Utils/TemplateUtil.cs:126 | Building the map succeeds exactly when the keys are distinct; on success it holds the entries in order, otherwise the error names a key that repeats |
| TemplateUtil.ParseAnnotations | src/Utils/TemplateUtil.cs:121-126 | Succeeds exactly when the entries of the output's lines have distinct keys, and then returns those entries in order. A failure names a key that two entries share. Each key is trimmed and has no ':'; each value was trimmed and then had every '"' removed |
| TemplateUtil.EntriesShaped | src/Utils/TemplateUtil.cs:124-126 | Every entry taken from a line containing ':' has the annotation shape |
| TemplateUtil.EmptyOutputNoAnnotations | src/Utils/TemplateUtil.cs:121 | Empty helm output gives an empty annotation map |
| TemplateUtil.ParseRenderRoundTrip | src/Utils/TemplateUtil.cs:121-126 | Parsing the `key: value` lines helm prints (`RenderAnnotations`) for distinct printable annotations returns exactly those annotations, in order |
| TemplateUtil.GenerateAnnotations | src/Utils/TemplateUtil.cs:114-127 | Returns the chart rendered with the two payload-app annotation values and then parsed; on success the keys are distinct |
| TemplateUtil.AddIfAbsentKeeps | src/Utils/TemplateUtil.cs:69-72 | `AddIfAbsent` never overwrites or drops an existing value; the keys afterwards are the old keys plus the annotation keys |
| TemplateUtil.AddIfAbsentAdds | src/Utils/TemplateUtil.cs:69-72 | A key that was absent gets the value of its annotation |
| TemplateUtil.AddIfAbsentIdempotent | src/Utils/TemplateUtil.cs:69-72 | Adding the same annotations a second time changes nothing |
| TemplateUtil.UpdateDeployment | src/Utils/TemplateUtil.cs:55-75 | A deployment with a blank name is refused before helm runs; a helm failure is the result; otherwise the annotations are added to both metadata and template metadata |
| TemplateUtil.Deployments | src/Utils/TemplateUtil.cs:47-48 | Filtering keeps exactly the Deployment objects, and only objects from the input |
| TemplateUtil.DeploymentsInOrder | src/Utils/TemplateUtil.cs:47-48 | The deployments come out in their input order and each as often as it occurs there: a subsequence holding every Deployment of the input |
| TemplateUtil.UpdateAll | src/Utils/TemplateUtil.cs:50 | On success each deployment is its annotated self, position by position; failure happens exactly when a name is blank or helm failed on a non-empty list |
| TemplateUtil.UpdateAllErrSticks | src/Utils/TemplateUtil.cs:50 | A failure among the first deployments is the failure of the whole list |
| TemplateUtil.GenerateKubernetesObjectsFromDeployment | src/Utils/TemplateUtil.cs:43-53 | Returns the YAML's deployments, each passed through the update, with the first failure ending the list |
| TemplateUtil.GeneratedAreAnnotatedDeployments | src/Utils/TemplateUtil.cs:43-72 | Exactly the deployments come out, in order, each with its name and containers kept, its existing annotations unchanged, and its pod template given an annotation dictionary |
| K8sClient.PatchSpec | src/Utils/K8sClient.cs:152-212 | Patch changes only the object's key. An unsupported kind makes no call. A namespaced kind without a namespace is refused. On success the cluster holds the object: 422 falls back to delete then create, 404 to create, and anything else is rethrown |
| K8sClient.DeleteSpec | src/Utils/K8sClient.cs:213-262 | Delete changes only the object's key and leaves the cluster unchanged on error. An unsupported kind makes no call. A missing namespace is refused. A delete that succeeds removes the key, and not-found counts as success |
| K8sClient.CreateSpec | src/Utils/K8sClient.cs:264-311 | Create changes only the object's key and leaves the cluster unchanged on error. A missing namespace is refused. On success the cluster holds the object, and creating an object that already exists fails |
| K8sClient.PatchViaYamlObject | src/Utils/K8sClient.cs:152-212 | The method's error and new cluster are those of the patch specification |
| K8sClient.DeleteViaYamlObject | src/Utils/K8sClient.cs:213-262 | The method's error and new cluster are those of the delete specification |
| K8sClient.CreateViaYamlObject | src/Utils/K8sClient.cs:264-311 | The method's error and new cluster are those of the create specification |
| K8sClient.ApplyObject | src/Utils/K8sClient.cs:127-139 | One object changes only its own key. An action other than Apply, Delete and Create throws without a call; an unsupported kind makes no call; a successful Apply or Create leaves the object in the cluster |
| K8sClient.ApplyAll | src/Utils/K8sClient.cs:119-140 | With at least one object, an action other than the three throws at the first object and changes nothing |
| K8sClient.ApplyAllTouchesOnlyItsKeys | src/Utils/K8sClient.cs:119-140 | A run, failed or not, changes no key but those of its supported objects |
| K8sClient.ApplyViaYamlObject | src/Utils/K8sClient.cs:127-139 | Dispatches one object on the action: Apply patches, Delete deletes, Create creates, and any other action throws |
| K8sClient.ApplyObjects | src/Utils/K8sClient.cs:119-140 | The loop applies the objects in list order and stops at the first failure |
| K8sClient.ApplyAllErrSticks | src/Utils/K8sClient.cs:120-147 | A failure among the first objects is the outcome of the whole run, so later objects are not touched |
| K8sClient.ApplyAllFirstFailure | src/Utils/K8sClient.cs:120-147 | A failed run failed at one object `k`: the run over the objects before it succeeds, the run up to and including it fails, and the whole run's outcome (error and objects) is that of the run up to `k`, so later objects are never sent and nothing is rolled back |
| K8sClient.ApplyAllFailsAt | src/Utils/K8sClient.cs:120-147 | The outcome of a failed run is exactly the failing object's create/patch/delete applied to the objects the successful earlier ones left |
| K8sClient.HealthyApplyUpserts | src/Utils/K8sClient.cs:120-141 | On a healthy cluster, applying objects whose namespaces are set upserts each one in order |
| K8sClient.ApplyTwiceIsApplyOnce | src/Utils/K8sClient.cs:127-130 | On a healthy cluster, Apply is idempotent |
| K8sClient.HealthyDeleteRemoves | src/Utils/K8sClient.cs:256-257 | On a healthy cluster, Delete removes exactly the objects' keys, whether or not they were present |
| K8sClient.DeleteTwiceIsDeleteOnce | src/Utils/K8sClient.cs:256-257 | Deleting twice is deleting once |
| K8sClient.CreatedArePresent | src/Utils/K8sClient.cs:134-136 | After a successful Create run, every supported object is in the cluster |
| K8sClient.CreateTwiceFails | src/Utils/K8sClient.cs:307-310 | Creating the same objects again fails and changes nothing, whatever the faults |
| K8sClient.FixedBuildArgs | src/Utils/K8sClient.cs:359-369 | The build job has eleven fixed arguments |
| K8sClient.BuildArgFlags | src/Utils/K8sClient.cs:392-394 | There is one `--build-arg=k=v` flag per build argument, in order |
| K8sClient.BuildJobArgs | src/Utils/K8sClient.cs:359-394 | The job's arguments are the fixed list followed by one flag per build argument, in order |
| K8sClient.BuildJob | src/Utils/K8sClient.cs:339-389 | The build job is a Job in namespace "core" with one container that carries those arguments |
| K8sClient.BuildSpec | src/Utils/K8sClient.cs:337-403 | A request without a build section throws before any call, and a failed create leaves the cluster as it was |
| K8sClient.BuildContainerImage | src/Utils/K8sClient.cs:337-403 | The method's error and new cluster are those of the build specification |
| K8sClient.Restarted | src/Utils/K8sClient.cs:96 | The restart annotation is set to the stamp, every other template annotation is kept, and nothing else changes |
| K8sClient.RestartSpec | src/Utils/K8sClient.cs:93-100 | A restart changes only the named deployment, and only on success, where it is replaced by its stamped self. A deployment read back without pod-template annotations is a null reference before the replace, and nothing changes |
| K8sClient.Restart | src/Utils/K8sClient.cs:93-100 | The method's error and new cluster are those of the restart specification |
| K8sClient.DeployOutcome | src/Utils/K8sClient.cs:53-150 | The request, the tracking id and the correlation id are never changed. The status ends Successful, with the message untouched, exactly when the action's step raised nothing and a build has the service enabled; otherwise it is GeneralFailure. Build with the service disabled gives the fixed message |
| K8sClient.DeployToKubernetes | src/Utils/K8sClient.cs:53-150 | The response and the new cluster are those of the deployment outcome |
| K8sClient.WithDefaults | src/Utils/K8sClient.cs:39-40 | A blank group label becomes the app name and a blank customer tracking id becomes the tracking id; nothing else changes |
| K8sClient.WithDefaultsIdempotent | src/Utils/K8sClient.cs:39-40 | Defaulting twice is defaulting once |
| K8sClient.DeployItem | src/Utils/K8sClient.cs:38-51 | Deploys the defaulted item |
| K8sClient.GenerateAPassword | src/Utils/K8sClient.cs:316-332 | The password has twelve characters; each is the alphabet character the random byte indexes modulo 60, so each is in the alphabet |
| K8sClient.AlphabetSize | src/Utils/K8sClient.cs:318 | The alphabet has 60 characters |
| K8sClient.LookAlikesExcluded | src/Utils/K8sClient.cs:318 | Neither 'l' nor 'I' is in the alphabet |
| K8sClient.PasswordAvoidsLookAlikes | src/Utils/K8sClient.cs:316-332 | No password contains 'l' or 'I' |
| K8sClient.TokenValues | src/Utils/K8sClient.cs:729-737 | There are nine token replacements, each of a SPACEFX-TEMPLATE_ token |
| K8sClient.ReplaceTemplateTokens | src/Utils/K8sClient.cs:727-751 | Fails with a null reference exactly when there is no start time; otherwise a missing maximum duration becomes five hours and the request is otherwise unchanged |
| K8sClient.NameTokenPrefixesNamespaceToken | src/Utils/K8sClient.cs:729-730 | The name token is a prefix of the namespace token, so replacing the name first would leave "SPACE" behind |
| K8sClient.NamespaceTokenBecomesNamespace | src/Utils/K8sClient.cs:729-730 | In the source's order, the namespace token becomes exactly the namespace |
| K8sClient.ContextTokenCases | src/Utils/K8sClient.cs:739-748 | The context token becomes the base64 of a context string, `""` for a context file, and stays as it is with no context |
| K8sClient.AddMissing | src/Utils/K8sClient.cs:697-714 | The existing list is kept as a prefix; each appended item is a copy of a candidate whose name was not already there |
| K8sClient.AddMissingNames | src/Utils/K8sClient.cs:697-714 | The names afterwards are the old names plus the candidates' names |
| K8sClient.AddMissingNoOp | src/Utils/K8sClient.cs:697-714 | Candidates whose names are all present add nothing |
| K8sClient.AddMissingIdempotent | src/Utils/K8sClient.cs:697-714 | Adding the same candidates twice is adding them once |
| K8sClient.FirstNamed | src/Utils/K8sClient.cs:687 | Returns the index of the first container with the target name, or nothing when no container has it |
| K8sClient.InjectionTarget | src/Utils/K8sClient.cs:687-688 | The target is the first container with the target name, or index 0 when there is none |
| K8sClient.AppendMissingMounts | src/Utils/K8sClient.cs:697-701 | The mount loop appends each configured mount, as name and path only, unless its name is already present |
| K8sClient.AppendMissingVolumes | src/Utils/K8sClient.cs:710-714 | The volume loop appends each configured volume unless its name is already present |
| K8sClient.TokensIgnoreFilledDuration | src/Utils/K8sClient.cs:735-736 | With a start time the token pass succeeds, and running it again on the request it returns gives the same text and request |
| K8sClient.InjectionsOutcome | src/Utils/K8sClient.cs:680-717 | A pod without containers is an index error; then a request without a start time is a null reference. Otherwise the mounts and volumes are read from the YAML the token pass renders for the request, the missing ones are injected, and the request comes back with a missing maximum duration set to five hours |
| K8sClient.AddContainerAndVolumeInjections | src/Utils/K8sClient.cs:680-717 | The two token passes and injection loops give the outcome `InjectionsOutcome` states |
| K8sClient.InjectionsIdempotent | src/Utils/K8sClient.cs:680-717 | Injecting twice is injecting once |
| FileSystems.FileName | src/Services/ScheduleProcessor.cs:98 | The file name is the part of the path after its last '/': it contains no '/', and the path is either that name or ends in '/' followed by it |
| FileSystems.FileNameWithoutExtension | src/Services/ScheduleProcessor.cs:501 | The name is the file name up to its last '.': no '/', a prefix of the file name, and either the whole file name (no '.') or followed there by '.' and a '.'-free extension |
| FileSystems.FileNameUnique | src/Services/ScheduleProcessor.cs:98 | Any '/'-free suffix that is the whole path or follows a '/' is the file name, so the file name is the only such part |
| FileSystems.FileNameWithoutExtensionUnique | src/Services/ScheduleProcessor.cs:501 | Any prefix of the file name meeting the same conditions is the name without extension |
| Messages.ResponseFromRequest | src/Services/ScheduleProcessor.cs:457 | The response carries the request and its tracking and correlation ids |
| DeployRequests.StoreName | src/Services/DeployRequestProcessor.cs:82 | The cache item name is "deployCache_" followed by the tracking id |
| DeployRequests.StoreNameInjective | src/Services/DeployRequestProcessor.cs:82 | Different tracking ids are saved under different names |
| DeployRequests.CommitItem | src/Services/DeployRequestProcessor.cs:80-83 | Afterwards the index holds the item under its tracking id and the persistent cache holds it under its name; every other key of both is unchanged |
| DeployRequests.RemoveItem | src/Services/DeployRequestProcessor.cs:89-92 | The key leaves the index and the persistent cache, and every other key is unchanged |
| DeployRequests.CommitTwiceIsCommitOnce | src/Services/DeployRequestProcessor.cs:80-83 | Committing an item twice equals committing it once |
| DeployRequests.CommitsCommute | src/Services/DeployRequestProcessor.cs:80-83 | Commits of items with different tracking ids commute |
| DeployRequests.CommitKeepsConsistent | src/Services/DeployRequestProcessor.cs:80-83 | A commit keeps the index and the persistent cache mirroring each other |
| DeployRequests.RemoveKeepsConsistent | src/Services/DeployRequestProcessor.cs:89-92 | A removal keeps the index and the persistent cache mirroring each other |
| DeployRequests.MarkItem | src/Services/DeployRequestProcessor.cs:241-262 | An in-place update replaces the index entry under the item's tracking id, leaves every other entry alone, and saves nothing |
| DeployRequests.InStepWhenConsistent | src/Services/DeployRequestProcessor.cs:80-123 | Mirroring implies being in step, and being in step with every entry Pending implies mirroring |
| DeployRequests.CommitKeepsInStep | src/Services/DeployRequestProcessor.cs:80-83 | A commit keeps the index and the persistent cache in step |
| DeployRequests.RemoveKeepsInStep | src/Services/DeployRequestProcessor.cs:89-92 | A removal keeps the index and the persistent cache in step |
| DeployRequests.MarkKeepsInStep | src/Services/DeployRequestProcessor.cs:241-262 | An in-place update to a finished state keeps them in step |
| DeployRequests.ApplyOpsAppend | src/Services/DeployRequestProcessor.cs:131-303 | Doing two lists of queue operations in turn is doing their concatenation |
| DeployRequests.ApplyOpsKeepsConsistent | src/Services/DeployRequestProcessor.cs:131-303 | Any sequence of commits and removals, with no in-place update, keeps them mirroring each other |
| DeployRequests.ApplyOpsKeepsInStep | src/Services/DeployRequestProcessor.cs:131-303 | Any sequence of commits, removals and in-place updates to a finished state keeps them in step |
| DeployRequests.Loaded | src/Services/DeployRequestProcessor.cs:66-75 | Reloading keeps every index entry under its own tracking id |
| DeployRequests.LoadedExactly | src/Services/DeployRequestProcessor.cs:66-75 | Every listed, non-null "deployCache_" item is loaded under its tracking id, and every loaded entry was already there or is one of those items |
| DeployRequests.LoadedListed | src/Services/DeployRequestProcessor.cs:66-83 | Reloading from a mirrored persistent cache gives exactly the index entries whose items are listed |
| DeployRequests.PopulateRoundTrip | src/Services/DeployRequestProcessor.cs:66-83 | Reloading a mirrored persistent cache whose items are all listed gives back the index |
| DeployRequests.ImportImage | src/Services/DeployRequestProcessor.cs:305-344 | A missing regctl fails with its message, and a positive exit code fails with regctl's message; the import succeeds exactly when regctl is present and exits with code 0 or less |
| DeployRequests.ScheduleClone | src/Services/DeployRequestProcessor.cs:270-278 | The recurrence is the item under the new tracking id, Pending, starting at the next occurrence, with no container build or image; everything else, its action and schedule included, is the item's |
| DeployRequests.DeleteClone | src/Services/DeployRequestProcessor.cs:284-295 | The automatic delete is the item under the new tracking id, Pending, with action Delete, priority High and the given start, with no container build or image; everything else is the item's |
| DeployRequests.Recurrence | src/Services/DeployRequestProcessor.cs:265-281 | A recurrence is queued exactly when the schedule is not blank and cron parses it; cron throws exactly when the schedule is not blank and has no next occurrence; what is queued is a Pending commit |
| DeployRequests.FollowUps | src/Services/DeployRequestProcessor.cs:265-299 | At most two follow-ups are queued, each a Pending commit |
| DeployRequests.ProcessSpec | src/Services/DeployRequestProcessor.cs:131-303 | Processing does at least one queue operation, and every in-place update is to a finished state. The first operation is the removal of the item when the pre-deployment plugins drop it, and otherwise settles it in a finished state |
| DeployRequests.ImageStage | src/Services/DeployRequestProcessor.cs:148-171 | From the image import on, the first queue operation commits or updates the item in a finished state, and no in-place update leaves it Pending |
| DeployRequests.BuildStage | src/Services/DeployRequestProcessor.cs:173-186 | From the build branch on, the same holds |
| DeployRequests.ContextStage | src/Services/DeployRequestProcessor.cs:188-238 | From the context file on, the same holds |
| DeployRequests.DeployStage | src/Services/DeployRequestProcessor.cs:241-302 | From the deployment on, the same holds |
| DeployRequests.NulledByPrePlugins | src/Services/DeployRequestProcessor.cs:137-146 | When the plugins null the request or the response, the item is only removed: no cluster call, no file change and no follow-up |
| DeployRequests.ImageImportFailure | src/Services/DeployRequestProcessor.cs:165-171 | A failed import commits GeneralFailure with the import's message and stops, touching neither the cluster nor the files |
| DeployRequests.LoadImageTarballSucceeds | src/Services/DeployRequestProcessor.cs:158-164 | LoadImageTarball with a successful import commits Successful with the loaded-image message, deletes the tarball and makes no cluster call |
| DeployRequests.BuildTestUnreachable | src/Services/DeployRequestProcessor.cs:175-186 | BuildImage is not an image action, so a BuildImage request skips the build branch and its inner BuildImage test never holds |
| DeployRequests.ContextFileRules | src/Services/DeployRequestProcessor.cs:189-238 | A missing required file gives GeneralFailure; a missing optional file for UplinkFile gives NotFound; a present file for UplinkFile gives Successful, after one uplink to the app with the file moved out of the inbox |
| DeployRequests.FailedDeployHasNoFollowUps | src/Services/DeployRequestProcessor.cs:242-248 | A deployment that did not succeed is committed as returned, with GeneralFailure and no follow-up |
| DeployRequests.ScheduledItemRecurs | src/Services/DeployRequestProcessor.cs:265-281 | A scheduled item queues exactly one Pending clone under a fresh id, starting at cron's next occurrence, with no container build or image and nothing else changed |
| DeployRequests.MaxDurationQueuesDelete | src/Services/DeployRequestProcessor.cs:283-299 | Apply or Create with a maximum duration queues exactly one clone under a fresh id: action Delete, start plus duration, priority High, Pending, container sub-requests stripped |
| DeployRequests.SuccessCommitsLast | src/Services/DeployRequestProcessor.cs:259-302 | A success the post-deployment plugins pass on is committed last, after its follow-ups, with the deployed cluster |
| DeployRequests.NulledByPostPlugins | src/Services/DeployRequestProcessor.cs:255-262 | When the post-deployment plugins drop a successful deployment, the index entry is updated in place to the deployed response, nothing is saved and nothing is queued; the next tick drains that entry and downlinks it |
| DeployRequests.DueStaysDue | src/Services/DeployRequestProcessor.cs:116-117 | An item that is due stays due as the clock advances |
| DeployRequests.PastIsDue | src/Services/DeployRequestProcessor.cs:116-117 | An item whose start time has passed is due |
| DeployRequests.TickStep | src/Services/DeployRequestProcessor.cs:106-120 | A non-Pending entry is removed and downlinked, never processed. A Pending entry not yet due is left untouched. A Pending entry with no start time throws, which ends the tick |
| DeployRequests.DrainedItemLeaves | src/Services/DeployRequestProcessor.cs:108-113 | A finished entry leaves the index and the persistent cache and is downlinked, and the cluster is untouched |
| DeployRequests.TickKeepsInStep | src/Services/DeployRequestProcessor.cs:104-123 | A whole tick (`TickSpec`) keeps the index and the persistent cache in step: keys match, every Pending entry is saved as it is, and every saved item belongs to an entry |
| DeployRequests.DeployRequestProcessor.constructor | src/Services/DeployRequestProcessor.cs:20-49 | Start-up purges the persistent cache when configured, then loads the index from it |
| DeployRequests.DeployRequestProcessor.PopulateCacheFromDisk | src/Services/DeployRequestProcessor.cs:66-75 | The index becomes the load of the listed items, and the persistent cache is unchanged |
| DeployRequests.DeployRequestProcessor.CommitToCache | src/Services/DeployRequestProcessor.cs:80-83 | The new queue is the commit of the item |
| DeployRequests.DeployRequestProcessor.RemoveFromCache | src/Services/DeployRequestProcessor.cs:89-92 | The new queue is the removal of the key |
| DeployRequests.DeployRequestProcessor.QueueDeployment | src/Services/DeployRequestProcessor.cs:57-61 | Returns the item with status Pending, committed |
| DeployRequests.DeployRequestProcessor.ProcessContainerImage | src/Services/DeployRequestProcessor.cs:305-344 | Returns the import's outcome and deletes the tarball only on success |
| DeployRequests.DeployRequestProcessor.QueueRecurrence | src/Services/DeployRequestProcessor.cs:265-281 | Queues the recurrence |
| DeployRequests.DeployRequestProcessor.QueueFollowUps | src/Services/DeployRequestProcessor.cs:265-302 | Queues the follow-ups, then the final commit unless cron or a missing start time threw |
| DeployRequests.DeployRequestProcessor.DeployAndFollowUp | src/Services/DeployRequestProcessor.cs:241-302 | The queue, cluster and files end as the deploy stage specifies |
| DeployRequests.DeployRequestProcessor.ProcessDeploymentItem | src/Services/DeployRequestProcessor.cs:131-303 | The queue, cluster, files, effects and abort flag end as the processing specification says |
| DeployRequests.DeployRequestProcessor.ImportAndBuild | src/Services/DeployRequestProcessor.cs:148-186 | The queue, cluster, files, effects and abort flag end as the image stage specifies |
| DeployRequests.DeployRequestProcessor.ContextAndDeploy | src/Services/DeployRequestProcessor.cs:188-303 | Everything from the context file on ends as the context stage specifies |
| DeployRequests.DeployRequestProcessor.MissingContextFile | src/Services/DeployRequestProcessor.cs:191-208 | A missing context file ends as the context stage specifies, without an uplink |
| DeployRequests.DeployRequestProcessor.UplinkContextFile | src/Services/DeployRequestProcessor.cs:209-237 | A present context file is moved and uplinked, and everything ends as the context stage specifies |
| DeployRequests.DeployRequestProcessor.TickOne | src/Services/DeployRequestProcessor.cs:106-120 | One entry is handled as the tick step specifies |
| DeployRequests.DeployRequestProcessor.Tick | src/Services/DeployRequestProcessor.cs:100-129 | One poll is handled as the tick specification says, over the keys in enumeration order |
| ScheduleItems.FirstMatch | src/Services/ScheduleProcessor.cs:446-449 | Returns the first property whose name equals the target ignoring case, or nothing exactly when none does |
| ScheduleItems.LastMatch | src/Services/ScheduleProcessor.cs:276-277 | Returns the last property with exactly the given name, as `GetProperty` finds it |
| ScheduleItems.Property | src/Services/ScheduleProcessor.cs:446-449 | A non-object fails. Otherwise the result is absent exactly when no name matches ignoring case, and a present value belongs to a matching property |
| ScheduleItems.FirstMatchIgnoresCase | src/Services/ScheduleProcessor.cs:446-449 | Names that are equal ignoring case find the same property |
| ScheduleItems.PropertyIgnoresCase | src/Services/ScheduleProcessor.cs:446-449 | Lookup does not depend on the case of the requested name |
| ScheduleItems.StringValue | src/Services/ScheduleProcessor.cs:276-277 | Only a JSON string reads as a string, and a JSON null is the null-assignment fault |
| ScheduleItems.DecodeEnum | src/Services/ScheduleProcessor.cs:307-319 | A 32-bit number is cast. A string is cast when it parses as an int and looked up by name when it does not. A fraction or an out-of-range number throws, and a bool, null, array or object gives nothing |
| ScheduleItems.EnumField | src/Services/ScheduleProcessor.cs:306-320 | A missing property gives nothing; a present one is decoded by `DecodeEnum`; a non-object fails |
| ScheduleItems.ActionNameRoundTrip | src/Services/ScheduleProcessor.cs:329-335 | Every named action reads back from the name it prints as |
| ScheduleItems.AddArguments | src/Services/ScheduleProcessor.cs:413-418 | On success each property adds one argument with its name and string value, in order, after the ones already there |
| ScheduleItems.AddArgumentsDistinct | src/Services/ScheduleProcessor.cs:416-418 | Accepted build arguments have distinct names |
| ScheduleItems.ParseBool | src/Services/ScheduleProcessor.cs:439 | On success the flag is true exactly when the trimmed text equals "True" ignoring case |
| ScheduleItems.DecodeHeader | src/Services/ScheduleProcessor.cs:297-303 | A non-object fails. A missing header becomes one fresh GUID serving as both tracking and correlation id; a present one is what the deserializer makes of it |
| ScheduleItems.DecodeStartTime | src/Services/ScheduleProcessor.cs:344-352 | A non-object fails, and a missing start time stays null. A string start time succeeds exactly when the date parser accepts it, and is then that date |
| ScheduleItems.DecodeMaxDuration | src/Services/ScheduleProcessor.cs:354-362 | A non-object fails, and a missing maximum duration stays null. A string duration succeeds exactly when the protobuf parser accepts it, and is then that duration |
| ScheduleItems.DecodeImage | src/Services/ScheduleProcessor.cs:382-397 | A missing or null section gives no image. An image comes only from a present section, and its three fields are those the section names, empty when unnamed |
| ScheduleItems.BuildArguments | src/Services/ScheduleProcessor.cs:413-418 | A `BuildArguments` value that is not an object is refused; the arguments read from an object have distinct names |
| ScheduleItems.SectionArguments | src/Services/ScheduleProcessor.cs:413-418 | The build arguments of a section, none when the property is absent, always with distinct names |
| ScheduleItems.DecodeBuild | src/Services/ScheduleProcessor.cs:399-421 | A missing or null section gives no build. A build comes only from a present section: its Dockerfile, repository and tag are the section's matching string properties ("" when missing), and its arguments are the section's `BuildArguments`, with distinct names |
| ScheduleItems.DecodeContextString | src/Services/ScheduleProcessor.cs:423-429 | A missing or null section gives no context. A context string is the text of the section's `AppContext` property; no context from a present section means that property is missing |
| ScheduleItems.DecodeContextFile | src/Services/ScheduleProcessor.cs:431-441 | A missing or null section, or one without `FileName`, keeps the context read before. Otherwise the context is a file named by the `FileName` string, required exactly when `Required` is a string that trims to "true" ignoring case (missing or null: not required) |
| ScheduleItems.StringField | src/Services/ScheduleProcessor.cs:276-277 | Reads exactly when the property is missing or a string; the value read is the property's string, or "" when it is missing |
| ScheduleItems.ReadStrings | src/Services/ScheduleProcessor.cs:275-295 | Succeeds exactly when each of the seven properties is missing or a string. Each of AppName, NameSpace, AppGroupLabel, CustomerTrackingId, Schedule, YamlFileContents and ContainerInjectionTarget then holds its case-insensitively matched property's string ("" when missing); every other field is a fresh request's. A non-object fails |
| ScheduleItems.ReadTail | src/Services/ScheduleProcessor.cs:344-441 | Succeeds exactly when the start time, duration, GPU, image, build and context decoders all succeed. The request then takes their values (GPU None when missing), and every other field is kept |
| ScheduleItems.ParseItem | src/Services/ScheduleProcessor.cs:269-444 | A parsed item's seven string fields are its case-insensitively matched properties' strings. Its header is the decoded one (a missing header gets one id for both ids). Its priority is the decoded one or Low. Its action is the decoded DeployAction, which must be present. Its start time, duration, GPU (None by default), image, build and context are those decoders' values. A non-object fails |
| ScheduleItems.MissingActionRejected | src/Services/ScheduleProcessor.cs:324-340 | An item whose DeployAction is missing or names no action is refused with "DeployAction is invalid and can't be parsed" |
| ScheduleItems.WaitForCopy | src/Services/ScheduleProcessor.cs:139-155 | The wait ends in success, a timeout, FileNotFound or a failure. Success means the file exists, and a failure is the first attempt's error: a sharing violation or another I/O error |
| ScheduleItems.WaitTimesOut | src/Services/ScheduleProcessor.cs:141-153 | The wait times out exactly when the deadline has passed before the first attempt |
| ScheduleItems.WaitSucceeds | src/Services/ScheduleProcessor.cs:143-147 | The wait succeeds exactly when an attempt is made, the file exists and the first attempt opens it |
| ScheduleItems.StillCopyingFails | src/Services/ScheduleProcessor.cs:144-150 | A sharing violation at the first attempt is the wait's error, and it is not retried |
| ScheduleItems.RetryingWait | src/Services/ScheduleProcessor.cs:141-153 | The wait the comment at 148 describes: it ends in success, a timeout, FileNotFound or the message of an attempt that failed otherwise |
| ScheduleItems.RetryingWaitTimesOut | src/Services/ScheduleProcessor.cs:141-153 | The retrying wait times out exactly when every remaining attempt meets a sharing violation |
| ScheduleItems.RetryingWaitSucceeds | src/Services/ScheduleProcessor.cs:141-153 | The retrying wait succeeds exactly when the file exists and some attempt opens it after only sharing violations |
| ScheduleItems.SharingViolationNotRetried | src/Services/ScheduleProcessor.cs:146-150 | A file locked at the first attempt and open at the second fails the wait as written, and passes the retrying wait |
| ScheduleItems.WaitsAgreeWithoutSharingViolation | src/Services/ScheduleProcessor.cs:146-150 | Without a sharing violation at the first attempt, the two waits have the same outcome |
| ScheduleItems.MissingFileNotFound | src/Services/ScheduleProcessor.cs:145-150 | Waiting for a file that is not there throws FileNotFound, which is not a sharing violation |
| ScheduleItems.AttachedFile | src/Services/ScheduleProcessor.cs:482-496 | A missing file is FileNotFound. The check passes exactly when the file exists and either its copy finishes or it times out for a request whose context file is optional. A timeout for a request without a context file is a null reference |
| ScheduleItems.RequiredFile | src/Services/ScheduleProcessor.cs:480-497 | A file field collects itself exactly when it is blank; otherwise the file must exist |
| ScheduleItems.YamlSection | src/Services/ScheduleProcessor.cs:476-505 | For Apply, Create and Delete, nothing is collected exactly when the manifest is present and its name without extension matches no `[^a-zA-Z0-9_-]`; the special-character note comes only with a collected field |
| ScheduleItems.ImageSection | src/Services/ScheduleProcessor.cs:507-532 | Nothing is collected exactly when the image section has a present tarball, a repository and a tag |
| ScheduleItems.BuildSection | src/Services/ScheduleProcessor.cs:534-559 | Nothing is collected exactly when the build section has a present Dockerfile, a repository and a tag |
| ScheduleItems.ContextSection | src/Services/ScheduleProcessor.cs:561-580 | Nothing is collected exactly when the context file is named and present |
| ScheduleItems.CompletedHeader | src/Services/ScheduleProcessor.cs:454-455 | A filled-in tracking id and correlation id are kept, and a blank correlation id becomes the tracking id |
| ScheduleItems.Defaulted | src/Services/ScheduleProcessor.cs:454-474 | Afterwards the namespace is not blank and a set one is kept; there is a start time and a set one is kept; a set tracking id comes with a set correlation id; nothing else changes |
| ScheduleItems.ActionNameNotBlank | src/Services/ScheduleProcessor.cs:467-468 | The action name is never blank, so the blank-action check never fires |
| ScheduleItems.Findings | src/Services/ScheduleProcessor.cs:463-580 | Nothing is collected exactly when the request is complete (`Complete`). The collected fields are exactly `MissingFields`: the check-order list (AppName, DeployAction, YamlFileContents blank, YamlFileContents with special characters, TarballFileName / DestinationRepository / DestinationTag, DockerFile / DestinationRepository / DestinationTag, FileName) filtered to the checks that hold. The note is the special-character message exactly when the manifest name has one |
| ScheduleItems.ChecksBySection | src/Services/ScheduleProcessor.cs:463-468 | The check-order list is the leading checks followed by the manifest, image, build and context-file checks, and the leading checks name AppName and DeployAction when they are blank |
| ScheduleItems.YamlSectionInCheckOrder | src/Services/ScheduleProcessor.cs:476-505 | The manifest section lists YamlFileContents once for a blank name and once more for a special character, and gives the special-character note |
| ScheduleItems.ImageSectionInCheckOrder | src/Services/ScheduleProcessor.cs:507-532 | The image section lists TarballFileName, DestinationRepository and DestinationTag, in that order, for the ones that are blank |
| ScheduleItems.BuildSectionInCheckOrder | src/Services/ScheduleProcessor.cs:534-559 | The build section lists DockerFile, DestinationRepository and DestinationTag, in that order, for the ones that are blank |
| ScheduleItems.ContextSectionInCheckOrder | src/Services/ScheduleProcessor.cs:561-580 | The context-file section lists FileName when a context file has a blank name |
| ScheduleItems.Validate | src/Services/ScheduleProcessor.cs:451-589 | A null header is a null reference. The response carries the defaulted request and its ids. It is Pending, with an empty message, exactly when the request is complete (`Complete`). Otherwise it is InvalidArgument, and its message is the special-character note (`SpecialNote`) followed by "The following fields are required: " and every field of `MissingFields`, comma-separated in check order |
| ScheduleItems.MissingManifestRetries | src/Services/ScheduleProcessor.cs:484-486 | A manifest that has not arrived is FileNotFound, so the file is retried |
| ScheduleItems.ManifestStillCopying | src/Services/ScheduleProcessor.cs:488-496 | A manifest that is there but still being copied fails validation with the sharing violation, whatever the context file, and is not retried |
| ScheduleItems.ManifestCopyTimeout | src/Services/ScheduleProcessor.cs:489-496 | A manifest copy that times out: without a context file it is a null reference; with a required context file it is FileNotFound |
| ScheduleFiles.ReadManifest | src/Services/ScheduleProcessor.cs:225-234 | An action that is not a manifest action is untouched. Otherwise the manifest was present, its text replaces the file name, and the file is deleted |
| ScheduleFiles.AwaitArtifacts | src/Services/ScheduleProcessor.cs:237-243 | The wait passes exactly when the tarball's and the Dockerfile's copies, where named, both finish; a failed tarball wait is the result |
| ScheduleFiles.Collect | src/Services/ScheduleProcessor.cs:225-243 | Collecting writes no output, only deletes files, and keeps the header |
| ScheduleFiles.ItemStep | src/Services/ScheduleProcessor.cs:211-246 | An accepted item is Pending. Output only comes with a rejecting failure, for an invalid item. Files are only deleted |
| ScheduleFiles.HandlerWellBehaved | src/Services/ScheduleProcessor.cs:211-246 | The item handler (`Handler`) accepts only Pending items and only deletes files |
| ScheduleFiles.Extend | src/Services/ScheduleProcessor.cs:211-246 | After a failure nothing more is done; a success extends the items so far by one |
| ScheduleFiles.ItemsSpec | src/Services/ScheduleProcessor.cs:211-246 | A file whose items all succeed yields one response per item |
| ScheduleFiles.ItemsStopAtError | src/Services/ScheduleProcessor.cs:211-259 | Once an item fails, the items after it are not looked at |
| ScheduleFiles.ItemsArePending | src/Services/ScheduleProcessor.cs:211-246 | Every item a file yields is Pending, and files are only deleted |
| ScheduleFiles.ScheduleFileSpec | src/Services/ScheduleProcessor.cs:157-262 | Processing a file only deletes files, and every item it returns is Pending |
| ScheduleFiles.Notices | src/Services/ScheduleProcessor.cs:107-110 | One downlinked Pending response per queued item, in order |
| ScheduleFiles.FileSpec | src/Services/ScheduleProcessor.cs:55-113 | A retry leaves no output and renames nothing. Any other outcome writes the response file. Acceptance renames the file to ".processed", with every accepted item Pending, and rejection to ".error" |
| ScheduleFiles.StillCopyingScheduleRejected | src/Services/ScheduleProcessor.cs:83-101 | A schedule file that is there but still being copied when it is opened is refused with the sharing-violation message and renamed `.error` |
| ScheduleFiles.QueueAllUpserts | src/Services/ScheduleProcessor.cs:107-110 | Queueing items upserts their pairs into the index and the persistent cache |
| ScheduleFiles.QueueAllQueues | src/Services/ScheduleProcessor.cs:107-110 | After queueing, every item waits Pending in the index under its tracking id, and every entry with another id is unchanged |
| ScheduleFiles.QueueTwiceIsQueueOnce | src/Services/ScheduleProcessor.cs:120-131 | The second queueing pass leaves the queue as the first one left it |
| ScheduleFiles.QueueAllAppend | src/Services/ScheduleProcessor.cs:120-131 | Queueing two lists in turn is queueing their concatenation |
| ScheduleFiles.QueueAllKeepsConsistent | src/Services/ScheduleProcessor.cs:107-110 | Queueing keeps the index and the persistent cache mirroring each other |
| ScheduleFiles.ScanSpec | src/Services/ScheduleProcessor.cs:45-131 | Every item a scan accepts is Pending |
| ScheduleFiles.ScheduleProcessor.constructor | src/Services/ScheduleProcessor.cs:19-33 | The processor holds its configuration, file system and queue |
| ScheduleFiles.ScheduleProcessor.WaitForFileToFinishCopying | src/Services/ScheduleProcessor.cs:139-155 | The loop gives the copy wait's outcome: its first attempt opens the file or leaves with the error, a sharing violation included |
| ScheduleFiles.ScheduleProcessor.ReadStringFields | src/Services/ScheduleProcessor.cs:275-295 | The string fields are those the item reader specifies |
| ScheduleFiles.ScheduleProcessor.ReadTailFields | src/Services/ScheduleProcessor.cs:344-441 | The fields after the action are those the item reader specifies |
| ScheduleFiles.ScheduleProcessor.AddBuildArguments | src/Services/ScheduleProcessor.cs:413-418 | The loop gives the build arguments as specified, refusing a repeated name |
| ScheduleFiles.ScheduleProcessor.ReadSectionArguments | src/Services/ScheduleProcessor.cs:413-418 | Reads the build arguments of a build section as specified |
| ScheduleFiles.ScheduleProcessor.ReadBuild | src/Services/ScheduleProcessor.cs:399-421 | Builds the container build section as specified |
| ScheduleFiles.ScheduleProcessor.ProcessScheduleFileItem | src/Services/ScheduleProcessor.cs:269-444 | Reads the item as the item reader specifies |
| ScheduleFiles.ScheduleProcessor.CheckFile | src/Services/ScheduleProcessor.cs:480-497 | Checks one file field as specified |
| ScheduleFiles.ScheduleProcessor.CheckManifest | src/Services/ScheduleProcessor.cs:476-505 | Checks the manifest section as specified |
| ScheduleFiles.ScheduleProcessor.CheckImage | src/Services/ScheduleProcessor.cs:507-532 | Checks the image section as specified |
| ScheduleFiles.ScheduleProcessor.CheckBuild | src/Services/ScheduleProcessor.cs:534-559 | Checks the build section as specified |
| ScheduleFiles.ScheduleProcessor.CheckContextFile | src/Services/ScheduleProcessor.cs:561-580 | Checks the context-file section as specified |
| ScheduleFiles.ScheduleProcessor.CollectFindings | src/Services/ScheduleProcessor.cs:463-580 | Collects the note and the missing fields as specified |
| ScheduleFiles.ScheduleProcessor.ValidatePrerequisites | src/Services/ScheduleProcessor.cs:451-589 | Validates the item as specified |
| ScheduleFiles.ScheduleProcessor.ProcessItem | src/Services/ScheduleProcessor.cs:214-245 | Result, files and output are those of the item step |
| ScheduleFiles.ScheduleProcessor.CollectItem | src/Services/ScheduleProcessor.cs:225-243 | Result, files and output are those of collecting a complete item |
| ScheduleFiles.ScheduleProcessor.ProcessScheduleFile | src/Services/ScheduleProcessor.cs:157-262 | After the checks on the file and the plugin's answer, yields the file's specified result, files and output |
| ScheduleFiles.ScheduleProcessor.ProcessItems | src/Services/ScheduleProcessor.cs:209-258 | The item loop handles the items in order and stops at the first that fails, with the specified result, files and output |
| ScheduleFiles.ScheduleProcessor.Settle | src/Services/ScheduleProcessor.cs:92-101 | The file is renamed and its response file written; both are downlinked |
| ScheduleFiles.ScheduleProcessor.ProcessFile | src/Services/ScheduleProcessor.cs:57-113 | Verdict, files and output are those of the file outcome, and exactly the accepted items are queued |
| ScheduleFiles.ScheduleProcessor.QueueItems | src/Services/ScheduleProcessor.cs:107-110 | Queues each item and downlinks its Pending response |
| ScheduleFiles.ScheduleProcessor.ScanDirectory | src/Services/ScheduleProcessor.cs:45-131 | Files are processed in listing order, then the accepted items are queued and downlinked once more; the queue equals queueing the accepted items once |

## Left out

- File I/O is modelled as a set of existing paths in `FileSystems.FileSystem`. `File.Move` is assumed to succeed. `File.ReadAllText` is a parameter that cannot fail. Writing the response file and downlinks are recorded as output values rather than performed.
- Directory listing and creation are left out. The scan takes its list of files as a parameter.
- Polling delays, cancellation and the background-service loops are left out. One tick or one scan is one method call.
- Concurrency is left out. `Task.Run` per file and `Task.WaitAll` become a sequential loop in listing order. `ConcurrentDictionary` enumeration becomes a given key order. Two files racing on the same manifest are out of scope.
- A faulted per-file task (the `task.IsFaulted` test in the second pass) is left out. The model's per-file step catches every error it raises; the one error the source lets escape, a non-GUID tracking id at queueing time, is described in the `DeployRequests.CommitItem` line below.
- The Kubernetes API is `K8sClient.Cluster`: a map from (kind, namespace, name) to objects, plus a fault oracle per call. HTTP, serialisation and `V1Patch` bodies are left out.
- A merge patch is modelled as replacing the object. Namespace deletion does not cascade, and propagation policies are not modelled.
- helm and regctl are oracles from argument strings to output and exit code. Only the argument strings and the exit-code checks are modelled.
- Cron parsing and `GetNextOccurrence`, GUID generation, the clock, random bytes, base64/UTF-8 and timestamp formatting are parameters.
- The YAML and JSON libraries are parameters or the small `Json` datatype. `Enum.TryParse` accepts exactly the declared names, ignoring case and surrounding white space. Comma-separated flag lists and numeric overflow beyond 32 bits are not modelled.
- The protobuf enum numbering is not part of this model. A numeric enum value goes through a numbering parameter, and an out-of-range number is an explicit `…Value(code)` constructor.
- Exception messages from libraries (JSON, the file system, the API) are parameters or fixed texts. Only the service's own messages are written out.
- Case-insensitive comparison is ASCII only. There is no culture-aware case mapping.
- Messages are values. The one update in place that matters is modelled: `DeployItem` changes the response object the index holds, so an item that is not committed afterwards (post-deployment plugins that drop it, or cron throwing) is finished in the index but still Pending in the persistent cache (`DeployRequests.MarkItem`, `DeployRequests.NulledByPostPlugins`). This rests on the plugins handing back the object they were given; other in-place changes by plugins are not modelled. The model checks the plugins' outputs for null, as the code does.
- `DeployRequests.DeployStage`: the failure path is modelled as a commit alone. In the source the failed response is also the object in the index, so an in-place update followed by the commit leaves the same queue.
- `DeployRequests.TickKeepsInStep`: a restart between the in-place update and the next tick reloads the stale Pending copy from the persistent cache and processes the item again. Restarts are not modelled, so this is not stated.
- `Common.IsWhiteSpace`: covers the ASCII white space characters, U+0085 and U+00A0 only, not the other Unicode space and separator characters `char.IsWhiteSpace` accepts.
- `TimeUtils.RoundDown`: does not model `DateTime.Kind` or the `ToUniversalTime` conversion (src/Utils/TimeUtils.cs:24, 36); ticks are taken to be UTC, as at the one call site (src/Services/DeployRequestProcessor.cs:116). The same holds for `TimeUtils.RoundUp`.
- DeployRequests.CommitItem: `Guid.Parse` on the index key (src/Services/DeployRequestProcessor.cs:81, 90) is not modelled: the index is keyed by the tracking-id string, so neither GUID normalisation nor rejection is captured. In the source, a schedule item that carries its own `RequestHeader` with a tracking id that is not a GUID passes validation (src/Services/ScheduleProcessor.cs:297-298, 454 only fills a blank id), the file is renamed `.processed` and its notices downlinked, and then `QueueDeployment` throws a `FormatException` before anything is saved; the per-file task faults and `Task.WaitAll` (src/Services/ScheduleProcessor.cs:117) rethrows out of the scan loop, which stops ingestion. The model queues such an item like any other (`ScheduleFiles.ScheduleProcessor.ProcessFile`, `ScheduleFiles.ScheduleProcessor.QueueItems`).
- The copy wait's deadline is a bounded attempt count; zero attempts means the deadline passed before the first check. Every wait sees the same sequence of open results for a path. The sharing violation's exception text is a library message (`Locked`). `AddSeconds` precision in the automatic-delete start time is modelled as exact ticks.
- `ScheduleFiles.ScheduleProcessor.constructor`: does not model creation of the import directory. The three directories are configuration.
- The `ENABLE_YAML_DEBUG` dumps of manifests into the outbox are left out. They are diagnostic copies, and nothing reads them back.
- The helpers at `src/Utils/K8sClient.cs:408-560` are left out because nothing calls them. They are `AddFileServerCredentials`, `AddFileServerVolumesAndClaims` and `AddConfigurationAsSecrets`.
- K8sClient.AddContainerAndVolumeInjections: nothing in the service calls it (src/Utils/K8sClient.cs:680 is its only occurrence), so no other member of the model uses it either. The YAML reader for the two configured lists is a parameter (`K8sClient.InjectionConfig`). The in-place `??=` update of the request's maximum duration is returned as a new request value.
- `AddUpdateMetaDataToDeployment` (565-677) and `AddServiceAccountName` (722-725) are left out. Their bodies are commented out, so each returns its input unchanged.
- The commented-out plugin call at 58-83 is left out because it does not run.
- src/PluginDelegates/PostKubernetesDeployment.cs is not part of this model. The post-deployment delegate is taken to have the same shape as the pre-deployment one (`PluginDelegates.DeploymentDelegate`).
- The plugin loader's `CallPlugins` is not part of this model. It is taken to run the delegate over the plugins in order, with each receiving the previous output.
- `TemplateUtil`'s constructor is left out. It only checks at start-up that the chart and helm exist.
- `DeployRequests.DeployRequestProcessor.constructor`: when purging on start-up, it does not model deleting the `deploymentResults` directory of the outbox, because that directory is not otherwise part of this model. Whether regctl exists is a configuration value (`regctlApp`).
- Link requests are parameters:
  - the link request sent for an uplinked context file is the `Uplink` effect;
  - the downlink of drained entries is the `Downlink` effect.
- `K8sClient.Cluster.constructor`, `Cluster.Call` and `Cluster.Read` model the API server rather than the service. They have no row above.
