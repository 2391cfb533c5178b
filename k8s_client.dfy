// The service's Kubernetes client: applying, deleting and creating the
// objects of a deploy request one after the other, the restart and
// build-image actions, and the helpers around them (the build job's
// arguments, the template-token replacement, the volume injections and
// the password alphabet).  The cluster is a map from an object's kind,
// namespace and name to the object, with an oracle that decides which
// API calls fail and with which HTTP status.

module K8sClient {
  import opened Common
  import opened Messages
  import opened Kube
  import opened TemplateUtil

  /** The API calls the client makes. */
  datatype Verb = VerbRead | VerbCreate | VerbPatch | VerbDelete | VerbReplace

  /** Where an object lives in the cluster. */
  datatype ObjKey = ObjKey(kind: Kind, nameSpace: string, name: string)

  type Objects = map<ObjKey, KubeObject>

  /** For each call and key, the HTTP status the API server answers with instead of doing the call, if any. */
  type Faults = (Verb, ObjKey) -> Option<int>

  /** The cluster in which no call fails for a reason of its own. */
  const Healthy: Faults := (v: Verb, k: ObjKey) => None

  /** Kinds that live outside any namespace. */
  predicate ClusterScoped(k: Kind)
  {
    k == PersistentVolume || k == Namespace || k == ClusterRole || k == ClusterRoleBinding
  }

  function KeyOf(o: KubeObject): ObjKey
  {
    ObjKey(o.kind, if ClusterScoped(o.kind) then "" else o.nameSpace, o.name)
  }

  /** The kinds the client has a case for; an object of any other kind is passed over without a call. */
  predicate Supported(k: Kind)
  {
    !k.OtherKind?
  }

  /** Kinds whose namespace is checked before a patch. */
  predicate NamespaceCheckedOnPatch(k: Kind)
  {
    k == ServiceAccount || k == Deployment || k == CronJob || k == Pod || k == Job
  }

  /** Kinds whose namespace is checked before a delete or a create. */
  predicate NamespaceChecked(k: Kind)
  {
    k == ConfigMap || NamespaceCheckedOnPatch(k)
  }

  /** An object no namespace check refuses. */
  predicate NamespaceSet(o: KubeObject)
  {
    !Supported(o.kind) || ClusterScoped(o.kind) || !IsEmpty(o.nameSpace)
  }

  /** What the client can throw. */
  datatype KubeError =
    | HttpError(code: int)
    | MissingNamespace
    | UnknownAction(action: DeployAction)
    | TemplateFailure(error: TemplateError)
    | NullReference
    | IndexOutOfRange   // a list indexed past its end

  function ErrorMessage(e: KubeError): string
  {
    match e
    case HttpError(c) => "Operation returned an invalid status code '" + IntToString(c) + "'"
    case MissingNamespace => "Metadata.NamespaceProperty is null or empty"
    case UnknownAction(a) => "Unknown DeployAction: " + ActionName(a)
    case TemplateFailure(t) => TemplateErrorMessage(t)
    case NullReference => "Object reference not set to an instance of an object."
    case IndexOutOfRange => "Index was out of range. Must be non-negative and less than the size of the collection. (Parameter 'index')"
  }

  // ---------------------------------------------------------------------
  // The API server

  /** A call's HTTP error status, if it failed, and the objects afterwards. */
  datatype ApiResult = ApiResult(code: Option<int>, objects: Objects)

  /**
   * One API call on `key` (with `o` as the body where there is one).
   * Unless the oracle fails it, a create of an existing object answers
   * 409, and a read, patch, replace or delete of a missing one 404.  A
   * merge patch is modelled as replacing the object.
   */
  function ApiCall(m: Objects, faults: Faults, verb: Verb, key: ObjKey, o: KubeObject): (r: ApiResult)
    ensures r.code.Some? ==> r.objects == m
    ensures r.code.None? && verb == VerbDelete ==> r.objects == m - {key}
    ensures r.code.None? && verb != VerbDelete && verb != VerbRead ==> r.objects == m[key := o]
    ensures faults(verb, key).None? && verb == VerbCreate ==> (r.code == Some(409) <==> key in m)
    ensures faults(verb, key).None? && verb != VerbCreate ==> (r.code == Some(404) <==> key !in m)
  {
    if faults(verb, key).Some? then ApiResult(faults(verb, key), m)
    else match verb
      case VerbCreate => if key in m then ApiResult(Some(409), m) else ApiResult(None, m[key := o])
      case VerbDelete => if key in m then ApiResult(None, m - {key}) else ApiResult(Some(404), m)
      case VerbRead => if key in m then ApiResult(None, m) else ApiResult(Some(404), m)
      case _ => if key in m then ApiResult(None, m[key := o]) else ApiResult(Some(404), m)
  }

  function ReadSpec(m: Objects, faults: Faults, key: ObjKey): (r: Result<KubeObject, int>)
    ensures r.Ok? <==> faults(VerbRead, key).None? && key in m
    ensures r.Ok? ==> r.value == m[key]
  {
    if faults(VerbRead, key).Some? then Err(faults(VerbRead, key).value)
    else if key in m then Ok(m[key])
    else Err(404)
  }

  class Cluster {
    var objects: Objects
    const faults: Faults

    constructor (objects: Objects, faults: Faults)
      ensures this.objects == objects && this.faults == faults
    {
      this.objects := objects;
      this.faults := faults;
    }

    method Call(verb: Verb, key: ObjKey, o: KubeObject) returns (code: Option<int>)
      modifies this
      ensures ApiResult(code, objects) == ApiCall(old(objects), faults, verb, key, o)
    {
      var r := ApiCall(objects, faults, verb, key, o);
      code := r.code;
      objects := r.objects;
    }

    method Read(key: ObjKey) returns (r: Result<KubeObject, int>)
      ensures r == ReadSpec(objects, faults, key)
    {
      r := ReadSpec(objects, faults, key);
    }
  }

  // ---------------------------------------------------------------------
  // Patch, delete and create of one object

  /** An error, if the operation threw one, and the objects afterwards. */
  datatype Step = Step(err: Option<KubeError>, objects: Objects)

  /** `m2` agrees with `m1` everywhere except possibly at `key`. */
  ghost predicate OnlyAt(m1: Objects, m2: Objects, key: ObjKey)
  {
    forall k :: k != key ==> (k in m1 <==> k in m2) && (k in m1 ==> m1[k] == m2[k])
  }

  /** `DeleteViaYamlObject`: a missing object is not an error. */
  function DeleteSpec(m: Objects, faults: Faults, o: KubeObject): (r: Step)
    ensures OnlyAt(m, r.objects, KeyOf(o))
    ensures r.err.Some? ==> r.objects == m
    ensures !Supported(o.kind) ==> r == Step(None, m)
    ensures NamespaceChecked(o.kind) && IsEmpty(o.nameSpace) ==> r == Step(Some(MissingNamespace), m)
    ensures Supported(o.kind) && r.err.None? && faults(VerbDelete, KeyOf(o)).None? ==> KeyOf(o) !in r.objects
  {
    if !Supported(o.kind) then Step(None, m)
    else if NamespaceChecked(o.kind) && IsEmpty(o.nameSpace) then Step(Some(MissingNamespace), m)
    else
      var c := ApiCall(m, faults, VerbDelete, KeyOf(o), o);
      if c.code.None? || c.code.value == 404 then Step(None, c.objects)
      else Step(Some(HttpError(c.code.value)), c.objects)
  }

  /** `CreateViaYamlObject`: every failure is rethrown. */
  function CreateSpec(m: Objects, faults: Faults, o: KubeObject): (r: Step)
    ensures OnlyAt(m, r.objects, KeyOf(o))
    ensures r.err.Some? ==> r.objects == m
    ensures !Supported(o.kind) ==> r == Step(None, m)
    ensures NamespaceChecked(o.kind) && IsEmpty(o.nameSpace) ==> r == Step(Some(MissingNamespace), m)
    ensures Supported(o.kind) && r.err.None? ==> KeyOf(o) in r.objects && r.objects[KeyOf(o)] == o
    ensures Supported(o.kind) && KeyOf(o) in m ==> r.err.Some?
  {
    if !Supported(o.kind) then Step(None, m)
    else if NamespaceChecked(o.kind) && IsEmpty(o.nameSpace) then Step(Some(MissingNamespace), m)
    else
      var c := ApiCall(m, faults, VerbCreate, KeyOf(o), o);
      if c.code.None? then Step(None, c.objects)
      else Step(Some(HttpError(c.code.value)), c.objects)
  }

  /**
   * `PatchViaYamlObject`: a 422 answer falls back to delete then create,
   * a 404 answer to create, and any other failure is rethrown.
   */
  function PatchSpec(m: Objects, faults: Faults, o: KubeObject): (r: Step)
    ensures OnlyAt(m, r.objects, KeyOf(o))
    ensures !Supported(o.kind) ==> r == Step(None, m)
    ensures NamespaceCheckedOnPatch(o.kind) && IsEmpty(o.nameSpace) ==> r == Step(Some(MissingNamespace), m)
    ensures Supported(o.kind) && r.err.None? ==> KeyOf(o) in r.objects && r.objects[KeyOf(o)] == o
  {
    if !Supported(o.kind) then Step(None, m)
    else if NamespaceCheckedOnPatch(o.kind) && IsEmpty(o.nameSpace) then Step(Some(MissingNamespace), m)
    else
      var c := ApiCall(m, faults, VerbPatch, KeyOf(o), o);
      if c.code.None? then Step(None, c.objects)
      else if c.code.value == 422 then
        var d := DeleteSpec(c.objects, faults, o);
        if d.err.Some? then d else CreateSpec(d.objects, faults, o)
      else if c.code.value == 404 then CreateSpec(c.objects, faults, o)
      else Step(Some(HttpError(c.code.value)), c.objects)
  }

  method DeleteViaYamlObject(cluster: Cluster, o: KubeObject) returns (err: Option<KubeError>)
    modifies cluster
    ensures Step(err, cluster.objects) == DeleteSpec(old(cluster.objects), cluster.faults, o)
  {
    if !Supported(o.kind) {
      return None;
    }
    if NamespaceChecked(o.kind) && IsEmpty(o.nameSpace) {
      return Some(MissingNamespace);
    }
    var code := cluster.Call(VerbDelete, KeyOf(o), o);
    if code.None? || code.value == 404 {
      err := None;
    } else {
      err := Some(HttpError(code.value));
    }
  }

  method CreateViaYamlObject(cluster: Cluster, o: KubeObject) returns (err: Option<KubeError>)
    modifies cluster
    ensures Step(err, cluster.objects) == CreateSpec(old(cluster.objects), cluster.faults, o)
  {
    if !Supported(o.kind) {
      return None;
    }
    if NamespaceChecked(o.kind) && IsEmpty(o.nameSpace) {
      return Some(MissingNamespace);
    }
    var code := cluster.Call(VerbCreate, KeyOf(o), o);
    if code.None? {
      err := None;
    } else {
      err := Some(HttpError(code.value));
    }
  }

  method PatchViaYamlObject(cluster: Cluster, o: KubeObject) returns (err: Option<KubeError>)
    modifies cluster
    ensures Step(err, cluster.objects) == PatchSpec(old(cluster.objects), cluster.faults, o)
  {
    if !Supported(o.kind) {
      return None;
    }
    if NamespaceCheckedOnPatch(o.kind) && IsEmpty(o.nameSpace) {
      return Some(MissingNamespace);
    }
    var code := cluster.Call(VerbPatch, KeyOf(o), o);
    if code.None? {
      err := None;
    } else if code.value == 422 {
      err := DeleteViaYamlObject(cluster, o);
      if err.None? {
        err := CreateViaYamlObject(cluster, o);
      }
    } else if code.value == 404 {
      err := CreateViaYamlObject(cluster, o);
    } else {
      err := Some(HttpError(code.value));
    }
  }

  // ---------------------------------------------------------------------
  // Applying the objects of a request

  /** The switch on the request's action for one object; an action other than the three manifest actions throws. */
  function ApplyObject(m: Objects, faults: Faults, action: DeployAction, o: KubeObject): (r: Step)
    ensures OnlyAt(m, r.objects, KeyOf(o))
    ensures !IsManifestAction(action) ==> r == Step(Some(UnknownAction(action)), m)
    ensures !Supported(o.kind) && IsManifestAction(action) ==> r == Step(None, m)
    ensures Supported(o.kind) && r.err.None? && (action == Apply || action == Create) ==>
              KeyOf(o) in r.objects && r.objects[KeyOf(o)] == o
  {
    match action
    case Apply => PatchSpec(m, faults, o)
    case Delete => DeleteSpec(m, faults, o)
    case Create => CreateSpec(m, faults, o)
    case _ => Step(Some(UnknownAction(action)), m)
  }

  /** The objects applied in list order; the first failure ends the run and nothing is rolled back. */
  function ApplyAll(m: Objects, faults: Faults, action: DeployAction, objs: seq<KubeObject>): (r: Step)
    ensures |objs| > 0 && !IsManifestAction(action) ==> r == Step(Some(UnknownAction(action)), m)
    decreases |objs|
  {
    if |objs| == 0 then Step(None, m)
    else
      var s := ApplyAll(m, faults, action, objs[..|objs| - 1]);
      if s.err.Some? then s else ApplyObject(s.objects, faults, action, objs[|objs| - 1])
  }

  /** A failure among the first objects is the outcome of the whole run. */
  lemma {:induction false} ApplyAllErrSticks(m: Objects, faults: Faults, action: DeployAction, objs: seq<KubeObject>, n: nat)
    requires n <= |objs| && ApplyAll(m, faults, action, objs[..n]).err.Some?
    ensures ApplyAll(m, faults, action, objs) == ApplyAll(m, faults, action, objs[..n])
    decreases |objs| - n
  {
    if n < |objs| {
      assert objs[..n + 1][..n] == objs[..n];
      ApplyAllErrSticks(m, faults, action, objs, n + 1);
    } else {
      assert objs[..n] == objs;
    }
  }

  /** A run whose first objects went through ends with the last object's operation. */
  lemma ApplyAllLastStep(m: Objects, faults: Faults, action: DeployAction, objs: seq<KubeObject>)
    requires |objs| > 0 && ApplyAll(m, faults, action, objs[..|objs| - 1]).err.None?
    ensures ApplyAll(m, faults, action, objs)
         == ApplyObject(ApplyAll(m, faults, action, objs[..|objs| - 1]).objects, faults, action, objs[|objs| - 1])
  {
  }

  /**
   * A failed run failed at one object `k`: every object before it was
   * applied without error and stays applied, the run up to and including
   * it fails, and no later object is touched.
   */
  lemma ApplyAllFirstFailure(m: Objects, faults: Faults, action: DeployAction, objs: seq<KubeObject>)
    returns (k: nat)
    requires ApplyAll(m, faults, action, objs).err.Some?
    ensures k < |objs|
    ensures ApplyAll(m, faults, action, objs[..k]).err.None?
    ensures ApplyAll(m, faults, action, objs[..k + 1]).err.Some?
    ensures ApplyAll(m, faults, action, objs) == ApplyAll(m, faults, action, objs[..k + 1])
  {
    var failed := seq(|objs| + 1, i requires 0 <= i <= |objs| => ApplyAll(m, faults, action, objs[..i]).err.Some?);
    assert objs[..|objs|] == objs;
    k := FirstFlip(failed);
    ApplyAllErrSticks(m, faults, action, objs, k + 1);
  }

  /** A row of flags that starts false and ends true turns true at some position. */
  lemma FirstFlip(flags: seq<bool>) returns (k: nat)
    requires |flags| > 1 && !flags[0] && flags[|flags| - 1]
    ensures k + 1 < |flags| && !flags[k] && flags[k + 1]
  {
    k := 0;
    while flags[k + 1] == false
      invariant k + 1 < |flags| && !flags[k]
      decreases |flags| - k
    {
      k := k + 1;
    }
  }

  /**
   * The failing object's operation, on the objects the earlier ones left,
   * is the last thing a failed run does.
   */
  lemma ApplyAllFailsAt(m: Objects, faults: Faults, action: DeployAction, objs: seq<KubeObject>) returns (k: nat)
    requires ApplyAll(m, faults, action, objs).err.Some?
    ensures k < |objs|
    ensures ApplyAll(m, faults, action, objs[..k]).err.None?
    ensures ApplyAll(m, faults, action, objs)
         == ApplyObject(ApplyAll(m, faults, action, objs[..k]).objects, faults, action, objs[k])
  {
    k := ApplyAllFirstFailure(m, faults, action, objs);
    var prefix := objs[..k + 1];
    assert prefix[..k] == objs[..k] && prefix[k] == objs[k];
    ApplyAllLastStep(m, faults, action, prefix);
  }

  /** The key/object pairs a successful run of supported objects puts in the cluster, in order. */
  function Entries(objs: seq<KubeObject>): (r: seq<(ObjKey, KubeObject)>)
    decreases |objs|
  {
    if |objs| == 0 then []
    else
      var o := objs[|objs| - 1];
      Entries(objs[..|objs| - 1]) + (if Supported(o.kind) then [(KeyOf(o), o)] else [])
  }

  /** The keys of the supported objects. */
  function KeySet(objs: seq<KubeObject>): set<ObjKey>
  {
    set i | 0 <= i < |objs| && Supported(objs[i].kind) :: KeyOf(objs[i])
  }

  /** On a healthy cluster, applying objects with their namespaces set upserts each of them in turn. */
  lemma {:induction false} HealthyApplyUpserts(m: Objects, objs: seq<KubeObject>)
    requires forall i :: 0 <= i < |objs| ==> NamespaceSet(objs[i])
    ensures ApplyAll(m, Healthy, Apply, objs) == Step(None, PutAll(m, Entries(objs)))
    decreases |objs|
  {
    if |objs| > 0 {
      var n := |objs|;
      var init, o := objs[..n - 1], objs[n - 1];
      HealthyApplyUpserts(m, init);
      var s := PutAll(m, Entries(init));
      if Supported(o.kind) {
        PutAllAppend(m, Entries(init), KeyOf(o), o);
        if KeyOf(o) in s {
          assert ApiCall(s, Healthy, VerbPatch, KeyOf(o), o) == ApiResult(None, s[KeyOf(o) := o]);
        } else {
          assert ApiCall(s, Healthy, VerbPatch, KeyOf(o), o) == ApiResult(Some(404), s);
          assert CreateSpec(s, Healthy, o) == Step(None, s[KeyOf(o) := o]);
        }
      } else {
        assert Entries(objs) == Entries(init) + [];
        assert Entries(init) + [] == Entries(init);
      }
    }
  }

  /** Applying the same objects twice to a healthy cluster leaves it as applying them once. */
  lemma ApplyTwiceIsApplyOnce(m: Objects, objs: seq<KubeObject>)
    requires forall i :: 0 <= i < |objs| ==> NamespaceSet(objs[i])
    ensures ApplyAll(ApplyAll(m, Healthy, Apply, objs).objects, Healthy, Apply, objs) == ApplyAll(m, Healthy, Apply, objs)
  {
    HealthyApplyUpserts(m, objs);
    HealthyApplyUpserts(PutAll(m, Entries(objs)), objs);
    PutAllIdempotent(m, Entries(objs));
  }

  /** The keys of a list of objects are the keys of all but its last, and the last one's key if its kind is supported. */
  lemma KeySetSnoc(objs: seq<KubeObject>)
    requires |objs| > 0
    ensures KeySet(objs) == KeySet(objs[..|objs| - 1]) + (if Supported(objs[|objs| - 1].kind) then {KeyOf(objs[|objs| - 1])} else {})
  {
    var n := |objs|;
    var init := objs[..n - 1];
    forall k | k in KeySet(objs) ensures k in KeySet(init) || (Supported(objs[n - 1].kind) && k == KeyOf(objs[n - 1])) {
      var i :| 0 <= i < n && Supported(objs[i].kind) && k == KeyOf(objs[i]);
      if i < n - 1 {
        assert init[i] == objs[i];
      }
    }
    forall k | k in KeySet(init) ensures k in KeySet(objs) {
      var i :| 0 <= i < n - 1 && Supported(init[i].kind) && k == KeyOf(init[i]);
      assert objs[i] == init[i];
    }
  }

  /** A run, failed or not, touches no key but those of its supported objects. */
  lemma {:induction false} ApplyAllTouchesOnlyItsKeys(m: Objects, faults: Faults, action: DeployAction, objs: seq<KubeObject>)
    ensures forall k :: k !in KeySet(objs) ==>
              (k in ApplyAll(m, faults, action, objs).objects <==> k in m)
              && (k in m ==> ApplyAll(m, faults, action, objs).objects[k] == m[k])
    decreases |objs|
  {
    if |objs| > 0 {
      var n := |objs|;
      ApplyAllTouchesOnlyItsKeys(m, faults, action, objs[..n - 1]);
      KeySetSnoc(objs);
    }
  }

  /** On a healthy cluster, deleting objects with their namespaces set removes exactly their keys, present or not. */
  lemma {:induction false} HealthyDeleteRemoves(m: Objects, objs: seq<KubeObject>)
    requires forall i :: 0 <= i < |objs| ==> NamespaceSet(objs[i])
    ensures ApplyAll(m, Healthy, Delete, objs) == Step(None, m - KeySet(objs))
    decreases |objs|
  {
    if |objs| > 0 {
      var n := |objs|;
      var init, o := objs[..n - 1], objs[n - 1];
      HealthyDeleteRemoves(m, init);
      KeySetSnoc(objs);
      var s := m - KeySet(init);
      if Supported(o.kind) {
        assert s - {KeyOf(o)} == m - KeySet(objs);
        if KeyOf(o) !in s {
          assert s - {KeyOf(o)} == s;
        }
      }
    }
  }

  /** Deleting the same objects twice from a healthy cluster leaves it as deleting them once. */
  lemma DeleteTwiceIsDeleteOnce(m: Objects, objs: seq<KubeObject>)
    requires forall i :: 0 <= i < |objs| ==> NamespaceSet(objs[i])
    ensures ApplyAll(ApplyAll(m, Healthy, Delete, objs).objects, Healthy, Delete, objs) == ApplyAll(m, Healthy, Delete, objs)
  {
    HealthyDeleteRemoves(m, objs);
    HealthyDeleteRemoves(m - KeySet(objs), objs);
    assert m - KeySet(objs) - KeySet(objs) == m - KeySet(objs);
  }

  /** After a successful create run, every supported object is in the cluster. */
  lemma {:induction false} CreatedArePresent(m: Objects, faults: Faults, objs: seq<KubeObject>, i: nat)
    requires ApplyAll(m, faults, Create, objs).err.None?
    requires i < |objs| && Supported(objs[i].kind)
    ensures KeyOf(objs[i]) in ApplyAll(m, faults, Create, objs).objects
    decreases |objs|
  {
    var n := |objs|;
    var init := objs[..n - 1];
    var s := ApplyAll(m, faults, Create, init);
    assert s.err.None?;
    var r := CreateSpec(s.objects, faults, objs[n - 1]);
    assert ApplyAll(m, faults, Create, objs) == r;
    if i < n - 1 && KeyOf(objs[i]) != KeyOf(objs[n - 1]) {
      assert init[i] == objs[i];
      CreatedArePresent(m, faults, init, i);
      assert OnlyAt(s.objects, r.objects, KeyOf(objs[n - 1]));
    }
  }

  /**
   * Creating the same objects a second time fails at the first supported
   * object, whatever the cluster's faults, and changes nothing.
   */
  lemma CreateTwiceFails(m: Objects, faults: Faults, again: Faults, objs: seq<KubeObject>)
    requires ApplyAll(m, faults, Create, objs).err.None?
    requires |objs| > 0 && Supported(objs[0].kind)
    ensures ApplyAll(ApplyAll(m, faults, Create, objs).objects, again, Create, objs).err.Some?
    ensures ApplyAll(ApplyAll(m, faults, Create, objs).objects, again, Create, objs).objects
         == ApplyAll(m, faults, Create, objs).objects
  {
    var m1 := ApplyAll(m, faults, Create, objs).objects;
    CreatedArePresent(m, faults, objs, 0);
    assert objs[..1][..0] == [];
    assert ApplyAll(m1, again, Create, objs[..1]) == CreateSpec(m1, again, objs[0]);
    ApplyAllErrSticks(m1, again, Create, objs, 1);
  }

  // ---------------------------------------------------------------------
  // Build image and restart

  /** Settings of the service the client reads. */
  datatype ClientConfig = ClientConfig(
    buildServiceEnabled: bool,
    containerRegistry: string,
    containerRegistryInternal: string,
    buildServiceRepository: string,
    buildServiceTag: string,
    inboxDirectory: string,
    scheduleImportDirectory: string,
    spacefxDir: string)

  /**
   * What a deployment needs besides the cluster: the settings, helm, the
   * YAML loader, and the current time as the restart annotation renders
   * it and as the build job's name renders it.
   */
  datatype DeployEnv = DeployEnv(
    config: ClientConfig,
    helm: Helm,
    loadYaml: string -> Option<seq<KubeObject>>,
    restartStamp: string,
    buildStamp: string)

  const BuildDisabledMessage: string := "Build service is not enabled.  Unable to build container image."

  const FixedBuildArgCount: nat := 11

  /** The build service's arguments that do not depend on the build arguments. */
  function FixedBuildArgs(config: ClientConfig, build: AppContainerBuild): (r: seq<string>)
    ensures |r| == FixedBuildArgCount
  {
    var internal := config.containerRegistryInternal;
    [ "--dockerfile=" + build.dockerFile,
      "--context=dir://" + PathCombine(config.inboxDirectory, config.scheduleImportDirectory),
      "--destination=" + internal + "/" + build.destinationRepository + ":" + build.destinationTag,
      "--snapshot-mode=redo",
      "--insecure-registry=" + internal,
      "--registry-mirror=" + internal,
      "--single-snapshot",
      "--skip-tls-verify",
      "--skip-tls-verify-pull",
      "--skip-tls-verify-registry",
      "--verbosity=trace" ]
  }

  function BuildArgFlag(kv: (string, string)): string
  {
    "--build-arg=" + kv.0 + "=" + kv.1
  }

  function BuildArgFlags(kvs: seq<(string, string)>): (r: seq<string>)
    ensures |r| == |kvs|
    ensures forall i :: 0 <= i < |kvs| ==> r[i] == BuildArgFlag(kvs[i])
  {
    if |kvs| == 0 then [] else BuildArgFlags(kvs[..|kvs| - 1]) + [BuildArgFlag(kvs[|kvs| - 1])]
  }

  /** The build job's arguments: the fixed ones, then one flag per build argument in order. */
  method BuildJobArgs(config: ClientConfig, build: AppContainerBuild) returns (args: seq<string>)
    ensures |args| == FixedBuildArgCount + |build.buildArguments|
    ensures args[..FixedBuildArgCount] == FixedBuildArgs(config, build)
    ensures forall i :: 0 <= i < |build.buildArguments| ==>
              args[FixedBuildArgCount + i] == "--build-arg=" + build.buildArguments[i].0 + "=" + build.buildArguments[i].1
    ensures args == FixedBuildArgs(config, build) + BuildArgFlags(build.buildArguments)
  {
    args := FixedBuildArgs(config, build);
    var i := 0;
    while i < |build.buildArguments|
      invariant 0 <= i <= |build.buildArguments|
      invariant |args| == FixedBuildArgCount + i
      invariant args[..FixedBuildArgCount] == FixedBuildArgs(config, build)
      invariant forall j :: 0 <= j < i ==> args[FixedBuildArgCount + j] == BuildArgFlag(build.buildArguments[j])
    {
      args := args + [BuildArgFlag(build.buildArguments[i])];
      i := i + 1;
    }
    assert args == FixedBuildArgs(config, build) + BuildArgFlags(build.buildArguments);
  }

  /** The build job as `BuildContainerImage` creates it in namespace "core". */
  function BuildJob(env: DeployEnv, req: DeployRequest, args: seq<string>): (r: KubeObject)
    ensures r.kind == Job && r.nameSpace == "core" && |r.containers| == 1 && r.containers[0].args == args
  {
    var config := env.config;
    KubeObject(
      Job,
      ToLower(req.appName) + "-build-" + env.buildStamp,
      "core",
      map[],
      map[],
      false,
      [Container("buildservice",
                 config.containerRegistry + "/" + config.buildServiceRepository + ":" + config.buildServiceTag,
                 args,
                 [VolumeMount("context-dir", "/var/spacedev", false)])],
      [Volume("context-dir", config.spacefxDir)])
  }

  /** `BuildContainerImage`: a request without a build section throws before any call. */
  function BuildSpec(m: Objects, faults: Faults, env: DeployEnv, req: DeployRequest): (r: Step)
    ensures req.appContainerBuild.None? ==> r == Step(Some(NullReference), m)
    ensures r.err.Some? ==> r.objects == m
  {
    match req.appContainerBuild
    case None => Step(Some(NullReference), m)
    case Some(build) =>
      var job := BuildJob(env, req, FixedBuildArgs(env.config, build) + BuildArgFlags(build.buildArguments));
      var c := ApiCall(m, faults, VerbCreate, KeyOf(job), job);
      if c.code.None? then Step(None, c.objects) else Step(Some(HttpError(c.code.value)), c.objects)
  }

  method BuildContainerImage(cluster: Cluster, env: DeployEnv, req: DeployRequest) returns (err: Option<KubeError>)
    modifies cluster
    ensures Step(err, cluster.objects) == BuildSpec(old(cluster.objects), cluster.faults, env, req)
  {
    if req.appContainerBuild.None? {
      return Some(NullReference);
    }
    var args := BuildJobArgs(env.config, req.appContainerBuild.value);
    var job := BuildJob(env, req, args);
    var code := cluster.Call(VerbCreate, KeyOf(job), job);
    if code.Some? {
      err := Some(HttpError(code.value));
    } else {
      err := None;
    }
  }

  const RestartAnnotation: string := "deployment.kubernetes.io/restart"

  /** Where the deployment a restart request names lives. */
  function RestartKey(req: DeployRequest): ObjKey
  {
    ObjKey(Deployment, req.nameSpace, req.appName)
  }

  /** A deployment with its pod template stamped with the restart time, which makes the cluster roll its pods. */
  function Restarted(dep: KubeObject, stamp: string): (r: KubeObject)
    ensures RestartAnnotation in r.templateAnnotations && r.templateAnnotations[RestartAnnotation] == stamp
    ensures forall k :: k in dep.templateAnnotations && k != RestartAnnotation ==>
              k in r.templateAnnotations && r.templateAnnotations[k] == dep.templateAnnotations[k]
    ensures r.(templateAnnotations := dep.templateAnnotations) == dep
  {
    dep.(templateAnnotations := dep.templateAnnotations[RestartAnnotation := stamp])
  }

  /**
   * The restart action: read the named deployment, stamp it, and replace
   * it.  Stamping a deployment whose pod template has no annotation
   * dictionary dereferences null before the replace is sent.
   */
  function RestartSpec(m: Objects, faults: Faults, stamp: string, req: DeployRequest): (r: Step)
    ensures OnlyAt(m, r.objects, RestartKey(req))
    ensures r.err.Some? ==> r.objects == m
    ensures ReadSpec(m, faults, RestartKey(req)).Ok? && !m[RestartKey(req)].templateAnnotated ==>
              r == Step(Some(NullReference), m)
    ensures r.err.None? ==>
              RestartKey(req) in m && RestartKey(req) in r.objects && m[RestartKey(req)].templateAnnotated
              && r.objects[RestartKey(req)] == Restarted(m[RestartKey(req)], stamp)
  {
    var key := RestartKey(req);
    match ReadSpec(m, faults, key)
    case Err(code) => Step(Some(HttpError(code)), m)
    case Ok(dep) =>
      if !dep.templateAnnotated then Step(Some(NullReference), m)
      else
        var c := ApiCall(m, faults, VerbReplace, key, Restarted(dep, stamp));
        if c.code.Some? then Step(Some(HttpError(c.code.value)), m) else Step(None, c.objects)
  }

  method Restart(cluster: Cluster, stamp: string, req: DeployRequest) returns (err: Option<KubeError>)
    modifies cluster
    ensures Step(err, cluster.objects) == RestartSpec(old(cluster.objects), cluster.faults, stamp, req)
  {
    var key := RestartKey(req);
    var read := cluster.Read(key);
    if read.Err? {
      return Some(HttpError(read.error));
    }
    if !read.value.templateAnnotated {
      return Some(NullReference);
    }
    var code := cluster.Call(VerbReplace, key, Restarted(read.value, stamp));
    if code.Some? {
      err := Some(HttpError(code.value));
    } else {
      err := None;
    }
  }

  // ---------------------------------------------------------------------
  // DeployItem and DeployToKubernetes

  /** The response `DeployToKubernetes` returns and the objects it leaves. */
  datatype Deployed = Deployed(response: DeployResponse, objects: Objects)

  function FailedMessage(action: DeployAction, e: KubeError): string
  {
    "Failed '" + ActionName(action) + "' action.  Error: " + ErrorMessage(e)
  }

  /** What the request's action does to the cluster, up to the first exception. */
  function ActionStep(m: Objects, faults: Faults, env: DeployEnv, req: DeployRequest): Step
  {
    if req.deployAction == RestartDeployment then RestartSpec(m, faults, env.restartStamp, req)
    else if req.deployAction == BuildImage then BuildSpec(m, faults, env, req)
    else
      match GeneratedObjects(env.helm, env.loadYaml(req.yamlFileContents))
      case Err(e) => Step(Some(TemplateFailure(e)), m)
      case Ok(objs) => ApplyAll(m, faults, req.deployAction, objs)
  }

  /**
   * `DeployToKubernetes`: the response ends Successful with its message
   * untouched, or GeneralFailure with the message of what went wrong; the
   * request is never changed.
   */
  function DeployOutcome(m: Objects, faults: Faults, env: DeployEnv, item: DeployResponse): (r: Deployed)
    ensures r.response.request == item.request
    ensures r.response.header.trackingId == item.header.trackingId
    ensures r.response.header.correlationId == item.header.correlationId
    ensures r.response.header.status == Successful || r.response.header.status == GeneralFailure
    ensures r.response.header.status == Successful ==> r.response.header.message == item.header.message
    ensures item.request.deployAction == BuildImage && !env.config.buildServiceEnabled ==>
              r == Deployed(WithOutcome(item, GeneralFailure, BuildDisabledMessage), m)
    ensures r.response.header.status == Successful <==>
              (ActionStep(m, faults, env, item.request).err.None?
               && (item.request.deployAction != BuildImage || env.config.buildServiceEnabled))
  {
    var req := item.request;
    if req.deployAction == BuildImage && !env.config.buildServiceEnabled then
      Deployed(WithOutcome(item, GeneralFailure, BuildDisabledMessage), m)
    else
      var s := ActionStep(m, faults, env, req);
      match s.err
      case None => Deployed(WithStatus(item, Successful), s.objects)
      case Some(e) => Deployed(WithOutcome(item, GeneralFailure, FailedMessage(req.deployAction, e)), s.objects)
  }

  method DeployToKubernetes(cluster: Cluster, env: DeployEnv, item: DeployResponse) returns (r: DeployResponse)
    modifies cluster
    ensures Deployed(r, cluster.objects) == DeployOutcome(old(cluster.objects), cluster.faults, env, item)
  {
    var req := item.request;
    var action := req.deployAction;
    if action == RestartDeployment {
      var err := Restart(cluster, env.restartStamp, req);
      if err.Some? {
        return WithOutcome(item, GeneralFailure, FailedMessage(action, err.value));
      }
      return WithStatus(item, Successful);
    }
    if action == BuildImage {
      if !env.config.buildServiceEnabled {
        return WithOutcome(item, GeneralFailure, BuildDisabledMessage);
      }
      var err := BuildContainerImage(cluster, env, req);
      if err.Some? {
        return WithOutcome(item, GeneralFailure, FailedMessage(action, err.value));
      }
      return WithStatus(item, Successful);
    }
    var generated := GenerateKubernetesObjectsFromDeployment(env.helm, env.loadYaml, req.yamlFileContents);
    if generated.Err? {
      return WithOutcome(item, GeneralFailure, FailedMessage(action, TemplateFailure(generated.error)));
    }
    var err := ApplyObjects(cluster, action, generated.value);
    if err.Some? {
      return WithOutcome(item, GeneralFailure, FailedMessage(action, err.value));
    }
    return WithStatus(item, Successful);
  }

  /** The switch on the action inside the loop of `DeployToKubernetes`. */
  method ApplyViaYamlObject(cluster: Cluster, action: DeployAction, o: KubeObject) returns (err: Option<KubeError>)
    modifies cluster
    ensures Step(err, cluster.objects) == ApplyObject(old(cluster.objects), cluster.faults, action, o)
  {
    match action {
      case Apply => err := PatchViaYamlObject(cluster, o);
      case Delete => err := DeleteViaYamlObject(cluster, o);
      case Create => err := CreateViaYamlObject(cluster, o);
      case _ => err := Some(UnknownAction(action));
    }
  }

  /** One more object: the run so far, then that object unless the run has already failed. */
  lemma ApplyAllSnoc(m: Objects, faults: Faults, action: DeployAction, objs: seq<KubeObject>, i: nat)
    requires i < |objs|
    ensures ApplyAll(m, faults, action, objs[..i + 1])
         == (var s := ApplyAll(m, faults, action, objs[..i]);
             if s.err.Some? then s else ApplyObject(s.objects, faults, action, objs[i]))
  {
    assert objs[..i + 1][..i] == objs[..i];
  }

  /** The loop of `DeployToKubernetes` over the generated objects, switching on the action for each. */
  method ApplyObjects(cluster: Cluster, action: DeployAction, objs: seq<KubeObject>) returns (err: Option<KubeError>)
    modifies cluster
    ensures Step(err, cluster.objects) == ApplyAll(old(cluster.objects), cluster.faults, action, objs)
  {
    ghost var m0 := cluster.objects;
    var i := 0;
    while i < |objs|
      invariant 0 <= i <= |objs|
      invariant ApplyAll(m0, cluster.faults, action, objs[..i]) == Step(None, cluster.objects)
    {
      err := ApplyViaYamlObject(cluster, action, objs[i]);
      ApplyAllSnoc(m0, cluster.faults, action, objs, i);
      if err.Some? {
        ApplyAllErrSticks(m0, cluster.faults, action, objs, i + 1);
        return;
      }
      i := i + 1;
    }
    assert objs[..|objs|] == objs;
    err := None;
  }

  /** `DeployItem`'s defaults: a blank group label becomes the app name, a blank customer tracking id the tracking id. */
  function WithDefaults(item: DeployResponse): (r: DeployResponse)
    ensures r.header == item.header
    ensures !IsBlank(item.request.appGroupLabel) ==> r.request.appGroupLabel == item.request.appGroupLabel
    ensures IsBlank(item.request.appGroupLabel) ==> r.request.appGroupLabel == item.request.appName
    ensures !IsBlank(item.request.customerTrackingId) ==> r.request.customerTrackingId == item.request.customerTrackingId
    ensures IsBlank(item.request.customerTrackingId) ==> r.request.customerTrackingId == item.header.trackingId
    ensures r.request.(appGroupLabel := item.request.appGroupLabel, customerTrackingId := item.request.customerTrackingId)
         == item.request
  {
    var req := item.request;
    var req := if IsBlank(req.appGroupLabel) then req.(appGroupLabel := req.appName) else req;
    var req := if IsBlank(req.customerTrackingId) then req.(customerTrackingId := item.header.trackingId) else req;
    item.(request := req)
  }

  /** Defaulting twice is defaulting once. */
  lemma WithDefaultsIdempotent(item: DeployResponse)
    ensures WithDefaults(WithDefaults(item)) == WithDefaults(item)
  {
  }

  method DeployItem(cluster: Cluster, env: DeployEnv, item: DeployResponse) returns (r: DeployResponse)
    modifies cluster
    ensures Deployed(r, cluster.objects) == DeployOutcome(old(cluster.objects), cluster.faults, env, WithDefaults(item))
  {
    r := DeployToKubernetes(cluster, env, WithDefaults(item));
  }

  // ---------------------------------------------------------------------
  // Passwords

  newtype Byte = x: int | 0 <= x < 256

  /** The password alphabet: letters and digits without the look-alikes 'l' and 'I'. */
  const AllowedChars: string := LowerChars + UpperChars + DigitChars
  const LowerChars: string := "abcdefghijkmnopqrstuvwxyz"
  const UpperChars: string := "ABCDEFGHJKLMNOPQRSTUVWXYZ"
  const DigitChars: string := "0123456789"

  const PasswordLength: nat := 12

  /** `GenerateAPassword`: each of the random bytes picks a character of the alphabet, modulo its length. */
  method GenerateAPassword(random: seq<Byte>) returns (password: string)
    requires |random| == PasswordLength
    ensures |password| == PasswordLength
    ensures forall i :: 0 <= i < PasswordLength ==> password[i] == AllowedChars[random[i] as int % |AllowedChars|]
    ensures forall i :: 0 <= i < PasswordLength ==> password[i] in AllowedChars
  {
    var chars := new char[PasswordLength];
    for i := 0 to PasswordLength
      invariant forall j :: 0 <= j < i ==> chars[j] == AllowedChars[random[j] as int % |AllowedChars|]
    {
      chars[i] := AllowedChars[random[i] as int % |AllowedChars|];
    }
    password := chars[..];
  }

  /** The alphabet has 60 characters. */
  lemma AlphabetSize()
    ensures |AllowedChars| == 60
  {
  }

  lemma LowerExcludesLookAlikes()
    ensures 'l' !in LowerChars && 'I' !in LowerChars
  {
    assert forall i :: 0 <= i < |LowerChars| ==> LowerChars[i] != 'l' && LowerChars[i] != 'I';
  }

  lemma UpperExcludesLookAlikes()
    ensures 'l' !in UpperChars && 'I' !in UpperChars
  {
    assert forall i :: 0 <= i < |UpperChars| ==> UpperChars[i] != 'l' && UpperChars[i] != 'I';
  }

  /** Neither look-alike, 'l' nor 'I', is in the alphabet. */
  lemma LookAlikesExcluded()
    ensures 'l' !in AllowedChars && 'I' !in AllowedChars
  {
    LowerExcludesLookAlikes();
    UpperExcludesLookAlikes();
    assert 'l' !in DigitChars && 'I' !in DigitChars;
  }

  /** So no password holds either look-alike. */
  lemma PasswordAvoidsLookAlikes(password: string)
    requires forall i :: 0 <= i < |password| ==> password[i] in AllowedChars
    ensures forall i :: 0 <= i < |password| ==> password[i] != 'l' && password[i] != 'I'
  {
    LookAlikesExcluded();
  }

  // ---------------------------------------------------------------------
  // Template tokens

  const TokenPrefix: string := "SPACEFX-TEMPLATE_"
  const NamespaceToken: string := TokenPrefix + "APP_NAMESPACE"
  const NameToken: string := TokenPrefix + "APP_NAME"
  const GroupToken: string := TokenPrefix + "APP_GROUP"
  const TrackingIdToken: string := TokenPrefix + "TRACKING_ID"
  const CustomerTrackingIdToken: string := TokenPrefix + "CUSTOMER_TRACKING_ID"
  const CorrelationIdToken: string := TokenPrefix + "CORRELATION_ID"
  const StartTimeToken: string := TokenPrefix + "APP_START_TIME"
  const MaxDurationToken: string := TokenPrefix + "APP_MAX_DURATION"
  const ScheduleToken: string := TokenPrefix + "APP_SCHEDULE"
  const ContextToken: string := TokenPrefix + "APP_CONTEXT"

  /** Five hours, the maximum duration a request without one is given. */
  const DefaultMaxDuration: Duration := Duration(5 * 60 * 60, 0)

  /** Each replacement in turn, on the output of the one before. */
  function ReplaceAll(s: string, subs: seq<(string, string)>): string
    requires forall i :: 0 <= i < |subs| ==> |subs[i].0| > 0
    decreases |subs|
  {
    if |subs| == 0 then s else ReplaceAll(Replace(s, subs[0].0, subs[0].1), subs[1..])
  }

  /** Replacements of patterns that do not occur change nothing. */
  lemma {:induction false} ReplaceAllAbsent(s: string, subs: seq<(string, string)>)
    requires forall i :: 0 <= i < |subs| ==> |subs[i].0| > 0 && !Contains(s, subs[i].0)
    ensures ReplaceAll(s, subs) == s
    decreases |subs|
  {
    if |subs| > 0 {
      ReplaceAbsent(s, subs[0].0, subs[0].1);
      ReplaceAllAbsent(s, subs[1..]);
    }
  }

  /** The token replacements before the context, in the order the source makes them. */
  function TokenValues(req: DeployRequest, startTime: string, maxDuration: Duration): (r: seq<(string, string)>)
    ensures |r| == 9
    ensures forall i :: 0 <= i < |r| ==> StartsWith(r[i].0, TokenPrefix) && |r[i].0| > |TokenPrefix|
  {
    [ (NamespaceToken, req.nameSpace),
      (NameToken, ToLower(req.appName)),
      (GroupToken, req.appGroupLabel),
      (TrackingIdToken, req.header.trackingId),
      (CustomerTrackingIdToken, req.customerTrackingId),
      (CorrelationIdToken, req.header.correlationId),
      (StartTimeToken, startTime),
      (MaxDurationToken, IntToString(maxDuration.seconds)),
      (ScheduleToken, req.schedule) ]
  }

  /**
   * `replaceTemplateTokens`: the tokens replaced in order, then the
   * context token by the base64 of a context string or by an empty
   * quoted string for a context file, and left alone without a context.
   * A request without a start time throws; otherwise its missing
   * maximum duration is set to five hours, as `??=` does.  `format`
   * renders a timestamp in round-trip form, `base64` encodes text.
   */
  function ReplaceTemplateTokens(yaml: string, req: DeployRequest, format: Ticks -> string, base64: string -> string)
    : (r: Result<(string, DeployRequest), KubeError>)
    ensures r.Err? <==> req.startTime.None?
    ensures r.Err? ==> r.error == NullReference
    ensures r.Ok? && req.maxDuration.Some? ==> r.value.1 == req
    ensures r.Ok? && req.maxDuration.None? ==> r.value.1 == req.(maxDuration := Some(DefaultMaxDuration))
  {
    match req.startTime
    case None => Err(NullReference)
    case Some(start) =>
      var maxDuration := if req.maxDuration.Some? then req.maxDuration.value else DefaultMaxDuration;
      var s := ReplaceAll(yaml, TokenValues(req, format(start), maxDuration));
      var s := match req.appContext
        case NoContext => s
        case ContextString(c) => Replace(s, ContextToken, base64(c))
        case ContextFile(_, _) => Replace(s, ContextToken, "\"\"");
      Ok((s, req.(maxDuration := Some(maxDuration))))
  }

  /**
   * Why the namespace token goes first: the name token is its prefix, so
   * replacing the name first would leave "SPACE" behind the name.
   */
  lemma NameTokenPrefixesNamespaceToken(name: string)
    ensures StartsWith(NamespaceToken, NameToken)
    ensures Replace(NamespaceToken, NameToken, name) == name + "SPACE"
  {
    assert NamespaceToken == NameToken + "SPACE";
    assert NamespaceToken[..|NameToken|] == NameToken;
    assert NamespaceToken[|NameToken|..] == "SPACE";
    assert Replace("SPACE", NameToken, name) == "SPACE";
  }

  /** With the order the source uses, the namespace token becomes exactly the namespace. */
  lemma NamespaceTokenBecomesNamespace(req: DeployRequest, format: Ticks -> string, base64: string -> string)
    requires req.startTime.Some?
    requires !Contains(req.nameSpace, TokenPrefix)
    ensures ReplaceTemplateTokens(NamespaceToken, req, format, base64).Ok?
    ensures ReplaceTemplateTokens(NamespaceToken, req, format, base64).value.0 == req.nameSpace
  {
    var ns := req.nameSpace;
    var maxDuration := if req.maxDuration.Some? then req.maxDuration.value else DefaultMaxDuration;
    var subs := TokenValues(req, format(req.startTime.value), maxDuration);
    ReplaceWhole(NamespaceToken, ns);
    forall i | 0 <= i < |subs[1..]|
      ensures !Contains(ns, subs[1..][i].0)
    {
      var token := subs[1..][i].0;
      assert token == TokenPrefix + token[|TokenPrefix|..];
      if Contains(ns, token) {
        ContainsPrefix(ns, TokenPrefix, token[|TokenPrefix|..]);
      }
    }
    ReplaceAllAbsent(ns, subs[1..]);
    assert ReplaceAll(NamespaceToken, subs) == ns;
    if !req.appContext.NoContext? {
      assert ContextToken == TokenPrefix + "APP_CONTEXT";
      if Contains(ns, ContextToken) {
        ContainsPrefix(ns, TokenPrefix, "APP_CONTEXT");
      }
      ReplaceAbsent(ns, ContextToken, if req.appContext.ContextString? then base64(req.appContext.appContext) else "\"\"");
    }
  }

  /** None of the other tokens occurs inside the context token. */
  lemma ContextTokenHoldsNoOtherToken(subs: seq<(string, string)>)
    requires forall i :: 0 <= i < |subs| ==> subs[i].0 in [NamespaceToken, NameToken, GroupToken, TrackingIdToken,
      CustomerTrackingIdToken, CorrelationIdToken, StartTimeToken, MaxDurationToken, ScheduleToken]
    ensures forall i :: 0 <= i < |subs| ==> !Contains(ContextToken, subs[i].0)
  {
    assert ContextToken[1..] == "PACEFX-TEMPLATE_APP_CONTEXT";
    assert 'S' !in ContextToken[1..];
    NotOccurring(ContextToken, NameToken, 21);
    NotOccurring(ContextToken, GroupToken, 21);
    NotOccurring(ContextToken, TrackingIdToken, 17);
  }

  /**
   * The context token becomes the base64 of a context string, or an
   * empty quoted string for a context file, and stays as it is when the
   * request has no context.
   */
  lemma ContextTokenCases(req: DeployRequest, format: Ticks -> string, base64: string -> string)
    requires req.startTime.Some?
    ensures ReplaceTemplateTokens(ContextToken, req, format, base64).Ok?
    ensures ReplaceTemplateTokens(ContextToken, req, format, base64).value.0
         == match req.appContext
            case NoContext => ContextToken
            case ContextString(c) => base64(c)
            case ContextFile(_, _) => "\"\""
  {
    var maxDuration := if req.maxDuration.Some? then req.maxDuration.value else DefaultMaxDuration;
    var subs := TokenValues(req, format(req.startTime.value), maxDuration);
    ContextTokenHoldsNoOtherToken(subs);
    ReplaceAllAbsent(ContextToken, subs);
    match req.appContext {
      case NoContext =>
      case ContextString(c) => ReplaceWhole(ContextToken, base64(c));
      case ContextFile(_, _) => ReplaceWhole(ContextToken, "\"\"");
    }
  }

  // ---------------------------------------------------------------------
  // Volume injections

  function MountName(v: VolumeMount): string { v.name }

  /** An injected mount keeps only its name and mount path. */
  function MountCopy(v: VolumeMount): VolumeMount { VolumeMount(v.name, v.mountPath, false) }

  function VolumeName(v: Volume): string { v.name }

  function VolumeCopy(v: Volume): Volume { v }

  ghost predicate KeepsName<T(!new)>(nameOf: T -> string, copy: T -> T)
  {
    forall y :: nameOf(copy(y)) == nameOf(y)
  }

  function Names<T>(xs: seq<T>, nameOf: T -> string): set<string>
  {
    set i | 0 <= i < |xs| :: nameOf(xs[i])
  }

  /**
   * Each candidate in turn appended (as `copy` makes it) unless an item
   * of its name is already there, counting the ones appended before it.
   */
  function AddMissing<T(!new)>(xs: seq<T>, ys: seq<T>, nameOf: T -> string, copy: T -> T): (r: seq<T>)
    requires KeepsName(nameOf, copy)
    ensures |xs| <= |r| && r[..|xs|] == xs
    ensures forall j :: |xs| <= j < |r| ==> nameOf(r[j]) !in Names(xs, nameOf) && exists i :: 0 <= i < |ys| && r[j] == copy(ys[i])
    decreases |ys|
  {
    if |ys| == 0 then xs
    else
      var acc := AddMissing(xs, ys[..|ys| - 1], nameOf, copy);
      var y := ys[|ys| - 1];
      if exists j :: 0 <= j < |acc| && nameOf(acc[j]) == nameOf(y) then acc
      else
        assert acc[..|xs|] == xs;
        assert forall j :: |xs| <= j < |acc| ==> exists i :: 0 <= i < |ys| && acc[j] == copy(ys[i]) by {
          forall j | |xs| <= j < |acc| ensures exists i :: 0 <= i < |ys| && acc[j] == copy(ys[i]) {
            var i :| 0 <= i < |ys| - 1 && acc[j] == copy(ys[..|ys| - 1][i]);
            assert ys[..|ys| - 1][i] == ys[i];
          }
        }
        acc + [copy(y)]
  }

  /** The names after adding are the names before and the candidates' names. */
  lemma {:induction false} AddMissingNames<T(!new)>(xs: seq<T>, ys: seq<T>, nameOf: T -> string, copy: T -> T)
    requires KeepsName(nameOf, copy)
    ensures Names(AddMissing(xs, ys, nameOf, copy), nameOf) == Names(xs, nameOf) + Names(ys, nameOf)
    decreases |ys|
  {
    if |ys| > 0 {
      var init, y := ys[..|ys| - 1], ys[|ys| - 1];
      AddMissingNames(xs, init, nameOf, copy);
      var acc := AddMissing(xs, init, nameOf, copy);
      assert Names(ys, nameOf) == Names(init, nameOf) + {nameOf(y)} by {
        forall n | n in Names(ys, nameOf) ensures n in Names(init, nameOf) + {nameOf(y)} {
          var i :| 0 <= i < |ys| && n == nameOf(ys[i]);
          if i < |ys| - 1 {
            assert init[i] == ys[i];
          }
        }
        forall n | n in Names(init, nameOf) ensures n in Names(ys, nameOf) {
          var i :| 0 <= i < |init| && n == nameOf(init[i]);
          assert ys[i] == init[i];
        }
      }
      if exists j :: 0 <= j < |acc| && nameOf(acc[j]) == nameOf(y) {
        var j :| 0 <= j < |acc| && nameOf(acc[j]) == nameOf(y);
        assert nameOf(y) in Names(acc, nameOf);
      } else {
        var r := acc + [copy(y)];
        assert Names(r, nameOf) == Names(acc, nameOf) + {nameOf(y)} by {
          forall n | n in Names(r, nameOf) ensures n in Names(acc, nameOf) + {nameOf(y)} {
            var i :| 0 <= i < |r| && n == nameOf(r[i]);
            if i < |acc| {
              assert r[i] == acc[i];
            }
          }
          forall n | n in Names(acc, nameOf) ensures n in Names(r, nameOf) {
            var i :| 0 <= i < |acc| && n == nameOf(acc[i]);
            assert r[i] == acc[i];
          }
          assert nameOf(r[|acc|]) == nameOf(y);
        }
      }
    }
  }

  /** Candidates whose names are all there already add nothing. */
  lemma {:induction false} AddMissingNoOp<T(!new)>(xs: seq<T>, ys: seq<T>, nameOf: T -> string, copy: T -> T)
    requires KeepsName(nameOf, copy)
    requires Names(ys, nameOf) <= Names(xs, nameOf)
    ensures AddMissing(xs, ys, nameOf, copy) == xs
    decreases |ys|
  {
    if |ys| > 0 {
      var init, y := ys[..|ys| - 1], ys[|ys| - 1];
      assert Names(init, nameOf) <= Names(ys, nameOf) by {
        forall n | n in Names(init, nameOf) ensures n in Names(ys, nameOf) {
          var i :| 0 <= i < |init| && n == nameOf(init[i]);
          assert ys[i] == init[i];
        }
      }
      AddMissingNoOp(xs, init, nameOf, copy);
      assert nameOf(y) in Names(ys, nameOf);
      var j :| 0 <= j < |xs| && nameOf(y) == nameOf(xs[j]);
    }
  }

  /** Adding the same candidates a second time changes nothing. */
  lemma AddMissingIdempotent<T(!new)>(xs: seq<T>, ys: seq<T>, nameOf: T -> string, copy: T -> T)
    requires KeepsName(nameOf, copy)
    ensures AddMissing(AddMissing(xs, ys, nameOf, copy), ys, nameOf, copy) == AddMissing(xs, ys, nameOf, copy)
  {
    AddMissingNames(xs, ys, nameOf, copy);
    AddMissingNoOp(AddMissing(xs, ys, nameOf, copy), ys, nameOf, copy);
  }

  /** The index of the first container named `target`, if any. */
  function FirstNamed(cs: seq<Container>, target: string): (r: Option<nat>)
    ensures r.Some? ==> r.value < |cs| && cs[r.value].name == target
                        && forall j :: 0 <= j < r.value ==> cs[j].name != target
    ensures r.None? ==> forall j :: 0 <= j < |cs| ==> cs[j].name != target
  {
    if |cs| == 0 then None
    else if cs[0].name == target then Some(0)
    else match FirstNamed(cs[1..], target)
      case None => None
      case Some(k) => Some(k + 1)
  }

  /** The container the injections go to: the first with the target name, else the first. */
  function InjectionTarget(cs: seq<Container>, target: string): (r: nat)
    ensures |cs| > 0 ==> r < |cs|
    ensures (exists i :: 0 <= i < |cs| && cs[i].name == target) ==>
              cs[r].name == target && forall j :: 0 <= j < r ==> cs[j].name != target
    ensures (forall i :: 0 <= i < |cs| ==> cs[i].name != target) ==> r == 0
  {
    match FirstNamed(cs, target)
    case Some(i) => i
    case None => 0
  }

  /** The target container's mounts and the pod's volumes with the missing injections added. */
  function Injected(dep: KubeObject, target: string, mounts: seq<VolumeMount>, volumes: seq<Volume>): KubeObject
    requires |dep.containers| > 0
  {
    var t := InjectionTarget(dep.containers, target);
    var c := dep.containers[t];
    dep.(containers := dep.containers[t := c.(volumeMounts := AddMissing(c.volumeMounts, mounts, MountName, MountCopy))],
         volumes := AddMissing(dep.volumes, volumes, VolumeName, VolumeCopy))
  }

  /** The target container's mounts, each configured mount appended (read-write) unless its name is there. */
  method AppendMissingMounts(existing: seq<VolumeMount>, mounts: seq<VolumeMount>) returns (r: seq<VolumeMount>)
    ensures r == AddMissing(existing, mounts, MountName, MountCopy)
  {
    r := existing;
    var i := 0;
    while i < |mounts|
      invariant 0 <= i <= |mounts|
      invariant r == AddMissing(existing, mounts[..i], MountName, MountCopy)
    {
      assert mounts[..i + 1][..i] == mounts[..i];
      var mount := mounts[i];
      if !exists j :: 0 <= j < |r| && r[j].name == mount.name {
        r := r + [VolumeMount(mount.name, mount.mountPath, false)];
      }
      i := i + 1;
    }
    assert mounts[..|mounts|] == mounts;
  }

  /** The pod's volumes, each configured volume appended unless its name is there. */
  method AppendMissingVolumes(existing: seq<Volume>, volumes: seq<Volume>) returns (r: seq<Volume>)
    ensures r == AddMissing(existing, volumes, VolumeName, VolumeCopy)
  {
    r := existing;
    var i := 0;
    while i < |volumes|
      invariant 0 <= i <= |volumes|
      invariant r == AddMissing(existing, volumes[..i], VolumeName, VolumeCopy)
    {
      assert volumes[..i + 1][..i] == volumes[..i];
      var volume := volumes[i];
      if !exists j :: 0 <= j < |r| && r[j].name == volume.name {
        r := r + [volume];
      }
      i := i + 1;
    }
    assert volumes[..|volumes|] == volumes;
  }

  /**
   * What the file-server injections are made from: the configured volume
   * mount and volume YAML, the YAML reader for each list, and the
   * timestamp and base64 renderers the token pass uses.
   */
  datatype InjectionConfig = InjectionConfig(
    mountsYaml: string,
    volumesYaml: string,
    readMounts: string -> seq<VolumeMount>,
    readVolumes: string -> seq<Volume>,
    format: Ticks -> string,
    base64: string -> string)

  /**
   * `AddContainerAndVolumeInjections`: find the target container (a pod
   * without containers has no container 0 and throws), run the token pass
   * over the mount YAML and inject the mounts it lists, then run the token
   * pass over the volume YAML, with the request the first pass updated
   * (it has a start time, so this pass cannot throw), and inject those
   * volumes.  The deployment and the request come back.
   */
  function Injections(dep: KubeObject, target: string, req: DeployRequest, cfg: InjectionConfig)
    : Result<(KubeObject, DeployRequest), KubeError>
  {
    if |dep.containers| == 0 then Err(IndexOutOfRange)
    else
      var mounts :- ReplaceTemplateTokens(cfg.mountsYaml, req, cfg.format, cfg.base64);
      var volumes := ReplaceTemplateTokens(cfg.volumesYaml, mounts.1, cfg.format, cfg.base64).value;
      Ok((Injected(dep, target, cfg.readMounts(mounts.0), cfg.readVolumes(volumes.0)), volumes.1))
  }

  /** The token pass does not read the maximum duration it fills in. */
  lemma TokensIgnoreFilledDuration(yaml: string, req: DeployRequest, format: Ticks -> string, base64: string -> string)
    requires req.startTime.Some?
    ensures ReplaceTemplateTokens(yaml, req, format, base64).Ok?
    ensures var filled := ReplaceTemplateTokens(yaml, req, format, base64).value.1;
            ReplaceTemplateTokens(yaml, filled, format, base64) == ReplaceTemplateTokens(yaml, req, format, base64)
  {
  }

  /**
   * The injections fail on a pod without containers, and then on a request
   * without a start time; otherwise both lists are read from the YAML the
   * token pass renders for the request as given, the deployment gets the
   * missing ones, and the request keeps everything but a missing maximum
   * duration, which becomes five hours.
   */
  lemma InjectionsOutcome(dep: KubeObject, target: string, req: DeployRequest, cfg: InjectionConfig)
    ensures |dep.containers| == 0 ==> Injections(dep, target, req, cfg) == Err(IndexOutOfRange)
    ensures |dep.containers| > 0 && req.startTime.None? ==> Injections(dep, target, req, cfg) == Err(NullReference)
    ensures |dep.containers| > 0 && req.startTime.Some? ==>
              ReplaceTemplateTokens(cfg.mountsYaml, req, cfg.format, cfg.base64).Ok?
              && ReplaceTemplateTokens(cfg.volumesYaml, req, cfg.format, cfg.base64).Ok?
              && Injections(dep, target, req, cfg)
                 == Ok((Injected(dep, target,
                                 cfg.readMounts(ReplaceTemplateTokens(cfg.mountsYaml, req, cfg.format, cfg.base64).value.0),
                                 cfg.readVolumes(ReplaceTemplateTokens(cfg.volumesYaml, req, cfg.format, cfg.base64).value.0)),
                        req.(maxDuration := Some(if req.maxDuration.Some? then req.maxDuration.value else DefaultMaxDuration))))
  {
    if |dep.containers| > 0 && req.startTime.Some? {
      TokensIgnoreFilledDuration(cfg.volumesYaml, req, cfg.format, cfg.base64);
      var first := ReplaceTemplateTokens(cfg.mountsYaml, req, cfg.format, cfg.base64).value.1;
      assert ReplaceTemplateTokens(cfg.volumesYaml, first, cfg.format, cfg.base64)
          == ReplaceTemplateTokens(cfg.volumesYaml, req, cfg.format, cfg.base64);
    }
  }

  /**
   * The injection method: the target container's mounts and the pod's
   * volumes are extended in two loops, each after its own token pass.
   */
  method AddContainerAndVolumeInjections(dep: KubeObject, target: string, req: DeployRequest, cfg: InjectionConfig)
    returns (r: Result<(KubeObject, DeployRequest), KubeError>)
    ensures r == Injections(dep, target, req, cfg)
  {
    if |dep.containers| == 0 {
      return Err(IndexOutOfRange);
    }
    var t := InjectionTarget(dep.containers, target);
    var mountsYaml := ReplaceTemplateTokens(cfg.mountsYaml, req, cfg.format, cfg.base64);
    if mountsYaml.Err? {
      return Err(mountsYaml.error);
    }
    var targetMounts := AppendMissingMounts(dep.containers[t].volumeMounts, cfg.readMounts(mountsYaml.value.0));
    var request := mountsYaml.value.1;
    var volumesYaml := ReplaceTemplateTokens(cfg.volumesYaml, request, cfg.format, cfg.base64).value;
    var podVolumes := AppendMissingVolumes(dep.volumes, cfg.readVolumes(volumesYaml.0));
    var c := dep.containers[t].(volumeMounts := targetMounts);
    r := Ok((dep.(containers := dep.containers[t := c], volumes := podVolumes), volumesYaml.1));
  }

  /** Injecting twice is injecting once: the second run finds every name present. */
  lemma InjectionsIdempotent(dep: KubeObject, target: string, mounts: seq<VolumeMount>, volumes: seq<Volume>)
    requires |dep.containers| > 0
    ensures |Injected(dep, target, mounts, volumes).containers| > 0
    ensures Injected(Injected(dep, target, mounts, volumes), target, mounts, volumes) == Injected(dep, target, mounts, volumes)
  {
    var once := Injected(dep, target, mounts, volumes);
    var t := InjectionTarget(dep.containers, target);
    assert forall j :: 0 <= j < |dep.containers| ==> once.containers[j].name == dep.containers[j].name;
    assert InjectionTarget(once.containers, target) == t;
    AddMissingIdempotent(dep.containers[t].volumeMounts, mounts, MountName, MountCopy);
    AddMissingIdempotent(dep.volumes, volumes, VolumeName, VolumeCopy);
  }
}
