// One item of a schedule file: a JSON object read, property by property
// and ignoring the case of property names, into a deploy request, and
// the checks a request must pass before it is queued.  The JSON
// deserializers for headers, timestamps and durations, the text of the
// library's exception messages, the enum numbering, GUIDs and the clock
// are parameters.

module ScheduleItems {
  import opened Common
  import opened Messages
  import opened FileSystems
  import K8sClient

  // ---------------------------------------------------------------------
  // JSON values

  /**
   * A parsed JSON value.  `JNumber` is an integer literal; `JFraction` is
   * any other number literal (a fraction or an exponent).
   */
  datatype Json =
    | JNull
    | JBool(b: bool)
    | JNumber(n: int)
    | JFraction(text: string)
    | JString(s: string)
    | JArray(items: seq<Json>)
    | JObject(props: seq<(string, Json)>)

  /** The library exceptions item parsing can run into. */
  datatype LibraryFault =
    | NotAnObject    // enumerating the properties of a non-object
    | NotAString     // reading a non-string value as a string
    | NullString     // assigning a null string to a message field
    | NotAnInt32     // reading a number that is not a 32-bit integer
    | NotAnArray     // enumerating the items of a non-array
    | BadBoolean     // `bool.Parse` of a text that is neither "true" nor "false"
    | DuplicateKey   // adding a build argument whose name is already there
    | Locked         // opening a file another process still holds (a sharing violation)

  /**
   * Why processing a schedule file stopped.  The first three make the
   * service try the file again on its next scan; a `Failure` rejects it.
   */
  datatype ScheduleError =
    | FileNotFound(fileName: string)
    | NotAScheduleFile(message: string)
    | Timeout
    | Failure(message: string)

  predicate IsRetried(e: ScheduleError)
  {
    !e.Failure?
  }

  /** The deserializers the item reader calls, and the library's exception texts. */
  datatype Codec = Codec(
    header: Json -> Result<Option<RequestHeader>, string>,
    dateTime: string -> Result<Ticks, string>,
    timestamp: Json -> Result<Option<Ticks>, string>,
    durationText: Json -> Result<Duration, string>,
    duration: Json -> Result<Option<Duration>, string>,
    faultMessage: LibraryFault -> string)

  /** What an integer cast to each enum gives. */
  datatype Numbering = Numbering(
    priority: int -> Priority,
    action: int -> DeployAction,
    gpu: int -> GpuOption)

  /**
   * One attempt to open an existing file for exclusive reading: it opens,
   * meets a sharing violation (the file is still being written), or
   * fails with some other I/O error.
   */
  datatype OpenResult = Opened | SharingViolation | OpenFailed(message: string)

  /**
   * What item processing depends on.  `tryOpen(path, k)` is the outcome
   * of the k-th attempt to open `path` while waiting for it to finish
   * copying, out of the `copyAttempts` attempts that start before the
   * copy timeout; `newGuid(schedule, item, purpose)` is a fresh GUID for
   * item number `item` of a schedule file (0 for the file itself).
   */
  datatype ItemEnv = ItemEnv(
    scheduleImportDirectory: string,
    numbering: Numbering,
    codec: Codec,
    tryOpen: (string, nat) -> OpenResult,
    copyAttempts: nat,
    newGuid: (string, nat, nat) -> string,
    now: Ticks)

  /** The purposes GUIDs are drawn for. */
  const HeaderGuid: nat := 0
  const TrackingGuid: nat := 1
  const NotifyTrackingGuid: nat := 2
  const NotifyCorrelationGuid: nat := 3

  function Fault(env: ItemEnv, f: LibraryFault): ScheduleError
  {
    Failure(env.codec.faultMessage(f))
  }

  function Lift<T>(r: Result<T, string>): (s: Result<T, ScheduleError>)
    ensures r.Ok? <==> s.Ok?
    ensures r.Ok? ==> s.value == r.value
    ensures r.Err? ==> s.error == Failure(r.error)
  {
    match r
    case Ok(v) => Ok(v)
    case Err(m) => Err(Failure(m))
  }

  // ---------------------------------------------------------------------
  // Property lookup

  /** The first property whose name equals `target` ignoring case. */
  function FirstMatch(target: string, props: seq<(string, Json)>): (r: Option<nat>)
    ensures r.Some? ==> r.value < |props| && EqualsIgnoreCase(props[r.value].0, target)
                        && forall j :: 0 <= j < r.value ==> !EqualsIgnoreCase(props[j].0, target)
    ensures r.None? <==> forall j :: 0 <= j < |props| ==> !EqualsIgnoreCase(props[j].0, target)
    decreases |props|
  {
    if |props| == 0 then None
    else if EqualsIgnoreCase(props[0].0, target) then Some(0)
    else match FirstMatch(target, props[1..])
      case None => None
      case Some(k) => Some(k + 1)
  }

  /** The last property named exactly `name`: the one `GetProperty` finds when a name repeats. */
  function LastMatch(name: string, props: seq<(string, Json)>): (r: Option<nat>)
    ensures r.Some? ==> r.value < |props| && props[r.value].0 == name
                        && forall j :: r.value < j < |props| ==> props[j].0 != name
    ensures r.None? ==> forall j :: 0 <= j < |props| ==> props[j].0 != name
    decreases |props|
  {
    if |props| == 0 then None
    else if props[|props| - 1].0 == name then Some(|props| - 1)
    else LastMatch(name, props[..|props| - 1])
  }

  /**
   * `GetPropertyNameForJsonElement(target, element)` followed by
   * `GetProperty` of the name it found: the value, if some property's
   * name equals `target` ignoring case.  A non-object has no properties
   * to enumerate.
   */
  function Property(env: ItemEnv, element: Json, target: string): (r: Result<Option<Json>, ScheduleError>)
    ensures r.Err? <==> !element.JObject?
    ensures r.Err? ==> r.error == Fault(env, NotAnObject)
    ensures r.Ok? ==> (r.value.None? <==> forall j :: 0 <= j < |element.props| ==> !EqualsIgnoreCase(element.props[j].0, target))
    ensures r.Ok? && r.value.Some? ==>
              exists j :: 0 <= j < |element.props| && EqualsIgnoreCase(element.props[j].0, target) && element.props[j].1 == r.value.value
  {
    if !element.JObject? then Err(Fault(env, NotAnObject))
    else match FirstMatch(target, element.props)
      case None => Ok(None)
      case Some(i) =>
        match LastMatch(element.props[i].0, element.props)
        case Some(j) => Ok(Some(element.props[j].1))
        case None => assert false; Ok(None)
  }

  lemma {:induction false} FirstMatchIgnoresCase(a: string, b: string, props: seq<(string, Json)>)
    requires EqualsIgnoreCase(a, b)
    ensures FirstMatch(a, props) == FirstMatch(b, props)
    decreases |props|
  {
    if |props| > 0 {
      FirstMatchIgnoresCase(a, b, props[1..]);
    }
  }

  /** Property lookup does not see the case of the name asked for. */
  lemma PropertyIgnoresCase(env: ItemEnv, element: Json, a: string, b: string)
    requires EqualsIgnoreCase(a, b)
    ensures Property(env, element, a) == Property(env, element, b)
  {
    if element.JObject? {
      FirstMatchIgnoresCase(a, b, element.props);
    }
  }

  /** `GetString()` assigned to a message's string field. */
  function StringValue(env: ItemEnv, v: Json): (r: Result<string, ScheduleError>)
    ensures r.Ok? <==> v.JString?
    ensures r.Ok? ==> r.value == v.s
    ensures v.JNull? ==> r == Err(Fault(env, NullString))
  {
    match v
    case JString(s) => Ok(s)
    case JNull => Err(Fault(env, NullString))
    case _ => Err(Fault(env, NotAString))
  }

  /** A string property can be read: it is missing, or present as a JSON string. */
  predicate StringReadable(env: ItemEnv, element: Json, name: string)
  {
    var p := Property(env, element, name);
    p.Ok? && (p.value.None? || p.value.value.JString?)
  }

  /**
   * `s` is what a string field reads from the property: "" when the
   * property is missing, otherwise the property's string.
   */
  predicate ReadsString(env: ItemEnv, element: Json, name: string, s: string)
  {
    var p := Property(env, element, name);
    p.Ok? && (if p.value.None? then s == "" else p.value.value == JString(s))
  }

  /** A string field: its value when the property is there. */
  function StringField(env: ItemEnv, element: Json, name: string): (r: Result<Option<string>, ScheduleError>)
    ensures r.Ok? <==> StringReadable(env, element, name)
    ensures r.Ok? ==> ReadsString(env, element, name, OrEmpty(r.value))
  {
    var v :- Property(env, element, name);
    if v.None? then Ok(None)
    else
      var s :- StringValue(env, v.value);
      Ok(Some(s))
  }

  function OrEmpty(s: Option<string>): string
  {
    if s.Some? then s.value else ""
  }

  // ---------------------------------------------------------------------
  // Enums

  /**
   * An enum-typed property: a number is cast to the enum; a string is
   * cast when it parses as a 32-bit integer and otherwise looked up by
   * name; any other kind of value gives nothing.
   */
  function DecodeEnum<T>(env: ItemEnv, v: Json, number: int -> T, byName: string -> Option<T>): (r: Result<Option<T>, ScheduleError>)
    ensures v.JNumber? && IsInt32(v.n) ==> r == Ok(Some(number(v.n)))
    ensures v.JString? && TryParseInt32(v.s).Some? ==> r == Ok(Some(number(TryParseInt32(v.s).value)))
    ensures v.JString? && TryParseInt32(v.s).None? ==> r == Ok(byName(v.s))
    ensures r.Err? <==> (v.JNumber? && !IsInt32(v.n)) || v.JFraction?
    ensures !(v.JNumber? || v.JFraction? || v.JString?) ==> r == Ok(None)
  {
    match v
    case JNumber(n) => if IsInt32(n) then Ok(Some(number(n))) else Err(Fault(env, NotAnInt32))
    case JFraction(_) => Err(Fault(env, NotAnInt32))
    case JString(s) =>
      (match TryParseInt32(s)
       case Some(n) => Ok(Some(number(n)))
       case None => Ok(byName(s)))
    case _ => Ok(None)
  }

  /** An enum-typed property: nothing when it is missing, otherwise its value decoded. */
  function EnumField<T>(env: ItemEnv, element: Json, name: string, number: int -> T, byName: string -> Option<T>)
    : (r: Result<Option<T>, ScheduleError>)
    ensures !element.JObject? ==> r == Err(Fault(env, NotAnObject))
    ensures Property(env, element, name) == Ok(None) ==> r == Ok(None)
    ensures Property(env, element, name).Ok? && Property(env, element, name).value.Some? ==>
              r == DecodeEnum(env, Property(env, element, name).value.value, number, byName)
  {
    var v :- Property(env, element, name);
    if v.None? then Ok(None) else DecodeEnum(env, v.value, number, byName)
  }

  /**
   * `Enum.TryParse` ignoring case, for the names the enums declare;
   * surrounding white space is ignored.
   */
  function PriorityByName(s: string): Option<Priority>
  {
    PriorityNamed(Trim(s))
  }

  function PriorityNamed(t: string): Option<Priority>
  {
    if EqualsIgnoreCase(t, "Low") then Some(Low)
    else if EqualsIgnoreCase(t, "Medium") then Some(Medium)
    else if EqualsIgnoreCase(t, "High") then Some(High)
    else if EqualsIgnoreCase(t, "Critical") then Some(Critical)
    else None
  }

  function ActionByName(s: string): Option<DeployAction>
  {
    ActionNamed(Trim(s))
  }

  function ActionNamed(t: string): Option<DeployAction>
  {
    if EqualsIgnoreCase(t, "Apply") then Some(Apply)
    else if EqualsIgnoreCase(t, "Create") then Some(Create)
    else if EqualsIgnoreCase(t, "Delete") then Some(Delete)
    else if EqualsIgnoreCase(t, "BuildImage") then Some(BuildImage)
    else if EqualsIgnoreCase(t, "LoadImageTarball") then Some(LoadImageTarball)
    else if EqualsIgnoreCase(t, "UplinkFile") then Some(UplinkFile)
    else if EqualsIgnoreCase(t, "RestartDeployment") then Some(RestartDeployment)
    else None
  }

  function GpuByName(s: string): Option<GpuOption>
  {
    GpuNamed(Trim(s))
  }

  function GpuNamed(t: string): Option<GpuOption>
  {
    if EqualsIgnoreCase(t, "None") then Some(GpuNone)
    else if EqualsIgnoreCase(t, "Nvidia") then Some(Nvidia)
    else None
  }

  lemma ActionByTrimmedName(s: string)
    requires IsTrimmed(s)
    ensures ActionByName(s) == ActionNamed(s)
  {
    TrimOfTrimmed(s);
  }

  lemma ApplyReadsBack()
    ensures ActionByName("Apply") == Some(Apply)
  {
    ActionByTrimmedName("Apply");
  }

  lemma CreateReadsBack()
    ensures ActionByName("Create") == Some(Create)
  {
    ActionByTrimmedName("Create");
  }

  lemma DeleteReadsBack()
    ensures ActionByName("Delete") == Some(Delete)
  {
    ActionByTrimmedName("Delete");
    assert ToUpperChar("Delete"[0]) != ToUpperChar("Create"[0]);
  }

  lemma BuildImageReadsBack()
    ensures ActionByName("BuildImage") == Some(BuildImage)
  {
    ActionByTrimmedName("BuildImage");
  }

  lemma LoadImageTarballReadsBack()
    ensures ActionByName("LoadImageTarball") == Some(LoadImageTarball)
  {
    ActionByTrimmedName("LoadImageTarball");
  }

  lemma UplinkFileReadsBack()
    ensures ActionByName("UplinkFile") == Some(UplinkFile)
  {
    ActionByTrimmedName("UplinkFile");
    assert ToUpperChar("UplinkFile"[0]) != ToUpperChar("BuildImage"[0]);
  }

  lemma RestartDeploymentReadsBack()
    ensures ActionByName("RestartDeployment") == Some(RestartDeployment)
  {
    ActionByTrimmedName("RestartDeployment");
  }

  /** Every named action reads back from the name the service prints for it. */
  lemma ActionNameRoundTrip(a: DeployAction)
    requires !a.ActionValue?
    ensures ActionByName(ActionName(a)) == Some(a)
  {
    match a
    case Apply => ApplyReadsBack();
    case Create => CreateReadsBack();
    case Delete => DeleteReadsBack();
    case BuildImage => BuildImageReadsBack();
    case LoadImageTarball => LoadImageTarballReadsBack();
    case UplinkFile => UplinkFileReadsBack();
    case RestartDeployment => RestartDeploymentReadsBack();
  }

  // ---------------------------------------------------------------------
  // The other fields of an item

  /** The property is missing, or present as a JSON null. */
  predicate AbsentOrNull(env: ItemEnv, element: Json, target: string)
  {
    var v := Property(env, element, target);
    v.Ok? && (v.value.None? || v.value.value.JNull?)
  }

  /**
   * The request header: deserialized when the property is there (a JSON
   * null gives a null header), otherwise a fresh GUID serves as both ids.
   */
  function DecodeHeader(env: ItemEnv, element: Json, schedule: string, item: nat): (r: Result<Option<RequestHeader>, ScheduleError>)
    ensures !element.JObject? ==> r == Err(Fault(env, NotAnObject))
    ensures Property(env, element, "RequestHeader") == Ok(None) ==>
              r == Ok(Some(RequestHeader(env.newGuid(schedule, item, HeaderGuid), env.newGuid(schedule, item, HeaderGuid))))
    ensures Property(env, element, "RequestHeader").Ok? && Property(env, element, "RequestHeader").value.Some? ==>
              r == Lift(env.codec.header(Property(env, element, "RequestHeader").value.value))
  {
    var v :- Property(env, element, "RequestHeader");
    if v.None? then
      var id := env.newGuid(schedule, item, HeaderGuid);
      Ok(Some(RequestHeader(id, id)))
    else Lift(env.codec.header(v.value))
  }

  /** A string start time is parsed as a date; anything else is deserialized as a timestamp. */
  function DecodeStartTime(env: ItemEnv, element: Json): (r: Result<Option<Ticks>, ScheduleError>)
    ensures !element.JObject? ==> r == Err(Fault(env, NotAnObject))
    ensures Property(env, element, "StartTime") == Ok(None) ==> r == Ok(None)
    ensures forall t :: Property(env, element, "StartTime") == Ok(Some(JString(t))) ==>
              (r.Ok? <==> env.codec.dateTime(t).Ok?) && (r.Ok? ==> r.value == Some(env.codec.dateTime(t).value))
  {
    var v :- Property(env, element, "StartTime");
    if v.None? then Ok(None)
    else if v.value.JString? then
      var t :- Lift(env.codec.dateTime(v.value.s));
      Ok(Some(t))
    else Lift(env.codec.timestamp(v.value))
  }

  /** A string duration ("300s") goes to the protobuf parser; anything else is deserialized. */
  function DecodeMaxDuration(env: ItemEnv, element: Json): (r: Result<Option<Duration>, ScheduleError>)
    ensures !element.JObject? ==> r == Err(Fault(env, NotAnObject))
    ensures Property(env, element, "MaxDuration") == Ok(None) ==> r == Ok(None)
    ensures forall t :: Property(env, element, "MaxDuration") == Ok(Some(JString(t))) ==>
              (r.Ok? <==> env.codec.durationText(JString(t)).Ok?)
              && (r.Ok? ==> r.value == Some(env.codec.durationText(JString(t)).value))
  {
    var v :- Property(env, element, "MaxDuration");
    if v.None? then Ok(None)
    else if v.value.JString? then
      var d :- Lift(env.codec.durationText(v.value));
      Ok(Some(d))
    else Lift(env.codec.duration(v.value))
  }

  /** The container image section, unless it is absent or null. */
  function DecodeImage(env: ItemEnv, element: Json): (r: Result<Option<AppContainerImage>, ScheduleError>)
    ensures !element.JObject? ==> r == Err(Fault(env, NotAnObject))
    ensures AbsentOrNull(env, element, "AppContainerImage") ==> r == Ok(None)
    ensures r.Ok? && r.value.Some? ==>
              !AbsentOrNull(env, element, "AppContainerImage")
              && var v := Property(env, element, "AppContainerImage").value.value;
                 && StringField(env, v, "TarballFileName").Ok?
                 && StringField(env, v, "DestinationRepository").Ok?
                 && StringField(env, v, "DestinationTag").Ok?
                 && r.value.value == AppContainerImage(OrEmpty(StringField(env, v, "TarballFileName").value),
                                                       OrEmpty(StringField(env, v, "DestinationRepository").value),
                                                       OrEmpty(StringField(env, v, "DestinationTag").value))
  {
    var v :- Property(env, element, "AppContainerImage");
    if v.None? || v.value.JNull? then Ok(None)
    else
      var tarball :- StringField(env, v.value, "TarballFileName");
      var repository :- StringField(env, v.value, "DestinationRepository");
      var tag :- StringField(env, v.value, "DestinationTag");
      Ok(Some(AppContainerImage(OrEmpty(tarball), OrEmpty(repository), OrEmpty(tag))))
  }

  /**
   * Build arguments added one property at a time to a protobuf map: each
   * value must be a string, and a name may not come twice.  Reading a JSON
   * null as a string gives null without throwing, and the map checks the
   * name before the value, so a repeated name with a null value is refused
   * as a repeated name.
   */
  function AddArguments(env: ItemEnv, args: seq<(string, string)>, props: seq<(string, Json)>): (r: Result<seq<(string, string)>, ScheduleError>)
    ensures r.Ok? ==> |r.value| == |args| + |props| && r.value[..|args|] == args
    ensures r.Ok? ==> forall i :: 0 <= i < |props| ==> r.value[|args| + i].0 == props[i].0 && props[i].1 == JString(r.value[|args| + i].1)
    decreases |props|
  {
    if |props| == 0 then Ok(args)
    else
      var repeated := exists i :: 0 <= i < |args| && args[i].0 == props[0].0;
      if repeated && props[0].1.JNull? then Err(Fault(env, DuplicateKey))
      else
        var value :- StringValue(env, props[0].1);
        if repeated then Err(Fault(env, DuplicateKey))
        else
          var r :- AddArguments(env, args + [(props[0].0, value)], props[1..]);
          assert forall i :: 1 <= i < |props| ==> props[i] == props[1..][i - 1];
          Ok(r)
  }

  predicate DistinctNames(args: seq<(string, string)>)
  {
    forall i, j :: 0 <= i < j < |args| ==> args[i].0 != args[j].0
  }

  /** Build arguments that were accepted have distinct names. */
  lemma {:induction false} AddArgumentsDistinct(env: ItemEnv, args: seq<(string, string)>, props: seq<(string, Json)>)
    requires DistinctNames(args)
    requires AddArguments(env, args, props).Ok?
    ensures DistinctNames(AddArguments(env, args, props).value)
    decreases |props|
  {
    if |props| > 0 {
      var value := StringValue(env, props[0].1).value;
      var next := args + [(props[0].0, value)];
      assert DistinctNames(next);
      AddArgumentsDistinct(env, next, props[1..]);
    }
  }

  function BuildArguments(env: ItemEnv, v: Json): (r: Result<seq<(string, string)>, ScheduleError>)
    ensures !v.JObject? ==> r == Err(Fault(env, NotAnObject))
    ensures r.Ok? ==> DistinctNames(r.value)
  {
    if !v.JObject? then Err(Fault(env, NotAnObject))
    else
      var added := AddArguments(env, [], v.props);
      if added.Ok? then AddArgumentsDistinct(env, [], v.props); added else added
  }

  /** The `BuildArguments` of a build section; none when the property is absent. */
  function SectionArguments(env: ItemEnv, section: Json): (r: Result<seq<(string, string)>, ScheduleError>)
    ensures r.Ok? ==> DistinctNames(r.value)
  {
    match Property(env, section, "BuildArguments")
    case Err(e) => Err(e)
    case Ok(None) => Ok([])
    case Ok(Some(a)) => BuildArguments(env, a)
  }

  /** The container build section, unless it is absent or null. */
  function DecodeBuild(env: ItemEnv, element: Json): (r: Result<Option<AppContainerBuild>, ScheduleError>)
    ensures !element.JObject? ==> r == Err(Fault(env, NotAnObject))
    ensures AbsentOrNull(env, element, "AppContainerBuild") ==> r == Ok(None)
    ensures r.Ok? && r.value.Some? ==> !AbsentOrNull(env, element, "AppContainerBuild")
    ensures r.Ok? && r.value.Some? ==> DistinctNames(r.value.value.buildArguments)
    ensures r.Ok? && r.value.Some? ==>
              var v := Property(env, element, "AppContainerBuild").value.value;
              var b := r.value.value;
              ReadsString(env, v, "DockerFile", b.dockerFile)
              && ReadsString(env, v, "DestinationRepository", b.destinationRepository)
              && ReadsString(env, v, "DestinationTag", b.destinationTag)
              && SectionArguments(env, v) == Ok(b.buildArguments)
  {
    var v :- Property(env, element, "AppContainerBuild");
    if v.None? || v.value.JNull? then Ok(None)
    else
      var dockerFile :- StringField(env, v.value, "DockerFile");
      var repository :- StringField(env, v.value, "DestinationRepository");
      var tag :- StringField(env, v.value, "DestinationTag");
      var args :- SectionArguments(env, v.value);
      Ok(Some(AppContainerBuild(OrEmpty(dockerFile), OrEmpty(repository), OrEmpty(tag), args)))
  }

  /** `bool.Parse`: "true" or "false" in any case, surrounding white space ignored. */
  function ParseBool(env: ItemEnv, s: string): (r: Result<bool, ScheduleError>)
    ensures r.Ok? ==> (r.value <==> EqualsIgnoreCase(Trim(s), "True"))
  {
    var t := Trim(s);
    if EqualsIgnoreCase(t, "True") then Ok(true)
    else if EqualsIgnoreCase(t, "False") then Ok(false)
    else Err(Fault(env, BadBoolean))
  }

  /** The `Required` flag: a null reads as "false". */
  function RequiredFlag(env: ItemEnv, v: Json): Result<bool, ScheduleError>
  {
    match v
    case JString(s) => ParseBool(env, s)
    case JNull => Ok(false)
    case _ => Err(Fault(env, NotAString))
  }

  /** The `AppContextString` section: a context string when it carries an `AppContext` property. */
  function DecodeContextString(env: ItemEnv, element: Json): (r: Result<AppContext, ScheduleError>)
    ensures !element.JObject? ==> r == Err(Fault(env, NotAnObject))
    ensures AbsentOrNull(env, element, "AppContextString") ==> r == Ok(NoContext)
    ensures r.Ok? ==> r.value.NoContext? || r.value.ContextString?
    ensures r.Ok? && r.value.ContextString? ==>
              !AbsentOrNull(env, element, "AppContextString")
              && Property(env, Property(env, element, "AppContextString").value.value, "AppContext")
                 == Ok(Some(JString(r.value.appContext)))
    ensures r.Ok? && r.value.NoContext? ==>
              AbsentOrNull(env, element, "AppContextString")
              || Property(env, Property(env, element, "AppContextString").value.value, "AppContext") == Ok(None)
  {
    var v :- Property(env, element, "AppContextString");
    if v.None? || v.value.JNull? then Ok(NoContext)
    else
      var inner :- Property(env, v.value, "AppContext");
      if inner.None? then Ok(NoContext)
      else
        var text :- StringValue(env, inner.value);
        Ok(ContextString(text))
  }

  /**
   * The `AppContextFile` section, read after the context string: when it
   * names a file it replaces whatever context was read before.
   */
  function DecodeContextFile(env: ItemEnv, element: Json, before: AppContext): (r: Result<AppContext, ScheduleError>)
    ensures !element.JObject? ==> r == Err(Fault(env, NotAnObject))
    ensures AbsentOrNull(env, element, "AppContextFile") ==> r == Ok(before)
    ensures r.Ok? && r.value != before ==> r.value.ContextFile? && !AbsentOrNull(env, element, "AppContextFile")
    ensures r.Ok? && !AbsentOrNull(env, element, "AppContextFile") ==>
              var v := Property(env, element, "AppContextFile").value.value;
              var name := Property(env, v, "FileName");
              name.Ok?
              && (name.value.None? ==> r.value == before)
              && (name.value.Some? ==>
                    r.value.ContextFile? && name.value.value == JString(r.value.fileName)
                    && var flag := Property(env, v, "Required").value;
                       (r.value.required <==> flag.Some? && flag.value.JString? && EqualsIgnoreCase(Trim(flag.value.s), "True")))
  {
    var v :- Property(env, element, "AppContextFile");
    if v.None? || v.value.JNull? then Ok(before)
    else
      var name :- Property(env, v.value, "FileName");
      if name.None? then Ok(before)
      else
        var fileName :- StringValue(env, name.value);
        var flag := Property(env, v.value, "Required").value;
        if flag.None? then Ok(ContextFile(fileName, false))
        else
          var required :- RequiredFlag(env, flag.value);
          Ok(ContextFile(fileName, required))
  }

  const InvalidActionMessage: string := "DeployAction is invalid and can't be parsed"

  /**
   * An item read into a request.  `nullHeader` records a request header
   * deserialized as null; the header in `request` is then empty.
   */
  datatype ParsedItem = ParsedItem(request: DeployRequest, nullHeader: bool)

  /** The seven string fields read from an item, each from its case-insensitively matched property. */
  predicate StringsRead(env: ItemEnv, element: Json, request: DeployRequest)
  {
    ReadsString(env, element, "AppName", request.appName)
    && ReadsString(env, element, "NameSpace", request.nameSpace)
    && ReadsString(env, element, "AppGroupLabel", request.appGroupLabel)
    && ReadsString(env, element, "CustomerTrackingId", request.customerTrackingId)
    && ReadsString(env, element, "Schedule", request.schedule)
    && ReadsString(env, element, "YamlFileContents", request.yamlFileContents)
    && ReadsString(env, element, "ContainerInjectionTarget", request.containerInjectionTarget)
  }

  /** The seven string fields, in the order the reader sets them; a missing one stays empty. */
  function ReadStrings(env: ItemEnv, element: Json): (r: Result<DeployRequest, ScheduleError>)
    ensures !element.JObject? ==> r == Err(Fault(env, NotAnObject))
    ensures r.Ok? <==>
              StringReadable(env, element, "AppName") && StringReadable(env, element, "NameSpace")
              && StringReadable(env, element, "AppGroupLabel") && StringReadable(env, element, "CustomerTrackingId")
              && StringReadable(env, element, "Schedule") && StringReadable(env, element, "YamlFileContents")
              && StringReadable(env, element, "ContainerInjectionTarget")
    ensures r.Ok? ==> StringsRead(env, element, r.value)
    ensures r.Ok? ==> r.value == EmptyRequest.(
              appName := r.value.appName, nameSpace := r.value.nameSpace, appGroupLabel := r.value.appGroupLabel,
              customerTrackingId := r.value.customerTrackingId, schedule := r.value.schedule,
              yamlFileContents := r.value.yamlFileContents, containerInjectionTarget := r.value.containerInjectionTarget)
  {
    var appName :- StringField(env, element, "AppName");
    var nameSpace :- StringField(env, element, "NameSpace");
    var groupLabel :- StringField(env, element, "AppGroupLabel");
    var customerTrackingId :- StringField(env, element, "CustomerTrackingId");
    var schedule :- StringField(env, element, "Schedule");
    var yaml :- StringField(env, element, "YamlFileContents");
    var injectionTarget :- StringField(env, element, "ContainerInjectionTarget");
    Ok(EmptyRequest.(
      appName := OrEmpty(appName), nameSpace := OrEmpty(nameSpace), appGroupLabel := OrEmpty(groupLabel),
      customerTrackingId := OrEmpty(customerTrackingId), schedule := OrEmpty(schedule),
      yamlFileContents := OrEmpty(yaml), containerInjectionTarget := OrEmpty(injectionTarget)))
  }

  /** The fields read after the action: start time, maximum duration, GPU, image, build and app context. */
  function ReadTail(env: ItemEnv, element: Json, request: DeployRequest): (r: Result<DeployRequest, ScheduleError>)
    ensures r.Ok? ==> r.value.header == request.header && r.value.priority == request.priority
                      && r.value.deployAction == request.deployAction
    ensures r.Ok? && Property(env, element, "GpuRequirement") == Ok(None) ==> r.value.gpuRequirement == GpuNone
    ensures r.Ok? && Property(env, element, "StartTime") == Ok(None) ==> r.value.startTime.None?
    ensures r.Ok? <==>
              DecodeStartTime(env, element).Ok? && DecodeMaxDuration(env, element).Ok?
              && EnumField(env, element, "GpuRequirement", env.numbering.gpu, GpuByName).Ok?
              && DecodeImage(env, element).Ok? && DecodeBuild(env, element).Ok? && DecodeContextString(env, element).Ok?
              && DecodeContextFile(env, element, DecodeContextString(env, element).value).Ok?
    ensures r.Ok? ==>
              var gpu := EnumField(env, element, "GpuRequirement", env.numbering.gpu, GpuByName).value;
              r.value == request.(
                startTime := DecodeStartTime(env, element).value,
                maxDuration := DecodeMaxDuration(env, element).value,
                gpuRequirement := if gpu.Some? then gpu.value else GpuNone,
                appContainerImage := DecodeImage(env, element).value,
                appContainerBuild := DecodeBuild(env, element).value,
                appContext := DecodeContextFile(env, element, DecodeContextString(env, element).value).value)
  {
    var startTime :- DecodeStartTime(env, element);
    var maxDuration :- DecodeMaxDuration(env, element);
    var gpu :- EnumField(env, element, "GpuRequirement", env.numbering.gpu, GpuByName);
    var image :- DecodeImage(env, element);
    var build :- DecodeBuild(env, element);
    var contextString :- DecodeContextString(env, element);
    var context :- DecodeContextFile(env, element, contextString);
    Ok(request.(
      startTime := startTime, maxDuration := maxDuration, gpuRequirement := if gpu.Some? then gpu.value else GpuNone,
      appContainerImage := image, appContainerBuild := build, appContext := context))
  }

  /**
   * `ProcessScheduleFileItem`: the fields in the order the reader sets
   * them; the first exception ends the item.
   */
  function ParseItem(env: ItemEnv, element: Json, schedule: string, item: nat): (r: Result<ParsedItem, ScheduleError>)
    ensures r.Ok? ==> Property(env, element, "DeployAction").Ok? && Property(env, element, "DeployAction").value.Some?
    ensures r.Ok? && Property(env, element, "Priority") == Ok(None) ==> r.value.request.priority == Low
    ensures r.Ok? && Property(env, element, "GpuRequirement") == Ok(None) ==> r.value.request.gpuRequirement == GpuNone
    ensures r.Ok? && Property(env, element, "RequestHeader") == Ok(None) ==>
              !r.value.nullHeader && r.value.request.header.trackingId == r.value.request.header.correlationId
    ensures r.Ok? && Property(env, element, "StartTime") == Ok(None) ==> r.value.request.startTime.None?
    ensures !element.JObject? ==> r == Err(Fault(env, NotAnObject))
    ensures r.Ok? ==> StringsRead(env, element, r.value.request)
    ensures r.Ok? ==>
              var header := DecodeHeader(env, element, schedule, item);
              header.Ok? && (r.value.nullHeader <==> header.value.None?)
              && (header.value.Some? ==> r.value.request.header == header.value.value)
    ensures r.Ok? ==>
              var priority := EnumField(env, element, "Priority", env.numbering.priority, PriorityByName);
              priority.Ok? && r.value.request.priority == (if priority.value.Some? then priority.value.value else Low)
    ensures r.Ok? ==>
              EnumField(env, element, "DeployAction", env.numbering.action, ActionByName) == Ok(Some(r.value.request.deployAction))
    ensures r.Ok? ==> TailRead(env, element, r.value.request)
  {
    var strings :- ReadStrings(env, element);
    var header :- DecodeHeader(env, element, schedule, item);
    var priority :- EnumField(env, element, "Priority", env.numbering.priority, PriorityByName);
    var action :- EnumField(env, element, "DeployAction", env.numbering.action, ActionByName);
    if action.None? then Err(Failure(InvalidActionMessage))
    else
      var seeded := strings.(
        header := if header.Some? then header.value else RequestHeader("", ""),
        priority := if priority.Some? then priority.value else Low,
        deployAction := action.value);
      var tail := ReadTail(env, element, seeded);
      if tail.Err? then Err(tail.error)
      else
        var request := tail.value;
        TailFields(env, element, seeded, request);
        StringsKept(env, element, strings, request);
        Ok(ParsedItem(request, header.None?))
  }

  /**
   * The fields read after the action, each from its decoder: start time,
   * maximum duration, GPU (None by default), image, build and context.
   */
  predicate TailRead(env: ItemEnv, element: Json, request: DeployRequest)
  {
    var gpu := EnumField(env, element, "GpuRequirement", env.numbering.gpu, GpuByName);
    var context := DecodeContextString(env, element);
    gpu.Ok? && context.Ok? && DecodeStartTime(env, element).Ok? && DecodeMaxDuration(env, element).Ok?
    && DecodeImage(env, element).Ok? && DecodeBuild(env, element).Ok?
    && DecodeContextFile(env, element, context.value).Ok?
    && request.gpuRequirement == (if gpu.value.Some? then gpu.value.value else GpuNone)
    && request.startTime == DecodeStartTime(env, element).value
    && request.maxDuration == DecodeMaxDuration(env, element).value
    && request.appContainerImage == DecodeImage(env, element).value
    && request.appContainerBuild == DecodeBuild(env, element).value
    && request.appContext == DecodeContextFile(env, element, context.value).value
  }

  /** The fields `ReadTail` sets, one by one, and the ones it keeps. */
  lemma TailFields(env: ItemEnv, element: Json, seeded: DeployRequest, request: DeployRequest)
    requires ReadTail(env, element, seeded) == Ok(request)
    ensures TailRead(env, element, request)
            && request.appName == seeded.appName && request.nameSpace == seeded.nameSpace
            && request.appGroupLabel == seeded.appGroupLabel && request.customerTrackingId == seeded.customerTrackingId
            && request.schedule == seeded.schedule && request.yamlFileContents == seeded.yamlFileContents
            && request.containerInjectionTarget == seeded.containerInjectionTarget
            && request.header == seeded.header && request.priority == seeded.priority
            && request.deployAction == seeded.deployAction
  {
  }

  /**
   * An item whose earlier fields read but whose action is missing or
   * names no action is refused with the invalid-action message.
   */
  lemma MissingActionRejected(env: ItemEnv, element: Json, schedule: string, item: nat)
    requires ReadStrings(env, element).Ok? && DecodeHeader(env, element, schedule, item).Ok?
    requires EnumField(env, element, "Priority", env.numbering.priority, PriorityByName).Ok?
    requires EnumField(env, element, "DeployAction", env.numbering.action, ActionByName) == Ok(None)
    ensures ParseItem(env, element, schedule, item) == Err(Failure(InvalidActionMessage))
  {
  }

  /** Setting fields other than the seven string fields keeps what they read. */
  lemma StringsKept(env: ItemEnv, element: Json, a: DeployRequest, b: DeployRequest)
    requires StringsRead(env, element, a)
    requires a.appName == b.appName && a.nameSpace == b.nameSpace && a.appGroupLabel == b.appGroupLabel
             && a.customerTrackingId == b.customerTrackingId && a.schedule == b.schedule
             && a.yamlFileContents == b.yamlFileContents && a.containerInjectionTarget == b.containerInjectionTarget
    ensures StringsRead(env, element, b)
  {
  }

  // ---------------------------------------------------------------------
  // Waiting for a file to finish copying

  /**
   * `WaitForFileToFinishCopying` as the code is written.  The loop's only
   * handler catches the I/O errors that are not sharing violations, and
   * rethrows them; its `when` filter lets a sharing violation escape
   * uncaught.  So the first attempt ends the wait either way: the file
   * opens, or the attempt's error propagates, a file still being copied
   * among them.  The wait times out only when the deadline has passed
   * before the first attempt.
   */
  function WaitForCopy(env: ItemEnv, paths: set<string>, path: string): (r: Result<(), ScheduleError>)
    ensures r.Err? ==> r.error == Timeout || r.error == FileNotFound(path) || r.error.Failure?
    ensures r.Ok? ==> path in paths
    ensures r.Err? && r.error.Failure? ==>
              env.tryOpen(path, 0) == SharingViolation || env.tryOpen(path, 0) == OpenFailed(r.error.message)
  {
    if env.copyAttempts == 0 then Err(Timeout)
    else if path !in paths then Err(FileNotFound(path))
    else match env.tryOpen(path, 0)
      case Opened => Ok(())
      case SharingViolation => Err(Fault(env, Locked))
      case OpenFailed(m) => Err(Failure(m))
  }

  /** The wait times out exactly when no attempt starts before the deadline. */
  lemma WaitTimesOut(env: ItemEnv, paths: set<string>, path: string)
    ensures WaitForCopy(env, paths, path) == Err(Timeout) <==> env.copyAttempts == 0
  {
  }

  /** The wait succeeds exactly when the file is there and the first attempt opens it. */
  lemma WaitSucceeds(env: ItemEnv, paths: set<string>, path: string)
    ensures WaitForCopy(env, paths, path).Ok? <==>
              env.copyAttempts > 0 && path in paths && env.tryOpen(path, 0) == Opened
  {
  }

  /**
   * A file that is still being copied is not waited for: the sharing
   * violation is an error that is not retried.
   */
  lemma StillCopyingFails(env: ItemEnv, paths: set<string>, path: string)
    requires env.copyAttempts > 0 && path in paths && env.tryOpen(path, 0) == SharingViolation
    ensures WaitForCopy(env, paths, path) == Err(Fault(env, Locked))
    ensures !IsRetried(WaitForCopy(env, paths, path).error)
  {
  }

  /**
   * The wait the comment in the handler describes, kept beside the code
   * as written: from attempt `k` on, a sharing violation tries again, the
   * first attempt that opens the file ends the wait, any other error
   * propagates, and once the attempts before the deadline are spent the
   * wait times out.
   */
  function RetryingWait(env: ItemEnv, paths: set<string>, path: string, k: nat): (r: Result<(), ScheduleError>)
    ensures r.Err? ==> r.error == Timeout || r.error == FileNotFound(path) || r.error.Failure?
    ensures k < env.copyAttempts && path !in paths ==> r == Err(FileNotFound(path))
    ensures r.Ok? ==> path in paths
    ensures r.Err? && r.error.Failure? ==> exists j :: k <= j < env.copyAttempts && env.tryOpen(path, j) == OpenFailed(r.error.message)
    decreases env.copyAttempts - k
  {
    if k >= env.copyAttempts then Err(Timeout)
    else if path !in paths then Err(FileNotFound(path))
    else match env.tryOpen(path, k)
      case Opened => Ok(())
      case SharingViolation => RetryingWait(env, paths, path, k + 1)
      case OpenFailed(m) => Err(Failure(m))
  }

  /** The retrying wait from attempt `k` times out exactly when every remaining attempt meets a sharing violation. */
  lemma {:induction false} RetryingWaitTimesOut(env: ItemEnv, paths: set<string>, path: string, k: nat)
    ensures RetryingWait(env, paths, path, k) == Err(Timeout) <==>
              (k >= env.copyAttempts || path in paths) &&
              forall j :: k <= j < env.copyAttempts ==> env.tryOpen(path, j) == SharingViolation
    decreases env.copyAttempts - k
  {
    if k < env.copyAttempts && path in paths && env.tryOpen(path, k) == SharingViolation {
      RetryingWaitTimesOut(env, paths, path, k + 1);
    }
  }

  /** The retrying wait succeeds exactly when some attempt opens the file and every earlier one met a sharing violation. */
  lemma {:induction false} RetryingWaitSucceeds(env: ItemEnv, paths: set<string>, path: string, k: nat)
    ensures RetryingWait(env, paths, path, k).Ok? <==>
              path in paths &&
              (exists m :: k <= m < env.copyAttempts && env.tryOpen(path, m) == Opened &&
                 forall j :: k <= j < m ==> env.tryOpen(path, j) == SharingViolation)
    decreases env.copyAttempts - k
  {
    if k < env.copyAttempts && path in paths {
      match env.tryOpen(path, k)
      case Opened =>
        assert env.tryOpen(path, k) == Opened;
      case SharingViolation =>
        RetryingWaitSucceeds(env, paths, path, k + 1);
        if RetryingWait(env, paths, path, k + 1).Ok? {
          var m :| k + 1 <= m < env.copyAttempts && env.tryOpen(path, m) == Opened &&
                    (forall j :: k + 1 <= j < m ==> env.tryOpen(path, j) == SharingViolation);
          assert forall j :: k <= j < m ==> env.tryOpen(path, j) == SharingViolation;
        }
      case OpenFailed(_) =>
    }
  }

  /**
   * Where the two waits part: a file still being copied at the first
   * attempt and complete at the second fails the wait as written, and
   * passes the retrying one.
   */
  lemma SharingViolationNotRetried(env: ItemEnv, paths: set<string>, path: string)
    requires env.copyAttempts >= 2 && path in paths
    requires env.tryOpen(path, 0) == SharingViolation && env.tryOpen(path, 1) == Opened
    ensures WaitForCopy(env, paths, path) == Err(Fault(env, Locked))
    ensures RetryingWait(env, paths, path, 0) == Ok(())
  {
  }

  /** Both waits agree whenever the first attempt meets no sharing violation. */
  lemma WaitsAgreeWithoutSharingViolation(env: ItemEnv, paths: set<string>, path: string)
    requires env.tryOpen(path, 0) != SharingViolation
    ensures WaitForCopy(env, paths, path) == RetryingWait(env, paths, path, 0)
  {
  }

  /** A file that is not there never finishes copying. */
  lemma MissingFileNotFound(env: ItemEnv, paths: set<string>, path: string)
    requires path !in paths && env.copyAttempts > 0
    ensures WaitForCopy(env, paths, path) == Err(FileNotFound(path))
  {
  }

  // ---------------------------------------------------------------------
  // Validation

  const DefaultNameSpace: string := "payload-app"

  const SpecialCharactersMessage: string :=
    "YamlFileContents value invalid (special characters founds). (RegEx matched on '[^a-zA-Z0-9_]')."

  const NullReferenceMessage: string := K8sClient.ErrorMessage(K8sClient.NullReference)

  function RequiredFieldsMessage(fields: seq<string>): string
  {
    "The following fields are required: " + Join(", ", fields)
  }

  predicate IsNameChar(c: char)
  {
    'a' <= c <= 'z' || 'A' <= c <= 'Z' || '0' <= c <= '9' || c == '_' || c == '-'
  }

  /** The regular expression `[^a-zA-Z0-9_-]` matches somewhere in `s`. */
  predicate HasSpecialCharacter(s: string)
  {
    exists i :: 0 <= i < |s| && !IsNameChar(s[i])
  }

  function ImportPath(env: ItemEnv, name: string): string
  {
    PathCombine(env.scheduleImportDirectory, name)
  }

  /** A file-name field that is filled in and names a file that is there. */
  predicate FilePresent(env: ItemEnv, paths: set<string>, name: string)
  {
    !IsBlank(name) && ImportPath(env, name) in paths
  }

  /**
   * A file the request names in the schedule import directory: it must
   * exist, and it must finish copying.  A copy that times out is an error
   * only for a request whose context file is required; for a request
   * without a context file, reading the `Required` flag is a null
   * dereference.
   */
  function AttachedFile(env: ItemEnv, paths: set<string>, request: DeployRequest, name: string): (r: Result<(), ScheduleError>)
    ensures ImportPath(env, name) !in paths ==> r == Err(FileNotFound(name))
    ensures WaitForCopy(env, paths, ImportPath(env, name)).Ok? ==> r.Ok?
    ensures r.Ok? <==> ImportPath(env, name) in paths
                       && (WaitForCopy(env, paths, ImportPath(env, name)).Ok?
                           || (WaitForCopy(env, paths, ImportPath(env, name)) == Err(Timeout)
                               && request.appContext.ContextFile? && !request.appContext.required))
    ensures ImportPath(env, name) in paths && WaitForCopy(env, paths, ImportPath(env, name)) == Err(Timeout)
            && !request.appContext.ContextFile? ==>
              r == Err(Failure(NullReferenceMessage))
  {
    var path := ImportPath(env, name);
    if path !in paths then Err(FileNotFound(name))
    else match WaitForCopy(env, paths, path)
      case Err(Timeout) =>
        (match request.appContext
         case ContextFile(_, required) => if required then Err(FileNotFound(name)) else Ok(())
         case _ => Err(Failure(NullReferenceMessage)))
      case w => w
  }

  /** A file-name field: blank is a missing field; otherwise the file must be there. */
  function RequiredFile(env: ItemEnv, paths: set<string>, request: DeployRequest, field: string, name: string): (r: Result<seq<string>, ScheduleError>)
    ensures r.Ok? ==> (r.value == [] <==> FilePresent(env, paths, name))
    ensures r.Ok? ==> r.value == [] || r.value == [field]
  {
    if IsBlank(name) then Ok([field])
    else
      var done :- AttachedFile(env, paths, request, name);
      Ok([])
  }

  function Blank(field: string, value: string): seq<string>
  {
    if IsBlank(value) then [field] else []
  }

  /** The manifest section, for the actions that apply YAML: the message it adds and its missing fields. */
  function YamlSection(env: ItemEnv, paths: set<string>, request: DeployRequest): (r: Result<(string, seq<string>), ScheduleError>)
    ensures r.Ok? ==> (|r.value.1| == 0 <==>
              (IsManifestAction(request.deployAction) ==>
                 FilePresent(env, paths, request.yamlFileContents)
                 && !HasSpecialCharacter(FileNameWithoutExtension(request.yamlFileContents))))
    ensures r.Ok? ==> r.value.0 == "" || (r.value.0 == SpecialCharactersMessage && |r.value.1| > 0)
  {
    if !IsManifestAction(request.deployAction) then Ok(("", []))
    else
      var fields :- RequiredFile(env, paths, request, "YamlFileContents", request.yamlFileContents);
      if HasSpecialCharacter(FileNameWithoutExtension(request.yamlFileContents)) then
        Ok((SpecialCharactersMessage, fields + ["YamlFileContents"]))
      else Ok(("", fields))
  }

  function ImageSection(env: ItemEnv, paths: set<string>, request: DeployRequest): (r: Result<seq<string>, ScheduleError>)
    ensures r.Ok? ==> (|r.value| == 0 <==>
              (request.appContainerImage.Some? ==>
                 FilePresent(env, paths, request.appContainerImage.value.tarballFileName)
                 && !IsBlank(request.appContainerImage.value.destinationRepository)
                 && !IsBlank(request.appContainerImage.value.destinationTag)))
  {
    match request.appContainerImage
    case None => Ok([])
    case Some(image) =>
      var fields :- RequiredFile(env, paths, request, "TarballFileName", image.tarballFileName);
      Ok(fields + Blank("DestinationRepository", image.destinationRepository) + Blank("DestinationTag", image.destinationTag))
  }

  function BuildSection(env: ItemEnv, paths: set<string>, request: DeployRequest): (r: Result<seq<string>, ScheduleError>)
    ensures r.Ok? ==> (|r.value| == 0 <==>
              (request.appContainerBuild.Some? ==>
                 FilePresent(env, paths, request.appContainerBuild.value.dockerFile)
                 && !IsBlank(request.appContainerBuild.value.destinationRepository)
                 && !IsBlank(request.appContainerBuild.value.destinationTag)))
  {
    match request.appContainerBuild
    case None => Ok([])
    case Some(build) =>
      var fields :- RequiredFile(env, paths, request, "DockerFile", build.dockerFile);
      Ok(fields + Blank("DestinationRepository", build.destinationRepository) + Blank("DestinationTag", build.destinationTag))
  }

  function ContextSection(env: ItemEnv, paths: set<string>, request: DeployRequest): (r: Result<seq<string>, ScheduleError>)
    ensures r.Ok? ==> (|r.value| == 0 <==>
              (request.appContext.ContextFile? ==> FilePresent(env, paths, request.appContext.fileName)))
  {
    match request.appContext
    case ContextFile(name, _) => RequiredFile(env, paths, request, "FileName", name)
    case _ => Ok([])
  }

  /** The header after validation: a blank tracking id gets a GUID, a blank correlation id the tracking id. */
  function CompletedHeader(env: ItemEnv, header: RequestHeader, schedule: string, item: nat): (r: RequestHeader)
    ensures !IsBlank(header.trackingId) ==> r.trackingId == header.trackingId
    ensures !IsBlank(header.correlationId) ==> r.correlationId == header.correlationId
    ensures IsBlank(header.correlationId) ==> r.correlationId == r.trackingId
  {
    var tracking := if IsBlank(header.trackingId) then env.newGuid(schedule, item, TrackingGuid) else header.trackingId;
    RequestHeader(tracking, if IsBlank(header.correlationId) then tracking else header.correlationId)
  }

  /** The request after validation has filled in its defaults. */
  function Defaulted(env: ItemEnv, request: DeployRequest, schedule: string, item: nat): (r: DeployRequest)
    ensures !IsBlank(r.nameSpace) && (!IsBlank(request.nameSpace) ==> r.nameSpace == request.nameSpace)
    ensures r.startTime.Some? && (request.startTime.Some? ==> r.startTime == request.startTime)
    ensures !IsBlank(r.header.trackingId) ==> !IsBlank(r.header.correlationId)
    ensures r.(header := request.header, nameSpace := request.nameSpace, startTime := request.startTime) == request
  {
    assert !IsBlank(DefaultNameSpace) by {
      assert !IsWhiteSpace(DefaultNameSpace[0]);
    }
    request.(
      header := CompletedHeader(env, request.header, schedule, item),
      nameSpace := if IsBlank(request.nameSpace) then DefaultNameSpace else request.nameSpace,
      startTime := if request.startTime.None? then Some(env.now) else request.startTime)
  }

  /** What a request needs to be queued rather than refused as incomplete. */
  predicate Complete(env: ItemEnv, paths: set<string>, request: DeployRequest)
  {
    && !IsBlank(request.appName)
    && (IsManifestAction(request.deployAction) ==>
          FilePresent(env, paths, request.yamlFileContents)
          && !HasSpecialCharacter(FileNameWithoutExtension(request.yamlFileContents)))
    && (request.appContainerImage.Some? ==>
          FilePresent(env, paths, request.appContainerImage.value.tarballFileName)
          && !IsBlank(request.appContainerImage.value.destinationRepository)
          && !IsBlank(request.appContainerImage.value.destinationTag))
    && (request.appContainerBuild.Some? ==>
          FilePresent(env, paths, request.appContainerBuild.value.dockerFile)
          && !IsBlank(request.appContainerBuild.value.destinationRepository)
          && !IsBlank(request.appContainerBuild.value.destinationTag))
    && (request.appContext.ContextFile? ==> FilePresent(env, paths, request.appContext.fileName))
  }

  lemma {:induction false} NatToStringLeadingDigit(n: nat)
    ensures IsDigit(NatToString(n)[0])
    decreases n
  {
    if n >= 10 {
      NatToStringLeadingDigit(n / 10);
      assert NatToString(n)[0] == NatToString(n / 10)[0];
    }
  }

  /** The enum name the blank-action check reads is never blank, so that check never fires. */
  lemma ActionNameNotBlank(a: DeployAction)
    ensures !IsBlank(ActionName(a))
  {
    if a.ActionValue? {
      if a.code < 0 {
        assert ActionName(a)[0] == '-';
      } else {
        NatToStringLeadingDigit(a.code);
        assert ActionName(a)[0] == NatToString(a.code)[0];
      }
    } else {
      assert !IsWhiteSpace(ActionName(a)[0]);
    }
  }

  /**
   * Validation's checks in the order it makes them, each with the field it
   * names when it holds.  A named file that is filled in but absent or
   * still being copied is an exception, never a listed field, so only the
   * blank and special-character tests appear here.
   */
  function FieldChecks(request: DeployRequest): seq<(string, bool)>
  {
    LeadingChecks(request) + YamlChecks(request) + ImageChecks(request) + BuildChecks(request) + ContextChecks(request)
  }

  function LeadingChecks(request: DeployRequest): seq<(string, bool)>
  {
    [("AppName", IsBlank(request.appName)), ("DeployAction", IsBlank(ActionName(request.deployAction)))]
  }

  function YamlChecks(request: DeployRequest): seq<(string, bool)>
  {
    var manifest := IsManifestAction(request.deployAction);
    [("YamlFileContents", manifest && IsBlank(request.yamlFileContents)),
     ("YamlFileContents", manifest && HasSpecialCharacter(FileNameWithoutExtension(request.yamlFileContents)))]
  }

  function ImageChecks(request: DeployRequest): seq<(string, bool)>
  {
    var image := request.appContainerImage;
    [("TarballFileName", image.Some? && IsBlank(image.value.tarballFileName)),
     ("DestinationRepository", image.Some? && IsBlank(image.value.destinationRepository)),
     ("DestinationTag", image.Some? && IsBlank(image.value.destinationTag))]
  }

  function BuildChecks(request: DeployRequest): seq<(string, bool)>
  {
    var build := request.appContainerBuild;
    [("DockerFile", build.Some? && IsBlank(build.value.dockerFile)),
     ("DestinationRepository", build.Some? && IsBlank(build.value.destinationRepository)),
     ("DestinationTag", build.Some? && IsBlank(build.value.destinationTag))]
  }

  function ContextChecks(request: DeployRequest): seq<(string, bool)>
  {
    [("FileName", request.appContext.ContextFile? && IsBlank(request.appContext.fileName))]
  }

  /** The fields of the checks that hold, in check order. */
  function Unmet(checks: seq<(string, bool)>): seq<string>
  {
    if |checks| == 0 then [] else (if checks[0].1 then [checks[0].0] else []) + Unmet(checks[1..])
  }

  lemma {:induction false} UnmetAppend(a: seq<(string, bool)>, b: seq<(string, bool)>)
    ensures Unmet(a + b) == Unmet(a) + Unmet(b)
    decreases |a|
  {
    if |a| == 0 {
      assert a + b == b;
    } else {
      assert (a + b)[0] == a[0];
      assert (a + b)[1..] == a[1..] + b;
      UnmetAppend(a[1..], b);
    }
  }

  lemma UnmetOne(c: (string, bool))
    ensures Unmet([c]) == if c.1 then [c.0] else []
  {
    assert [c][1..] == [];
  }

  /** Unmet over a list of checks, one check at a time. */
  lemma UnmetSplit(c: (string, bool), rest: seq<(string, bool)>)
    ensures Unmet([c] + rest) == Unmet([c]) + Unmet(rest)
  {
    UnmetAppend([c], rest);
  }

  /** Every field the checks list, in check order. */
  function MissingFields(request: DeployRequest): seq<string>
  {
    Unmet(FieldChecks(request))
  }

  /** The note that opens the message: only for a manifest name with a special character. */
  function SpecialNote(request: DeployRequest): string
  {
    if IsManifestAction(request.deployAction) && HasSpecialCharacter(FileNameWithoutExtension(request.yamlFileContents))
    then SpecialCharactersMessage else ""
  }

  lemma UnmetPairs(a: (string, bool), b: (string, bool))
    ensures Unmet([a, b]) == Unmet([a]) + Unmet([b])
  {
    assert [a, b] == [a] + [b];
    UnmetSplit(a, [b]);
  }

  lemma UnmetTriples(a: (string, bool), b: (string, bool), c: (string, bool))
    ensures Unmet([a, b, c]) == Unmet([a]) + Unmet([b]) + Unmet([c])
  {
    assert [a, b, c] == [a] + [b, c];
    UnmetSplit(a, [b, c]);
    UnmetPairs(b, c);
  }

  /** The checks are the sections' checks in turn. */
  lemma ChecksBySection(request: DeployRequest)
    ensures MissingFields(request) == Unmet(LeadingChecks(request)) + Unmet(YamlChecks(request))
              + Unmet(ImageChecks(request)) + Unmet(BuildChecks(request)) + Unmet(ContextChecks(request))
    ensures Unmet(LeadingChecks(request)) == Blank("AppName", request.appName) + Blank("DeployAction", ActionName(request.deployAction))
  {
    var l, y, i, b, c := LeadingChecks(request), YamlChecks(request), ImageChecks(request), BuildChecks(request), ContextChecks(request);
    UnmetAppend(l + y + i + b, c);
    UnmetAppend(l + y + i, b);
    UnmetAppend(l + y, i);
    UnmetAppend(l, y);
    UnmetPairs(l[0], l[1]);
    UnmetOne(l[0]);
    UnmetOne(l[1]);
  }

  /** The manifest section lists the fields of its checks, and the note. */
  lemma YamlSectionInCheckOrder(env: ItemEnv, paths: set<string>, request: DeployRequest)
    ensures YamlSection(env, paths, request).Ok? ==>
              YamlSection(env, paths, request).value == (SpecialNote(request), Unmet(YamlChecks(request)))
  {
    var y := YamlChecks(request);
    UnmetPairs(y[0], y[1]);
    UnmetOne(y[0]);
    UnmetOne(y[1]);
  }

  /** The image section lists the fields of its checks. */
  lemma ImageSectionInCheckOrder(env: ItemEnv, paths: set<string>, request: DeployRequest)
    ensures ImageSection(env, paths, request).Ok? ==> ImageSection(env, paths, request).value == Unmet(ImageChecks(request))
  {
    var i := ImageChecks(request);
    UnmetTriples(i[0], i[1], i[2]);
    UnmetOne(i[0]);
    UnmetOne(i[1]);
    UnmetOne(i[2]);
  }

  /** The build section lists the fields of its checks. */
  lemma BuildSectionInCheckOrder(env: ItemEnv, paths: set<string>, request: DeployRequest)
    ensures BuildSection(env, paths, request).Ok? ==> BuildSection(env, paths, request).value == Unmet(BuildChecks(request))
  {
    var b := BuildChecks(request);
    UnmetTriples(b[0], b[1], b[2]);
    UnmetOne(b[0]);
    UnmetOne(b[1]);
    UnmetOne(b[2]);
  }

  /** The context-file section lists the field of its check. */
  lemma ContextSectionInCheckOrder(env: ItemEnv, paths: set<string>, request: DeployRequest)
    ensures ContextSection(env, paths, request).Ok? ==> ContextSection(env, paths, request).value == Unmet(ContextChecks(request))
  {
    UnmetOne(ContextChecks(request)[0]);
  }

  /**
   * The note and the missing fields validation collects, section by
   * section: a blank application name, a blank action name, then the
   * manifest, image, build and context-file sections.
   */
  function Findings(env: ItemEnv, paths: set<string>, request: DeployRequest): (r: Result<(string, seq<string>), ScheduleError>)
    ensures r.Ok? ==> (|r.value.1| == 0 <==> Complete(env, paths, request))
    ensures r.Ok? ==> r.value.0 == "" || (r.value.0 == SpecialCharactersMessage && |r.value.1| > 0)
    ensures r.Ok? ==> r.value.1 == MissingFields(request) && r.value.0 == SpecialNote(request)
  {
    ActionNameNotBlank(request.deployAction);
    ChecksBySection(request);
    YamlSectionInCheckOrder(env, paths, request);
    ImageSectionInCheckOrder(env, paths, request);
    BuildSectionInCheckOrder(env, paths, request);
    ContextSectionInCheckOrder(env, paths, request);
    var leading := Blank("AppName", request.appName) + Blank("DeployAction", ActionName(request.deployAction));
    var yaml :- YamlSection(env, paths, request);
    var image :- ImageSection(env, paths, request);
    var build :- BuildSection(env, paths, request);
    var context :- ContextSection(env, paths, request);
    Ok((yaml.0, leading + yaml.1 + image + build + context))
  }

  /**
   * `ValidatePrerequisites`: the response for an item, Pending when the
   * request is complete and InvalidArgument, with the missing fields
   * named, when it is not.  Missing or still-copying files and null
   * dereferences are exceptions.
   */
  function Validate(env: ItemEnv, paths: set<string>, parsed: ParsedItem, schedule: string, item: nat): (r: Result<DeployResponse, ScheduleError>)
    ensures parsed.nullHeader ==> r == Err(Failure(NullReferenceMessage))
    ensures r.Ok? ==> r.value.request == Defaulted(env, parsed.request, schedule, item)
    ensures r.Ok? ==> r.value.header.trackingId == r.value.request.header.trackingId
                      && r.value.header.correlationId == r.value.request.header.correlationId
    ensures r.Ok? ==> (r.value.header.status == Pending <==> Complete(env, paths, r.value.request))
    ensures r.Ok? ==> r.value.header.status == Pending || r.value.header.status == InvalidArgument
    ensures r.Ok? && r.value.header.status == Pending ==> r.value.header.message == ""
    ensures r.Ok? && r.value.header.status == InvalidArgument ==>
              |MissingFields(r.value.request)| > 0 &&
              r.value.header.message == SpecialNote(r.value.request) + RequiredFieldsMessage(MissingFields(r.value.request))
  {
    if parsed.nullHeader then Err(Failure(NullReferenceMessage))
    else
      var request := Defaulted(env, parsed.request, schedule, item);
      var findings :- Findings(env, paths, request);
      var header := request.header;
      Ok(if |findings.1| == 0 then DeployResponse(ResponseHeader(header.trackingId, header.correlationId, Pending, findings.0), request)
         else DeployResponse(ResponseHeader(header.trackingId, header.correlationId, InvalidArgument,
                                            findings.0 + RequiredFieldsMessage(findings.1)), request))
  }

  /**
   * A manifest that has not arrived yet makes the item, and so the
   * schedule file, wait for the next scan.
   */
  lemma MissingManifestRetries(env: ItemEnv, paths: set<string>, parsed: ParsedItem, schedule: string, item: nat)
    requires !parsed.nullHeader && IsManifestAction(parsed.request.deployAction)
    requires !IsBlank(parsed.request.yamlFileContents)
    requires ImportPath(env, parsed.request.yamlFileContents) !in paths
    ensures Validate(env, paths, parsed, schedule, item) == Err(FileNotFound(parsed.request.yamlFileContents))
  {
  }

  /**
   * A manifest still being copied when the wait times out: the item
   * waits for the next scan if its context file is required, is accepted
   * if the context file is optional, and fails with a null dereference if
   * it has no context file at all.
   */
  lemma ManifestCopyTimeout(env: ItemEnv, paths: set<string>, parsed: ParsedItem, schedule: string, item: nat)
    requires !parsed.nullHeader && IsManifestAction(parsed.request.deployAction)
    requires !IsBlank(parsed.request.yamlFileContents)
    requires ImportPath(env, parsed.request.yamlFileContents) in paths
    requires WaitForCopy(env, paths, ImportPath(env, parsed.request.yamlFileContents)) == Err(Timeout)
    ensures !parsed.request.appContext.ContextFile? ==> Validate(env, paths, parsed, schedule, item) == Err(Failure(NullReferenceMessage))
    ensures parsed.request.appContext.ContextFile? && parsed.request.appContext.required ==>
              Validate(env, paths, parsed, schedule, item) == Err(FileNotFound(parsed.request.yamlFileContents))
  {
  }

  /**
   * A manifest that is there but still being copied fails validation with
   * the sharing violation, whatever the context file, and that error is
   * not retried.
   */
  lemma ManifestStillCopying(env: ItemEnv, paths: set<string>, parsed: ParsedItem, schedule: string, item: nat)
    requires !parsed.nullHeader && IsManifestAction(parsed.request.deployAction)
    requires !IsBlank(parsed.request.yamlFileContents)
    requires ImportPath(env, parsed.request.yamlFileContents) in paths && env.copyAttempts > 0
    requires env.tryOpen(ImportPath(env, parsed.request.yamlFileContents), 0) == SharingViolation
    ensures Validate(env, paths, parsed, schedule, item) == Err(Fault(env, Locked))
    ensures !IsRetried(Validate(env, paths, parsed, schedule, item).error)
  {
  }
}
