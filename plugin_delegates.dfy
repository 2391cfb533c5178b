// The delegates through which the service hands a schedule-file path or
// a deploy request/response pair to a loaded plugin, and the chaining of
// one delegate over the whole plugin list.  A plugin hook is a function
// from its input to what the call produced: the value it returned, or an
// exception.

module PluginDelegates {
  import opened Common
  import opened Messages

  datatype Outcome<+T> = Returned(value: T) | Threw

  /** A request/response pair as plugins see it; either half may be null. */
  type DeployPair = (Option<DeployRequest>, Option<DeployResponse>)

  /** A loaded plugin: its three hooks. */
  datatype Plugin = Plugin(
    processScheduleFile: Option<string> -> Outcome<Option<string>>,
    preKubernetesDeployment: DeployPair -> Outcome<DeployPair>,
    postKubernetesDeployment: DeployPair -> Outcome<DeployPair>)

  /**
   * The delegate around a pre (or post) deployment hook.  A null request
   * is passed through without calling the plugin; otherwise the plugin's
   * result replaces the pair, and a plugin exception keeps the pair the
   * plugin was given.
   */
  function DeploymentDelegate(input: DeployPair, hook: DeployPair -> Outcome<DeployPair>): (r: DeployPair)
    ensures input.0.None? ==> r == input
    ensures input.0.Some? && hook(input).Returned? ==> r == hook(input).value
    ensures input.0.Some? && hook(input).Threw? ==> r == input
  {
    if input.0.None? then input
    else match hook(input)
      case Returned(v) => v
      case Threw => input
  }

  function PreKubernetesDeployment(input: DeployPair, plugin: Plugin): DeployPair
  {
    DeploymentDelegate(input, plugin.preKubernetesDeployment)
  }

  function PostKubernetesDeployment(input: DeployPair, plugin: Plugin): DeployPair
  {
    DeploymentDelegate(input, plugin.postKubernetesDeployment)
  }

  /**
   * The delegate around the schedule-file hook: a null path is passed
   * through without calling the plugin; otherwise the plugin's answer
   * (possibly null) replaces it, and an exception keeps the input.
   */
  function ProcessScheduleFile(input: Option<string>, plugin: Plugin): (r: Option<string>)
    ensures input.None? ==> r.None?
    ensures input.Some? && plugin.processScheduleFile(input).Returned? ==> r == plugin.processScheduleFile(input).value
    ensures input.Some? && plugin.processScheduleFile(input).Threw? ==> r == input
  {
    if input.None? then input
    else match plugin.processScheduleFile(input)
      case Returned(v) => v
      case Threw => input
  }

  /** Calling a deployment delegate on each plugin in turn, feeding each the previous output. */
  function CallPreKubernetesDeployment(plugins: seq<Plugin>, input: DeployPair): DeployPair
    decreases |plugins|
  {
    if |plugins| == 0 then input
    else CallPreKubernetesDeployment(plugins[1..], PreKubernetesDeployment(input, plugins[0]))
  }

  function CallPostKubernetesDeployment(plugins: seq<Plugin>, input: DeployPair): DeployPair
    decreases |plugins|
  {
    if |plugins| == 0 then input
    else CallPostKubernetesDeployment(plugins[1..], PostKubernetesDeployment(input, plugins[0]))
  }

  function CallProcessScheduleFile(plugins: seq<Plugin>, input: Option<string>): Option<string>
    decreases |plugins|
  {
    if |plugins| == 0 then input
    else CallProcessScheduleFile(plugins[1..], ProcessScheduleFile(input, plugins[0]))
  }

  /** Once a plugin has nulled the request, no later plugin is called and the pair comes out as it is. */
  lemma {:induction false} NulledRequestShortCircuits(plugins: seq<Plugin>, response: Option<DeployResponse>)
    ensures CallPreKubernetesDeployment(plugins, (None, response)) == (None, response)
    ensures CallPostKubernetesDeployment(plugins, (None, response)) == (None, response)
    decreases |plugins|
  {
    if |plugins| > 0 {
      NulledRequestShortCircuits(plugins[1..], response);
    }
  }

  /** Once a plugin has nulled the schedule-file path, it stays null. */
  lemma {:induction false} NulledPathShortCircuits(plugins: seq<Plugin>)
    ensures CallProcessScheduleFile(plugins, None) == None
    decreases |plugins|
  {
    if |plugins| > 0 {
      NulledPathShortCircuits(plugins[1..]);
    }
  }

  /**
   * The chain only ever calls plugins with a non-null request: its result
   * does not depend on what any hook would answer for a null request.
   */
  lemma {:induction false} ChainIgnoresHooksOnNull(plugins: seq<Plugin>, others: seq<Plugin>, input: DeployPair)
    requires input.0.None?
    ensures CallPreKubernetesDeployment(plugins, input) == CallPreKubernetesDeployment(others, input)
  {
    NulledRequestShortCircuits(plugins, input.1);
    NulledRequestShortCircuits(others, input.1);
  }

  /** A chain of plugins whose hooks all throw leaves the pair as it was given. */
  lemma {:induction false} ThrowingPluginsKeepInput(plugins: seq<Plugin>, input: DeployPair)
    requires forall i, p :: 0 <= i < |plugins| ==> plugins[i].preKubernetesDeployment(p).Threw?
    ensures CallPreKubernetesDeployment(plugins, input) == input
    decreases |plugins|
  {
    if |plugins| > 0 {
      ThrowingPluginsKeepInput(plugins[1..], input);
    }
  }

  /** Running two plugin lists one after the other is running their concatenation. */
  lemma {:induction false} ChainConcatenates(a: seq<Plugin>, b: seq<Plugin>, input: Option<string>)
    ensures CallProcessScheduleFile(a + b, input) == CallProcessScheduleFile(b, CallProcessScheduleFile(a, input))
    decreases |a|
  {
    if |a| > 0 {
      assert (a + b)[0] == a[0] && (a + b)[1..] == a[1..] + b;
      ChainConcatenates(a[1..], b, ProcessScheduleFile(input, a[0]));
    } else {
      assert a + b == b;
    }
  }
}
