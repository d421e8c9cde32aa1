/**
 * `CsiProxyDriver` (src/driver/controller-proxy/index.js:54-258): a CSI driver that builds a
 * real backend driver for every call and forwards the call to it. Controller calls take the
 * backend's settings from the request's `config-*` secrets merged over the proxy's own
 * options; node calls take only the backend's name, from the volume context.
 *
 * The proxy never changes after construction, so it is a value. The driver factory, the
 * YAML parser and the backend drivers' own RPC handlers are foreign code, passed in as
 * functions.
 */
module Proxy {
  import opened Wrappers
  import opened Errors
  import opened Json
  import opened Semver
  import opened Capabilities
  import opened Secrets

  /**
   * A backend driver, as far as the proxy looks at it: `constructor.name`, and the rest of
   * the instance, which only the backend's own handlers read.
   */
  datatype Driver = Driver(className: string, state: Value)

  /** `this.constructor.name` of the proxy itself. */
  const ProxyClassName: string := "CsiProxyDriver"

  /** `ctx`: the CSI version the plugin speaks and `ctx.factory(ctx, options)`, which builds a driver. */
  datatype Context = Context(csiVersion: Version, factory: Value -> Result<Driver, Error>)

  /** Foreign code the proxy calls: `yaml.load`, and the RPC handlers of the backend drivers. */
  datatype Externals = Externals(
    yamlLoad: string -> Result<Value, Error>,
    invoke: (Driver, Rpc, Call) -> Result<Value, Error>)

  datatype ControllerRpc =
    | CreateVolume
    | DeleteVolume
    | ControllerExpandVolume
    | ListSnapshots
    | CreateSnapshot
    | DeleteSnapshot
    | ValidateVolumeCapabilities

  datatype NodeRpc = NodeStageVolume | NodePublishVolumeRequest

  /** The RPC a handler of the proxy forwards: the backend method of the same name. */
  datatype Rpc = ControllerCall(controller: ControllerRpc) | NodeCall(node: NodeRpc)

  /** `call.request`: its `secrets`, its `volume_context`, and every other field, which the proxy only passes on. */
  datatype Request = Request(secrets: map<string, string>, volumeContext: map<string, string>, rest: Value)

  datatype Call = Call(request: Request)

  /** A constructed proxy: `this.ctx`, the foreign code it calls, and `this.options`. */
  datatype CsiProxyDriver = CsiProxyDriver(ctx: Context, ext: Externals, options: Value) {

    /**
     * What construction leaves in `this.options`: the defaulted object, or the falsy value
     * the caller passed (the constructor defaulted a fresh `{}` that it then dropped).
     */
    predicate Valid() {
      options.Obj? || !Truthy(options)
    }
  }

  /**
   * `new CsiProxyDriver(ctx, options)`. The base class keeps the caller's `options`; the
   * constructor then defaults `options || {}` in place, so a truthy object is stored with
   * its defaults and a falsy value is stored as it was. A level that is a truthy primitive
   * makes the strict-mode property write throw a TypeError.
   */
  method NewCsiProxyDriver(ctx: Context, ext: Externals, options: Value) returns (r: Result<CsiProxyDriver, Error>)
    ensures r.Success? <==> Defaultable(options)
    ensures r.Failure? ==> r.error.TypeError?
    ensures r.Success? ==> r.value.ctx == ctx && r.value.ext == ext && r.value.Valid()
    ensures r.Success? && Truthy(options) ==> DefaultsApplied(options, r.value.options, ctx.csiVersion)
    ensures r.Success? && !Truthy(options) ==> r.value.options == options
  {
    var defaulted :- ApplyDefaultCapabilities(options, ctx.csiVersion);
    var stored := if Truthy(options) then defaulted else options;
    r := Success(CsiProxyDriver(ctx, ext, stored));
  }

  /**
   * `mergeOptions(call)`: the secrets' options merged over a clone of `this.options`; the
   * result must name a driver. The clone is a value here, so `this.options` is never
   * touched. `_.merge` into a null clone builds an object it does not hand back, and
   * `null.driver` then throws; into another falsy primitive it has no effect, and the
   * primitive has no `driver`.
   */
  function MergedOptions(p: CsiProxyDriver, call: Call): (r: Result<Value, Error>)
    requires p.Valid()
    ensures OptionsFromSecrets(p.ext.yamlLoad, call.request.secrets).Failure? ==>
      r == Failure(OptionsFromSecrets(p.ext.yamlLoad, call.request.secrets).error)
    ensures r.Success? ==> r.value.Obj? && Truthy(Get(r.value, "driver")) && KeysOf(p.options) <= KeysOf(r.value)
    ensures r.Success? <==>
      && OptionsFromSecrets(p.ext.yamlLoad, call.request.secrets).Success?
      && p.options.Obj?
      && Truthy(Get(Merge(p.options, OptionsFromSecrets(p.ext.yamlLoad, call.request.secrets).value), "driver"))
    ensures r.Failure? && OptionsFromSecrets(p.ext.yamlLoad, call.request.secrets).Success? ==>
      r.error == if p.options.Null? then TypeError("Cannot read properties of null (reading 'driver')") else Thrown(MissingDriver)
  {
    var fromSecrets :- OptionsFromSecrets(p.ext.yamlLoad, call.request.secrets);
    if p.options.Null? then Failure(TypeError("Cannot read properties of null (reading 'driver')"))
    else if !p.options.Obj? then Failure(Thrown(MissingDriver))
    else
      var merged := Merge(p.options, fromSecrets);
      if !Truthy(Get(merged, "driver")) then Failure(Thrown(MissingDriver))
      else Success(merged)
  }

  /** Secrets override the base: a non-object value the secrets' options hold at a path is what the merged options hold. */
  lemma SecretsOverrideBase(p: CsiProxyDriver, call: Call, path: seq<string>, x: Value)
    requires p.Valid()
    requires OptionsFromSecrets(p.ext.yamlLoad, call.request.secrets).Success?
    requires |path| > 0 && At(OptionsFromSecrets(p.ext.yamlLoad, call.request.secrets).value, path) == Some(x) && !x.Obj?
    requires MergedOptions(p, call).Success?
    ensures At(MergedOptions(p, call).value, path) == Some(x)
  {
    MergeSourceWins(p.options, OptionsFromSecrets(p.ext.yamlLoad, call.request.secrets).value, path, x);
  }

  /** Where the secrets say nothing, the merged options keep the proxy's own value. */
  lemma BaseKeptWhereSecretsSilent(p: CsiProxyDriver, call: Call, path: seq<string>, x: Value)
    requires p.Valid()
    requires OptionsFromSecrets(p.ext.yamlLoad, call.request.secrets).Success?
    requires var s := OptionsFromSecrets(p.ext.yamlLoad, call.request.secrets).value; s.Null? || Silent(s, path)
    requires At(p.options, path) == Some(x)
    requires MergedOptions(p, call).Success?
    ensures At(MergedOptions(p, call).value, path) == Some(x)
  {
    MergeKeepsBase(p.options, OptionsFromSecrets(p.ext.yamlLoad, call.request.secrets).value, path, x);
  }

  /** The driver names the proxy refuses to build. */
  const UnsupportedDrivers: seq<string> := [
    "zfs-local-ephemeral-inline",
    "zfs-local-dataset",
    "zfs-local-zvol",
    "objectivefs",
    "local-hostpath",
    "synology-nfs",
    "synology-smb",
    "synology-iscsi"
  ]

  /** `unsupportedDrivers.includes(driver)`: only a string equal to a listed name matches. */
  predicate Denied(driver: Value) {
    driver.Str? && driver.s in UnsupportedDrivers
  }

  /**
   * `validateDriver(driver)` as written: the rejection builds its message from
   * `mergedOptions`, a name not in scope in this method, so every rejection is a
   * ReferenceError instead of the intended message.
   */
  function ValidateDriverAsWritten(driver: Value): (r: Result<(), Error>)
    ensures r.Failure? <==> Denied(driver)
    ensures r.Failure? ==> r.error == ReferenceError("mergedOptions")
  {
    if Denied(driver) then Failure(ReferenceError("mergedOptions")) else Success(())
  }

  /** `validateDriver(driver)` with the intended message, naming the refused driver. */
  function ValidateDriver(driver: Value): (r: Result<(), Error>)
    ensures r.Failure? <==>
      || driver == Str("zfs-local-ephemeral-inline")
      || driver == Str("zfs-local-dataset")
      || driver == Str("zfs-local-zvol")
      || driver == Str("objectivefs")
      || driver == Str("local-hostpath")
      || driver == Str("synology-nfs")
      || driver == Str("synology-smb")
      || driver == Str("synology-iscsi")
    ensures r.Failure? ==> r.error == Thrown(UnsupportedPrefix + driver.s)
  {
    if Denied(driver) then Failure(Thrown(UnsupportedPrefix + driver.s)) else Success(())
  }

  /** Both forms refuse exactly the same drivers; they differ only in what they throw. */
  lemma ValidateDriverSameVerdict(driver: Value)
    ensures ValidateDriverAsWritten(driver).Failure? <==> ValidateDriver(driver).Failure?
    ensures ValidateDriverAsWritten(driver).Failure? ==>
      ValidateDriverAsWritten(driver).error != ValidateDriver(driver).error
  {
  }

  /** A deny-listed driver as written: the caller sees a ReferenceError, not "proxy is not supported for driver: objectivefs". */
  lemma ValidateDriverAsWrittenLosesMessage()
    ensures ValidateDriverAsWritten(Str("objectivefs")) == Failure(ReferenceError("mergedOptions"))
    ensures ValidateDriver(Str("objectivefs")) == Failure(Thrown("proxy is not supported for driver: objectivefs"))
  {
    assert UnsupportedPrefix + "objectivefs" == "proxy is not supported for driver: objectivefs";
  }

  /**
   * The guard both paths share (lines 200-204 and 240-244): refuse a deny-listed driver,
   * build the driver with the factory, refuse a proxy built on a proxy. The refusal is the
   * one `validateDriver` throws as written, a ReferenceError.
   */
  function BuildDriver(ctx: Context, options: Value): (r: Result<Driver, Error>)
    ensures Denied(Get(options, "driver")) ==> r == Failure(ReferenceError("mergedOptions"))
    ensures !Denied(Get(options, "driver")) && ctx.factory(options).Failure? ==> r == Failure(ctx.factory(options).error)
    ensures !Denied(Get(options, "driver")) && ctx.factory(options).Success? && ctx.factory(options).value.className == ProxyClassName ==>
      r == Failure(Thrown(CyclicDependency))
    ensures r.Success? <==>
      && !Denied(Get(options, "driver"))
      && ctx.factory(options).Success?
      && ctx.factory(options).value.className != ProxyClassName
    ensures r.Success? ==> r.value == ctx.factory(options).value
  {
    var _ :- ValidateDriverAsWritten(Get(options, "driver"));
    var driver :- ctx.factory(options);
    if driver.className == ProxyClassName then Failure(Thrown(CyclicDependency))
    else Success(driver)
  }

  /** The factory is never reached with a deny-listed driver: what it would build makes no difference. */
  lemma FactoryNotReachedWhenDenied(ctx1: Context, ctx2: Context, options: Value)
    requires Denied(Get(options, "driver"))
    ensures BuildDriver(ctx1, options) == BuildDriver(ctx2, options)
  {
  }

  /** `createRealDriver(call)`: the driver built from the merged options. */
  function RealDriver(p: CsiProxyDriver, call: Call): (r: Result<Driver, Error>)
    requires p.Valid()
    ensures MergedOptions(p, call).Failure? ==> r == Failure(MergedOptions(p, call).error)
    ensures r.Success? ==>
      && MergedOptions(p, call).Success?
      && Truthy(Get(MergedOptions(p, call).value, "driver"))
      && !Denied(Get(MergedOptions(p, call).value, "driver"))
      && p.ctx.factory(MergedOptions(p, call).value) == Success(r.value)
      && r.value.className != ProxyClassName
  {
    var options :- MergedOptions(p, call);
    BuildDriver(p.ctx, options)
  }

  /**
   * A driver per call, with nothing cached: the driver depends on this call's configuration
   * secrets alone, so two calls whose configuration secrets agree get the same driver.
   */
  lemma DriverDependsOnConfigSecretsOnly(p: CsiProxyDriver, c1: Call, c2: Call)
    requires p.Valid()
    requires forall k :: IsConfigKey(k) ==> (k in c1.request.secrets <==> k in c2.request.secrets)
    requires forall k :: k in c1.request.secrets && IsConfigKey(k) ==> c1.request.secrets[k] == c2.request.secrets[k]
    ensures RealDriver(p, c1) == RealDriver(p, c2)
  {
    OnlyConfigSecretsMatter(p.ext.yamlLoad, c1.request.secrets, c2.request.secrets);
  }

  /** The controller handlers (lines 209-235): the same-named method of the real driver, on the unchanged call. */
  function ControllerDelegate(p: CsiProxyDriver, rpc: ControllerRpc, call: Call): (r: Result<Value, Error>)
    requires p.Valid()
    ensures RealDriver(p, call).Failure? ==> r == Failure(RealDriver(p, call).error)
    ensures RealDriver(p, call).Success? ==> r == p.ext.invoke(RealDriver(p, call).value, ControllerCall(rpc), call)
  {
    var driver :- RealDriver(p, call);
    p.ext.invoke(driver, ControllerCall(rpc), call)
  }

  /**
   * A clone of `this.options` with `driver` set to `volume_context.provisioner_driver`;
   * a missing entry sets `driver` to `undefined`, written as the key being absent. Setting
   * a property on a null or primitive clone throws.
   */
  function NodeOptions(p: CsiProxyDriver, call: Call): (r: Result<Value, Error>)
    ensures r.Success? <==> p.options.Obj?
    ensures r.Failure? ==> r.error.TypeError?
    ensures r.Success? ==>
      && r.value.Obj?
      && ("provisioner_driver" in call.request.volumeContext <==> "driver" in r.value.fields)
      && Get(r.value, "driver") ==
        (if "provisioner_driver" in call.request.volumeContext then Str(call.request.volumeContext["provisioner_driver"]) else Null)
      && r.value.fields.Keys - {"driver"} == p.options.fields.Keys - {"driver"}
      && forall k :: k in p.options.fields && k != "driver" ==> k in r.value.fields && r.value.fields[k] == p.options.fields[k]
  {
    if !p.options.Obj? then Failure(TypeError("Cannot create property 'driver' on a primitive"))
    else if "provisioner_driver" in call.request.volumeContext then
      Success(Obj(p.options.fields["driver" := Str(call.request.volumeContext["provisioner_driver"])]))
    else
      Success(Obj(p.options.fields - {"driver"}))
  }

  /** The driver a node handler builds: from the volume context's driver name and the proxy's options. */
  function NodeDriver(p: CsiProxyDriver, call: Call): (r: Result<Driver, Error>)
    ensures NodeOptions(p, call).Failure? ==> r == Failure(NodeOptions(p, call).error)
    ensures r.Success? ==>
      && NodeOptions(p, call).Success?
      && !Denied(Get(NodeOptions(p, call).value, "driver"))
      && p.ctx.factory(NodeOptions(p, call).value) == Success(r.value)
      && r.value.className != ProxyClassName
  {
    var options :- NodeOptions(p, call);
    BuildDriver(p.ctx, options)
  }

  /** Node handlers never consult the secrets: two calls with the same volume context get the same driver. */
  lemma NodeDriverIgnoresSecrets(p: CsiProxyDriver, c1: Call, c2: Call)
    requires c1.request.volumeContext == c2.request.volumeContext
    ensures NodeDriver(p, c1) == NodeDriver(p, c2)
  {
  }

  /**
   * The driver named in the volume context is the one asked for, whatever `driver` the
   * proxy's options hold; a deny-listed name is refused, as written, with a ReferenceError.
   */
  lemma NodeDriverNamedByVolumeContext(p: CsiProxyDriver, call: Call, name: string)
    requires p.options.Obj?
    requires "provisioner_driver" in call.request.volumeContext
    requires call.request.volumeContext["provisioner_driver"] == name
    ensures NodeOptions(p, call).Success? && Get(NodeOptions(p, call).value, "driver") == Str(name)
    ensures name in UnsupportedDrivers ==> NodeDriver(p, call) == Failure(ReferenceError("mergedOptions"))
  {
  }

  /** `NodeStageVolume` and `NodePublishVolumeRequest` (lines 237-257): the same-named method of the built driver, on the unchanged call. */
  function NodeDelegate(p: CsiProxyDriver, rpc: NodeRpc, call: Call): (r: Result<Value, Error>)
    ensures NodeDriver(p, call).Failure? ==> r == Failure(NodeDriver(p, call).error)
    ensures NodeDriver(p, call).Success? ==> r == p.ext.invoke(NodeDriver(p, call).value, NodeCall(rpc), call)
  {
    var driver :- NodeDriver(p, call);
    p.ext.invoke(driver, NodeCall(rpc), call)
  }

  /**
   * Calls are forwarded only to drivers the guards let through, never to a proxy: two
   * proxies whose backends behave alike on every other class give the same answers.
   */
  lemma ForwardedOnlyToRealDrivers(p: CsiProxyDriver, q: CsiProxyDriver, rpc: Rpc, call: Call)
    requires p.Valid() && q.ctx == p.ctx && q.options == p.options && q.ext.yamlLoad == p.ext.yamlLoad
    requires forall d: Driver, x: Rpc, c: Call :: d.className != ProxyClassName ==> p.ext.invoke(d, x, c) == q.ext.invoke(d, x, c)
    ensures rpc.ControllerCall? ==> ControllerDelegate(p, rpc.controller, call) == ControllerDelegate(q, rpc.controller, call)
    ensures rpc.NodeCall? ==> NodeDelegate(p, rpc.node, call) == NodeDelegate(q, rpc.node, call)
  {
  }
}
