# CSI proxy driver, modelled in Dafny

This project models `CsiProxyDriver`, the CSI driver that stands in front of the real
storage drivers of democratic-csi. The proxy builds a real backend driver for every call
and forwards the call to it. It works in four steps:

- **Construction.** It defaults the capability lists it advertises. It makes sure that
  `service.{identity,controller,node}.capabilities` exist, and fills in the `service`,
  `volume_expansion` and `rpc` lists where they are missing. Some `rpc` entries depend on
  the CSI version.
- **Controller calls.** They parse the request's `config-*` secrets as YAML, in sorted key
  order, and merge them into one options object. That object is merged over a clone of the
  proxy's own options, and the result must name a `driver`.
- **Driver guards.** The proxy refuses a deny-listed driver, asks the factory for the
  driver, and refuses a proxy built on a proxy.
- **Routing.** Controller handlers forward the unchanged call to the backend method of the
  same name. Node handlers take the backend's name from
  `volume_context.provisioner_driver` and never look at the secrets.

Modules:

- `Json`: option values, JavaScript truthiness, path lookup, and the part of lodash
  `_.merge` the proxy relies on (`Overlay`, `Merge`).
- `Sorting`: `Object.keys(..).sort()` as lexicographic order and a sorted key list.
- `Semver`: CSI versions as release triples, and `>=x.y.z`.
- `Capabilities`: the constructor's in-place defaulting, written as an imperative walk
  over local values. Its specification is the predicate `DefaultsApplied`.
- `Secrets`: `getOptionsFromSecrets`. The loop is a method; its specification is the fold
  `MergeSecrets` over the sorted configuration keys.
- `Proxy`: the proxy value, `mergeOptions`, `validateDriver`, `createRealDriver`, and the
  controller and node handlers.
- `Errors`, `Wrappers`: thrown values as `Result` failures.

Inputs the model takes as parameters:

- The YAML parser is a function `string -> Result<Value, Error>`.
- The driver factory is `ctx.factory`.
- The backend drivers' RPC handlers are one function `invoke(driver, rpc, call)`.

The proxy's state is a value: nothing changes `this.options` after the constructor.

## Model

| member | source | states |
|---|---|---|
| `Json.Overlay` | src/driver/controller-proxy/index.js:175 | Merging an object source into an object base gives an object. Its keys are the union of both key sets; keys only the base has keep the base's value. A non-object source (null included) is the result. |
| `Json.Merge` | src/driver/controller-proxy/index.js:163 | `_.merge(dest, src)` into null or an object always yields an object that has every key of `dest`. A source that is not an object leaves `dest` as it is, or `{}` for a null `dest`. |
| `Json.OverlaySourceWins` | src/driver/controller-proxy/index.js:175 | A non-object value the source holds at a path is what the merge holds at that path. |
| `Json.OverlayKeepsBase` | src/driver/controller-proxy/index.js:175 | Where the source is silent on a path, the merge keeps the base's value there. |
| `Json.MergeSourceWins` | src/driver/controller-proxy/index.js:163 | The top-level form of `OverlaySourceWins`: `_.merge` into null or an object, for a non-empty path. |
| `Json.MergeKeepsBase` | src/driver/controller-proxy/index.js:175 | The top-level form of `OverlayKeepsBase`: a non-object source or a silent path keeps the destination's value. |
| `Sorting.BelowIrreflexive` | src/driver/controller-proxy/index.js:154 | No string sorts before itself. |
| `Sorting.BelowAsymmetric` | src/driver/controller-proxy/index.js:154 | Two strings never sort before each other. |
| `Sorting.BelowTransitive` | src/driver/controller-proxy/index.js:154 | Sort order is transitive. |
| `Sorting.BelowTotal` | src/driver/controller-proxy/index.js:154 | Two distinct strings are ordered one way or the other. |
| `Sorting.LeastExists` | src/driver/controller-proxy/index.js:154 | Every non-empty key set has a first key in sort order. |
| `Sorting.SortedKeys` | src/driver/controller-proxy/index.js:154 | `Object.keys(secrets).sort()` is strictly ascending. It holds exactly the keys of the map, each once. |
| `Sorting.SortedUnique` | src/driver/controller-proxy/index.js:154 | Two strictly sorted lists with the same elements are equal, so the key order depends only on the key set. |
| `Capabilities.Sections` | src/driver/controller-proxy/index.js:57-69 | The walk down to the three sections succeeds exactly when the options (or `{}` for falsy options), their service object and the three sections are objects. Otherwise it throws a TypeError. On success it yields the three sections. |
| `Capabilities.FillIdentityCaps` | src/driver/controller-proxy/index.js:71-89 | Only `service` and `volume_expansion` are added. A key already present keeps its value; a missing one becomes `[CONTROLLER_SERVICE]` or `[ONLINE]`. |
| `Capabilities.FillControllerCaps` | src/driver/controller-proxy/index.js:91-120 | Only `rpc` is added. A present `rpc` is kept. A missing one becomes the five base entries plus SINGLE_NODE_MULTI_WRITER from CSI 1.5.0 on; the 1.3.0 branch pushes nothing. |
| `Capabilities.FillNodeCaps` | src/driver/controller-proxy/index.js:122-143 | Only `rpc` is added. A present `rpc` is kept. A missing one becomes STAGE_UNSTAGE_VOLUME, GET_VOLUME_STATS, EXPAND_VOLUME, plus SINGLE_NODE_MULTI_WRITER from CSI 1.5.0 on. |
| `Capabilities.ApplyDefaultCapabilities` | src/driver/controller-proxy/index.js:57-143 | Success holds exactly when every level written to, or tested with `in`, is an object; otherwise the call throws a TypeError. On success each of the seven containers keeps all it held and gains only the keys the constructor sets. The four lists are kept or defaulted, and the three capability objects are reachable at their paths. |
| `Capabilities.WriteBack` | src/driver/controller-proxy/index.js:57-69 | Writing the capability objects back level by level yields options that satisfy `DefaultsApplied` and have every container present. |
| `Capabilities.AssembledShape` | src/driver/controller-proxy/index.js:57-69 | The assembled options extend the root and service objects by exactly the keys set there, and each section holds its capability object. |
| `Capabilities.AssembledDefaults` | src/driver/controller-proxy/index.js:57-143 | Capability objects that were filled as the source fills them give options satisfying `DefaultsApplied`. |
| `Capabilities.DefaultRpcByVersion` | src/driver/controller-proxy/index.js:94-142 | SINGLE_NODE_MULTI_WRITER is in the default controller and node lists exactly when the CSI version is at least 1.5.0. Below that, the lists equal the 1.3.0 ones. The base entries always come first. |
| `Capabilities.DefaultsIdempotent` | src/driver/controller-proxy/index.js:57-143 | Defaulted options are defaultable again, and a second defaulting, under any CSI version, leaves them as they are. |
| `Secrets.ConfigNames` | src/driver/controller-proxy/index.js:156-160 | The keys kept are exactly those starting with `config-`. A sorted key list stays sorted. |
| `Secrets.MergeSecrets` | src/driver/controller-proxy/index.js:155-168 | The fold is null exactly when no keys are named, and an object otherwise. |
| `Secrets.MergeSecretsOutcome` | src/driver/controller-proxy/index.js:161-167 | A parse failure aborts the fold. It succeeds exactly when every named secret parses. A failure carries the error of the first secret, in list order, that fails to parse. |
| `Secrets.OptionsFromSecrets` | src/driver/controller-proxy/index.js:152-170 | The result is null exactly when no secret is a configuration secret, and otherwise an object. It succeeds exactly when every configuration secret parses. A failure carries the error of the first failing configuration secret in sort order. |
| `Secrets.FirstFailureIsLeast` | src/driver/controller-proxy/index.js:156-167 | The first parse failure in a sorted key list comes from the least failing configuration key in sort order. |
| `Secrets.ConfigNamesAppend` | src/driver/controller-proxy/index.js:156-160 | Skipping non-configuration keys distributes over concatenating key lists. |
| `Secrets.FailurePersists` | src/driver/controller-proxy/index.js:162-167 | After a parse throws, further keys do not change the outcome: the whole call fails with that error. |
| `Secrets.MergeSecretsAgree` | src/driver/controller-proxy/index.js:161-163 | The fold reads the secrets only at the names it is given. |
| `Secrets.OnlyConfigSecretsMatter` | src/driver/controller-proxy/index.js:152-170 | Two secret maps that agree on every `config-` key give the same options or the same error. |
| `Secrets.LastConfigKeyWins` | src/driver/controller-proxy/index.js:154-163 | A non-object value at a path in the last configuration secret, in sort order, is what the merged options hold there, whatever the earlier secrets say. |
| `Secrets.LaterConfigKeyWins` | src/driver/controller-proxy/index.js:154-163 | A later key wins on conflict. Take a configuration secret holding a non-object value at a path, where every later configuration secret in sort order parses to a non-object or is silent at that path. Then the merged options hold that value there, whatever the earlier secrets say. |
| `Secrets.LaterPositionWins` | src/driver/controller-proxy/index.js:156-163 | The same for the fold over a key list: a non-object value from position `i` survives every later merge that is silent at the path. |
| `Secrets.LastOfSorted` | src/driver/controller-proxy/index.js:154 | The greatest element of a strictly sorted list is its last. |
| `Secrets.LastMerged` | src/driver/controller-proxy/index.js:163 | A successful fold ends by merging the last secret's parse into the fold of the earlier ones. |
| `Secrets.MergeStep` | src/driver/controller-proxy/index.js:156-168 | One loop turn: a non-configuration key leaves the fold alone. A configuration key either fails with its parse error or merges its parse into the accumulator. |
| `Secrets.FailureAt` | src/driver/controller-proxy/index.js:162-167 | A parse failure at position `i` of the sorted keys is the outcome of the whole call. |
| `Secrets.GetOptionsFromSecrets` | src/driver/controller-proxy/index.js:152-170 | The loop over the sorted keys, skipping other keys and merging or rethrowing, returns exactly `OptionsFromSecrets`. |
| `Proxy.NewCsiProxyDriver` | src/driver/controller-proxy/index.js:55-150 | Construction succeeds exactly when the options are defaultable, and otherwise throws a TypeError. The proxy keeps `ctx`. Truthy options are stored defaulted as `DefaultsApplied` states; falsy options are stored as given. |
| `Proxy.MergedOptions` | src/driver/controller-proxy/index.js:172-180 | A secret parse error propagates. Success holds exactly when the base is an object and the merged object has a truthy `driver`; it keeps every base key. Otherwise the call fails with "real driver is missing from config", or with a TypeError when the base is null. |
| `Proxy.SecretsOverrideBase` | src/driver/controller-proxy/index.js:173-175 | A non-object value the secrets' options hold at a path overrides the proxy's own options there. |
| `Proxy.BaseKeptWhereSecretsSilent` | src/driver/controller-proxy/index.js:173-175 | Where the secrets say nothing, the proxy's own value is kept. |
| `Proxy.ValidateDriverAsWritten` | src/driver/controller-proxy/index.js:182-196 | The eight listed names, and only they, are rejected. The rejection is a ReferenceError for `mergedOptions`. |
| `Proxy.ValidateDriver` | src/driver/controller-proxy/index.js:182-196 | The rejection holds exactly for the eight names spelled out and no other value. The error is "proxy is not supported for driver: " followed by the name. |
| `Proxy.ValidateDriverSameVerdict` | src/driver/controller-proxy/index.js:193-194 | The as-written and the corrected check reject the same drivers, with different errors. |
| `Proxy.ValidateDriverAsWrittenLosesMessage` | src/driver/controller-proxy/index.js:194 | For `objectivefs`, the as-written check throws a ReferenceError where the intended message was meant. |
| `Proxy.BuildDriver` | src/driver/controller-proxy/index.js:200-204 | A deny-listed driver is refused before the factory, with the ReferenceError that `validateDriver` throws as written. A factory error propagates. A built proxy fails with "cyclic dependency: proxy on proxy". Success holds exactly when none of these happen, and returns what the factory built. |
| `Proxy.FactoryNotReachedWhenDenied` | src/driver/controller-proxy/index.js:200-201 | With a deny-listed driver the outcome is the same whatever the factory would build, so the factory is never reached. |
| `Proxy.RealDriver` | src/driver/controller-proxy/index.js:198-207 | An options error propagates. A driver is returned only when the merged options name a truthy, non-deny-listed driver, the factory built it from those options, and it is not a proxy. |
| `Proxy.DriverDependsOnConfigSecretsOnly` | src/driver/controller-proxy/index.js:198-201 | Each call builds its own driver from its own configuration secrets, with nothing cached: calls whose configuration secrets agree get the same driver. |
| `Proxy.ControllerDelegate` | src/driver/controller-proxy/index.js:209-235 | A driver error propagates. Otherwise the result is what the same-named controller method of the real driver returns on the unchanged call. |
| `Proxy.NodeOptions` | src/driver/controller-proxy/index.js:238-239 | Success holds exactly when the base options are an object; otherwise a TypeError is thrown. `driver` becomes `volume_context.provisioner_driver`, overriding the base value, and is absent when that entry is. Every other key is unchanged. |
| `Proxy.NodeDriver` | src/driver/controller-proxy/index.js:237-244 | An options error propagates. A driver is returned only when the node options' driver is not deny-listed, the factory built it, and it is not a proxy. |
| `Proxy.NodeDriverIgnoresSecrets` | src/driver/controller-proxy/index.js:237-257 | Node handlers never consult the secrets: the same volume context gives the same driver. |
| `Proxy.NodeDriverNamedByVolumeContext` | src/driver/controller-proxy/index.js:239-240 | The name in `provisioner_driver` is the driver asked for. A deny-listed name is refused with the as-written ReferenceError. |
| `Proxy.NodeDelegate` | src/driver/controller-proxy/index.js:237-257 | A driver error propagates. Otherwise the result is what the same-named node method of the built driver returns on the unchanged call. |
| `Proxy.ForwardedOnlyToRealDrivers` | src/driver/controller-proxy/index.js:202-257 | Calls are only ever forwarded to drivers that are not proxies. Two proxies whose backends agree on every non-proxy class give the same answers on both paths. |

## Left out

- Logging (`ctx.logger.debug`, `console.log`) is left out; it only has output effects.
- Asynchrony is left out: every handler is a synchronous computation.
- Only release versions are modelled. `semver.satisfies(v, ">=x.y.z")` is a lexicographic
  test on `(major, minor, patch)`; prerelease tags and invalid version strings are out.
- YAML parsing is left out (`js-yaml` is foreign code). It is a parameter, and a parse
  that throws is a `Failure`. A document parsing to `undefined` is written as null.
- The factory and the backend drivers are left out. The factory is `ctx.factory`, and a
  driver is its class name plus an opaque rest. The backends' handlers are one function of
  the driver, the RPC and the call.
- The base class `CsiBaseDriver` is not part of this model. The constructor is taken to
  store the caller's `options` reference before defaulting.
- Json.Merge and Json.Overlay: lodash `_.merge` merges objects key-wise, and any other
  source value replaces the base. Array sources are not merged index by index. A string or
  array source at the top level is not spread into indexed keys. Prototype and
  `undefined`-source rules are left out.
- Capabilities.ApplyDefaultCapabilities treats an array where an object is expected as a
  primitive. JavaScript would accept property writes on an array; the model reports a
  TypeError instead.
- Capabilities.ApplyDefaultCapabilities does not model aliasing. The source mutates the
  caller's object in place, so partial writes are visible before a TypeError. The model
  returns a new value, and nothing on the failure path.
- `undefined` is not a value of the model. A missing `provisioner_driver` makes
  Proxy.NodeOptions drop `driver` from the options, where the source stores
  `driver: undefined`.
- `call.request.secrets` and `volume_context` are always present maps. An absent one, which
  makes the source throw a TypeError, is not modelled.
- Sorting.SortedKeys orders by character, following Dafny's `char` order. JavaScript sorts
  by UTF-16 code unit; the two differ only for characters outside the Basic Multilingual
  Plane.
- Numbers are integers; floating point is left out.
- The deny-list test follows the code, which uses `Array.prototype.includes` (exact
  membership). It is not a prefix test. The proxy-on-proxy case is the class-name check
  after the factory, not a deny-list entry. Errors are thrown strings, not gRPC status
  codes.
- `NodePublishVolumeRequest` keeps the source's handler name. The CSI RPC itself is
  `NodePublishVolume`.
- The commented-out `fallbackDriver` block has no executable logic and is left out.

## Findings

| source | as written | input that shows it | evidently intended | confidence | as-written member | corrected member |
|---|---|---|---|---|---|---|
| src/driver/controller-proxy/index.js:194 | `validateDriver` throws `"proxy is not supported for driver: " + mergedOptions.driver`. `mergedOptions` is not in scope there, so the rejection is a ReferenceError. | `driver = "objectivefs"` | The thrown message names the refused driver: "proxy is not supported for driver: objectivefs". | not executed | `Proxy.ValidateDriverAsWritten`, `Proxy.ValidateDriverAsWrittenLosesMessage` | `Proxy.ValidateDriver` |

The guards `Proxy.BuildDriver`, and through it every handler, use the as-written check, so their refusals are the ReferenceError. `Proxy.ValidateDriverSameVerdict` shows that the corrected check refuses exactly the same drivers; only the error differs.
