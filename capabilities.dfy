/**
 * The proxy constructor's capability defaulting: it makes sure the nested
 * `service.{identity,controller,node}.capabilities` objects exist, and fills in the
 * default capability lists it finds missing, some of them depending on the CSI version.
 */
module Capabilities {
  import opened Wrappers
  import opened Errors
  import opened Json
  import opened Semver

  /** `(o || {}).service || {}`: the service object the constructor works on. */
  function Service(o: Value): Value {
    Child(OrEmpty(o), "service")
  }

  /** `service[part] || {}` for `part` one of "identity", "controller", "node". */
  function Section(o: Value, part: string): Value {
    Child(Service(o), part)
  }

  /** `service[part].capabilities || {}`. */
  function Caps(o: Value, part: string): Value {
    Child(Section(o, part), "capabilities")
  }

  /**
   * Construction gets through lines 57-143 without a TypeError: every level it writes a
   * property on, or applies `in` to, is an object once `|| {}` has replaced a falsy value.
   */
  predicate Defaultable(input: Value) {
    && OrEmpty(input).Obj?
    && Service(input).Obj?
    && Section(input, "identity").Obj?
    && Section(input, "controller").Obj?
    && Section(input, "node").Obj?
    && Caps(input, "identity").Obj?
    && Caps(input, "controller").Obj?
    && Caps(input, "node").Obj?
  }

  /**
   * `after` is the object `before` became: it has the keys of `before` plus `touched`, and
   * every key outside `touched` keeps its value.
   */
  ghost predicate Extends(before: Value, after: Value, touched: set<string>) {
    && before.Obj?
    && after.Obj?
    && after.fields.Keys == before.fields.Keys + touched
    && forall k :: k in before.fields && k !in touched ==> after.fields[k] == before.fields[k]
  }

  /** The capability key `key` keeps its value where it was present, and is `dflt` otherwise. */
  ghost predicate Filled(before: Value, after: Value, key: string, dflt: Value)
    requires before.Obj? && after.Obj?
  {
    key in after.fields && after.fields[key] == if key in before.fields then before.fields[key] else dflt
  }

  /** Default identity `service` capabilities. */
  function DefaultIdentityService(): Value {
    Arr([Str("CONTROLLER_SERVICE")])
  }

  /** Default identity `volume_expansion` capabilities. */
  function DefaultVolumeExpansion(): Value {
    Arr([Str("ONLINE")])
  }

  /** Default controller `rpc` capabilities: SINGLE_NODE_MULTI_WRITER only from CSI 1.5.0 on. */
  function DefaultControllerRpc(v: Version): Value {
    Arr([Str("CREATE_DELETE_VOLUME"), Str("CREATE_DELETE_SNAPSHOT"), Str("LIST_SNAPSHOTS"),
         Str("CLONE_VOLUME"), Str("EXPAND_VOLUME")]
        + (if AtLeast(v, V1_5_0) then [Str("SINGLE_NODE_MULTI_WRITER")] else []))
  }

  /** Default node `rpc` capabilities: SINGLE_NODE_MULTI_WRITER only from CSI 1.5.0 on. */
  function DefaultNodeRpc(v: Version): Value {
    Arr([Str("STAGE_UNSTAGE_VOLUME"), Str("GET_VOLUME_STATS"), Str("EXPAND_VOLUME")]
        + (if AtLeast(v, V1_5_0) then [Str("SINGLE_NODE_MULTI_WRITER")] else []))
  }

  /**
   * What a successful construction leaves in `out`, the constructor's local `options`: each of
   * the seven containers is an object holding what it held before plus the keys the
   * constructor sets, and each of the four capability lists is either kept or defaulted.
   */
  ghost predicate DefaultsApplied(input: Value, out: Value, v: Version) {
    && Extends(OrEmpty(input), out, {"service"})
    && Extends(Service(input), Service(out), {"identity", "controller", "node"})
    && Extends(Section(input, "identity"), Section(out, "identity"), {"capabilities"})
    && Extends(Section(input, "controller"), Section(out, "controller"), {"capabilities"})
    && Extends(Section(input, "node"), Section(out, "node"), {"capabilities"})
    && Extends(Caps(input, "identity"), Caps(out, "identity"), {"service", "volume_expansion"})
    && Extends(Caps(input, "controller"), Caps(out, "controller"), {"rpc"})
    && Extends(Caps(input, "node"), Caps(out, "node"), {"rpc"})
    && Filled(Caps(input, "identity"), Caps(out, "identity"), "service", DefaultIdentityService())
    && Filled(Caps(input, "identity"), Caps(out, "identity"), "volume_expansion", DefaultVolumeExpansion())
    && Filled(Caps(input, "controller"), Caps(out, "controller"), "rpc", DefaultControllerRpc(v))
    && Filled(Caps(input, "node"), Caps(out, "node"), "rpc", DefaultNodeRpc(v))
  }

  /** After construction the seven containers are objects reached through present keys. */
  ghost predicate ContainersPresent(out: Value) {
    && At(out, ["service", "identity", "capabilities"]).Some?
    && At(out, ["service", "controller", "capabilities"]).Some?
    && At(out, ["service", "node", "capabilities"]).Some?
    && Service(out) == Get(out, "service")
    && Section(out, "identity") == Get(Get(out, "service"), "identity")
    && Section(out, "controller") == Get(Get(out, "service"), "controller")
    && Section(out, "node") == Get(Get(out, "service"), "node")
  }

  /** `x.key = x.key || {}` on an object `x`, as a value: the (possibly new) child object. */
  function Child(x: Value, key: string): Value {
    OrEmpty(Get(x, key))
  }

  /** `x.key = child` on an object `x`. */
  function Put(x: Value, key: string, child: Value): (r: Value)
    requires x.Obj?
  {
    Obj(x.fields[key := child])
  }

  /**
   * Lines 57-143 of the constructor. The source updates the nested objects in place; here
   * each level is a local value, extended in the same order and written back at the end.
   */
  method ApplyDefaultCapabilities(input: Value, csiVersion: Version) returns (r: Result<Value, Error>)
    ensures r.Success? <==> Defaultable(input)
    ensures r.Failure? ==> r.error.TypeError?
    ensures r.Success? ==> DefaultsApplied(input, r.value, csiVersion)
    ensures r.Success? ==> ContainersPresent(r.value)
  {
    var sections :- Sections(input);
    var identityCaps := Child(sections.0, "capabilities");
    var controllerCaps := Child(sections.1, "capabilities");
    var nodeCaps := Child(sections.2, "capabilities");

    if !identityCaps.Obj? {
      return Failure(TypeError("Cannot use 'in' operator to search for 'service'"));
    }
    identityCaps := FillIdentityCaps(identityCaps);
    if !controllerCaps.Obj? {
      return Failure(TypeError("Cannot use 'in' operator to search for 'rpc'"));
    }
    controllerCaps := FillControllerCaps(controllerCaps, csiVersion);
    if !nodeCaps.Obj? {
      return Failure(TypeError("Cannot use 'in' operator to search for 'rpc'"));
    }
    nodeCaps := FillNodeCaps(nodeCaps, csiVersion);
    assert Defaultable(input);
    var out := WriteBack(input, csiVersion, identityCaps, controllerCaps, nodeCaps);
    r := Success(out);
  }

  /**
   * Lines 57-69 up to the point where each `capabilities` object is read: the identity,
   * controller and node sections, each created where it was missing or falsy.
   */
  method Sections(input: Value) returns (r: Result<(Value, Value, Value), Error>)
    ensures r.Success? <==>
      && OrEmpty(input).Obj? && Service(input).Obj? && Section(input, "identity").Obj?
      && Section(input, "controller").Obj? && Section(input, "node").Obj?
    ensures r.Failure? ==> r.error.TypeError?
    ensures r.Success? ==> r.value == (Section(input, "identity"), Section(input, "controller"), Section(input, "node"))
  {
    var options := OrEmpty(input);
    if !options.Obj? {
      return Failure(TypeError("Cannot create property 'service' on a primitive"));
    }
    var service := Child(options, "service");
    if !service.Obj? {
      return Failure(TypeError("Cannot create property 'identity' on a primitive"));
    }
    var identity := Child(service, "identity");
    var controller := Child(service, "controller");
    var node := Child(service, "node");
    if !identity.Obj? {
      return Failure(TypeError("Cannot create property 'capabilities' on a primitive"));
    }
    if !controller.Obj? {
      return Failure(TypeError("Cannot create property 'capabilities' on a primitive"));
    }
    if !node.Obj? {
      return Failure(TypeError("Cannot create property 'capabilities' on a primitive"));
    }
    r := Success((identity, controller, node));
  }

  /**
   * The source extends the nested objects in place, so the caller's options object sees the
   * updated capability objects; on values they are written back level by level.
   */
  method WriteBack(input: Value, csiVersion: Version, identityCaps: Value, controllerCaps: Value, nodeCaps: Value)
    returns (options: Value)
    requires Defaultable(input)
    requires Extends(Caps(input, "identity"), identityCaps, {"service", "volume_expansion"})
    requires Filled(Caps(input, "identity"), identityCaps, "service", DefaultIdentityService())
    requires Filled(Caps(input, "identity"), identityCaps, "volume_expansion", DefaultVolumeExpansion())
    requires Extends(Caps(input, "controller"), controllerCaps, {"rpc"})
    requires Filled(Caps(input, "controller"), controllerCaps, "rpc", DefaultControllerRpc(csiVersion))
    requires Extends(Caps(input, "node"), nodeCaps, {"rpc"})
    requires Filled(Caps(input, "node"), nodeCaps, "rpc", DefaultNodeRpc(csiVersion))
    ensures DefaultsApplied(input, options, csiVersion)
    ensures ContainersPresent(options)
  {
    options := Assembled(input, identityCaps, controllerCaps, nodeCaps);
    AssembledDefaults(input, csiVersion, identityCaps, controllerCaps, nodeCaps);
  }

  /** Lines 71-89: the identity `service` and `volume_expansion` lists, where missing. */
  method FillIdentityCaps(caps: Value) returns (r: Value)
    requires caps.Obj?
    ensures Extends(caps, r, {"service", "volume_expansion"})
    ensures Filled(caps, r, "service", DefaultIdentityService())
    ensures Filled(caps, r, "volume_expansion", DefaultVolumeExpansion())
  {
    r := caps;
    if "service" !in r.fields {
      r := Put(r, "service", Arr([Str("CONTROLLER_SERVICE")]));
    }
    if "volume_expansion" !in r.fields {
      r := Put(r, "volume_expansion", Arr([Str("ONLINE")]));
    }
  }

  /** Lines 91-120: the controller `rpc` list, where missing; the 1.3.0 branch pushes nothing. */
  method FillControllerCaps(caps: Value, csiVersion: Version) returns (r: Value)
    requires caps.Obj?
    ensures Extends(caps, r, {"rpc"})
    ensures Filled(caps, r, "rpc", DefaultControllerRpc(csiVersion))
  {
    r := caps;
    if "rpc" !in r.fields {
      var rpc := [Str("CREATE_DELETE_VOLUME"), Str("CREATE_DELETE_SNAPSHOT"), Str("LIST_SNAPSHOTS"),
                  Str("CLONE_VOLUME"), Str("EXPAND_VOLUME")];
      if AtLeast(csiVersion, V1_3_0) {
        rpc := rpc + [];  // `push()` with no arguments
      }
      if AtLeast(csiVersion, V1_5_0) {
        rpc := rpc + [Str("SINGLE_NODE_MULTI_WRITER")];
      }
      r := Put(r, "rpc", Arr(rpc));
    }
  }

  /** Lines 122-143: the node `rpc` list, where missing; the 1.3.0 branch has no statement. */
  method FillNodeCaps(caps: Value, csiVersion: Version) returns (r: Value)
    requires caps.Obj?
    ensures Extends(caps, r, {"rpc"})
    ensures Filled(caps, r, "rpc", DefaultNodeRpc(csiVersion))
  {
    r := caps;
    if "rpc" !in r.fields {
      var rpc := [Str("STAGE_UNSTAGE_VOLUME"), Str("GET_VOLUME_STATS"), Str("EXPAND_VOLUME")];
      if AtLeast(csiVersion, V1_5_0) {
        rpc := rpc + [Str("SINGLE_NODE_MULTI_WRITER")];
      }
      r := Put(r, "rpc", Arr(rpc));
    }
  }

  /** The service object the constructor ends with, given the three capability objects it settled on. */
  function AssembledService(input: Value, identityCaps: Value, controllerCaps: Value, nodeCaps: Value): Value
    requires Defaultable(input)
  {
    var identity := Put(Section(input, "identity"), "capabilities", identityCaps);
    var controller := Put(Section(input, "controller"), "capabilities", controllerCaps);
    var node := Put(Section(input, "node"), "capabilities", nodeCaps);
    Put(Put(Put(Service(input), "identity", identity), "controller", controller), "node", node)
  }

  /** The options the constructor ends with. */
  function Assembled(input: Value, identityCaps: Value, controllerCaps: Value, nodeCaps: Value): Value
    requires Defaultable(input)
  {
    Put(OrEmpty(input), "service", AssembledService(input, identityCaps, controllerCaps, nodeCaps))
  }

  lemma AssembledShape(input: Value, identityCaps: Value, controllerCaps: Value, nodeCaps: Value)
    requires Defaultable(input) && identityCaps.Obj? && controllerCaps.Obj? && nodeCaps.Obj?
    ensures var out := Assembled(input, identityCaps, controllerCaps, nodeCaps);
      && Extends(OrEmpty(input), out, {"service"})
      && Extends(Service(input), Service(out), {"identity", "controller", "node"})
      && Section(out, "identity") == Put(Section(input, "identity"), "capabilities", identityCaps)
      && Section(out, "controller") == Put(Section(input, "controller"), "capabilities", controllerCaps)
      && Section(out, "node") == Put(Section(input, "node"), "capabilities", nodeCaps)
      && ContainersPresent(out)
  {
    var out := Assembled(input, identityCaps, controllerCaps, nodeCaps);
    var service := AssembledService(input, identityCaps, controllerCaps, nodeCaps);
    NestedPuts(OrEmpty(input), Service(input), Section(input, "identity"), Section(input, "controller"),
      Section(input, "node"), identityCaps, controllerCaps, nodeCaps);
    assert OrEmpty(out) == out;
    assert Service(out) == service;
  }

  /** Writing the three sections back into the service object, and that into the options. */
  lemma NestedPuts(options: Value, service: Value, identity: Value, controller: Value, node: Value,
                   identityCaps: Value, controllerCaps: Value, nodeCaps: Value)
    requires options.Obj? && service.Obj? && identity.Obj? && controller.Obj? && node.Obj?
    requires identityCaps.Obj? && controllerCaps.Obj? && nodeCaps.Obj?
    ensures var identity' := Put(identity, "capabilities", identityCaps);
      var controller' := Put(controller, "capabilities", controllerCaps);
      var node' := Put(node, "capabilities", nodeCaps);
      var service' := Put(Put(Put(service, "identity", identity'), "controller", controller'), "node", node');
      var out := Put(options, "service", service');
      && Extends(options, out, {"service"})
      && Child(out, "service") == service'
      && Extends(service, service', {"identity", "controller", "node"})
      && Child(service', "identity") == identity'
      && Child(service', "controller") == controller'
      && Child(service', "node") == node'
      && Child(identity', "capabilities") == identityCaps
      && Child(controller', "capabilities") == controllerCaps
      && Child(node', "capabilities") == nodeCaps
      && At(out, ["service", "identity", "capabilities"]) == Some(identityCaps)
      && At(out, ["service", "controller", "capabilities"]) == Some(controllerCaps)
      && At(out, ["service", "node", "capabilities"]) == Some(nodeCaps)
  {
    var identity' := Put(identity, "capabilities", identityCaps);
    var controller' := Put(controller, "capabilities", controllerCaps);
    var node' := Put(node, "capabilities", nodeCaps);
    var s1 := Put(service, "identity", identity');
    var s2 := Put(s1, "controller", controller');
    var service' := Put(s2, "node", node');
    var out := Put(options, "service", service');
    PutExtends(options, "service", service');
    PutExtends(service, "identity", identity');
    PutExtendsMore(service, s1, {"identity"}, "controller", controller');
    PutExtendsMore(service, s2, {"identity", "controller"}, "node", node');
    assert {"identity", "controller"} + {"node"} == {"identity", "controller", "node"};
    assert At(out, ["service", "identity", "capabilities"]) == At(identity', ["capabilities"]);
    assert At(out, ["service", "controller", "capabilities"]) == At(controller', ["capabilities"]);
    assert At(out, ["service", "node", "capabilities"]) == At(node', ["capabilities"]);
  }

  lemma AssembledDefaults(input: Value, v: Version, identityCaps: Value, controllerCaps: Value, nodeCaps: Value)
    requires Defaultable(input)
    requires Extends(Caps(input, "identity"), identityCaps, {"service", "volume_expansion"})
    requires Filled(Caps(input, "identity"), identityCaps, "service", DefaultIdentityService())
    requires Filled(Caps(input, "identity"), identityCaps, "volume_expansion", DefaultVolumeExpansion())
    requires Extends(Caps(input, "controller"), controllerCaps, {"rpc"})
    requires Filled(Caps(input, "controller"), controllerCaps, "rpc", DefaultControllerRpc(v))
    requires Extends(Caps(input, "node"), nodeCaps, {"rpc"})
    requires Filled(Caps(input, "node"), nodeCaps, "rpc", DefaultNodeRpc(v))
    ensures DefaultsApplied(input, Assembled(input, identityCaps, controllerCaps, nodeCaps), v)
    ensures ContainersPresent(Assembled(input, identityCaps, controllerCaps, nodeCaps))
  {
    var out := Assembled(input, identityCaps, controllerCaps, nodeCaps);
    AssembledShape(input, identityCaps, controllerCaps, nodeCaps);
    SectionDefaults(input, out, "identity", identityCaps);
    SectionDefaults(input, out, "controller", controllerCaps);
    SectionDefaults(input, out, "node", nodeCaps);
  }

  lemma SectionDefaults(input: Value, out: Value, part: string, caps: Value)
    requires Section(input, part).Obj? && caps.Obj?
    requires Section(out, part) == Put(Section(input, part), "capabilities", caps)
    ensures Extends(Section(input, part), Section(out, part), {"capabilities"})
    ensures Caps(out, part) == caps
  {
    PutExtends(Section(input, part), "capabilities", caps);
    ChildOfPut(Section(input, part), "capabilities", caps);
  }

  lemma ChildOfPut(x: Value, key: string, child: Value)
    requires x.Obj? && child.Obj?
    ensures Child(Put(x, key, child), key) == child
  {
  }

  lemma PutExtends(x: Value, key: string, child: Value)
    requires x.Obj?
    ensures Extends(x, Put(x, key, child), {key})
  {
  }

  lemma PutExtendsMore(x: Value, y: Value, touched: set<string>, key: string, child: Value)
    requires Extends(x, y, touched)
    ensures Extends(x, Put(y, key, child), touched + {key})
  {
  }

  /**
   * SINGLE_NODE_MULTI_WRITER is in the default controller and node lists exactly from CSI
   * 1.5.0 on; below that (the 1.3.0 branch included) the lists are the base ones, and the
   * base entries stay first either way.
   */
  lemma DefaultRpcByVersion(v: Version)
    ensures Str("SINGLE_NODE_MULTI_WRITER") in DefaultControllerRpc(v).items <==> AtLeast(v, V1_5_0)
    ensures Str("SINGLE_NODE_MULTI_WRITER") in DefaultNodeRpc(v).items <==> AtLeast(v, V1_5_0)
    ensures !AtLeast(v, V1_5_0) ==>
      DefaultControllerRpc(v) == DefaultControllerRpc(V1_3_0) && DefaultNodeRpc(v) == DefaultNodeRpc(V1_3_0)
    ensures DefaultControllerRpc(V1_3_0).items <= DefaultControllerRpc(v).items
    ensures DefaultNodeRpc(V1_3_0).items <= DefaultNodeRpc(v).items
  {
  }

  /**
   * Defaulting is a fixed point: options that came out of a construction pass through a
   * second one unchanged, whatever CSI version the second one runs with.
   */
  lemma DefaultsIdempotent(input: Value, out: Value, v: Version, v': Version)
    requires DefaultsApplied(input, out, v)
    ensures Defaultable(out)
    ensures DefaultsApplied(out, out, v')
  {
  }
}
