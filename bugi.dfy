/**
 * The bugi crate (bugi/crate/bugi/src/lib.rs, plugin.rs, override.rs): the Universe
 * that owns plugins, the weak `PluginRef` handles it gives out, the routing closure
 * every call context carries, and the Overrider that substitutes functions in
 * nested calls.
 *
 * The three files form one module because they refer to each other. Weak references
 * are modelled by `Universe.alive`: dropping the last strong handle clears the
 * registry, after which no handle upgrades.
 */
module Bugi {
  import opened Wrappers
  import opened Share
  import opened Core
  import opened Plugins
  import Registry
  import Host

  /** The target name the Overrider's router resolves to the plugin the call started from. */
  const SELF: string := "self"

  /**
   * The `call_univ` closure a context was built with: the one `PluginRef::call` and
   * `call_cache` build, or the one `Overrider::wrap_call_inner` builds, which also
   * captures the Overrider and the id of the wrapped plugin.
   */
  datatype Router =
    | UniverseRouter(univ: Universe)
    | OverrideRouter(over: Overrider, univ: Universe, selfId: PluginId)
  {
    function Footprint(): set<object> {
      if OverrideRouter? then {univ, over} else {univ}
    }
  }

  type Ploxy = EnvPloxy<Router>
  type Guest = GuestRun<Router>

  class Universe {
    var plugins: map<PluginId, Plugin>
    var strIds: map<string, PluginId>
    var nextId: PluginId
    /** Whether a strong handle still exists. */
    var alive: bool

    function State(): Registry.RegistryState
      reads this
    {
      Registry.RegistryState(plugins, strIds, nextId)
    }

    ghost predicate Valid()
      reads this
    {
      Registry.Valid(State())
    }

    /** `Universe::new`. */
    constructor ()
      ensures Valid() && alive && State() == Registry.Empty()
    {
      plugins := map[];
      strIds := map[];
      nextId := 0;
      alive := true;
    }

    /** The scan over the registered string ids that `add_plugin_raw` makes, in whatever order the map yields them. */
    method HasStrId(strId: string) returns (found: bool)
      ensures found <==> strId in strIds
    {
      var rest := strIds.Keys;
      while rest != {}
        invariant rest <= strIds.Keys
        invariant strId in strIds <==> strId in rest
        decreases |rest|
      {
        var s :| s in rest;
        if s == strId {
          return true;
        }
        rest := rest - {s};
      }
      return false;
    }

    /**
     * `add_plugin_raw`: the registry changes as `Registry.Register` says, and a success
     * returns a handle to the new id in this Universe.
     */
    method AddPluginRaw(plugin: Plugin) returns (r: Result<PluginRef, BugiError>)
      requires Valid() && alive && Registry.CanRegister(State(), plugin)
      modifies this
      ensures Valid() && alive
      ensures State() == Registry.Register(old(State()), plugin).0
      ensures var res := Registry.Register(old(State()), plugin).1;
        (res.Err? ==> r == Err(res.error)) && (res.Ok? ==> r == Ok(PluginRef(this, res.value)))
      ensures r.Ok? ==> r.value.Valid() && r.value.Upgrade() == Some(plugin)
    {
      var taken := HasStrId(plugin.strId);
      if taken {
        return Err(PluginIdExists(plugin.strId));
      }
      Registry.RegisterValid(State(), plugin);
      var id := nextId;
      nextId := nextId + 1;
      plugins := plugins[id := plugin];
      strIds := strIds[plugin.strId := id];
      r := Ok(PluginRef(this, id));
    }

    /** `add_plugin`: registers a plugin built from a string id and a system. */
    method AddPlugin(strId: string, detail: PluginSystem) returns (r: Result<PluginRef, BugiError>)
      requires Valid() && alive && Registry.CanRegister(State(), Plugins.New(strId, detail))
      modifies this
      ensures Valid() && alive
      ensures var (st, res) := Registry.Register(old(State()), Plugins.New(strId, detail));
        State() == st && (res.Err? ==> r == Err(res.error)) && (res.Ok? ==> r == Ok(PluginRef(this, res.value)))
    {
      r := AddPluginRaw(Plugins.New(strId, detail));
    }

    /** The last strong handle goes away: the plugins are released and every weak handle stops upgrading. */
    method Drop()
      requires alive
      modifies this
      ensures !alive && plugins == map[] && strIds == map[] && nextId == old(nextId) && Valid()
    {
      alive := false;
      plugins := map[];
      strIds := map[];
    }

    /** `Universe::call_raw`: an unknown string id is `PluginNotFound`; otherwise the plugin registered under it runs the call. */
    function CallRaw(strId: string, symbol: string, arg: Bytes, abi: AbiId, ploxy: Ploxy, guest: Guest)
      : (r: Result<Bytes, BugiError>)
      reads this
      requires Valid()
      ensures strId !in strIds ==> r == Err(PluginNotFound(strId))
      ensures strId in strIds ==>
        strIds[strId] in plugins && plugins[strIds[strId]].strId == strId &&
        r == Plugins.CallRaw(plugins[strIds[strId]], symbol, arg, abi, ploxy, guest)
    {
      if strId !in strIds then Err(PluginNotFound(strId))
      else Plugins.CallRaw(plugins[strIds[strId]], symbol, arg, abi, ploxy, guest)
    }

    /** `Universe::call_raw_id`: the lookup by number panics on an unknown id, so the id must be registered. */
    function CallRawId(id: PluginId, symbol: string, arg: Bytes, abi: AbiId, ploxy: Ploxy, guest: Guest)
      : (r: Result<Bytes, BugiError>)
      reads this
      requires Valid() && id in plugins
      ensures r == CallRaw(plugins[id].strId, symbol, arg, abi, ploxy, guest)
    {
      Plugins.CallRaw(plugins[id], symbol, arg, abi, ploxy, guest)
    }
  }

  /** A weak handle to a plugin: the Universe it lives in and its numeric id. */
  datatype PluginRef = PluginRef(univ: Universe, id: PluginId) {

    /** While the Universe lives, the id stays registered. */
    ghost predicate Valid()
      reads univ
    {
      univ.Valid() && (univ.alive ==> id in univ.plugins)
    }

    /** `Weak::upgrade` of the plugin. */
    function Upgrade(): (p: Option<Plugin>)
      reads univ
      ensures p.Some? <==> univ.alive && id in univ.plugins
      ensures p.Some? ==> p.value == univ.plugins[id]
    {
      if univ.alive && id in univ.plugins then Some(univ.plugins[id]) else None
    }

    /**
     * The body shared by `call`, `call_cache` and `call_with_ploxy`: upgrade, encode
     * the parameters with the tag's codec, run the plugin with the tag's ABI id and
     * the given context, decode the reply.
     */
    function CallWithPloxy<P, O>(symbol: string, param: P, tag: SerializeTag,
                                 toByte: P -> Result<Bytes, SerializeError>,
                                 fromByte: Bytes -> Result<O, SerializeError>,
                                 ploxy: Ploxy, guest: Guest): (r: Result<O, BugiError>)
      reads univ
      ensures Upgrade().None? ==> r == Err(PluginDropped)
      ensures Upgrade().Some? && toByte(param).Err? ==> r == Err(CannotSerialize(toByte(param).error))
      ensures Upgrade().Some? && toByte(param).Ok? ==>
        r == CallUnivReply(Plugins.CallRaw(Upgrade().value, symbol, toByte(param).value, tag.AbiId(), ploxy, guest), fromByte)
    {
      match Upgrade()
      case None => Err(PluginDropped)
      case Some(plug) =>
        match toByte(param)
        case Err(e) => Err(CannotSerialize(e))
        case Ok(bytes) => CallUnivReply(Plugins.CallRaw(plug, symbol, bytes, tag.AbiId(), ploxy, guest), fromByte)
    }

    /** `PluginRef::call`: a context without cache that routes through this Universe. */
    function Call<P, O>(symbol: string, param: P, tag: SerializeTag,
                        toByte: P -> Result<Bytes, SerializeError>,
                        fromByte: Bytes -> Result<O, SerializeError>, guest: Guest): (r: Result<O, BugiError>)
      reads univ
      ensures r == CallWithPloxy(symbol, param, tag, toByte, fromByte, EnvPloxy(None, UniverseRouter(univ)), guest)
    {
      CallWithPloxy(symbol, param, tag, toByte, fromByte, NewPloxy(None, UniverseRouter(univ), id), guest)
    }

    /** `PluginRef::call_cache`: the same, with the caller's Cacher keyed by this plugin's id. */
    function CallCache<P, O>(symbol: string, param: P, tag: SerializeTag,
                             toByte: P -> Result<Bytes, SerializeError>,
                             fromByte: Bytes -> Result<O, SerializeError>,
                             cacher: Cacher, guest: Guest): (r: Result<O, BugiError>)
      reads univ
      ensures r == CallWithPloxy(symbol, param, tag, toByte, fromByte,
                                 EnvPloxy(Some(CachePloxy(cacher, id)), UniverseRouter(univ)), guest)
    {
      CallWithPloxy(symbol, param, tag, toByte, fromByte, NewPloxy(Some(cacher), UniverseRouter(univ), id), guest)
    }
  }

  /** What a router needs to run: a consistent Universe, and the wrapped plugin still registered while it lives. */
  ghost predicate RouterReady(router: Router)
    reads router.Footprint()
  {
    router.univ.Valid() && (router.OverrideRouter? && router.univ.alive ==> router.selfId in router.univ.plugins)
  }

  /**
   * A request made through a context, answered by that context's `call_univ` closure.
   * The plain router upgrades the Universe and calls by string id. The Overrider's
   * router first consults its table (tag checked against the registration), then
   * upgrades the Universe, resolving `self` to the wrapped plugin. The request's own
   * context is passed on to the callee.
   */
  function Route(call: UnivCall<Router>, guest: Guest): (r: Result<Bytes, BugiError>)
    reads call.ploxy.callUniv.Footprint()
    requires RouterReady(call.ploxy.callUniv)
    ensures var router := call.ploxy.callUniv;
      var overridden := router.OverrideRouter? && (call.target, call.symbol) in router.over.funcs;
      var isSelf := router.OverrideRouter? && call.target == SELF;
      (overridden ==> r == Invoke(router.over.funcs[(call.target, call.symbol)], call.arg, call.abi)) &&
      (!overridden && !router.univ.alive ==> r == Err(PluginUniverseDropped)) &&
      (!overridden && router.univ.alive && !isSelf && call.target !in router.univ.strIds ==> r == Err(PluginNotFound(call.target)))
  {
    match call.ploxy.callUniv
    case UniverseRouter(univ) =>
      if !univ.alive then Err(PluginUniverseDropped)
      else univ.CallRaw(call.target, call.symbol, call.arg, call.abi, call.ploxy, guest)
    case OverrideRouter(over, univ, selfId) =>
      if (call.target, call.symbol) in over.funcs then Invoke(over.funcs[(call.target, call.symbol)], call.arg, call.abi)
      else if !univ.alive then Err(PluginUniverseDropped)
      else if call.target == SELF then univ.CallRawId(selfId, call.symbol, call.arg, call.abi, call.ploxy, guest)
      else univ.CallRaw(call.target, call.symbol, call.arg, call.abi, call.ploxy, guest)
  }

  /** `EnvPloxy::call_univ` as a plugin body sees it: encode, route, decode. */
  function CallUniv<P, O>(ploxy: Ploxy, target: string, symbol: string, args: P, tag: SerializeTag,
                          toByte: P -> Result<Bytes, SerializeError>,
                          fromByte: Bytes -> Result<O, SerializeError>, guest: Guest): (r: Result<O, BugiError>)
    reads ploxy.callUniv.Footprint()
    requires RouterReady(ploxy.callUniv)
    ensures toByte(args).Err? ==> r == Err(CannotSerialize(toByte(args).error))
    ensures toByte(args).Ok? ==>
      r == CallUnivReply(Route(ploxy.CallUnivRaw(target, symbol, toByte(args).value, tag.AbiId()), guest), fromByte)
  {
    match ploxy.CallUnivRequest(target, symbol, args, tag, toByte)
    case Err(e) => Err(e)
    case Ok(call) => CallUnivReply(Route(call, guest), fromByte)
  }

  class Overrider {
    var funcs: map<(string, string), TaggedFn>

    /** `Overrider::new`. */
    constructor ()
      ensures funcs == map[]
    {
      funcs := map[];
    }

    /** `Overrider::add`: substitutes `func` for `symbol` of the plugin named `strId`, under `tag`. */
    method Add<P, Q>(strId: string, symbol: string, tag: SerializeTag,
                     fromByte: Bytes -> Result<P, SerializeError>, func: P -> Q,
                     toByte: Q -> Result<Bytes, SerializeError>)
      modifies this
      ensures funcs == old(funcs)[(strId, symbol) := Tagged(tag, fromByte, func, toByte)]
    {
      funcs := funcs[(strId, symbol) := Tagged(tag, fromByte, func, toByte)];
    }

    /** The context `wrap_call_inner` builds around `pref`. */
    function Context(pref: PluginRef, cacher: Option<Cacher>): (p: Ploxy)
      ensures p.callUniv == OverrideRouter(this, pref.univ, pref.id)
      ensures p.cachePloxy.Some? <==> cacher.Some?
      ensures cacher.Some? ==> p.cachePloxy.value == CachePloxy(cacher.value, pref.id)
    {
      NewPloxy(cacher, OverrideRouter(this, pref.univ, pref.id), pref.id)
    }

    /** `wrap_call`: calls `pref` with the overriding context and no cache. */
    function WrapCall<P, O>(pref: PluginRef, sym: string, param: P, tag: SerializeTag,
                            toByte: P -> Result<Bytes, SerializeError>,
                            fromByte: Bytes -> Result<O, SerializeError>, guest: Guest): (r: Result<O, BugiError>)
      reads pref.univ
      ensures r == pref.CallWithPloxy(sym, param, tag, toByte, fromByte,
                                      EnvPloxy(None, OverrideRouter(this, pref.univ, pref.id)), guest)
    {
      pref.CallWithPloxy(sym, param, tag, toByte, fromByte, Context(pref, None), guest)
    }

    /** `wrap_call_cache`: the same with the caller's Cacher. */
    function WrapCallCache<P, O>(pref: PluginRef, sym: string, param: P, tag: SerializeTag,
                                 toByte: P -> Result<Bytes, SerializeError>,
                                 fromByte: Bytes -> Result<O, SerializeError>,
                                 cacher: Cacher, guest: Guest): (r: Result<O, BugiError>)
      reads pref.univ
      ensures r == pref.CallWithPloxy(sym, param, tag, toByte, fromByte,
                                      EnvPloxy(Some(CachePloxy(cacher, pref.id)), OverrideRouter(this, pref.univ, pref.id)), guest)
    {
      pref.CallWithPloxy(sym, param, tag, toByte, fromByte, Context(pref, Some(cacher)), guest)
    }
  }

  // ---------------------------------------------------------------------------
  // Properties of calls

  /** A handle whose Universe is gone reports `PluginDropped` before it encodes anything, with or without a cache. */
  lemma CallAfterDrop<P, O>(pref: PluginRef, symbol: string, param: P, tag: SerializeTag,
                            toByte: P -> Result<Bytes, SerializeError>,
                            fromByte: Bytes -> Result<O, SerializeError>, cacher: Cacher, guest: Guest)
    requires !pref.univ.alive
    ensures pref.Call(symbol, param, tag, toByte, fromByte, guest) == Err(PluginDropped)
    ensures pref.CallCache(symbol, param, tag, toByte, fromByte, cacher, guest) == Err(PluginDropped)
  {
  }

  /** The plugin is a host plugin with `func` registered under `symbol` and `tag`. */
  ghost predicate HostRegistered<P, Q>(plug: Plugin, symbol: string, tag: SerializeTag,
                                 fromByte: Bytes -> Result<P, SerializeError>, func: P -> Q,
                                 toByte: Q -> Result<Bytes, SerializeError>)
  {
    plug.detail.HostSystem? && symbol in plug.detail.funcs && plug.detail.funcs[symbol] == Tagged(tag, fromByte, func, toByte)
  }

  /**
   * Calling a host function through a live handle, with codecs that round-trip,
   * yields the typed function's result; the cached call yields the same; a call
   * made under any other tag is refused with the registered tag's id.
   */
  lemma HostCallRoundTrip<P, Q>(pref: PluginRef, symbol: string, p: P, tag: SerializeTag, other: SerializeTag,
                                encodeP: P -> Result<Bytes, SerializeError>, decodeP: Bytes -> Result<P, SerializeError>,
                                func: P -> Q,
                                encodeQ: Q -> Result<Bytes, SerializeError>, decodeQ: Bytes -> Result<Q, SerializeError>,
                                cacher: Cacher, guest: Guest)
    requires pref.univ.alive && pref.id in pref.univ.plugins
    requires HostRegistered(pref.univ.plugins[pref.id], symbol, tag, decodeP, func, encodeQ)
    requires encodeP(p).Ok? && decodeP(encodeP(p).value) == Ok(p)
    requires encodeQ(func(p)).Ok? && decodeQ(encodeQ(func(p)).value) == Ok(func(p))
    requires other != tag
    ensures pref.Call(symbol, p, tag, encodeP, decodeQ, guest) == Ok(func(p))
    ensures pref.CallCache(symbol, p, tag, encodeP, decodeQ, cacher, guest) == Ok(func(p))
    ensures pref.Call(symbol, p, other, encodeP, decodeQ, guest) == Err(PluginAbiError(tag.AbiId()))
  {
    TaggedInvoke(tag, decodeP, func, encodeQ, encodeP(p).value, p, other);
  }

  /** An overridden (target, symbol) is answered by its substitute, whether or not the Universe lives, `self` included. */
  lemma OverrideShadows(call: UnivCall<Router>, guest: Guest)
    requires call.ploxy.callUniv.OverrideRouter? && RouterReady(call.ploxy.callUniv)
    requires (call.target, call.symbol) in call.ploxy.callUniv.over.funcs
    ensures Route(call, guest) == Invoke(call.ploxy.callUniv.over.funcs[(call.target, call.symbol)], call.arg, call.abi)
  {
  }

  /**
   * Under an Overrider, a request for `self` that is not overridden runs the wrapped
   * plugin, even if some plugin registered the string id "self".
   */
  lemma SelfIsWrappedPlugin(call: UnivCall<Router>, guest: Guest)
    requires call.ploxy.callUniv.OverrideRouter? && RouterReady(call.ploxy.callUniv)
    requires (call.target, call.symbol) !in call.ploxy.callUniv.over.funcs
    requires call.target == SELF && call.ploxy.callUniv.univ.alive
    ensures var univ := call.ploxy.callUniv.univ;
      Route(call, guest) ==
      Plugins.CallRaw(univ.plugins[call.ploxy.callUniv.selfId], call.symbol, call.arg, call.abi, call.ploxy, guest)
  {
  }

  /**
   * A request that is neither overridden nor, under an Overrider, for `self` goes by
   * string id to the live Universe, with the request's own context.
   */
  lemma RouteToUniverse(call: UnivCall<Router>, guest: Guest)
    requires RouterReady(call.ploxy.callUniv) && call.ploxy.callUniv.univ.alive
    requires call.ploxy.callUniv.OverrideRouter? ==>
      (call.target, call.symbol) !in call.ploxy.callUniv.over.funcs && call.target != SELF
    ensures Route(call, guest) == call.ploxy.callUniv.univ.CallRaw(call.target, call.symbol, call.arg, call.abi, call.ploxy, guest)
  {
  }

  /** The plain router gives `self` no meaning: unless a plugin registered that string id, it is not found. */
  lemma PlainRouterHasNoSelf(call: UnivCall<Router>, guest: Guest)
    requires call.ploxy.callUniv.UniverseRouter? && RouterReady(call.ploxy.callUniv)
    requires call.target == SELF && call.ploxy.callUniv.univ.alive && SELF !in call.ploxy.callUniv.univ.strIds
    ensures Route(call, guest) == Err(PluginNotFound(SELF))
  {
  }

  /** Once the Universe is gone, every request not overridden fails with `PluginUniverseDropped`. */
  lemma RouteAfterDrop(call: UnivCall<Router>, guest: Guest)
    requires RouterReady(call.ploxy.callUniv) && !call.ploxy.callUniv.univ.alive
    requires call.ploxy.callUniv.OverrideRouter? ==> (call.target, call.symbol) !in call.ploxy.callUniv.over.funcs
    ensures Route(call, guest) == Err(PluginUniverseDropped)
  {
  }

  /**
   * A nested call hands the callee the caller's own context: a WebAssembly callee
   * runs with the same Cacher, the same plugin id for its cache and the same router.
   */
  lemma NestedCallSharesContext(ploxy: Ploxy, target: string, symbol: string, arg: Bytes, abi: AbiId, guest: Guest)
    requires ploxy.callUniv.UniverseRouter? && RouterReady(ploxy.callUniv) && ploxy.callUniv.univ.alive
    requires target in ploxy.callUniv.univ.strIds
    requires ploxy.callUniv.univ.plugins[ploxy.callUniv.univ.strIds[target]].detail.WasmSystem?
    ensures var w := ploxy.callUniv.univ.plugins[ploxy.callUniv.univ.strIds[target]].detail.wasm;
      Route(ploxy.CallUnivRaw(target, symbol, arg, abi), guest) == guest(w, symbol, arg, abi, ploxy)
  {
  }

  /**
   * Inside `wrap_call`, a body asking for an overridden function with parameters
   * that round-trip gets the substitute's result: with multiplication substituted
   * for ("test2", "called"), the request (5, 10) is answered with 50.
   */
  lemma OverrideAnswersNestedCall<P, Q>(over: Overrider, pref: PluginRef, target: string, symbol: string, args: P,
                                        tag: SerializeTag, encodeP: P -> Result<Bytes, SerializeError>,
                                        decodeP: Bytes -> Result<P, SerializeError>, func: P -> Q,
                                        encodeQ: Q -> Result<Bytes, SerializeError>,
                                        decodeQ: Bytes -> Result<Q, SerializeError>, guest: Guest)
    requires pref.Valid()
    requires (target, symbol) in over.funcs && over.funcs[(target, symbol)] == Tagged(tag, decodeP, func, encodeQ)
    requires encodeP(args).Ok? && decodeP(encodeP(args).value) == Ok(args)
    requires encodeQ(func(args)).Ok? && decodeQ(encodeQ(func(args)).value) == Ok(func(args))
    ensures CallUniv(over.Context(pref, None), target, symbol, args, tag, encodeP, decodeQ, guest) == Ok(func(args))
  {
    TaggedInvoke(tag, decodeP, func, encodeQ, encodeP(args).value, args, if tag.RmpTag? then BitcodeTag else RmpTag);
  }

  /** The override test: 5 × 10 through the substitute for ("test2", "called"). */
  lemma OverrideMultiplies(over: Overrider, pref: PluginRef, tag: SerializeTag,
                           encodePair: ((int, int)) -> Result<Bytes, SerializeError>,
                           decodePair: Bytes -> Result<(int, int), SerializeError>,
                           encodeInt: int -> Result<Bytes, SerializeError>,
                           decodeInt: Bytes -> Result<int, SerializeError>, guest: Guest)
    requires pref.Valid()
    requires ("test2", "called") in over.funcs &&
             over.funcs[("test2", "called")] == Tagged(tag, decodePair, (ab: (int, int)) => ab.0 * ab.1, encodeInt)
    requires encodePair((5, 10)).Ok? && decodePair(encodePair((5, 10)).value) == Ok((5, 10))
    requires encodeInt(50).Ok? && decodeInt(encodeInt(50).value) == Ok(50)
    ensures CallUniv(over.Context(pref, None), "test2", "called", (5, 10), tag, encodePair, decodeInt, guest) == Ok(50)
  {
    OverrideAnswersNestedCall(over, pref, "test2", "called", (5, 10), tag, encodePair, decodePair,
                              (ab: (int, int)) => ab.0 * ab.1, encodeInt, decodeInt, guest);
  }
}
