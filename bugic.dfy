/**
 * The earlier bugic runtime (bugic/crates/bugic/src/lib.rs and plugin.rs): a Universe
 * that owns plugins under numeric ids and rejects a second plugin with a taken
 * string id, and weak plugin references that encode, call and decode.
 *
 * Unlike bugi there is no map from string id to numeric id: `add_plugin` scans the
 * registered plugins, and no call is routed by string id.
 */
module Bugic {
  import opened Wrappers
  import Share
  import opened CShare
  import opened BugicCore
  import BugicHost
  import BugicHostPlug

  type Bytes = Share.Bytes
  type SerializeError = Share.SerializeError

  /** Exclusive bound of `PluginId` (u32). */
  const ID_LIMIT: int := 0x1_0000_0000

  /** `Box<dyn PluginSystem>`: the host tables of bugic-host and of the crate's own `host_plug`. */
  datatype PluginSystem =
    | CoreHost(hostFuncs: map<string, BugicHost.HostEntry>)
    | PlugHost(plugFuncs: map<string, BugicHostPlug.PlugEntry>)

  /** The precondition that keeps the closure a call would run from panicking. */
  ghost predicate Runs(d: PluginSystem, symbol: string, param: Bytes, abi: U8) {
    match d
    case CoreHost(funcs) => BugicHost.Runs(funcs, symbol, param, abi)
    case PlugHost(funcs) => BugicHostPlug.Runs(funcs, symbol, param)
  }

  /** `PluginSystem::raw_call` of each table; the `host_plug` table has no tag check in its call. */
  function RawCall(d: PluginSystem, symbol: string, param: Bytes, abi: U8): (r: Result<Bytes, BugiError>)
    requires Runs(d, symbol, param, abi)
    ensures d.CoreHost? ==> r == BugicHost.RawCall(d.hostFuncs, symbol, param, abi)
    ensures d.CoreHost? && symbol in d.hostFuncs && abi != d.hostFuncs[symbol].abi ==>
      r == Err(PluginAbiError(d.hostFuncs[symbol].abi))
    ensures d.PlugHost? ==> r == BugicHostPlug.RawCall(d.plugFuncs, symbol, param)
    ensures d.PlugHost? ==> (r.Err? <==> symbol !in d.plugFuncs)
  {
    match d
    case CoreHost(funcs) => BugicHost.RawCall(funcs, symbol, param, abi)
    case PlugHost(funcs) => BugicHostPlug.RawCall(funcs, symbol, param)
  }

  datatype Plugin = Plugin(strId: string, detail: PluginSystem) {
    /** `get_str_id`. */
    function GetStrId(): string {
      strId
    }
  }

  /** `Plugin::make_plugin`: the string id handed in is the one `get_str_id` reports. */
  function MakePlugin(strId: string, detail: PluginSystem): (p: Plugin)
    ensures p.GetStrId() == strId && p.detail == detail
  {
    Plugin(strId, detail)
  }

  datatype UnivState = UnivState(plugins: map<PluginId, Plugin>, nextId: PluginId)

  /** Whether some registered plugin already has string id `s`. */
  predicate StrIdTaken(plugins: map<PluginId, Plugin>, s: string) {
    exists id :: id in plugins && plugins[id].strId == s
  }

  /** Every registered id is below `nextId`, and no two plugins share a string id. */
  ghost predicate ValidState(st: UnivState) {
    && (forall id :: id in st.plugins ==> id < st.nextId)
    && (forall a, b :: a in st.plugins && b in st.plugins && st.plugins[a].strId == st.plugins[b].strId ==> a == b)
  }

  /** The precondition that keeps `next_id += 1` from overflowing u32 when a plugin is admitted. */
  predicate CanAdd(st: UnivState, p: Plugin) {
    !StrIdTaken(st.plugins, p.strId) ==> st.nextId + 1 < ID_LIMIT
  }

  /** The effect of `add_plugin`: a taken string id is refused and nothing changes; otherwise the plugin gets `nextId`. */
  function Add(st: UnivState, p: Plugin): (r: (UnivState, Result<PluginId, BugiError>))
    requires CanAdd(st, p)
    ensures StrIdTaken(st.plugins, p.strId) ==> r == (st, Err(PluginIdExists(p.strId)))
    ensures !StrIdTaken(st.plugins, p.strId) ==> r.1 == Ok(st.nextId) && r.0.nextId == st.nextId + 1
  {
    if StrIdTaken(st.plugins, p.strId) then (st, Err(PluginIdExists(p.strId)))
    else (UnivState(st.plugins[st.nextId := p], st.nextId + 1), Ok(st.nextId))
  }

  /** Adding keeps ids below the counter and string ids distinct. */
  lemma AddValid(st: UnivState, p: Plugin)
    requires ValidState(st) && CanAdd(st, p)
    ensures ValidState(Add(st, p).0)
  {
    if !StrIdTaken(st.plugins, p.strId) {
      forall id | id in st.plugins ensures st.plugins[id].strId != p.strId { }
    }
  }

  /**
   * A successful add hands out an id larger than every registered one, keeps every
   * earlier plugin, and makes the new plugin the only one with its string id.
   */
  lemma AddFresh(st: UnivState, p: Plugin)
    requires ValidState(st) && CanAdd(st, p) && !StrIdTaken(st.plugins, p.strId)
    ensures var (st', r) := Add(st, p);
      r.Ok? && r.value !in st.plugins && (forall id :: id in st.plugins ==> id < r.value) &&
      st'.plugins[r.value] == p && st'.plugins.Keys == st.plugins.Keys + {r.value} &&
      (forall id :: id in st.plugins ==> id in st'.plugins && st'.plugins[id] == st.plugins[id]) &&
      (forall id :: id in st'.plugins && st'.plugins[id].strId == p.strId ==> id == r.value)
  {
  }

  class Universe {
    var plugins: map<PluginId, Plugin>
    var nextId: PluginId
    /** Whether a strong handle still exists. */
    var alive: bool

    function State(): UnivState
      reads this
    {
      UnivState(plugins, nextId)
    }

    ghost predicate Valid()
      reads this
    {
      ValidState(State())
    }

    /** `Universe::new`. */
    constructor()
      ensures Valid() && alive && plugins == map[] && nextId == 0
    {
      plugins := map[];
      nextId := 0;
      alive := true;
    }

    /**
     * `add_plugin`: scans the registered plugins for the string id, in whatever order
     * the map yields them, then changes the state as `Add` says; a success returns a
     * reference to the new plugin.
     */
    method AddPlugin(plugin: Plugin) returns (r: Result<PluginRef, BugiError>)
      requires CanAdd(State(), plugin)
      modifies this
      ensures State() == Add(old(State()), plugin).0 && alive == old(alive)
      ensures r.Err? ==> Add(old(State()), plugin).1 == Err(r.error)
      ensures r.Ok? ==> Add(old(State()), plugin).1 == Ok(r.value.id) && r.value.univ == this
    {
      var rest := plugins.Keys;
      while rest != {}
        invariant rest <= plugins.Keys
        invariant forall id :: id in plugins && id !in rest ==> plugins[id].strId != plugin.strId
        decreases |rest|
      {
        var id :| id in rest;
        if plugins[id].GetStrId() == plugin.GetStrId() {
          return Err(PluginIdExists(plugin.GetStrId()));
        }
        rest := rest - {id};
      }
      var id := nextId;
      nextId := nextId + 1;
      plugins := plugins[id := plugin];
      r := Ok(PluginRef(this, id));
    }

    /** `add_host_plugin`: wraps a `host_plug` table as a plugin under `strId` and adds it. */
    method AddHostPlugin(strId: string, host: BugicHostPlug.HostPlugin) returns (r: Result<PluginRef, BugiError>)
      requires CanAdd(State(), MakePlugin(strId, PlugHost(host.funcs)))
      modifies this
      ensures State() == Add(old(State()), MakePlugin(strId, PlugHost(host.funcs))).0 && alive == old(alive)
      ensures r.Err? ==> Add(old(State()), MakePlugin(strId, PlugHost(host.funcs))).1 == Err(r.error)
      ensures r.Ok? ==> Add(old(State()), MakePlugin(strId, PlugHost(host.funcs))).1 == Ok(r.value.id) && r.value.univ == this
    {
      r := AddPlugin(MakePlugin(strId, PlugHost(host.funcs)));
    }

    /** Dropping the last strong handle frees every plugin; weak references no longer upgrade. */
    method Drop()
      modifies this
      ensures !alive && plugins == map[] && nextId == old(nextId)
    {
      alive := false;
      plugins := map[];
    }
  }

  /** `PluginRef`: a weak reference, represented by the owning Universe and the plugin's key in it. */
  datatype PluginRef = PluginRef(univ: Universe, id: PluginId) {

    /** `Weak::upgrade`. */
    function Upgrade(): (p: Option<Plugin>)
      reads univ
      ensures p.Some? <==> univ.alive && id in univ.plugins
      ensures p.Some? ==> p.value == univ.plugins[id]
    {
      if univ.alive && id in univ.plugins then Some(univ.plugins[id]) else None
    }

    /** What `call` demands beyond the types: the closure it ends up in does not panic. */
    ghost predicate CanCall<P>(symbol: string, param: P, tag: SerializeTag, toByte: P -> Result<Bytes, SerializeError>)
      reads univ
    {
      Upgrade().Some? && toByte(param).Ok? ==> Runs(Upgrade().value.detail, symbol, toByte(param).value, tag.AbiId())
    }

    /**
     * `PluginRef::call`: a dropped plugin fails before encoding; an encoding failure
     * fails before the call; the call gets the tag's ABI id; the reply is decoded.
     */
    function Call<P, O>(symbol: string, param: P, tag: SerializeTag,
                        toByte: P -> Result<Bytes, SerializeError>,
                        fromByte: Bytes -> Result<O, SerializeError>): (r: Result<O, BugiError>)
      requires CanCall(symbol, param, tag, toByte)
      reads univ
      ensures Upgrade().None? ==> r == Err(PluginDropped)
      ensures Upgrade().Some? && toByte(param).Err? ==> r == Err(CannotSerialize(toByte(param).error))
      ensures Upgrade().Some? && toByte(param).Ok? ==>
        var reply := RawCall(Upgrade().value.detail, symbol, toByte(param).value, tag.AbiId());
        (reply.Err? ==> r == Err(reply.error)) &&
        (reply.Ok? && fromByte(reply.value).Err? ==> r == Err(CannotSerialize(fromByte(reply.value).error))) &&
        (reply.Ok? && fromByte(reply.value).Ok? ==> r == Ok(fromByte(reply.value).value))
    {
      match Upgrade()
      case None => Err(PluginDropped)
      case Some(plug) =>
        match toByte(param)
        case Err(e) => Err(CannotSerialize(e))
        case Ok(bytes) =>
          match RawCall(plug.detail, symbol, bytes, tag.AbiId())
          case Err(e) => Err(e)
          case Ok(result) =>
            match fromByte(result)
            case Err(e) => Err(CannotSerialize(e))
            case Ok(out) => Ok(out)
    }
  }

  /** After the Universe is dropped, every reference into it reports `PluginDropped`. */
  lemma CallAfterDrop<P, O>(pref: PluginRef, symbol: string, param: P, tag: SerializeTag,
                            toByte: P -> Result<Bytes, SerializeError>, fromByte: Bytes -> Result<O, SerializeError>)
    requires !pref.univ.alive
    ensures pref.CanCall(symbol, param, tag, toByte)
    ensures pref.Call(symbol, param, tag, toByte, fromByte) == Err(PluginDropped)
  {
  }

  /**
   * A bugic-host function reached through a live reference: with the tag it was
   * registered under and codecs that round-trip, the caller gets the typed result;
   * with the other tag, the registered id.
   */
  lemma CoreHostCallRoundTrip<P, Q>(pref: PluginRef, symbol: string, p: P, tag: SerializeTag, other: SerializeTag,
                                    encodeP: P -> Result<Bytes, SerializeError>, decodeP: Bytes -> Result<P, SerializeError>,
                                    func: P -> Q,
                                    encodeQ: Q -> Result<Bytes, SerializeError>, decodeQ: Bytes -> Result<Q, SerializeError>)
    requires pref.univ.alive && pref.id in pref.univ.plugins
    requires pref.univ.plugins[pref.id].detail.CoreHost?
    requires var funcs := pref.univ.plugins[pref.id].detail.hostFuncs;
      symbol in funcs && funcs[symbol] == BugicHost.Entry(tag, decodeP, func, encodeQ)
    requires encodeP(p).Ok? && decodeP(encodeP(p).value) == Ok(p)
    requires encodeQ(func(p)).Ok? && decodeQ(encodeQ(func(p)).value) == Ok(func(p))
    requires other != tag
    ensures pref.CanCall(symbol, p, tag, encodeP) && pref.CanCall(symbol, p, other, encodeP)
    ensures pref.Call(symbol, p, tag, encodeP, decodeQ) == Ok(func(p))
    ensures pref.Call(symbol, p, other, encodeP, decodeQ) == Err(PluginAbiError(tag.AbiId()))
  {
    var funcs := pref.univ.plugins[pref.id].detail.hostFuncs;
    BugicHost.HostFuncThenRawCall(funcs, symbol, tag, decodeP, func, encodeQ, encodeP(p).value, p, other);
    assert funcs[symbol := BugicHost.Entry(tag, decodeP, func, encodeQ)] == funcs;
  }

  /**
   * A `host_plug` function reached through a live reference returns the typed result
   * whatever tag the caller names: its call performs no tag check.
   */
  lemma PlugHostCallIgnoresTag<P, Q>(pref: PluginRef, symbol: string, p: P, input: SerializeTag, output: SerializeTag,
                                     tag: SerializeTag,
                                     encodeP: P -> Result<Bytes, SerializeError>, decodeP: Bytes -> Result<P, SerializeError>,
                                     func: P -> Q,
                                     encodeQ: Q -> Result<Bytes, SerializeError>, decodeQ: Bytes -> Result<Q, SerializeError>)
    requires pref.univ.alive && pref.id in pref.univ.plugins
    requires pref.univ.plugins[pref.id].detail.PlugHost?
    requires var funcs := pref.univ.plugins[pref.id].detail.plugFuncs;
      symbol in funcs && funcs[symbol] == BugicHostPlug.Entry(input, output, decodeP, func, encodeQ)
    requires encodeP(p).Ok? && decodeP(encodeP(p).value) == Ok(p)
    requires encodeQ(func(p)).Ok? && decodeQ(encodeQ(func(p)).value) == Ok(func(p))
    ensures pref.CanCall(symbol, p, tag, encodeP)
    ensures pref.Call(symbol, p, tag, encodeP, decodeQ) == Ok(func(p))
  {
    var funcs := pref.univ.plugins[pref.id].detail.plugFuncs;
    BugicHostPlug.HostFuncThenRawCall(funcs, symbol, input, output, decodeP, func, encodeQ, encodeP(p).value, p);
    assert funcs[symbol := BugicHostPlug.Entry(input, output, decodeP, func, encodeQ)] == funcs;
  }
}
