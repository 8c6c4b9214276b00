/**
 * bugi-core (bugi/crate/bugi-core/src/lib.rs): the error taxonomy, the Cacher with
 * its per-plugin and global namespaces, and the call context `EnvPloxy` handed to
 * every plugin body.
 *
 * The context's `call_univ` closure re-enters routing code that lives in the bugi
 * crate; here it is the type parameter `R`, a description of that closure which the
 * bugi crate interprets.
 */
module Core {
  import opened Wrappers
  import opened Share
  import opened KeyedStore

  /** `PluginId = u32`. */
  type PluginId = n: int | 0 <= n < 0x1_0000_0000

  datatype BugiError =
    | CannotSerialize(cause: SerializeError)
    | PluginIdExists(strId: string)
    | PluginDropped
    | PluginCallError(msg: string)
    | PluginAbiError(expected: AbiId)
    | PluginNotFound(strId: string)
    | PluginUniverseDropped

  /** A `Box<dyn Any>`: the name of the concrete type it holds and an abstract value. */
  datatype CacheData = AnyBox(typeName: string, payload: nat)

  /** Keyed store shared by a whole call chain; reads are destructive pops. */
  class Cacher {
    var cache: map<PluginId, CacheData>
    var cacheGlobal: map<string, CacheData>

    constructor ()
      ensures cache == map[] && cacheGlobal == map[]
    {
      cache := map[];
      cacheGlobal := map[];
    }

    method Pop(id: PluginId) returns (r: Option<CacheData>)
      modifies this
      ensures (r, cache) == Take(old(cache), id)
      ensures cacheGlobal == old(cacheGlobal)
    {
      r := if id in cache then Some(cache[id]) else None;
      cache := cache - {id};
    }

    method Push(id: PluginId, data: CacheData)
      modifies this
      ensures cache == old(cache)[id := data]
      ensures cacheGlobal == old(cacheGlobal)
    {
      cache := cache[id := data];
    }

    method PopGlobal(key: string) returns (r: Option<CacheData>)
      modifies this
      ensures (r, cacheGlobal) == Take(old(cacheGlobal), key)
      ensures cache == old(cache)
    {
      r := if key in cacheGlobal then Some(cacheGlobal[key]) else None;
      cacheGlobal := cacheGlobal - {key};
    }

    method PushGlobal(key: string, data: CacheData)
      modifies this
      ensures cacheGlobal == old(cacheGlobal)[key := data]
      ensures cache == old(cache)
    {
      cacheGlobal := cacheGlobal[key := data];
    }
  }

  /** The four cache closures of a context: a shared Cacher and the plugin id fixed at construction. */
  datatype CachePloxy = CachePloxy(cacher: Cacher, plugId: PluginId)

  /** A request a plugin body makes through its context: target, symbol, payload, tag and the context passed on. */
  datatype UnivCall<R> = UnivCall(target: string, symbol: string, arg: Bytes, abi: AbiId, ploxy: EnvPloxy<R>)

  datatype EnvPloxy<R> = EnvPloxy(cachePloxy: Option<CachePloxy>, callUniv: R) {

    /** The objects the cache accessors may change: the shared Cacher, when there is one. */
    function Footprint(): set<object> {
      if cachePloxy.Some? then {cachePloxy.value.cacher} else {}
    }

    /** Pops the entry of this context's plugin id; absent when no Cacher was given. */
    method GetCache() returns (r: Option<CacheData>)
      modifies Footprint()
      ensures cachePloxy.None? ==> r == None
      ensures cachePloxy.Some? ==>
        var c := cachePloxy.value.cacher;
        (r, c.cache) == Take(old(c.cache), cachePloxy.value.plugId) && c.cacheGlobal == old(c.cacheGlobal)
    {
      r := None;
      if cachePloxy.Some? {
        r := cachePloxy.value.cacher.Pop(cachePloxy.value.plugId);
      }
    }

    /** Stores under this context's plugin id; does nothing when no Cacher was given. */
    method SetCache(data: CacheData)
      modifies Footprint()
      ensures cachePloxy.Some? ==>
        var c := cachePloxy.value.cacher;
        c.cache == old(c.cache)[cachePloxy.value.plugId := data] && c.cacheGlobal == old(c.cacheGlobal)
    {
      if cachePloxy.Some? {
        cachePloxy.value.cacher.Push(cachePloxy.value.plugId, data);
      }
    }

    /** Pops a global entry (it is implemented with `pop_global`); absent when no Cacher was given. */
    method GetGlobal(key: string) returns (r: Option<CacheData>)
      modifies Footprint()
      ensures cachePloxy.None? ==> r == None
      ensures cachePloxy.Some? ==>
        var c := cachePloxy.value.cacher;
        (r, c.cacheGlobal) == Take(old(c.cacheGlobal), key) && c.cache == old(c.cache)
    {
      r := None;
      if cachePloxy.Some? {
        r := cachePloxy.value.cacher.PopGlobal(key);
      }
    }

    method SetGlobal(key: string, data: CacheData)
      modifies Footprint()
      ensures cachePloxy.Some? ==>
        var c := cachePloxy.value.cacher;
        c.cacheGlobal == old(c.cacheGlobal)[key := data] && c.cache == old(c.cache)
    {
      if cachePloxy.Some? {
        cachePloxy.value.cacher.PushGlobal(key, data);
      }
    }

    /** `call_univ_raw`: the closure receives the request together with this very context. */
    function CallUnivRaw(target: string, symbol: string, arg: Bytes, abi: AbiId): (q: UnivCall<R>)
      ensures q.ploxy.cachePloxy == cachePloxy && q.ploxy.callUniv == callUniv
      ensures (q.target, q.symbol, q.arg, q.abi) == (target, symbol, arg, abi)
    {
      UnivCall(target, symbol, arg, abi, this)
    }

    /**
     * `call_univ`, up to the raw call: the arguments are encoded with the tag's codec
     * and the request carries that tag's ABI id; an encoding failure is `CannotSerialize`.
     */
    function CallUnivRequest<P>(target: string, symbol: string, args: P, tag: SerializeTag,
                                toByte: P -> Result<Bytes, SerializeError>): (r: Result<UnivCall<R>, BugiError>)
      ensures toByte(args).Err? ==> r == Err(CannotSerialize(toByte(args).error))
      ensures toByte(args).Ok? ==> r.Ok? && r.value.abi == tag.AbiId() && r.value.arg == toByte(args).value
      ensures r.Ok? ==> r.value.ploxy == this && r.value.target == target && r.value.symbol == symbol
    {
      match toByte(args)
      case Err(e) => Err(CannotSerialize(e))
      case Ok(bytes) => Ok(CallUnivRaw(target, symbol, bytes, tag.AbiId()))
    }
  }

  /** `EnvPloxy::new`: the cache closures exist exactly when a Cacher is given, and are keyed by `plugId`. */
  function NewPloxy<R>(cacher: Option<Cacher>, callUniv: R, plugId: PluginId): (p: EnvPloxy<R>)
    ensures p.callUniv == callUniv
    ensures p.cachePloxy.Some? <==> cacher.Some?
    ensures cacher.Some? ==> p.cachePloxy.value.cacher == cacher.value && p.cachePloxy.value.plugId == plugId
  {
    EnvPloxy(if cacher.Some? then Some(CachePloxy(cacher.value, plugId)) else None, callUniv)
  }

  /** `call_univ`, after the raw call: an error is passed on, a reply that does not decode is `CannotSerialize`. */
  function CallUnivReply<O>(reply: Result<Bytes, BugiError>, fromByte: Bytes -> Result<O, SerializeError>): (r: Result<O, BugiError>)
    ensures reply.Err? ==> r == Err(reply.error)
    ensures reply.Ok? && fromByte(reply.value).Err? ==> r == Err(CannotSerialize(fromByte(reply.value).error))
    ensures reply.Ok? && fromByte(reply.value).Ok? ==> r == Ok(fromByte(reply.value).value)
  {
    match reply
    case Err(e) => Err(e)
    case Ok(bytes) =>
      match fromByte(bytes)
      case Err(e) => Err(CannotSerialize(e))
      case Ok(o) => Ok(o)
  }

  /**
   * The byte-level closure that `host_func` and `Overrider::add` wrap around a typed
   * user function: decode the parameters, call, encode the result.
   */
  function Adapt<P, Q>(fromByte: Bytes -> Result<P, SerializeError>, func: P -> Q,
                       toByte: Q -> Result<Bytes, SerializeError>): (f: Bytes -> Result<Bytes, BugiError>)
    ensures forall arg :: fromByte(arg).Err? ==> f(arg) == Err(CannotSerialize(fromByte(arg).error))
    ensures forall arg :: fromByte(arg).Ok? ==>
      f(arg) == (match toByte(func(fromByte(arg).value))
                 case Ok(out) => Ok(out)
                 case Err(e) => Err(CannotSerialize(e)))
  {
    (arg: Bytes) =>
      match fromByte(arg)
      case Err(e) => Err(CannotSerialize(e))
      case Ok(p) =>
        match toByte(func(p))
        case Err(e) => Err(CannotSerialize(e))
        case Ok(out) => Ok(out)
  }

  /** A payload that does not decode never reaches the user function and surfaces as `CannotSerialize`. */
  lemma AdaptDecodeFailure<P, Q>(fromByte: Bytes -> Result<P, SerializeError>, func: P -> Q,
                                 toByte: Q -> Result<Bytes, SerializeError>, arg: Bytes)
    requires fromByte(arg).Err?
    ensures Adapt(fromByte, func, toByte)(arg) == Err(CannotSerialize(fromByte(arg).error))
  {
  }

  /** With a codec that round-trips, the adapted closure maps an encoded `p` to the encoding of `func(p)`. */
  lemma AdaptRoundTrip<P, Q>(fromByte: Bytes -> Result<P, SerializeError>, func: P -> Q,
                             toByte: Q -> Result<Bytes, SerializeError>, encoded: Bytes, p: P)
    requires fromByte(encoded) == Ok(p)
    requires toByte(func(p)).Ok?
    ensures Adapt(fromByte, func, toByte)(encoded) == Ok(toByte(func(p)).value)
  {
  }
  /** A registered byte-level function and the ABI id of the tag it was registered under. */
  datatype TaggedFn = TaggedFn(abi: AbiId, func: Bytes -> Result<Bytes, BugiError>)

  /** The typed function `func`, adapted to bytes and tagged with `tag`, as `host_func` and `Overrider::add` store it. */
  function Tagged<P, Q>(tag: SerializeTag, fromByte: Bytes -> Result<P, SerializeError>, func: P -> Q,
                        toByte: Q -> Result<Bytes, SerializeError>): (t: TaggedFn)
    ensures t.abi == tag.AbiId()
    ensures t.func == Adapt(fromByte, func, toByte)
  {
    TaggedFn(tag.AbiId(), Adapt(fromByte, func, toByte))
  }

  /** Running a registered function: a caller whose tag differs is refused with the registered tag's id. */
  function Invoke(f: TaggedFn, arg: Bytes, abi: AbiId): (r: Result<Bytes, BugiError>)
    ensures abi != f.abi ==> r == Err(PluginAbiError(f.abi))
    ensures abi == f.abi ==> r == f.func(arg)
  {
    if abi != f.abi then Err(PluginAbiError(f.abi)) else f.func(arg)
  }

  /**
   * A registered function answers a caller using its own tag with the encoding of
   * its result, and refuses every other tag, before decoding anything.
   */
  lemma TaggedInvoke<P, Q>(tag: SerializeTag, fromByte: Bytes -> Result<P, SerializeError>, func: P -> Q,
                           toByte: Q -> Result<Bytes, SerializeError>, encoded: Bytes, p: P, other: SerializeTag)
    requires fromByte(encoded) == Ok(p)
    requires toByte(func(p)).Ok?
    requires other != tag
    ensures Invoke(Tagged(tag, fromByte, func, toByte), encoded, tag.AbiId()) == Ok(toByte(func(p)).value)
    ensures Invoke(Tagged(tag, fromByte, func, toByte), encoded, other.AbiId()) == Err(PluginAbiError(tag.AbiId()))
  {
    AdaptRoundTrip(fromByte, func, toByte, encoded, p);
    AbiIdInjective(tag, other);
  }
}
