/**
 * bugi-host (bugi/crate/bugi-host/src/lib.rs): a plugin whose functions are host
 * closures, registered by symbol under a serialization tag.
 */
module Host {
  import opened Wrappers
  import opened Share
  import opened Core

  class HostPlugin {
    var funcs: map<string, TaggedFn>

    constructor ()
      ensures funcs == map[]
    {
      funcs := map[];
    }

    /** `host_func`: registers (or replaces) `symbol`, adapted to bytes and tagged with `tag`. */
    method HostFunc<P, Q>(symbol: string, tag: SerializeTag, fromByte: Bytes -> Result<P, SerializeError>,
                          func: P -> Q, toByte: Q -> Result<Bytes, SerializeError>)
      modifies this
      ensures funcs == old(funcs)[symbol := Tagged(tag, fromByte, func, toByte)]
    {
      funcs := funcs[symbol := Tagged(tag, fromByte, func, toByte)];
    }
  }

  const SYMBOL_NOT_FOUND: string := "Symbol is not found: "

  /**
   * `raw_call` over the registered functions: an unknown symbol is a `PluginCallError`,
   * a caller's tag that differs from the registered one a `PluginAbiError`; a host
   * plugin never hands back a cache value.
   */
  function RawCall(funcs: map<string, TaggedFn>, symbol: string, param: Bytes, abi: AbiId)
    : (r: Result<(Bytes, Option<CacheData>), BugiError>)
    ensures symbol !in funcs ==> r == Err(PluginCallError(SYMBOL_NOT_FOUND + symbol))
    ensures symbol in funcs && abi != funcs[symbol].abi ==> r == Err(PluginAbiError(funcs[symbol].abi))
    ensures r.Ok? ==> r.value.1 == None && symbol in funcs && abi == funcs[symbol].abi &&
                      funcs[symbol].func(param) == Ok(r.value.0)
    ensures r.Err? && symbol in funcs && abi == funcs[symbol].abi ==> funcs[symbol].func(param) == Err(r.error)
  {
    if symbol !in funcs then Err(PluginCallError(SYMBOL_NOT_FOUND + symbol))
    else
      match Invoke(funcs[symbol], param, abi)
      case Ok(bytes) => Ok((bytes, None))
      case Err(e) => Err(e)
  }

  /**
   * What `host_func` followed by `raw_call` does: the caller using the registration's
   * tag gets the encoded result of the typed function, any other tag is refused, and
   * every other symbol answers as before.
   */
  lemma HostFuncThenRawCall<P, Q>(funcs: map<string, TaggedFn>, symbol: string, tag: SerializeTag,
                                  fromByte: Bytes -> Result<P, SerializeError>, func: P -> Q,
                                  toByte: Q -> Result<Bytes, SerializeError>, encoded: Bytes, p: P,
                                  other: SerializeTag, otherSymbol: string, param: Bytes, abi: AbiId)
    requires fromByte(encoded) == Ok(p) && toByte(func(p)).Ok?
    requires other != tag && otherSymbol != symbol
    ensures var after := funcs[symbol := Tagged(tag, fromByte, func, toByte)];
      RawCall(after, symbol, encoded, tag.AbiId()) == Ok((toByte(func(p)).value, None)) &&
      RawCall(after, symbol, encoded, other.AbiId()) == Err(PluginAbiError(tag.AbiId())) &&
      RawCall(after, otherSymbol, param, abi) == RawCall(funcs, otherSymbol, param, abi)
  {
    TaggedInvoke(tag, fromByte, func, toByte, encoded, p, other);
  }
}
