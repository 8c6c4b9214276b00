/**
 * bugic-host (bugic/crates/bugic-host/src/lib.rs): a table from symbol to the ABI
 * id it was registered under and a byte-level closure. The closure decodes its
 * argument and encodes its result with `unwrap`, so it is a partial function here:
 * a codec failure inside it is a panic, which callers must rule out.
 */
module BugicHost {
  import opened Wrappers
  import Share
  import opened CShare
  import opened BugicCore

  type Bytes = Share.Bytes
  type SerializeError = Share.SerializeError

  const SYMBOL_NOT_FOUND: string := "Symbol is not found: "

  /** One registered function: the ABI id of its tag and the byte-level closure. */
  datatype HostEntry = HostEntry(abi: U8, func: Bytes --> Bytes)

  /** The closure `host_func` builds around the typed function `func`, tagged with `tag`. */
  function Entry<P, Q>(tag: SerializeTag, fromByte: Bytes -> Result<P, SerializeError>, func: P -> Q,
                       toByte: Q -> Result<Bytes, SerializeError>): (e: HostEntry)
    ensures e.abi == tag.AbiId()
  {
    HostEntry(tag.AbiId(),
      (arg: Bytes) requires fromByte(arg).Ok? && toByte(func(fromByte(arg).value)).Ok? =>
        toByte(func(fromByte(arg).value)).value)
  }

  class HostPlugin {
    var funcs: map<string, HostEntry>

    /** `HostPlugin::new`: no function registered. */
    constructor()
      ensures funcs == map[]
    {
      funcs := map[];
    }

    /** `host_func`: registers `func` under `symbol` with `tag`'s id, replacing an earlier registration. */
    method HostFunc<P, Q>(symbol: string, tag: SerializeTag, fromByte: Bytes -> Result<P, SerializeError>,
                          func: P -> Q, toByte: Q -> Result<Bytes, SerializeError>)
      modifies this
      ensures funcs == old(funcs)[symbol := Entry(tag, fromByte, func, toByte)]
    {
      funcs := funcs[symbol := Entry(tag, fromByte, func, toByte)];
    }
  }

  /** The precondition that keeps the closure `raw_call` would run from panicking. */
  ghost predicate Runs(funcs: map<string, HostEntry>, symbol: string, param: Bytes, abi: U8) {
    symbol in funcs && abi == funcs[symbol].abi ==> funcs[symbol].func.requires(param)
  }

  /**
   * `raw_call`: an unknown symbol is a `PluginCallError` naming it; a known symbol
   * under another tag is refused with the registered id; otherwise the closure runs.
   */
  function RawCall(funcs: map<string, HostEntry>, symbol: string, param: Bytes, abi: U8): (r: Result<Bytes, BugiError>)
    requires Runs(funcs, symbol, param, abi)
    ensures symbol !in funcs <==> r == Err(PluginCallError(SYMBOL_NOT_FOUND + symbol))
    ensures symbol in funcs ==> (abi != funcs[symbol].abi <==> r == Err(PluginAbiError(funcs[symbol].abi)))
    ensures r.Ok? <==> symbol in funcs && abi == funcs[symbol].abi
    ensures r.Ok? ==> symbol in funcs && abi == funcs[symbol].abi && r.value == funcs[symbol].func(param)
  {
    if symbol !in funcs then Err(PluginCallError(SYMBOL_NOT_FOUND + symbol))
    else if abi != funcs[symbol].abi then Err(PluginAbiError(funcs[symbol].abi))
    else Ok(funcs[symbol].func(param))
  }

  /**
   * A function registered with `host_func` answers a caller using its tag with the
   * encoded result of the typed function, and refuses the other tag with its own id.
   */
  lemma HostFuncThenRawCall<P, Q>(funcs: map<string, HostEntry>, symbol: string, tag: SerializeTag,
                                  fromByte: Bytes -> Result<P, SerializeError>, func: P -> Q,
                                  toByte: Q -> Result<Bytes, SerializeError>,
                                  encoded: Bytes, p: P, other: SerializeTag)
    requires fromByte(encoded) == Ok(p) && toByte(func(p)).Ok? && other != tag
    ensures var funcs' := funcs[symbol := Entry(tag, fromByte, func, toByte)];
      RawCall(funcs', symbol, encoded, tag.AbiId()) == Ok(toByte(func(p)).value) &&
      RawCall(funcs', symbol, encoded, other.AbiId()) == Err(PluginAbiError(tag.AbiId()))
  {
    AbiIdInjective(tag, other);
  }
}
