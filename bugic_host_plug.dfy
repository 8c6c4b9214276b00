/**
 * The host plugin inside the bugic crate (bugic/crates/bugic/src/host_plug.rs):
 * each symbol records the ABI id of its input tag and of its output tag. The call
 * itself does not look at tags; `check_symbol_abi` compares both ids separately.
 * As in bugic-host, the closure unwraps its codecs and is a partial function here.
 */
module BugicHostPlug {
  import opened Wrappers
  import Share
  import opened CShare
  import opened BugicCore

  type Bytes = Share.Bytes
  type SerializeError = Share.SerializeError

  const SYMBOL_NOT_FOUND: string := "Symbol not found"

  /** One registered function: the ids of its input and output tags and the byte-level closure. */
  datatype PlugEntry = PlugEntry(abiArg: U8, abiRes: U8, func: Bytes --> Bytes)

  /** The closure `host_func` builds: decode with the input tag's codec, call, encode with the output tag's. */
  function Entry<P, Q>(input: SerializeTag, output: SerializeTag, fromByte: Bytes -> Result<P, SerializeError>,
                       func: P -> Q, toByte: Q -> Result<Bytes, SerializeError>): (e: PlugEntry)
    ensures e.abiArg == input.AbiId() && e.abiRes == output.AbiId()
  {
    PlugEntry(input.AbiId(), output.AbiId(),
      (arg: Bytes) requires fromByte(arg).Ok? && toByte(func(fromByte(arg).value)).Ok? =>
        toByte(func(fromByte(arg).value)).value)
  }

  class HostPlugin {
    var funcs: map<string, PlugEntry>

    /** `HostPlugin::new`: no function registered. */
    constructor()
      ensures funcs == map[]
    {
      funcs := map[];
    }

    /** `host_func`: registers `func` under `symbol` with both tags' ids, replacing an earlier registration. */
    method HostFunc<P, Q>(symbol: string, input: SerializeTag, output: SerializeTag,
                          fromByte: Bytes -> Result<P, SerializeError>, func: P -> Q,
                          toByte: Q -> Result<Bytes, SerializeError>)
      modifies this
      ensures funcs == old(funcs)[symbol := Entry(input, output, fromByte, func, toByte)]
    {
      funcs := funcs[symbol := Entry(input, output, fromByte, func, toByte)];
    }
  }

  /** The precondition that keeps the closure `raw_call` would run from panicking. */
  ghost predicate Runs(funcs: map<string, PlugEntry>, symbol: string, param: Bytes) {
    symbol in funcs ==> funcs[symbol].func.requires(param)
  }

  /** `raw_call`: an unknown symbol is a `PluginCallError`; a known one runs its closure whatever the tags. */
  function RawCall(funcs: map<string, PlugEntry>, symbol: string, param: Bytes): (r: Result<Bytes, BugiError>)
    requires Runs(funcs, symbol, param)
    ensures r.Err? <==> symbol !in funcs
    ensures r.Err? ==> r.error == PluginCallError(SYMBOL_NOT_FOUND)
    ensures r.Ok? ==> symbol in funcs && r.value == funcs[symbol].func(param)
  {
    if symbol in funcs then Ok(funcs[symbol].func(param)) else Err(PluginCallError(SYMBOL_NOT_FOUND))
  }

  /**
   * `check_symbol_abi`: succeeds exactly when both ids equal the recorded ones;
   * otherwise reports the recorded pair, or `(0xFF, 0xFF)` for an unknown symbol.
   */
  function CheckSymbolAbi(funcs: map<string, PlugEntry>, symbol: string, abiArg: U8, abiRes: U8): (r: Result<(), (U8, U8)>)
    ensures symbol !in funcs ==> r == Err((ERROR_ABI_ID, ERROR_ABI_ID))
    ensures symbol in funcs ==> (r.Ok? <==> abiArg == funcs[symbol].abiArg && abiRes == funcs[symbol].abiRes)
    ensures symbol in funcs && r.Err? ==> r.error == (funcs[symbol].abiArg, funcs[symbol].abiRes)
  {
    if symbol !in funcs then Err((ERROR_ABI_ID, ERROR_ABI_ID))
    else
      var entry := funcs[symbol];
      if abiArg == entry.abiArg && abiRes == entry.abiRes then Ok(()) else Err((entry.abiArg, entry.abiRes))
  }

  /**
   * After `host_func`, the check accepts exactly the registered tag pair, and any
   * other pair of tags is told the registered ids, which never equal the unknown-symbol
   * report because no tag has id 0xFF.
   */
  lemma HostFuncThenCheck<P, Q>(funcs: map<string, PlugEntry>, symbol: string, input: SerializeTag, output: SerializeTag,
                                fromByte: Bytes -> Result<P, SerializeError>, func: P -> Q,
                                toByte: Q -> Result<Bytes, SerializeError>, a: SerializeTag, b: SerializeTag)
    ensures var funcs' := funcs[symbol := Entry(input, output, fromByte, func, toByte)];
      (CheckSymbolAbi(funcs', symbol, a.AbiId(), b.AbiId()).Ok? <==> a == input && b == output) &&
      (CheckSymbolAbi(funcs', symbol, a.AbiId(), b.AbiId()).Err? ==>
         CheckSymbolAbi(funcs', symbol, a.AbiId(), b.AbiId()).error == (input.AbiId(), output.AbiId()) &&
         CheckSymbolAbi(funcs', symbol, a.AbiId(), b.AbiId()).error != (ERROR_ABI_ID, ERROR_ABI_ID))
  {
    AbiIdInjective(a, input);
    AbiIdInjective(b, output);
  }

  /** A function registered with `host_func` returns the encoded result of the typed function, whatever tags the caller uses. */
  lemma HostFuncThenRawCall<P, Q>(funcs: map<string, PlugEntry>, symbol: string, input: SerializeTag, output: SerializeTag,
                                  fromByte: Bytes -> Result<P, SerializeError>, func: P -> Q,
                                  toByte: Q -> Result<Bytes, SerializeError>, encoded: Bytes, p: P)
    requires fromByte(encoded) == Ok(p) && toByte(func(p)).Ok?
    ensures var funcs' := funcs[symbol := Entry(input, output, fromByte, func, toByte)];
      Runs(funcs', symbol, encoded) && RawCall(funcs', symbol, encoded) == Ok(toByte(func(p)).value)
  {
  }
}
