/**
 * The `Plugin` record of bugi/crate/bugi/src/plugin.rs: a string id and the system
 * that runs its functions, either a host table or a WebAssembly module.
 */
module Plugins {
  import opened Wrappers
  import opened Share
  import opened Core
  import Host
  import Wasm

  datatype PluginSystem =
    | HostSystem(funcs: map<string, TaggedFn>)
    | WasmSystem(wasm: Wasm.WasmPlugin)

  datatype Plugin = Plugin(strId: string, detail: PluginSystem) {
    /** `get_str_id`. */
    function GetStrId(): string {
      strId
    }
  }

  /** `Plugin::new`: the string id handed in is the one `get_str_id` reports. */
  function New(strId: string, detail: PluginSystem): (p: Plugin)
    ensures p.GetStrId() == strId && p.detail == detail
  {
    Plugin(strId, detail)
  }

  /**
   * What a WebAssembly plugin answers to a call: it depends on guest code, so it is
   * supplied by the caller of the model as a pure function. Nothing here ties it to
   * `Wasm.RawCall`, which models the marshaling separately, and it cannot touch the
   * shared Cacher.
   */
  type GuestRun<!R> = (Wasm.WasmPlugin, string, Bytes, AbiId, EnvPloxy<R>) -> Result<Bytes, BugiError>

  /** `Plugin::call_raw`: the plugin's system runs the call; a host plugin ignores the context. */
  function CallRaw<R>(p: Plugin, symbol: string, arg: Bytes, abi: AbiId, ploxy: EnvPloxy<R>, guest: GuestRun<R>)
    : (r: Result<Bytes, BugiError>)
    ensures p.detail.HostSystem? ==>
      var h := Host.RawCall(p.detail.funcs, symbol, arg, abi);
      (r.Ok? <==> h.Ok?) && (r.Ok? ==> r.value == h.value.0) && (r.Err? ==> r.error == h.error)
    ensures p.detail.WasmSystem? ==> r == guest(p.detail.wasm, symbol, arg, abi, ploxy)
  {
    match p.detail
    case HostSystem(funcs) =>
      (match Host.RawCall(funcs, symbol, arg, abi)
       case Ok(reply) => Ok(reply.0)
       case Err(e) => Err(e))
    case WasmSystem(w) => guest(w, symbol, arg, abi, ploxy)
  }

  /** A host plugin's answer does not depend on the context it is called with. */
  lemma HostIgnoresContext<R>(funcs: map<string, TaggedFn>, strId: string, symbol: string, arg: Bytes, abi: AbiId,
                              a: EnvPloxy<R>, b: EnvPloxy<R>, g: GuestRun<R>, h: GuestRun<R>)
    ensures CallRaw(Plugin(strId, HostSystem(funcs)), symbol, arg, abi, a, g) ==
            CallRaw(Plugin(strId, HostSystem(funcs)), symbol, arg, abi, b, h)
  {
  }
}
