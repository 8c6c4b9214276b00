/**
 * bugi-wasm (bugi/bugi-wasm/src/lib.rs): WebAssembly plugins.
 *
 * A plugin keeps the custom sections of its binary and its compiled module. A call
 * instantiates the module into a `Store` kept in the global cache under
 * "WasmPlugin-Store", copies the argument into guest memory through the guest's
 * allocator, runs the exported wrapper, unpacks the 64-bit word it returns as
 * `(ptr << 32) | len`,
 * copies the reply out and frees it. A guest may call back into the host through the
 * imported `bugi@v0.call_univ`, whose argument is a MessagePack map.
 *
 * Guest code is unknown: what the guest allocator, deallocator and wrapper return,
 * and what they do to linear memory, is left open (havoc). Every host/guest
 * interaction is recorded as an `Event`, so the contracts can state their order.
 */
module Wasm {
  import opened Wrappers
  import opened Share
  import opened Core
  import opened WasmParser

  const SPEC_CALL_UNIV: (string, string) := ("bugi@v0", "call_univ")
  const SPEC_PLUGIN_FUNC: string := "bugi@v0_plugin_function_"
  const SPEC_LOW_MALLOC: string := "bugi@v0_low_malloc"
  const SPEC_LOW_FREE: string := "bugi@v0_low_free"
  const SPEC_PLUG_ID: string := "bugi@v0_plugin_id"
  const MEMORY_EXPORT: string := "memory"
  /** The global-cache key of the reusable store. */
  const STORE_KEY: string := "WasmPlugin-Store"
  /** The concrete type a cached store must have for the downcast to succeed. */
  const STORE_TYPE: string := "wasmtime::Store<()>"

  const U32_LIMIT: int := 0x1_0000_0000
  type U32 = n: int | 0 <= n < 0x1_0000_0000
  type U64 = n: int | 0 <= n < 0x1_0000_0000_0000_0000

  /** `n as u32` on a length: only the low 32 bits survive. */
  function AsU32(n: nat): (r: U32)
    ensures n < U32_LIMIT ==> r == n
    ensures r <= n && (n - r) % U32_LIMIT == 0
  {
    n % U32_LIMIT
  }

  // ---------------------------------------------------------------------------
  // Loading: custom sections and the plugin id

  /** The custom sections of a parsed binary; a later section replaces an earlier one of the same name, failed payloads are skipped. */
  function Sections(payloads: Parsed): map<string, Bytes>
  {
    if |payloads| == 0 then map[]
    else
      var acc := Sections(payloads[..|payloads| - 1]);
      match payloads[|payloads| - 1]
      case Ok(CustomSection(name, data)) => acc[name := data]
      case _ => acc
  }

  predicate IsSection(p: Result<Payload, string>, name: string) {
    p.Ok? && p.value.CustomSection? && p.value.name == name
  }

  /** A section is present iff some payload carries it, and its value is that of the last such payload. */
  lemma {:induction false} SectionsLastWins(payloads: Parsed, name: string)
    ensures name in Sections(payloads) <==> exists i :: 0 <= i < |payloads| && IsSection(payloads[i], name)
    ensures forall i :: 0 <= i < |payloads| && IsSection(payloads[i], name) &&
                        (forall j :: i < j < |payloads| ==> !IsSection(payloads[j], name))
                        ==> name in Sections(payloads) && Sections(payloads)[name] == payloads[i].value.data
  {
    if |payloads| > 0 {
      var init := payloads[..|payloads| - 1];
      SectionsLastWins(init, name);
      forall i | 0 <= i < |init| ensures init[i] == payloads[i] { }
      if IsSection(payloads[|payloads| - 1], name) {
        assert IsSection(payloads[|payloads| - 1], name);
      } else {
        if exists i :: 0 <= i < |payloads| && IsSection(payloads[i], name) {
          var i :| 0 <= i < |payloads| && IsSection(payloads[i], name);
          assert IsSection(init[i], name);
        }
      }
    }
  }

  /** `parse_custom_section`: one pass over the payloads, inserting each custom section. */
  method ParseCustomSection(payloads: Parsed) returns (res: map<string, Bytes>)
    ensures res == Sections(payloads)
  {
    res := map[];
    var i := 0;
    while i < |payloads|
      invariant 0 <= i <= |payloads|
      invariant res == Sections(payloads[..i])
    {
      assert payloads[..i + 1][..i] == payloads[..i];
      if payloads[i].Ok? && payloads[i].value.CustomSection? {
        res := res[payloads[i].value.name := payloads[i].value.data];
      }
      i := i + 1;
    }
    assert payloads[..i] == payloads;
  }

  datatype ValType = I32 | I64 | F32 | F64 | V128 | RefType

  datatype FuncType = FuncType(params: seq<ValType>, results: seq<ValType>)

  /** A compiled module, as far as linking sees it: its imports, exported functions and exported memories. */
  datatype WasmModule = WasmModule(imports: seq<((string, string), FuncType)>, funcs: map<string, FuncType>, memories: set<string>)

  datatype WasmPlugin = WasmPlugin(section: map<string, Bytes>, compiled: WasmModule)

  /** `load_bin`: the sections are read off the binary; compilation (done by wasmtime) may fail. */
  method LoadBin(payloads: Parsed, compileResult: Result<WasmModule, string>) returns (r: Result<WasmPlugin, string>)
    ensures r.Ok? <==> compileResult.Ok?
    ensures r.Ok? ==> r.value.compiled == compileResult.value && r.value.section == Sections(payloads)
  {
    var section := ParseCustomSection(payloads);
    match compileResult
    case Err(e) => r := Err(e);
    case Ok(m) => r := Ok(WasmPlugin(section, m));
  }

  /**
   * `str_id`: the UTF-8 text of the plugin-id section. A missing section or invalid
   * UTF-8 panics, so both are preconditions; `fromUtf8` is Rust's UTF-8 decoder.
   */
  function StrId(p: WasmPlugin, fromUtf8: Bytes -> Option<string>): (s: string)
    requires SPEC_PLUG_ID in p.section && fromUtf8(p.section[SPEC_PLUG_ID]).Some?
    ensures fromUtf8(p.section[SPEC_PLUG_ID]) == Some(s)
  {
    fromUtf8(p.section[SPEC_PLUG_ID]).value
  }

  /** The id of a loaded plugin is read from the last plugin-id section of its binary. */
  lemma LoadedStrId(payloads: Parsed, m: WasmModule, i: nat, fromUtf8: Bytes -> Option<string>)
    requires i < |payloads| && IsSection(payloads[i], SPEC_PLUG_ID)
    requires forall j :: i < j < |payloads| ==> !IsSection(payloads[j], SPEC_PLUG_ID)
    requires fromUtf8(payloads[i].value.data).Some?
    ensures var p := WasmPlugin(Sections(payloads), m);
      SPEC_PLUG_ID in p.section && p.section[SPEC_PLUG_ID] == payloads[i].value.data &&
      StrId(p, fromUtf8) == fromUtf8(payloads[i].value.data).value
  {
    SectionsLastWins(payloads, SPEC_PLUG_ID);
  }

  // ---------------------------------------------------------------------------
  // Names and the packed reply

  /** The export under which a plugin function `symbol` is found. */
  function ExportName(symbol: string): (n: string)
    ensures |n| == |SPEC_PLUGIN_FUNC| + |symbol|
    ensures n[..|SPEC_PLUGIN_FUNC|] == SPEC_PLUGIN_FUNC && n[|SPEC_PLUGIN_FUNC|..] == symbol
  {
    SPEC_PLUGIN_FUNC + symbol
  }

  /** Distinct symbols never share an export, and no symbol's export is the allocator, the deallocator or the memory. */
  lemma ExportNameInjective(a: string, b: string)
    ensures ExportName(a) == ExportName(b) ==> a == b
    ensures ExportName(a) != SPEC_LOW_MALLOC && ExportName(a) != SPEC_LOW_FREE && ExportName(a) != MEMORY_EXPORT
  {
    if ExportName(a) == ExportName(b) {
      assert a == ExportName(a)[|SPEC_PLUGIN_FUNC|..] == ExportName(b)[|SPEC_PLUGIN_FUNC|..] == b;
    }
  }

  /** The word `raw_call` expects from a wrapper, which `Unpack` inverts: pointer in the high 32 bits, length in the low 32 bits. */
  function Pack(ptr: U32, len: U32): (w: U64)
    ensures w / U32_LIMIT == ptr && w % U32_LIMIT == len
  {
    ptr * U32_LIMIT + len
  }

  /** `(res >> 32) as u32` and `(res & 0xFFFFFFFF) as u32`. */
  function Unpack(w: U64): (r: (U32, U32))
    ensures Pack(r.0, r.1) == w
  {
    (w / U32_LIMIT, w % U32_LIMIT)
  }

  lemma UnpackPack(ptr: U32, len: U32)
    ensures Unpack(Pack(ptr, len)) == (ptr, len)
  {
  }

  // ---------------------------------------------------------------------------
  // The call_univ argument: a MessagePack map

  /** A decoded MessagePack value (rmpv `ValueRef`); a string that is not valid UTF-8 has no text. */
  datatype MsgValue =
    | MNil
    | MBool(b: bool)
    | MInt(i: int)
    | MStr(text: Option<string>)
    | MBin(data: Bytes)
    | MArray(items: seq<MsgValue>)
    | MMap(entries: seq<(MsgValue, MsgValue)>)
    | MExt(tag: int, data: Bytes)

  /** The request a guest makes through `call_univ`; unset fields keep their defaults. */
  datatype Envelope = Envelope(id: string, name: string, abi: AbiId, detail: Bytes)

  const DEFAULT_ENVELOPE: Envelope := Envelope("", "", 0, [])

  /** One map entry applied to the envelope being built; `None` is a panic of the bridge. */
  function ApplyEntry(a: Envelope, key: MsgValue, value: MsgValue): Option<Envelope>
  {
    match key
    case MStr(None) => None
    case MStr(Some(k)) =>
      if k == "id" then
        (if value.MStr? && value.text.Some? then Some(a.(id := value.text.value)) else None)
      else if k == "name" then
        (if value.MStr? && value.text.Some? then Some(a.(name := value.text.value)) else None)
      else if k == "abi" then
        (if value.MInt? && 0 <= value.i < 0x1_0000_0000_0000_0000 then Some(a.(abi := value.i)) else None)
      else if k == "detail" then
        (if value.MBin? then Some(a.(detail := value.data)) else None)
      else Some(a)
    case _ => Some(a)
  }

  /** The entries applied in order, starting from the defaults. */
  function DecodeEntries(entries: seq<(MsgValue, MsgValue)>): Option<Envelope>
  {
    if |entries| == 0 then Some(DEFAULT_ENVELOPE)
    else
      match DecodeEntries(entries[..|entries| - 1])
      case None => None
      case Some(a) => ApplyEntry(a, entries[|entries| - 1].0, entries[|entries| - 1].1)
  }

  /** The bridge's reading of its argument: a map, or a panic. */
  function DecodeEnvelope(v: MsgValue): Option<Envelope>
  {
    if v.MMap? then DecodeEntries(v.entries) else None
  }

  /** The loop over the map entries that builds the envelope. */
  method ReadEnvelope(v: MsgValue) returns (r: Option<Envelope>)
    ensures r == DecodeEnvelope(v)
  {
    if !v.MMap? {
      return None;
    }
    var es := v.entries;
    r := Some(DEFAULT_ENVELOPE);
    var i := 0;
    while i < |es|
      invariant 0 <= i <= |es|
      invariant r == DecodeEntries(es[..i])
    {
      assert es[..i + 1][..i] == es[..i];
      if r.None? {
        DecodePanicSticks(es[..i], es[i..]);
        assert es[..i] + es[i..] == es;
        return None;
      }
      r := ApplyEntry(r.value, es[i].0, es[i].1);
      i := i + 1;
    }
    assert es[..i] == es;
  }

  /** The map a guest sends for an envelope. */
  function EncodeEnvelope(e: Envelope): MsgValue
  {
    MMap([(MStr(Some("id")), MStr(Some(e.id))), (MStr(Some("name")), MStr(Some(e.name))),
          (MStr(Some("abi")), MInt(e.abi)), (MStr(Some("detail")), MBin(e.detail))])
  }

  /** Every envelope survives the trip through its MessagePack map. */
  lemma {:induction false} EnvelopeRoundTrip(e: Envelope)
    ensures DecodeEnvelope(EncodeEnvelope(e)) == Some(e)
  {
    var es := EncodeEnvelope(e).entries;
    assert es[..0] == [];
    assert es[..1][..0] == [];
    assert es[..2][..1] == es[..1];
    assert es[..3][..2] == es[..2];
    assert es[..4] == es;
    assert es[..4][..3] == es[..3];
    assert DecodeEntries(es[..1]) == Some(DEFAULT_ENVELOPE.(id := e.id));
    assert DecodeEntries(es[..2]) == Some(DEFAULT_ENVELOPE.(id := e.id, name := e.name));
    assert DecodeEntries(es[..3]) == Some(DEFAULT_ENVELOPE.(id := e.id, name := e.name, abi := e.abi));
  }

  /** A panic is final: no later entry can recover from it. */
  lemma {:induction false} DecodePanicSticks(es: seq<(MsgValue, MsgValue)>, more: seq<(MsgValue, MsgValue)>)
    requires DecodeEntries(es) == None
    ensures DecodeEntries(es + more) == None
  {
    if |more| > 0 {
      var init := more[..|more| - 1];
      DecodePanicSticks(es, init);
      assert (es + more)[..|es + more| - 1] == es + init;
    } else {
      assert es + more == es;
    }
  }

  predicate HasKey(es: seq<(MsgValue, MsgValue)>, k: string) {
    exists i :: 0 <= i < |es| && es[i].0 == MStr(Some(k))
  }

  /** A field whose key never occurs keeps its default. */
  lemma {:induction false} AbsentKeyKeepsDefault(es: seq<(MsgValue, MsgValue)>)
    requires DecodeEntries(es).Some?
    ensures !HasKey(es, "id") ==> DecodeEntries(es).value.id == ""
    ensures !HasKey(es, "name") ==> DecodeEntries(es).value.name == ""
    ensures !HasKey(es, "abi") ==> DecodeEntries(es).value.abi == 0
    ensures !HasKey(es, "detail") ==> DecodeEntries(es).value.detail == []
  {
    if |es| > 0 {
      var init := es[..|es| - 1];
      assert DecodeEntries(init).Some?;
      AbsentKeyKeepsDefault(init);
      forall k | HasKey(init, k) ensures HasKey(es, k) {
        var i :| 0 <= i < |init| && init[i].0 == MStr(Some(k));
        assert es[i] == init[i];
      }
      forall k | es[|es| - 1].0 == MStr(Some(k)) ensures HasKey(es, k) {
        var j := |es| - 1;
        assert es[j].0 == MStr(Some(k));
      }
    }
  }

  // ---------------------------------------------------------------------------
  // A live instance and its host/guest events

  /** What the host saw happen, in order. */
  datatype Event =
    | Malloc(size: U32, outcome: Result<U32, string>)
    | Free(ptr: U32, len: U32, ok: bool)
    | Invoke(exportName: string, ptr: U32, len: U32, abi: AbiId, packed: Result<U64, string>)
    | Write(ptr: U32, data: Bytes, ok: bool)
    | Read(ptr: U32, len: U32, bytes: Option<Bytes>)

  const WRAPPER_TYPE: FuncType := FuncType([I32, I32, I64], [I64])
  const MALLOC_TYPE: FuncType := FuncType([I32], [I32])
  const FREE_TYPE: FuncType := FuncType([I32, I32], [])

  /** An instantiated module: its exported linear memory and the events so far. */
  class Instance {
    const compiled: WasmModule
    var memory: seq<Byte>
    ghost var events: seq<Event>

    constructor (m: WasmModule)
      ensures compiled == m && events == []
    {
      compiled := m;
      memory := *;
      events := [];
    }

    /** Runs the guest allocator; its result and its effect on memory are the guest's. */
    method GuestMalloc(size: U32) returns (r: Result<U32, string>)
      modifies this
      ensures events == old(events) + [Malloc(size, r)]
    {
      memory := *;
      r := *;
      events := events + [Malloc(size, r)];
    }

    /** Runs the guest deallocator; it may trap. */
    method GuestFree(ptr: U32, len: U32) returns (ok: bool)
      modifies this
      ensures events == old(events) + [Free(ptr, len, ok)]
    {
      memory := *;
      ok := *;
      events := events + [Free(ptr, len, ok)];
    }

    /**
     * Runs an exported plugin wrapper. While it runs the guest may call back into
     * the host, which can change anything in `nested` (the shared Cacher).
     */
    method GuestInvoke(exportName: string, ptr: U32, len: U32, abi: AbiId, nested: set<object>) returns (r: Result<U64, string>)
      modifies this, nested
      ensures events == old(events) + [Invoke(exportName, ptr, len, abi, r)]
    {
      memory := *;
      r := *;
      events := events + [Invoke(exportName, ptr, len, abi, r)];
    }

    /** `Memory::write`: fails, changing nothing, when the bytes do not fit. */
    method WriteMemory(ptr: U32, data: Bytes) returns (ok: bool)
      modifies this
      ensures ok <==> ptr + |data| <= |old(memory)|
      ensures ok ==> memory == old(memory)[..ptr] + data + old(memory)[ptr + |data|..]
      ensures !ok ==> memory == old(memory)
      ensures events == old(events) + [Write(ptr, data, ok)]
    {
      ok := ptr + |data| <= |memory|;
      if ok {
        memory := memory[..ptr] + data + memory[ptr + |data|..];
      }
      events := events + [Write(ptr, data, ok)];
    }

    /** `Memory::read`: the bytes at `ptr`, or an error when they lie outside memory. */
    method ReadMemory(ptr: U32, len: U32) returns (r: Option<Bytes>)
      modifies this
      ensures memory == old(memory)
      ensures r.Some? <==> ptr + len <= |memory|
      ensures r.Some? ==> r.value == memory[ptr..ptr + len]
      ensures events == old(events) + [Read(ptr, len, r)]
    {
      r := if ptr + len <= |memory| then Some(memory[ptr..ptr + len]) else None;
      events := events + [Read(ptr, len, r)];
    }
  }

  // ---------------------------------------------------------------------------
  // raw_call

  /** The type of the host function `bugi@v0.call_univ`: `(arg_ptr, arg_len) -> (ptr, len)`. */
  const CALL_UNIV_TYPE: FuncType := FuncType([I32, I32], [I32, I32])

  /** The linker provides only `bugi@v0.call_univ`, at its own type. */
  predicate Instantiable(m: WasmModule) {
    forall i :: 0 <= i < |m.imports| ==> m.imports[i] == (SPEC_CALL_UNIV, CALL_UNIV_TYPE)
  }

  /** The typed lookups `raw_call` makes on a fresh instance. */
  predicate WrapperExported(m: WasmModule, symbol: string) {
    ExportName(symbol) in m.funcs && m.funcs[ExportName(symbol)] == WRAPPER_TYPE
  }

  predicate MallocExported(m: WasmModule) {
    SPEC_LOW_MALLOC in m.funcs && m.funcs[SPEC_LOW_MALLOC] == MALLOC_TYPE
  }

  predicate FreeExported(m: WasmModule) {
    SPEC_LOW_FREE in m.funcs && m.funcs[SPEC_LOW_FREE] == FREE_TYPE
  }

  /** The first error `raw_call` meets before touching guest memory, in the order the source looks things up. */
  function LinkError(m: WasmModule, symbol: string): (e: Option<BugiError>)
    ensures e.Some? ==> e.value.PluginCallError?
    ensures e.None? <==>
      Instantiable(m) && WrapperExported(m, symbol) && MallocExported(m) && FreeExported(m) && MEMORY_EXPORT in m.memories
    ensures !Instantiable(m) ==> e == Some(PluginCallError("Failed to wasm instantiate"))
    ensures Instantiable(m) && !WrapperExported(m, symbol) ==> e == Some(PluginCallError("Symbol get error(" + symbol + ")"))
    ensures Instantiable(m) && WrapperExported(m, symbol) && !MallocExported(m) ==>
      e == Some(PluginCallError(SPEC_LOW_MALLOC + " get error"))
    ensures Instantiable(m) && WrapperExported(m, symbol) && MallocExported(m) && !FreeExported(m) ==>
      e == Some(PluginCallError(SPEC_LOW_FREE + " get error"))
    ensures Instantiable(m) && WrapperExported(m, symbol) && MallocExported(m) && FreeExported(m) && MEMORY_EXPORT !in m.memories ==>
      e == Some(PluginCallError("memory get error: `memory` is not exported"))
  {
    if !Instantiable(m) then Some(PluginCallError("Failed to wasm instantiate"))
    else if !WrapperExported(m, symbol) then
      Some(PluginCallError("Symbol get error(" + symbol + ")"))
    else if !MallocExported(m) then
      Some(PluginCallError(SPEC_LOW_MALLOC + " get error"))
    else if !FreeExported(m) then
      Some(PluginCallError(SPEC_LOW_FREE + " get error"))
    else if MEMORY_EXPORT !in m.memories then
      Some(PluginCallError("memory get error: `memory` is not exported"))
    else None
  }

  /** The number of instances in the store a call starts from: the cached one, or a new empty one. */
  function StoreSize(global: map<string, CacheData>): nat {
    if STORE_KEY in global then global[STORE_KEY].payload else 0
  }

  /** A cached store downcasts, as the source's `unwrap` requires. */
  ghost predicate StoreDowncasts<R>(ploxy: EnvPloxy<R>)
    reads ploxy.Footprint()
  {
    ploxy.cachePloxy.Some? && STORE_KEY in ploxy.cachePloxy.value.cacher.cacheGlobal ==>
      ploxy.cachePloxy.value.cacher.cacheGlobal[STORE_KEY].typeName == STORE_TYPE
  }

  /** A host/guest step that failed: the allocator or wrapper trapped, or memory could not be written, read or freed. */
  predicate StepFailed(e: Event) {
    match e
    case Malloc(_, outcome) => outcome.Err?
    case Free(_, _, ok) => !ok
    case Invoke(_, _, _, _, packed) => packed.Err?
    case Write(_, _, ok) => !ok
    case Read(_, _, bytes) => bytes.None?
  }

  /** The error `raw_call` returns when step `e` of a call to `symbol` fails. */
  function StepError(symbol: string, e: Event): (err: Option<BugiError>)
    ensures err.Some? <==> StepFailed(e)
    ensures err.Some? ==> err.value.PluginCallError?
  {
    if !StepFailed(e) then None
    else match e
      case Malloc(_, _) => Some(PluginCallError("can't alloc memory in `" + SPEC_LOW_MALLOC + "`"))
      case Write(_, _, _) => Some(PluginCallError("can't write memory"))
      case Invoke(_, _, _, _, _) => Some(PluginCallError("emit error during running `" + symbol + "`"))
      case Read(_, _, _) => Some(PluginCallError("can't read memory"))
      case Free(_, _, _) => Some(PluginCallError("can't dealloc memory"))
  }

  /** The events of a successful call, given the pointers the guest chose and its packed reply. */
  function SuccessEvents(symbol: string, param: Bytes, abi: AbiId, ptr: U32, packed: U64, reply: Bytes): seq<Event>
  {
    var (rptr, rlen) := Unpack(packed);
    [Malloc(AsU32(|param|), Ok(ptr)), Write(ptr, param, true),
     Invoke(ExportName(symbol), ptr, AsU32(|param|), abi, Ok(packed)),
     Read(rptr, rlen, Some(reply)), Free(rptr, rlen, true)]
  }

  /**
   * How the steps on guest memory explain a call's result: some step was taken, every
   * step but the last succeeded, and the call failed exactly when the last one did,
   * with that step's error.
   */
  predicate StepsExplain(symbol: string, events: seq<Event>, r: Result<Bytes, BugiError>) {
    |events| > 0 && (forall i :: 0 <= i < |events| - 1 ==> !StepFailed(events[i])) &&
    (r.Err? <==> StepFailed(events[|events| - 1])) &&
    (r.Err? ==> r.error == StepError(symbol, events[|events| - 1]).value)
  }

  /**
   * The steps of a call after linking, in the source's order, each with the arguments
   * the earlier outcomes fix: malloc(len), write(ptr, param), invoke(wrapper, ptr, len,
   * abi), read and free of the unpacked range. A step is only taken after the one
   * before it succeeded, so a run is a non-empty prefix of that sequence.
   */
  predicate ProtocolPrefix(symbol: string, param: Bytes, abi: AbiId, events: seq<Event>) {
    && 1 <= |events| <= 5
    && events[0].Malloc? && events[0].size == AsU32(|param|)
    && (|events| > 1 ==>
          events[0].outcome.Ok? && events[1].Write? && events[1].ptr == events[0].outcome.value && events[1].data == param)
    && (|events| > 2 ==>
          events[1].ok && events[2].Invoke? && events[2].exportName == ExportName(symbol) &&
          events[2].ptr == events[0].outcome.value && events[2].len == AsU32(|param|) && events[2].abi == abi)
    && (|events| > 3 ==>
          events[2].packed.Ok? && events[3].Read? && (events[3].ptr, events[3].len) == Unpack(events[2].packed.value))
    && (|events| > 4 ==>
          events[3].bytes.Some? && events[4].Free? && (events[4].ptr, events[4].len) == Unpack(events[2].packed.value))
  }

  /**
   * The part of `raw_call` after linking: allocate, write the argument, run the
   * wrapper, read the reply out of the unpacked range, free it. The first failing
   * step ends the call. Only the wrapper can reach the shared Cacher.
   */
  method RunGuest<R>(inst: Instance, symbol: string, param: Bytes, abi: AbiId, ploxy: EnvPloxy<R>)
    returns (r: Result<Bytes, BugiError>)
    requires inst.events == []
    modifies inst, ploxy.Footprint()
    ensures StepsExplain(symbol, inst.events, r) && ProtocolPrefix(symbol, param, abi, inst.events)
    ensures r.Ok? ==>
      |inst.events| == 5 && inst.events[0].Malloc? && inst.events[0].outcome.Ok? &&
      inst.events[2].Invoke? && inst.events[2].packed.Ok? &&
      inst.events == SuccessEvents(symbol, param, abi, inst.events[0].outcome.value, inst.events[2].packed.value, r.value)
    ensures (forall e :: e in inst.events ==> !e.Invoke?) ==> unchanged(ploxy.Footprint())
  {
    var len := AsU32(|param|);
    var mem := inst.GuestMalloc(len);
    ghost var e0 := Malloc(len, mem);
    assert inst.events == [e0];
    if mem.Err? {
      return Err(PluginCallError("can't alloc memory in `" + SPEC_LOW_MALLOC + "`"));
    }
    var ptr := mem.value;
    var wrote := inst.WriteMemory(ptr, param);
    ghost var e1 := Write(ptr, param, wrote);
    assert inst.events == [e0, e1];
    if !wrote {
      return Err(PluginCallError("can't write memory"));
    }
    var res := inst.GuestInvoke(ExportName(symbol), ptr, len, abi, ploxy.Footprint());
    ghost var e2 := Invoke(ExportName(symbol), ptr, len, abi, res);
    assert inst.events == [e0, e1, e2];
    if res.Err? {
      return Err(PluginCallError("emit error during running `" + symbol + "`"));
    }
    var (rptr, rlen) := Unpack(res.value);
    var reply := inst.ReadMemory(rptr, rlen);
    ghost var e3 := Read(rptr, rlen, reply);
    assert inst.events == [e0, e1, e2, e3];
    assert e2 in inst.events;
    if reply.None? {
      return Err(PluginCallError("can't read memory"));
    }
    var freed := inst.GuestFree(rptr, rlen);
    ghost var e4 := Free(rptr, rlen, freed);
    assert inst.events == [e0, e1, e2, e3, e4];
    assert e2 in inst.events;
    if !freed {
      return Err(PluginCallError("can't dealloc memory"));
    }
    r := Ok(reply.value);
  }

  /**
   * `raw_call`. Any failure is a `PluginCallError`; a link failure touches no guest
   * memory. After linking, the steps on guest memory explain the result. A success
   * went through exactly allocate, write, invoke, read, free, and puts the store, now
   * holding one more instance, back into the global cache; a failure before the guest
   * runs leaves the store out.
   */
  method RawCall<R>(plugin: WasmPlugin, symbol: string, param: Bytes, abi: AbiId, ploxy: EnvPloxy<R>)
    returns (r: Result<Bytes, BugiError>, ghost events: seq<Event>)
    requires StoreDowncasts(ploxy)
    modifies ploxy.Footprint()
    ensures r.Err? ==> r.error.PluginCallError?
    ensures LinkError(plugin.compiled, symbol).Some? ==> r == Err(LinkError(plugin.compiled, symbol).value) && events == []
    ensures LinkError(plugin.compiled, symbol).None? ==>
      StepsExplain(symbol, events, r) && ProtocolPrefix(symbol, param, abi, events)
    ensures r.Ok? ==>
      (LinkError(plugin.compiled, symbol).None? && |events| == 5 &&
       events[0].Malloc? && events[0].outcome.Ok? && events[2].Invoke? && events[2].packed.Ok? &&
       events == SuccessEvents(symbol, param, abi, events[0].outcome.value, events[2].packed.value, r.value))
    ensures ploxy.cachePloxy.Some? ==>
      var c := ploxy.cachePloxy.value.cacher;
      (r.Ok? ==> STORE_KEY in c.cacheGlobal && c.cacheGlobal[STORE_KEY] == AnyBox(STORE_TYPE, StoreSize(old(c.cacheGlobal)) + 1)) &&
      ((forall e :: e in events ==> !e.Invoke?) ==> c.cacheGlobal == old(c.cacheGlobal) - {STORE_KEY} && c.cache == old(c.cache))
  {
    events := [];
    var cached := ploxy.GetGlobal(STORE_KEY);
    var storeSize := if cached.Some? then cached.value.payload else 0;
    var link := LinkError(plugin.compiled, symbol);
    if link.Some? {
      return Err(link.value), events;
    }
    var inst := new Instance(plugin.compiled);
    storeSize := storeSize + 1;
    r := RunGuest(inst, symbol, param, abi, ploxy);
    events := inst.events;
    if r.Ok? {
      ploxy.SetGlobal(STORE_KEY, AnyBox(STORE_TYPE, storeSize));
    }
  }

  // ---------------------------------------------------------------------------
  // The call_univ bridge

  /** What the bridge looks up on its caller; a missing or mistyped export panics. */
  predicate BridgeExports(m: WasmModule) {
    MallocExported(m) && FreeExported(m) && MEMORY_EXPORT in m.memories
  }

  /** The request the bridge makes of its context: target, symbol, payload and tag taken from the envelope's fields. */
  function BridgeRequest<R>(ploxy: EnvPloxy<R>, e: Envelope): (q: UnivCall<R>)
    ensures q.target == e.id && q.symbol == e.name && q.arg == e.detail && q.abi == e.abi
    ensures q.ploxy == ploxy
  {
    ploxy.CallUnivRaw(e.id, e.name, e.detail, e.abi)
  }

  /** The reply the bridge copies back for an argument: parsed, decoded and answered; None when any of these fails. */
  function BridgeAnswer<R>(arg: Bytes, parse: Bytes -> Option<MsgValue>, ploxy: EnvPloxy<R>,
                           answer: UnivCall<R> -> Result<Bytes, BugiError>): Option<Bytes>
  {
    match parse(arg)
    case None => None
    case Some(v) =>
      match DecodeEnvelope(v)
      case None => None
      case Some(e) =>
        match answer(BridgeRequest(ploxy, e))
        case Err(_) => None
        case Ok(reply) => Some(reply)
  }

  /**
   * The steps the bridge takes, in the source's order: read and free the argument
   * block, then (once the argument is answered) malloc a block of the reply's length
   * and write the reply into it. Each step is only taken after the one before it
   * succeeded, and the allocation only once the answer exists.
   */
  predicate BridgeProtocol<R>(argPtr: U32, argLen: U32, parse: Bytes -> Option<MsgValue>, ploxy: EnvPloxy<R>,
                              answer: UnivCall<R> -> Result<Bytes, BugiError>, ne: seq<Event>)
  {
    && |ne| <= 4
    && (|ne| > 0 ==> ne[0].Read? && ne[0].ptr == argPtr && ne[0].len == argLen)
    && (|ne| > 1 ==> ne[0].bytes.Some? && ne[1].Free? && ne[1].ptr == argPtr && ne[1].len == argLen)
    && (|ne| > 2 ==>
          ne[1].ok && BridgeAnswer(ne[0].bytes.value, parse, ploxy, answer).Some? &&
          ne[2].Malloc? && ne[2].size == AsU32(|BridgeAnswer(ne[0].bytes.value, parse, ploxy, answer).value|))
    && (|ne| > 3 ==>
          ne[2].outcome.Ok? && ne[3].Write? && ne[3].ptr == ne[2].outcome.value &&
          ne[3].data == BridgeAnswer(ne[0].bytes.value, parse, ploxy, answer).value)
  }

  /**
   * The host side of `bugi@v0.call_univ`. A failure (`Err`) is a panic of the host
   * function and aborts the guest. The argument is read and freed before it is
   * decoded; the decoded envelope becomes a `call_univ_raw` request on the calling
   * plugin's own context, which `answer` (the context's `call_univ` closure) answers;
   * the reply is copied into memory the guest allocator provides, and `(ptr, len)`
   * returned. `parse` is the MessagePack reader. The call fails only when an export is
   * missing, a step on guest memory fails, or the argument does not parse or decode,
   * or the answer is an error.
   */
  method CallUnivBridge<R>(inst: Instance, argPtr: U32, argLen: U32, parse: Bytes -> Option<MsgValue>,
                           ploxy: EnvPloxy<R>, answer: UnivCall<R> -> Result<Bytes, BugiError>)
    returns (r: Result<(U32, U32), string>)
    modifies inst
    ensures !BridgeExports(inst.compiled) ==> r.Err? && inst.events == old(inst.events)
    ensures |inst.events| >= |old(inst.events)| && inst.events[..|old(inst.events)|] == old(inst.events)
    ensures var k := |old(inst.events)|;
      |inst.events| >= k + 2 && inst.events[k].Read? && inst.events[k].bytes.Some? && inst.events[k + 1] == Free(argPtr, argLen, true) ==>
        inst.events[k] == Read(argPtr, argLen, inst.events[k].bytes)
    ensures r.Ok? ==> var k := |old(inst.events)|;
      |inst.events| == k + 4 &&
      inst.events[k].Read? && inst.events[k].bytes.Some? && inst.events[k] == Read(argPtr, argLen, inst.events[k].bytes) &&
      inst.events[k + 1] == Free(argPtr, argLen, true) &&
      parse(inst.events[k].bytes.value).Some? &&
      DecodeEnvelope(parse(inst.events[k].bytes.value).value).Some? &&
      var reply := answer(BridgeRequest(ploxy, DecodeEnvelope(parse(inst.events[k].bytes.value).value).value));
      reply.Ok? &&
      inst.events[k + 2] == Malloc(AsU32(|reply.value|), Ok(r.value.0)) &&
      inst.events[k + 3] == Write(r.value.0, reply.value, true) &&
      r.value.1 == AsU32(|reply.value|)
    ensures BridgeExports(inst.compiled) ==>
      |inst.events| > |old(inst.events)| &&
      BridgeProtocol(argPtr, argLen, parse, ploxy, answer, inst.events[|old(inst.events)|..])
    ensures r.Err? && BridgeExports(inst.compiled) ==> var k := |old(inst.events)|;
      |inst.events| > k && (forall i :: k <= i < |inst.events| - 1 ==> !StepFailed(inst.events[i])) &&
      (StepFailed(inst.events[|inst.events| - 1]) ||
       (|inst.events| == k + 2 && inst.events[k] == Read(argPtr, argLen, inst.events[k].bytes) &&
        inst.events[k].bytes.Some? && inst.events[k + 1] == Free(argPtr, argLen, true) &&
        BridgeAnswer(inst.events[k].bytes.value, parse, ploxy, answer).None?))
  {
    if !BridgeExports(inst.compiled) {
      return Err("missing export");
    }
    ghost var k := |inst.events|;
    var arg := inst.ReadMemory(argPtr, argLen);
    assert inst.events[k..] == [Read(argPtr, argLen, arg)];
    if arg.None? {
      return Err("<Bugi-Wasm> Found Error: Can't Read Memory");
    }
    var freed := inst.GuestFree(argPtr, argLen);
    if !freed {
      return Err("<Bugi-Wasm> Can't Dealloc Memory");
    }
    assert inst.events[k..] == [Read(argPtr, argLen, arg), Free(argPtr, argLen, true)];
    var value := parse(arg.value);
    if value.None? {
      return Err("malformed MessagePack");
    }
    var envelope := ReadEnvelope(value.value);
    if envelope.None? {
      return Err("<Bugi-Wasm> `call_univ`'s arg is not satisfiled.");
    }
    var reply := answer(BridgeRequest(ploxy, envelope.value));
    if reply.Err? {
      return Err("<Bugi-Wasm> Call-Univ-Error");
    }
    var len := AsU32(|reply.value|);
    assert BridgeAnswer(arg.value, parse, ploxy, answer) == Some(reply.value);
    var mem := inst.GuestMalloc(len);
    assert inst.events[k..] == [Read(argPtr, argLen, arg), Free(argPtr, argLen, true), Malloc(len, mem)];
    if mem.Err? {
      return Err("<Bugi-Wasm> Can't Alloc Memory");
    }
    var wrote := inst.WriteMemory(mem.value, reply.value);
    assert inst.events[k..] ==
      [Read(argPtr, argLen, arg), Free(argPtr, argLen, true), Malloc(len, mem), Write(mem.value, reply.value, wrote)];
    if !wrote {
      return Err("<Bugi-Wasm> Can't Write Memory");
    }
    r := Ok((mem.value, len));
  }
}
