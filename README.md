# bugi plugin runtime — a Dafny model

bugi is a plugin runtime. A **Universe** owns plugins. Each plugin has a unique
string id and a numeric id taken from a counter. A plugin is either a **host
plugin** (a table of native functions) or a **WebAssembly plugin**.

Callers hold weak **PluginRef** handles. A call goes through these steps:

- upgrade the handle;
- encode the parameters with a **serialize tag** (MessagePack or bitcode, each named by a small ABI id);
- run the plugin with an **EnvPloxy** context;
- decode the reply.

The EnvPloxy context carries an optional **Cacher** and a routing closure. The
Cacher is a two-namespace store whose reads are destructive. The routing closure
serves nested calls. An **Overrider** wraps a call so that nested calls to chosen
`(plugin, symbol)` pairs reach substitute functions, and `"self"` names the
wrapped plugin.

WebAssembly plugins are called by marshaling through guest memory:

- the guest allocator provides a block;
- the argument is written into it;
- the exported wrapper runs;
- the 64-bit word it is expected to return is unpacked as `(ptr << 32) | len`;
- the reply is read and freed.

A guest calls back through an imported function that decodes a MessagePack
routing envelope. Alongside the runtime the model also covers:

- the CLI's export classifier;
- the SDK instance caches;
- the earlier `bugic` runtime, whose tags are one byte wide.

Every module stands for one source crate or file:

| module | models |
|---|---|
| `Share`, `CShare` | tag ids and parameter-list arities (bugi-share, bugic-share) |
| `KeyedStore`, `Core` | pop/push stores, Cacher, EnvPloxy, adapters and tagged functions (bugi-core) |
| `CrateCacher` | the single-namespace Cacher of the bugi crate |
| `WasmParser`, `Wasm` | the payloads of a parsed binary; bugi-wasm's sections, envelope, marshaling and bridge |
| `Host` | bugi-host |
| `Plugins`, `Registry`, `Bugi` | the Plugin record, registry state, and Universe, PluginRef and Overrider |
| `Cli` | `check_command` of bugi-cli |
| `InstanceMap`, `SdkCacher`, `SdkDropCacher` | the instance caches of bugi-sdk and bugi_sdk |
| `BugicCore`, `BugicHost`, `BugicHostPlug`, `Bugic` | the bugic runtime |

The code is modelled in the form it is written in:

- State changed in place becomes classes with `modifies` clauses. This covers the registries, caches, override tables, host tables and guest memory.
- Decision cascades become functions, with lemmas relating them. This covers routing, tag checks, envelope decoding and export classification.
- Loops become methods proved against those functions.

## Model

| member | source | states |
|---|---|---|
| Share.SerializeTag.AbiId | bugi/bugi-share/src/lib.rs:27-49 | RmpTag gets 0x00 and BitcodeTag gets 0x01. Neither is the error id 0xFF, and `TagOf` maps each id back to its tag. |
| Share.TagOf | bugi/bugi-share/src/lib.rs:43-49 | An id names a tag exactly when it is the MessagePack id or the bitcode id. |
| Share.AbiIdInjective | bugi/bugi-share/src/lib.rs:46-49 | Two tags have the same id if and only if they are the same tag, so a tag check can tell them apart. |
| Share.Arities | bugi/bugi-share/src/lib.rs:89-107 | The macro's list of tuple arities has one entry per invocation. |
| Share.AritiesSpan | bugi/bugi-share/src/lib.rs:89-107 | The k-entry list holds exactly 1..k, in increasing order. |
| Share.ParamListArities | bugi/bugi-share/src/lib.rs:89-107 | Parameter-list encoding exists for tuple arity n if and only if 1 <= n <= 16. |
| CShare.SerializeTag.AbiId | bugic/crates/bugic-share/src/lib.rs:13-31 | The one-byte ids are 0x00 and 0x01. Neither is 0xFF, and both are inverted by `TagOf`. |
| CShare.TagOf | bugic/crates/bugic-share/src/lib.rs:29-31 | A byte names a tag exactly when it is one of the two encoding ids. |
| CShare.AbiIdInjective | bugic/crates/bugic-share/src/lib.rs:29-31 | Distinct tags have distinct one-byte ids. |
| CShare.AgreesWithShare | bugic/crates/bugic-share/src/lib.rs:29-31 | The one-byte constants equal bugi-share's u64 constants. |
| CShare.ParamListArities | bugic/crates/bugic-share/src/lib.rs:67-86 | bugic-share covers the same arities, 1 to 16. |
| KeyedStore.Take | bugi/crate/bugi-core/src/lib.rs:68-70 | A pop returns the entry exactly when the key is present, and removes that key and nothing else. |
| KeyedStore.PutThenTake | bugi/crate/bugi-core/src/lib.rs:68-74 | A push followed by a pop of the same key returns the pushed data and leaves the key absent. |
| KeyedStore.TakeTwice | bugi/crate/bugi-core/src/lib.rs:68-70 | Pop is destructive: a second pop of the same key returns None. |
| KeyedStore.PutLeavesOthers | bugi/crate/bugi-core/src/lib.rs:72-74 | A push on one key does not change what a pop of another key returns. |
| Core.Cacher.constructor | bugi/crate/bugi-core/src/lib.rs:63-66 | A new Cacher has both namespaces empty. |
| Core.Cacher.Pop | bugi/crate/bugi-core/src/lib.rs:68-70 | Removes the per-plugin entry and returns it; the global namespace is unchanged. |
| Core.Cacher.Push | bugi/crate/bugi-core/src/lib.rs:72-74 | Overwrites only the given id; the global namespace is unchanged. |
| Core.Cacher.PopGlobal | bugi/crate/bugi-core/src/lib.rs:76-78 | Removes the global entry and returns it; the per-plugin namespace is unchanged. |
| Core.Cacher.PushGlobal | bugi/crate/bugi-core/src/lib.rs:80-87 | Overwrites only the given global key; the per-plugin namespace is unchanged. |
| Core.EnvPloxy.GetCache | bugi/crate/bugi-core/src/lib.rs:134-136 | Without a Cacher it returns None. With one, it pops the entry under the plugin id fixed at construction. |
| Core.EnvPloxy.SetCache | bugi/crate/bugi-core/src/lib.rs:138-142 | Without a Cacher it changes nothing. With one, it pushes under the fixed plugin id. |
| Core.EnvPloxy.GetGlobal | bugi/crate/bugi-core/src/lib.rs:168-170 | Without a Cacher it returns None. With one, it removes the entry it returns. |
| Core.EnvPloxy.SetGlobal | bugi/crate/bugi-core/src/lib.rs:172-176 | Without a Cacher it changes nothing. With one, it pushes the global entry. |
| Core.EnvPloxy.CallUnivRaw | bugi/crate/bugi-core/src/lib.rs:144-152 | The request carries target, symbol, bytes and tag unchanged, plus a context with the same Cacher and router. |
| Core.EnvPloxy.CallUnivRequest | bugi/crate/bugi-core/src/lib.rs:154-166 | An encoding failure is `CannotSerialize`. Otherwise the request carries the encoded bytes and the tag's id. |
| Core.NewPloxy | bugi/crate/bugi-core/src/lib.rs:110-132 | The context has a cache exactly when a Cacher is given, keyed by the given plugin id, and keeps the router. |
| Core.CallUnivReply | bugi/crate/bugi-core/src/lib.rs:160-165 | A routing error is passed on, a decoding failure is `CannotSerialize`, and otherwise the decoded value is returned. |
| Core.AdaptDecodeFailure | bugi/crate/bugi-host/src/lib.rs:29-31 | A payload that does not decode never reaches the user function and becomes `CannotSerialize`. |
| Core.AdaptRoundTrip | bugi/crate/bugi-host/src/lib.rs:29-33 | A decodable payload yields the encoding of the user function's result. |
| Core.Adapt | bugi/crate/bugi-host/src/lib.rs:29-33 | An undecodable payload gives `CannotSerialize` without running the function. Otherwise the result is the encoded function result, or `CannotSerialize` when encoding fails. |
| Core.Tagged | bugi/crate/bugi/src/override.rs:30-40 | The stored pair carries the tag's ABI id and the adapted function. |
| Core.Invoke | bugi/crate/bugi/src/override.rs:61-65 | A caller with another tag gets `PluginAbiError(registered id)` and the function never runs. A matching tag gets the function's result. |
| Core.TaggedInvoke | bugi/crate/bugi/src/override.rs:30-65 | A registered function answers its own tag with the encoded result and refuses any other tag with `PluginAbiError(registered id)`. |
| CrateCacher.Cacher.constructor | bugi/crate/bugi/src/cacher.rs:14-16 | A new Cacher is empty. |
| CrateCacher.Cacher.Pop | bugi/crate/bugi/src/cacher.rs:18-21 | Removes and returns the entry for the id. |
| CrateCacher.Cacher.Push | bugi/crate/bugi/src/cacher.rs:23-26 | Overwrites the entry for the id and leaves the other ids unchanged. |
| CrateCacher.PushPopOnce | bugi/crate/bugi/src/cacher.rs:18-26 | After a push, the first pop returns the data and a second returns None; the id ends up absent. |
| Wasm.AsU32 | bugi/bugi-wasm/src/lib.rs:251-271 | `len as u32`: equal to the length below 2^32, otherwise congruent to it modulo 2^32. |
| Wasm.SectionsLastWins | bugi/bugi-wasm/src/lib.rs:24-42 | A name is in the section table if and only if some well-formed custom section has it. Its data is that of the last such section. |
| Wasm.ParseCustomSection | bugi/bugi-wasm/src/lib.rs:24-42 | The loop builds exactly the table `Sections` defines, skipping payloads that fail to parse. |
| Wasm.LoadBin | bugi/bugi-wasm/src/lib.rs:52-57 | Loading succeeds exactly when compilation does, and keeps the section table and the compiled module. |
| Wasm.StrId | bugi/bugi-wasm/src/lib.rs:61-63 | The string id is the UTF-8 decoding of the `bugi@v0_plugin_id` section; presence and valid UTF-8 are required because the source unwraps. |
| Wasm.LoadedStrId | bugi/bugi-wasm/src/lib.rs:52-63 | The string id of a loaded plugin is the decoding of the last `bugi@v0_plugin_id` section in its binary. |
| Wasm.ExportName | bugi/bugi-wasm/src/lib.rs:219-223 | The wrapper looked up for a symbol is `bugi@v0_plugin_function_` followed by the symbol. |
| Wasm.ExportNameInjective | bugi/bugi-wasm/src/lib.rs:219-249 | Distinct symbols get distinct wrapper names, and no wrapper name collides with the allocator, deallocator or memory export. |
| Wasm.Pack | bugi/bugi-wasm/src/lib.rs:273-274 | The word `raw_call` expects from a wrapper: pointer in the high 32 bits and length in the low 32 bits. It is the inverse that `Unpack` assumes. |
| Wasm.Unpack | bugi/bugi-wasm/src/lib.rs:273-274 | `(w >> 32, w & 0xFFFFFFFF)` packs back to w. |
| Wasm.UnpackPack | bugi/bugi-wasm/src/lib.rs:273-274 | Unpacking a packed 32-bit pointer and length returns them unchanged. |
| Wasm.ReadEnvelope | bugi/bugi-wasm/src/lib.rs:126-184 | The decoding loop returns what `DecodeEnvelope` defines: it fails on a non-map and on a wrongly typed field, ignores unknown or non-string keys, and lets later duplicates win. |
| Wasm.EnvelopeRoundTrip | bugi/bugi-wasm/src/lib.rs:126-184 | A map holding the four fields decodes to exactly the envelope it encodes. |
| Wasm.DecodePanicSticks | bugi/bugi-wasm/src/lib.rs:126-184 | Once an entry makes decoding panic, no further entries can rescue it. |
| Wasm.BridgeRequest | bugi/bugi-wasm/src/lib.rs:186-187 | The request has target `id`, symbol `name`, payload `detail` and tag `abi` from the envelope, and carries the caller's context. |
| Wasm.AbsentKeyKeepsDefault | bugi/bugi-wasm/src/lib.rs:126-135 | A field whose key never occurs keeps its default: `""`, 0 or empty bytes. |
| Wasm.Instance.constructor | bugi/bugi-wasm/src/lib.rs:210-217 | A new instance has the plugin's module and no events. |
| Wasm.Instance.GuestMalloc | bugi/bugi-wasm/src/lib.rs:251-257 | Runs the guest allocator and records its size and outcome. |
| Wasm.Instance.GuestFree | bugi/bugi-wasm/src/lib.rs:283-287 | Runs the guest deallocator and records whether it trapped. |
| Wasm.Instance.GuestInvoke | bugi/bugi-wasm/src/lib.rs:265-271 | Runs the wrapper with (ptr, len, abi) and records the packed word or trap; nested calls may change the shared Cacher. |
| Wasm.Instance.WriteMemory | bugi/bugi-wasm/src/lib.rs:259-263 | A write succeeds exactly when the bytes fit. It replaces exactly that range, and a failed write changes nothing. |
| Wasm.Instance.ReadMemory | bugi/bugi-wasm/src/lib.rs:276-281 | A read succeeds exactly when the range lies in memory, returns those bytes, and leaves memory unchanged. |
| Wasm.LinkError | bugi/bugi-wasm/src/lib.rs:210-249 | Linking fails exactly when some check fails: instantiation (imports other than `bugi@v0.call_univ` at its host type), then the typed wrapper, malloc, free and memory lookups. The error is the first failing check's `PluginCallError`, in that order. |
| Wasm.StepError | bugi/bugi-wasm/src/lib.rs:251-287 | A step has an error exactly when it failed: a trapping allocator, wrapper or deallocator, or an out-of-range write or read. The error is the `PluginCallError` the source returns for that step. |
| Wasm.RunGuest | bugi/bugi-wasm/src/lib.rs:251-291 | The steps after linking explain the result as above, and the steps taken are always a prefix of the five in source order: malloc(param length), a write of the parameter at the allocated pointer, an invocation of the wrapper on (ptr, len, abi), a read of the unpacked range, and a free of it. Each step is taken only after the one before it succeeded. A success records exactly the five successful steps. The shared Cacher is untouched unless the wrapper ran. |
| Wasm.RawCall | bugi/bugi-wasm/src/lib.rs:65-292 | Every failure is a `PluginCallError`, and a link failure touches no guest memory. After linking, the steps taken are a prefix of malloc, write, invoke, read and free, in that order and with those arguments. The call fails exactly when its last step fails, with that step's error, and every earlier step succeeded. A call whose every step succeeds returns the reply, after malloc(len), write, invoke(ptr, len, abi), a read of the unpacked range and free. The store, holding one more instance, is put back under "WasmPlugin-Store"; a failure before the guest runs leaves it out. |
| Wasm.CallUnivBridge | bugi/bugi-wasm/src/lib.rs:87-206 | Missing exports make it fail before any access. Otherwise the steps taken are a prefix of: a read of the argument block, a free of it, a malloc of the reply's length, and a write of the reply at the allocated pointer. Each step is taken only after the one before it succeeded, and the malloc only once the argument was parsed, decoded and answered. A parse, decode or answer failure comes right after a successful read and free, with no later step. The decoded envelope is answered as a `call_univ_raw` request on the calling plugin's own context. On success the reply is written into a block of its own length and `(ptr, len)` is returned. It fails only when a step on guest memory fails, the argument does not parse or decode, or the answer is an error. |
| Host.HostPlugin.constructor | bugi/crate/bugi-host/src/lib.rs:14-18 | A new host plugin has no functions. |
| Host.HostPlugin.HostFunc | bugi/crate/bugi-host/src/lib.rs:20-36 | Stores the adapted function under the symbol with the tag's id, overwriting an earlier one. |
| Host.RawCall | bugi/crate/bugi-host/src/lib.rs:40-64 | An unknown symbol gives `PluginCallError("Symbol is not found: …")`, checked before the tag. A mismatched tag gives `PluginAbiError(expected)`. Otherwise the function's result is returned with an empty cache slot. |
| Host.HostFuncThenRawCall | bugi/crate/bugi-host/src/lib.rs:20-64 | After `host_func`, its own tag gets the encoded result, another tag gets `PluginAbiError`, and other symbols are unchanged. |
| Plugins.New | bugi/crate/bugi/src/plugin.rs:16-26 | `get_str_id` returns exactly the string given to `Plugin::new`. |
| Plugins.CallRaw | bugi/crate/bugi/src/plugin.rs:28-36 | Symbol, bytes, tag and context go unchanged to the plugin's system. |
| Plugins.HostIgnoresContext | bugi/crate/bugi-host/src/lib.rs:40-47 | A host plugin's answer does not depend on the context. |
| Registry.Empty | bugi/crate/bugi/src/lib.rs:49-55 | A new Universe has no plugins, no string ids and counter 0, and is consistent. |
| Registry.Register | bugi/crate/bugi/src/lib.rs:58-82 | A taken string id gives `PluginIdExists` and changes nothing. Otherwise the plugin gets the old counter and the counter grows by exactly 1. |
| Registry.Resolve | bugi/crate/bugi/src/lib.rs:101-105 | A string id resolves exactly when registered, to the numeric id stored for it; otherwise the result is `PluginNotFound(str_id)`. |
| Registry.RegisterValid | bugi/crate/bugi/src/lib.rs:58-82 | Registration keeps the string-id map injective and inverse to the plugin map. |
| Registry.RegisterFresh | bugi/crate/bugi/src/lib.rs:70-76 | The new id was never used and exceeds all earlier ids. The new string id resolves to the new plugin, and every earlier entry is unchanged. The id set and the string-id set each gain exactly the new key. |
| Registry.ResolveInjective | bugi/crate/bugi/src/lib.rs:58-82 | Different string ids resolve to different plugins. |
| Registry.RegisterAll | bugi/crate/bugi/src/lib.rs:58-82 | Successive registrations stay consistent, and without a refusal every plugin gets an id. |
| Registry.RegisterAllIncreasing | bugi/crate/bugi/src/lib.rs:70-71 | Ids assigned by successive registrations strictly increase, starting at the old counter. |
| Bugi.Universe.constructor | bugi/crate/bugi/src/lib.rs:49-55 | The Universe starts alive and empty. |
| Bugi.Universe.HasStrId | bugi/crate/bugi/src/lib.rs:64-68 | The scan over the string-id keys finds the id if and only if it is registered. |
| Bugi.Universe.AddPluginRaw | bugi/crate/bugi/src/lib.rs:58-82 | The state changes as `Registry.Register` says and stays consistent. A success returns a handle that upgrades to the new plugin. |
| Bugi.Universe.AddPlugin | bugi/crate/bugi/src/lib.rs:85-91 | Equals `add_plugin_raw` on `Plugin::new(str_id, detail)`. |
| Bugi.Universe.Drop | bugi/crate/bugi/src/lib.rs:32-45 | Dropping the last strong handle releases every plugin and kills the Universe. |
| Bugi.Universe.CallRaw | bugi/crate/bugi/src/lib.rs:93-108 | An unknown string id gives `PluginNotFound` without calling any plugin. Otherwise the plugin stored under its numeric id gets the call unchanged. |
| Bugi.Universe.CallRawId | bugi/crate/bugi/src/lib.rs:110-121 | With the id registered, as the unwrap demands, it equals the call by that plugin's string id. |
| Bugi.PluginRef.Upgrade | bugi/crate/bugi/src/plugin.rs:62 | The handle upgrades exactly while the Universe lives and holds the id. |
| Bugi.PluginRef.CallWithPloxy | bugi/crate/bugi/src/plugin.rs:57-108 | In order: dropped gives `PluginDropped`, an encoding failure gives `CannotSerialize`, and otherwise the reply is decoded. The plugin gets the tag's id and the given context. |
| Bugi.PluginRef.Call | bugi/crate/bugi/src/plugin.rs:57-80 | The call runs with no cache and the plain router of this handle's Universe. |
| Bugi.PluginRef.CallCache | bugi/crate/bugi/src/plugin.rs:83-108 | The call runs with the given Cacher, keyed by this handle's plugin id, and the plain router. |
| Bugi.Overrider.constructor | bugi/crate/bugi/src/override.rs:18-22 | A new Overrider has an empty table. |
| Bugi.Overrider.Add | bugi/crate/bugi/src/override.rs:24-41 | Stores the tagged substitute under (str_id, symbol), overwriting an earlier one. |
| Bugi.Overrider.Context | bugi/crate/bugi/src/override.rs:50-79 | The router captures this table, the Universe and the wrapped plugin's id. The context has a cache exactly when a Cacher is given: that Cacher, keyed by the wrapped plugin's id. |
| Bugi.Overrider.WrapCall | bugi/crate/bugi/src/override.rs:84-91 | Calls the wrapped plugin with the overriding router and no cache. |
| Bugi.Overrider.WrapCallCache | bugi/crate/bugi/src/override.rs:93-101 | Calls the wrapped plugin with the overriding router and the given Cacher, keyed by the plugin's id. |
| Bugi.CallAfterDrop | bugi/crate/bugi/src/plugin.rs:57-108 | After the Universe is dropped, `call` and `call_cache` return `PluginDropped`. |
| Bugi.HostCallRoundTrip | bugi/crate/bugi-tests/src/lib.rs:6-18 | A host function called with its own tag and codecs that round-trip returns the typed result, with or without a Cacher. Another tag gets `PluginAbiError(registered id)`. |
| Bugi.Route | bugi/crate/bugi/src/override.rs:55-77 | An overridden pair is answered by its substitute with the tag checked. Otherwise a dropped Universe gives `PluginUniverseDropped`, and an unknown string id other than the Overrider's `self` gives `PluginNotFound`. |
| Bugi.CallUniv | bugi/crate/bugi-core/src/lib.rs:154-166 | An encoding failure is `CannotSerialize`. Otherwise the encoded request, on the caller's own context, is routed and its reply decoded. |
| Bugi.OverrideShadows | bugi/crate/bugi/src/override.rs:56-65 | A key in the table is answered by the substitute (tag checked), before `self` and before the Universe is consulted. |
| Bugi.SelfIsWrappedPlugin | bugi/crate/bugi/src/override.rs:72-73 | A non-overridden `self` goes by numeric id to the wrapped plugin. |
| Bugi.RouteToUniverse | bugi/crate/bugi/src/override.rs:74-75 | A live request that is neither overridden nor the Overrider's `self` goes by string id to the Universe, with the request's own context. |
| Bugi.PlainRouterHasNoSelf | bugi/crate/bugi/src/plugin.rs:69-74 | The router of `call` has no `self` case: without a plugin named "self" the result is `PluginNotFound`. |
| Bugi.RouteAfterDrop | bugi/crate/bugi/src/plugin.rs:69-73 | A non-overridden nested call after the Universe is dropped gives `PluginUniverseDropped`. |
| Bugi.NestedCallSharesContext | bugi/crate/bugi-core/src/lib.rs:144-152 | A nested call hands the callee the caller's context: the same Cacher, plugin id and router. |
| Bugi.OverrideAnswersNestedCall | bugi/crate/bugi/src/override.rs:43-82 | Inside `wrap_call`, a nested call to an overridden pair, with round-tripping codecs, returns the substitute's typed result. |
| Bugi.OverrideMultiplies | bugi/crate/bugi-tests/src/lib.rs:41-59 | With multiplication substituted for ("test2", "called"), (5, 10) yields 50. |
| Cli.CheckCommand | bugi/crates/bugi-cli/src/main.rs:59-102 | The nested loops compute `Check`: the first failing payload or entry aborts, and only the first export section is classified. |
| Cli.ScanExportsEntries | bugi/crates/bugi-cli/src/main.rs:64-78 | A successful scan keeps the earlier entries and appends exactly the prefixed exports' entries, in export order. |
| Cli.FuncEntry | bugi/crates/bugi-cli/src/main.rs:66-77 | A function export gives `Ok` with its name without the prefix. Any other kind gives `Err(full name, "this is not a function")`. |
| Cli.Entries | bugi/crates/bugi-cli/src/main.rs:64-78 | There is one entry per prefixed export. |
| Cli.EntriesJustified | bugi/crates/bugi-cli/src/main.rs:64-78 | Entry k comes from the k-th prefixed export, so entries follow export order one-to-one. |
| Cli.ScanExportsDescription | bugi/crates/bugi-cli/src/main.rs:79-91 | The description is set by the last `__bugi_v0_provide_desc` export, Ok or Err by kind, and stays unset without one. |
| Cli.CheckStopsAtFirstSection | bugi/crates/bugi-cli/src/main.rs:93 | Payloads after the first export section or a parse error do not affect the result. |
| Cli.CheckWithoutExports | bugi/crates/bugi-cli/src/main.rs:59-102 | A binary without export sections yields the empty result. |
| InstanceMap.GetOrAddStores | bugi/crates/bugi-sdk/src/cacher.rs:56-69 | After get-or-add the key holds the returned instance and no other key changes. |
| InstanceMap.GetOrAddPresent | bugi/crates/bugi-sdk/src/cacher.rs:65-67 | A present id returns the stored instance and leaves the map alone. |
| InstanceMap.GetOrAddIdempotent | bugi/crates/bugi-sdk/src/cacher.rs:56-69 | A second get-or-add of the same id changes nothing and returns the same instance. |
| SdkCacher.PluginCacher.constructor | bugi/crates/bugi-sdk/src/cacher.rs:27-43 | A new cache holds no instances. |
| SdkCacher.PluginCacher.AddIns | bugi/crates/bugi-sdk/src/cacher.rs:45-48 | Stores a fresh shared instance under the id and overwrites only that key. |
| SdkCacher.PluginCacher.GetIns | bugi/crates/bugi-sdk/src/cacher.rs:50-53 | Some exactly when the id is present, returning the stored object; read-only. |
| SdkCacher.PluginCacher.GetOrAddIns | bugi/crates/bugi-sdk/src/cacher.rs:56-69 | The factory runs exactly when the id is absent, and its instance is stored and returned. Otherwise the stored object is returned and nothing changes. |
| SdkCacher.GetOrAddTwice | bugi/crates/bugi-sdk/src/cacher.rs:56-69 | Two get-or-adds of one id return the same object, and the second runs no factory. |
| SdkDropCacher.PluginCacher.constructor | bugi/crates/bugi_sdk/src/cacher.rs:27-46 | The map is empty, the counter is 0 and the limit is the given one. |
| SdkDropCacher.PluginCacher.AddIns | bugi/crates/bugi_sdk/src/cacher.rs:48-51 | Overwrites only the id's entry and leaves the counter unchanged. |
| SdkDropCacher.PluginCacher.GetIns | bugi/crates/bugi_sdk/src/cacher.rs:53-56 | Some exactly when present; read-only. |
| SdkDropCacher.PluginCacher.GetOrAddIns | bugi/crates/bugi_sdk/src/cacher.rs:59-68 | The factory runs exactly when the id is absent, and the result is stored. The counter is unchanged. |
| SdkDropCacher.PluginCacher.IncDropTime | bugi/crates/bugi_sdk/src/cacher.rs:74-77 | The counter grows by exactly one, the instances are untouched, and a drop already due stays due. |
| SdkDropCacher.PluginCacher.CheckDropTime | bugi/crates/bugi_sdk/src/cacher.rs:79-86 | Without a limit it is never due. With one, it is due exactly when the counter has reached the limit. |
| SdkDropCacher.DropDueMonotone | bugi/crates/bugi_sdk/src/cacher.rs:74-86 | Once `check_drop_time` is true it stays true as the counter grows. |
| SdkDropCacher.DropDueAfterIncrements | bugi/crates/bugi_sdk/src/cacher.rs:27-86 | A new cache with limit `max`, after n calls of `inc_drop_time`, is due for dropping exactly when there is a limit and n has reached it. |
| BugicHost.Entry | bugic/crates/bugic-host/src/lib.rs:23-33 | The stored entry carries the tag's one-byte id. |
| BugicHost.HostPlugin.constructor | bugic/crates/bugic-host/src/lib.rs:14-16 | A new host plugin has no functions. |
| BugicHost.HostPlugin.HostFunc | bugic/crates/bugic-host/src/lib.rs:18-34 | Stores the entry under the symbol, overwriting an earlier one. |
| BugicHost.RawCall | bugic/crates/bugic-host/src/lib.rs:38-52 | An unknown symbol gives exactly `PluginCallError("Symbol is not found: " + symbol)`. A known symbol under another tag gives exactly `PluginAbiError(registered id)`. Otherwise the closure's bytes are returned. |
| BugicHost.HostFuncThenRawCall | bugic/crates/bugic-host/src/lib.rs:18-52 | After `host_func`, its own tag gets the encoded result and the other tag gets the registered id. |
| BugicHostPlug.Entry | bugic/crates/bugic/src/host_plug.rs:32-43 | The entry records the input tag's id and the output tag's id. |
| BugicHostPlug.HostPlugin.constructor | bugic/crates/bugic/src/host_plug.rs:17-19 | A new host plugin has no functions. |
| BugicHostPlug.HostPlugin.HostFunc | bugic/crates/bugic/src/host_plug.rs:21-44 | Stores the entry under the symbol, overwriting an earlier one. |
| BugicHostPlug.RawCall | bugic/crates/bugic/src/host_plug.rs:48-52 | It fails exactly on an unknown symbol, with "Symbol not found". Otherwise the closure runs; there is no tag check. |
| BugicHostPlug.CheckSymbolAbi | bugic/crates/bugic/src/host_plug.rs:54-66 | An unknown symbol gives `(0xFF, 0xFF)`. Ok if and only if both ids match; otherwise the recorded pair is returned. |
| BugicHostPlug.HostFuncThenCheck | bugic/crates/bugic/src/host_plug.rs:21-66 | After `host_func`, the check accepts exactly the registered tag pair. Any other pair is told the registered ids, which differ from the unknown-symbol report. |
| BugicHostPlug.HostFuncThenRawCall | bugic/crates/bugic/src/host_plug.rs:21-52 | After `host_func`, a call returns the encoded typed result. |
| Bugic.RawCall | bugic/crates/bugic/src/plugin.rs:49-51 | A bugic-host table refuses a wrong tag with the registered id. A `host_plug` table fails exactly on an unknown symbol, whatever the tag. |
| Bugic.MakePlugin | bugic/crates/bugic/src/plugin.rs:14-21 | `get_str_id` returns exactly the string given to `make_plugin`. |
| Bugic.Add | bugic/crates/bugic/src/lib.rs:56-73 | A string id used by any registered plugin gives `PluginIdExists` and changes nothing. Otherwise the plugin gets the old counter, which grows by 1. |
| Bugic.AddValid | bugic/crates/bugic/src/lib.rs:56-73 | Adding keeps ids below the counter and string ids pairwise distinct. |
| Bugic.AddFresh | bugic/crates/bugic/src/lib.rs:66-71 | The new id is unused and above all earlier ids, and earlier plugins are unchanged. The id set gains exactly the new id. The new plugin is the only one with its string id. |
| Bugic.Universe.constructor | bugic/crates/bugic/src/lib.rs:48-53 | The Universe starts empty with counter 0. |
| Bugic.Universe.AddPlugin | bugic/crates/bugic/src/lib.rs:56-73 | The scan over the plugins and the insertion change the state as `Add` says. A success returns a reference to the new id. |
| Bugic.Universe.AddHostPlugin | bugic/crates/bugic/src/lib.rs:76-83 | Equals `add_plugin` on the host table wrapped as a plugin. |
| Bugic.Universe.Drop | bugic/crates/bugic/src/lib.rs:27-38 | Dropping the Universe frees every plugin, so no reference upgrades. |
| Bugic.PluginRef.Upgrade | bugic/crates/bugic/src/plugin.rs:46 | The reference upgrades exactly while the plugin is still owned. |
| Bugic.PluginRef.Call | bugic/crates/bugic/src/plugin.rs:37-53 | In order: dropped gives `PluginDropped`, an encoding failure gives `CannotSerialize`, and a call error is passed on. A decoding failure gives `CannotSerialize`, and otherwise the decoded value is returned. The tag's id is passed. |
| Bugic.CallAfterDrop | bugic/crates/bugic/src/plugin.rs:46 | Every reference into a dropped Universe returns `PluginDropped`. |
| Bugic.CoreHostCallRoundTrip | bugic/crates/bugic-tests/src/lib.rs:6-18 | A bugic-host function called with its own tag and round-tripping codecs returns the typed result; another tag gets the registered id. |
| Bugic.PlugHostCallIgnoresTag | bugic/crates/bugic/tests/hello.rs:4-21 | A `host_plug` function returns the typed result whatever tag the caller passes. |

## Left out

- Wasmtime (engine, linker, module compilation, `Store`): a compiled module is its typed import list, its typed function exports and its memory exports. Instantiation fails exactly when an import other than `bugi@v0.call_univ` at the host function's type `(u32, u32) -> (u32, u32)` is present. Start functions and their traps are not modelled.
- Guest code: the guest allocator, deallocator and wrapper have unknown results and effects on memory. The model leaves them open and records each call as an event. The guest-side runtime and proc macros (`bugi-pdk`, `bugi-wasm-pdk*`, `bugi_macro`) are not part of this model.
- The MessagePack and bitcode codecs and the `rmpv` reader are function parameters. `SerializeError` payloads from those libraries are kept only as text.
- Locks (`RwLock`, `Mutex`, `Rc<RefCell<…>>`) and threads: the model is single-threaded.
- I/O: `WasmPlugin::load` reads a file, and the CLI reads its input and prints. The model starts from the parsed payloads and returns the result.
- Error text that embeds a foreign error (wasmtime's `{err}`, `{:?}`): only the fixed part of each message is kept, and some messages are reduced to their variant.
- `Box<dyn Any>` cache data: a type name and an abstract payload. A downcast succeeds when the type name matches, and the stored store is counted by its number of instances.
- The SDK caches' `get_store`, `get_univ` and `symbol_desc`, and the rest of bugi-sdk and bugi_sdk (universe, module, hostfunc): they depend on wasmtime stores and are not part of this model.
- bugi/crate/bugi-wasm/src/lib.rs, an older copy of the WebAssembly plugin, is not part of this model.
- Registry.Register: requires `next_id + 1` to fit in u32 when a plugin is admitted. The overflow, a panic in debug builds, is not modelled. The same holds for Bugic.Add.
- SdkDropCacher.PluginCacher.IncDropTime: requires the counter below `u32::MAX`. The overflow, a panic in debug builds and a wrap in release builds, is not modelled.
- BugicHost.RawCall: the closure's `unwrap` of its decoder and encoder is a precondition, not a modelled panic. The same holds for BugicHostPlug.RawCall and Bugic.PluginRef.Call.
- Wasm.StrId: the missing section or invalid UTF-8, where the source panics, is a precondition.
- Wasm.RawCall: a cached store that fails to downcast, where the source panics, is a precondition. The store is modelled only by its instance count.
- Wasm.CallUnivBridge: each failure, which in the source is a panic of the host function, is an `Err` with a message.
- Bugi.Universe.CallRawId: the unwrap on an unknown id is a precondition.
- Bugi.PluginRef.CallWithPloxy: the source's tag parameter is u8 in `Plugin::call_raw` and `Universe::call_raw` but u64 in bugi-core. The model uses u64 throughout.
- Plugins.CallRaw: a WebAssembly plugin's answer is the function parameter `guest`. It is pure and total, has no effect on the shared Cacher, and no contract links it to Wasm.RawCall. Every property of Bugi calls on WebAssembly plugins therefore holds for any such function. Guest code changing the cache during a call is not captured, and neither is the ordering of guest effects, which Wasm.RawCall models on its own.
- Plugins.CallRaw: bugi-host's `raw_call` returns an extra cache slot that the core trait lacks. The plugin-level call drops it, since it is always empty.

## Code and design differences

The model follows the code where it differs from the design.

- **PluginRef `self`.** `PluginRef::call` builds a router without a `self` case, so `"self"` is looked up as an ordinary string id (`Bugi.PlainRouterHasNoSelf`). Only the Overrider's router resolves `self`. The test at bugi/crate/bugi-tests/src/lib.rs:61-79 expects a `self` case on plain calls.
- **Rooting of `self`.** The Overrider's router resolves `self` to the plugin wrapped by `wrap_call`, not to the plugin currently running. A nested call passes the caller's own context along (`EnvPloxy(self.0.clone())`), so at every nesting level `self` names the top-level plugin.
- **What the cache reuses.** The WebAssembly plugin caches the `Store`, not the instance. Every call instantiates the module anew into the cached store.
- **Bridge failures.** Failures inside the `call_univ` bridge panic rather than returning `PluginCallError`.
- **The bugic crate is internally inconsistent.**
  - Its own error enum carries a two-byte `PluginAbiError`. That enum is identified here with bugic-core's one-byte one, which is the only form the modelled code builds.
  - `host_plug`'s `raw_call` takes no tag, so its plugins are called with no tag check.
  - `add_host_plugin` calls a `Plugin::make_host` that does not exist; it is modelled as `make_plugin`.
  - The two-tag `call` that the test at bugic/crates/bugic/tests/hello.rs expects does not exist; `Bugic.PlugHostCallIgnoresTag` models that test with the one-tag `call`.
- **Wrapper return type.** The export macro declares each wrapper as returning the pair `(ptr, len)` of two u32 values (bugi/bugi-wasm-pdk-macro2/src/export_m.rs:65-80). The host looks the wrapper up as returning one u64 (bugi/bugi-wasm/src/lib.rs:219-229) and unpacks it as `(ptr << 32) | len`. Against that guest the typed lookup fails. The model follows the host: a module whose wrapper has another type fails to link with "Symbol get error", and `Pack` is the inverse of the host's unpacking.
- **Host closures and the context.** The tests register host closures that take a second context argument and call `call_univ` through it (bugi/crate/bugi-tests/src/lib.rs:10, 45). `host_func` passes no context to the closures (bugi/crate/bugi-host/src/lib.rs:20-33). `Bugi.OverrideMultiplies` therefore models only the nested request of the override test. It does not model the outer `wrap_call` of the host function "test".
- **The Overrider's call into the plugin.** `wrap_call_inner` ends with `pref.call_with_ploxy(sym, param, ploxy)` (bugi/crate/bugi/src/override.rs:81). bugi/crate/bugi/src/plugin.rs defines no such method: `PluginRef` has only `call` (lines 57-80) and `call_cache` (lines 83-108). `wrap_call_inner` also reads `PluginRef`'s private fields `univ_ref` and `id` (override.rs:50-52; plugin.rs:40-48), which another module of the crate cannot reach. The model assumes `call_with_ploxy` does what `call` and `call_cache` do, but with the context it is handed. It upgrades the weak plugin reference, failing with `PluginDropped`, then encodes the parameters with the tag, calls the plugin's `raw_call` with that context, and decodes the reply (`Bugi.PluginRef.CallWithPloxy`).
