/**
 * The per-call instance cache of bugi-sdk (bugi/crates/bugi-sdk/src/cacher.rs):
 * a map from plugin id to a shared, reference-counted plugin instance.
 * The lock around it is left out: the model is single-threaded.
 */
module SdkCacher {
  import opened Wrappers
  import opened InstanceMap

  /** `PluginID` is a u32. */
  type PluginID = n: nat | n < 0x1_0000_0000

  /** A handle standing for a `wasmtime::Instance`, whose insides are not modelled. */
  datatype WasmInstance = WasmInstance(handle: nat)

  /** `Arc<PluginInstance>`: a shared object, so the identity of the reference matters. */
  class PluginInstance {
    const ins: WasmInstance

    constructor(ins: WasmInstance)
      ensures this.ins == ins
    {
      this.ins := ins;
    }
  }

  class PluginCacher {
    var ins: map<PluginID, PluginInstance>

    /** `new`: no instance is cached yet. */
    constructor()
      ensures ins == map[]
    {
      ins := map[];
    }

    /** `add_ins`: wraps the instance in a new shared object stored under `id`, replacing any earlier one. */
    method AddIns(id: PluginID, w: WasmInstance)
      modifies this
      ensures id in ins && fresh(ins[id]) && ins[id].ins == w
      ensures ins == old(ins)[id := ins[id]]
    {
      var p := new PluginInstance(w);
      ins := ins[id := p];
    }

    /** `get_ins`: the shared object stored under `id`, if any; the cache is only read. */
    method GetIns(id: PluginID) returns (r: Option<PluginInstance>)
      ensures r.Some? <==> id in ins
      ensures r.Some? ==> r.value == ins[id]
    {
      if id in ins {
        r := Some(ins[id]);
      } else {
        r := None;
      }
    }

    /**
     * `get_or_add_ins`: the factory `make` runs only when nothing is cached under
     * `id`; its instance is then stored and handed back as one shared object.
     */
    method GetOrAddIns(id: PluginID, make: () -> WasmInstance) returns (r: PluginInstance, ghost called: bool)
      modifies this
      ensures called <==> id !in old(ins)
      ensures called ==> fresh(r) && r.ins == make()
      ensures (ins, r) == GetOrAdd(old(ins), id, r)
    {
      if id !in ins {
        called := true;
        r := new PluginInstance(make());
        ins := ins[id := r];
      } else {
        called := false;
        r := ins[id];
      }
    }
  }

  /** Two `get_or_add_ins` calls for the same id: the second reuses the first's object and runs no factory. */
  method GetOrAddTwice(c: PluginCacher, id: PluginID, make: () -> WasmInstance, makeAgain: () -> WasmInstance)
    returns (first: PluginInstance, second: PluginInstance)
    modifies c
    ensures second == first && id in c.ins && c.ins[id] == first
    ensures id in old(c.ins) ==> c.ins == old(c.ins) && first == old(c.ins)[id]
  {
    ghost var called;
    first, called := c.GetOrAddIns(id, make);
    GetOrAddStores(old(c.ins), id, first);
    var m := c.ins;
    second, called := c.GetOrAddIns(id, makeAgain);
    assert !called;
    GetOrAddPresent(m, id, second);
  }
}
