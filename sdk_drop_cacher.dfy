/**
 * The instance cache of bugi_sdk (bugi/crates/bugi_sdk/src/cacher.rs): the same
 * instance map as bugi-sdk plus a drop-time counter that tells when the cache has
 * been used often enough to be thrown away. The lock is left out.
 */
module SdkDropCacher {
  import opened Wrappers
  import opened InstanceMap
  import opened SdkCacher

  /** Exclusive bound of u32. */
  const U32_LIMIT: int := 0x1_0000_0000

  type U32 = n: nat | n < U32_LIMIT

  /** Whether a counter at `now` has reached the limit `max`; without a limit it never has. */
  predicate DropDue(max: Option<U32>, now: nat) {
    max.Some? && now >= max.value
  }

  class PluginCacher {
    var ins: map<PluginID, PluginInstance>
    const maxDropTime: Option<U32>
    var nowDropTime: U32

    /** `new`: no instance cached, the counter at 0, and the given limit. */
    constructor(maxDropTime: Option<U32>)
      ensures ins == map[] && this.maxDropTime == maxDropTime && nowDropTime == 0
    {
      ins := map[];
      this.maxDropTime := maxDropTime;
      nowDropTime := 0;
    }

    /** `add_ins`: wraps the instance in a new shared object stored under `id`, replacing any earlier one. */
    method AddIns(id: PluginID, w: WasmInstance)
      modifies this
      ensures id in ins && fresh(ins[id]) && ins[id].ins == w
      ensures ins == old(ins)[id := ins[id]] && nowDropTime == old(nowDropTime)
    {
      var p := new PluginInstance(w);
      ins := ins[id := p];
    }

    /** `get_ins`: the shared object stored under `id`, if any; nothing is changed. */
    method GetIns(id: PluginID) returns (r: Option<PluginInstance>)
      ensures r.Some? <==> id in ins
      ensures r.Some? ==> r.value == ins[id]
    {
      if id in ins {
        r := Some(ins[id]);
      } else {
        r := None;
      }
    }

    /** `get_or_add_ins`: the factory runs only for a vacant id, and its instance is stored and handed back. */
    method GetOrAddIns(id: PluginID, make: () -> WasmInstance) returns (r: PluginInstance, ghost called: bool)
      modifies this
      ensures called <==> id !in old(ins)
      ensures called ==> fresh(r) && r.ins == make()
      ensures (ins, r) == GetOrAdd(old(ins), id, r) && nowDropTime == old(nowDropTime)
    {
      if id !in ins {
        called := true;
        r := new PluginInstance(make());
        ins := ins[id := r];
      } else {
        called := false;
        r := ins[id];
      }
    }

    /** `inc_drop_time`: the counter goes up by exactly one; the instances are untouched. */
    method IncDropTime()
      requires nowDropTime + 1 < U32_LIMIT
      modifies this
      ensures nowDropTime == old(nowDropTime) + 1 && ins == old(ins)
      ensures old(CheckDropTime()) ==> CheckDropTime()
    {
      nowDropTime := nowDropTime + 1;
    }

    /** `check_drop_time`: whether this cache has been used at least its limit of times. */
    predicate CheckDropTime(): (due: bool)
      reads this
      ensures maxDropTime.None? ==> !due
      ensures maxDropTime.Some? ==> (due <==> nowDropTime >= maxDropTime.value)
    {
      DropDue(maxDropTime, nowDropTime)
    }
  }

  /** Once the limit is reached it stays reached as the counter grows. */
  lemma DropDueMonotone(max: Option<U32>, now: nat, later: nat)
    requires DropDue(max, now) && now <= later
    ensures DropDue(max, later)
  {
  }

  /**
   * A new cache with limit `max`, after `n` calls of `inc_drop_time`: it is due for
   * dropping exactly when there is a limit and `n` has reached it. No instance is
   * cached along the way.
   */
  method DropDueAfterIncrements(max: Option<U32>, n: nat) returns (c: PluginCacher)
    requires n < U32_LIMIT
    ensures c.nowDropTime == n && c.ins == map[]
    ensures c.CheckDropTime() <==> max.Some? && n >= max.value
  {
    c := new PluginCacher(max);
    var i := 0;
    while i < n
      invariant 0 <= i <= n
      invariant c.nowDropTime == i && c.maxDropTime == max && c.ins == map[]
    {
      c.IncDropTime();
      i := i + 1;
    }
  }
}
