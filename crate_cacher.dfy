/**
 * The single-namespace Cacher of bugi/crate/bugi/src/cacher.rs: one map from
 * plugin id to an opaque value, where a read takes the value out.
 */
module CrateCacher {
  import opened Wrappers
  import opened KeyedStore
  import opened Core

  class Cacher {
    var cache: map<PluginId, CacheData>

    constructor ()
      ensures cache == map[]
    {
      cache := map[];
    }

    method Pop(id: PluginId) returns (r: Option<CacheData>)
      modifies this
      ensures (r, cache) == Take(old(cache), id)
    {
      r := if id in cache then Some(cache[id]) else None;
      cache := cache - {id};
    }

    method Push(id: PluginId, data: CacheData)
      modifies this
      ensures cache == old(cache)[id := data]
    {
      cache := cache[id := data];
    }
  }

  /** Client view: what is pushed is popped back once, and only once. */
  method PushPopOnce(c: Cacher, id: PluginId, data: CacheData) returns (first: Option<CacheData>, second: Option<CacheData>)
    modifies c
    ensures first == Some(data) && second == None
    ensures c.cache == old(c.cache) - {id}
  {
    c.Push(id, data);
    first := c.Pop(id);
    second := c.Pop(id);
    assert old(c.cache)[id := data] - {id} == old(c.cache) - {id};
  }
}
