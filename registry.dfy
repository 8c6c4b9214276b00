/**
 * The registry inside a Universe (bugi/crate/bugi/src/lib.rs): plugins by numeric id,
 * numeric ids by string id, and the next id to hand out.
 */
module Registry {
  import opened Wrappers
  import opened Core
  import opened Plugins

  /** Exclusive bound of `PluginId` (u32). */
  const ID_LIMIT: int := 0x1_0000_0000

  datatype RegistryState = RegistryState(plugins: map<PluginId, Plugin>, strIds: map<string, PluginId>, nextId: PluginId)

  /**
   * Every handed-out id is below `nextId`, and the two maps are inverse to each
   * other through each plugin's own string id.
   */
  ghost predicate Valid(st: RegistryState) {
    && (forall id :: id in st.plugins ==> id < st.nextId)
    && (forall s :: s in st.strIds ==> st.strIds[s] in st.plugins && st.plugins[st.strIds[s]].strId == s)
    && (forall id :: id in st.plugins ==> st.plugins[id].strId in st.strIds && st.strIds[st.plugins[id].strId] == id)
  }

  /** `Universe::new`. */
  function Empty(): (st: RegistryState)
    ensures Valid(st) && st.plugins == map[] && st.strIds == map[]
  {
    RegistryState(map[], map[], 0)
  }

  /** The precondition that keeps `next_id += 1` from overflowing u32 when a new plugin is admitted. */
  predicate CanRegister(st: RegistryState, p: Plugin) {
    p.strId !in st.strIds ==> st.nextId + 1 < ID_LIMIT
  }

  /** `add_plugin_raw`: a taken string id is refused and nothing changes; otherwise the plugin gets `nextId`. */
  function Register(st: RegistryState, p: Plugin): (r: (RegistryState, Result<PluginId, BugiError>))
    requires CanRegister(st, p)
    ensures p.strId in st.strIds ==> r == (st, Err(PluginIdExists(p.strId)))
    ensures p.strId !in st.strIds ==> r.1 == Ok(st.nextId) && r.0.nextId == st.nextId + 1
  {
    if p.strId in st.strIds then (st, Err(PluginIdExists(p.strId)))
    else
      var id := st.nextId;
      (RegistryState(st.plugins[id := p], st.strIds[p.strId := id], id + 1), Ok(id))
  }

  /** The lookup `call_raw` makes. */
  function Resolve(st: RegistryState, strId: string): (r: Result<PluginId, BugiError>)
    ensures r.Ok? <==> strId in st.strIds
    ensures r.Ok? ==> r.value == st.strIds[strId]
    ensures r.Err? ==> r.error == PluginNotFound(strId)
  {
    if strId in st.strIds then Ok(st.strIds[strId]) else Err(PluginNotFound(strId))
  }

  /** Registration keeps the registry consistent. */
  lemma RegisterValid(st: RegistryState, p: Plugin)
    requires Valid(st) && CanRegister(st, p)
    ensures Valid(Register(st, p).0)
  {
    if p.strId !in st.strIds {
      var st' := Register(st, p).0;
      forall s | s in st'.strIds ensures st'.strIds[s] in st'.plugins && st'.plugins[st'.strIds[s]].strId == s {
        if s != p.strId {
          assert st.strIds[s] < st.nextId;
        }
      }
      forall id | id in st'.plugins ensures st'.plugins[id].strId in st'.strIds && st'.strIds[st'.plugins[id].strId] == id {
        if id != st.nextId {
          assert st.plugins[id].strId != p.strId;
        }
      }
    }
  }

  /**
   * A successful registration hands out an id never handed out before and larger than
   * all of them, keeps every earlier registration, and makes the new string id
   * resolve to the new plugin.
   */
  lemma RegisterFresh(st: RegistryState, p: Plugin)
    requires Valid(st) && CanRegister(st, p) && p.strId !in st.strIds
    ensures var (st', r) := Register(st, p);
      r.Ok? && r.value !in st.plugins && (forall id :: id in st.plugins ==> id < r.value) &&
      Resolve(st', p.strId) == Ok(r.value) && st'.plugins[r.value] == p &&
      st'.plugins.Keys == st.plugins.Keys + {r.value} && st'.strIds.Keys == st.strIds.Keys + {p.strId} &&
      (forall s :: s in st.strIds ==> Resolve(st', s) == Resolve(st, s) && st'.plugins[st.strIds[s]] == st.plugins[st.strIds[s]])
  {
    forall s | s in st.strIds ensures st.strIds[s] != st.nextId {
      assert st.strIds[s] in st.plugins;
    }
  }

  /** Each string id resolves to one plugin and different string ids to different plugins. */
  lemma ResolveInjective(st: RegistryState, a: string, b: string)
    requires Valid(st) && a in st.strIds && b in st.strIds && a != b
    ensures st.strIds[a] != st.strIds[b]
  {
    assert st.plugins[st.strIds[a]].strId == a;
  }

  /** Registers a sequence of plugins in order; the first refusal is reported with the state reached so far. */
  function RegisterAll(st: RegistryState, ps: seq<Plugin>): (r: (RegistryState, seq<PluginId>, Option<BugiError>))
    requires Valid(st) && st.nextId + |ps| < ID_LIMIT
    ensures Valid(r.0)
    ensures r.2.None? ==> |r.1| == |ps|
    decreases |ps|
  {
    if |ps| == 0 then (st, [], None)
    else
      RegisterValid(st, ps[0]);
      match Register(st, ps[0])
      case (st', Err(e)) => (st', [], Some(e))
      case (st', Ok(id)) =>
        var (st'', ids, err) := RegisterAll(st', ps[1..]);
        (st'', [id] + ids, err)
  }

  /** The ids handed out to successive registrations are strictly increasing, and each is at least the old `nextId`. */
  lemma {:induction false} RegisterAllIncreasing(st: RegistryState, ps: seq<Plugin>)
    requires Valid(st) && st.nextId + |ps| < ID_LIMIT
    ensures var ids := RegisterAll(st, ps).1;
      (forall i :: 0 <= i < |ids| ==> st.nextId <= ids[i]) &&
      (forall i, j :: 0 <= i < j < |ids| ==> ids[i] < ids[j])
    decreases |ps|
  {
    if |ps| > 0 {
      RegisterValid(st, ps[0]);
      var (st', r) := Register(st, ps[0]);
      if r.Ok? {
        RegisterAllIncreasing(st', ps[1..]);
        assert var ids := RegisterAll(st', ps[1..]).1; (forall i :: 0 <= i < |ids| ==> st'.nextId <= ids[i]);
        var rest := RegisterAll(st', ps[1..]).1;
        assert RegisterAll(st, ps).1 == [r.value] + rest;
        assert st'.nextId == st.nextId + 1 && r.value == st.nextId;
        var ids := RegisterAll(st, ps).1;
        forall i | 0 <= i < |ids| ensures st.nextId <= ids[i] {
          if i > 0 { assert ids[i] == rest[i - 1]; }
        }
        forall i, j | 0 <= i < j < |ids| ensures ids[i] < ids[j] {
          assert ids[j] == rest[j - 1];
          if i > 0 { assert ids[i] == rest[i - 1]; }
        }
      }
    }
  }
}
