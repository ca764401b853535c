/** Config resolution: the agent catalog, per-organization overrides and the
    effective configuration obtained by layering an override on a catalog row
    (supabase/functions/mcp-supabase/index.ts, `listAgents` and `getAgentConfig`). */
module Agents {
  import opened Wrappers

  /** The members of the `AgentKey` union type. */
  const AgentKeys: seq<string> :=
    ["prazos", "pesquisa", "peca", "contrato", "traducao", "evidencias", "audiencia"]

  /** The agent whose output is structured data and is never stored as an artifact. */
  const DeadlinesKey: string := "prazos"

  const DefaultModel: string := "gpt-5"
  const DefaultTemperature: real := 0.1

  /** The `default_params` JSON column of a catalog row. */
  datatype DefaultParams = DefaultParams(temperature: Option<real>, maxTokens: Option<int>)

  /** A row of `agent_catalog` as selected by `listAgents`; every nullable column is an Option. */
  datatype CatalogRow = CatalogRow(
    key: string,
    name: string,
    defaultEnabled: Option<bool>,
    defaultModel: Option<string>,
    defaultParams: Option<DefaultParams>,
    systemPrompt: Option<string>)

  /** The overriding columns of an `agent_overrides` row; the (org, agent key) pair is
      the key under which the store keeps it. Temperature is an integer column. */
  datatype Override = Override(
    enabled: Option<bool>,
    model: Option<string>,
    temperature: Option<int>,
    maxTokens: Option<int>,
    systemPrompt: Option<string>)

  /** A freshly inserted override row: every overriding column is null. */
  const NoOverride: Override := Override(None, None, None, None, None)

  /** The effective configuration of one agent for one organization. */
  datatype AgentConfig = AgentConfig(
    key: string,
    name: string,
    enabled: bool,
    model: string,
    temperature: real,
    maxTokens: Option<int>,
    systemPrompt: Option<string>)

  /** Catalog keys are unique (the `unique()` constraint on `agent_catalog.key`). */
  predicate UniqueKeys(catalog: seq<CatalogRow>) {
    forall i, j :: 0 <= i < j < |catalog| ==> catalog[i].key != catalog[j].key
  }

  function CatalogKeys(catalog: seq<CatalogRow>): (ks: seq<string>)
    ensures |ks| == |catalog| && forall i :: 0 <= i < |catalog| ==> ks[i] == catalog[i].key
  {
    seq(|catalog|, i requires 0 <= i < |catalog| => catalog[i].key)
  }

  function ParamTemperature(p: Option<DefaultParams>): Option<real> {
    if p.Some? then p.value.temperature else None
  }

  function ParamMaxTokens(p: Option<DefaultParams>): Option<int> {
    if p.Some? then p.value.maxTokens else None
  }

  function IntAsReal(t: Option<int>): Option<real> {
    if t.Some? then Some(t.value as real) else None
  }

  /** The entry the first loop of `listAgents` seeds for a catalog row. */
  function Base(row: CatalogRow): (c: AgentConfig)
    ensures c.key == row.key && c.name == row.name
    ensures c.enabled == (row.defaultEnabled.None? || row.defaultEnabled.value)
    ensures row.defaultModel.None? ==> c.model == DefaultModel
    ensures row.defaultModel.Some? ==> c.model == row.defaultModel.value
    ensures ParamTemperature(row.defaultParams).None? ==> c.temperature == DefaultTemperature
    ensures ParamTemperature(row.defaultParams).Some? ==> c.temperature == ParamTemperature(row.defaultParams).value
    ensures c.maxTokens == ParamMaxTokens(row.defaultParams) && c.systemPrompt == row.systemPrompt
  {
    AgentConfig(
      row.key,
      row.name,
      row.defaultEnabled.GetOr(true),
      row.defaultModel.GetOr(DefaultModel),
      ParamTemperature(row.defaultParams).GetOr(DefaultTemperature),
      ParamMaxTokens(row.defaultParams),
      row.systemPrompt)
  }

  /** The entry the second loop of `listAgents` stores for an override on top of `base`. */
  function Layer(base: AgentConfig, o: Override): (c: AgentConfig)
    ensures c.key == base.key && c.name == base.name
    ensures o.enabled.Some? ==> c.enabled == o.enabled.value
    ensures o.model.Some? ==> c.model == o.model.value
    ensures o.temperature.Some? ==> c.temperature == o.temperature.value as real
    ensures o.maxTokens.Some? ==> c.maxTokens == o.maxTokens
    ensures o.systemPrompt.Some? ==> c.systemPrompt == o.systemPrompt
    ensures o.enabled.None? && o.model.None? && o.temperature.None? && o.maxTokens.None? && o.systemPrompt.None? ==> c == base
  {
    base.(
      enabled := o.enabled.GetOr(base.enabled),
      model := o.model.GetOr(base.model),
      temperature := IntAsReal(o.temperature).GetOr(base.temperature),
      maxTokens := o.maxTokens.OrElse(base.maxTokens),
      systemPrompt := o.systemPrompt.OrElse(base.systemPrompt))
  }

  /** The configuration of one catalog row under the organization's overrides. */
  function Effective(row: CatalogRow, ovs: map<string, Override>): (c: AgentConfig)
    ensures c.key == row.key && c.name == row.name
    ensures row.key !in ovs ==> c == Base(row)
  {
    if row.key in ovs then Layer(Base(row), ovs[row.key]) else Base(row)
  }

  /** What `listAgents` returns: one configuration per catalog row, in catalog order. */
  function Resolve(catalog: seq<CatalogRow>, ovs: map<string, Override>): (r: seq<AgentConfig>)
    ensures |r| == |catalog|
    ensures forall i :: 0 <= i < |catalog| ==> r[i].key == catalog[i].key && r[i].name == catalog[i].name
    ensures forall i :: 0 <= i < |catalog| && catalog[i].key !in ovs ==> r[i] == Base(catalog[i])
  {
    seq(|catalog|, i requires 0 <= i < |catalog| => Effective(catalog[i], ovs))
  }

  /** `list.find((a) => a.key === key) ?? null`: the first configuration with that key. */
  function FindConfig(list: seq<AgentConfig>, key: string): (r: Option<AgentConfig>)
    ensures r.None? <==> forall i :: 0 <= i < |list| ==> list[i].key != key
    ensures r.Some? ==> exists i :: 0 <= i < |list| && list[i] == r.value && r.value.key == key
                                    && forall j :: 0 <= j < i ==> list[j].key != key
  {
    if |list| == 0 then None
    else if list[0].key == key then Some(list[0])
    else
      var r := FindConfig(list[1..], key);
      if r.Some? then
        ghost var i :| 0 <= i < |list[1..]| && list[1..][i] == r.value && r.value.key == key
                       && forall j :: 0 <= j < i ==> list[1..][j].key != key;
        assert list[i + 1] == r.value;
        r
      else r
  }

  /** The overrides of one organization, keyed by agent key (the `.eq("org_id", orgId)` query). */
  function OrgOverrides(overrides: map<(string, string), Override>, org: string): (ovs: map<string, Override>)
    ensures forall k :: k in ovs <==> (org, k) in overrides
    ensures forall k :: k in ovs ==> ovs[k] == overrides[(org, k)]
    ensures forall k :: MapGet(ovs, k) == MapGet(overrides, (org, k))
  {
    var keys := set p | p in overrides && p.0 == org :: p.1;
    map k | k in keys :: overrides[(org, k)]
  }

  /** What `getAgentConfig(org, key)` answers on the given catalog and override tables. */
  function ConfigOf(catalog: seq<CatalogRow>, overrides: map<(string, string), Override>, org: string, key: string)
    : (r: Option<AgentConfig>)
    ensures r.None? <==> key !in CatalogKeys(catalog)
    ensures r.Some? ==> r.value.key == key
  {
    FindConfig(Resolve(catalog, OrgOverrides(overrides, org)), key)
  }

  /** The override row after `toggleAgent`'s upsert of `{org_id, agent_key, enabled}`:
      the other columns of an existing row are kept, those of a new row are null. */
  function UpsertEnabled(existing: Option<Override>, enabled: bool): (o: Override)
    ensures o.enabled == Some(enabled)
    ensures existing.Some? ==> o == existing.value.(enabled := Some(enabled))
    ensures existing.None? ==> o.model.None? && o.temperature.None? && o.maxTokens.None? && o.systemPrompt.None?
  {
    existing.GetOr(NoOverride).(enabled := Some(enabled))
  }

  // ---------------------------------------------------------------------------
  // Laws of resolution
  // ---------------------------------------------------------------------------

  /** The first present value of a `a ?? b ?? ...` chain. */
  function FirstPresent<T>(chain: seq<Option<T>>): Option<T> {
    if |chain| == 0 then None else if chain[0].Some? then chain[0] else FirstPresent(chain[1..])
  }

  /** The value of a `a ?? b ?? ... ?? d` chain. */
  function Coalesce<T>(chain: seq<Option<T>>, d: T): T {
    FirstPresent(chain).GetOr(d)
  }

  /** Every field of the effective configuration is the override's value when it is
      not null, else the catalog's value, else the hard default. */
  lemma EffectiveFields(row: CatalogRow, ovs: map<string, Override>)
    ensures var c := Effective(row, ovs);
            var o := if row.key in ovs then ovs[row.key] else NoOverride;
            && c.key == row.key && c.name == row.name
            && c.enabled == Coalesce([o.enabled, row.defaultEnabled], true)
            && c.model == Coalesce([o.model, row.defaultModel], DefaultModel)
            && c.temperature == Coalesce([IntAsReal(o.temperature), ParamTemperature(row.defaultParams)], DefaultTemperature)
            && c.maxTokens == FirstPresent([o.maxTokens, ParamMaxTokens(row.defaultParams)])
            && c.systemPrompt == FirstPresent([o.systemPrompt, row.systemPrompt])
  {
    var o := if row.key in ovs then ovs[row.key] else NoOverride;
    FirstPresentPair(o.enabled, row.defaultEnabled);
    FirstPresentPair(o.model, row.defaultModel);
    FirstPresentPair(IntAsReal(o.temperature), ParamTemperature(row.defaultParams));
    FirstPresentPair(o.maxTokens, ParamMaxTokens(row.defaultParams));
    FirstPresentPair(o.systemPrompt, row.systemPrompt);
  }

  lemma FirstPresentPair<T>(a: Option<T>, b: Option<T>)
    ensures FirstPresent([a, b]) == if a.Some? then a else b
  {
    assert [a, b][1..] == [b];
    assert [b][1..] == [];
    assert FirstPresent([b]) == b by {
      assert FirstPresent([b][1..]) == None;
    }
  }

  /** An override whose columns are all null changes nothing. */
  lemma NullOverrideIsNeutral(base: AgentConfig)
    ensures Layer(base, NoOverride) == base
  {
  }

  /** Layering is idempotent: resolving again with the same override gives the same config. */
  lemma LayerIdempotent(base: AgentConfig, o: Override)
    ensures Layer(Layer(base, o), o) == Layer(base, o)
  {
  }

  /** An override for a key the catalog lacks cannot change the resolved list. */
  lemma ForeignOverrideIgnored(catalog: seq<CatalogRow>, ovs: map<string, Override>, k: string, o: Override)
    requires k !in CatalogKeys(catalog)
    ensures Resolve(catalog, ovs[k := o]) == Resolve(catalog, ovs)
  {
    var a, b := Resolve(catalog, ovs[k := o]), Resolve(catalog, ovs);
    forall i | 0 <= i < |catalog| ensures a[i] == b[i] {
      assert CatalogKeys(catalog)[i] == catalog[i].key;
    }
  }

  /** `getAgentConfig` finds a configuration exactly for the catalog keys, and for a
      catalog key it is that row's effective configuration. */
  lemma LookupResolved(catalog: seq<CatalogRow>, ovs: map<string, Override>, key: string)
    requires UniqueKeys(catalog)
    ensures FindConfig(Resolve(catalog, ovs), key).None? <==> key !in CatalogKeys(catalog)
    ensures forall i :: 0 <= i < |catalog| && catalog[i].key == key ==>
              FindConfig(Resolve(catalog, ovs), key) == Some(Effective(catalog[i], ovs))
  {
    var list := Resolve(catalog, ovs);
    var r := FindConfig(list, key);
    if key in CatalogKeys(catalog) {
      var i :| 0 <= i < |catalog| && CatalogKeys(catalog)[i] == key;
      assert list[i].key == key;
    } else {
      forall i | 0 <= i < |list| ensures list[i].key != key {
        assert CatalogKeys(catalog)[i] == catalog[i].key;
      }
    }
    forall i | 0 <= i < |catalog| && catalog[i].key == key
      ensures r == Some(Effective(catalog[i], ovs))
    {
      var j :| 0 <= j < |list| && list[j] == r.value && r.value.key == key
               && forall j' :: 0 <= j' < j ==> list[j'].key != key;
      assert catalog[j].key == list[j].key == key;
      assert list[i].key == key;
      assert j == i;
    }
  }

  /** Every catalog key yields exactly one configuration: the resolved list has the
      catalog's keys in the catalog's order, each once. */
  lemma OneConfigPerKey(catalog: seq<CatalogRow>, ovs: map<string, Override>)
    requires UniqueKeys(catalog)
    ensures var list := Resolve(catalog, ovs);
            && (forall i :: 0 <= i < |list| ==> list[i].key == CatalogKeys(catalog)[i])
            && (forall i, j :: 0 <= i < j < |list| ==> list[i].key != list[j].key)
  {
  }

  /** After a toggle, the resolved `enabled` is the toggled value. */
  lemma ToggleSetsEnabled(row: CatalogRow, ovs: map<string, Override>, enabled: bool)
    ensures var o := MapGet(ovs, row.key);
            Effective(row, ovs[row.key := UpsertEnabled(o, enabled)]).enabled == enabled
  {
  }

  /** A toggle changes the resolved configuration in its `enabled` field only. */
  lemma ToggleChangesOnlyEnabled(row: CatalogRow, ovs: map<string, Override>, enabled: bool)
    ensures var o := MapGet(ovs, row.key);
            var before := Effective(row, ovs);
            Effective(row, ovs[row.key := UpsertEnabled(o, enabled)]) == before.(enabled := enabled)
  {
  }

  /** The override table after `toggleAgent`'s upsert. */
  function ToggledOverrides(overrides: map<(string, string), Override>, org: string, key: string, enabled: bool)
    : (r: map<(string, string), Override>)
    ensures r.Keys == overrides.Keys + {(org, key)}
    ensures r[(org, key)].enabled == Some(enabled)
    ensures (org, key) in overrides ==> r[(org, key)] == overrides[(org, key)].(enabled := Some(enabled))
    ensures (org, key) !in overrides ==> r[(org, key)] == NoOverride.(enabled := Some(enabled))
    ensures forall k :: k in overrides && k != (org, key) ==> r[k] == overrides[k]
  {
    overrides[(org, key) := UpsertEnabled(MapGet(overrides, (org, key)), enabled)]
  }

  /** After the upsert, the key resolves exactly when it is in the catalog, and then to
      its previous configuration with `enabled` replaced by the toggled value. */
  lemma ToggleResolution(catalog: seq<CatalogRow>, overrides: map<(string, string), Override>, org: string, key: string,
                         enabled: bool)
    requires UniqueKeys(catalog)
    ensures var toggled := ConfigOf(catalog, ToggledOverrides(overrides, org, key, enabled), org, key);
            && (toggled.None? <==> key !in CatalogKeys(catalog))
            && (key in CatalogKeys(catalog) ==>
                  toggled == Some(ConfigOf(catalog, overrides, org, key).value.(enabled := enabled)))
  {
    var before := OrgOverrides(overrides, org);
    var row := UpsertEnabled(MapGet(overrides, (org, key)), enabled);
    var after := OrgOverrides(ToggledOverrides(overrides, org, key, enabled), org);
    assert after == before[key := row];
    LookupResolved(catalog, before, key);
    LookupResolved(catalog, after, key);
    if key in CatalogKeys(catalog) {
      var i :| 0 <= i < |catalog| && CatalogKeys(catalog)[i] == key;
      ToggleChangesOnlyEnabled(catalog[i], before, enabled);
    }
  }
}
