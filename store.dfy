/** The persisted store the edge function works on, with the operations of
    supabase/functions/mcp-supabase/index.ts that read and change it. */
module Store {
  import opened Wrappers
  import opened Text
  import opened Agents
  import opened Runs

  class Store {
    /** `agent_catalog` rows. */
    var catalog: seq<CatalogRow>
    /** `agent_overrides`, keyed by (org, agent key). */
    var overrides: map<(string, string), Override>
    /** `agent_runs`, in insertion order. */
    var runs: seq<AgentRun>
    /** `usage_counters`, keyed by (org, period). */
    var counters: map<(string, string), Counter>
    /** `audit_logs`, in insertion order. */
    var audit: seq<AuditEntry>
    /** Blob storage, keyed by (bucket, path). */
    var blobs: map<(string, string), Blob>
    /** The requests sent to the chat-completion provider, in order. */
    var providerCalls: seq<ChatRequest>
    /** The built-in system prompts by agent key, fixed at construction. */
    const prompts: seq<(string, string)>

    /** The database constraints the core relies on: unique catalog keys and run ids. */
    predicate Valid()
      reads this`catalog, this`runs
    {
      UniqueKeys(catalog) && UniqueRunIds(runs)
    }

    /** The prompt table is the built-in one of `runAgent`. */
    predicate HasBuiltInPrompts() {
      prompts == BuiltInPrompts
    }

    /** The tables a run writes, as one value. */
    function Tables(): Ledger
      reads this`runs, this`counters, this`audit, this`blobs, this`providerCalls
    {
      Ledger(runs, counters, audit, blobs, providerCalls)
    }

    /** The effective configuration `getAgentConfig` answers for (org, key). */
    function Config(org: string, key: string): Option<AgentConfig>
      reads this`catalog, this`overrides
    {
      ConfigOf(catalog, overrides, org, key)
    }

    constructor (catalog: seq<CatalogRow>)
      requires UniqueKeys(catalog)
      ensures Valid()
      ensures this.catalog == catalog && overrides == map[] && runs == [] && counters == map[]
      ensures audit == [] && blobs == map[] && providerCalls == []
      ensures HasBuiltInPrompts()
    {
      prompts := BuiltInPrompts;
      this.catalog := catalog;
      overrides := map[];
      runs := [];
      counters := map[];
      audit := [];
      blobs := map[];
      providerCalls := [];
    }

    /** `listAgents`: seed a map from the catalog, then layer the organization's overrides. */
    method ListAgents(orgId: string) returns (list: seq<AgentConfig>)
      requires Valid()
      ensures list == Resolve(catalog, OrgOverrides(overrides, orgId))
    {
      var ovs := OrgOverrides(overrides, orgId);
      var m: map<string, AgentConfig> := map[];
      var order: seq<string> := [];   // the map's insertion order
      for i := 0 to |catalog|
        invariant order == CatalogKeys(catalog[..i])
        invariant forall k :: k in m <==> k in order
        invariant forall j :: 0 <= j < i ==> m[catalog[j].key] == Base(catalog[j])
      {
        var row := catalog[i];
        assert row.key !in m;  // catalog keys are unique, so every row adds a new entry
        assert CatalogKeys(catalog[..i + 1]) == CatalogKeys(catalog[..i]) + [row.key];
        order := order + [row.key];
        m := m[row.key := Base(row)];
      }
      assert catalog[..|catalog|] == catalog;
      var pending := ovs.Keys;
      while pending != {}
        invariant pending <= ovs.Keys
        invariant forall k :: k in m <==> k in order
        invariant forall j :: 0 <= j < |catalog| ==>
          m[catalog[j].key] == if catalog[j].key in ovs && catalog[j].key !in pending
                               then Layer(Base(catalog[j]), ovs[catalog[j].key]) else Base(catalog[j])
        decreases pending
      {
        var k :| k in pending;
        if k in m {   // an override whose key is not in the catalog is skipped
          m := m[k := Layer(m[k], ovs[k])];
        }
        pending := pending - {k};
      }
      list := seq(|order|, i requires 0 <= i < |order| => m[order[i]]);
    }

    /** `getAgentConfig`: the configuration of the key, or None when the catalog lacks it. */
    method GetAgentConfig(orgId: string, agentKey: string) returns (cfg: Option<AgentConfig>)
      requires Valid()
      ensures cfg == Config(orgId, agentKey)
      ensures cfg.None? <==> agentKey !in CatalogKeys(catalog)
      ensures forall i :: 0 <= i < |catalog| && catalog[i].key == agentKey ==>
                cfg == Some(Effective(catalog[i], OrgOverrides(overrides, orgId)))
    {
      var list := ListAgents(orgId);
      cfg := FindConfig(list, agentKey);
      LookupResolved(catalog, OrgOverrides(overrides, orgId), agentKey);
    }

    /** `toggleAgent`: upsert the override's `enabled` column, then resolve again. */
    method ToggleAgent(orgId: string, agentKey: string, enabled: bool) returns (r: Result<AgentConfig, Error>)
      requires Valid()
      modifies this`overrides
      ensures Valid()
      ensures overrides == ToggledOverrides(old(overrides), orgId, agentKey, enabled)
      ensures r.Err? <==> agentKey !in CatalogKeys(catalog)
      ensures r.Err? ==> r.error == ConfigNotFoundAfterToggle
      ensures r.Err? <==> Config(orgId, agentKey).None?
      ensures r.Ok? ==> Config(orgId, agentKey) == Some(r.value)
      ensures r.Ok? ==> r.value.enabled == enabled
      ensures r.Ok? ==> r.value == old(Config(orgId, agentKey)).value.(enabled := enabled)
    {
      ToggleResolution(catalog, overrides, orgId, agentKey, enabled);
      overrides := ToggledOverrides(overrides, orgId, agentKey, enabled);
      var cfg := GetAgentConfig(orgId, agentKey);
      if cfg.None? {
        return Err(ConfigNotFoundAfterToggle);
      }
      r := Ok(cfg.value);
    }

    /** `storagePutText`: upload with `upsert: true`, so an existing object is replaced. */
    method StoragePutText(bucket: string, path: string, text: string, contentType: string) returns (stored: string)
      modifies this`blobs
      ensures blobs == old(blobs)[(bucket, path) := Blob(text, contentType)]
      ensures stored == path
    {
      blobs := blobs[(bucket, path) := Blob(text, contentType)];
      stored := path;
    }

    /** `runAgent`: check the configuration, insert a queued run, call the provider,
        store the artifact, account usage, audit, and mark the run done. */
    method RunAgent(orgId: string, agentKey: string, input: Option<Value>, env: RunEnv) returns (r: Result<RunResult, Error>)
      requires Valid()
      modifies this`runs, this`counters, this`audit, this`blobs, this`providerCalls
      ensures Valid()
      ensures (r, Tables()) == RunStep(prompts, Config(orgId, agentKey), orgId, agentKey, input, env, old(Tables()))
    {
      var cfg := GetAgentConfig(orgId, agentKey);
      if cfg.None? || !cfg.value.enabled {
        return Err(AgentDisabled);
      }
      if input.None? {
        // `JSON.stringify(undefined)` is undefined, and taking its slice throws
        return Err(InputNotSerializable);
      }
      if env.runId in RunIdsOf(runs) {
        return Err(DuplicateRunId);
      }
      r := Launch(cfg.value, orgId, agentKey, input.value, env);
    }

    /** The steps of `runAgent` after its checks: insert the queued run, call the provider
        and, on a completion, finish the run. */
    method Launch(cfg: AgentConfig, orgId: string, agentKey: string, input: Value, env: RunEnv) returns (r: Result<RunResult, Error>)
      requires Valid() && env.runId !in RunIdsOf(runs)
      modifies this`runs, this`counters, this`audit, this`blobs, this`providerCalls
      ensures Valid()
      ensures (r, Tables()) == Launched(prompts, cfg, orgId, agentKey, input, env, old(Tables()))
    {
      var system := SystemPrompt(prompts, cfg, agentKey);
      var run := QueuedRun(env.runId, orgId, agentKey, Summary(input));
      FreshRunId(runs, env.runId);
      runs := runs + [run];
      providerCalls := providerCalls + [ChatRequest(cfg.model, cfg.temperature, system, UserText(input))];
      match env.reply
      case ProviderFailure(body) => r := Err(ProviderError(body));
      case Completion(content, usage) =>
        var text := content.GetOr("");
        var u := usage.GetOr(ZeroUsage);
        var path := CompleteRun(orgId, agentKey, text, u, env);
        r := Ok(RunResult(text, path, u, env.runId));
    }

    /** The steps of `runAgent` after a successful provider call. */
    method CompleteRun(orgId: string, agentKey: string, content: string, usage: Usage, env: RunEnv)
      returns (outputPath: Option<string>)
      modifies this`runs, this`counters, this`audit, this`blobs
      ensures outputPath == OutputPathFor(orgId, agentKey, env)
      ensures Tables() == Finished(orgId, agentKey, content, usage, env, old(Tables()))
    {
      outputPath := None;
      if agentKey != DeadlinesKey {
        var path := ArtifactPath(orgId, agentKey, env.now, env.fileId);
        var _ := StoragePutText(OutputsBucket, path, content, MarkdownType);
        outputPath := Some(path);
      }
      counters := Account(counters, (orgId, Period(env.now)), Deltas(usage), env.rpcAvailable);
      audit := audit + [AuditEntry(orgId, None, RunAction, RunMeta(agentKey, usage, outputPath))];
      runs := MarkDone(runs, env.runId, outputPath, env.now);
    }
  }
}
