# Agent tool dispatch of `mcp-supabase`, modelled in Dafny

The `mcp-supabase` edge function is the orchestrator of a legal-office agent platform.
It receives a tool name and its parameters and answers each request:

- `agents.list` resolves the configuration of every agent in the catalog for an organization.
  A resolved configuration starts with hard defaults (`enabled` true, model `gpt-5`,
  temperature 0.1). The catalog row's value overrides a default, and the organization's
  override row overrides both. A null field is skipped.
- `agents.getConfig` answers the configuration of one key.
- `agents.toggle` upserts an organization's `enabled` flag and resolves the key again.
- `agents.run` runs an agent:
  - it checks that the agent is configured and enabled;
  - it chooses a system prompt;
  - it records a `queued` run;
  - it calls the chat-completion provider;
  - it stores the answer as a Markdown artifact, except for the deadlines agent `prazos`;
  - it accounts token usage and cost for the month, appends an audit entry, and marks the run `done`.
- `storage.putText` uploads text with overwrite.
- `storage.getUrl` builds a public object URL.

The model has seven modules, one file each:

- `Wrappers`: `Option` and `Result`.
- `Text`: JavaScript `slice` as `Prefix`, and `split` on a character with its inverse `Join`.
- `Agents`: catalog rows, overrides, configurations, and resolution as a value-level merge. It also holds the toggle upsert.
- `Runs`: the values a run computes and persists. It defines `runAgent` as the transition `RunStep` on the tables a run writes (`Ledger`).
- `Store`: the class `Store`, whose fields are the persisted tables:
  - catalog, overrides, runs, usage counters, audit log, blob storage;
  - the requests sent to the provider;
  - the built-in prompt table.

  Its methods are the operations. `listAgents` keeps its two loops over a map. The agent
  and run methods are proved against the pure functions of `Agents` and `Runs`.
  `StoragePutText` states its new blob table directly: it replaces one object and keeps the rest.
- `Tools`: the dispatch of `handler` as pure functions. It covers the tool name, each branch's parameter checks, and the response and tables of a request (`Handled`).
- `Dispatch`: `Handle`, the method that executes a request on a `Store`, proved equal to `Handled`.

Inputs from outside the function are parameters:

- the clock, as one ISO-8601 string `now`;
- the artifact's UUID;
- the run id the database assigns;
- the provider's reply: a failure text, or content and usage, each possibly missing;
- whether the `increment_usage_counters` call succeeds;
- the project URL.

Behaviour worth noting, which the model follows as the code has it:

- The tool name is split with `split(".")` at every dot (index.ts:202). Only the first two parts count, so `agents.list.extra` is served as `agents.list`.
- `agents.list` checks `orgId` only (index.ts:207-208).
- A failed provider call leaves the run `queued` (index.ts:135-137). No `failed` status is ever written.
- A missing `input` on `agents.run` makes `JSON.stringify(undefined).slice` throw (index.ts:115). It throws before the run row is inserted, so nothing is written.

## Model

| member | source | states |
|---|---|---|
| Agents.Base | supabase/functions/mcp-supabase/index.ts:40-48 | a catalog row's entry keeps its key, name and prompt, and takes `enabled` true, model `gpt-5` and temperature 0.1 when the row gives none |
| Agents.Layer | supabase/functions/mcp-supabase/index.ts:53-60 | each non-null override column wins over the entry it layers on; the key and name are kept; an all-null override changes nothing |
| Agents.Effective | supabase/functions/mcp-supabase/index.ts:39-61 | a row's configuration keeps its key and name, and is the catalog entry when the organization has no override for it |
| Agents.ConfigOf | supabase/functions/mcp-supabase/index.ts:65-68 | a key resolves exactly when it is in the catalog, and to a configuration with that key |
| Agents.UpsertEnabled | supabase/functions/mcp-supabase/index.ts:71-75 | the upserted row has the new `enabled`; an existing row keeps its other columns, and a new row has them null |
| Agents.Resolve | supabase/functions/mcp-supabase/index.ts:38-62 | one configuration per catalog row, in catalog order, with the row's key and name; a row without an override resolves to its catalog defaults |
| Agents.EffectiveFields | supabase/functions/mcp-supabase/index.ts:39-61 | each of enabled, model, temperature, max_tokens, systemPrompt is the override's non-null value, else the catalog's, else `true`/`"gpt-5"`/`0.1` (none for the last two) |
| Agents.OneConfigPerKey | supabase/functions/mcp-supabase/index.ts:38-62 | with unique catalog keys the resolved list carries each catalog key exactly once, in catalog order |
| Agents.ForeignOverrideIgnored | supabase/functions/mcp-supabase/index.ts:50-52 | an override for a key absent from the catalog does not change the resolved list |
| Agents.NullOverrideIsNeutral | supabase/functions/mcp-supabase/index.ts:53-60 | an override whose columns are all null leaves a configuration unchanged |
| Agents.LayerIdempotent | supabase/functions/mcp-supabase/index.ts:53-60 | layering the same override twice equals layering it once |
| Agents.FindConfig | supabase/functions/mcp-supabase/index.ts:67 | absent exactly when no configuration has the key; otherwise the first one that has it |
| Agents.OrgOverrides | supabase/functions/mcp-supabase/index.ts:35 | exactly the override rows of the organization, keyed by agent key |
| Agents.LookupResolved | supabase/functions/mcp-supabase/index.ts:65-68 | `getAgentConfig` is null exactly for keys outside the catalog, and is the row's effective configuration for a catalog key |
| Agents.ToggledOverrides | supabase/functions/mcp-supabase/index.ts:71-75 | after the upsert the (org, key) row exists with `enabled` set, keeps its other columns if it existed, and no other row changes |
| Agents.ToggleSetsEnabled | supabase/functions/mcp-supabase/index.ts:70-79 | after a toggle the resolved `enabled` of the row is the toggled value |
| Agents.ToggleChangesOnlyEnabled | supabase/functions/mcp-supabase/index.ts:70-79 | a toggle changes the resolved configuration in `enabled` only |
| Agents.ToggleResolution | supabase/functions/mcp-supabase/index.ts:70-79 | after the upsert the key resolves exactly when it is in the catalog, and then to its previous configuration with `enabled` replaced |
| Store.Store.ListAgents | supabase/functions/mcp-supabase/index.ts:32-63 | the two map-building loops return exactly the resolved list of the catalog under the organization's overrides |
| Store.Store.GetAgentConfig | supabase/functions/mcp-supabase/index.ts:65-68 | the answer is the key's resolved configuration; null exactly when the key is not in the catalog |
| Store.Store.ToggleAgent | supabase/functions/mcp-supabase/index.ts:70-79 | writes the upserted override and nothing else; throws "config not found after toggle" exactly for a non-catalog key; otherwise returns the new configuration, whose `enabled` is the argument and which equals the old one elsewhere |
| Store.Store.StoragePutText | supabase/functions/mcp-supabase/index.ts:82-89 | the object at (bucket, path) is replaced by the text with its content type; no other object changes |
| Store.Store.RunAgent | supabase/functions/mcp-supabase/index.ts:95-179 | the result and the new tables are those of `RunStep` on the resolved configuration; run ids stay unique |
| Store.Store.Launch | supabase/functions/mcp-supabase/index.ts:112-178 | after the checks: one queued run and one provider request are appended, then the completion steps of `Launched` |
| Store.Store.CompleteRun | supabase/functions/mcp-supabase/index.ts:143-176 | artifact, usage, audit and run update as `Finished` states, returning the artifact path (none for `prazos`) |
| Runs.Summary | supabase/functions/mcp-supabase/index.ts:115 | the input summary is a prefix of the user message of length min(length, 200) |
| Runs.LookupPrompt | supabase/functions/mcp-supabase/index.ts:100-110 | a table gives a prompt for a key exactly when one of its entries has that key, and then it is the prompt of the first entry with that key |
| Runs.BuiltInPromptKeys | supabase/functions/mcp-supabase/index.ts:100-108 | the built-in prompt table covers exactly the seven agent keys of the `AgentKey` type |
| Runs.SystemPromptChain | supabase/functions/mcp-supabase/index.ts:110 | the system prompt is the configured one, else the built-in one for the key, else the generic one; the generic one is used for a non-agent key without a configured prompt |
| Runs.ArtifactPathSegments | supabase/functions/mcp-supabase/index.ts:145-146 | for slash-free parts the artifact path is exactly the three segments org, agent key and `YYYY-MM-DD_uuid.md` |
| Runs.Period | supabase/functions/mcp-supabase/index.ts:151 | the period is the first seven characters (`YYYY-MM`) of the timestamp |
| Runs.CostCents | supabase/functions/mcp-supabase/index.ts:152 | the cost is the integer nearest to a thousandth of the total tokens, with halves rounded up |
| Runs.Increment | supabase/functions/mcp-supabase/index.ts:153-158 | the primary path adds the deltas at (org, period) and leaves every other counter unchanged |
| Runs.Overwrite | supabase/functions/mcp-supabase/index.ts:159-164 | the fallback sets the row at (org, period) and leaves every other counter unchanged |
| Runs.IncrementMonotone | supabase/functions/mcp-supabase/index.ts:153-158 | the primary path never decreases a counter and adds exactly the deltas |
| Runs.IncrementsAccumulate | supabase/functions/mcp-supabase/index.ts:153-158 | two runs on the primary path accumulate both deltas |
| Runs.OverwriteOnFreshRow | supabase/functions/mcp-supabase/index.ts:159-164 | on a row that does not exist yet, the fallback agrees with the primary path |
| Runs.OverwriteDiscardsAccumulation | supabase/functions/mcp-supabase/index.ts:159-164 | on an existing row the fallback stores only the new deltas and loses what was accumulated |
| Runs.MarkDone | supabase/functions/mcp-supabase/index.ts:172-176 | the update keeps the number of runs |
| Runs.MarkDoneLast | supabase/functions/mcp-supabase/index.ts:172-176 | finishing the freshly inserted run turns it `done` and leaves every earlier row unchanged |
| Runs.RunFailure | supabase/functions/mcp-supabase/index.ts:96-138 | a missing or disabled config throws "Agent disabled"; nothing throws exactly when the config is enabled, the input is present, the id is free and the provider answers |
| Runs.RunStep | supabase/functions/mcp-supabase/index.ts:95-179 | `runAgent` throws exactly when one step fails, with the error of the first failing step; a successful run answers with the id of the run it inserted |
| Runs.Launched | supabase/functions/mcp-supabase/index.ts:112-178 | after the checks one run row and exactly the request for the configuration are appended; the run fails exactly on a provider failure, and a completed run answers with its id and output path |
| Runs.Finished | supabase/functions/mcp-supabase/index.ts:143-176 | a completion keeps the number of runs and the provider calls, appends the `agents.run` audit entry, leaves an (org, period) counter row, and stores the Markdown artifact in `outputs` unless the key is `prazos` |
| Runs.Account | supabase/functions/mcp-supabase/index.ts:153-164 | the (org, period) row gets the sum of old counters and deltas on the primary path and the deltas on the fallback; no other counter changes |
| Runs.Deltas | supabase/functions/mcp-supabase/index.ts:152-158 | tokens in and out are the usage fields, 0 when missing; the cost is computed from the total, 0 when missing |
| Runs.SystemPrompt | supabase/functions/mcp-supabase/index.ts:110 | the configured prompt when present, else the table's prompt for the key when present, else the generic prompt |
| Runs.UserText | supabase/functions/mcp-supabase/index.ts:131 | a string input is sent as it is; null, booleans and other values as their JSON text |
| Runs.Request | supabase/functions/mcp-supabase/index.ts:126-132 | the request carries the configuration's model and temperature, the chosen system prompt and the user message |
| Runs.ArtifactPath | supabase/functions/mcp-supabase/index.ts:145-146 | the path starts with `org/agentKey/` and ends in `.md` |
| Runs.OutputPathFor | supabase/functions/mcp-supabase/index.ts:143-148 | a run has no artifact path exactly when its key is `prazos`; otherwise the dated artifact path |
| Runs.MessageInjective | supabase/functions/mcp-supabase/index.ts:97-137 | no two errors give the same 500 message, so the message tells which step failed and carries the provider's text |
| Runs.RejectedRunWritesNothing | supabase/functions/mcp-supabase/index.ts:96-118 | a missing or disabled config, a missing input or a taken id writes no run, no request, no artifact, no usage and no audit entry |
| Runs.ProviderFailureLeavesQueued | supabase/functions/mcp-supabase/index.ts:112-138 | on a provider failure the error carries the response text, exactly one queued run with the summary and one request were written, and storage, usage and audit are unchanged |
| Runs.CompletedRun | supabase/functions/mcp-supabase/index.ts:139-178 | on a completion the inserted run, and no other, becomes `done` with output path and finish time; one `agents.run` audit entry is appended; the result carries the content, usage and the inserted id |
| Runs.CompletedRunWrites | supabase/functions/mcp-supabase/index.ts:143-164 | storage gains the artifact at its dated path unless the key is `prazos`; the (org, period) counter is accounted and no other counter changes |
| Runs.RunStepHistory | supabase/functions/mcp-supabase/index.ts:113-176 | a run appends at most one run row and one audit entry, leaves earlier run rows intact and keeps run ids unique |
| Tools.ToolName | supabase/functions/mcp-supabase/index.ts:202 | the namespace and the name are free of dots, and a tool without a name is all namespace |
| Tools.ToolOf | supabase/functions/mcp-supabase/index.ts:206-240 | a selected tool's (namespace, name) is exactly the pair its branch tests |
| Tools.Validate | supabase/functions/mcp-supabase/index.ts:206-240 | a branch either rejects its parameters or calls the operation of that tool, never another one |
| Tools.RouteOf | supabase/functions/mcp-supabase/index.ts:202-242 | a request is unknown exactly when no tool is selected by its name, and a call is the operation of the selected tool |
| Tools.Perform | supabase/functions/mcp-supabase/index.ts:209-239 | an operation keeps the catalog; it fails only with a 500 and only from toggle or run; list, getConfig and getUrl change nothing; only toggle touches overrides |
| Tools.Handled | supabase/functions/mcp-supabase/index.ts:188-247 | a request keeps the catalog, and a 400 or 404 answer changes nothing |
| Tools.ToolNameParts | supabase/functions/mcp-supabase/index.ts:202 | `ns.name` followed by further dot-separated parts splits to namespace `ns` and name `name` |
| Tools.DotlessToolUnknown | supabase/functions/mcp-supabase/index.ts:202-242 | a tool without a dot has no name and is answered 404 |
| Tools.ToolKeyRoundTrip | supabase/functions/mcp-supabase/index.ts:206-240 | each served tool is selected by its own (namespace, name) and by no other |
| Tools.RouteOfTool | supabase/functions/mcp-supabase/index.ts:202-240 | the tool string of a served tool, with or without extra parts, takes that tool's branch |
| Tools.UnknownTools | supabase/functions/mcp-supabase/index.ts:206-242 | a request is unknown exactly when its (namespace, name) is that of no served tool |
| Tools.RejectedIffMissing | supabase/functions/mcp-supabase/index.ts:207-238 | a branch answers 400 exactly when one of its required parameters is missing, empty or of the wrong type |
| Tools.StorageDefaults | supabase/functions/mcp-supabase/index.ts:231-237 | bucket `outputs` and content type `text/markdown` apply only when absent; accepted values pass through |
| Tools.StorageGetUrl | supabase/functions/mcp-supabase/index.ts:91-93 | the URL is the project URL, the public object route, the bucket, a slash and the path |
| Tools.GetUrlAnswer | supabase/functions/mcp-supabase/index.ts:236-240 | `storage.getUrl` answers 200 with the public URL in bucket `outputs` unless given and changes nothing |
| Tools.GetConfigOfUnknownKey | supabase/functions/mcp-supabase/index.ts:212-217 | `agents.getConfig` for a key outside the catalog answers 200 with a null body and changes nothing |
| Tools.ToggleAnswer | supabase/functions/mcp-supabase/index.ts:218-223 | `agents.toggle` writes the upsert; 500 "config not found after toggle" exactly for a non-catalog key, otherwise 200 with the old configuration with `enabled` replaced |
| Tools.RunAnswer | supabase/functions/mcp-supabase/index.ts:224-229 | `agents.run` answers 500 with the first failing step's message exactly when `runAgent` throws, else 200 with the result for the inserted id |
| Tools.StatusOfRequest | supabase/functions/mcp-supabase/index.ts:205-246 | 400 exactly for a failed check, 404 exactly for an unknown tool, 500 only from toggle or run; a request that reaches no operation changes nothing |
| Tools.HistoryPreserved | supabase/functions/mcp-supabase/index.ts:188-247 | every request keeps the catalog, keeps earlier run rows, and appends at most one run row and one audit entry |
| Dispatch.Execute | supabase/functions/mcp-supabase/index.ts:205-242 | running a validated operation on the store gives the response and tables of `Perform` |
| Dispatch.Handle | supabase/functions/mcp-supabase/index.ts:188-247 | answering a request on the store gives the response and tables of `Handled`, and keeps the store's constraints |
| Text.Split | supabase/functions/mcp-supabase/index.ts:202 | the pieces are separator-free, there is at least one, and joining them gives back the string |
| Text.SplitJoin | supabase/functions/mcp-supabase/index.ts:202 | splitting a join of separator-free pieces gives the pieces back |

## Left out

- HTTP plumbing is left out: `Deno.serve`, CORS, the OPTIONS and non-POST answers, `Response` construction, environment checks and client setup (index.ts:10-20, 181-200, 250-261), and the `console.error(e)` logging of a thrown error (index.ts:244). A request is its tool and parameters, and a response is a status with a body or message.
- Parsing the request body is left out. A body that is not JSON becomes `{}`, which the model covers with `tool` absent and `NoParams`. A non-string `tool` is not modelled.
- Parameters `orgId`, `agentKey`, `bucket`, `path` and `contentType` are strings when present. Falsiness is modelled for strings only (absent or empty). A null `bucket` or `contentType` is treated like an absent one.
- The provider `fetch` and the parsing of its JSON are left out (index.ts:120-141). The reply is an input: a failure with its text, or a completion whose content and usage may be missing.
- Storage and database errors are left out, apart from a duplicate run id on insert. Errors from listing, upserting, uploading, auditing and updating never occur in the model.
- `new Date()` is read three times in the source (index.ts:145, 151, 175). The model uses one `now` for all three.
- `crypto.randomUUID()` and the database's id for the run are inputs.
- Runs.Summary: counts characters, not UTF-16 code units, as JavaScript's `slice` does.
- Runs.CostCents: `Math.round(total * 0.001)` is modelled as exact integer rounding. The floating-point product is not.
- Temperatures are exact reals, and an override's integer temperature becomes that real. Floating-point representation is not modelled.
- Runs.Increment: the body of `increment_usage_counters` is not part of this model. It is assumed to add the deltas to the (org, period) row and to create the row from zero when it is missing.
- Runs.Account: which usage path runs is a boolean input. Whether the supabase-js call rejects, so that `.catch` runs the fallback, is library behaviour and is not modelled.
- Concurrency is left out: concurrent runs racing on a usage counter or on the same override. Only the sequential overwrite hazard of the fallback is modelled.
- The override table is a map keyed by (org, agent key). This matches the `onConflict: "org_id,agent_key"` upsert. Several override rows for one key, which the schema does not forbid, are not modelled.
- Store.Store.StoragePutText: returns the stored path, not the storage client's whole upload record.
- Timestamp columns set by the database (`created_at`) are left out, and so is the `id` of override and catalog rows. The `failed` status is never written by the source and is not modelled.
- A key like `constructor` or `toString` would find a prototype member of the JavaScript `prompts` object. The model's table holds only the seven entries.
- An undefined `SUPABASE_URL` is not modelled; the URL is an input.
- The declarations in `packages/db/src/schema.ts` (63-72, 74-84, 94-104, 130-137, 139-147) and `packages/db/src/types.ts` (3-10) only shape the datatypes.
