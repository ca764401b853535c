/** The values `runAgent` computes and persists: the system prompt, the run
    record and its lifecycle, the artifact path, usage accounting and the audit
    entry (supabase/functions/mcp-supabase/index.ts:95-179). */
module Runs {
  import opened Wrappers
  import opened Text
  import opened Agents

  /** A JSON value received as a tool parameter. Numbers, arrays and objects are
      carried as their JSON text, which is all the core ever does with them. */
  datatype Value = Null | Bool(b: bool) | Str(s: string) | Other(json: string)

  /** The user message: a string as it is, anything else JSON-serialised. */
  function UserText(v: Value): (r: string)
    ensures v.Str? ==> r == v.s
    ensures v.Null? ==> r == "null"
    ensures v.Bool? ==> r == if v.b then "true" else "false"
    ensures v.Other? ==> r == v.json
  {
    match v
    case Str(s) => s
    case Null => "null"
    case Bool(b) => if b then "true" else "false"
    case Other(json) => json
  }

  const SummaryLength: nat := 200

  /** The `input_summary` of a run: the first 200 characters of the user message. */
  function Summary(v: Value): (r: string)
    ensures r <= UserText(v)
    ensures |r| == if |UserText(v)| <= SummaryLength then |UserText(v)| else SummaryLength
  {
    Prefix(UserText(v), SummaryLength)
  }

  // ---------------------------------------------------------------------------
  // System prompt
  // ---------------------------------------------------------------------------

  const GenericPrompt: string := "Você é um assistente jurídico."

  /** The built-in prompt table of `runAgent`, one entry per member of `AgentKey`. */
  const BuiltInPrompts: seq<(string, string)> := [
    ("prazos", "Extraia numero_processo, partes, tipo_ato, prazo_dias_uteis, data_publicacao (YYYY-MM-DD), prazo_final_estimado (YYYY-MM-DD), checklist[]. Retorne JSON válido."),
    ("pesquisa", "Relatório de jurisprudência (últimos 12 meses): ementa, nº, data, link oficial, fundamentos, divergências. Formato: Markdown."),
    ("peca", "Minuta de peça com Fatos, Fundamentos (com referências), Pedidos, Anexos e ‘Pontos para validação humana’. Formato: Markdown."),
    ("contrato", "Comparação entre versões; listar mudanças, classificar risco (alto/médio/baixo), sugerir redações; incluir ‘Matriz de Risco’ tabelada. Formato: Markdown."),
    ("traducao", "Explicar documento para leigo, com precisão e próximos passos, sem prometer resultado. Formato: Markdown."),
    ("evidencias", "Identificar dados sensíveis (CPF, RG, endereço, dados médicos); checklist de redaction + roteiro de custódia (Bates). Formato: Markdown."),
    ("audiencia", "Resumo estratégico (forças x fraquezas), 10 perguntas prováveis e respostas sugeridas. Formato: Markdown.")
  ]

  /** The prompt a table of (key, prompt) pairs gives a key, if any. */
  function LookupPrompt(table: seq<(string, string)>, key: string): (r: Option<string>)
    ensures r.Some? <==> exists i :: 0 <= i < |table| && table[i].0 == key
    ensures r.Some? ==> exists i :: 0 <= i < |table| && table[i] == (key, r.value)
                                    && forall j :: 0 <= j < i ==> table[j].0 != key
  {
    if |table| == 0 then None
    else if table[0].0 == key then Some(table[0].1)
    else
      var r := LookupPrompt(table[1..], key);
      assert forall i :: 1 <= i < |table| ==> table[1..][i - 1] == table[i];
      if r.Some? then
        ghost var i :| 0 <= i < |table[1..]| && table[1..][i] == (key, r.value)
                       && forall j :: 0 <= j < i ==> table[1..][j].0 != key;
        assert table[i + 1] == (key, r.value);
        r
      else r
  }

  /** `prompts[agentKey]`: the built-in prompt of a key, if it has one. */
  function BuiltInPrompt(key: string): Option<string> {
    LookupPrompt(BuiltInPrompts, key)
  }

  /** The system prompt of a run under a prompt table: the configured one, else the
      table's one for the key, else the generic one. `runAgent` uses `BuiltInPrompts`. */
  function SystemPrompt(prompts: seq<(string, string)>, cfg: AgentConfig, key: string): (r: string)
    ensures cfg.systemPrompt.Some? ==> r == cfg.systemPrompt.value
    ensures cfg.systemPrompt.None? && LookupPrompt(prompts, key).Some? ==> r == LookupPrompt(prompts, key).value
    ensures cfg.systemPrompt.None? && LookupPrompt(prompts, key).None? ==> r == GenericPrompt
  {
    cfg.systemPrompt.OrElse(LookupPrompt(prompts, key)).GetOr(GenericPrompt)
  }

  /** With the built-in table the prompt is the first present element of the `??` chain
      at the call site, and a key outside the catalog of agents without a configured
      prompt falls back to the generic one. */
  lemma SystemPromptChain(cfg: AgentConfig, key: string)
    ensures SystemPrompt(BuiltInPrompts, cfg, key) == Coalesce([cfg.systemPrompt, BuiltInPrompt(key)], GenericPrompt)
    ensures cfg.systemPrompt.None? && key !in AgentKeys ==> SystemPrompt(BuiltInPrompts, cfg, key) == GenericPrompt
  {
    FirstPresentPair(cfg.systemPrompt, BuiltInPrompt(key));
    BuiltInPromptKeys(key);
  }

  /** The built-in table covers exactly the agent keys. */
  lemma BuiltInPromptKeys(key: string)
    ensures BuiltInPrompt(key).Some? <==> key in AgentKeys
  {
    assert forall i :: 0 <= i < |AgentKeys| ==> BuiltInPrompts[i].0 == AgentKeys[i];
    assert |BuiltInPrompts| == |AgentKeys|;
  }

  // ---------------------------------------------------------------------------
  // Provider call
  // ---------------------------------------------------------------------------

  /** The `usage` object of a chat completion; any field may be missing. */
  datatype Usage = Usage(promptTokens: Option<nat>, completionTokens: Option<nat>, totalTokens: Option<nat>)

  /** Used when the completion carries no `usage` object. */
  const ZeroUsage: Usage := Usage(Some(0), Some(0), Some(0))

  /** What the provider answers: a non-ok response with its body text, or a
      parsed completion whose content and usage may be missing. */
  datatype ModelReply = ProviderFailure(body: string) | Completion(content: Option<string>, usage: Option<Usage>)

  /** The chat-completion request `runAgent` issues. */
  datatype ChatRequest = ChatRequest(model: string, temperature: real, system: string, user: string)

  /** The request for an input under a configuration: its model and temperature,
      the chosen system prompt and the user message. */
  function Request(prompts: seq<(string, string)>, cfg: AgentConfig, key: string, input: Value): (q: ChatRequest)
    ensures q.model == cfg.model && q.temperature == cfg.temperature
    ensures q.system == SystemPrompt(prompts, cfg, key) && q.user == UserText(input)
  {
    ChatRequest(cfg.model, cfg.temperature, SystemPrompt(prompts, cfg, key), UserText(input))
  }

  // ---------------------------------------------------------------------------
  // Artifact
  // ---------------------------------------------------------------------------

  /** A stored object: its text and content type. */
  datatype Blob = Blob(text: string, contentType: string)

  /** The `YYYY-MM-DD_uuid.md` file name of an artifact. */
  function ArtifactName(now: string, fileId: string): string {
    Prefix(now, 10) + "_" + fileId + ".md"
  }

  /** The artifact path `org/agentKey/YYYY-MM-DD_uuid.md`. */
  function ArtifactPath(org: string, key: string, now: string, fileId: string): (p: string)
    ensures org + "/" + key + "/" <= p
    ensures |p| >= 3 && p[|p| - 3..] == ".md"
  {
    org + "/" + key + "/" + ArtifactName(now, fileId)
  }

  /** For slash-free components the artifact path has exactly three segments:
      the organization, the agent key and the file name. */
  lemma ArtifactPathSegments(org: string, key: string, now: string, fileId: string)
    requires '/' !in org && '/' !in key && '/' !in now && '/' !in fileId
    ensures Split(ArtifactPath(org, key, now, fileId), '/') == [org, key, ArtifactName(now, fileId)]
  {
    var name := ArtifactName(now, fileId);
    var parts := [org, key, name];
    assert Prefix(now, 10) <= now;
    assert '/' !in name by {
      assert name == Prefix(now, 10) + "_" + fileId + ".md";
      forall i | 0 <= i < |Prefix(now, 10)| ensures Prefix(now, 10)[i] != '/' {
        assert Prefix(now, 10)[i] == now[i];
      }
    }
    assert parts[1..] == [key, name];
    assert parts[1..][1..] == [name];
    assert Join([name], '/') == name;
    assert Join(parts[1..], '/') == key + "/" + name;
    assert Join(parts, '/') == ArtifactPath(org, key, now, fileId);
    SplitJoin(parts, '/');
  }

  // ---------------------------------------------------------------------------
  // Usage accounting
  // ---------------------------------------------------------------------------

  /** A `usage_counters` row's counters, keyed in the store by (org, period). */
  datatype Counter = Counter(tokensIn: nat, tokensOut: nat, costCents: nat)

  const ZeroCounter: Counter := Counter(0, 0, 0)

  /** The billing period `YYYY-MM`: the first seven characters of the ISO timestamp. */
  function Period(now: string): (p: string)
    ensures p <= now
    ensures |now| >= 7 ==> |p| == 7
  {
    Prefix(now, 7)
  }

  /** `Math.round(total * 0.001)` on a non-negative token count: the integer nearest to
      a thousandth of it, halves rounded up. The floating-point product is abstracted. */
  function CostCents(totalTokens: nat): (c: nat)
    ensures 1000 * c <= totalTokens + 500 < 1000 * c + 1000
  {
    (totalTokens + 500) / 1000
  }

  /** The deltas one run contributes; a missing token field counts as 0. */
  function Deltas(u: Usage): (d: Counter)
    ensures u.promptTokens.Some? ==> d.tokensIn == u.promptTokens.value
    ensures u.promptTokens.None? ==> d.tokensIn == 0
    ensures u.completionTokens.Some? ==> d.tokensOut == u.completionTokens.value
    ensures u.completionTokens.None? ==> d.tokensOut == 0
    ensures d.costCents == CostCents(if u.totalTokens.Some? then u.totalTokens.value else 0)
  {
    Counter(u.promptTokens.GetOr(0), u.completionTokens.GetOr(0), CostCents(u.totalTokens.GetOr(0)))
  }

  function Add(a: Counter, b: Counter): Counter {
    Counter(a.tokensIn + b.tokensIn, a.tokensOut + b.tokensOut, a.costCents + b.costCents)
  }

  /** No counter of `a` exceeds the matching counter of `b`. */
  predicate AtMost(a: Counter, b: Counter) {
    a.tokensIn <= b.tokensIn && a.tokensOut <= b.tokensOut && a.costCents <= b.costCents
  }

  function CounterAt(cs: map<(string, string), Counter>, k: (string, string)): Counter {
    if k in cs then cs[k] else ZeroCounter
  }

  /** The primary path, the `increment_usage_counters` database function, taken to add
      the deltas to the row and to create it from zero when it is missing. */
  function Increment(cs: map<(string, string), Counter>, k: (string, string), d: Counter): (r: map<(string, string), Counter>)
    ensures r.Keys == cs.Keys + {k}
    ensures forall k' :: k' in cs && k' != k ==> r[k'] == cs[k']
  {
    cs[k := Add(CounterAt(cs, k), d)]
  }

  /** The fallback path: an upsert that stores the deltas as the row's totals. */
  function Overwrite(cs: map<(string, string), Counter>, k: (string, string), d: Counter): (r: map<(string, string), Counter>)
    ensures r.Keys == cs.Keys + {k}
    ensures forall k' :: k' in cs && k' != k ==> r[k'] == cs[k']
  {
    cs[k := d]
  }

  /** Usage accounting: the primary path when the database function is available, else the fallback. */
  function Account(cs: map<(string, string), Counter>, k: (string, string), d: Counter, rpcAvailable: bool)
    : (r: map<(string, string), Counter>)
    ensures r.Keys == cs.Keys + {k}
    ensures forall k' :: k' in cs && k' != k ==> r[k'] == cs[k']
    ensures rpcAvailable ==> r[k] == Add(CounterAt(cs, k), d)
    ensures !rpcAvailable ==> r[k] == d
  {
    if rpcAvailable then Increment(cs, k, d) else Overwrite(cs, k, d)
  }

  /** The primary path never decreases a counter and adds exactly the deltas. */
  lemma IncrementMonotone(cs: map<(string, string), Counter>, k: (string, string), d: Counter)
    ensures forall k' :: k' in cs ==> AtMost(cs[k'], Increment(cs, k, d)[k'])
    ensures Increment(cs, k, d)[k] == Add(CounterAt(cs, k), d)
  {
  }

  /** Two runs in sequence on the primary path accumulate both deltas. */
  lemma IncrementsAccumulate(cs: map<(string, string), Counter>, k: (string, string), d1: Counter, d2: Counter)
    ensures Increment(Increment(cs, k, d1), k, d2)[k] == Add(Add(CounterAt(cs, k), d1), d2)
  {
  }

  /** The fallback agrees with the primary path on a row that did not exist yet. */
  lemma OverwriteOnFreshRow(cs: map<(string, string), Counter>, k: (string, string), d: Counter)
    requires k !in cs
    ensures Overwrite(cs, k, d) == Increment(cs, k, d)
  {
  }

  /** The fallback hazard: on an existing row it stores the new deltas as the totals
      and so loses what was accumulated, where the primary path would have kept it. */
  lemma OverwriteDiscardsAccumulation(cs: map<(string, string), Counter>, k: (string, string), d1: Counter, d2: Counter)
    requires d1.tokensIn > 0
    ensures var acc := Increment(cs, k, d1);
            && Overwrite(acc, k, d2)[k] == d2
            && Increment(acc, k, d2)[k].tokensIn == CounterAt(cs, k).tokensIn + d1.tokensIn + d2.tokensIn
            && Overwrite(acc, k, d2)[k] != Increment(acc, k, d2)[k]
  {
  }

  // ---------------------------------------------------------------------------
  // Run records and audit entries
  // ---------------------------------------------------------------------------

  /** `agent_runs.status`; the core writes only these two values. */
  datatype RunStatus = Queued | Done

  /** A row of `agent_runs` (the creation timestamp is the database's and is left out). */
  datatype AgentRun = AgentRun(
    id: string,
    orgId: string,
    agentKey: string,
    clientId: Option<string>,
    inputSummary: Option<string>,
    status: RunStatus,
    outputPath: Option<string>,
    finishedAt: Option<string>)

  /** The row `runAgent` inserts before calling the provider. */
  function QueuedRun(id: string, org: string, key: string, summary: string): AgentRun {
    AgentRun(id, org, key, None, Some(summary), Queued, None, None)
  }

  /** The update `status = done, output_path, finished_at where id = runId`; an absent
      output path is dropped from the update and leaves the column as it was. */
  function MarkDone(runs: seq<AgentRun>, id: string, outputPath: Option<string>, at: string): (r: seq<AgentRun>)
    ensures |r| == |runs|
  {
    seq(|runs|, i requires 0 <= i < |runs| =>
      if runs[i].id == id
      then runs[i].(status := Done, outputPath := outputPath.OrElse(runs[i].outputPath), finishedAt := Some(at))
      else runs[i])
  }

  predicate UniqueRunIds(runs: seq<AgentRun>) {
    forall i, j :: 0 <= i < j < |runs| ==> runs[i].id != runs[j].id
  }

  /** Finishing the last, freshly inserted run touches no earlier row. */
  lemma MarkDoneLast(runs: seq<AgentRun>, run: AgentRun, outputPath: Option<string>, at: string)
    requires forall i :: 0 <= i < |runs| ==> runs[i].id != run.id
    ensures MarkDone(runs + [run], run.id, outputPath, at)
            == runs + [run.(status := Done, outputPath := outputPath.OrElse(run.outputPath), finishedAt := Some(at))]
  {
  }

  /** The `meta` payload of an `agents.run` audit entry. */
  datatype RunMeta = RunMeta(agentKey: string, tokens: Usage, outputPath: Option<string>)

  /** A row of `audit_logs` written by the core (its timestamp is the database's). */
  datatype AuditEntry = AuditEntry(orgId: string, userId: Option<string>, action: string, meta: RunMeta)

  const RunAction: string := "agents.run"

  // ---------------------------------------------------------------------------
  // Outcome of a run
  // ---------------------------------------------------------------------------

  /** The errors the core throws. */
  datatype Error =
    | AgentDisabled
    | ConfigNotFoundAfterToggle
    | InputNotSerializable
    | DuplicateRunId
    | ProviderError(body: string)

  /** The `message` of each thrown error, as the 500 response carries it. */
  function Message(e: Error): string {
    match e
    case AgentDisabled => "Agent disabled"
    case ConfigNotFoundAfterToggle => "config not found after toggle"
    case InputNotSerializable => "Cannot read properties of undefined " + "(reading 'slice')"
    case DuplicateRunId => "duplicate key value violates " + "unique constraint \"agent_runs_pkey\""
    case ProviderError(body) => "OpenAI error: " + body
  }

  /** No two errors share a message, so the 500 response tells which step failed. */
  lemma MessageInjective(e1: Error, e2: Error)
    ensures Message(e1) == Message(e2) ==> e1 == e2
  {
    if Message(e1) == Message(e2) {
      MessageInitial(e1);
      MessageInitial(e2);
      if e1.ProviderError? {
        assert e1.body == Message(e1)[14..];
        assert e2.body == Message(e2)[14..];
      }
    }
  }

  /** The first character of a message tells the error apart. */
  lemma MessageInitial(e: Error)
    ensures |Message(e)| >= 14
    ensures e.AgentDisabled? ==> Message(e)[0] == 'A'
    ensures e.ConfigNotFoundAfterToggle? ==> Message(e)[0] == 'c'
    ensures e.InputNotSerializable? ==> Message(e)[0] == 'C'
    ensures e.DuplicateRunId? ==> Message(e)[0] == 'd'
    ensures e.ProviderError? ==> Message(e)[0] == 'O'
  {
    match e
    case AgentDisabled =>
    case ConfigNotFoundAfterToggle =>
    case InputNotSerializable =>
    case DuplicateRunId =>
    case ProviderError(body) =>
      var prefix := "OpenAI error: ";
      assert Message(e) == prefix + body;
      assert Message(e)[0] == prefix[0];
  }

  /** The body of a successful `agents.run`. */
  datatype RunResult = RunResult(data: string, outputPath: Option<string>, usage: Usage, runId: string)

  /** Which error, if any, `runAgent` throws, in the order its steps can fail: the
      config check, serialising a missing input, inserting the run, the provider call. */
  function RunFailure(cfg: Option<AgentConfig>, input: Option<Value>, idTaken: bool, reply: ModelReply): (e: Option<Error>)
    ensures cfg.None? || !cfg.value.enabled ==> e == Some(AgentDisabled)
    ensures e.None? <==> cfg.Some? && cfg.value.enabled && input.Some? && !idTaken && reply.Completion?
  {
    if cfg.None? || !cfg.value.enabled then Some(AgentDisabled)
    else if input.None? then Some(InputNotSerializable)
    else if idTaken then Some(DuplicateRunId)
    else if reply.ProviderFailure? then Some(ProviderError(reply.body))
    else None
  }

  // ---------------------------------------------------------------------------
  // The run pipeline as a state transition
  // ---------------------------------------------------------------------------

  /** The bucket artifacts go to, also `handler`'s default bucket. */
  const OutputsBucket: string := "outputs"
  /** The content type of artifacts, also `storagePutText`'s default. */
  const MarkdownType: string := "text/markdown"

  /** What one run takes from outside: the ISO timestamp standing for the clock, the id
      the database gives the run, the artifact's UUID, the provider's reply, and whether
      the `increment_usage_counters` call succeeds (else the fallback upsert runs). */
  datatype RunEnv = RunEnv(now: string, runId: string, fileId: string, reply: ModelReply, rpcAvailable: bool)

  /** The part of the store a run writes: runs, usage counters, audit entries, blobs,
      and the requests sent to the provider. */
  datatype Ledger = Ledger(
    runs: seq<AgentRun>,
    counters: map<(string, string), Counter>,
    audit: seq<AuditEntry>,
    blobs: map<(string, string), Blob>,
    providerCalls: seq<ChatRequest>)

  function RunIdsOf(runs: seq<AgentRun>): set<string> {
    set r | r in runs :: r.id
  }

  /** Where the artifact of a run goes: nowhere for `prazos`, else its dated path. */
  function OutputPathFor(org: string, key: string, env: RunEnv): (r: Option<string>)
    ensures r.None? <==> key == DeadlinesKey
    ensures r.Some? ==> r.value == ArtifactPath(org, key, env.now, env.fileId)
  {
    if key == DeadlinesKey then None else Some(ArtifactPath(org, key, env.now, env.fileId))
  }

  /** The ledger after the steps that follow a successful provider call: the artifact,
      usage accounting, the audit entry, and the update marking the run done. */
  function Finished(org: string, key: string, content: string, usage: Usage, env: RunEnv, l: Ledger): (r: Ledger)
    ensures |r.runs| == |l.runs| && r.providerCalls == l.providerCalls
    ensures r.audit == l.audit + [AuditEntry(org, None, RunAction, RunMeta(key, usage, OutputPathFor(org, key, env)))]
    ensures r.counters.Keys == l.counters.Keys + {(org, Period(env.now))}
    ensures key == DeadlinesKey ==> r.blobs == l.blobs
    ensures key != DeadlinesKey ==>
              r.blobs == l.blobs[(OutputsBucket, ArtifactPath(org, key, env.now, env.fileId)) := Blob(content, MarkdownType)]
  {
    var path := OutputPathFor(org, key, env);
    l.(runs := MarkDone(l.runs, env.runId, path, env.now),
       counters := Account(l.counters, (org, Period(env.now)), Deltas(usage), env.rpcAvailable),
       audit := l.audit + [AuditEntry(org, None, RunAction, RunMeta(key, usage, path))],
       blobs := if path.Some? then l.blobs[(OutputsBucket, path.value) := Blob(content, MarkdownType)] else l.blobs)
  }

  /** The steps of `runAgent` once its checks have passed: insert the queued run, call
      the provider, and on a completion finish the run. A provider failure leaves the
      queued run and the request written. */
  function Launched(prompts: seq<(string, string)>, cfg: AgentConfig, org: string, key: string, input: Value, env: RunEnv, l: Ledger)
    : (r: (Result<RunResult, Error>, Ledger))
    ensures r.0.Err? <==> env.reply.ProviderFailure?
    ensures |r.1.runs| == |l.runs| + 1
    ensures r.1.providerCalls == l.providerCalls + [Request(prompts, cfg, key, input)]
    ensures r.0.Ok? ==> r.0.value.runId == env.runId && r.0.value.outputPath == OutputPathFor(org, key, env)
  {
    var called := l.(runs := l.runs + [QueuedRun(env.runId, org, key, Summary(input))],
                     providerCalls := l.providerCalls + [Request(prompts, cfg, key, input)]);
    match env.reply
    case ProviderFailure(body) => (Err(ProviderError(body)), called)
    case Completion(content, usage) =>
      var text := content.GetOr("");
      var u := usage.GetOr(ZeroUsage);
      (Ok(RunResult(text, OutputPathFor(org, key, env), u, env.runId)), Finished(org, key, text, u, env, called))
  }

  /** `runAgent` as a function of the resolved configuration and the ledger before the
      run: its result and the ledger after it. It throws exactly when one of its steps
      fails, with the error of the first step that fails, and a successful run answers
      with the id of the run it inserted. A failed check writes nothing. */
  function RunStep(prompts: seq<(string, string)>, cfg: Option<AgentConfig>, org: string, key: string, input: Option<Value>, env: RunEnv, l: Ledger)
    : (r: (Result<RunResult, Error>, Ledger))
    ensures var e := RunFailure(cfg, input, env.runId in RunIdsOf(l.runs), env.reply);
            && (r.0.Err? <==> e.Some?)
            && (r.0.Err? ==> r.0.error == e.value)
            && (r.0.Ok? ==> r.0.value.runId == env.runId)
  {
    if cfg.None? || !cfg.value.enabled then (Err(AgentDisabled), l)
    else if input.None? then (Err(InputNotSerializable), l)
    else if env.runId in RunIdsOf(l.runs) then (Err(DuplicateRunId), l)
    else Launched(prompts, cfg.value, org, key, input.value, env, l)
  }

  // ---------------------------------------------------------------------------
  // Laws of the run pipeline
  // ---------------------------------------------------------------------------

  /** A run whose configuration is missing or disabled, whose input is missing or whose
      id is taken writes nothing: no run row, no provider call, no storage, usage or audit. */
  lemma RejectedRunWritesNothing(prompts: seq<(string, string)>, cfg: Option<AgentConfig>, org: string, key: string,
                                 input: Option<Value>, env: RunEnv, l: Ledger)
    requires cfg.None? || !cfg.value.enabled || input.None? || env.runId in RunIdsOf(l.runs)
    ensures RunStep(prompts, cfg, org, key, input, env, l).1 == l
    ensures cfg.None? || !cfg.value.enabled ==> RunStep(prompts, cfg, org, key, input, env, l).0 == Err(AgentDisabled)
  {
  }

  /** A provider failure propagates its response text; the inserted run stays `queued`,
      exactly one request was sent, and no artifact, usage, audit or run update is written. */
  lemma ProviderFailureLeavesQueued(prompts: seq<(string, string)>, cfg: AgentConfig, org: string, key: string,
                                    input: Value, env: RunEnv, l: Ledger)
    requires cfg.enabled && env.runId !in RunIdsOf(l.runs) && env.reply.ProviderFailure?
    ensures var (r, after) := RunStep(prompts, Some(cfg), org, key, Some(input), env, l);
            && r == Err(ProviderError(env.reply.body))
            && after.runs == l.runs + [QueuedRun(env.runId, org, key, Summary(input))]
            && after.runs[|l.runs|].status == Queued
            && after.providerCalls == l.providerCalls + [Request(prompts, cfg, key, input)]
            && after.counters == l.counters && after.audit == l.audit && after.blobs == l.blobs
  {
  }

  /** Every row of a table whose ids exclude `id` has an id other than `id`. */
  lemma FreshRunId(runs: seq<AgentRun>, id: string)
    requires id !in RunIdsOf(runs)
    ensures forall i :: 0 <= i < |runs| ==> runs[i].id != id
  {
    forall i | 0 <= i < |runs| ensures runs[i].id != id {
      assert runs[i] in runs;
    }
  }

  /** On a completion, the run inserted for this call, and no other, becomes `done` with
      the output path and the finishing time; exactly one `agents.run` audit entry and one
      provider request are appended; the result carries the content and the inserted id. */
  lemma CompletedRun(prompts: seq<(string, string)>, cfg: AgentConfig, org: string, key: string,
                     input: Value, env: RunEnv, l: Ledger)
    requires cfg.enabled && env.runId !in RunIdsOf(l.runs) && env.reply.Completion?
    ensures var (r, after) := RunStep(prompts, Some(cfg), org, key, Some(input), env, l);
            var path := OutputPathFor(org, key, env);
            && r.Ok?
            && r.value == RunResult(env.reply.content.GetOr(""), path, env.reply.usage.GetOr(ZeroUsage), env.runId)
            && after.runs == l.runs + [AgentRun(env.runId, org, key, None, Some(Summary(input)), Done, path, Some(env.now))]
            && after.audit == l.audit + [AuditEntry(org, None, RunAction, RunMeta(key, r.value.usage, path))]
            && after.providerCalls == l.providerCalls + [Request(prompts, cfg, key, input)]
  {
    var run := QueuedRun(env.runId, org, key, Summary(input));
    FreshRunId(l.runs, env.runId);
    MarkDoneLast(l.runs, run, OutputPathFor(org, key, env), env.now);
  }

  /** On a completion, storage gains the artifact at its dated path unless the key is
      `prazos`, and no other object changes; the (org, period) counter is accounted and
      no other counter changes. */
  lemma CompletedRunWrites(prompts: seq<(string, string)>, cfg: AgentConfig, org: string, key: string,
                           input: Value, env: RunEnv, l: Ledger)
    requires cfg.enabled && env.runId !in RunIdsOf(l.runs) && env.reply.Completion?
    ensures var after := RunStep(prompts, Some(cfg), org, key, Some(input), env, l).1;
            var content := env.reply.content.GetOr("");
            var k := (org, Period(env.now));
            && (key == DeadlinesKey ==> after.blobs == l.blobs)
            && (key != DeadlinesKey ==>
                  after.blobs == l.blobs[(OutputsBucket, ArtifactPath(org, key, env.now, env.fileId)) := Blob(content, MarkdownType)])
            && after.counters == Account(l.counters, k, Deltas(env.reply.usage.GetOr(ZeroUsage)), env.rpcAvailable)
            && forall k' :: k' in l.counters && k' != k ==> after.counters[k'] == l.counters[k']
  {
  }

  /** A run only appends to the run and audit tables: at most one row each, every earlier
      run row left as it was, and run ids kept unique. */
  lemma RunStepHistory(prompts: seq<(string, string)>, cfg: Option<AgentConfig>, org: string, key: string,
                       input: Option<Value>, env: RunEnv, l: Ledger)
    requires UniqueRunIds(l.runs)
    ensures var after := RunStep(prompts, cfg, org, key, input, env, l).1;
            && |l.runs| <= |after.runs| <= |l.runs| + 1
            && (forall i :: 0 <= i < |l.runs| ==> after.runs[i] == l.runs[i])
            && UniqueRunIds(after.runs)
            && l.audit <= after.audit
            && |after.audit| <= |l.audit| + 1
  {
    if cfg.Some? && cfg.value.enabled && input.Some? && env.runId !in RunIdsOf(l.runs) {
      FreshRunId(l.runs, env.runId);
      if env.reply.Completion? {
        CompletedRun(prompts, cfg.value, org, key, input.value, env, l);
      } else {
        ProviderFailureLeavesQueued(prompts, cfg.value, org, key, input.value, env, l);
      }
    }
  }
}
