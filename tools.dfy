/** The tool dispatch of `handler` (supabase/functions/mcp-supabase/index.ts:188-247)
    as pure functions: the tool name, the validation of each branch, and the response
    and tables each request leads to. */
module Tools {
  import opened Wrappers
  import opened Text
  import opened Agents
  import opened Runs

  /** The `params` object of a request. Identifiers, paths, buckets and content types
      are strings when present; `enabled`, `input` and `text` may be any JSON value. */
  datatype Params = Params(
    orgId: Option<string>,
    agentKey: Option<string>,
    enabled: Option<Value>,
    input: Option<Value>,
    bucket: Option<string>,
    path: Option<string>,
    text: Option<Value>,
    contentType: Option<string>)

  /** `body.params ?? {}` when the request has no parameters. */
  const NoParams: Params := Params(None, None, None, None, None, None, None, None)

  /** A parameter passes a `!x` check: it is present and not the empty string. */
  predicate Given(x: Option<string>) {
    x.Some? && x.value != ""
  }

  /** `const [ns, name] = tool.split(".")`: the first two dot-separated parts; `name`
      is absent when the tool has no dot. */
  function ToolName(tool: string): (r: (string, Option<string>))
    ensures '.' !in r.0 && (r.1.Some? ==> '.' !in r.1.value)
    ensures r.1.None? ==> r.0 == tool
  {
    var parts := Split(tool, '.');
    (parts[0], if |parts| >= 2 then Some(parts[1]) else None)
  }

  /** The tools `handler` serves. */
  datatype Tool = ListTool | GetConfigTool | ToggleTool | RunTool | PutTextTool | GetUrlTool

  /** The (namespace, name) of a tool. */
  function ToolKey(t: Tool): (string, string) {
    match t
    case ListTool => ("agents", "list")
    case GetConfigTool => ("agents", "getConfig")
    case ToggleTool => ("agents", "toggle")
    case RunTool => ("agents", "run")
    case PutTextTool => ("storage", "putText")
    case GetUrlTool => ("storage", "getUrl")
  }

  /** The tool a (namespace, name) pair selects, if any: the `ns === ... && name === ...`
      tests of `handler`, in their order. */
  function ToolOf(ns: string, name: Option<string>): (t: Option<Tool>)
    ensures t.Some? ==> (ns, name) == (ToolKey(t.value).0, Some(ToolKey(t.value).1))
  {
    if ns == "agents" && name == Some("list") then Some(ListTool)
    else if ns == "agents" && name == Some("getConfig") then Some(GetConfigTool)
    else if ns == "agents" && name == Some("toggle") then Some(ToggleTool)
    else if ns == "agents" && name == Some("run") then Some(RunTool)
    else if ns == "storage" && name == Some("putText") then Some(PutTextTool)
    else if ns == "storage" && name == Some("getUrl") then Some(GetUrlTool)
    else None
  }

  /** A validated call of one of the core's operations. */
  datatype Op =
    | ListOp(orgId: string)
    | GetConfigOp(orgId: string, agentKey: string)
    | ToggleOp(orgId: string, agentKey: string, enabled: bool)
    | RunOp(orgId: string, agentKey: string, input: Option<Value>)
    | PutTextOp(bucket: string, path: string, text: string, contentType: string)
    | GetUrlOp(bucket: string, path: string)

  /** The tool whose branch makes a call. */
  function OpTool(op: Op): Tool {
    match op
    case ListOp(_) => ListTool
    case GetConfigOp(_, _) => GetConfigTool
    case ToggleOp(_, _, _) => ToggleTool
    case RunOp(_, _, _) => RunTool
    case PutTextOp(_, _, _, _) => PutTextTool
    case GetUrlOp(_, _) => GetUrlTool
  }

  /** Where a request goes: rejected with a 400 message, unknown, or an operation. */
  datatype Route = Invalid(message: string) | UnknownTool | Call(op: Op)

  /** The parameter checks of a tool's branch and the call it makes when they pass;
      `bucket` and `contentType` take their defaults only when absent. */
  function Validate(t: Tool, p: Params): (r: Route)
    ensures !r.UnknownTool?
    ensures r.Call? ==> OpTool(r.op) == t
  {
    match t
    case ListTool =>
      if !Given(p.orgId) then Invalid("orgId required") else Call(ListOp(p.orgId.value))
    case GetConfigTool =>
      if !Given(p.orgId) || !Given(p.agentKey) then Invalid("orgId and agentKey required")
      else Call(GetConfigOp(p.orgId.value, p.agentKey.value))
    case ToggleTool =>
      if !Given(p.orgId) || !Given(p.agentKey) || p.enabled.None? || !p.enabled.value.Bool? then
        Invalid("orgId, agentKey, enabled required")
      else Call(ToggleOp(p.orgId.value, p.agentKey.value, p.enabled.value.b))
    case RunTool =>
      if !Given(p.orgId) || !Given(p.agentKey) then Invalid("orgId and agentKey required")
      else Call(RunOp(p.orgId.value, p.agentKey.value, p.input))
    case PutTextTool =>
      if !Given(p.path) || p.text.None? || !p.text.value.Str? then Invalid("path and text required")
      else Call(PutTextOp(p.bucket.GetOr(OutputsBucket), p.path.value, p.text.value.s, p.contentType.GetOr(MarkdownType)))
    case GetUrlTool =>
      if !Given(p.path) then Invalid("path required")
      else Call(GetUrlOp(p.bucket.GetOr(OutputsBucket), p.path.value))
  }

  /** The branch of `handler` a request takes: `body.tool ?? ""` split into its name,
      then the selected tool's checks, or 404 when no tool is selected. */
  function RouteOf(tool: Option<string>, p: Params): (r: Route)
    ensures var (ns, name) := ToolName(tool.GetOr(""));
            && (r.UnknownTool? <==> ToolOf(ns, name).None?)
            && (r.Call? ==> ToolOf(ns, name) == Some(OpTool(r.op)))
  {
    var (ns, name) := ToolName(tool.GetOr(""));
    match ToolOf(ns, name)
    case None => UnknownTool
    case Some(t) => Validate(t, p)
  }

  /** The route of public objects under the project URL. */
  const PublicRoute: string := "/storage/v1/object/public/"

  /** `storageGetUrl`: the public URL of an object under the project URL. */
  function StorageGetUrl(supabaseUrl: string, bucket: string, path: string): (url: string)
    ensures supabaseUrl <= url
    ensures |url| == |supabaseUrl| + |PublicRoute| + |bucket| + 1 + |path|
    ensures url[|supabaseUrl|..|supabaseUrl| + |PublicRoute|] == PublicRoute
    ensures url[|url| - |path| - 1 - |bucket|..|url| - |path| - 1] == bucket
    ensures url[|url| - |path|..] == path && url[|url| - |path| - 1] == '/'
  {
    supabaseUrl + PublicRoute + bucket + "/" + path
  }

  /** The JSON body of a 200 response. */
  datatype Body =
    | Configs(list: seq<AgentConfig>)
    | MaybeConfig(cfg: Option<AgentConfig>)
    | Toggled(config: AgentConfig)
    | Ran(result: RunResult)
    | Stored(path: string)
    | Url(url: string)

  /** A response: 200 with a body, or an error status with `{ error: message }`. */
  datatype Response = Success(body: Body) | Failure(status: nat, message: string)

  function Status(r: Response): nat {
    if r.Success? then 200 else r.status
  }

  /** How `handler` answers an error that an operation throws. */
  function Thrown(e: Error): Response {
    Failure(500, Message(e))
  }

  /** The tables `handler` works on. */
  datatype Db = Db(catalog: seq<CatalogRow>, overrides: map<(string, string), Override>, tables: Ledger)

  /** The response to an operation and the tables after it. */
  function Perform(prompts: seq<(string, string)>, supabaseUrl: string, db: Db, op: Op, env: RunEnv): (r: (Response, Db))
    ensures r.1.catalog == db.catalog
    ensures r.0.Failure? ==> r.0.status == 500 && (op.ToggleOp? || op.RunOp?)
    ensures op.ListOp? || op.GetConfigOp? || op.GetUrlOp? ==> r.1 == db
    ensures !op.ToggleOp? ==> r.1.overrides == db.overrides
  {
    match op
    case ListOp(org) =>
      (Success(Configs(Resolve(db.catalog, OrgOverrides(db.overrides, org)))), db)
    case GetConfigOp(org, key) =>
      (Success(MaybeConfig(ConfigOf(db.catalog, db.overrides, org, key))), db)
    case ToggleOp(org, key, enabled) =>
      var ovs := ToggledOverrides(db.overrides, org, key, enabled);
      var cfg := ConfigOf(db.catalog, ovs, org, key);
      (if cfg.Some? then Success(Toggled(cfg.value)) else Thrown(ConfigNotFoundAfterToggle), db.(overrides := ovs))
    case RunOp(org, key, input) =>
      var (r, l) := RunStep(prompts, ConfigOf(db.catalog, db.overrides, org, key), org, key, input, env, db.tables);
      (if r.Ok? then Success(Ran(r.value)) else Thrown(r.error), db.(tables := l))
    case PutTextOp(bucket, path, text, contentType) =>
      (Success(Stored(path)), db.(tables := db.tables.(blobs := db.tables.blobs[(bucket, path) := Blob(text, contentType)])))
    case GetUrlOp(bucket, path) =>
      (Success(Url(StorageGetUrl(supabaseUrl, bucket, path))), db)
  }

  /** `handler` on a POST request: the response and the tables after it. */
  function Handled(prompts: seq<(string, string)>, supabaseUrl: string, db: Db, tool: Option<string>, p: Params, env: RunEnv)
    : (r: (Response, Db))
    ensures r.1.catalog == db.catalog
    ensures r.0.Failure? && r.0.status != 500 ==> r.1 == db
  {
    match RouteOf(tool, p)
    case Invalid(message) => (Failure(400, message), db)
    case UnknownTool => (Failure(404, "Unknown tool"), db)
    case Call(op) => Perform(prompts, supabaseUrl, db, op, env)
  }

  // ---------------------------------------------------------------------------
  // Laws of dispatch
  // ---------------------------------------------------------------------------

  /** A tool `ns.name`, optionally followed by further dot-separated parts, names the
      namespace `ns` and the name `name`; the further parts are ignored. */
  lemma ToolNameParts(ns: string, name: string, rest: string)
    requires '.' !in ns && '.' !in name
    requires rest == "" || rest[0] == '.'
    ensures ToolName(ns + "." + name + rest) == (ns, Some(name))
  {
    assert ns + "." + name + rest == ns + ['.'] + (name + rest);
    SplitAfter(ns, '.', name + rest);
    SplitFirst(name, '.', rest);
  }

  /** Every tool is selected by its own (namespace, name) and by no other. */
  lemma ToolKeyRoundTrip(t: Tool, ns: string, name: Option<string>)
    ensures ToolOf(ToolKey(t).0, Some(ToolKey(t).1)) == Some(t)
    ensures ToolOf(ns, name) == Some(t) <==> (ns, name) == (ToolKey(t).0, Some(ToolKey(t).1))
  {
  }

  /** The tool string `ns.name`, followed by nothing or by further dot-separated parts,
      takes the branch of that tool. */
  lemma RouteOfTool(t: Tool, rest: string, p: Params)
    requires rest == "" || rest[0] == '.'
    ensures RouteOf(Some(ToolKey(t).0 + "." + ToolKey(t).1 + rest), p) == Validate(t, p)
  {
    var (ns, name) := ToolKey(t);
    assert '.' !in ns && '.' !in name by {
      match t
      case ListTool =>
      case GetConfigTool =>
      case ToggleTool =>
      case RunTool =>
      case PutTextTool =>
      case GetUrlTool =>
    }
    ToolNameParts(ns, name, rest);
    ToolKeyRoundTrip(t, ns, Some(name));
  }

  /** A tool without a dot has no name, so no branch serves it. */
  lemma DotlessToolUnknown(tool: string, p: Params)
    requires '.' !in tool
    ensures ToolName(tool) == (tool, None)
    ensures RouteOf(Some(tool), p) == UnknownTool
  {
    SplitWhole(tool, '.');
  }

  /** A request is unknown (404) exactly when its tool's (namespace, name) is that of no
      served tool. */
  lemma UnknownTools(tool: Option<string>, p: Params)
    ensures RouteOf(tool, p).UnknownTool? <==>
            forall t :: ToolName(tool.GetOr("")) != (ToolKey(t).0, Some(ToolKey(t).1))
  {
    var (ns, name) := ToolName(tool.GetOr(""));
    forall t ensures ToolOf(ns, name) == Some(t) <==> (ns, name) == (ToolKey(t).0, Some(ToolKey(t).1)) {
      ToolKeyRoundTrip(t, ns, name);
    }
  }

  /** A parameter a branch checks. */
  datatype Field = OrgIdField | AgentKeyField | EnabledField | PathField | TextField

  /** The parameters each tool requires. */
  function Required(t: Tool): set<Field> {
    match t
    case ListTool => {OrgIdField}
    case GetConfigTool => {OrgIdField, AgentKeyField}
    case ToggleTool => {OrgIdField, AgentKeyField, EnabledField}
    case RunTool => {OrgIdField, AgentKeyField}
    case PutTextTool => {PathField, TextField}
    case GetUrlTool => {PathField}
  }

  /** A required parameter is supplied: a non-empty string for ids and paths, a boolean
      `enabled`, a string `text`. */
  predicate Supplied(p: Params, f: Field) {
    match f
    case OrgIdField => Given(p.orgId)
    case AgentKeyField => Given(p.agentKey)
    case EnabledField => p.enabled.Some? && p.enabled.value.Bool?
    case PathField => Given(p.path)
    case TextField => p.text.Some? && p.text.value.Str?
  }

  /** A branch answers 400 exactly when one of its required parameters is not supplied. */
  lemma RejectedIffMissing(t: Tool, p: Params)
    ensures Validate(t, p).Invalid? <==> exists f :: f in Required(t) && !Supplied(p, f)
  {
    match t
    case ListTool => assert OrgIdField in Required(t);
    case GetConfigTool => assert OrgIdField in Required(t) && AgentKeyField in Required(t);
    case ToggleTool => assert OrgIdField in Required(t) && AgentKeyField in Required(t) && EnabledField in Required(t);
    case RunTool => assert OrgIdField in Required(t) && AgentKeyField in Required(t);
    case PutTextTool => assert PathField in Required(t) && TextField in Required(t);
    case GetUrlTool => assert PathField in Required(t);
  }

  /** The storage branches default the bucket to `outputs` and the content type to
      `text/markdown` only when the parameter is absent; an accepted call passes the
      given values through. */
  lemma StorageDefaults(p: Params)
    ensures Validate(PutTextTool, p).Call? ==>
              Validate(PutTextTool, p).op == PutTextOp(if p.bucket.None? then "outputs" else p.bucket.value, p.path.value,
                                                       p.text.value.s, if p.contentType.None? then "text/markdown" else p.contentType.value)
    ensures Validate(GetUrlTool, p).Call? ==>
              Validate(GetUrlTool, p).op == GetUrlOp(if p.bucket.None? then "outputs" else p.bucket.value, p.path.value)
  {
  }

  /** The status of a response tells which way the request went: 400 for a failed
      parameter check, 404 for an unknown tool, 500 for an error an operation threw,
      and 200 otherwise. A request that reaches no operation changes nothing. */
  lemma StatusOfRequest(prompts: seq<(string, string)>, supabaseUrl: string, db: Db, tool: Option<string>, p: Params, env: RunEnv)
    ensures var (resp, after) := Handled(prompts, supabaseUrl, db, tool, p, env);
            var route := RouteOf(tool, p);
            && Status(resp) in {200, 400, 404, 500}
            && (Status(resp) == 400 <==> route.Invalid?)
            && (Status(resp) == 404 <==> route.UnknownTool?)
            && (Status(resp) == 500 ==> route.Call? && (route.op.ToggleOp? || route.op.RunOp?))
            && (!route.Call? ==> after == db)
  {
  }

  /** `agents.run` answers 500 with the message of the first failing step exactly when
      `runAgent` throws, and 200 with the run's result otherwise. */
  lemma RunAnswer(prompts: seq<(string, string)>, supabaseUrl: string, db: Db, org: string, key: string,
                  input: Option<Value>, env: RunEnv)
    ensures var resp := Perform(prompts, supabaseUrl, db, RunOp(org, key, input), env).0;
            var e := RunFailure(ConfigOf(db.catalog, db.overrides, org, key), input, env.runId in RunIdsOf(db.tables.runs), env.reply);
            && (e.Some? ==> resp == Failure(500, Message(e.value)))
            && (e.None? ==> resp.Success? && resp.body.Ran? && resp.body.result.runId == env.runId)
  {
    var step := RunStep(prompts, ConfigOf(db.catalog, db.overrides, org, key), org, key, input, env, db.tables);
    assert Perform(prompts, supabaseUrl, db, RunOp(org, key, input), env).0
           == if step.0.Ok? then Success(Ran(step.0.value)) else Thrown(step.0.error);
  }

  /** `agents.toggle` writes the upserted override; it answers 500 with "config not found
      after toggle" exactly when the key is not in the catalog, and otherwise 200 with the
      key's previous configuration with `enabled` replaced. */
  lemma ToggleAnswer(prompts: seq<(string, string)>, supabaseUrl: string, db: Db, org: string, key: string,
                     enabled: bool, env: RunEnv)
    requires UniqueKeys(db.catalog)
    ensures var (resp, after) := Perform(prompts, supabaseUrl, db, ToggleOp(org, key, enabled), env);
            && after == db.(overrides := ToggledOverrides(db.overrides, org, key, enabled))
            && (key !in CatalogKeys(db.catalog) ==> resp == Failure(500, "config not found after toggle"))
            && (key in CatalogKeys(db.catalog) ==>
                  resp == Success(Toggled(ConfigOf(db.catalog, db.overrides, org, key).value.(enabled := enabled))))
  {
    ToggleResolution(db.catalog, db.overrides, org, key, enabled);
  }

  /** `agents.getConfig` for a key outside the catalog answers 200 with a null body. */
  lemma GetConfigOfUnknownKey(prompts: seq<(string, string)>, supabaseUrl: string, db: Db, tool: Option<string>,
                              p: Params, env: RunEnv)
    requires ToolName(tool.GetOr("")) == ("agents", Some("getConfig"))
    requires UniqueKeys(db.catalog)
    requires Given(p.orgId) && Given(p.agentKey) && p.agentKey.value !in CatalogKeys(db.catalog)
    ensures Handled(prompts, supabaseUrl, db, tool, p, env) == (Success(MaybeConfig(None)), db)
  {
    ToolKeyRoundTrip(GetConfigTool, "agents", Some("getConfig"));
    LookupResolved(db.catalog, OrgOverrides(db.overrides, p.orgId.value), p.agentKey.value);
  }

  /** `storage.getUrl` answers the public URL of the object, in the `outputs` bucket
      unless another bucket is given, and changes nothing. */
  lemma GetUrlAnswer(prompts: seq<(string, string)>, supabaseUrl: string, db: Db, tool: Option<string>, p: Params, env: RunEnv)
    requires ToolName(tool.GetOr("")) == ("storage", Some("getUrl"))
    requires Given(p.path)
    ensures Handled(prompts, supabaseUrl, db, tool, p, env)
            == (Success(Url(supabaseUrl + "/storage/v1/object/public/" + p.bucket.GetOr("outputs") + "/" + p.path.value)), db)
  {
    ToolKeyRoundTrip(GetUrlTool, "storage", Some("getUrl"));
  }

  /** Every request keeps the catalog, keeps every earlier run row except for the update
      of the run it inserted, and only ever appends to the run and audit tables: at most
      one run row and one audit entry per request. */
  lemma HistoryPreserved(prompts: seq<(string, string)>, supabaseUrl: string, db: Db, tool: Option<string>, p: Params, env: RunEnv)
    requires UniqueRunIds(db.tables.runs)
    ensures var after := Handled(prompts, supabaseUrl, db, tool, p, env).1;
            && after.catalog == db.catalog
            && |db.tables.runs| <= |after.tables.runs| <= |db.tables.runs| + 1
            && (forall i :: 0 <= i < |db.tables.runs| ==> after.tables.runs[i] == db.tables.runs[i])
            && db.tables.audit <= after.tables.audit
            && |after.tables.audit| <= |db.tables.audit| + 1
  {
    var route := RouteOf(tool, p);
    if route.Call? && route.op.RunOp? {
      var op := route.op;
      RunStepHistory(prompts, ConfigOf(db.catalog, db.overrides, op.orgId, op.agentKey), op.orgId, op.agentKey,
                     op.input, env, db.tables);
    }
  }
}
