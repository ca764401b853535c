/** `handler` (supabase/functions/mcp-supabase/index.ts:188-247) on a POST request: it
    routes the tool, runs the selected operation on the store and answers. */
module Dispatch {
  import opened Wrappers
  import opened Agents
  import opened Runs
  import opened Store
  import opened Tools

  /** The tables of a store, as `Handled` sees them. */
  function TablesOf(s: Store): Db
    reads s`catalog, s`overrides, s`runs, s`counters, s`audit, s`blobs, s`providerCalls
  {
    Db(s.catalog, s.overrides, s.Tables())
  }

  /** Answer one request: validate it, run the operation its tool selects, and turn an
      error the operation throws into a 500 carrying its message. */
  method Handle(s: Store, supabaseUrl: string, tool: Option<string>, p: Params, env: RunEnv) returns (resp: Response)
    requires s.Valid() && s.HasBuiltInPrompts()
    modifies s`overrides, s`runs, s`counters, s`audit, s`blobs, s`providerCalls
    ensures s.Valid()
    ensures (resp, TablesOf(s)) == Handled(BuiltInPrompts, supabaseUrl, old(TablesOf(s)), tool, p, env)
  {
    match RouteOf(tool, p)
    case Invalid(message) => resp := Failure(400, message);
    case UnknownTool => resp := Failure(404, "Unknown tool");
    case Call(op) => resp := Execute(s, supabaseUrl, op, env);
  }

  /** Run one validated operation on the store. */
  method Execute(s: Store, supabaseUrl: string, op: Op, env: RunEnv) returns (resp: Response)
    requires s.Valid()
    modifies s`overrides, s`runs, s`counters, s`audit, s`blobs, s`providerCalls
    ensures s.Valid()
    ensures (resp, TablesOf(s)) == Perform(s.prompts, supabaseUrl, old(TablesOf(s)), op, env)
  {
    match op
    case ListOp(org) =>
      var list := s.ListAgents(org);
      resp := Success(Configs(list));
    case GetConfigOp(org, key) =>
      var cfg := s.GetAgentConfig(org, key);
      resp := Success(MaybeConfig(cfg));
    case ToggleOp(org, key, enabled) =>
      var r := s.ToggleAgent(org, key, enabled);
      resp := if r.Ok? then Success(Toggled(r.value)) else Thrown(r.error);
    case RunOp(org, key, input) =>
      var r := s.RunAgent(org, key, input, env);
      resp := if r.Ok? then Success(Ran(r.value)) else Thrown(r.error);
    case PutTextOp(bucket, path, text, contentType) =>
      var stored := s.StoragePutText(bucket, path, text, contentType);
      resp := Success(Stored(stored));
    case GetUrlOp(bucket, path) =>
      resp := Success(Url(StorageGetUrl(supabaseUrl, bucket, path)));
  }
}
