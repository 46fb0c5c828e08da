/** The request handlers: the tool listing, and the tool call that routes a
    name to a tool, gates its run behind `ensureSqlConnection` and wraps every
    outcome in a `{content, isError}` envelope. */
module Dispatch {
  import opened Wrappers
  import opened Config
  import opened Session

  /** A JSON argument value (numbers restricted to integers). */
  datatype Json =
    | JNull
    | JBool(b: bool)
    | JNumber(n: int)
    | JString(s: string)
    | JArray(items: seq<Json>)
    | JObject(fields: map<string, Json>)

  /** The request's `arguments`: an object, or absent. */
  type Arguments = Option<map<string, Json>>

  datatype Tool = ReadData | ListTable | DescribeTable

  function Name(tool: Tool): string {
    match tool
    case ReadData => "read_data"
    case ListTable => "list_table"
    case DescribeTable => "describe_table"
  }

  // ---------------------------------------------------------------------------
  // Listing

  /** Read-only mode: READONLY is exactly the lower-case word "true". Unlike
      TRUST_SERVER_CERTIFICATE, the comparison is case-sensitive. */
  predicate IsReadOnly(env: Env)
    ensures IsReadOnly(env) <==> "READONLY" in env && env["READONLY"] == "true"
    ensures "READONLY" in env && env["READONLY"] == "TRUE" ==> !IsReadOnly(env)
  {
    EnvVar(env, "READONLY") == Some("true")
  }

  /** The tools advertised in read-only mode and in full mode. */
  function ListTools(readOnly: bool): (r: seq<Tool>)
    ensures |r| == 3
    ensures ReadData in r && ListTable in r && DescribeTable in r
  {
    if readOnly then [ListTable, ReadData, DescribeTable] else [ReadData, DescribeTable, ListTable]
  }

  /** Both modes advertise the same three distinct tools, each once, in a different order. */
  lemma ListingsDifferOnlyInOrder()
    ensures multiset(ListTools(true)) == multiset(ListTools(false))
    ensures ListTools(true) != ListTools(false)
    ensures forall i, j :: 0 <= i < j < 3 ==> ListTools(true)[i] != ListTools(true)[j]
    ensures forall i, j :: 0 <= i < j < 3 ==> ListTools(false)[i] != ListTools(false)[j]
  {
  }

  /** Exactly the value "true" gives the read-only listing; an unset READONLY
      or any other value gives the full-mode order. */
  lemma ReadOnlyIsExact(env: Env)
    ensures ListTools(IsReadOnly(env)) == [ListTable, ReadData, DescribeTable] <==> EnvVar(env, "READONLY") == Some("true")
    ensures EnvVar(env, "READONLY") != Some("true") ==> ListTools(IsReadOnly(env)) == [ReadData, DescribeTable, ListTable]
  {
  }

  // ---------------------------------------------------------------------------
  // Calling

  /** One `{type: "text", text}` content item. */
  datatype TextContent = TextContent(text: string)

  /** The response envelope; `isError` is absent on success. */
  datatype CallToolResult = CallToolResult(content: seq<TextContent>, isError: Option<bool>)

  const UNKNOWN_TOOL_PREFIX := "Unknown tool: "
  const INVALID_TABLE_NAME_MESSAGE := "Missing or invalid 'tableName' argument for describe_table tool."
  const ERROR_PREFIX := "Error occurred: "

  function ErrorResult(text: string): CallToolResult {
    CallToolResult([TextContent(text)], Some(true))
  }

  /** The `switch (name)` over the three tool names. */
  function Lookup(name: string): (r: Option<Tool>)
    ensures r.Some? ==> Name(r.value) == name
    ensures r.None? ==> forall t: Tool :: Name(t) != name
  {
    if name == Name(ReadData) then Some(ReadData)
    else if name == Name(ListTable) then Some(ListTable)
    else if name == Name(DescribeTable) then Some(DescribeTable)
    else None
  }

  /** `args` is present and its `tableName` is a string. */
  predicate HasTableName(args: Arguments)
    ensures HasTableName(args) <==> args.Some? && exists t :: "tableName" in args.value && args.value["tableName"] == JString(t)
  {
    args.Some? && "tableName" in args.value && args.value["tableName"].JString?
  }

  /** Where a call goes before anything runs: to a tool, or straight back with an error. */
  datatype Route = Invoke(tool: Tool) | Respond(result: CallToolResult)

  function RouteCall(name: string, args: Arguments): (r: Route)
    ensures r.Invoke? <==> Lookup(name).Some? && (name == Name(DescribeTable) ==> HasTableName(args))
    ensures r.Invoke? ==> Name(r.tool) == name
    ensures r.Respond? ==> |r.result.content| == 1 && r.result.isError == Some(true)
  {
    match Lookup(name)
    case None => Respond(ErrorResult(UNKNOWN_TOOL_PREFIX + name))
    case Some(tool) =>
      if tool == DescribeTable && !HasTableName(args) then Respond(ErrorResult(INVALID_TABLE_NAME_MESSAGE))
      else Invoke(tool)
  }

  /** What the tool's own `run` did: returned a value or threw (the error already as text). */
  datatype RunOutcome<R> = Returned(value: R) | Threw(error: string)

  /** The envelope for a routed call: `ensured` is how `ensureSqlConnection`
      ended, `run` what the tool's run would do, `serialize` stands for
      `JSON.stringify(result, null, 2)`. */
  function Completed<R>(ensured: Outcome<string>, run: RunOutcome<R>, serialize: R -> string): (r: CallToolResult)
    ensures |r.content| == 1
    ensures r.isError.None? <==> ensured.Pass? && run.Returned?
    ensures r.isError.Some? ==> r.isError.value && ERROR_PREFIX <= r.content[0].text
  {
    if ensured.Fail? then ErrorResult(ERROR_PREFIX + ensured.error)
    else
      match run
      case Threw(e) => ErrorResult(ERROR_PREFIX + e)
      case Returned(v) => CallToolResult([TextContent(serialize(v))], None)
  }

  /** The session state, the envelope and the foreign calls after one tool call. */
  datatype Handled = Handled(state: SessionState, result: CallToolResult, effects: Effects)

  /** The CallTool handler on session state `s`, the wrapped `run` calling
      `ensureSqlConnection` (with `now` and `io`) before the tool's own run. */
  function CallTool<R>(s: SessionState, name: string, args: Arguments, env: Env, now: int,
                       io: DriverResponses, run: RunOutcome<R>, serialize: R -> string): (h: Handled)
    ensures |h.result.content| == 1 && h.result.isError != Some(false)
    ensures h.result.isError.None? <==>
              RouteCall(name, args).Invoke? && EnsureStep(s, env, now, io).outcome.Pass? && run.Returned?
    ensures RouteCall(name, args).Respond? ==> h.state == s && h.effects == NO_EFFECTS
  {
    match RouteCall(name, args)
    case Respond(result) => Handled(s, result, NO_EFFECTS)
    case Invoke(_) =>
      var step := EnsureStep(s, env, now, io);
      Handled(step.state, Completed(step.outcome, run, serialize), step.effects)
  }

  /** An unknown name is answered with `Unknown tool: <name>`; nothing is connected or changed. */
  lemma UnknownTool<R>(s: SessionState, name: string, args: Arguments, env: Env, now: int,
                       io: DriverResponses, run: RunOutcome<R>, serialize: R -> string)
    requires name != "read_data" && name != "list_table" && name != "describe_table"
    ensures CallTool(s, name, args, env, now, io, run, serialize) ==
              Handled(s, ErrorResult(UNKNOWN_TOOL_PREFIX + name), NO_EFFECTS)
  {
  }

  /** describe_table without arguments or with a non-string `tableName` is
      refused before `run`, so no connection is attempted. */
  lemma DescribeTableNeedsTableName<R>(s: SessionState, args: Arguments, env: Env, now: int,
                                       io: DriverResponses, run: RunOutcome<R>, serialize: R -> string)
    requires args.None? || "tableName" !in args.value || !args.value["tableName"].JString?
    ensures CallTool(s, "describe_table", args, env, now, io, run, serialize) ==
              Handled(s, ErrorResult(INVALID_TABLE_NAME_MESSAGE), NO_EFFECTS)
  {
  }

  /** Every routed call goes through `ensureSqlConnection` first: its state
      change and foreign calls are exactly those of one `ensureSqlConnection`. */
  lemma RoutedCallEnsuresConnection<R>(s: SessionState, name: string, args: Arguments, env: Env, now: int,
                                       io: DriverResponses, run: RunOutcome<R>, serialize: R -> string)
    requires RouteCall(name, args).Invoke?
    ensures var h := CallTool(s, name, args, env, now, io, run, serialize);
      h.state == EnsureStep(s, env, now, io).state && h.effects == EnsureStep(s, env, now, io).effects
  {
  }

  /** A throwing `ensureSqlConnection` becomes `Error occurred: <error>` and the tool never runs. */
  lemma ConnectionErrorReported<R>(s: SessionState, name: string, args: Arguments, env: Env, now: int,
                                   io: DriverResponses, run: RunOutcome<R>, serialize: R -> string)
    requires RouteCall(name, args).Invoke?
    requires EnsureStep(s, env, now, io).outcome.Fail?
    ensures CallTool(s, name, args, env, now, io, run, serialize).result ==
              ErrorResult(ERROR_PREFIX + EnsureStep(s, env, now, io).outcome.error)
  {
  }

  /** A throwing `run` becomes `Error occurred: <error>`. */
  lemma RunErrorReported<R>(s: SessionState, name: string, args: Arguments, env: Env, now: int,
                            io: DriverResponses, e: string, serialize: R -> string)
    requires RouteCall(name, args).Invoke?
    requires EnsureStep(s, env, now, io).outcome.Pass?
    ensures CallTool(s, name, args, env, now, io, Threw(e), serialize).result == ErrorResult(ERROR_PREFIX + e)
  {
  }

  /** A returning `run` gives one text item holding the serialised result and no `isError`. */
  lemma SuccessEnvelope<R>(s: SessionState, name: string, args: Arguments, env: Env, now: int,
                           io: DriverResponses, v: R, serialize: R -> string)
    requires RouteCall(name, args).Invoke?
    requires EnsureStep(s, env, now, io).outcome.Pass?
    ensures CallTool(s, name, args, env, now, io, Returned(v), serialize).result ==
              CallToolResult([TextContent(serialize(v))], None)
  {
  }

  /** With AUTH_TYPE=sql, SQL_USER=u and SQL_PASSWORD=p, a first `list_table`
      call connects once, with a SQL-login configuration, and succeeds. */
  lemma SqlLoginFirstCall<R>(now: int, io: DriverResponses, v: R, serialize: R -> string)
    requires io.connect.Success?
    ensures var env := map["AUTH_TYPE" := "sql", "SQL_USER" := "u", "SQL_PASSWORD" := "p"];
      var h := CallTool(INITIAL_STATE, "list_table", None, env, now, io, Returned(v), serialize);
      && h.result == CallToolResult([TextContent(serialize(v))], None)
      && ConnectCount(h.effects) == 1
      && h.effects.connectCalledWith.value.user == Some("u")
      && h.effects.connectCalledWith.value.password == Some("p")
      && h.effects.connectCalledWith.value.authentication == None
      && h.state.pool == Some(PoolHandle(io.connect.value, true))
  {
    var env := map["AUTH_TYPE" := "sql", "SQL_USER" := "u", "SQL_PASSWORD" := "p"];
    assert Lower("sql") == "sql";
    assert AuthType(env) == SQL_AUTH_TYPE;
  }

  /** The CallTool handler against the live session manager. */
  method HandleCallTool<R>(manager: SessionManager, name: string, args: Arguments, env: Env, now: int,
                           io: DriverResponses, run: RunOutcome<R>, serialize: R -> string)
    returns (result: CallToolResult)
    requires manager.Valid()
    modifies manager
    ensures manager.Valid()
    ensures var h := CallTool(old(manager.State()), name, args, env, now, io, run, serialize);
      && result == h.result && manager.State() == h.state
      && manager.Counters() == Tallied(old(manager.Counters()), h.effects, io)
  {
    match RouteCall(name, args)
    case Respond(response) =>
      assert old(manager.Counters()).connectLog + [] == old(manager.Counters()).connectLog;
      return response;
    case Invoke(_) =>
      var ensured := manager.EnsureSqlConnection(env, now, io);
      return Completed(ensured, run, serialize);
  }
}
