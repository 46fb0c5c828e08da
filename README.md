# MSSQL MCP server: connection lifecycle and tool dispatch

This project models the core of the Node MSSQL MCP server in Dafny. The server exposes three read-only database tools (`read_data`, `list_table` and `describe_table`) to an MCP client. The model covers three parts:

- **The credential resolver** (`createSqlConfig`, module `Config`). It turns the process environment into the configuration handed to the `mssql` driver.
  - `AUTH_TYPE` is lower-cased. An unset or empty value means `azure-ad`.
  - `windows` selects NTLM. `sql` selects a SQL login.
  - Every other value selects an Azure AD access token from the interactive credential flow, with encryption forced on.
  - The defaults are modelled: a 30-second timeout, `trustServerCertificate` only when the value lower-cases to "true", and a token lifetime of 30 minutes when the credential flow does not report an expiry.
  - `parseInt(…, 10)` is modelled for `CONNECTION_TIMEOUT` and `PORT`: leading JavaScript white space, an optional sign, the longest run of digits, and NaN when there are none.
- **The session manager** (`ensureSqlConnection`, module `Session`). This is the state held in three module-level variables: the pool, the access token and its expiry.
  - `EnsureStep` is a pure function giving the effect of one call on that state.
  - Class `SessionManager` holds the three variables as fields. Its method `EnsureSqlConnection` updates them step by step, as the source does, and is proved equal to `EnsureStep`. Its second half is split into two methods, as in `EnsureStep`'s own definition: `Refresh` builds the configuration and `ReplaceSession` stores the token, closes the old pool and connects.
  - Ghost fields count configuration builds, the configurations passed to `sql.connect`, successful connects and completed closes. The class invariant says the number of pools opened equals the number closed plus one for a held connected pool, so at most one opened pool is live. Every open comes from a call of `sql.connect`.
  - The credential flow, the clock, `pool.close()` and `sql.connect()` are inputs (`DriverResponses`). The credential flow, `close()` and `connect()` may throw; the clock reading is a plain number.
- **The request handlers** (module `Dispatch`). `ListTools` gives the advertised tools for read-only mode and for full mode.
  - `CallTool` routes a tool name. It checks `tableName` for `describe_table`, runs `ensureSqlConnection` before the tool (this is what `wrapToolRun` installs), and wraps every outcome in a `{content, isError}` envelope.
  - `HandleCallTool` runs the same handler against a live `SessionManager`.

One subtlety is stated as a lemma (`Session.UnrecognisedAuthTypeMismatch`). An unrecognised `AUTH_TYPE` builds an access-token configuration in `createSqlConfig`. Yet `ensureSqlConnection` treats it like `windows`/`sql`: it reuses the pool on its `connected` flag alone and never stores the token.

Three behaviours of the code worth knowing:
- Read-only mode only reorders the listing and does not filter dispatch. Both modes list the same three tools, and all three can be called in either mode.
- There is no lock around `ensureSqlConnection`.
- A missing `SERVER_NAME` is not a configuration error. It is passed through as an absent server.

Files: `wrappers.dfy` (Option/Result/Outcome), `config.dfy`, `session.dfy`, `dispatch.dfy`.

## Model

| member | source | states |
|---|---|---|
| Config.Lower | MssqlMcp/Node/src/index.ts:41 | `toLowerCase` keeps the length and lower-cases each character (ASCII letters) |
| Config.TrimStart | MssqlMcp/Node/src/index.ts:38-40 | parseInt skips exactly the leading run of JavaScript white space and line terminators |
| Config.DigitPrefix | MssqlMcp/Node/src/index.ts:38-40 | parseInt reads the longest prefix made only of decimal digits |
| Config.ParseIntDecimal | MssqlMcp/Node/src/index.ts:38-40 | `parseInt(String(n), 10)` gives back `n` for every integer `n` |
| Config.ParseIntNoDigits | MssqlMcp/Node/src/index.ts:38-40 | a value with no digit parses to NaN |
| Config.AuthType | MssqlMcp/Node/src/index.ts:41 | the auth type is never empty: an empty lower-cased value falls back to `azure-ad` |
| Config.AuthTypeOfEnv | MssqlMcp/Node/src/index.ts:41 | the auth type is the lower-cased `AUTH_TYPE` when that is set and non-empty; it is `azure-ad` exactly when the variable is unset, empty or lower-cases to `azure-ad`, and an unset or empty value takes the token branch |
| Config.ParseInt | MssqlMcp/Node/src/index.ts:38-42 | a number comes only from a value containing a decimal digit, and a negative one only from a value containing `-`; every other value is NaN |
| Config.Port | MssqlMcp/Node/src/index.ts:42 | the port is absent exactly when `PORT` is unset or empty, and otherwise is `parseInt` of its value |
| Config.PortOfDecimal | MssqlMcp/Node/src/index.ts:42 | a port written in decimal is passed on as that number |
| Config.BaseConfig | MssqlMcp/Node/src/index.ts:44-53 | the starting configuration has no login and no authentication block, encrypts only for `azure-ad`, and takes server, database, port, timeout and certificate trust from the environment |
| Config.TrustServerCertificate | MssqlMcp/Node/src/index.ts:36-37 | true exactly when the variable is set and lower-cases to "true" |
| Config.ConnectionTimeoutMs | MssqlMcp/Node/src/index.ts:38-52 | an unset or empty `CONNECTION_TIMEOUT` gives 30000 ms |
| Config.ConnectionTimeoutOfDecimal | MssqlMcp/Node/src/index.ts:38-52 | a timeout of `n` seconds in decimal becomes `n * 1000` ms |
| Config.TokenExpiry | MssqlMcp/Node/src/index.ts:91-93 | the expiry is the reported timestamp when it is present and non-zero, otherwise `now + 30*60*1000` |
| Config.CreateSqlConfig | MssqlMcp/Node/src/index.ts:31-96 | fails exactly when the token branch is taken and the credential flow rejects; server, port, database, certificate trust and timeout come from the environment; `encrypt` holds, and an expiry is returned, exactly for the token branch |
| Config.WindowsConfig | MssqlMcp/Node/src/index.ts:55-65 | `windows`: NTLM with domain, user and password from the environment defaulting to "", no SQL login, no encryption, no token or expiry |
| Config.SqlLoginConfig | MssqlMcp/Node/src/index.ts:66-70 | `sql`: user and password from `SQL_USER`/`SQL_PASSWORD`, no authentication block, no encryption, no token or expiry |
| Config.AccessTokenConfig | MssqlMcp/Node/src/index.ts:71-95 | any other type: access-token authentication carrying the credential's token, `encrypt` forced true, token and expiry returned |
| Config.NonTokenIgnoresCredential | MssqlMcp/Node/src/index.ts:55-78 | the windows and sql branches never depend on the credential flow or the clock |
| Session.EnsureStep | MssqlMcp/Node/src/index.ts:185-220 | the fast-path test holds exactly when nothing is built, closed or connected, and then nothing changes; a completed call leaves a connected pool; `sql.connect` is only ever given the configuration `createSqlConfig` built |
| Session.CanReuse | MssqlMcp/Node/src/index.ts:189-204 | reuse needs a connected pool; in `azure-ad` mode it also needs a truthy token expiring after the margin, and in every other mode the pool alone decides |
| Session.RefreshStep | MssqlMcp/Node/src/index.ts:206-219 | a configuration is always built; a failing build changes nothing and connects nothing; a completed call leaves a connected pool; `sql.connect` gets the built configuration |
| Session.Reconnect | MssqlMcp/Node/src/index.ts:208-219 | the token and expiry are stored exactly in `azure-ad` mode, even when close or connect then throws; the old pool is closed iff connected; connect is called iff no close is needed or it completed; success iff both succeed, and then the new connected pool is held; a failure never leaves a connected pool other than the old one |
| Session.TokenFastPath | MssqlMcp/Node/src/index.ts:189-198 | `azure-ad`, connected pool, truthy token, expiry strictly after `now + 2 min`: no config, no connect, no change |
| Session.TokenStaleReconnects | MssqlMcp/Node/src/index.ts:189-219 | `azure-ad` with the expiry at or inside the margin, no truthy token, or no connected pool: the config is rebuilt, and exactly one connect happens unless the credential flow or the close throws |
| Session.NonTokenModeReuse | MssqlMcp/Node/src/index.ts:199-219 | other types reuse a connected pool whatever the token state; a missing or disconnected pool means one config build, no close, and one connect unless the resolver throws |
| Session.TokenReplaced | MssqlMcp/Node/src/index.ts:209-212 | on reconnect in `azure-ad` mode the stored token and expiry become exactly the resolver's |
| Session.TokenKeptOutsideAzureAd | MssqlMcp/Node/src/index.ts:209-212 | in every other mode the stored token and expiry are unchanged |
| Session.UnrecognisedAuthTypeMismatch | MssqlMcp/Node/src/index.ts:186-212 | an unrecognised type connects with an access-token config but stores no token |
| Session.PoolReplaced | MssqlMcp/Node/src/index.ts:214-219 | on reconnect the old pool is closed iff it was connected; the call completes iff the close (when needed) and the connect succeed, and then the held pool is the new connected one |
| Session.FailureKeepsOldPool | MssqlMcp/Node/src/index.ts:207-219 | a call that throws never installs a new pool: the old one is kept, marked closed only if its close completed |
| Session.NonTokenConnectsAtMostOnce | MssqlMcp/Node/src/index.ts:199-219 | outside `azure-ad`, with every connect succeeding, any run of calls connects at most once, and never from a connected pool |
| Session.TokenModeReusesWhileFresh | MssqlMcp/Node/src/index.ts:189-198 | in `azure-ad` mode, with a connected pool and a token fresh at every call, a run of calls connects zero times and changes nothing |
| Session.SessionManager.constructor | MssqlMcp/Node/src/index.ts:26-28 | the three variables start as null and the ghost counts are zero |
| Session.SessionManager.Refresh | MssqlMcp/Node/src/index.ts:206-219 | once the fast path failed: one configuration build; a resolver error leaves the state unchanged; the new state, outcome and counts are those of `RefreshStep` |
| Session.SessionManager.ReplaceSession | MssqlMcp/Node/src/index.ts:209-219 | after a built configuration: the token is stored only in `azure-ad` mode, the old pool is closed only if connected, and the new state, outcome and counts are those of the reconnect half of `EnsureStep` |
| Session.SessionManager.EnsureSqlConnection | MssqlMcp/Node/src/index.ts:185-220 | the new state and outcome are those of `EnsureStep`; the counts grow by exactly the calls made; the invariant "opened = closed + one for a held connected pool" is kept |
| Dispatch.ListTools | MssqlMcp/Node/src/index.ts:119-123 | each mode lists three tools, each of the three tools appearing |
| Dispatch.ListingsDifferOnlyInOrder | MssqlMcp/Node/src/index.ts:119-123 | both listings hold the same multiset of three distinct tools in a different order |
| Dispatch.IsReadOnly | MssqlMcp/Node/src/index.ts:115 | read-only mode holds exactly when `READONLY` is the string "true"; the comparison is case-sensitive, so "TRUE" does not count |
| Dispatch.ReadOnlyIsExact | MssqlMcp/Node/src/index.ts:115-123 | the read-only listing comes out exactly when `READONLY` is "true"; an unset variable or any other value gives the full-mode listing |
| Dispatch.Lookup | MssqlMcp/Node/src/index.ts:129-155 | a found tool has the requested name; no tool matches when the lookup fails |
| Dispatch.HasTableName | MssqlMcp/Node/src/index.ts:137 | `describe_table` may run exactly when arguments are present and `tableName` is a string |
| Dispatch.RouteCall | MssqlMcp/Node/src/index.ts:129-155 | a call reaches a tool iff the name is known and, for `describe_table`, `tableName` is a string; otherwise one error item comes back |
| Dispatch.Completed | MssqlMcp/Node/src/index.ts:156-164 | one content item; `isError` is absent iff the connection and the run both succeeded; every error text starts with `Error occurred: ` |
| Dispatch.CallTool | MssqlMcp/Node/src/index.ts:125-165 | one content item, `isError` never false; success exactly when routed, connected and run returned; unrouted calls change no state and make no foreign call |
| Dispatch.UnknownTool | MssqlMcp/Node/src/index.ts:150-154 | an unknown name yields `Unknown tool: <name>` as an error, with no state change and no connect |
| Dispatch.DescribeTableNeedsTableName | MssqlMcp/Node/src/index.ts:136-147 | `describe_table` with absent arguments or a missing or non-string `tableName` is refused before any connection |
| Dispatch.RoutedCallEnsuresConnection | MssqlMcp/Node/src/index.ts:223-231 | every routed call changes the session exactly as one `ensureSqlConnection` does |
| Dispatch.ConnectionErrorReported | MssqlMcp/Node/src/index.ts:159-163 | a throwing `ensureSqlConnection` yields `Error occurred: <error>` |
| Dispatch.RunErrorReported | MssqlMcp/Node/src/index.ts:159-163 | a throwing run yields `Error occurred: <error>` |
| Dispatch.SuccessEnvelope | MssqlMcp/Node/src/index.ts:156-158 | a returning run yields one text item with the serialised result and no `isError` |
| Dispatch.SqlLoginFirstCall | MssqlMcp/Node/src/index.ts:199-219 | with `AUTH_TYPE=sql`, a first `list_table` call connects once with the SQL login `u`/`p` and succeeds |
| Dispatch.HandleCallTool | MssqlMcp/Node/src/index.ts:223-231 | against the live manager, the result, the new state and the counts are those of `CallTool` |

## Left out

- Server construction, the stdio transport, `server.connect` and the `process.exit(1)` paths (index.ts:102-112, 168-181): process and I/O plumbing.
- The tool implementations (`./tools/*.js`) are not part of this model. Each tool's `run` is an opaque outcome: a value or a thrown error. The tool names `read_data`, `list_table` and `describe_table` are taken as constants.
- The `mssql` driver and Azure identity are foreign calls. Their answers are inputs: the token response, the clock reading after it, the close outcome and the connect outcome. The credential's options (redirect URI, scope) are not modelled.
- Pools are value handles (an id and a `connected` flag), not shared objects. The driver dropping a connection on its own is not modelled. A failed `close()` leaves the handle's flag as it was.
- `JSON.stringify(result, null, 2)` is an uninterpreted `serialize` parameter. An error's string form `${error}` is taken as its text.
- Lower: models `toLowerCase` on ASCII letters only, not full Unicode case mapping.
- ParseIntDecimal: parseInt is modelled on unbounded integers. Float precision beyond 2^53, `-0` and the exactness of `* 1000` on JavaScript numbers are not captured.
- Time is an integer number of milliseconds. An Invalid Date (NaN) expiry is not modelled.
- JSON argument numbers are integers. Only whether `tableName` is a string matters to the core.
- Calls are sequential. The source has no lock around `ensureSqlConnection`, so interleaved async calls are not modelled.
