/** The session manager: the single shared connection pool and the access
    token it was opened with, reused while valid and replaced otherwise. */
module Session {
  import opened Wrappers
  import opened Config

  /** How long before its expiry a stored token stops being reused. */
  const TOKEN_REFRESH_MARGIN_MS := 2 * 60 * 1000

  /** A pool handle returned by the driver: its identity and its `connected` flag. */
  datatype PoolHandle = PoolHandle(id: nat, connected: bool)

  /** The three module-level variables: the pool, the access token and its expiry (ms). */
  datatype SessionState = SessionState(pool: Option<PoolHandle>, accessToken: Option<string>, tokenExpiresOn: Option<int>)

  const INITIAL_STATE := SessionState(None, None, None)

  /** What the foreign calls answer during one `ensureSqlConnection`: the
      credential flow and the clock reading taken after it (used only if a
      configuration is built), `pool.close()` (used only if the old pool is
      closed) and `sql.connect(config)` (the new pool's id, or an error). */
  datatype DriverResponses = DriverResponses(
    credential: TokenResponse,
    credentialNow: int,
    close: Outcome<string>,
    connect: Result<nat, string>)

  /** The foreign calls one `ensureSqlConnection` made. */
  datatype Effects = Effects(configBuilt: bool, closeCalled: bool, connectCalledWith: Option<ConnectionConfig>)

  const NO_EFFECTS := Effects(false, false, None)

  /** The state after one `ensureSqlConnection`, whether it completed or threw, and its effects. */
  datatype Step = Step(state: SessionState, outcome: Outcome<string>, effects: Effects)

  predicate PoolConnected(s: SessionState) {
    s.pool.Some? && s.pool.value.connected
  }

  /** The stored token is truthy and expires strictly later than `now` plus the margin. */
  predicate TokenFresh(s: SessionState, now: int) {
    && s.accessToken.Some? && s.accessToken.value != ""
    && s.tokenExpiresOn.Some? && s.tokenExpiresOn.value > now + TOKEN_REFRESH_MARGIN_MS
  }

  /** The fast-path test: a connected pool, and in "azure-ad" mode a fresh token too.
      Every other auth type, including ones the resolver treats as token auth, checks the pool only. */
  predicate CanReuse(s: SessionState, authType: string, now: int)
    ensures CanReuse(s, authType, now) ==> PoolConnected(s)
    ensures authType == DEFAULT_AUTH_TYPE ==> (CanReuse(s, authType, now) <==> PoolConnected(s) && TokenFresh(s, now))
    ensures authType != DEFAULT_AUTH_TYPE ==> (CanReuse(s, authType, now) <==> PoolConnected(s))
  {
    if authType == DEFAULT_AUTH_TYPE then PoolConnected(s) && TokenFresh(s, now)
    else PoolConnected(s)
  }

  function ConnectCount(e: Effects): nat {
    if e.connectCalledWith.Some? then 1 else 0
  }

  /** One `ensureSqlConnection` on state `s`. */
  function EnsureStep(s: SessionState, env: Env, now: int, io: DriverResponses): (r: Step)
    ensures CanReuse(s, AuthType(env), now) <==> r.effects == NO_EFFECTS
    ensures r.effects == NO_EFFECTS ==> r.state == s && r.outcome == Pass
    ensures r.outcome.Pass? ==> PoolConnected(r.state)
    ensures r.effects.connectCalledWith.Some? ==>
              && CreateSqlConfig(env, io.credential, io.credentialNow).Success?
              && r.effects.connectCalledWith.value == CreateSqlConfig(env, io.credential, io.credentialNow).value.config
  {
    var authType := AuthType(env);
    if CanReuse(s, authType, now) then Step(s, Pass, NO_EFFECTS)
    else
      RefreshStep(s, env, authType == DEFAULT_AUTH_TYPE, io)
  }

  /** The reconnect half of `ensureSqlConnection`, after the fast path failed. */
  function RefreshStep(s: SessionState, env: Env, tokenMode: bool, io: DriverResponses): (r: Step)
    ensures r.effects.configBuilt
    ensures CreateSqlConfig(env, io.credential, io.credentialNow).Failure? ==>
              r == Step(s, Fail(CreateSqlConfig(env, io.credential, io.credentialNow).error), Effects(true, false, None))
    ensures r.outcome.Pass? ==> PoolConnected(r.state)
    ensures r.effects.connectCalledWith.Some? ==>
              && CreateSqlConfig(env, io.credential, io.credentialNow).Success?
              && r.effects.connectCalledWith.value == CreateSqlConfig(env, io.credential, io.credentialNow).value.config
  {
    match CreateSqlConfig(env, io.credential, io.credentialNow)
    case Failure(e) => Step(s, Fail(e), Effects(true, false, None))
    case Success(created) => Reconnect(s, tokenMode, created, io)
  }

  /** The reconnect half of `ensureSqlConnection`, once `createSqlConfig` returned `created`:
      store the token (in "azure-ad" mode), close the old pool if connected, connect. */
  function Reconnect(s: SessionState, tokenMode: bool, created: SqlConfigResult, io: DriverResponses): (r: Step)
    ensures r.effects.configBuilt && (r.effects.closeCalled <==> PoolConnected(s))
    ensures r.effects.connectCalledWith.Some? <==> !PoolConnected(s) || io.close.Pass?
    ensures r.effects.connectCalledWith.Some? ==> r.effects.connectCalledWith.value == created.config
    ensures r.outcome.Pass? <==> (PoolConnected(s) ==> io.close.Pass?) && io.connect.Success?
    ensures r.outcome.Pass? ==> r.state.pool == Some(PoolHandle(io.connect.value, true))
    ensures r.outcome.Fail? ==> !PoolConnected(r.state) || r.state.pool == s.pool
    ensures tokenMode ==> r.state.accessToken == created.token && r.state.tokenExpiresOn == created.expiresOn
    ensures !tokenMode ==> r.state.accessToken == s.accessToken && r.state.tokenExpiresOn == s.tokenExpiresOn
  {
    var withToken :=
      if tokenMode
      then s.(accessToken := created.token, tokenExpiresOn := created.expiresOn)
      else s;
    var mustClose := PoolConnected(s);
    if mustClose && io.close.Fail? then
      Step(withToken, Fail(io.close.error), Effects(true, true, None))
    else
      var closed := if mustClose then withToken.(pool := Some(s.pool.value.(connected := false))) else withToken;
      var effects := Effects(true, mustClose, Some(created.config));
      match io.connect
      case Failure(e) => Step(closed, Fail(e), effects)
      case Success(id) => Step(closed.(pool := Some(PoolHandle(id, true))), Pass, effects)
  }

  // ---------------------------------------------------------------------------
  // Properties of one call

  /** "azure-ad" with a connected pool and a truthy token expiring strictly
      after `now` + 2 min: nothing is built, closed or connected, nothing changes. */
  lemma TokenFastPath(s: SessionState, env: Env, now: int, io: DriverResponses)
    requires AuthType(env) == DEFAULT_AUTH_TYPE
    requires PoolConnected(s) && s.accessToken.Some? && s.accessToken.value != ""
    requires s.tokenExpiresOn.Some? && s.tokenExpiresOn.value > now + TOKEN_REFRESH_MARGIN_MS
    ensures EnsureStep(s, env, now, io) == Step(s, Pass, NO_EFFECTS)
  {
  }

  /** "azure-ad" with an expiry at or within the margin, a missing or empty
      token, or no connected pool: the configuration is rebuilt and, unless
      the credential flow or the close throws, `sql.connect` is called once. */
  lemma TokenStaleReconnects(s: SessionState, env: Env, now: int, io: DriverResponses)
    requires AuthType(env) == DEFAULT_AUTH_TYPE
    requires !PoolConnected(s) || s.accessToken.None? || s.accessToken == Some("")
             || s.tokenExpiresOn.None? || s.tokenExpiresOn.value <= now + TOKEN_REFRESH_MARGIN_MS
    ensures var r := EnsureStep(s, env, now, io);
      && r.effects.configBuilt
      && (io.credential.TokenResolved? && (PoolConnected(s) ==> io.close.Pass?) <==> ConnectCount(r.effects) == 1)
  {
  }

  /** Any other auth type: a connected pool is reused whatever the stored
      token and expiry; a missing or disconnected pool leads to exactly one
      configuration build and, unless the resolver throws, exactly one connect. */
  lemma NonTokenModeReuse(s: SessionState, env: Env, now: int, io: DriverResponses)
    requires AuthType(env) != DEFAULT_AUTH_TYPE
    ensures PoolConnected(s) ==> EnsureStep(s, env, now, io) == Step(s, Pass, NO_EFFECTS)
    ensures !PoolConnected(s) ==>
              var r := EnsureStep(s, env, now, io);
              && r.effects.configBuilt && !r.effects.closeCalled
              && (ConnectCount(r.effects) == 1 <==> CreateSqlConfig(env, io.credential, io.credentialNow).Success?)
  {
  }

  /** On a reconnect in "azure-ad" mode the stored token and expiry become
      exactly those the resolver returned, even if closing or connecting then throws. */
  lemma TokenReplaced(s: SessionState, env: Env, now: int, io: DriverResponses)
    requires AuthType(env) == DEFAULT_AUTH_TYPE
    requires !CanReuse(s, DEFAULT_AUTH_TYPE, now)
    requires CreateSqlConfig(env, io.credential, io.credentialNow).Success?
    ensures var created := CreateSqlConfig(env, io.credential, io.credentialNow).value;
      var r := EnsureStep(s, env, now, io);
      && r.state.accessToken == created.token && created.token == io.credential.token
      && r.state.tokenExpiresOn == Some(TokenExpiry(io.credential.expiresOnTimestamp, io.credentialNow))
  {
  }

  /** In every other mode the stored token and expiry never change, even for an
      unrecognised auth type whose configuration was built with a fresh token. */
  lemma TokenKeptOutsideAzureAd(s: SessionState, env: Env, now: int, io: DriverResponses)
    requires AuthType(env) != DEFAULT_AUTH_TYPE
    ensures var r := EnsureStep(s, env, now, io);
      r.state.accessToken == s.accessToken && r.state.tokenExpiresOn == s.tokenExpiresOn
  {
  }

  /** An unrecognised auth type connects with an access-token configuration
      but reuses its pool on the pool's flag alone and stores no token. */
  lemma UnrecognisedAuthTypeMismatch(s: SessionState, env: Env, now: int, io: DriverResponses)
    requires AuthType(env) != DEFAULT_AUTH_TYPE && UsesAccessToken(AuthType(env))
    requires !PoolConnected(s) && io.credential.TokenResolved? && io.connect.Success?
    ensures var r := EnsureStep(s, env, now, io);
      && r.outcome == Pass
      && r.effects.connectCalledWith.Some?
      && r.effects.connectCalledWith.value.authentication == Some(AzureAccessToken(io.credential.token))
      && r.state.accessToken == s.accessToken && r.state.tokenExpiresOn == s.tokenExpiresOn
  {
  }

  /** On a reconnect the old pool is closed exactly when it was connected;
      after a successful connect the held pool is the new connected one. */
  lemma PoolReplaced(s: SessionState, env: Env, now: int, io: DriverResponses)
    requires !CanReuse(s, AuthType(env), now)
    requires CreateSqlConfig(env, io.credential, io.credentialNow).Success?
    ensures var r := EnsureStep(s, env, now, io);
      && (r.effects.closeCalled <==> PoolConnected(s))
      && (r.outcome == Pass <==> (PoolConnected(s) ==> io.close.Pass?) && io.connect.Success?)
      && (r.outcome == Pass ==> r.state.pool == Some(PoolHandle(io.connect.value, true)))
  {
  }

  /** A call that throws never installs a new pool: the old one is kept, closed only if the close completed. */
  lemma FailureKeepsOldPool(s: SessionState, env: Env, now: int, io: DriverResponses)
    requires EnsureStep(s, env, now, io).outcome.Fail?
    ensures var r := EnsureStep(s, env, now, io);
      || r.state.pool == s.pool
      || (r.effects.closeCalled && io.close.Pass? && r.state.pool == Some(s.pool.value.(connected := false)))
  {
  }

  // ---------------------------------------------------------------------------
  // Sequences of calls

  /** One call of `ensureSqlConnection`: the clock reading and the foreign answers. */
  datatype Call = Call(now: int, io: DriverResponses)

  /** The state after running `calls` in order from `s`, and how many times `sql.connect` was called. */
  function RunCalls(s: SessionState, env: Env, calls: seq<Call>): (SessionState, nat)
    decreases |calls|
  {
    if calls == [] then (s, 0)
    else
      var step := EnsureStep(s, env, calls[0].now, calls[0].io);
      var rest := RunCalls(step.state, env, calls[1..]);
      (rest.0, rest.1 + ConnectCount(step.effects))
  }

  /** Outside "azure-ad" mode, with every connect succeeding and no pool
      dropping on its own, any run of calls connects at most once, and never
      if it starts with a connected pool. */
  lemma {:induction false} NonTokenConnectsAtMostOnce(s: SessionState, env: Env, calls: seq<Call>)
    requires AuthType(env) != DEFAULT_AUTH_TYPE
    requires forall i :: 0 <= i < |calls| ==> calls[i].io.connect.Success?
    ensures RunCalls(s, env, calls).1 <= 1
    ensures PoolConnected(s) ==> RunCalls(s, env, calls) == (s, 0)
    decreases |calls|
  {
    if calls != [] {
      var step := EnsureStep(s, env, calls[0].now, calls[0].io);
      assert forall i :: 0 <= i < |calls[1..]| ==> calls[1..][i].io.connect.Success? by {
        forall i | 0 <= i < |calls[1..]| ensures calls[1..][i].io.connect.Success? {
          assert calls[1..][i] == calls[i + 1];
        }
      }
      NonTokenConnectsAtMostOnce(step.state, env, calls[1..]);
      if !PoolConnected(s) && ConnectCount(step.effects) == 1 {
        assert PoolConnected(step.state);
      }
    }
  }

  /** In "azure-ad" mode a connected pool whose token stays fresh at every
      call's clock reading is reused by every call: no connect, no change. */
  lemma {:induction false} TokenModeReusesWhileFresh(s: SessionState, env: Env, calls: seq<Call>)
    requires AuthType(env) == DEFAULT_AUTH_TYPE
    requires PoolConnected(s)
    requires forall i :: 0 <= i < |calls| ==> TokenFresh(s, calls[i].now)
    ensures RunCalls(s, env, calls) == (s, 0)
    decreases |calls|
  {
    if calls != [] {
      assert TokenFresh(s, calls[0].now);
      assert forall i :: 0 <= i < |calls[1..]| ==> TokenFresh(s, calls[1..][i].now) by {
        forall i | 0 <= i < |calls[1..]| ensures TokenFresh(s, calls[1..][i].now) {
          assert calls[1..][i] == calls[i + 1];
        }
      }
      TokenModeReusesWhileFresh(s, env, calls[1..]);
    }
  }

  // ---------------------------------------------------------------------------
  // The manager object

  /** Ghost bookkeeping of the foreign calls made so far. */
  datatype Tally = Tally(configBuilds: nat, connectLog: seq<ConnectionConfig>, poolsOpened: nat, poolsClosed: nat)

  /** The tally after one call with effects `e` and driver answers `io`:
      `poolsOpened` counts successful connects, `poolsClosed` completed closes. */
  function Tallied(t: Tally, e: Effects, io: DriverResponses): Tally {
    Tally(
      t.configBuilds + (if e.configBuilt then 1 else 0),
      t.connectLog + (if e.connectCalledWith.Some? then [e.connectCalledWith.value] else []),
      t.poolsOpened + (if e.connectCalledWith.Some? && io.connect.Success? then 1 else 0),
      t.poolsClosed + (if e.closeCalled && io.close.Pass? then 1 else 0))
  }

  class SessionManager {
    var pool: Option<PoolHandle>
    var accessToken: Option<string>
    var tokenExpiresOn: Option<int>

    ghost var configBuilds: nat
    ghost var connectLog: seq<ConnectionConfig>
    ghost var poolsOpened: nat
    ghost var poolsClosed: nat

    function State(): SessionState
      reads this
    {
      SessionState(pool, accessToken, tokenExpiresOn)
    }

    ghost function Counters(): Tally
      reads this
    {
      Tally(configBuilds, connectLog, poolsOpened, poolsClosed)
    }

    /** Every pool a successful connect opened has been closed, except the
        held one when it is connected: at most one opened pool is live. Each
        open came from a call of `sql.connect`, and a stored token always
        comes with an expiry. */
    ghost predicate Valid()
      reads this
    {
      && poolsOpened == poolsClosed + (if PoolConnected(State()) then 1 else 0)
      && poolsOpened <= |connectLog|
      && (accessToken.Some? ==> tokenExpiresOn.Some?)
    }

    constructor ()
      ensures Valid()
      ensures State() == INITIAL_STATE && Counters() == Tally(0, [], 0, 0)
    {
      pool, accessToken, tokenExpiresOn := None, None, None;
      configBuilds, connectLog, poolsOpened, poolsClosed := 0, [], 0, 0;
    }

    /** ensureSqlConnection, with the clock reading `now` and the foreign answers `io`. */
    method EnsureSqlConnection(env: Env, now: int, io: DriverResponses) returns (outcome: Outcome<string>)
      requires Valid()
      modifies this
      ensures Valid()
      ensures var step := EnsureStep(old(State()), env, now, io);
        && State() == step.state && outcome == step.outcome
        && Counters() == Tallied(old(Counters()), step.effects, io)
    {
      var authType := AuthType(env);
      var tokenMode := authType == DEFAULT_AUTH_TYPE;
      if tokenMode {
        if pool.Some? && pool.value.connected && accessToken.Some? && accessToken.value != ""
           && tokenExpiresOn.Some? && tokenExpiresOn.value > now + TOKEN_REFRESH_MARGIN_MS {
          return Pass;
        }
      } else {
        if pool.Some? && pool.value.connected {
          return Pass;
        }
      }

      outcome := Refresh(env, tokenMode, io);
    }

    /** The reconnect of ensureSqlConnection once the fast path failed: build
        the configuration, then replace the session with it. */
    method Refresh(env: Env, tokenMode: bool, io: DriverResponses) returns (outcome: Outcome<string>)
      requires Valid()
      requires tokenMode == (AuthType(env) == DEFAULT_AUTH_TYPE)
      modifies this
      ensures Valid()
      ensures var step := RefreshStep(old(State()), env, tokenMode, io);
        && State() == step.state && outcome == step.outcome
        && Counters() == Tallied(old(Counters()), step.effects, io)
    {
      var created := CreateSqlConfig(env, io.credential, io.credentialNow);
      configBuilds := configBuilds + 1;
      if created.Failure? {
        return Fail(created.error);
      }
      outcome := ReplaceSession(tokenMode, created.value, io);
    }

    /** The second half of ensureSqlConnection, once `createSqlConfig` returned
        `created`: store its token in "azure-ad" mode, close the old pool if it
        is connected, and install the pool `sql.connect` gives. The configuration
        build itself is counted by the caller. */
    method ReplaceSession(tokenMode: bool, created: SqlConfigResult, io: DriverResponses) returns (outcome: Outcome<string>)
      requires Valid()
      requires tokenMode ==> created.expiresOn.Some?
      modifies this
      ensures Valid()
      ensures var step := Reconnect(old(State()), tokenMode, created, io);
        && State() == step.state && outcome == step.outcome
        && Counters() == Tallied(old(Counters()), step.effects.(configBuilt := false), io)
    {
      if tokenMode {
        accessToken := created.token;
        tokenExpiresOn := created.expiresOn;
      }

      if pool.Some? && pool.value.connected {
        if io.close.Fail? {
          return Fail(io.close.error);
        }
        pool := Some(pool.value.(connected := false));
        poolsClosed := poolsClosed + 1;
      }

      connectLog := connectLog + [created.config];
      match io.connect {
        case Failure(e) =>
          return Fail(e);
        case Success(id) =>
          pool := Some(PoolHandle(id, true));
          poolsOpened := poolsOpened + 1;
          return Pass;
      }
    }
  }
}
