/** The credential resolver: turns the process environment (and, for token
    authentication, the answer of the interactive credential flow) into the
    connection configuration handed to the SQL driver. */
module Config {
  import opened Wrappers

  /** The process environment: variable name to value; an unset variable is absent. */
  type Env = map<string, string>

  const DEFAULT_AUTH_TYPE := "azure-ad"
  const WINDOWS_AUTH_TYPE := "windows"
  const SQL_AUTH_TYPE := "sql"
  const DEFAULT_CONNECTION_TIMEOUT_SECONDS := 30
  /** Lifetime assumed for a token whose expiry the credential flow does not report. */
  const FALLBACK_TOKEN_LIFETIME_MS := 30 * 60 * 1000

  function EnvVar(env: Env, name: string): Option<string> {
    if name in env then Some(env[name]) else None
  }

  /** JavaScript truthiness of an optional string: defined and not empty. */
  predicate Truthy(v: Option<string>) {
    v.Some? && v.value != ""
  }

  /** The variable's value when it is set and not empty, otherwise `fallback`. */
  function EnvOr(env: Env, name: string, fallback: string): string {
    if Truthy(EnvVar(env, name)) then env[name] else fallback
  }

  // ---------------------------------------------------------------------------
  // String.prototype.toLowerCase, on the ASCII range

  function LowerChar(c: char): char {
    if 'A' <= c <= 'Z' then (c as int + 32) as char else c
  }

  function Lower(s: string): (r: string)
    ensures |r| == |s|
    ensures forall i :: 0 <= i < |s| ==> r[i] == LowerChar(s[i])
  {
    if s == [] then [] else [LowerChar(s[0])] + Lower(s[1..])
  }

  // ---------------------------------------------------------------------------
  // parseInt(s, 10)

  /** A JavaScript number produced by parseInt: an integer or NaN. */
  datatype JsInt = Int(value: int) | NaN

  /** The characters parseInt skips before the number (white space and line terminators). */
  predicate IsJsWhitespace(c: char) {
    || c == '\t' || c == '\n' || c == '\U{000B}' || c == '\U{000C}' || c == '\r'
    || c == ' ' || c == '\U{00A0}' || c == '\U{1680}' || '\U{2000}' <= c <= '\U{200A}'
    || c == '\U{2028}' || c == '\U{2029}' || c == '\U{202F}' || c == '\U{205F}'
    || c == '\U{3000}' || c == '\U{FEFF}'
  }

  predicate IsDigit(c: char) {
    '0' <= c <= '9'
  }

  predicate AllDigits(s: string) {
    forall i :: 0 <= i < |s| ==> IsDigit(s[i])
  }

  function DigitValue(c: char): nat
    requires IsDigit(c)
  {
    c as int - '0' as int
  }

  function DigitChar(d: nat): (c: char)
    requires d < 10
    ensures IsDigit(c) && DigitValue(c) == d
  {
    ('0' as int + d) as char
  }

  /** The longest suffix of `s` that does not start with white space. */
  function TrimStart(s: string): (r: string)
    ensures |r| <= |s| && r == s[|s| - |r|..]
    ensures forall i :: 0 <= i < |s| - |r| ==> IsJsWhitespace(s[i])
    ensures r == [] || !IsJsWhitespace(r[0])
  {
    if s != [] && IsJsWhitespace(s[0]) then TrimStart(s[1..]) else s
  }

  /** The longest prefix of `s` made of decimal digits. */
  function DigitPrefix(s: string): (r: string)
    ensures |r| <= |s| && r == s[..|r|]
    ensures AllDigits(r)
    ensures |r| == |s| || !IsDigit(s[|r|])
  {
    if s != [] && IsDigit(s[0]) then [s[0]] + DigitPrefix(s[1..]) else []
  }

  /** The value of a string of decimal digits, most significant first. */
  function DigitsValue(d: string): nat
    requires AllDigits(d)
  {
    if d == [] then 0 else DigitsValue(d[..|d| - 1]) * 10 + DigitValue(d[|d| - 1])
  }

  /** parseInt with radix 10: skip leading white space, read an optional sign,
      then the longest run of digits; NaN when that run is empty. */
  function ParseInt(s: string): (r: JsInt)
    ensures r.Int? ==> exists i :: 0 <= i < |s| && IsDigit(s[i])
    ensures r.Int? && r.value < 0 ==> '-' in s
  {
    var t := TrimStart(s);
    var negative := t != [] && t[0] == '-';
    var unsigned := if t != [] && (t[0] == '-' || t[0] == '+') then t[1..] else t;
    var digits := DigitPrefix(unsigned);
    assert digits != [] ==> unsigned[0] == digits[0] && unsigned == s[|s| - |unsigned|..];
    if digits == [] then NaN
    else if negative then Int(-(DigitsValue(digits) as int))
    else Int(DigitsValue(digits))
  }

  /** The decimal spelling of a natural number, most significant digit first. */
  function NatDigits(n: nat): (r: string)
    ensures r != [] && AllDigits(r)
  {
    if n < 10 then [DigitChar(n)] else NatDigits(n / 10) + [DigitChar(n % 10)]
  }

  /** The decimal spelling of an integer, as String(n) writes it. */
  function Decimal(n: int): (r: string)
    ensures r != []
  {
    if n < 0 then "-" + NatDigits(-n) else NatDigits(n)
  }

  lemma {:induction false} NatDigitsValue(n: nat)
    ensures DigitsValue(NatDigits(n)) == n
  {
    var d := NatDigits(n);
    if n < 10 {
      assert d[..|d| - 1] == [];
    } else {
      var front := NatDigits(n / 10);
      assert d == front + [DigitChar(n % 10)];
      assert d[..|d| - 1] == front;
      NatDigitsValue(n / 10);
    }
  }

  /** parseInt reads back every integer written in decimal. */
  lemma ParseIntDecimal(n: int)
    ensures ParseInt(Decimal(n)) == Int(n)
  {
    var s := Decimal(n);
    var m := if n < 0 then -n else n;
    var digits := NatDigits(m);
    assert !IsJsWhitespace(s[0]);
    assert TrimStart(s) == s;
    var unsigned := if n < 0 then s[1..] else s;
    assert n < 0 ==> s[1..] == digits;
    assert unsigned == digits;
    var p := DigitPrefix(digits);
    assert |p| == |digits|;
    assert p == digits;
    NatDigitsValue(m);
  }

  /** A value with no digit at all parses to NaN. */
  lemma ParseIntNoDigits(s: string)
    requires forall i :: 0 <= i < |s| ==> !IsDigit(s[i])
    ensures ParseInt(s) == NaN
  {
  }

  // ---------------------------------------------------------------------------
  // The settings read from the environment

  /** AUTH_TYPE lower-cased, or "azure-ad" when it is unset or empty. */
  function AuthType(env: Env): (r: string)
    ensures r != ""
  {
    var lowered := if "AUTH_TYPE" in env then Lower(env["AUTH_TYPE"]) else "";
    if lowered != "" then lowered else DEFAULT_AUTH_TYPE
  }

  /** Whether the auth type selects the access-token branch of the resolver:
      every value other than "windows" and "sql". */
  predicate UsesAccessToken(authType: string) {
    authType != WINDOWS_AUTH_TYPE && authType != SQL_AUTH_TYPE
  }

  /** Whether TRUST_SERVER_CERTIFICATE is set and lower-cases to "true". */
  function TrustServerCertificate(env: Env): (r: bool)
    ensures r <==> "TRUST_SERVER_CERTIFICATE" in env && Lower(env["TRUST_SERVER_CERTIFICATE"]) == "true"
  {
    match EnvVar(env, "TRUST_SERVER_CERTIFICATE")
    case None => false
    case Some(v) => Lower(v) == "true"
  }

  /** A parse result scaled by a thousand; NaN stays NaN. */
  function TimesThousand(n: JsInt): JsInt {
    match n
    case NaN => NaN
    case Int(v) => Int(v * 1000)
  }

  /** The connection timeout in milliseconds: CONNECTION_TIMEOUT seconds, 30 when unset or empty. */
  function ConnectionTimeoutMs(env: Env): (r: JsInt)
    ensures !Truthy(EnvVar(env, "CONNECTION_TIMEOUT")) ==> r == Int(DEFAULT_CONNECTION_TIMEOUT_SECONDS * 1000)
  {
    var seconds := if Truthy(EnvVar(env, "CONNECTION_TIMEOUT"))
                   then ParseInt(env["CONNECTION_TIMEOUT"])
                   else Int(DEFAULT_CONNECTION_TIMEOUT_SECONDS);
    TimesThousand(seconds)
  }

  /** A timeout written in decimal seconds becomes that many thousand milliseconds. */
  lemma ConnectionTimeoutOfDecimal(env: Env, seconds: int)
    requires EnvVar(env, "CONNECTION_TIMEOUT") == Some(Decimal(seconds))
    ensures ConnectionTimeoutMs(env) == Int(seconds * 1000)
  {
    ParseIntDecimal(seconds);
  }

  /** The parsed PORT when it is set and not empty, otherwise absent. */
  function Port(env: Env): (r: Option<JsInt>)
    ensures r.None? <==> "PORT" !in env || env["PORT"] == ""
    ensures r.Some? ==> r.value == ParseInt(env["PORT"])
  {
    if Truthy(EnvVar(env, "PORT")) then Some(ParseInt(env["PORT"])) else None
  }

  /** A port written in decimal is passed on as that number. */
  lemma PortOfDecimal(env: Env, port: int)
    requires EnvVar(env, "PORT") == Some(Decimal(port))
    ensures Port(env) == Some(Int(port))
  {
    ParseIntDecimal(port);
  }

  // ---------------------------------------------------------------------------
  // The configuration

  datatype Authentication =
    | Ntlm(domain: string, userName: string, password: string)
    | AzureAccessToken(token: Option<string>)

  /** The driver configuration; `user`/`password` are the SQL login fields and
      `authentication` the NTLM or access-token block, each absent when unset. */
  datatype ConnectionConfig = ConnectionConfig(
    server: Option<string>,
    port: Option<JsInt>,
    database: Option<string>,
    encrypt: bool,
    trustServerCertificate: bool,
    connectionTimeoutMs: JsInt,
    user: Option<string>,
    password: Option<string>,
    authentication: Option<Authentication>)

  /** What `getToken` gave back: it rejected, or it resolved to a token and
      an expiry timestamp in milliseconds (either possibly absent). */
  datatype TokenResponse =
    | TokenRejected(error: string)
    | TokenResolved(token: Option<string>, expiresOnTimestamp: Option<int>)

  /** The resolver's result: the configuration, and for the token branch the token and its expiry. */
  datatype SqlConfigResult = SqlConfigResult(config: ConnectionConfig, token: Option<string>, expiresOn: Option<int>)

  /** The configuration every branch starts from: no login and no
      authentication block yet, encryption only for "azure-ad". */
  function BaseConfig(env: Env, authType: string): (c: ConnectionConfig)
    ensures c.user.None? && c.password.None? && c.authentication.None?
    ensures c.encrypt <==> authType == DEFAULT_AUTH_TYPE
    ensures c.server == EnvVar(env, "SERVER_NAME") && c.database == EnvVar(env, "DATABASE_NAME")
    ensures c.port == Port(env) && c.connectionTimeoutMs == ConnectionTimeoutMs(env)
    ensures c.trustServerCertificate == TrustServerCertificate(env)
  {
    ConnectionConfig(
      server := EnvVar(env, "SERVER_NAME"),
      port := Port(env),
      database := EnvVar(env, "DATABASE_NAME"),
      encrypt := authType == DEFAULT_AUTH_TYPE,
      trustServerCertificate := TrustServerCertificate(env),
      connectionTimeoutMs := ConnectionTimeoutMs(env),
      user := None,
      password := None,
      authentication := None)
  }

  /** The token expiry: the reported timestamp when it is truthy (present and
      not zero), otherwise `now` plus the fallback lifetime. */
  function TokenExpiry(expiresOnTimestamp: Option<int>, now: int): (r: int)
    ensures expiresOnTimestamp.Some? && expiresOnTimestamp.value != 0 ==> r == expiresOnTimestamp.value
    ensures expiresOnTimestamp == None || expiresOnTimestamp == Some(0) ==> r == now + FALLBACK_TOKEN_LIFETIME_MS
  {
    if expiresOnTimestamp.Some? && expiresOnTimestamp.value != 0 then expiresOnTimestamp.value
    else now + FALLBACK_TOKEN_LIFETIME_MS
  }

  /** createSqlConfig: `credential` is what the interactive credential flow
      would answer, consulted only on the token branch; `now` is the clock
      reading taken when the fallback expiry is computed. */
  function CreateSqlConfig(env: Env, credential: TokenResponse, now: int): (r: Result<SqlConfigResult, string>)
    ensures r.Failure? <==> UsesAccessToken(AuthType(env)) && credential.TokenRejected?
    ensures r.Success? ==>
              && r.value.config.server == EnvVar(env, "SERVER_NAME")
              && r.value.config.database == EnvVar(env, "DATABASE_NAME")
              && r.value.config.port == Port(env)
              && r.value.config.trustServerCertificate == TrustServerCertificate(env)
              && r.value.config.connectionTimeoutMs == ConnectionTimeoutMs(env)
    ensures r.Success? ==>
              (r.value.config.encrypt <==> UsesAccessToken(AuthType(env))) &&
              (r.value.expiresOn.Some? <==> UsesAccessToken(AuthType(env)))
  {
    var authType := AuthType(env);
    var config := BaseConfig(env, authType);
    if authType == WINDOWS_AUTH_TYPE then
      var ntlm := Ntlm(EnvOr(env, "DOMAIN", ""), EnvOr(env, "USERNAME", ""), EnvOr(env, "PASSWORD", ""));
      Success(SqlConfigResult(config.(authentication := Some(ntlm)), None, None))
    else if authType == SQL_AUTH_TYPE then
      Success(SqlConfigResult(config.(user := EnvVar(env, "SQL_USER"), password := EnvVar(env, "SQL_PASSWORD")), None, None))
    else
      match credential
      case TokenRejected(e) => Failure(e)
      case TokenResolved(token, expiresOnTimestamp) =>
        var tokenConfig := config.(encrypt := true, authentication := Some(AzureAccessToken(token)));
        Success(SqlConfigResult(tokenConfig, token, Some(TokenExpiry(expiresOnTimestamp, now))))
  }

  /** "windows": NTLM with domain, user and password defaulting to "", no SQL login, no token. */
  lemma WindowsConfig(env: Env, credential: TokenResponse, now: int)
    requires AuthType(env) == WINDOWS_AUTH_TYPE
    ensures var r := CreateSqlConfig(env, credential, now);
      && r.Success? && r.value.token == None && r.value.expiresOn == None
      && !r.value.config.encrypt
      && r.value.config.user == None && r.value.config.password == None
      && r.value.config.authentication == Some(Ntlm(EnvOr(env, "DOMAIN", ""), EnvOr(env, "USERNAME", ""), EnvOr(env, "PASSWORD", "")))
  {
  }

  /** "sql": user and password straight from SQL_USER and SQL_PASSWORD, no authentication block, no token. */
  lemma SqlLoginConfig(env: Env, credential: TokenResponse, now: int)
    requires AuthType(env) == SQL_AUTH_TYPE
    ensures var r := CreateSqlConfig(env, credential, now);
      && r.Success? && r.value.token == None && r.value.expiresOn == None
      && !r.value.config.encrypt
      && r.value.config.user == EnvVar(env, "SQL_USER")
      && r.value.config.password == EnvVar(env, "SQL_PASSWORD")
      && r.value.config.authentication == None
  {
  }

  /** Every other auth type, recognised or not: access-token authentication
      with encryption forced on, and the token and expiry returned beside the configuration. */
  lemma AccessTokenConfig(env: Env, token: Option<string>, expiresOnTimestamp: Option<int>, now: int)
    requires UsesAccessToken(AuthType(env))
    ensures var r := CreateSqlConfig(env, TokenResolved(token, expiresOnTimestamp), now);
      && r.Success? && r.value.token == token
      && r.value.expiresOn == Some(TokenExpiry(expiresOnTimestamp, now))
      && r.value.config.encrypt
      && r.value.config.user == None && r.value.config.password == None
      && r.value.config.authentication == Some(AzureAccessToken(token))
  {
  }

  /** The windows and sql branches never consult the credential flow or the clock. */
  lemma NonTokenIgnoresCredential(env: Env, c1: TokenResponse, now1: int, c2: TokenResponse, now2: int)
    requires !UsesAccessToken(AuthType(env))
    ensures CreateSqlConfig(env, c1, now1) == CreateSqlConfig(env, c2, now2)
  {
  }

  /** The auth type is AUTH_TYPE lower-cased when that is set and not empty,
      and "azure-ad" otherwise, so any casing of "azure-ad" selects it too. */
  lemma AuthTypeOfEnv(env: Env)
    ensures AuthType(env) == DEFAULT_AUTH_TYPE <==>
              !Truthy(EnvVar(env, "AUTH_TYPE")) || Lower(env["AUTH_TYPE"]) == DEFAULT_AUTH_TYPE
    ensures Truthy(EnvVar(env, "AUTH_TYPE")) ==> AuthType(env) == Lower(env["AUTH_TYPE"])
    ensures !Truthy(EnvVar(env, "AUTH_TYPE")) ==> UsesAccessToken(AuthType(env))
  {
  }
}
