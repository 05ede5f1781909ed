/** Credential resolution of the agent runtime (auto-claude/core/auth.py).
    The process environment is a map from names to values. The two outside
    sources are inputs: the text of `~/.claude/settings.json` (None when the
    file is missing or cannot be read) and the output of the `security`
    keychain query (None when it fails, exits non-zero or times out), both
    read with a JSON parser. */
module Auth {
  import opened Common
  import opened Strings

  /** The environment variables that carry a token, highest priority first. */
  const AuthTokenEnvVars: seq<string> := ["CLAUDE_CODE_OAUTH_TOKEN", "ANTHROPIC_AUTH_TOKEN"]

  /** The environment variables passed through to the SDK subprocess. */
  const SdkEnvVars: seq<string> := [
    "ANTHROPIC_BASE_URL", "ANTHROPIC_AUTH_TOKEN", "CLAUDE_CODE_OAUTH_TOKEN", "NO_PROXY",
    "DISABLE_TELEMETRY", "DISABLE_COST_WARNINGS", "API_TIMEOUT_MS"]

  const SettingsSource: string := "~/.claude/settings.json"
  const KeychainSource: string := "macOS Keychain"

  /** What the credential helpers read besides the environment. */
  datatype AuthHost = AuthHost(
    home: string,
    isDarwin: bool,
    settingsFile: Option<string>,
    keychainOutput: Option<string>,
    parse: JsonParser)

  /** `os.environ.get(name)` when it is truthy: present and not empty. */
  function EnvValue(env: map<string, string>, name: string): Option<string> {
    if name in env && env[name] != "" then Some(env[name]) else None
  }

  /** `fields.get(key)` when it is a non-empty string. */
  function StringField(fields: map<string, Json>, key: string): Option<string> {
    if key in fields && fields[key].JString? && fields[key].s != "" then Some(fields[key].s) else None
  }

  /** `dict.get(key, {})` */
  function FieldOrEmpty(fields: map<string, Json>, key: string): Json {
    if key in fields then fields[key] else JObject(map[])
  }

  /** `CLAUDE_SETTINGS_PATH` */
  function SettingsPath(home: string): string {
    home + "/.claude/settings.json"
  }

  /** `get_token_from_settings`: the token and base URL under the `env` key
      of the settings file; both absent when the file is missing, is not
      JSON, or is not shaped as objects. */
  function ReadSettings(host: AuthHost): (r: (Option<string>, Option<string>))
    ensures host.settingsFile.None? ==> r == (None, None)
    ensures host.settingsFile.Some? && host.parse(host.settingsFile.value).None? ==> r == (None, None)
    ensures r.0.Some? ==> r.0.value != ""
    ensures r.1.Some? ==> r.1.value != ""
  {
    match host.settingsFile
    case None => (None, None)
    case Some(text) =>
      match host.parse(text)
      case Some(JObject(settings)) =>
        var envSettings := FieldOrEmpty(settings, "env");
        if envSettings.JObject? then
          (StringField(envSettings.fields, "ANTHROPIC_AUTH_TOKEN"), StringField(envSettings.fields, "ANTHROPIC_BASE_URL"))
        else (None, None)
      case _ => (None, None)
  }

  /** `get_token_from_keychain`: the OAuth access token stored by the
      official CLI, read only on macOS. */
  function ReadKeychain(host: AuthHost): (token: Option<string>)
    ensures !host.isDarwin ==> token.None?
    ensures host.keychainOutput.None? ==> token.None?
    ensures token.Some? ==> token.value != ""
  {
    if !host.isDarwin then None
    else
      match host.keychainOutput
      case None => None
      case Some(output) =>
        var credentials := PyStrip(output);
        if credentials == "" then None
        else
          match host.parse(credentials)
          case Some(JObject(data)) =>
            var oauth := FieldOrEmpty(data, "claudeAiOauth");
            if oauth.JObject? then StringField(oauth.fields, "accessToken") else None
          case _ => None
  }

  // ---------------------------------------------------------------------
  // Token resolution

  /** One credential source, with the name `get_auth_token_source` reports
      and the token it offers. */
  datatype Tier = Tier(source: string, token: Option<string>)

  /** The source name of an environment variable. */
  function EnvSource(name: string): string {
    "env:" + name
  }

  /** The sources in priority order, given the tokens the settings file
      and the keychain offer. */
  function TierList(env: map<string, string>, settingsToken: Option<string>, keychainToken: Option<string>): seq<Tier> {
    [Tier(EnvSource(AuthTokenEnvVars[0]), EnvValue(env, AuthTokenEnvVars[0])),
     Tier(EnvSource(AuthTokenEnvVars[1]), EnvValue(env, AuthTokenEnvVars[1])),
     Tier(SettingsSource, settingsToken),
     Tier(KeychainSource, keychainToken)]
  }

  function Tiers(env: map<string, string>, host: AuthHost): seq<Tier> {
    TierList(env, ReadSettings(host).0, ReadKeychain(host))
  }

  /** The first source that offers a token. */
  function FirstOffer(tiers: seq<Tier>): (r: Option<Tier>)
    ensures r.Some? ==> r.value in tiers && r.value.token.Some?
  {
    if tiers == [] then None
    else if tiers[0].token.Some? then Some(tiers[0])
    else FirstOffer(tiers[1..])
  }

  function AuthToken(env: map<string, string>, host: AuthHost): Option<string> {
    match FirstOffer(Tiers(env, host))
    case None => None
    case Some(t) => t.token
  }

  function AuthTokenSource(env: map<string, string>, host: AuthHost): Option<string> {
    match FirstOffer(Tiers(env, host))
    case None => None
    case Some(t) => Some(t.source)
  }

  lemma FirstOfferOfTierList(env: map<string, string>, settingsToken: Option<string>, keychainToken: Option<string>)
    ensures var oauth := EnvValue(env, "CLAUDE_CODE_OAUTH_TOKEN");
      var authToken := EnvValue(env, "ANTHROPIC_AUTH_TOKEN");
      FirstOffer(TierList(env, settingsToken, keychainToken)) ==
        if oauth.Some? then Some(Tier(EnvSource("CLAUDE_CODE_OAUTH_TOKEN"), oauth))
        else if authToken.Some? then Some(Tier(EnvSource("ANTHROPIC_AUTH_TOKEN"), authToken))
        else if settingsToken.Some? then Some(Tier(SettingsSource, settingsToken))
        else if keychainToken.Some? then Some(Tier(KeychainSource, keychainToken))
        else None
  {
    var t := TierList(env, settingsToken, keychainToken);
    assert AuthTokenEnvVars[0] == "CLAUDE_CODE_OAUTH_TOKEN" && AuthTokenEnvVars[1] == "ANTHROPIC_AUTH_TOKEN";
    assert t[1..] == [t[1], t[2], t[3]] && t[1..][1..] == [t[2], t[3]] && t[1..][1..][1..] == [t[3]];
    assert FirstOffer(t[1..][1..][1..][1..]) == None;
    assert FirstOffer(t[1..][1..][1..]) == if keychainToken.Some? then Some(t[3]) else None;
    assert FirstOffer(t[1..][1..]) == if settingsToken.Some? then Some(t[2]) else FirstOffer(t[1..][1..][1..]);
    assert FirstOffer(t[1..]) == if t[1].token.Some? then Some(t[1]) else FirstOffer(t[1..][1..]);
    assert FirstOffer(t) == if t[0].token.Some? then Some(t[0]) else FirstOffer(t[1..]);
    assert t[0] == Tier(EnvSource("CLAUDE_CODE_OAUTH_TOKEN"), EnvValue(env, "CLAUDE_CODE_OAUTH_TOKEN"));
  }

  /** The resolved token, spelled out tier by tier, and the source named
      for it: the OAuth variable, then the auth-token variable, then the
      settings file, then the keychain. */
  lemma AuthTokenPriority(env: map<string, string>, host: AuthHost)
    ensures AuthToken(env, host) ==
      if EnvValue(env, "CLAUDE_CODE_OAUTH_TOKEN").Some? then EnvValue(env, "CLAUDE_CODE_OAUTH_TOKEN")
      else if EnvValue(env, "ANTHROPIC_AUTH_TOKEN").Some? then EnvValue(env, "ANTHROPIC_AUTH_TOKEN")
      else if ReadSettings(host).0.Some? then ReadSettings(host).0
      else ReadKeychain(host)
    ensures AuthTokenSource(env, host) ==
      if EnvValue(env, "CLAUDE_CODE_OAUTH_TOKEN").Some? then Some(EnvSource("CLAUDE_CODE_OAUTH_TOKEN"))
      else if EnvValue(env, "ANTHROPIC_AUTH_TOKEN").Some? then Some(EnvSource("ANTHROPIC_AUTH_TOKEN"))
      else if ReadSettings(host).0.Some? then Some(SettingsSource)
      else if ReadKeychain(host).Some? then Some(KeychainSource)
      else None
  {
    FirstOfferOfTierList(env, ReadSettings(host).0, ReadKeychain(host));
  }

  /** A source is named exactly when a token is found, and a found token is
      never empty. */
  lemma TokenAndSourceAgree(env: map<string, string>, host: AuthHost)
    ensures AuthToken(env, host).None? <==> AuthTokenSource(env, host).None?
    ensures AuthToken(env, host).Some? ==> AuthToken(env, host).value != ""
  {
    AuthTokenPriority(env, host);
  }

  /** `get_auth_token` */
  method GetAuthToken(env: map<string, string>, host: AuthHost) returns (token: Option<string>)
    ensures token == AuthToken(env, host)
  {
    var tiers := Tiers(env, host);
    for i := 0 to |AuthTokenEnvVars|
      invariant FirstOffer(tiers[i..]) == FirstOffer(tiers)
    {
      var name := AuthTokenEnvVars[i];
      if name in env && env[name] != "" {
        return Some(env[name]);
      }
      assert tiers[i..][1..] == tiers[i + 1..];
    }
    var (settingsToken, _) := ReadSettings(host);
    if settingsToken.Some? {
      return settingsToken;
    }
    assert tiers[2..][1..] == tiers[3..];
    token := ReadKeychain(host);
  }

  /** `get_auth_token_source` */
  method GetAuthTokenSource(env: map<string, string>, host: AuthHost) returns (source: Option<string>)
    ensures source == AuthTokenSource(env, host)
  {
    var tiers := Tiers(env, host);
    for i := 0 to |AuthTokenEnvVars|
      invariant FirstOffer(tiers[i..]) == FirstOffer(tiers)
    {
      var name := AuthTokenEnvVars[i];
      if name in env && env[name] != "" {
        return Some(EnvSource(name));
      }
      assert tiers[i..][1..] == tiers[i + 1..];
    }
    var (settingsToken, _) := ReadSettings(host);
    if settingsToken.Some? {
      return Some(SettingsSource);
    }
    assert tiers[2..][1..] == tiers[3..];
    if ReadKeychain(host).Some? {
      return Some(KeychainSource);
    }
    assert tiers[3..][1..] == [];
    source := None;
  }

  /** The `ValueError` text of `require_auth_token`. */
  function MissingTokenMessage(home: string): string {
    "未找到认证凭证。\n\n"
    + "已检查的凭证来源（按优先级）：\n"
    + "  1. 环境变量: CLAUDE_CODE_OAUTH_TOKEN, ANTHROPIC_AUTH_TOKEN\n"
    + "  2. 配置文件: " + SettingsPath(home) + "\n"
    + "  3. macOS Keychain\n\n"
    + "解决方案：\n"
    + "  - 第三方渠道: 确保 ~/.claude/settings.json 包含有效的 ANTHROPIC_AUTH_TOKEN\n"
    + "  - 官方 OAuth: 运行 'claude setup-token'\n"
    + "  - 环境变量: 在 .env 中设置 ANTHROPIC_AUTH_TOKEN"
  }

  /** `require_auth_token`: the resolved token, or the error when there is
      none. */
  function RequireAuthToken(env: map<string, string>, host: AuthHost): (r: Result<string, string>)
    ensures r.Err? <==> AuthToken(env, host).None?
    ensures r.Ok? ==> r.value == AuthToken(env, host).value && r.value != ""
    ensures r.Err? ==> r.error == MissingTokenMessage(host.home)
  {
    TokenAndSourceAgree(env, host);
    match AuthToken(env, host)
    case None => Err(MissingTokenMessage(host.home))
    case Some(token) => Ok(token)
  }

  // ---------------------------------------------------------------------
  // Environment for the SDK

  /** The value the settings file supplies for an SDK variable. */
  function SettingsValue(name: string, host: AuthHost): Option<string> {
    if name == "ANTHROPIC_AUTH_TOKEN" then ReadSettings(host).0
    else if name == "ANTHROPIC_BASE_URL" then ReadSettings(host).1
    else None
  }

  /** The variables of `base`, overridden by each of `names` that is set
      in the environment, in order. */
  function Overlay(base: map<string, string>, env: map<string, string>, names: seq<string>): map<string, string>
  {
    if names == [] then base
    else
      var earlier := Overlay(base, env, names[..|names| - 1]);
      var name := names[|names| - 1];
      if EnvValue(env, name).Some? then earlier[name := env[name]] else earlier
  }

  /** A variable is overlaid exactly when it is listed and set; the others
      keep their value from `base`. */
  lemma {:induction false} OverlayAt(base: map<string, string>, env: map<string, string>, names: seq<string>, name: string)
    ensures name in Overlay(base, env, names) <==> name in base || (name in names && EnvValue(env, name).Some?)
    ensures name in Overlay(base, env, names) ==>
      Overlay(base, env, names)[name] == (if name in names && EnvValue(env, name).Some? then env[name] else base[name])
    decreases |names|
  {
    if names != [] {
      var init := names[..|names| - 1];
      OverlayAt(base, env, init, name);
      assert name in names <==> name in init || name == names[|names| - 1];
    }
  }

  /** What the settings file contributes before the environment is read. */
  function SettingsBase(host: AuthHost): map<string, string> {
    var (settingsToken, settingsBaseUrl) := ReadSettings(host);
    var withToken := if settingsToken.Some? then map["ANTHROPIC_AUTH_TOKEN" := settingsToken.value] else map[];
    if settingsBaseUrl.Some? then withToken["ANTHROPIC_BASE_URL" := settingsBaseUrl.value] else withToken
  }

  /** The settings file supplies exactly its token and base URL. */
  lemma SettingsBaseAt(host: AuthHost, name: string)
    ensures name in SettingsBase(host) <==> SettingsValue(name, host).Some?
    ensures name in SettingsBase(host) ==> SettingsBase(host)[name] == SettingsValue(name, host).value
  {
  }

  /** The SDK variables that have a value, each from the environment when
      it is set there, else from the settings file. */
  lemma SdkEnvSpec(env: map<string, string>, host: AuthHost)
    ensures var sdk := Overlay(SettingsBase(host), env, SdkEnvVars);
      (forall name :: name in sdk <==>
         name in SdkEnvVars && (EnvValue(env, name).Some? || SettingsValue(name, host).Some?))
      && (forall name :: name in sdk ==> sdk[name] != "")
      && (forall name :: name in sdk ==>
            sdk[name] == (if EnvValue(env, name).Some? then env[name] else SettingsValue(name, host).value))
  {
    var sdk := Overlay(SettingsBase(host), env, SdkEnvVars);
    assert "ANTHROPIC_AUTH_TOKEN" in SdkEnvVars && "ANTHROPIC_BASE_URL" in SdkEnvVars by {
      assert SdkEnvVars[0] == "ANTHROPIC_BASE_URL" && SdkEnvVars[1] == "ANTHROPIC_AUTH_TOKEN";
    }
    forall name
      ensures (name in sdk <==> name in SdkEnvVars && (EnvValue(env, name).Some? || SettingsValue(name, host).Some?))
        && (name in sdk ==>
              sdk[name] != "" && sdk[name] == (if EnvValue(env, name).Some? then env[name] else SettingsValue(name, host).value))
    {
      SettingsBaseAt(host, name);
      OverlayAt(SettingsBase(host), env, SdkEnvVars, name);
    }
  }

  /** `get_sdk_env_vars` */
  method GetSdkEnvVars(env: map<string, string>, host: AuthHost) returns (sdk: map<string, string>)
    ensures forall name :: name in sdk <==>
      name in SdkEnvVars && (EnvValue(env, name).Some? || SettingsValue(name, host).Some?)
    ensures forall name :: name in sdk ==> sdk[name] != ""
    ensures forall name :: name in sdk ==>
      sdk[name] == (if EnvValue(env, name).Some? then env[name] else SettingsValue(name, host).value)
  {
    sdk := map[];
    var (settingsToken, settingsBaseUrl) := ReadSettings(host);
    if settingsToken.Some? {
      sdk := sdk["ANTHROPIC_AUTH_TOKEN" := settingsToken.value];
    }
    if settingsBaseUrl.Some? {
      sdk := sdk["ANTHROPIC_BASE_URL" := settingsBaseUrl.value];
    }
    assert sdk == SettingsBase(host);
    for i := 0 to |SdkEnvVars|
      invariant sdk == Overlay(SettingsBase(host), env, SdkEnvVars[..i])
    {
      var name := SdkEnvVars[i];
      assert SdkEnvVars[..i + 1][..i] == SdkEnvVars[..i];
      if name in env && env[name] != "" {
        sdk := sdk[name := env[name]];
      }
    }
    assert SdkEnvVars[..|SdkEnvVars|] == SdkEnvVars;
    SdkEnvSpec(env, host);
  }

  // ---------------------------------------------------------------------
  // Filling the environment

  /** The environment after `ensure_claude_code_oauth_token`, step by step. */
  function FillFromSettings(env: map<string, string>, host: AuthHost): map<string, string> {
    var (settingsToken, settingsBaseUrl) := ReadSettings(host);
    var withToken :=
      if EnvValue(env, "ANTHROPIC_AUTH_TOKEN").None? && settingsToken.Some?
      then env["ANTHROPIC_AUTH_TOKEN" := settingsToken.value] else env;
    if EnvValue(withToken, "ANTHROPIC_BASE_URL").None? && settingsBaseUrl.Some?
    then withToken["ANTHROPIC_BASE_URL" := settingsBaseUrl.value] else withToken
  }

  function EnsuredEnv(env: map<string, string>, host: AuthHost): map<string, string> {
    var filled := FillFromSettings(env, host);
    if EnvValue(filled, "CLAUDE_CODE_OAUTH_TOKEN").None? && AuthToken(filled, host).Some?
    then filled["CLAUDE_CODE_OAUTH_TOKEN" := AuthToken(filled, host).value] else filled
  }

  predicate IsFilledName(name: string) {
    name == "ANTHROPIC_AUTH_TOKEN" || name == "ANTHROPIC_BASE_URL" || name == "CLAUDE_CODE_OAUTH_TOKEN"
  }

  /** Filling never overwrites a set variable, touches only the three auth
      variables, and fills the token and base URL from the settings file
      only where they were unset. */
  lemma EnsuredEnvOnlyFills(env: map<string, string>, host: AuthHost)
    ensures forall name :: EnvValue(env, name).Some? ==> EnvValue(EnsuredEnv(env, host), name) == EnvValue(env, name)
    ensures forall name :: !IsFilledName(name) ==>
      (name in EnsuredEnv(env, host) <==> name in env)
      && (name in env ==> EnsuredEnv(env, host)[name] == env[name])
    ensures EnvValue(env, "ANTHROPIC_AUTH_TOKEN").None? && ReadSettings(host).0.Some? ==>
      EnvValue(EnsuredEnv(env, host), "ANTHROPIC_AUTH_TOKEN") == ReadSettings(host).0
    ensures EnvValue(env, "ANTHROPIC_BASE_URL").None? && ReadSettings(host).1.Some? ==>
      EnvValue(EnsuredEnv(env, host), "ANTHROPIC_BASE_URL") == ReadSettings(host).1
  {
    forall name
      ensures (EnvValue(env, name).Some? ==> EnvValue(EnsuredEnv(env, host), name) == EnvValue(env, name))
        && (!IsFilledName(name) ==>
              (name in EnsuredEnv(env, host) <==> name in env)
              && (name in env ==> EnsuredEnv(env, host)[name] == env[name]))
    {
      EnsuredEnvAt(env, host, name);
    }
  }

  /** One variable after filling: a set one keeps its value and one other
      than the three auth variables is untouched. */
  lemma EnsuredEnvAt(env: map<string, string>, host: AuthHost, name: string)
    ensures EnvValue(env, name).Some? ==> EnvValue(EnsuredEnv(env, host), name) == EnvValue(env, name)
    ensures !IsFilledName(name) ==>
      (name in EnsuredEnv(env, host) <==> name in env)
      && (name in env ==> EnsuredEnv(env, host)[name] == env[name])
  {
  }

  /** Filling does not change which token is resolved, and afterwards the
      OAuth variable holds a token whenever one is found. */
  lemma EnsuredEnvKeepsToken(env: map<string, string>, host: AuthHost)
    ensures AuthToken(EnsuredEnv(env, host), host) == AuthToken(env, host)
    ensures AuthToken(env, host).Some? ==> EnvValue(EnsuredEnv(env, host), "CLAUDE_CODE_OAUTH_TOKEN").Some?
  {
    var filled := FillFromSettings(env, host);
    FillKeepsToken(env, host);
    if EnvValue(filled, "CLAUDE_CODE_OAUTH_TOKEN").None? && AuthToken(filled, host).Some? {
      AuthTokenPriority(EnsuredEnv(env, host), host);
    }
  }

  /** Filling from the settings file leaves the OAuth variable and the
      resolved token as they were. */
  lemma FillKeepsToken(env: map<string, string>, host: AuthHost)
    ensures EnvValue(FillFromSettings(env, host), "CLAUDE_CODE_OAUTH_TOKEN") == EnvValue(env, "CLAUDE_CODE_OAUTH_TOKEN")
    ensures AuthToken(FillFromSettings(env, host), host) == AuthToken(env, host)
  {
    FillTokenVariables(env, host);
    AuthTokenPriority(env, host);
    AuthTokenPriority(FillFromSettings(env, host), host);
  }

  /** The two token variables after filling: the OAuth one as it was, the
      auth-token one from the settings file where it was unset. */
  lemma FillTokenVariables(env: map<string, string>, host: AuthHost)
    ensures EnvValue(FillFromSettings(env, host), "CLAUDE_CODE_OAUTH_TOKEN") == EnvValue(env, "CLAUDE_CODE_OAUTH_TOKEN")
    ensures EnvValue(FillFromSettings(env, host), "ANTHROPIC_AUTH_TOKEN") ==
      if EnvValue(env, "ANTHROPIC_AUTH_TOKEN").Some? then EnvValue(env, "ANTHROPIC_AUTH_TOKEN") else ReadSettings(host).0
  {
  }

  /** `os.environ`, which `ensure_claude_code_oauth_token` updates in place. */
  class ProcessEnvironment {
    var vars: map<string, string>

    constructor(vars: map<string, string>)
      ensures this.vars == vars
    {
      this.vars := vars;
    }

    /** `ensure_claude_code_oauth_token` */
    method EnsureClaudeCodeOauthToken(host: AuthHost)
      modifies this
      ensures vars == EnsuredEnv(old(vars), host)
      ensures AuthToken(old(vars), host).Some? ==> EnvValue(vars, "CLAUDE_CODE_OAUTH_TOKEN").Some?
    {
      var (settingsToken, settingsBaseUrl) := ReadSettings(host);
      if !("ANTHROPIC_AUTH_TOKEN" in vars && vars["ANTHROPIC_AUTH_TOKEN"] != "") && settingsToken.Some? {
        vars := vars["ANTHROPIC_AUTH_TOKEN" := settingsToken.value];
      }
      if !("ANTHROPIC_BASE_URL" in vars && vars["ANTHROPIC_BASE_URL"] != "") && settingsBaseUrl.Some? {
        vars := vars["ANTHROPIC_BASE_URL" := settingsBaseUrl.value];
      }
      assert vars == FillFromSettings(old(vars), host);
      if !("CLAUDE_CODE_OAUTH_TOKEN" in vars && vars["CLAUDE_CODE_OAUTH_TOKEN"] != "") {
        var token := GetAuthToken(vars, host);
        if token.Some? {
          vars := vars["CLAUDE_CODE_OAUTH_TOKEN" := token.value];
        }
      }
      EnsuredEnvKeepsToken(old(vars), host);
    }
  }
}
