/**
 * The configuration module of backend/config/index.template.js: the catalogue
 * of managed MiroTalk applications, the selection of the active one, and the
 * settings read from the process environment with their defaults.
 */
module Config {
  import opened Wrappers
  import opened Text

  /** The process environment: the variables that are set, each with its text. */
  type Env = map<string, string>

  /** `process.env[name]`: undefined when the variable is not set. */
  function Lookup(env: Env, name: string): Option<string> {
    if name in env then Some(env[name]) else None
  }

  /** JavaScript truthiness of an optional text: set and not empty. */
  predicate Truthy(v: Option<string>) {
    v.Some? && v.value != ""
  }

  /** `process.env[name] || fallback`: an empty value falls back as an unset one does. */
  function EnvOr(env: Env, name: string, fallback: string): (r: string)
    ensures Truthy(Lookup(env, name)) ==> r == env[name]
    ensures !Truthy(Lookup(env, name)) ==> r == fallback
    ensures fallback != "" ==> r != ""
  {
    if Truthy(Lookup(env, name)) then env[name] else fallback
  }

  /** One entry of the application catalogue. */
  datatype AppConfig = AppConfig(
    dir: string,
    packageUrl: string,
    packagePath: string,
    config: string,
    env: string,
    dep: seq<string>)

  const DEFAULT_DEPS: seq<string> :=
    ["git", "node", "npm", "certbot", "nginx", "apache2", "docker", "docker-compose", "pm2"]
  const SFU_EXTRA_DEPS: seq<string> := ["gcc", "gpp", "make", "python3", "pip3", "ffmpeg"]

  /** `makeConfig`: an omitted `config` is the empty text, an omitted `dep` the default dependencies. */
  function MakeConfig(dir: string, packageUrl: string, packagePath: string, config: Option<string>,
                      env: string, dep: Option<seq<string>>): (c: AppConfig)
    ensures c.config == (if config.Some? then config.value else "")
    ensures c.dep == (if dep.Some? then dep.value else DEFAULT_DEPS)
  {
    AppConfig(dir, packageUrl, packagePath, config.GetOr(""), env, dep.GetOr(DEFAULT_DEPS))
  }

  const SFU := "mirotalksfu"
  const P2P := "mirotalk"
  const C2C := "mirotalkc2c"
  const BRO := "mirotalkbro"
  const WEBRTC := "mirotalkwebrtc"
  const ADMIN := "mirotalkadmin"

  const RAW := "https://raw.githubusercontent.com/miroslavpejic85/"

  /** The catalogue `APP_CONFIG`, with the directories taken from the environment. */
  function AppCatalog(env: Env): (catalog: map<string, AppConfig>)
    ensures catalog.Keys == {SFU, P2P, C2C, BRO, WEBRTC, ADMIN}
    ensures catalog[SFU].dir == EnvOr(env, "MIROTALK_SFU_DIR", "/root/mirotalksfu")
    ensures forall n :: n in catalog ==>
              catalog[n].packagePath == catalog[n].dir + "/package.json" && catalog[n].env == catalog[n].dir + "/.env"
  {
    var sfu := EnvOr(env, "MIROTALK_SFU_DIR", "/root/mirotalksfu");
    var p2p := EnvOr(env, "MIROTALK_P2P_DIR", "/root/mirotalk");
    var c2c := EnvOr(env, "MIROTALK_C2C_DIR", "/root/mirotalkc2c");
    var bro := EnvOr(env, "MIROTALK_BRO_DIR", "/root/mirotalkbro");
    var web := EnvOr(env, "MIROTALK_WEB_DIR", "/root/mirotalkwebrtc");
    var admin := EnvOr(env, "MIROTALK_ADMIN_DIR", "/root/mirotalk-admin");
    map[
      SFU := MakeConfig(sfu, RAW + "mirotalksfu/main/package.json", sfu + "/package.json",
                        Some(sfu + "/app/src/config.js"), sfu + "/.env", Some(DEFAULT_DEPS + SFU_EXTRA_DEPS)),
      P2P := MakeConfig(p2p, RAW + "mirotalk/master/package.json", p2p + "/package.json",
                        Some(p2p + "/app/src/config.js"), p2p + "/.env", None),
      C2C := MakeConfig(c2c, RAW + "mirotalkc2c/main/package.json", c2c + "/package.json",
                        Some(""), c2c + "/.env", None),
      BRO := MakeConfig(bro, RAW + "mirotalkbro/main/package.json", bro + "/package.json",
                        Some(bro + "/public/js/config.js"), bro + "/.env", None),
      WEBRTC := MakeConfig(web, RAW + "mirotalkwebrtc/master/package.json", web + "/package.json",
                           Some(web + "/backend/config.js"), web + "/.env", None),
      ADMIN := MakeConfig(admin, RAW + "mirotalk-admin/main/package.json", admin + "/package.json",
                          Some(admin + "/backend/config/index.js"), admin + "/.env", None)
    ]
  }

  /** `APP_NAMES`: the raw environment text when set, otherwise a one-element list. */
  datatype AppNames = NamesText(text: string) | NamesList(names: seq<string>)

  /** `SSH_PORT`: the environment text when set, otherwise the number 22. */
  datatype Port = PortText(text: string) | PortNumber(number: int)

  /** The fields of the exported configuration object the dashboard's core reads. */
  datatype Settings = Settings(
    logsDebug: bool,
    logsColors: bool,
    logsJson: bool,
    logsJsonPretty: bool,
    appConfig: map<string, AppConfig>,
    appDefaults: AppConfig,
    appName: string,
    appNames: AppNames,
    dashboardEnabled: bool,
    allowedIps: seq<string>,
    appManageMode: string,
    sshManageMode: string,
    sshHost: Option<string>,
    sshPort: Port,
    sshUser: string,
    sshPassword: Option<string>,
    sshPrivateKeyPath: Option<string>,
    sshPrivateKey: Option<seq<bv8>>)

  /** `APP_NAME`: the first comma-separated segment of the variable, trimmed. */
  function SelectAppName(env: Env): (name: string)
    ensures ',' !in name
  {
    var first := Split(EnvOr(env, "APP_NAME", SFU), ',')[0];
    TrimChars(first);
    Trim(first)
  }

  /** `APP_DEFAULTS`: the catalogue entry of the name, or the SFU entry for an unknown name. */
  function SelectDefaults(catalog: map<string, AppConfig>, name: string): (d: AppConfig)
    requires SFU in catalog
    ensures d in catalog.Values
    ensures name in catalog ==> d == catalog[name]
  {
    if name in catalog then catalog[name] else catalog[SFU]
  }

  /** The configuration object as it is built when the module loads; `readFile` reads the key file. */
  function Load(env: Env, readFile: string -> seq<bv8>): (s: Settings)
    ensures s.appName == SelectAppName(env)
    ensures SFU in s.appConfig && s.appDefaults in s.appConfig.Values
    ensures s.sshPrivateKey.Some? <==> Truthy(s.sshPrivateKeyPath)
    ensures s.sshPrivateKey.Some? ==> s.sshPrivateKey.value == readFile(s.sshPrivateKeyPath.value)
  {
    var catalog := AppCatalog(env);
    var name := SelectAppName(env);
    var keyPath := Lookup(env, "SSH_PRIVATE_KEY_PATH");
    Settings(
      logsDebug := Lookup(env, "LOGS_DEBUG") != Some("false"),
      logsColors := Lookup(env, "LOGS_COLORS") != Some("false"),
      logsJson := Lookup(env, "LOGS_JSON") == Some("true"),
      logsJsonPretty := Lookup(env, "LOGS_JSON_PRETTY") == Some("true"),
      appConfig := catalog,
      appDefaults := SelectDefaults(catalog, name),
      appName := name,
      appNames := if Truthy(Lookup(env, "APP_NAME")) then NamesText(env["APP_NAME"]) else NamesList([SFU]),
      dashboardEnabled := Lookup(env, "ADMIN_DASHBOARD_ENABLED") == Some("true"),
      allowedIps := if Truthy(Lookup(env, "ADMIN_ALLOWED_IPS")) then Split(env["ADMIN_ALLOWED_IPS"], ',') else ["*"],
      appManageMode := EnvOr(env, "APP_MANAGE_MODE", "ssh"),
      sshManageMode := EnvOr(env, "SSH_MANAGE_MODE", "docker"),
      sshHost := Lookup(env, "SSH_HOST"),
      sshPort := if Truthy(Lookup(env, "SSH_PORT")) then PortText(env["SSH_PORT"]) else PortNumber(22),
      sshUser := EnvOr(env, "SSH_USER", "root"),
      sshPassword := Lookup(env, "SSH_PASSWORD"),
      sshPrivateKeyPath := keyPath,
      sshPrivateKey := if Truthy(keyPath) then Some(readFile(keyPath.value)) else None)
  }

  /**
   * The catalogue has the six applications; the SFU depends on the default
   * dependencies followed by its extra ones, every other application on the
   * default dependencies; the C2C application has no main config file.
   */
  lemma CatalogShape(env: Env)
    ensures AppCatalog(env).Keys == {SFU, P2P, C2C, BRO, WEBRTC, ADMIN}
    ensures AppCatalog(env)[SFU].dep == DEFAULT_DEPS + SFU_EXTRA_DEPS
    ensures forall n :: n in AppCatalog(env) && n != SFU ==> AppCatalog(env)[n].dep == DEFAULT_DEPS
    ensures AppCatalog(env)[C2C].config == ""
    ensures forall n :: n in AppCatalog(env) ==> AppCatalog(env)[n].dir != ""
  {
  }

  /** An unset or empty `APP_NAME` selects the SFU. */
  lemma AppNameDefault(env: Env)
    requires !Truthy(Lookup(env, "APP_NAME"))
    ensures SelectAppName(env) == SFU
  {
    var v := EnvOr(env, "APP_NAME", SFU);
    assert v == SFU;
    assert ',' !in v;
    SplitFirst(v, ',');
    assert !IsSpace(v[0]) && !IsSpace(v[|v| - 1]);
    TrimUnpadded(v);
  }

  /** A single name with no surrounding whitespace is taken as it is. */
  lemma AppNamePlain(env: Env)
    requires Truthy(Lookup(env, "APP_NAME"))
    requires ',' !in env["APP_NAME"]
    requires !IsSpace(env["APP_NAME"][0]) && !IsSpace(env["APP_NAME"][|env["APP_NAME"]| - 1])
    ensures SelectAppName(env) == env["APP_NAME"]
  {
    var v := env["APP_NAME"];
    assert EnvOr(env, "APP_NAME", SFU) == v;
    SplitFirst(v, ',');
    TrimUnpadded(v);
  }

  /** An unknown application name keeps its value but gets the SFU defaults. */
  lemma UnknownAppNameGetsSfuDefaults(env: Env, readFile: string -> seq<bv8>)
    ensures Load(env, readFile).appName == SelectAppName(env)
    ensures SelectAppName(env) !in AppCatalog(env) ==> Load(env, readFile).appDefaults == AppCatalog(env)[SFU]
    ensures SelectAppName(env) in AppCatalog(env) ==>
              Load(env, readFile).appDefaults == AppCatalog(env)[SelectAppName(env)]
  {
  }

  /**
   * `ADMIN_ALLOWED_IPS` is split at commas without trimming: joining the
   * entries again gives the variable back.
   */
  lemma AllowedIpsUntrimmed(env: Env, readFile: string -> seq<bv8>)
    ensures !Truthy(Lookup(env, "ADMIN_ALLOWED_IPS")) ==> Load(env, readFile).allowedIps == ["*"]
    ensures Truthy(Lookup(env, "ADMIN_ALLOWED_IPS")) ==>
              Join(Load(env, readFile).allowedIps, ",") == env["ADMIN_ALLOWED_IPS"]
    ensures forall ip :: ip in Load(env, readFile).allowedIps ==> ',' !in ip
    ensures |Load(env, readFile).allowedIps| >= 1
  {
    if Truthy(Lookup(env, "ADMIN_ALLOWED_IPS")) {
      JoinSplit(env["ADMIN_ALLOWED_IPS"], ',');
    }
  }

  /** The settings of an empty environment: every default. */
  lemma EmptyEnvironmentDefaults(readFile: string -> seq<bv8>)
    ensures var s := Load(map[], readFile);
      && s.appName == SFU && s.appDefaults == AppCatalog(map[])[SFU]
      && s.appNames == NamesList([SFU])
      && s.appManageMode == "ssh" && s.sshManageMode == "docker"
      && s.sshPort == PortNumber(22) && s.sshUser == "root"
      && s.sshHost.None? && s.sshPassword.None? && s.sshPrivateKey.None?
      && s.allowedIps == ["*"]
      && s.logsDebug && s.logsColors && !s.logsJson && !s.dashboardEnabled
  {
    AppNameDefault(map[]);
  }

  /**
   * The boolean flags: `LOGS_DEBUG` and `LOGS_COLORS` hold unless the value is
   * exactly `false`; `LOGS_JSON` and `ADMIN_DASHBOARD_ENABLED` only for exactly `true`.
   */
  lemma FlagReading(env: Env, readFile: string -> seq<bv8>)
    ensures Load(env, readFile).logsDebug <==> !("LOGS_DEBUG" in env && env["LOGS_DEBUG"] == "false")
    ensures Load(env, readFile).logsColors <==> !("LOGS_COLORS" in env && env["LOGS_COLORS"] == "false")
    ensures Load(env, readFile).logsJson <==> "LOGS_JSON" in env && env["LOGS_JSON"] == "true"
    ensures Load(env, readFile).dashboardEnabled <==>
              "ADMIN_DASHBOARD_ENABLED" in env && env["ADMIN_DASHBOARD_ENABLED"] == "true"
  {
  }
}
