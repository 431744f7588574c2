/**
 * The active-application switch of backend/services/appService.js. The
 * configuration object is shared and changed in place: `setAppName` rewrites
 * its `APP_NAME` and `APP_DEFAULTS` fields.
 */
module AppService {
  import opened Wrappers
  import Config

  /** An error thrown with an HTTP status attached. */
  datatype HttpError = HttpError(status: nat, message: string)

  const INVALID_APP_NAME := HttpError(400, "Invalid app name")

  /** The fields of the configuration object the switch reads and writes. */
  datatype ActiveApp = ActiveApp(
    appName: string,
    appDefaults: Config.AppConfig,
    appConfig: map<string, Config.AppConfig>,
    appNames: Config.AppNames)

  /** The defaults are always one of the catalogue's entries, and the entry of the name when the name is known. */
  predicate Consistent(a: ActiveApp) {
    && a.appDefaults in a.appConfig.Values
    && (a.appName in a.appConfig ==> a.appDefaults == a.appConfig[a.appName])
  }

  /** The fields as the configuration module builds them. */
  function FromSettings(s: Config.Settings): ActiveApp {
    ActiveApp(s.appName, s.appDefaults, s.appConfig, s.appNames)
  }

  /** The loaded configuration is consistent. */
  lemma LoadedConsistent(env: Config.Env, readFile: string -> seq<bv8>)
    ensures Consistent(FromSettings(Config.Load(env, readFile)))
  {
    Config.CatalogShape(env);
    Config.UnknownAppNameGetsSfuDefaults(env, readFile);
    var catalog := Config.AppCatalog(env);
    assert catalog[Config.SFU] in catalog.Values;
  }

  /** JavaScript truthiness of `APP_NAMES`: a text must not be empty; a list always is truthy. */
  predicate NamesTruthy(names: Config.AppNames) {
    names.NamesText? ==> names.text != ""
  }

  /** `getAppNames` on the fields: the configured names, or the SFU's name as a text. */
  function AppNamesOf(a: ActiveApp): (names: Config.AppNames)
    ensures NamesTruthy(a.appNames) ==> names == a.appNames
    ensures !NamesTruthy(a.appNames) ==> names == Config.NamesText(Config.SFU)
    ensures NamesTruthy(names)
  {
    if NamesTruthy(a.appNames) then a.appNames else Config.NamesText(Config.SFU)
  }

  /** The names of the loaded configuration are returned as they are. */
  lemma LoadedNamesReturned(env: Config.Env, readFile: string -> seq<bv8>)
    ensures AppNamesOf(FromSettings(Config.Load(env, readFile))) == Config.Load(env, readFile).appNames
  {
  }

  /**
   * `setAppName` on the fields: a name outside the catalogue is an error and changes
   * nothing; a known name becomes the active one with its catalogue entry
   * as the defaults, which are returned.
   */
  function SwitchApp(a: ActiveApp, name: string): (r: Result<(ActiveApp, Config.AppConfig), HttpError>)
    ensures name !in a.appConfig ==> r == Err(INVALID_APP_NAME)
    ensures name in a.appConfig ==> (r.Ok? && r.value.1 == a.appConfig[name]
      && r.value.0 == a.(appName := name, appDefaults := a.appConfig[name]))
  {
    if name !in a.appConfig then Err(INVALID_APP_NAME)
    else Ok((a.(appName := name, appDefaults := a.appConfig[name]), a.appConfig[name]))
  }

  /** A successful switch leaves the fields consistent, with the new name known, whatever they were before. */
  lemma SwitchAppConsistent(a: ActiveApp, name: string)
    requires SwitchApp(a, name).Ok?
    ensures Consistent(SwitchApp(a, name).value.0) && SwitchApp(a, name).value.0.appName in a.appConfig
    ensures SwitchApp(a, name).value.0.appConfig == a.appConfig && SwitchApp(a, name).value.0.appNames == a.appNames
  {
    assert a.appConfig[name] in a.appConfig.Values;
  }

  /** Switching to the same application twice is the same as switching once. */
  lemma SwitchAppIdempotent(a: ActiveApp, name: string)
    requires SwitchApp(a, name).Ok?
    ensures SwitchApp(SwitchApp(a, name).value.0, name) == SwitchApp(a, name)
  {
  }

  /** Switching to the active application of a consistent configuration with a known name changes nothing. */
  lemma SwitchToActiveNoChange(a: ActiveApp)
    requires Consistent(a) && a.appName in a.appConfig
    ensures SwitchApp(a, a.appName) == Ok((a, a.appDefaults))
  {
  }

  /** The shared configuration object, as far as the switch reads and writes it. */
  class ConfigObject {
    var appName: string
    var appDefaults: Config.AppConfig
    var appConfig: map<string, Config.AppConfig>
    var appNames: Config.AppNames

    function State(): ActiveApp
      reads this
    {
      ActiveApp(appName, appDefaults, appConfig, appNames)
    }

    constructor(settings: Config.Settings)
      ensures State() == FromSettings(settings)
    {
      appName := settings.appName;
      appDefaults := settings.appDefaults;
      appConfig := settings.appConfig;
      appNames := settings.appNames;
    }

    method GetAppNames() returns (names: Config.AppNames)
      ensures names == AppNamesOf(State())
    {
      names := if NamesTruthy(appNames) then appNames else Config.NamesText(Config.SFU);
    }

    /** `setAppName`, changing the object in place. */
    method SetAppName(name: string) returns (r: Result<Config.AppConfig, HttpError>)
      modifies this
      ensures var spec := SwitchApp(old(State()), name);
        && (spec.Err? ==> r == Err(spec.error) && State() == old(State()))
        && (spec.Ok? ==> r == Ok(spec.value.1) && State() == spec.value.0)
    {
      if name !in appConfig {
        return Err(INVALID_APP_NAME);
      }
      appName := name;
      appDefaults := appConfig[name];
      return Ok(appDefaults);
    }
  }
}
