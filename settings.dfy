/**
 * `Vkontakte.settings`, its overlay by the saved admin settings in `init`,
 * and the strategy registration in `getStrategy` that depends on it
 * (library.js:30-36, 63-74, 104-152).
 */
module PluginSettings {
  import opened Wrappers
  import opened Lists

  /** The values of `Vkontakte.settings`; "" stands for `undefined`. */
  datatype Config = Config(id: string, secret: string, autoconfirm: bool)

  /** The saved `sso-vkontakte` settings as loaded; "" stands for a missing or empty value. */
  datatype LoadedSettings = LoadedSettings(id: string, secret: string, autoconfirm: string)

  /** The settings before `init`, from the environment (library.js:31-35); "" is an unset variable. */
  function FromEnvironment(envId: string, envSecret: string, envAutoconfirm: string): (c: Config)
    ensures c.autoconfirm <==> envAutoconfirm == "true"
    ensures c.id == envId && c.secret == envSecret
  {
    Config(envId, envSecret, envAutoconfirm == "true")
  }

  /** The overlay of library.js:64-72: a truthy saved value replaces the current one. */
  function Overlay(c: Config, l: LoadedSettings): (r: Config)
    ensures r.id == (if l.id != "" then l.id else c.id)
    ensures r.secret == (if l.secret != "" then l.secret else c.secret)
    ensures l.autoconfirm != "" ==> (r.autoconfirm <==> l.autoconfirm == "on")
    ensures l.autoconfirm == "" ==> r.autoconfirm == c.autoconfirm
  {
    Config(if l.id != "" then l.id else c.id,
           if l.secret != "" then l.secret else c.secret,
           if l.autoconfirm != "" then l.autoconfirm == "on" else c.autoconfirm)
  }

  /** Loading the same saved settings twice is the same as loading them once. */
  lemma OverlayIdempotent(c: Config, l: LoadedSettings)
    ensures Overlay(Overlay(c, l), l) == Overlay(c, l)
  {
  }

  /** The two-field test of library.js:106. */
  function CredentialsPresent(c: Config): (r: bool)
    ensures r ==> |c.id| > 0 && |c.secret| > 0
    ensures !r ==> c.id == "" || c.secret == ""
  {
    c.id != "" && c.secret != ""
  }

  /** Loading saved settings never turns a configured provider off. */
  lemma OverlayKeepsCredentials(c: Config, l: LoadedSettings)
    requires CredentialsPresent(c)
    ensures CredentialsPresent(Overlay(c, l))
  {
  }

  /** What `passport.use` is handed (library.js:107-112). */
  datatype OAuthRegistration = OAuthRegistration(clientId: string, clientSecret: string, callbackUrl: string)

  const CALLBACK_PATH := "/auth/vkontakte/callback"

  /** The registration for the current settings: none unless both credentials are present. */
  function Registration(c: Config, baseUrl: string): (r: Option<OAuthRegistration>)
    ensures r.Some? <==> c.id != "" && c.secret != ""
    ensures r.Some? ==> r.value == OAuthRegistration(c.id, c.secret, baseUrl + CALLBACK_PATH)
  {
    if CredentialsPresent(c) then Some(OAuthRegistration(c.id, c.secret, baseUrl + CALLBACK_PATH)) else None
  }

  /** The login button entry pushed into `strategies` (library.js:139-148). */
  datatype StrategyEntry = StrategyEntry(
    name: string, url: string, callbackUrl: string, icon: string, scope: string,
    displayName: string, borderColor: string, backgroundColor: string, textColor: string)

  const VK_STRATEGY := StrategyEntry("vkontakte", "/auth/vkontakte", CALLBACK_PATH, "vk fa-vk", "email",
                                     "VK", "#4680C2", "#4680C2", "#FFF")

  class Settings {
    var id: string
    var secret: string
    var autoconfirm: bool

    function Value(): Config
      reads this
    {
      Config(id, secret, autoconfirm)
    }

    constructor (envId: string, envSecret: string, envAutoconfirm: string)
      ensures Value() == FromEnvironment(envId, envSecret, envAutoconfirm)
    {
      id := envId;
      secret := envSecret;
      autoconfirm := envAutoconfirm == "true";
    }

    /**
     * The settings part of `Vkontakte.init`: field by field, a truthy saved
     * value wins.  The error of loading the settings is ignored, so when it
     * yields no settings object (`None`), reading its `id` throws before any
     * field changes and before `callback()` is reached (`thrown`).
     */
    method Init(settingsLoad: Option<LoadedSettings>) returns (thrown: bool)
      modifies this
      ensures thrown <==> settingsLoad.None?
      ensures Value() == if settingsLoad.Some? then Overlay(old(Value()), settingsLoad.value) else old(Value())
    {
      if settingsLoad.None? {
        return true;
      }
      thrown := false;
      var loaded := settingsLoad.value;
      if loaded.id != "" {
        id := loaded.id;
      }
      if loaded.secret != "" {
        secret := loaded.secret;
      }
      if loaded.autoconfirm != "" {
        autoconfirm := loaded.autoconfirm == "on";
      }
    }

    /**
     * `Vkontakte.getStrategy`: with both credentials it registers the OAuth
     * strategy and appends the login button; without them it does neither.
     */
    method GetStrategy(strategies: PushList<StrategyEntry>, baseUrl: string) returns (registered: Option<OAuthRegistration>)
      modifies strategies
      ensures registered == Registration(Value(), baseUrl)
      ensures strategies.items == old(strategies.items) + (if CredentialsPresent(Value()) then [VK_STRATEGY] else [])
    {
      registered := None;
      if id != "" && secret != "" {
        registered := Some(OAuthRegistration(id, secret, baseUrl + CALLBACK_PATH));
        strategies.Push(VK_STRATEGY);
      }
    }
  }
}
