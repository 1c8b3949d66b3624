/** The widget configuration: defaults, and the merge of a user's partial
    configuration over them. A configuration object is a map from option
    name to value; an option the user leaves out is a missing key. */
module Config {
  import opened Wrappers
  import opened Theme
  import QuickReplies
  import ChatService

  datatype ConfigValue =
    | Text(s: string)
    | Flag(b: bool)
    | Number(n: int)
    | ThemeObj(theme: ThemeConfig)
    | HeaderObj(headers: map<string, string>)
    | Replies(replies: seq<QuickReplies.QuickReply>)
    | OtherObject

  /** The options of `WidgetConfig`, with the three proxy options
      `createConfig` also forwards. */
  datatype Setting =
    | Title | Subtitle | Placeholder | WelcomeMessage | Position | ThemeSetting
    | ApiEndpoint | ApiKey | Headers | AnalyticsEndpoint | CorsProxy | UseProxy
    | EnableVoice | EnableFileUpload | MaxMessageLength | PersistMessages | CustomStyles
    | ProductCarouselEnabled | QuickReplyList | AvatarSrc | LogoSrc

  type WidgetConfig = map<Setting, ConfigValue>

  const THEME: Setting := ThemeSetting

  /** The default theme of the widget configuration: the `createTheme`
      default plus message colours. */
  const DEFAULT_THEME: ThemeConfig :=
    BASE_THEME[MESSAGE_COLORS := Group(map["user" := "#735a3c", "bot" := "#ffffff"])]

  const DEFAULT_CONFIG: WidgetConfig := map[
    Title := Text("Nova"),
    Subtitle := Text("How can I assist you today?"),
    Placeholder := Text("Ask me anything..."),
    WelcomeMessage := Text("Welcome I am Eve, how can I assist you?"),
    Position := Text("bottom-right"),
    THEME := ThemeObj(DEFAULT_THEME),
    UseProxy := Flag(true),
    EnableVoice := Flag(false),
    EnableFileUpload := Flag(false),
    MaxMessageLength := Number(500),
    PersistMessages := Flag(false),
    ProductCarouselEnabled := Flag(true),
    QuickReplyList := Replies([]),
    AvatarSrc := Text(""),
    LogoSrc := Text("")
  ]

  /** The theme object a configuration value spreads: an object spreads its
      keys; `null`, `undefined` and the other primitives spread none. */
  function ThemeKeys(v: Option<ConfigValue>): ThemeConfig {
    if v.Some? && v.value.ThemeObj? then v.value.theme else map[]
  }

  /** A string option as the service receives it. */
  function StringOption(cfg: WidgetConfig, key: Setting): Option<string> {
    if key in cfg && cfg[key].Text? then Some(cfg[key].s) else None
  }

  /** The chat service `createConfig` builds from the merged configuration. */
  function ServiceConfigOf(cfg: WidgetConfig): ChatService.ChatServiceConfig {
    ChatService.ChatServiceConfig(
      StringOption(cfg, ApiEndpoint),
      StringOption(cfg, ApiKey),
      if Headers in cfg && cfg[Headers].HeaderObj? then Some(cfg[Headers].headers) else None)
  }

  /** `createConfig`: the defaults overlaid with the user's options, then
      the theme rebuilt as the default theme overlaid with the merged
      theme; also the chat service configuration it installs. */
  function CreateConfig(user: WidgetConfig): (r: (WidgetConfig, ChatService.ChatServiceConfig))
    ensures forall k :: k in user && k != THEME ==> k in r.0 && r.0[k] == user[k]
    ensures forall k :: k in DEFAULT_CONFIG && k !in user && k != THEME ==> k in r.0 && r.0[k] == DEFAULT_CONFIG[k]
    ensures r.0.Keys == DEFAULT_CONFIG.Keys + user.Keys
    ensures THEME in r.0 && r.0[THEME].ThemeObj?
    ensures r.1.apiEndpoint == StringOption(user, ApiEndpoint)
    ensures r.1.apiKey == StringOption(user, ApiKey)
    ensures r.1.headers == if Headers in user && user[Headers].HeaderObj? then Some(user[Headers].headers) else None
  {
    var d := DEFAULT_CONFIG;
    assert THEME in d && ApiEndpoint !in d && ApiKey !in d && Headers !in d;
    var config := d + user;
    var theme := Overlay(DEFAULT_THEME, ThemeKeys(if THEME in config then Some(config[THEME]) else None));
    (config[THEME := ThemeObj(theme)], ServiceConfigOf(config))
  }

  /** Without a user theme the result's theme is the default theme; with one,
      its keys override the default theme's one level deep and the other
      default keys stay. */
  lemma MergedTheme(user: WidgetConfig)
    ensures THEME !in user ==> CreateConfig(user).0[THEME] == ThemeObj(DEFAULT_THEME)
    ensures THEME in user && user[THEME].ThemeObj? ==>
      var t := CreateConfig(user).0[THEME].theme;
      && (forall k :: k in user[THEME].theme ==> k in t && t[k] == user[THEME].theme[k])
      && (forall k :: k in DEFAULT_THEME && k !in user[THEME].theme ==> k in t && t[k] == DEFAULT_THEME[k])
  {
    var config := DEFAULT_CONFIG + user;
    if THEME !in user {
      var d := DEFAULT_CONFIG;
      assert d[THEME] == ThemeObj(DEFAULT_THEME);
      assert config[THEME] == ThemeObj(DEFAULT_THEME);
      assert Overlay(DEFAULT_THEME, DEFAULT_THEME) == DEFAULT_THEME;
    } else {
      assert config[THEME] == user[THEME];
    }
  }

  /** User `messageColors` and `fontSize` groups replace the default ones
      wholesale: a colour the user leaves out is not filled in. */
  lemma GroupsNotDeepMerged(user: WidgetConfig, colors: map<string, string>)
    requires THEME in user && user[THEME].ThemeObj?
    requires MESSAGE_COLORS in user[THEME].theme && user[THEME].theme[MESSAGE_COLORS] == Group(colors)
    ensures CreateConfig(user).0[THEME].theme[MESSAGE_COLORS] == Group(colors)
    ensures "bot" !in colors ==> "bot" !in CreateConfig(user).0[THEME].theme[MESSAGE_COLORS].entries
  {
    MergedTheme(user);
  }

  /** The defaults of note: messages are not persisted, the proxy is used
      and input is capped at 500 characters. */
  lemma NotableDefaults(user: WidgetConfig)
    requires PersistMessages !in user && UseProxy !in user && MaxMessageLength !in user
    ensures CreateConfig(user).0[PersistMessages] == Flag(false) && CreateConfig(user).0[UseProxy] == Flag(true)
            && CreateConfig(user).0[MaxMessageLength] == Number(500)
  {
    var d := DEFAULT_CONFIG;
    assert d[PersistMessages] == Flag(false) && d[UseProxy] == Flag(true) && d[MaxMessageLength] == Number(500);
  }

  /** With no endpoint, key or headers supplied the chat service gets none,
      so it answers with canned replies. */
  lemma NoServiceOptionsMeansMock(user: WidgetConfig)
    requires ApiEndpoint !in user && ApiKey !in user && Headers !in user
    ensures CreateConfig(user).1 == ChatService.ChatServiceConfig(None, None, None)
    ensures !ChatService.Given(CreateConfig(user).1.apiEndpoint)
  {
  }
}
