/** Themes: a theme is an object whose values are strings or, for
    `fontSize` and `messageColors`, objects of strings. Spreading is map
    union with the right operand winning. */
module Theme {
  import opened Wrappers

  datatype ThemeValue = Str(s: string) | Group(entries: map<string, string>)

  type ThemeConfig = map<string, ThemeValue>

  const FONT_SIZE: string := "fontSize"
  const MESSAGE_COLORS: string := "messageColors"

  /** The default theme of `createTheme`; it has no `messageColors`. */
  const BASE_THEME: ThemeConfig := map[
    "primaryColor" := Str("#007bff"),
    "secondaryColor" := Str("#735a3c"),
    "backgroundColor" := Str("#f1ece9"),
    "textColor" := Str("#333333"),
    "borderRadius" := Str("25px"),
    "fontFamily" := Str("-apple-system, BlinkMacSystemFont, \"Segoe UI\", Roboto, sans-serif"),
    FONT_SIZE := Group(map["small" := "12px", "medium" := "14px", "large" := "16px"])
  ]

  /** `{ ...base, ...over }`: every key of `over` with its value from `over`,
      every other key of `base` with its value from `base`, and no other
      key. */
  function Overlay(base: ThemeConfig, over: ThemeConfig): (r: ThemeConfig)
    ensures r.Keys == base.Keys + over.Keys
    ensures forall k :: k in over ==> r[k] == over[k]
    ensures forall k :: k in base && k !in over ==> r[k] == base[k]
  {
    base + over
  }

  /** `createTheme`: the default theme overlaid with the custom one. */
  function CreateTheme(custom: Option<ThemeConfig>): (r: ThemeConfig)
    ensures custom.None? ==> r == BASE_THEME
    ensures custom.Some? ==> forall k :: k in custom.value ==> k in r && r[k] == custom.value[k]
    ensures forall k :: k in BASE_THEME && (custom.None? || k !in custom.value) ==> k in r && r[k] == BASE_THEME[k]
    ensures forall k :: k in r ==> k in BASE_THEME || (custom.Some? && k in custom.value)
  {
    if custom.Some? then Overlay(BASE_THEME, custom.value) else BASE_THEME
  }

  /** The result has `messageColors` only when the custom theme supplies it,
      and always has every default key. */
  lemma CreatedThemeKeys(custom: Option<ThemeConfig>)
    ensures MESSAGE_COLORS in CreateTheme(custom) <==> custom.Some? && MESSAGE_COLORS in custom.value
    ensures BASE_THEME.Keys <= CreateTheme(custom).Keys
  {
    assert MESSAGE_COLORS !in BASE_THEME by {
      assert BASE_THEME.Keys == {"primaryColor", "secondaryColor", "backgroundColor", "textColor",
                                 "borderRadius", "fontFamily", FONT_SIZE};
    }
  }

  /** A supplied `fontSize` replaces the default one wholesale: a size it
      leaves out is absent from the result, not taken from the default. */
  lemma FontSizeReplacedWholesale(custom: ThemeConfig, sizes: map<string, string>)
    requires FONT_SIZE in custom && custom[FONT_SIZE] == Group(sizes)
    ensures CreateTheme(Some(custom))[FONT_SIZE] == Group(sizes)
    ensures "small" !in sizes ==> "small" !in CreateTheme(Some(custom))[FONT_SIZE].entries
  {
  }
}
