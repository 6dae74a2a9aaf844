// The style tables of the user interface and their lookups, each of which
// falls back to a fixed default entry for a name the table does not hold.

module Styles {
  import opened Common

  /** The fifteen colours of a theme. */
  datatype Theme = Theme(
    bg: string, fg: string, accent: string, success: string, warning: string, error: string,
    buttonBg: string, buttonFg: string, buttonActive: string, frameBg: string, border: string,
    hover: string, gradientStart: string, gradientEnd: string, shadow: string)

  const DefaultTheme := "light"

  const Themes: map<string, Theme> := map[
    "light" := Theme("#f5f7fa", "#2c3e50", "#3498db", "#2ecc71", "#f39c12", "#e74c3c",
                     "#ecf0f1", "#2c3e50", "#3498db", "#ffffff", "#dfe6e9",
                     "#d6eaf8", "#3498db", "#2980b9", "#bdc3c7"),
    "dark" := Theme("#2d3436", "#dfe6e9", "#74b9ff", "#00b894", "#fdcb6e", "#ff7675",
                    "#353b48", "#dfe6e9", "#74b9ff", "#2d3436", "#636e72",
                    "#0984e3", "#6c5ce7", "#a29bfe", "#1e272e"),
    "blue" := Theme("#e3f2fd", "#0d47a1", "#1976d2", "#43a047", "#ff9800", "#e53935",
                    "#bbdefb", "#0d47a1", "#1976d2", "#ffffff", "#90caf9",
                    "#64b5f6", "#2196f3", "#1976d2", "#bbdefb")
  ]

  const StatusColors: map<string, string> := map[
    "normal" := "#43a047", "detecting" := "#ff9800", "alarm" := "#e53935", "disabled" := "#9e9e9e"
  ]

  const AlarmLevelColors: map<int, string> := map[
    0 := "#43a047", 1 := "#ffeb3b", 2 := "#ff9800", 3 := "#f44336", 4 := "#d32f2f"
  ]

  /** A drop shadow: colour, x and y offset, blur radius. */
  datatype Shadow = Shadow(color: string, offsetX: int, offsetY: int, blurRadius: int)

  const Shadows: map<string, Shadow> := map[
    "light" := Shadow("#00000022", 2, 2, 5),
    "medium" := Shadow("#00000033", 4, 4, 8),
    "heavy" := Shadow("#00000044", 6, 6, 12)
  ]

  /** Animation durations in milliseconds. */
  const Animations: map<string, int> := map["fast" := 150, "normal" := 300, "slow" := 500]

  const Gradients: map<string, (string, string)> := map[
    "blue" := ("#3498db", "#2980b9"),
    "green" := ("#2ecc71", "#27ae60"),
    "red" := ("#e74c3c", "#c0392b"),
    "purple" := ("#9b59b6", "#8e44ad"),
    "orange" := ("#f39c12", "#d35400"),
    "gray" := ("#95a5a6", "#7f8c8d")
  ]

  /** Python's `d.get(key, default)`. */
  function Get<K, V>(d: map<K, V>, key: K, default: V): (v: V)
    ensures key in d ==> v == d[key]
    ensures key !in d ==> v == default
  {
    if key in d then d[key] else default
  }

  /** get_theme: no name or the empty name means the default theme, and a
      name the table does not hold also gives the light theme. */
  function GetTheme(name: Option<string>): (t: Theme)
    ensures t in Themes.Values
    ensures name.Some? && name.value in Themes ==> t == Themes[name.value]
    ensures name.None? || name.value !in Themes ==> t == Themes[DefaultTheme]
  {
    var key := if name.None? || name.value == "" then DefaultTheme else name.value;
    Get(Themes, key, Themes[DefaultTheme])
  }

  /** get_status_color: the three known statuses have their own colours and
      every other status is shown as disabled. The theme is looked up and
      then not used. */
  function GetStatusColor(status: string, theme: Option<string>): (c: string)
    ensures status in {"normal", "detecting", "alarm"} ==> c == StatusColors[status]
    ensures status !in {"normal", "detecting", "alarm"} ==> c == StatusColors["disabled"]
  {
    var _ := GetTheme(theme);
    if status == "normal" then StatusColors["normal"]
    else if status == "detecting" then StatusColors["detecting"]
    else if status == "alarm" then StatusColors["alarm"]
    else StatusColors["disabled"]
  }

  /** get_alarm_level_color: levels 0 to 4 have a colour each, and any other
      level gets the level-0 colour. */
  function GetAlarmLevelColor(level: int): (c: string)
    ensures 0 <= level <= 4 ==> c == AlarmLevelColors[level]
    ensures (level < 0 || level > 4) ==> c == AlarmLevelColors[0]
  {
    Get(AlarmLevelColors, level, AlarmLevelColors[0])
  }

  /** get_shadow: an unknown depth gives the medium shadow. */
  function GetShadow(depth: string): (s: Shadow)
    ensures depth in Shadows ==> s == Shadows[depth]
    ensures depth !in Shadows ==> s == Shadows["medium"]
  {
    Get(Shadows, depth, Shadows["medium"])
  }

  /** get_animation_duration: an unknown speed gives the normal 300 ms. */
  function GetAnimationDuration(speed: string): (ms: int)
    ensures speed in Animations ==> ms == Animations[speed]
    ensures speed !in Animations ==> ms == 300
  {
    Get(Animations, speed, Animations["normal"])
  }

  /** get_gradient: an unknown colour gives the blue gradient. */
  function GetGradient(color: string): (g: (string, string))
    ensures color in Gradients ==> g == Gradients[color]
    ensures color !in Gradients ==> g == ("#3498db", "#2980b9")
  {
    Get(Gradients, color, Gradients["blue"])
  }

  /** The status colour does not depend on the theme argument. */
  lemma StatusColorIgnoresTheme(status: string, a: Option<string>, b: Option<string>)
    ensures GetStatusColor(status, a) == GetStatusColor(status, b)
  {
  }

  /** Every lookup answers with an entry of its table: none of them fails. */
  lemma LookupsStayInTables(name: Option<string>, status: string, level: int, depth: string, speed: string, color: string)
    ensures GetTheme(name) in Themes.Values
    ensures GetStatusColor(status, name) in StatusColors.Values
    ensures GetAlarmLevelColor(level) in AlarmLevelColors.Values
    ensures GetShadow(depth) in Shadows.Values
    ensures GetAnimationDuration(speed) in {150, 300, 500}
    ensures GetGradient(color) in Gradients.Values
  {
    assert "disabled" in StatusColors;
  }

  /** The alarm level the status panel shows (the number of tiers played)
      gets a colour of its own for each of the four default tiers. */
  lemma LevelColorsDistinct(i: int, j: int)
    requires 0 <= i < j <= 4
    ensures GetAlarmLevelColor(i) != GetAlarmLevelColor(j)
  {
  }
}
