// The translation table and the language manager: text lookup by key in
// the current language, with fallbacks, and switching between the two
// supported languages.

module Language {
  import opened Common
  import opened Config

  /** One translation entry: its Chinese and its English text. */
  datatype Entry = Entry(zh: string, en: string)

  /** An entry's text in a language, as `entry.get(code)`: only the two
      supported codes have a text. */
  function TextIn(e: Entry, code: string): (t: Option<string>)
    ensures t.Some? <==> code in Languages
  {
    if code == "zh_CN" then Some(e.zh) else if code == "en_US" then Some(e.en) else None
  }

  /** The display name of each supported language. */
  const LanguageNames: map<string, string> := map["zh_CN" := "中文", "en_US" := "English"]

  /** The translation table: the entry of a text key, if the table has one. */
  function Translation(key: string): Option<Entry>
  {
    match key
    case "window_title" => Some(Entry("ICU手部行为监测系统 v3.2", "ICU Hand Behavior Monitoring System v3.2"))
    case "theme_settings" => Some(Entry("主题设置", "Theme Settings"))
    case "light_theme" => Some(Entry("浅色", "Light"))
    case "dark_theme" => Some(Entry("深色", "Dark"))
    case "auto_theme" => Some(Entry("自动", "Auto"))
    case "camera_selection" => Some(Entry("摄像头选择", "Camera Selection"))
    case "camera" => Some(Entry("摄像头", "Camera"))
    case "parameter_settings" => Some(Entry("参数设置", "Parameter Settings"))
    case "gesture_sensitivity" => Some(Entry("手势检测灵敏度", "Gesture Detection Sensitivity"))
    case "alarm_interval" => Some(Entry("报警间隔设置(秒)", "Alarm Interval Settings (sec)"))
    case "level" => Some(Entry("级别", "Level"))
    case "roi_settings" => Some(Entry("ROI设置", "ROI Settings"))
    case "width" => Some(Entry("宽度", "Width"))
    case "height" => Some(Entry("高度", "Height"))
    case "apply_settings" => Some(Entry("应用设置", "Apply Settings"))
    case "control_buttons" => Some(Entry("控制按钮", "Control Buttons"))
    case "start_selected" => Some(Entry("启动选中", "Start Selected"))
    case "stop_all" => Some(Entry("停止所有", "Stop All"))
    case "pause_alarm" => Some(Entry("暂停报警", "Pause Alarm"))
    case "reset_status" => Some(Entry("重置状态", "Reset Status"))
    case "system_status" => Some(Entry("系统状态", "System Status"))
    case "system_info" => Some(Entry("系统信息", "System Information"))
    case "system_ready" => Some(Entry("系统就绪", "System Ready"))
    case "status" => Some(Entry("状态", "Status"))
    case "alarm_level" => Some(Entry("报警级别", "Alarm Level"))
    case "detection_time" => Some(Entry("检测时间", "Detection Time"))
    case "seconds" => Some(Entry("秒", "s"))
    case "no_active_camera" => Some(Entry("无活动摄像头", "No Active Camera"))
    case "system_running" => Some(Entry("系统运行中", "System Running"))
    case "system_stopped" => Some(Entry("系统已停止", "System Stopped"))
    case "camera_running" => Some(Entry("摄像头 {} 运行中", "Camera {} Running"))
    case "select_camera" => Some(Entry("请选择要启动的摄像头", "Please select cameras to start"))
    case "cameras_started" => Some(Entry("已启动 {} 个摄像头", "{} cameras started"))
    case "alarm_paused" => Some(Entry("报警已暂停", "Alarm Paused"))
    case "status_reset" => Some(Entry("状态已重置", "Status Reset"))
    case "settings_updated" => Some(Entry("设置已更新", "Settings Updated"))
    case "init_error" => Some(Entry("初始化错误", "Initialization Error"))
    case "system_init_failed" => Some(Entry("系统初始化失败", "System initialization failed"))
    case "config_error" => Some(Entry("配置错误", "Configuration Error"))
    case "runtime_error" => Some(Entry("运行错误", "Runtime Error"))
    case "unknown_error" => Some(Entry("未知错误", "Unknown Error"))
    case "camera_start_failed" => Some(Entry("摄像头{}启动失败", "Camera {} start failed"))
    case "creating_fallback_audio" => Some(Entry("创建备用音频文件", "Creating fallback audio file"))
    case "system_starting" => Some(Entry("系统启动中...", "System starting..."))
    case "system_crash" => Some(Entry("系统崩溃", "System crash"))
    case "fatal_error" => Some(Entry("致命错误", "Fatal Error"))
    case "unrecoverable_error" => Some(Entry("系统发生不可恢复错误", "System encountered an unrecoverable error"))
    case "language_settings" => Some(Entry("语言设置", "Language Settings"))
    case "chinese" => Some(Entry("中文", "Chinese"))
    case "english" => Some(Entry("英文", "English"))
    case "current_time" => Some(Entry("当前时间", "Current Time"))
    case _ => None
  }

  // ---------------------------------------------------------------------
  // str.format with positional "{}" fields

  /** The number of "{}" fields in a text. */
  function Fields(text: string): nat
  {
    if |text| < 2 then 0
    else if text[0] == '{' && text[1] == '}' then 1 + Fields(text[2..])
    else Fields(text[1..])
  }

  /** The text contains no brace other than those of "{}" fields. */
  predicate OnlyPlainFields(text: string)
  {
    if text == [] then true
    else if |text| >= 2 && text[0] == '{' && text[1] == '}' then OnlyPlainFields(text[2..])
    else text[0] != '{' && text[0] != '}' && OnlyPlainFields(text[1..])
  }

  /** `text.format(*args)` for texts whose only fields are "{}": each field
      takes the next argument, surplus arguments are ignored, and too few
      arguments or any other brace raise (None). */
  function Format(text: string, args: seq<string>): (r: Option<string>)
    decreases |text|
  {
    if text == [] then Some([])
    else if |text| >= 2 && text[0] == '{' && text[1] == '}' then
      if args == [] then None
      else
        match Format(text[2..], args[1..])
        case None => None
        case Some(rest) => Some(args[0] + rest)
    else if text[0] == '{' || text[0] == '}' then None
    else
      match Format(text[1..], args)
      case None => None
      case Some(rest) => Some([text[0]] + rest)
  }

  /** Formatting succeeds exactly when the text has only "{}" fields and at
      least as many arguments as fields. */
  lemma {:induction false} FormatSucceedsIff(text: string, args: seq<string>)
    ensures Format(text, args).Some? <==> OnlyPlainFields(text) && Fields(text) <= |args|
    decreases |text|
  {
    if text == [] {
    } else if |text| >= 2 && text[0] == '{' && text[1] == '}' {
      if args != [] {
        FormatSucceedsIff(text[2..], args[1..]);
      }
    } else if text[0] == '{' || text[0] == '}' {
    } else {
      FormatSucceedsIff(text[1..], args);
      assert |text| >= 2 ==> text[1..][0] == text[1];
    }
  }

  /** A text without braces formats to itself, whatever the arguments. */
  lemma {:induction false} FormatPlain(text: string, args: seq<string>)
    requires forall i :: 0 <= i < |text| ==> text[i] != '{' && text[i] != '}'
    ensures Format(text, args) == Some(text)
    decreases |text|
  {
    if text != [] {
      FormatPlain(text[1..], args);
      assert [text[0]] + text[1..] == text;
    }
  }

  /** The manager of the current language (a single shared instance). */
  class LanguageManager {
    var currentLanguage: string
    const config: SystemConfig

    /** The current language starts as the configuration's preference. */
    constructor(config: SystemConfig)
      ensures this.config == config && currentLanguage == config.languagePreference
    {
      this.config := config;
      currentLanguage := config.languagePreference;
    }

    /** get_text: an unknown key is returned as it is; otherwise the entry's
        text in the current language, or the key when the entry lacks that
        language; with arguments, the formatted text, or the unformatted
        text when formatting raises. */
    function GetText(key: string, args: seq<string>): (s: string)
      reads this
      ensures Translation(key).None? ==> s == key
      ensures Translation(key).Some? && currentLanguage !in Languages && args == [] ==> s == key
      ensures Translation(key).Some? && currentLanguage in Languages && args == [] ==> s == TextIn(Translation(key).value, currentLanguage).value
      ensures Translation(key).Some? && args != [] ==>
        var text := if currentLanguage in Languages then TextIn(Translation(key).value, currentLanguage).value else key;
        s == (if Format(text, args).Some? then Format(text, args).value else text)
    {
      match Translation(key)
      case None => key
      case Some(entry) =>
        var text := match TextIn(entry, currentLanguage) case Some(t) => t case None => key;
        if args == [] then text
        else
          match Format(text, args)
          case Some(f) => f
          case None => text
    }

    /** switch_language: a supported code becomes the current language and is
        saved as the preference; any other code is refused with nothing changed. */
    method SwitchLanguage(code: string) returns (ok: bool)
      modifies this, config`languagePreference
      ensures ok <==> code in Languages
      ensures ok ==> currentLanguage == code && config.languagePreference == code
      ensures !ok ==> currentLanguage == old(currentLanguage) && config.languagePreference == old(config.languagePreference)
    {
      if code in Languages {
        currentLanguage := code;
        var _ := config.SaveLanguagePreference(code);
        return true;
      }
      return false;
    }

    /** get_current_language. */
    function GetCurrentLanguage(): (code: string)
      reads this
      ensures code == currentLanguage
    {
      currentLanguage
    }

    /** get_language_name: the code defaults to the current language, and a
        code without a name is returned as it is. */
    function GetLanguageName(code: Option<string>): (name: string)
      reads this
      ensures var c := if code.None? then currentLanguage else code.value;
        (c in LanguageNames ==> name == LanguageNames[c]) && (c !in LanguageNames ==> name == c)
    {
      var c := if code.None? then currentLanguage else code.value;
      if c in LanguageNames then LanguageNames[c] else c
    }
  }

  /** A brace-free prefix is copied through: formatting only acts on the fields. */
  lemma {:induction false} FormatPrefix(prefix: string, rest: string, args: seq<string>)
    requires forall i :: 0 <= i < |prefix| ==> prefix[i] != '{' && prefix[i] != '}'
    ensures Format(prefix + rest, args) ==
      match Format(rest, args) case None => None case Some(r) => Some(prefix + r)
    decreases |prefix|
  {
    if prefix == [] {
      assert prefix + rest == rest;
      match Format(rest, args) {
        case None =>
        case Some(r) => assert prefix + r == r;
      }
    } else {
      assert (prefix + rest)[1..] == prefix[1..] + rest;
      assert (prefix + rest)[0] == prefix[0];
      FormatPrefix(prefix[1..], rest, args);
      match Format(rest, args) {
        case None =>
        case Some(r) => assert [prefix[0]] + (prefix[1..] + r) == prefix + r;
      }
    }
  }

  /** A leading "{}" field takes the first argument. */
  lemma FormatField(rest: string, args: seq<string>)
    requires args != []
    ensures Format("{}" + rest, args) ==
      match Format(rest, args[1..]) case None => None case Some(r) => Some(args[0] + r)
  {
    assert ("{}" + rest)[2..] == rest;
  }

  /** A text with one "{}" field between brace-free parts formats to the
      argument put in place of the field. */
  lemma FormatOneField(head: string, tail: string, arg: string)
    requires forall i :: 0 <= i < |head| ==> head[i] != '{' && head[i] != '}'
    requires forall i :: 0 <= i < |tail| ==> tail[i] != '{' && tail[i] != '}'
    ensures Format(head + "{}" + tail, [arg]) == Some(head + arg + tail)
  {
    var field := "{}" + tail;
    FormatPlain(tail, []);
    assert [arg][1..] == [];
    FormatField(tail, [arg]);
    assert Format(field, [arg]) == Some(arg + tail);
    FormatPrefix(head, field, [arg]);
    assert head + "{}" + tail == head + field;
    assert head + (arg + tail) == head + arg + tail;
  }
}
