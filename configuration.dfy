/** The statusline configuration record: plain nested values, held by one
    `Config` object whose fields the screen controllers overwrite in place,
    and the built-in defaults. */
module Configuration {
  import opened GoText

  datatype EnabledSections = EnabledSections(
    git: bool, directory: bool, model: bool, contextMoons: bool,
    tokenCount: bool, percentage: bool, mascot: bool, waitingIndicator: bool)

  datatype Colors = Colors(directory: string, gitClean: string, gitDirty: string, model: string, text: string)

  datatype Icons = Icons(gitClean: string, gitDirty: string, directory: string, moons: seq<string>)

  /** One trigger-based mascot mood. */
  datatype MascotState = MascotState(enabled: bool, threshold: GoInt, emojis: seq<string>, animate: bool, speed: GoInt)

  /** The four time-of-day moods: one frame list each, one shared enabled
      flag, animate flag and speed. */
  datatype TimeBasedMood = TimeBasedMood(
    enabled: bool, night: seq<string>, morning: seq<string>, afternoon: seq<string>,
    evening: seq<string>, animate: bool, speed: GoInt)

  datatype Mascot = Mascot(contextPanic: MascotState, productive: MascotState, deletion: MascotState, timeBased: TimeBasedMood)

  datatype Thresholds = Thresholds(moonPhases: seq<GoInt>, directoryMaxLength: GoInt, directoryTruncateTo: GoInt, tokenKFormat: GoInt)

  datatype Display = Display(separator: string)

  datatype WaitingIndicator = WaitingIndicator(enabled: bool, icon: string, text: string, blink: bool)

  datatype NotificationConfig = NotificationConfig(
    enabled: bool, onContextPanic: bool, onSessionLimit: bool, contextThreshold: GoInt, sessionThreshold: GoInt)

  /** The sound volume is a float64 multiplier; the editor only copies volumes
      and compares them for equality, which exact reals do the same way. */
  datatype DesktopNotification = DesktopNotification(
    enabled: bool, onContextPanic: bool, onSessionLimit: bool, contextThreshold: GoInt,
    sessionThreshold: GoInt, title: string, sound: bool, soundPath: string, soundVolume: real)

  datatype TerminalTitleConfig = TerminalTitleConfig(
    enabled: bool, showModel: bool, showContext: bool, showBranch: bool, alertOnPanic: bool,
    panicPrefix: string, contextThreshold: GoInt)

  datatype TmuxNotification = TmuxNotification(
    enabled: bool, onContextPanic: bool, onSessionLimit: bool, contextThreshold: GoInt,
    sessionThreshold: GoInt, displayMessage: bool, setWindowStyle: bool, alertStyle: string)

  datatype Notifications = Notifications(
    terminalBell: NotificationConfig, desktop: DesktopNotification, blinkingText: NotificationConfig,
    terminalTitle: TerminalTitleConfig, tmux: TmuxNotification)

  /** The whole record as one value. */
  datatype Settings = Settings(
    version: string, enabledSections: EnabledSections, colors: Colors, icons: Icons, mascot: Mascot,
    thresholds: Thresholds, display: Display, waitingIndicator: WaitingIndicator, notifications: Notifications)

  /** The configuration object that every controller holds a reference to. */
  class Config {
    var version: string
    var enabledSections: EnabledSections
    var colors: Colors
    var icons: Icons
    var mascot: Mascot
    var thresholds: Thresholds
    var display: Display
    var waitingIndicator: WaitingIndicator
    var notifications: Notifications

    /** The current contents of the object. */
    function Value(): Settings
      reads this
    {
      Settings(version, enabledSections, colors, icons, mascot, thresholds, display, waitingIndicator, notifications)
    }

    /** An object holding `s`, as loaded from disk or built from the defaults. */
    constructor (s: Settings)
      ensures Value() == s
    {
      version := s.version;
      enabledSections := s.enabledSections;
      colors := s.colors;
      icons := s.icons;
      mascot := s.mascot;
      thresholds := s.thresholds;
      display := s.display;
      waitingIndicator := s.waitingIndicator;
      notifications := s.notifications;
    }
  }

  predicate AllSectionsEnabled(e: EnabledSections)
  {
    e.git && e.directory && e.model && e.contextMoons && e.tokenCount && e.percentage && e.mascot && e.waitingIndicator
  }

  predicate StrictlyIncreasing(s: seq<int>)
  {
    forall i, j :: 0 <= i < j < |s| ==> s[i] < s[j]
  }

  predicate IsPercent(x: int) { 0 <= x <= 100 }

  /** Every mood's frame list, in the order the mascot screen lists them. */
  function MoodLists(m: Mascot): seq<seq<string>>
  {
    [m.contextPanic.emojis, m.productive.emojis, m.deletion.emojis,
     m.timeBased.night, m.timeBased.morning, m.timeBased.afternoon, m.timeBased.evening]
  }

  /** Every animation speed of the mascot. */
  function Speeds(m: Mascot): seq<int>
  {
    [m.contextPanic.speed, m.productive.speed, m.deletion.speed, m.timeBased.speed]
  }

  /** Every notification channel's context threshold. */
  function ContextThresholds(n: Notifications): seq<int>
  {
    [n.terminalBell.contextThreshold, n.desktop.contextThreshold, n.blinkingText.contextThreshold,
     n.terminalTitle.contextThreshold, n.tmux.contextThreshold]
  }

  /** The built-in defaults. The emoji and symbol literals are the characters
      the program holds; tui/config/config.go spells them as UTF-8 bytes read
      as Mac Roman. */
  function DefaultConfig(): (d: Settings)
    ensures |d.icons.moons| == 5
    ensures forall i :: 0 <= i < |MoodLists(d.mascot)| ==> |MoodLists(d.mascot)[i]| == 4
    ensures forall i :: 0 <= i < |Speeds(d.mascot)| ==> Speeds(d.mascot)[i] > 0
    ensures forall i :: 0 <= i < |ContextThresholds(d.notifications)| ==> IsPercent(ContextThresholds(d.notifications)[i])
    ensures |d.thresholds.moonPhases| == 4 && StrictlyIncreasing(d.thresholds.moonPhases)
    ensures d.thresholds.directoryTruncateTo < d.thresholds.directoryMaxLength
    ensures AllSectionsEnabled(d.enabledSections)
    ensures d.display.separator != ""
  {
    Settings(
      "1.0",
      EnabledSections(true, true, true, true, true, true, true, true),
      Colors("bright_blue", "bright_green", "bright_red", "bright_cyan", "default"),
      Icons("✅", "⚠️", "🗂️", ["🌑", "🌘", "🌗", "🌖", "🌕"]),
      Mascot(
        MascotState(true, 90, ["😰", "😱", "🆘", "😱"], true, 300),
        MascotState(true, 100, ["🔨", "⚒️", "🛠️", "⚒️"], true, 400),
        MascotState(true, 30, ["🧹", "✨", "🗑️", "✨"], true, 350),
        TimeBasedMood(
          true,
          ["🦉", "💤", "🌙", "💤"],
          ["☀️", "🌅", "☕", "🌅"],
          ["💻", "⌨️", "🖱️", "⌨️"],
          ["🌆", "🌇", "🌃", "🌇"],
          true, 600)),
      Thresholds([20, 40, 60, 80], 15, 12, 1000),
      Display(" • "),
      WaitingIndicator(true, "🔔", "WAITING", true),
      Notifications(
        NotificationConfig(true, false, false, 30, 0),
        DesktopNotification(true, true, false, 70, 0, "Context over 70% use /clear or /compact", true, "", 1.0),
        NotificationConfig(false, false, false, 0, 0),
        TerminalTitleConfig(false, true, false, false, true, "", 30),
        TmuxNotification(false, false, false, 0, 0, false, false, "")))
  }
}
