/** The Notifications screen: five alert channels, each opening into a fixed
    list of settings rows, with a sound picker and a volume picker for
    desktop notifications and a text editor for the thresholds and the
    notification title. The top-level dispatcher routes no keys to this
    screen, so it is modelled as a controller of its own. */
module NotificationsScreen {
  import opened GoText
  import opened Configuration
  import opened Cursor
  import TextInput

  /** A boolean of the notification record that a settings row toggles. */
  datatype NotifFlag =
    | DesktopEnabled | DesktopOnContextPanic | DesktopSound
    | BellEnabled | BellOnContextPanic
    | BlinkEnabled | BlinkOnContextPanic
    | TitleEnabled | TitleShowModel | TitleShowContext | TitleAlertOnPanic
    | TmuxEnabled | TmuxOnContextPanic

  function FlagOf(n: Notifications, f: NotifFlag): bool
  {
    match f
    case DesktopEnabled => n.desktop.enabled
    case DesktopOnContextPanic => n.desktop.onContextPanic
    case DesktopSound => n.desktop.sound
    case BellEnabled => n.terminalBell.enabled
    case BellOnContextPanic => n.terminalBell.onContextPanic
    case BlinkEnabled => n.blinkingText.enabled
    case BlinkOnContextPanic => n.blinkingText.onContextPanic
    case TitleEnabled => n.terminalTitle.enabled
    case TitleShowModel => n.terminalTitle.showModel
    case TitleShowContext => n.terminalTitle.showContext
    case TitleAlertOnPanic => n.terminalTitle.alertOnPanic
    case TmuxEnabled => n.tmux.enabled
    case TmuxOnContextPanic => n.tmux.onContextPanic
  }

  /** The record with every toggleable boolean cleared: the part a toggle
      leaves alone. */
  function FlagsCleared(n: Notifications): Notifications
  {
    n.(desktop := n.desktop.(enabled := false, onContextPanic := false, sound := false),
       terminalBell := n.terminalBell.(enabled := false, onContextPanic := false),
       blinkingText := n.blinkingText.(enabled := false, onContextPanic := false),
       terminalTitle := n.terminalTitle.(enabled := false, showModel := false, showContext := false, alertOnPanic := false),
       tmux := n.tmux.(enabled := false, onContextPanic := false))
  }

  /** Two records that agree on every toggleable boolean and on everything
      else are the same record. */
  lemma NotificationsExtensional(a: Notifications, b: Notifications)
    requires FlagsCleared(a) == FlagsCleared(b)
    requires forall f :: FlagOf(a, f) == FlagOf(b, f)
    ensures a == b
  {
    DesktopAgrees(a, b);
    BellAgrees(a, b);
    BlinkAgrees(a, b);
    TitleAgrees(a, b);
    TmuxAgrees(a, b);
  }

  // The channel-by-channel steps of `NotificationsExtensional`.

  lemma DesktopAgrees(a: Notifications, b: Notifications)
    requires FlagsCleared(a).desktop == FlagsCleared(b).desktop
    requires FlagOf(a, DesktopEnabled) == FlagOf(b, DesktopEnabled)
    requires FlagOf(a, DesktopOnContextPanic) == FlagOf(b, DesktopOnContextPanic)
    requires FlagOf(a, DesktopSound) == FlagOf(b, DesktopSound)
    ensures a.desktop == b.desktop
  {
  }

  lemma BellAgrees(a: Notifications, b: Notifications)
    requires FlagsCleared(a).terminalBell == FlagsCleared(b).terminalBell
    requires FlagOf(a, BellEnabled) == FlagOf(b, BellEnabled)
    requires FlagOf(a, BellOnContextPanic) == FlagOf(b, BellOnContextPanic)
    ensures a.terminalBell == b.terminalBell
  {
  }

  lemma BlinkAgrees(a: Notifications, b: Notifications)
    requires FlagsCleared(a).blinkingText == FlagsCleared(b).blinkingText
    requires FlagOf(a, BlinkEnabled) == FlagOf(b, BlinkEnabled)
    requires FlagOf(a, BlinkOnContextPanic) == FlagOf(b, BlinkOnContextPanic)
    ensures a.blinkingText == b.blinkingText
  {
  }

  lemma TitleAgrees(a: Notifications, b: Notifications)
    requires FlagsCleared(a).terminalTitle == FlagsCleared(b).terminalTitle
    requires FlagOf(a, TitleEnabled) == FlagOf(b, TitleEnabled)
    requires FlagOf(a, TitleShowModel) == FlagOf(b, TitleShowModel)
    requires FlagOf(a, TitleShowContext) == FlagOf(b, TitleShowContext)
    requires FlagOf(a, TitleAlertOnPanic) == FlagOf(b, TitleAlertOnPanic)
    ensures a.terminalTitle == b.terminalTitle
  {
  }

  lemma TmuxAgrees(a: Notifications, b: Notifications)
    requires FlagsCleared(a).tmux == FlagsCleared(b).tmux
    requires FlagOf(a, TmuxEnabled) == FlagOf(b, TmuxEnabled)
    requires FlagOf(a, TmuxOnContextPanic) == FlagOf(b, TmuxOnContextPanic)
    ensures a.tmux == b.tmux
  {
  }

  /** The record with boolean `f` set to `v` and nothing else changed. */
  function WithFlag(n: Notifications, f: NotifFlag, v: bool): (r: Notifications)
    ensures FlagOf(r, f) == v
    ensures forall q :: q != f ==> FlagOf(r, q) == FlagOf(n, q)
    ensures FlagsCleared(r) == FlagsCleared(n)
  {
    match f
    case DesktopEnabled => n.(desktop := n.desktop.(enabled := v))
    case DesktopOnContextPanic => n.(desktop := n.desktop.(onContextPanic := v))
    case DesktopSound => n.(desktop := n.desktop.(sound := v))
    case BellEnabled => n.(terminalBell := n.terminalBell.(enabled := v))
    case BellOnContextPanic => n.(terminalBell := n.terminalBell.(onContextPanic := v))
    case BlinkEnabled => n.(blinkingText := n.blinkingText.(enabled := v))
    case BlinkOnContextPanic => n.(blinkingText := n.blinkingText.(onContextPanic := v))
    case TitleEnabled => n.(terminalTitle := n.terminalTitle.(enabled := v))
    case TitleShowModel => n.(terminalTitle := n.terminalTitle.(showModel := v))
    case TitleShowContext => n.(terminalTitle := n.terminalTitle.(showContext := v))
    case TitleAlertOnPanic => n.(terminalTitle := n.terminalTitle.(alertOnPanic := v))
    case TmuxEnabled => n.(tmux := n.tmux.(enabled := v))
    case TmuxOnContextPanic => n.(tmux := n.tmux.(onContextPanic := v))
  }

  /** Toggling a boolean twice gives back the record. */
  lemma ToggleTwice(n: Notifications, f: NotifFlag)
    ensures WithFlag(WithFlag(n, f, !FlagOf(n, f)), f, FlagOf(n, f)) == n
  {
    NotificationsExtensional(WithFlag(WithFlag(n, f, !FlagOf(n, f)), f, FlagOf(n, f)), n);
  }

  /** The five alert channels. A category's key is one of their five names,
      and every switch on a key has a case for each of them. */
  datatype Channel = Desktop | TerminalBell | BlinkingText | TerminalTitle | Tmux

  function Key(c: Channel): string
  {
    match c
    case Desktop => "desktop"
    case TerminalBell => "terminal_bell"
    case BlinkingText => "blinking_text"
    case TerminalTitle => "terminal_title"
    case Tmux => "tmux"
  }

  /** The context threshold of channel `c`. */
  function ThresholdOf(n: Notifications, c: Channel): GoInt
  {
    match c
    case Desktop => n.desktop.contextThreshold
    case TerminalBell => n.terminalBell.contextThreshold
    case BlinkingText => n.blinkingText.contextThreshold
    case TerminalTitle => n.terminalTitle.contextThreshold
    case Tmux => n.tmux.contextThreshold
  }

  /** The record with all five context thresholds cleared: the part a
      threshold commit leaves alone. */
  function ThresholdsCleared(n: Notifications): Notifications
  {
    n.(desktop := n.desktop.(contextThreshold := 0),
       terminalBell := n.terminalBell.(contextThreshold := 0),
       blinkingText := n.blinkingText.(contextThreshold := 0),
       terminalTitle := n.terminalTitle.(contextThreshold := 0),
       tmux := n.tmux.(contextThreshold := 0))
  }

  /** The record with the threshold of channel `c` set to `v`: that
      channel's threshold reads back as `v`, and no other channel's
      threshold and nothing but thresholds changes. */
  function WithThreshold(n: Notifications, c: Channel, v: GoInt): (r: Notifications)
    ensures ThresholdOf(r, c) == v
    ensures forall d :: d != c ==> ThresholdOf(r, d) == ThresholdOf(n, d)
    ensures ThresholdsCleared(r) == ThresholdsCleared(n)
  {
    match c
    case Desktop => n.(desktop := n.desktop.(contextThreshold := v))
    case TerminalBell => n.(terminalBell := n.terminalBell.(contextThreshold := v))
    case BlinkingText => n.(blinkingText := n.blinkingText.(contextThreshold := v))
    case TerminalTitle => n.(terminalTitle := n.terminalTitle.(contextThreshold := v))
    case Tmux => n.(tmux := n.tmux.(contextThreshold := v))
  }

  /** Writing back the threshold a channel already has changes nothing. */
  lemma WithThresholdSame(n: Notifications, c: Channel)
    ensures WithThreshold(n, c, ThresholdOf(n, c)) == n
  {
  }

  /** `parseThreshold`: surrounding white space is ignored, a blank text
      means 0, a text `strconv.Atoi` rejects is an error (`None`), and a
      parsed value is clamped into the percentage range. */
  function ParseThreshold(s: string): (r: Option<GoInt>)
    ensures r.Some? ==> 0 <= r.value <= 100
    ensures TrimSpace(s) == [] ==> r == Some(0)
    ensures TrimSpace(s) != [] ==> (r.None? <==> Atoi(TrimSpace(s)).None?)
    ensures Atoi(TrimSpace(s)).Some? && 0 <= Atoi(TrimSpace(s)).value <= 100 ==> r == Atoi(TrimSpace(s))
    ensures Atoi(TrimSpace(s)).Some? && Atoi(TrimSpace(s)).value > 100 ==> r == Some(100)
    ensures Atoi(TrimSpace(s)).Some? && Atoi(TrimSpace(s)).value < 0 ==> r == Some(0)
  {
    var t := TrimSpace(s);
    if t == [] then Some(0)
    else
      match Atoi(t)
      case None => None
      case Some(v) =>
        var high := if v > 100 then 100 else v;
        Some(if high < 0 then 0 else high)
  }

  /** The threshold a confirmed edit stores: the parsed value, or 0 when the
      text does not parse, so bad input overwrites the old threshold. */
  function CommittedThreshold(input: string): (v: GoInt)
    ensures 0 <= v <= 100
    ensures ParseThreshold(input).None? ==> v == 0
    ensures ParseThreshold(input).Some? ==> v == ParseThreshold(input).value
  {
    match ParseThreshold(input)
    case Some(p) => p
    case None => 0
  }

  /** A decimal spelling never starts or ends with white space. */
  lemma ItoaUnpadded(n: GoInt)
    ensures TrimSpace(Itoa(n)) == Itoa(n)
  {
    var s := Itoa(n);
    AtoiItoa(n);
    assert !IsSpace(s[0]);
    assert !IsSpace(s[|s| - 1]) by {
      if |s| > 1 {
        assert IsDigit(s[|s| - 1]);
      }
    }
  }

  /** Committing the spelling of a stored threshold keeps a percentage and
      clamps anything outside [0, 100]. */
  lemma ThresholdShownValue(v: GoInt)
    ensures 0 <= v <= 100 ==> CommittedThreshold(Itoa(v)) == v
    ensures v > 100 ==> CommittedThreshold(Itoa(v)) == 100
    ensures v < 0 ==> CommittedThreshold(Itoa(v)) == 0
  {
    ItoaUnpadded(v);
    AtoiItoa(v);
  }

  /** The character limits of the threshold and title inputs. */
  const ThresholdLimit: nat := 3
  const TitleLimit: nat := 100

  /** The same holds when the editor, which keeps three characters, cuts a
      longer spelling short: a positive number keeps at least three digits,
      one of 100 or more, and a negative one keeps its minus sign. */
  lemma ThresholdEditUntouched(v: GoInt)
    ensures 0 <= v <= 100 ==> CommittedThreshold(TextInput.SetValue(Itoa(v), ThresholdLimit)) == v
    ensures v > 100 ==> CommittedThreshold(TextInput.SetValue(Itoa(v), ThresholdLimit)) == 100
    ensures v < 0 ==> CommittedThreshold(TextInput.SetValue(Itoa(v), ThresholdLimit)) == 0
  {
    TextInput.SetValueItoa(v, ThresholdLimit);
    if |Itoa(v)| <= ThresholdLimit {
      ThresholdShownValue(v);
    } else {
      var t := Itoa(v)[..ThresholdLimit];
      if v >= 0 {
        ItoaCutNonNegative(v, ThresholdLimit);
        assert Pow10(2) == 100;
      } else {
        ItoaCutNegative(v, ThresholdLimit);
      }
      assert !IsSpace(t[0]) && !IsSpace(t[2]);
      assert TrimSpace(t) == t;
    }
  }

  /** Text that is not a number stores 0, and so does a blank text. */
  lemma BadThresholdStoresZero()
    ensures ParseThreshold("7%").None? && CommittedThreshold("7%") == 0
    ensures ParseThreshold("  ") == Some(0)
  {
    NotANumber("7%");
    Blank("  ");
  }

  lemma NotANumber(s: string)
    requires s == "7%"
    ensures ParseThreshold(s).None?
  {
    assert !IsSpace(s[0]) && !IsSpace(s[1]);
    assert TrimSpace(s) == s;
    assert !IsDigit(s[1]);
    assert Atoi(s).None?;
  }

  lemma Blank(s: string)
    requires s == "  "
    ensures ParseThreshold(s) == Some(0)
  {
    assert IsSpace(s[0]) && IsSpace(s[1]);
    assert s[1..][1..] == [];
    assert TrimLeft(s) == [];
  }

  /** A byte of a Go string. */
  type byte = x: int | 0 <= x < 256

  /** The three bytes of "...". */
  const Ellipsis: seq<byte> := [46, 46, 46]

  /** `truncateStr`: a string of at most `max` bytes is kept; a longer one is
      cut to its first `max - 3` bytes followed by "...", exactly `max`
      bytes. Go slices bytes, so a cut may split a multi-byte character; a
      `max` below 3 on a longer string is a run-time panic in Go, which the
      precondition excludes. */
  function TruncateStr(s: seq<byte>, max: int): (r: seq<byte>)
    requires |s| <= max || max >= 3
    ensures |s| <= max ==> r == s
    ensures |s| > max ==> |r| == max && r[..max - 3] == s[..max - 3] && r[max - 3..] == Ellipsis
  {
    if |s| <= max then s else s[..max - 3] + Ellipsis
  }

  /** Truncating twice is truncating once. */
  lemma TruncateStrIdempotent(s: seq<byte>, max: int)
    requires |s| <= max || max >= 3
    ensures TruncateStr(TruncateStr(s, max), max) == TruncateStr(s, max)
  {
  }

  datatype NotificationCategory = NotificationCategory(channel: Channel, enabled: NotifFlag)

  /** The label and help text a channel is listed with. */
  function Title(c: Channel): string
  {
    match c
    case Desktop => "Desktop Notifications"
    case TerminalBell => "Terminal Bell"
    case BlinkingText => "Blinking Text"
    case TerminalTitle => "Terminal Title"
    case Tmux => "Tmux Alerts"
  }

  function Blurb(c: Channel): string
  {
    match c
    case Desktop => "Show system notification popups"
    case TerminalBell => "Ring terminal bell on alerts"
    case BlinkingText => "Blink statusline text on alerts"
    case TerminalTitle => "Update terminal title bar"
    case Tmux => "Send tmux notifications"
  }

  /** The five channels, top to bottom; each is bound to its own `Enabled`. */
  function Categories(): (r: seq<NotificationCategory>)
    ensures |r| == 5
  {
    [ NotificationCategory(Desktop, DesktopEnabled), NotificationCategory(TerminalBell, BellEnabled),
      NotificationCategory(BlinkingText, BlinkEnabled), NotificationCategory(TerminalTitle, TitleEnabled),
      NotificationCategory(Tmux, TmuxEnabled) ]
  }

  /** `getMaxSubItems`: the number of settings rows of a channel. */
  function MaxSubItems(c: Channel): (r: int)
    ensures r >= 3
  {
    match c
    case Desktop => 7
    case TerminalTitle => 5
    case _ => 3
  }

  /** What confirming a settings row does. */
  datatype SubAction =
    | ToggleFlag(flag: NotifFlag)
    | OpenThresholdEditor
    | OpenTitleEditor
    | OpenSoundSelector
    | OpenVolumeSelector
    | NoAction

  /** The settings rows of the bell, blinking-text and tmux channels. */
  function BasicAction(cat: NotificationCategory, sub: int): SubAction
  {
    if sub == 0 then ToggleFlag(cat.enabled)
    else if sub == 1 then
      (match cat.channel
       case TerminalBell => ToggleFlag(BellOnContextPanic)
       case BlinkingText => ToggleFlag(BlinkOnContextPanic)
       case Tmux => ToggleFlag(TmuxOnContextPanic)
       case _ => NoAction)
    else if sub == 2 then OpenThresholdEditor
    else NoAction
  }

  /** The action of row `sub` of channel `cat`, as the three row handlers
      dispatch it. */
  function SubItemAction(cat: NotificationCategory, sub: int): SubAction
  {
    match cat.channel
    case Desktop =>
      if sub == 0 then ToggleFlag(DesktopEnabled)
      else if sub == 1 then ToggleFlag(DesktopOnContextPanic)
      else if sub == 2 then OpenThresholdEditor
      else if sub == 3 then OpenTitleEditor
      else if sub == 4 then ToggleFlag(DesktopSound)
      else if sub == 5 then OpenSoundSelector
      else if sub == 6 then OpenVolumeSelector
      else NoAction
    case TerminalBell => BasicAction(cat, sub)
    case BlinkingText => BasicAction(cat, sub)
    case Tmux => BasicAction(cat, sub)
    case TerminalTitle =>
      if sub == 0 then ToggleFlag(TitleEnabled)
      else if sub == 1 then ToggleFlag(TitleShowModel)
      else if sub == 2 then ToggleFlag(TitleShowContext)
      else if sub == 3 then ToggleFlag(TitleAlertOnPanic)
      else if sub == 4 then OpenThresholdEditor
      else NoAction
  }

  /** The row counts agree with the row handlers: on every channel, a row
      does something exactly when it lies below the channel's row count. */
  lemma SubItemsAgree(i: int, sub: int)
    requires 0 <= i < 5
    ensures SubItemAction(Categories()[i], sub) != NoAction <==> 0 <= sub < MaxSubItems(Categories()[i].channel)
  {
  }

  /** Row 0 of every channel toggles the flag the channel is bound to, whether
      its handler writes that field directly or through the binding. */
  lemma FirstRowTogglesEnabled(i: int)
    requires 0 <= i < 5
    ensures SubItemAction(Categories()[i], 0) == ToggleFlag(Categories()[i].enabled)
  {
  }

  /** Only the desktop channel has a title row, a sound row and a volume row,
      at rows 3, 5 and 6. */
  lemma DesktopOnlyRows(i: int, sub: int)
    requires 0 <= i < 5
    ensures SubItemAction(Categories()[i], sub) == OpenTitleEditor <==> i == 0 && sub == 3
    ensures SubItemAction(Categories()[i], sub) == OpenSoundSelector <==> i == 0 && sub == 5
    ensures SubItemAction(Categories()[i], sub) == OpenVolumeSelector <==> i == 0 && sub == 6
  {
  }

  datatype SoundOption = SoundOption(name: string, path: string)

  /** The volume multiplier is a float64 in Go; the screen only copies it and
      compares it for equality. */
  datatype VolumeOption = VolumeOption(name: string, value: real)

  function VolumeOptions(): (r: seq<VolumeOption>)
    ensures |r| == 3
  {
    [VolumeOption("Normal", 1.0), VolumeOption("Loud", 2.0), VolumeOption("Max", 4.0)]
  }

  function Paths(opts: seq<SoundOption>): (r: seq<string>)
    ensures |r| == |opts| && forall i :: 0 <= i < |opts| ==> r[i] == opts[i].path
  {
    seq(|opts|, i requires 0 <= i < |opts| => opts[i].path)
  }

  function Volumes(opts: seq<VolumeOption>): (r: seq<real>)
    ensures |r| == |opts| && forall i :: 0 <= i < |opts| ==> r[i] == opts[i].value
  {
    seq(|opts|, i requires 0 <= i < |opts| => opts[i].value)
  }

  /** `r` is the first index of `x` in `s`, or 0 when `x` does not occur. */
  predicate FirstOrZero<T(==)>(s: seq<T>, x: T, r: int)
  {
    if x in s then 0 <= r < |s| && s[r] == x && x !in s[..r] else r == 0
  }

  /** The index a search picks is determined by the list and the value. */
  lemma FirstOrZeroUnique<T>(s: seq<T>, x: T, r1: int, r2: int)
    requires FirstOrZero(s, x, r1) && FirstOrZero(s, x, r2)
    ensures r1 == r2
  {
  }

  /** Opening the sound picker and confirming it unmoved keeps a sound path
      that is in the list, and replaces any other path by the first
      option's, which is "no sound". */
  lemma SoundConfirmUnmoved(opts: seq<SoundOption>, p: string, r: int)
    requires opts != [] && opts[0] == SoundOption("(None)", "")
    requires FirstOrZero(Paths(opts), p, r)
    ensures 0 <= r < |opts|
    ensures p in Paths(opts) ==> opts[r].path == p
    ensures p !in Paths(opts) ==> opts[r].path == ""
  {
  }

  /** Likewise for the volume picker: a volume other than 1.0, 2.0 and 4.0
      becomes 1.0. */
  lemma VolumeConfirmUnmoved(v: real, r: int)
    requires FirstOrZero(Volumes(VolumeOptions()), v, r)
    ensures 0 <= r < 3
    ensures v == 1.0 || v == 2.0 || v == 4.0 ==> VolumeOptions()[r].value == v
    ensures v != 1.0 && v != 2.0 && v != 4.0 ==> VolumeOptions()[r].value == 1.0
  {
    assert Volumes(VolumeOptions()) == [1.0, 2.0, 4.0];
  }

  /** The cursor and editor state of the screen, as one value. */
  datatype NotifUi = NotifUi(
    selected: int, inCategory: bool, subSelected: int,
    soundSelected: int, selectingSound: bool,
    volumeSelected: int, selectingVolume: bool,
    editingThreshold: bool, thresholdInput: string,
    editingTitle: bool, titleInput: string)

  /** No picker and no editor is open. */
  predicate Idle(u: NotifUi)
  {
    !u.selectingSound && !u.selectingVolume && !u.editingThreshold && !u.editingTitle
  }

  class NotificationsView {
    const config: Config
    const categories: seq<NotificationCategory>
    /** The sound files found on the system, first of all "no sound". */
    const soundOptions: seq<SoundOption>
    const volumeOptions: seq<VolumeOption>
    var selected: int
    var inCategory: bool
    var subSelected: int
    var soundSelected: int
    var selectingSound: bool
    var volumeSelected: int
    var selectingVolume: bool
    var editingThreshold: bool
    var thresholdInput: string
    var editingTitle: bool
    var titleInput: string

    function Ui(): NotifUi
      reads this
    {
      NotifUi(selected, inCategory, subSelected, soundSelected, selectingSound, volumeSelected, selectingVolume,
              editingThreshold, thresholdInput, editingTitle, titleInput)
    }

    /** How many pickers and editors are open. */
    function Modes(): nat
      reads this
    {
      (if selectingSound then 1 else 0) + (if selectingVolume then 1 else 0)
      + (if editingThreshold then 1 else 0) + (if editingTitle then 1 else 0)
    }

    /** The cursors are in range, at most one picker or editor is open and
        only inside a channel, and the desktop-only modes are open only on the
        desktop channel, the pickers on their own rows. */
    ghost predicate Valid()
      reads this
    {
      && |categories| == 5 && categories[0].channel == Desktop
      && (forall i :: 1 <= i < 5 ==> categories[i].channel != Desktop)
      && |volumeOptions| == 3
      && soundOptions != []
      && 0 <= selected < |categories|
      && 0 <= soundSelected < |soundOptions|
      && 0 <= volumeSelected < |volumeOptions|
      && (inCategory ==> 0 <= subSelected < MaxSubItems(categories[selected].channel))
      && Modes() <= 1
      && (Modes() == 1 ==> inCategory)
      && (selectingSound ==> selected == 0 && subSelected == 5)
      && (selectingVolume ==> selected == 0 && subSelected == 6)
      && (editingTitle ==> selected == 0)
    }

    /** The sound list is found on the system by the caller and passed in. */
    constructor (cfg: Config, sounds: seq<SoundOption>)
      requires sounds != [] && sounds[0] == SoundOption("(None)", "")
      ensures Valid() && config == cfg && soundOptions == sounds
      ensures categories == Categories() && volumeOptions == VolumeOptions()
      ensures Ui() == NotifUi(0, false, 0, soundSelected, false, 0, false, false, "", false, "")
      ensures FirstOrZero(Paths(sounds), cfg.notifications.desktop.soundPath, soundSelected)
    {
      config := cfg;
      categories := Categories();
      soundOptions := sounds;
      volumeOptions := VolumeOptions();
      selected := 0;
      inCategory := false;
      subSelected := 0;
      soundSelected := 0;
      selectingSound := false;
      volumeSelected := 0;
      selectingVolume := false;
      editingThreshold := false;
      thresholdInput := "";
      editingTitle := false;
      titleInput := "";
      new;
      SelectCurrentSound();
    }

    /** Put the sound cursor on the first option whose path is the configured
        one, or on the first option when none is. */
    method SelectCurrentSound()
      requires soundOptions != []
      modifies this`soundSelected
      ensures FirstOrZero(Paths(soundOptions), config.notifications.desktop.soundPath, soundSelected)
    {
      var current := config.notifications.desktop.soundPath;
      var i := 0;
      while i < |soundOptions|
        invariant 0 <= i <= |soundOptions|
        invariant current !in Paths(soundOptions)[..i]
      {
        if soundOptions[i].path == current {
          soundSelected := i;
          return;
        }
        assert Paths(soundOptions)[..i + 1] == Paths(soundOptions)[..i] + [soundOptions[i].path];
        i := i + 1;
      }
      assert Paths(soundOptions)[..i] == Paths(soundOptions);
      soundSelected := 0;
    }

    /** Put the volume cursor on the first option equal to the configured
        volume, or on the first option when none is. */
    method SelectCurrentVolume()
      requires volumeOptions != []
      modifies this`volumeSelected
      ensures FirstOrZero(Volumes(volumeOptions), config.notifications.desktop.soundVolume, volumeSelected)
    {
      var current := config.notifications.desktop.soundVolume;
      var i := 0;
      while i < |volumeOptions|
        invariant 0 <= i <= |volumeOptions|
        invariant current !in Volumes(volumeOptions)[..i]
      {
        if volumeOptions[i].value == current {
          volumeSelected := i;
          return;
        }
        assert Volumes(volumeOptions)[..i + 1] == Volumes(volumeOptions)[..i] + [volumeOptions[i].value];
        i := i + 1;
      }
      assert Volumes(volumeOptions)[..i] == Volumes(volumeOptions);
      volumeSelected := 0;
    }

    /** One step up in the innermost open list: the sound picker, else the
        volume picker, else the channel's rows, else the channels. Open
        editors do not stop the row cursor. */
    method Up()
      requires Valid()
      modifies this`soundSelected, this`volumeSelected, this`subSelected, this`selected
      ensures Valid()
      ensures old(selectingSound) ==>
        Ui() == old(Ui()).(soundSelected := Prev(old(soundSelected), |soundOptions|))
      ensures !old(selectingSound) && old(selectingVolume) ==>
        Ui() == old(Ui()).(volumeSelected := Prev(old(volumeSelected), |volumeOptions|))
      ensures !old(selectingSound) && !old(selectingVolume) && old(inCategory) ==>
        Ui() == old(Ui()).(subSelected := Prev(old(subSelected), MaxSubItems(categories[old(selected)].channel)))
      ensures !old(selectingSound) && !old(selectingVolume) && !old(inCategory) ==>
        Ui() == old(Ui()).(selected := Prev(old(selected), |categories|))
    {
      if selectingSound {
        PrevWraps(soundSelected, |soundOptions|);
        soundSelected := soundSelected - 1;
        if soundSelected < 0 {
          soundSelected := |soundOptions| - 1;
        }
        return;
      }
      if selectingVolume {
        PrevWraps(volumeSelected, |volumeOptions|);
        volumeSelected := volumeSelected - 1;
        if volumeSelected < 0 {
          volumeSelected := |volumeOptions| - 1;
        }
        return;
      }
      if inCategory {
        var maxSub := MaxSubItems(categories[selected].channel);
        PrevWraps(subSelected, maxSub);
        subSelected := subSelected - 1;
        if subSelected < 0 {
          subSelected := maxSub - 1;
        }
        return;
      }
      PrevWraps(selected, |categories|);
      selected := selected - 1;
      if selected < 0 {
        selected := |categories| - 1;
      }
    }

    /** One step down in the innermost open list, as `Up`. */
    method Down()
      requires Valid()
      modifies this`soundSelected, this`volumeSelected, this`subSelected, this`selected
      ensures Valid()
      ensures old(selectingSound) ==>
        Ui() == old(Ui()).(soundSelected := Next(old(soundSelected), |soundOptions|))
      ensures !old(selectingSound) && old(selectingVolume) ==>
        Ui() == old(Ui()).(volumeSelected := Next(old(volumeSelected), |volumeOptions|))
      ensures !old(selectingSound) && !old(selectingVolume) && old(inCategory) ==>
        Ui() == old(Ui()).(subSelected := Next(old(subSelected), MaxSubItems(categories[old(selected)].channel)))
      ensures !old(selectingSound) && !old(selectingVolume) && !old(inCategory) ==>
        Ui() == old(Ui()).(selected := Next(old(selected), |categories|))
    {
      if selectingSound {
        NextWraps(soundSelected, |soundOptions|);
        soundSelected := soundSelected + 1;
        if soundSelected >= |soundOptions| {
          soundSelected := 0;
        }
        return;
      }
      if selectingVolume {
        NextWraps(volumeSelected, |volumeOptions|);
        volumeSelected := volumeSelected + 1;
        if volumeSelected >= |volumeOptions| {
          volumeSelected := 0;
        }
        return;
      }
      if inCategory {
        var maxSub := MaxSubItems(categories[selected].channel);
        NextWraps(subSelected, maxSub);
        subSelected := subSelected + 1;
        if subSelected >= maxSub {
          subSelected := 0;
        }
        return;
      }
      NextWraps(selected, |categories|);
      selected := selected + 1;
      if selected >= |categories| {
        selected := 0;
      }
    }

    /** `getThreshold`: the threshold of the selected channel. */
    function GetThreshold(): (v: GoInt)
      reads this, config
      requires 0 <= selected < |categories|
      ensures v == ThresholdOf(config.notifications, categories[selected].channel)
    {
      var n := config.notifications;
      match categories[selected].channel
      case Desktop => n.desktop.contextThreshold
      case TerminalBell => n.terminalBell.contextThreshold
      case BlinkingText => n.blinkingText.contextThreshold
      case TerminalTitle => n.terminalTitle.contextThreshold
      case Tmux => n.tmux.contextThreshold
    }

    /** `setThreshold`: store `val` as the selected channel's threshold. */
    method SetThreshold(val: GoInt)
      requires 0 <= selected < |categories|
      modifies config`notifications
      ensures config.Value() == old(config.Value()).(notifications := WithThreshold(old(config.notifications), categories[selected].channel, val))
    {
      var n := config.notifications;
      match categories[selected].channel
      case Desktop => config.notifications := n.(desktop := n.desktop.(contextThreshold := val));
      case TerminalBell => config.notifications := n.(terminalBell := n.terminalBell.(contextThreshold := val));
      case BlinkingText => config.notifications := n.(blinkingText := n.blinkingText.(contextThreshold := val));
      case TerminalTitle => config.notifications := n.(terminalTitle := n.terminalTitle.(contextThreshold := val));
      case Tmux => config.notifications := n.(tmux := n.tmux.(contextThreshold := val));
    }

    /** Row action `a` of channel `c` took the screen from `u0` and the
        notification record from `n0` to the current state. */
    ghost predicate Performed(a: SubAction, c: Channel, u0: NotifUi, n0: Notifications)
      reads this, config
    {
      match a
      case ToggleFlag(f) => Ui() == u0 && config.notifications == WithFlag(n0, f, !FlagOf(n0, f))
      case OpenThresholdEditor =>
        Ui() == u0.(editingThreshold := true, thresholdInput := TextInput.SetValue(Itoa(ThresholdOf(n0, c)), ThresholdLimit))
        && config.notifications == n0
      case OpenTitleEditor =>
        Ui() == u0.(editingTitle := true, titleInput := TextInput.SetValue(n0.desktop.title, TitleLimit))
        && config.notifications == n0
      case OpenSoundSelector =>
        Ui() == u0.(selectingSound := true, soundSelected := soundSelected)
        && FirstOrZero(Paths(soundOptions), n0.desktop.soundPath, soundSelected)
        && config.notifications == n0
      case OpenVolumeSelector =>
        Ui() == u0.(selectingVolume := true, volumeSelected := volumeSelected)
        && FirstOrZero(Volumes(volumeOptions), n0.desktop.soundVolume, volumeSelected)
        && config.notifications == n0
      case NoAction => Ui() == u0 && config.notifications == n0
    }

    /** Carry out row action `a` on the selected channel. The three row
        handlers of the source are switches on the row index whose cases
        `SubItemAction` tabulates; this method is what each case does. */
    method Perform(a: SubAction)
      requires Valid() && inCategory && Idle(Ui()) && a == SubItemAction(categories[selected], subSelected)
      modifies this, config`notifications
      ensures Valid()
      ensures config.Value() == old(config.Value()).(notifications := config.notifications)
      ensures Performed(a, categories[old(selected)].channel, old(Ui()), old(config.notifications))
    {
      var n := config.notifications;
      match a
      case ToggleFlag(f) =>
        config.notifications := WithFlag(n, f, !FlagOf(n, f));
      case OpenThresholdEditor =>
        OpenThreshold();
      case OpenTitleEditor =>
        OpenTitle();
      case OpenSoundSelector =>
        OpenSound();
      case OpenVolumeSelector =>
        OpenVolume();
      case NoAction =>
    }

    /** Open the threshold editor on the selected channel's threshold. */
    method OpenThreshold()
      requires Valid() && inCategory && Idle(Ui())
      modifies this`editingThreshold, this`thresholdInput
      ensures Valid()
      ensures Ui() == old(Ui()).(editingThreshold := true,
        thresholdInput := TextInput.SetValue(Itoa(ThresholdOf(config.notifications, categories[selected].channel)), ThresholdLimit))
    {
      thresholdInput := TextInput.SetValue(Itoa(GetThreshold()), ThresholdLimit);
      editingThreshold := true;
    }

    /** Open the title editor on the desktop title. */
    method OpenTitle()
      requires Valid() && inCategory && Idle(Ui()) && selected == 0
      modifies this`editingTitle, this`titleInput
      ensures Valid()
      ensures Ui() == old(Ui()).(editingTitle := true, titleInput := TextInput.SetValue(config.notifications.desktop.title, TitleLimit))
    {
      titleInput := TextInput.SetValue(config.notifications.desktop.title, TitleLimit);
      editingTitle := true;
    }

    /** Open the sound picker on the configured sound. */
    method OpenSound()
      requires Valid() && inCategory && Idle(Ui()) && selected == 0 && subSelected == 5
      modifies this`selectingSound, this`soundSelected
      ensures Valid()
      ensures Ui() == old(Ui()).(selectingSound := true, soundSelected := soundSelected)
      ensures FirstOrZero(Paths(soundOptions), config.notifications.desktop.soundPath, soundSelected)
    {
      selectingSound := true;
      SelectCurrentSound();
    }

    /** Open the volume picker on the configured volume. */
    method OpenVolume()
      requires Valid() && inCategory && Idle(Ui()) && selected == 0 && subSelected == 6
      modifies this`selectingVolume, this`volumeSelected
      ensures Valid()
      ensures Ui() == old(Ui()).(selectingVolume := true, volumeSelected := volumeSelected)
      ensures FirstOrZero(Volumes(volumeOptions), config.notifications.desktop.soundVolume, volumeSelected)
    {
      selectingVolume := true;
      SelectCurrentVolume();
    }

    /** The first half of confirming: close the open picker or editor and
        commit its value. */
    method ConfirmMode()
      requires Valid() && !Idle(Ui())
      modifies this`selectingSound, this`selectingVolume, this`editingThreshold, this`editingTitle, config`notifications
      ensures Valid()
      ensures config.Value() == old(config.Value()).(notifications := config.notifications)
      ensures old(selectingSound) ==>
        Ui() == old(Ui()).(selectingSound := false)
        && config.notifications == old(config.notifications).(desktop := old(config.notifications.desktop).(soundPath := soundOptions[old(soundSelected)].path))
      ensures !old(selectingSound) && old(selectingVolume) ==>
        Ui() == old(Ui()).(selectingVolume := false)
        && config.notifications == old(config.notifications).(desktop := old(config.notifications.desktop).(soundVolume := volumeOptions[old(volumeSelected)].value))
      ensures !old(selectingSound) && !old(selectingVolume) && old(editingThreshold) ==>
        Ui() == old(Ui()).(editingThreshold := false)
        && config.notifications == WithThreshold(old(config.notifications), categories[old(selected)].channel, CommittedThreshold(old(thresholdInput)))
      ensures !old(selectingSound) && !old(selectingVolume) && !old(editingThreshold) ==>
        Ui() == old(Ui()).(editingTitle := false)
        && config.notifications == old(config.notifications).(desktop := old(config.notifications.desktop).(title := old(titleInput)))
    {
      if selectingSound {
        CommitSound();
      } else if selectingVolume {
        CommitVolume();
      } else if editingThreshold {
        SetThreshold(CommittedThreshold(thresholdInput));
        editingThreshold := false;
      } else {
        CommitTitle();
      }
    }

    /** Store the sound under the picker's cursor and close the picker. */
    method CommitSound()
      requires Valid() && selectingSound
      modifies this`selectingSound, config`notifications
      ensures Valid() && Ui() == old(Ui()).(selectingSound := false)
      ensures config.notifications == old(config.notifications).(desktop := old(config.notifications.desktop).(soundPath := soundOptions[soundSelected].path))
    {
      var n := config.notifications;
      config.notifications := n.(desktop := n.desktop.(soundPath := soundOptions[soundSelected].path));
      selectingSound := false;
    }

    /** Store the volume under the picker's cursor and close the picker. */
    method CommitVolume()
      requires Valid() && selectingVolume
      modifies this`selectingVolume, config`notifications
      ensures Valid() && Ui() == old(Ui()).(selectingVolume := false)
      ensures config.notifications == old(config.notifications).(desktop := old(config.notifications.desktop).(soundVolume := volumeOptions[volumeSelected].value))
    {
      var n := config.notifications;
      config.notifications := n.(desktop := n.desktop.(soundVolume := volumeOptions[volumeSelected].value));
      selectingVolume := false;
    }

    /** Store the title editor's text and close the editor. */
    method CommitTitle()
      requires Valid() && editingTitle
      modifies this`editingTitle, config`notifications
      ensures Valid() && Ui() == old(Ui()).(editingTitle := false)
      ensures config.notifications == old(config.notifications).(desktop := old(config.notifications.desktop).(title := titleInput))
    {
      var n := config.notifications;
      config.notifications := n.(desktop := n.desktop.(title := titleInput));
      editingTitle := false;
    }

    /** Confirm: close the open picker or editor and commit its value, else
        open the selected channel, else perform the selected row's action. */
    method Enter()
      requires Valid()
      modifies this, config`notifications
      ensures Valid()
      ensures config.Value() == old(config.Value()).(notifications := config.notifications)
      ensures old(selectingSound) ==>
        Ui() == old(Ui()).(selectingSound := false)
        && config.notifications == old(config.notifications).(desktop := old(config.notifications.desktop).(soundPath := soundOptions[old(soundSelected)].path))
      ensures !old(selectingSound) && old(selectingVolume) ==>
        Ui() == old(Ui()).(selectingVolume := false)
        && config.notifications == old(config.notifications).(desktop := old(config.notifications.desktop).(soundVolume := volumeOptions[old(volumeSelected)].value))
      ensures !old(selectingSound) && !old(selectingVolume) && old(editingThreshold) ==>
        Ui() == old(Ui()).(editingThreshold := false)
        && config.notifications == WithThreshold(old(config.notifications), categories[old(selected)].channel, CommittedThreshold(old(thresholdInput)))
      ensures !old(selectingSound) && !old(selectingVolume) && !old(editingThreshold) && old(editingTitle) ==>
        Ui() == old(Ui()).(editingTitle := false)
        && config.notifications == old(config.notifications).(desktop := old(config.notifications.desktop).(title := old(titleInput)))
      ensures Idle(old(Ui())) && !old(inCategory) ==>
        Ui() == old(Ui()).(inCategory := true, subSelected := 0) && config.notifications == old(config.notifications)
      ensures Idle(old(Ui())) && old(inCategory) ==>
        Performed(SubItemAction(categories[old(selected)], old(subSelected)), categories[old(selected)].channel, old(Ui()), old(config.notifications))
    {
      if !Idle(Ui()) {
        ConfirmMode();
      } else if !inCategory {
        inCategory := true;
        subSelected := 0;
      } else {
        Perform(SubItemAction(categories[selected], subSelected));
      }
    }

    /** Escape: close the sound picker, else the threshold editor, else the
        title editor, else the volume picker, else the channel; at the top
        level, ask to go back to the menu. The configuration is not touched
        and the row cursor is kept. */
    method Back() returns (toMenu: bool)
      requires Valid()
      modifies this`selectingSound, this`editingThreshold, this`editingTitle, this`selectingVolume, this`inCategory
      ensures Valid()
      ensures old(selectingSound) ==> Ui() == old(Ui()).(selectingSound := false)
      ensures !old(selectingSound) && old(editingThreshold) ==> Ui() == old(Ui()).(editingThreshold := false)
      ensures !old(selectingSound) && !old(editingThreshold) && old(editingTitle) ==>
        Ui() == old(Ui()).(editingTitle := false)
      ensures !old(selectingSound) && !old(editingThreshold) && !old(editingTitle) && old(selectingVolume) ==>
        Ui() == old(Ui()).(selectingVolume := false)
      ensures Idle(old(Ui())) ==> Ui() == old(Ui()).(inCategory := false)
      ensures toMenu <==> Idle(old(Ui())) && !old(inCategory)
    {
      if selectingSound {
        selectingSound := false;
        return false;
      }
      if editingThreshold {
        editingThreshold := false;
        return false;
      }
      if editingTitle {
        editingTitle := false;
        return false;
      }
      if selectingVolume {
        selectingVolume := false;
        return false;
      }
      if inCategory {
        inCategory := false;
        return false;
      }
      return true;
    }

    /** Replace the contents of the open editor's buffer, as a key forwarded
        to the text input does, clean and within the input's limit; with no
        editor open nothing changes. */
    method SetCurrentInput(text: string)
      modifies this`thresholdInput, this`titleInput
      ensures old(editingThreshold) ==> Ui() == old(Ui()).(thresholdInput := TextInput.SetValue(text, ThresholdLimit))
      ensures !old(editingThreshold) && old(editingTitle) ==> Ui() == old(Ui()).(titleInput := TextInput.SetValue(text, TitleLimit))
      ensures !old(editingThreshold) && !old(editingTitle) ==> Ui() == old(Ui())
    {
      if editingThreshold {
        thresholdInput := TextInput.SetValue(text, ThresholdLimit);
      } else if editingTitle {
        titleInput := TextInput.SetValue(text, TitleLimit);
      }
    }
  }
}
