/** The top-level key dispatcher: the confirm-quit dialog, the global quit
    and save keys, and the routing of every other key to the screen that is
    showing. The dispatcher's own state is the screen, the dirty flag, the
    error text and the confirm-quit flag; saving is a request it issues,
    and whether the save succeeded comes back as an input. */
module Dispatcher {
  import opened GoText
  import opened Configuration
  import opened Cursor
  import opened Bindings
  import Menu
  import Sections
  import IconsScreen
  import MascotScreen
  import DisplayOptions
  import Preview
  import TextInput

  /** The screens the dispatcher can show. `ScreenConfirmQuit` is declared
      but never entered: the dialog is the `confirmQuit` flag instead. */
  datatype Screen = ScreenMenu | ScreenSections | ScreenIcons | ScreenMascot | ScreenDisplay | ScreenConfirmQuit

  /** The dispatcher's own fields. */
  datatype Shell = Shell(screen: Screen, dirty: bool, error: string, confirmQuit: bool)

  /** The persistence a key asks for: none, writing the configuration file,
      or writing it and installing the statusline script. */
  datatype Persist = NoPersist | SaveConfig | SaveAndInstall

  /** What one key does to the dispatcher: its new fields, whether the
      program quits, and the persistence it asked for. */
  datatype Outcome = Outcome(shell: Shell, quit: bool, persist: Persist)

  /** The facts about the views that the dispatcher branches on, read before
      the key is handled. */
  datatype ViewFacts = ViewFacts(
    menuSelected: int,
    iconsEditing: bool,
    /** An emoji or threshold edit is open on the mascot screen; a speed
        edit does not count. */
    mascotGuard: bool,
    /** The mascot screen's Back would ask to return to the menu. */
    mascotAtTop: bool,
    mascotInCategory: bool,
    mascotSubSelected: int,
    displayEditing: bool)

  predicate IsUp(key: string)
  {
    key == "up" || key == "k"
  }

  predicate IsDown(key: string)
  {
    key == "down" || key == "j"
  }

  /** The keys that leave to the menu from a screen with no editor open. */
  predicate IsLeave(key: string)
  {
    key == "esc" || key == "q"
  }

  /** The keys that flip the selected section. */
  predicate IsToggle(key: string)
  {
    key == " " || key == "x" || key == "enter"
  }

  /** Whether a key reaches the screen that is showing: not while the
      dialog is up, and not for the two global keys. */
  predicate Routed(confirmQuit: bool, key: string)
  {
    !confirmQuit && key != "ctrl+c" && key != "ctrl+s"
  }

  /** A request to quit: with unsaved changes it opens the dialog instead. */
  function QuitRequest(sh: Shell): (o: Outcome)
    ensures o.quit <==> !sh.dirty
    ensures o.quit ==> !o.shell.dirty && o.shell == sh
    ensures !o.quit ==> o.shell.confirmQuit
    ensures o.shell.(confirmQuit := sh.confirmQuit) == sh
    ensures o.persist == NoPersist
  {
    if sh.dirty then Outcome(sh.(confirmQuit := true), false, NoPersist) else Outcome(sh, true, NoPersist)
  }

  /** The confirm-quit dialog: y quits without saving, n or esc closes the
      dialog, s saves and installs and quits whether or not that succeeded,
      keeping the dirty flag when it failed. Other keys do nothing. */
  function ConfirmStep(sh: Shell, key: string, saveOk: bool, errText: string): (o: Outcome)
    ensures o.quit <==> key == "y" || key == "Y" || key == "s" || key == "S"
    ensures o.persist == (if key == "s" || key == "S" then SaveAndInstall else NoPersist)
    ensures o.shell.screen == sh.screen
    ensures o.shell.confirmQuit <==> sh.confirmQuit && !(key == "n" || key == "N" || key == "esc")
    ensures o.shell.dirty == (sh.dirty && !(o.persist == SaveAndInstall && saveOk))
    ensures (key == "s" || key == "S") && !saveOk ==> o.shell.error == errText
    ensures !((key == "s" || key == "S") && !saveOk) ==> o.shell.error == sh.error
  {
    if key == "y" || key == "Y" then Outcome(sh, true, NoPersist)
    else if key == "n" || key == "N" || key == "esc" then Outcome(sh.(confirmQuit := false), false, NoPersist)
    else if key == "s" || key == "S" then
      Outcome(if saveOk then sh.(dirty := false) else sh.(error := errText), true, SaveAndInstall)
    else Outcome(sh, false, NoPersist)
  }

  /** What a failed save from the menu puts before the error. */
  const SaveFailedPrefix: string := "Save failed: "

  /** A save started from the menu: success clears the dirty flag and the
      error and quits; failure records the error and stays. */
  function MenuSave(sh: Shell, persist: Persist, saveOk: bool, errText: string): (o: Outcome)
    ensures o.persist == persist && (o.quit <==> saveOk)
    ensures o.quit <==> o.shell.error == ""
    ensures o.shell.dirty == (sh.dirty && !saveOk)
    ensures !saveOk ==> o.shell.error == SaveFailedPrefix + errText
    ensures o.shell.(dirty := sh.dirty, error := sh.error) == sh
  {
    if saveOk then Outcome(sh.(dirty := false, error := ""), true, persist)
    else Outcome(sh.(error := SaveFailedPrefix + errText), false, persist)
  }

  /** The screens menu entries 0 to 3 open. */
  function MenuTarget(i: int): Screen
    requires 0 <= i < 4
  {
    [ScreenSections, ScreenIcons, ScreenMascot, ScreenDisplay][i]
  }

  /** The menu screen: enter on entries 0 to 3 opens their screens; the
      save actions are tied to the literal positions 5 and 6; q asks to
      quit. The cursor keys move only the menu's own cursor. */
  function MenuStep(sh: Shell, key: string, selected: int, saveOk: bool, errText: string): (o: Outcome)
    // Only enter on entries 0 to 3 changes the screen, to that entry's screen, and it does nothing else.
    ensures o.shell.screen != sh.screen ==> key == "enter" && 0 <= selected < 4
    ensures key == "enter" && 0 <= selected < 4 ==> o == Outcome(sh.(screen := MenuTarget(selected)), false, NoPersist)
    // Only enter on positions 5 and 6 asks to save, and only 5 asks to install.
    ensures o.persist != NoPersist <==> key == "enter" && (selected == 5 || selected == 6)
    ensures o.persist == SaveAndInstall <==> key == "enter" && selected == 5
    ensures o.persist != NoPersist ==> o == MenuSave(sh, o.persist, saveOk, errText)
    // Only q without unsaved changes or a successful save quits, and never over unsaved changes.
    ensures o.quit <==> (key == "q" && !sh.dirty) || (o.persist != NoPersist && saveOk)
    ensures o.quit ==> !o.shell.dirty
    // Only q over unsaved changes opens the dialog.
    ensures o.shell.confirmQuit != sh.confirmQuit <==> key == "q" && sh.dirty && !sh.confirmQuit
    ensures key == "q" ==> o == QuitRequest(sh)
    // Every other key leaves the dispatcher as it was.
    ensures key != "enter" && key != "q" ==> o == Outcome(sh, false, NoPersist)
    ensures key == "enter" && !(0 <= selected < 4 || selected == 5 || selected == 6) ==> o == Outcome(sh, false, NoPersist)
  {
    if key == "enter" then
      if 0 <= selected < 4 then Outcome(sh.(screen := MenuTarget(selected)), false, NoPersist)
      else if selected == 5 then MenuSave(sh, SaveAndInstall, saveOk, errText)
      else if selected == 6 then MenuSave(sh, SaveConfig, saveOk, errText)
      else Outcome(sh, false, NoPersist)
    else if key == "q" then QuitRequest(sh)
    else Outcome(sh, false, NoPersist)
  }

  /** The sections screen: space, x and enter flip a flag and mark the
      configuration changed; esc and q return to the menu. */
  function SectionsStep(sh: Shell, key: string): (r: Shell)
    ensures r.dirty <==> sh.dirty || IsToggle(key)
    ensures r.screen == (if !IsToggle(key) && IsLeave(key) then ScreenMenu else sh.screen)
    ensures r.error == sh.error && r.confirmQuit == sh.confirmQuit
  {
    if IsToggle(key) then sh.(dirty := true)
    else if IsLeave(key) then sh.(screen := ScreenMenu)
    else sh
  }

  /** A screen whose one text editor is committed by enter and closed by
      esc (icons, display options): with the editor open only enter marks
      the configuration changed; with it closed esc and q return to the
      menu. */
  function EditorScreenStep(sh: Shell, key: string, editing: bool): (r: Shell)
    ensures r.dirty <==> sh.dirty || (editing && key == "enter")
    ensures r.screen == (if !editing && IsLeave(key) then ScreenMenu else sh.screen)
    ensures r.error == sh.error && r.confirmQuit == sh.confirmQuit
  {
    if editing then (if key == "enter" then sh.(dirty := true) else sh)
    else if IsLeave(key) then sh.(screen := ScreenMenu)
    else sh
  }

  /** The keys that mark the configuration changed on the mascot screen
      when the editor guard is off. */
  predicate MascotMarksDirty(key: string, v: ViewFacts)
  {
    key == "enter" || key == "a" || key == "d" || key == "backspace"
    || ((key == " " || key == "x") && (!v.mascotInCategory || v.mascotSubSelected == 0))
  }

  /** The mascot screen. The editor guard sees only the emoji and threshold
      editors; behind it only enter marks the configuration changed.
      Otherwise enter, a, d and backspace always mark it changed, space and
      x mark it changed from the category list or on the first row, and esc
      and q return to the menu when the view answers that it is at the
      top. */
  function MascotStep(sh: Shell, key: string, v: ViewFacts): (r: Shell)
    ensures v.mascotGuard ==> r == (if key == "enter" then sh.(dirty := true) else sh)
    ensures !v.mascotGuard ==> (r.dirty <==> sh.dirty || MascotMarksDirty(key, v))
    ensures r.screen != sh.screen ==> !v.mascotGuard && IsLeave(key) && v.mascotAtTop && r.screen == ScreenMenu
    ensures !v.mascotGuard && IsLeave(key) && v.mascotAtTop ==> r.screen == ScreenMenu
    ensures r.error == sh.error && r.confirmQuit == sh.confirmQuit
  {
    if v.mascotGuard then (if key == "enter" then sh.(dirty := true) else sh)
    else if key == "enter" || key == "a" || key == "d" || key == "backspace" then sh.(dirty := true)
    else if (key == " " || key == "x") && (!v.mascotInCategory || v.mascotSubSelected == 0) then sh.(dirty := true)
    else if IsLeave(key) && v.mascotAtTop then sh.(screen := ScreenMenu)
    else sh
  }

  /** The four editing screens, as far as the dispatcher's fields go: which
      keys set the dirty flag and which return to the menu. */
  function ScreenStep(sh: Shell, key: string, v: ViewFacts): (r: Shell)
    ensures r.error == sh.error && r.confirmQuit == sh.confirmQuit
    ensures r.dirty != sh.dirty ==> r.dirty && sh.screen !in {ScreenMenu, ScreenConfirmQuit}
    ensures r.screen != sh.screen ==> r.screen == ScreenMenu
  {
    match sh.screen
    case ScreenSections => SectionsStep(sh, key)
    case ScreenIcons => EditorScreenStep(sh, key, v.iconsEditing)
    case ScreenMascot => MascotStep(sh, key, v)
    case ScreenDisplay => EditorScreenStep(sh, key, v.displayEditing)
    case ScreenMenu => sh
    case ScreenConfirmQuit => sh
  }

  /** One key: the dialog first, then ctrl+c and ctrl+s on every screen,
      then the screen that is showing. */
  function Step(sh: Shell, key: string, v: ViewFacts, saveOk: bool, errText: string): (o: Outcome)
    // Quitting with unsaved changes goes through the dialog.
    ensures o.quit && o.shell.dirty ==> sh.confirmQuit
    // Only a successful save clears the dirty flag, and a failed one keeps it.
    ensures sh.dirty && !o.shell.dirty ==> saveOk && o.persist != NoPersist
    ensures o.persist != NoPersist ==> o.shell.dirty == (sh.dirty && !saveOk)
    // The dialog opens only over unsaved changes, and opening it is all the key does.
    ensures !sh.confirmQuit && o.shell.confirmQuit ==> sh.dirty && o == Outcome(sh.(confirmQuit := true), false, NoPersist)
    // While the dialog is up only its keys act, and the screen stays.
    ensures sh.confirmQuit ==> o == ConfirmStep(sh, key, saveOk, errText)
    // ctrl+c and ctrl+s act the same on every screen.
    ensures !sh.confirmQuit && key == "ctrl+c" ==> o == QuitRequest(sh)
    ensures !sh.confirmQuit && key == "ctrl+s" ==>
      o.persist == SaveConfig && !o.quit && o.shell == (if saveOk then sh.(dirty := false, error := "") else sh.(error := errText))
    // The dirty flag is set only by an edit on one of the four editing screens.
    ensures !sh.dirty && o.shell.dirty ==> Routed(sh.confirmQuit, key) && sh.screen !in {ScreenMenu, ScreenConfirmQuit}
    // Installing is asked for only by the dialog or by menu position 5.
    ensures o.persist == SaveAndInstall ==> sh.confirmQuit || (sh.screen == ScreenMenu && key == "enter" && v.menuSelected == 5)
    // The screen changes only from a menu entry 0 to 3, or back to the menu.
    ensures o.shell.screen != sh.screen ==>
      o.shell.screen == ScreenMenu || (sh.screen == ScreenMenu && key == "enter" && 0 <= v.menuSelected < 4 && o.shell.screen == MenuTarget(v.menuSelected))
  {
    if sh.confirmQuit then ConfirmStep(sh, key, saveOk, errText)
    else if key == "ctrl+c" then QuitRequest(sh)
    else if key == "ctrl+s" then
      Outcome(if saveOk then sh.(dirty := false, error := "") else sh.(error := errText), false, SaveConfig)
    else if sh.screen == ScreenMenu then MenuStep(sh, key, v.menuSelected, saveOk, errText)
    else Outcome(ScreenStep(sh, key, v), false, NoPersist)
  }

  /** On the menu the cursor never rests on the separator at position 5, so
      no menu key asks for the install; and the entries below the separator
      do not do what their labels say: "Save & Apply" only saves, while
      "Save Config Only" and "Notifications" do nothing. */
  lemma MenuEntriesMisrouted(sh: Shell, v: ViewFacts, key: string, saveOk: bool, errText: string)
    requires !sh.confirmQuit && sh.screen == ScreenMenu
    requires 0 <= v.menuSelected < 8 && !Menu.DefaultItems()[v.menuSelected].isSeparator
    ensures Step(sh, key, v, saveOk, errText).persist != SaveAndInstall
    ensures Menu.Name(Menu.DefaultItems()[6].entry) == "Save & Apply" && Menu.Name(Menu.DefaultItems()[7].entry) == "Save Config Only"
    ensures v.menuSelected == 6 ==> Step(sh, "enter", v, saveOk, errText).persist == SaveConfig
    ensures Menu.Name(Menu.DefaultItems()[4].entry) == "Notifications"
    ensures v.menuSelected == 4 || v.menuSelected == 7 ==> Step(sh, "enter", v, saveOk, errText) == Outcome(sh, false, NoPersist)
  {
  }

  class Model {
    const config: Config
    var screen: Screen
    var dirty: bool
    var error: string
    var confirmQuit: bool
    const menuView: Menu.MenuView
    const sectionsView: Sections.SectionsView
    const iconsView: IconsScreen.IconsView
    const mascotView: MascotScreen.MascotView
    const displayView: DisplayOptions.DisplayView
    const previewView: Preview.PreviewView

    function ShellState(): Shell
      reads this
    {
      Shell(screen, dirty, error, confirmQuit)
    }

    function Facts(): ViewFacts
      reads this, menuView, iconsView, mascotView, displayView
    {
      ViewFacts(menuView.selected, iconsView.editing,
                mascotView.editingEmoji || mascotView.editingThreshold,
                !mascotView.Editing() && !mascotView.inCategory,
                mascotView.inCategory, mascotView.subSelected, displayView.editing)
    }

    /** The menu view is valid and, like the default list, has eight
        entries with the one separator at position 5. */
    ghost predicate MenuOk()
      reads menuView
    {
      menuView.Valid() && |menuView.items| == 8 && menuView.items[5].isSeparator
      && forall i :: 0 <= i < 8 && i != 5 ==> !menuView.items[i].isSeparator
    }

    ghost predicate SectionsOk()
      reads sectionsView
    {
      sectionsView.config == config && sectionsView.Valid() && 0 <= sectionsView.selected < 8
    }

    ghost predicate IconsOk()
      reads iconsView
    {
      iconsView.config == config && iconsView.Valid()
    }

    /** The mascot view is valid, and a speed edit's buffer holds the speed
        it was opened with, as the five-character input took it. */
    ghost predicate MascotOk()
      reads mascotView, config`mascot
    {
      mascotView.config == config && mascotView.Valid()
      && (mascotView.editingSpeed ==>
            mascotView.speedInput == TextInput.SetValue(Itoa(GetInt(config.mascot, mascotView.Current().speed)), MascotScreen.SpeedLimit))
    }

    ghost predicate DisplayOk()
      reads displayView
    {
      displayView.config == config && displayView.Valid()
    }

    /** An editor is open only on its own screen. */
    ghost predicate EditorsOnScreen()
      reads this`screen, iconsView`editing, displayView`editing,
        mascotView`editingEmoji, mascotView`editingThreshold, mascotView`editingSpeed
    {
      (iconsView.editing ==> screen == ScreenIcons)
      && (displayView.editing ==> screen == ScreenDisplay)
      && (mascotView.editingEmoji || mascotView.editingThreshold || mascotView.editingSpeed ==> screen == ScreenMascot)
    }

    /** Every view is valid and shares the one configuration object; an
        editor is open only on its own screen; and a speed edit's buffer
        always holds the speed it was opened with, as the input took it,
        since no key ever reaches it. */
    ghost predicate Valid()
      reads this`screen, config`mascot, menuView, sectionsView, iconsView, mascotView, displayView
    {
      MenuOk() && SectionsOk() && IconsOk() && MascotOk() && DisplayOk()
      && previewView.config == config && EditorsOnScreen()
    }

    /** The editor starts on the menu, clean, with every view built over
        the same configuration. */
    constructor (cfg: Config)
      ensures Valid() && config == cfg && menuView.items == Menu.DefaultItems()
      ensures ShellState() == Shell(ScreenMenu, false, "", false)
    {
      config := cfg;
      screen := ScreenMenu;
      dirty := false;
      error := "";
      confirmQuit := false;
      menuView := new Menu.MenuView();
      sectionsView := new Sections.SectionsView(cfg);
      iconsView := new IconsScreen.IconsView(cfg);
      mascotView := new MascotScreen.MascotView(cfg);
      displayView := new DisplayOptions.DisplayView(cfg);
      previewView := new Preview.PreviewView(cfg);
    }

    /** Handle one key. `saveOk` is the result of the save the key asks for,
        `errText` the error it reports otherwise, and `typed` the buffer a
        key forwarded to an open text input leaves behind. */
    method Update(key: string, saveOk: bool, errText: string, typed: string) returns (quit: bool, persist: Persist)
      requires Valid()
      modifies this, config, menuView, sectionsView, iconsView, mascotView, displayView
      ensures Valid()
      ensures Outcome(ShellState(), quit, persist) == Step(old(ShellState()), key, old(Facts()), saveOk, errText)
      ensures !(Routed(old(confirmQuit), key) && old(screen) == ScreenMenu) ==> unchanged(menuView)
      ensures !(Routed(old(confirmQuit), key) && old(screen) == ScreenSections) ==> unchanged(sectionsView)
      ensures !(Routed(old(confirmQuit), key) && old(screen) == ScreenIcons) ==> unchanged(iconsView)
      ensures !(Routed(old(confirmQuit), key) && old(screen) == ScreenMascot) ==> unchanged(mascotView)
      ensures !(Routed(old(confirmQuit), key) && old(screen) == ScreenDisplay) ==> unchanged(displayView)
      ensures !Routed(old(confirmQuit), key) || old(screen) == ScreenMenu || old(screen) == ScreenConfirmQuit ==> unchanged(config)
    {
      if confirmQuit {
        quit, persist := ConfirmKey(key, saveOk, errText);
      } else if key == "ctrl+c" || key == "ctrl+s" {
        quit, persist := GlobalKey(key, saveOk, errText);
      } else {
        quit, persist := Route(key, saveOk, errText, typed);
      }
    }

    /** A key while the confirm-quit dialog is up. */
    method ConfirmKey(key: string, saveOk: bool, errText: string) returns (quit: bool, persist: Persist)
      requires Valid() && confirmQuit
      modifies this`dirty, this`error, this`confirmQuit
      ensures Valid()
      ensures Outcome(ShellState(), quit, persist) == ConfirmStep(old(ShellState()), key, saveOk, errText)
    {
      if key == "y" || key == "Y" {
        return true, NoPersist;
      } else if key == "n" || key == "N" || key == "esc" {
        confirmQuit := false;
        return false, NoPersist;
      } else if key == "s" || key == "S" {
        if saveOk {
          dirty := false;
        } else {
          error := errText;
        }
        return true, SaveAndInstall;
      }
      return false, NoPersist;
    }

    /** ctrl+c asks to quit and ctrl+s saves, on every screen. */
    method GlobalKey(key: string, saveOk: bool, errText: string) returns (quit: bool, persist: Persist)
      requires Valid() && !confirmQuit && (key == "ctrl+c" || key == "ctrl+s")
      modifies this`dirty, this`error, this`confirmQuit
      ensures Valid()
      ensures Outcome(ShellState(), quit, persist) == Step(old(ShellState()), key, ViewFacts(0, false, false, false, false, 0, false), saveOk, errText)
    {
      if key == "ctrl+c" {
        if dirty {
          confirmQuit := true;
          return false, NoPersist;
        }
        return true, NoPersist;
      }
      if saveOk {
        dirty := false;
        error := "";
      } else {
        error := errText;
      }
      return false, SaveConfig;
    }

    /** A key for the screen that is showing. */
    method Route(key: string, saveOk: bool, errText: string, typed: string) returns (quit: bool, persist: Persist)
      requires Valid() && Routed(confirmQuit, key)
      modifies this, config, menuView, sectionsView, iconsView, mascotView, displayView
      ensures Valid()
      ensures old(screen) == ScreenMenu ==>
        Outcome(ShellState(), quit, persist) == MenuStep(old(ShellState()), key, old(menuView.selected), saveOk, errText)
      ensures old(screen) != ScreenMenu ==>
        Outcome(ShellState(), quit, persist) == Outcome(ScreenStep(old(ShellState()), key, old(Facts())), false, NoPersist)
      ensures old(screen) != ScreenMenu ==> unchanged(menuView)
      ensures old(screen) != ScreenSections ==> unchanged(sectionsView)
      ensures old(screen) != ScreenIcons ==> unchanged(iconsView)
      ensures old(screen) != ScreenMascot ==> unchanged(mascotView)
      ensures old(screen) != ScreenDisplay ==> unchanged(displayView)
      ensures old(screen) == ScreenMenu || old(screen) == ScreenConfirmQuit ==> unchanged(config)
    {
      quit, persist := false, NoPersist;
      match screen
      case ScreenMenu =>
        quit, persist := UpdateMenu(key, saveOk, errText);
      case ScreenSections =>
        UpdateSections(key);
      case ScreenIcons =>
        UpdateIcons(key, typed);
      case ScreenMascot =>
        UpdateMascot(key, typed);
      case ScreenDisplay =>
        UpdateDisplay(key, typed);
      case ScreenConfirmQuit =>
    }

    /** The menu: the cursor keys move its cursor past the separator,
        enter opens a screen or saves, q asks to quit. */
    method UpdateMenu(key: string, saveOk: bool, errText: string) returns (quit: bool, persist: Persist)
      requires Valid() && screen == ScreenMenu
      modifies this, menuView
      ensures Valid()
      ensures Outcome(ShellState(), quit, persist) == MenuStep(old(ShellState()), key, old(menuView.selected), saveOk, errText)
      ensures IsUp(key) ==> exists k :: Menu.SkipsUp(menuView.items, old(menuView.selected), k, menuView.selected)
      ensures IsDown(key) ==> exists k :: Menu.SkipsDown(menuView.items, old(menuView.selected), k, menuView.selected)
      ensures !IsUp(key) && !IsDown(key) ==> menuView.selected == old(menuView.selected)
    {
      quit, persist := false, NoPersist;
      if IsUp(key) {
        menuView.Up();
      } else if IsDown(key) {
        menuView.Down();
      } else if key == "enter" {
        var selected := menuView.selected;
        if selected == 0 {
          screen := ScreenSections;
        } else if selected == 1 {
          screen := ScreenIcons;
        } else if selected == 2 {
          screen := ScreenMascot;
        } else if selected == 3 {
          screen := ScreenDisplay;
        } else if selected == 5 || selected == 6 {
          persist := if selected == 5 then SaveAndInstall else SaveConfig;
          if !saveOk {
            error := SaveFailedPrefix + errText;
            return;
          }
          dirty := false;
          error := "";
          quit := true;
        }
      } else if key == "q" {
        if dirty {
          confirmQuit := true;
          return;
        }
        quit := true;
      }
    }

    /** The sections screen: the cursor keys wrap over the eight rows, space,
        x and enter flip the selected flag and mark the configuration
        changed, esc and q return to the menu. */
    method UpdateSections(key: string)
      requires Valid() && !confirmQuit && screen == ScreenSections
      modifies this, sectionsView`selected, config
      ensures Valid()
      ensures ShellState() == SectionsStep(old(ShellState()), key)
      ensures IsUp(key) ==> sectionsView.selected == Prev(old(sectionsView.selected), 8)
      ensures IsDown(key) ==> sectionsView.selected == Next(old(sectionsView.selected), 8)
      ensures !IsUp(key) && !IsDown(key) ==> sectionsView.selected == old(sectionsView.selected)
      ensures IsToggle(key) ==> config.Value() == old(config.Value()).(enabledSections :=
        FlipFlag(old(config.enabledSections), Sections.ItemFlags()[sectionsView.selected]))
      ensures !IsToggle(key) ==> unchanged(config)
    {
      if IsUp(key) {
        sectionsView.Up();
      } else if IsDown(key) {
        sectionsView.Down();
      } else if IsToggle(key) {
        sectionsView.Toggle();
        dirty := true;
      } else if IsLeave(key) {
        screen := ScreenMenu;
      }
    }

    /** The icons screen. With the editor open, enter and esc both close it
        and write every buffer back, but only enter marks the configuration
        changed; any other key edits the selected buffer. With it closed,
        the cursor keys wrap over the eight rows, enter and e open the
        editor, esc and q return to the menu. */
    method UpdateIcons(key: string, typed: string)
      requires Valid() && !confirmQuit && screen == ScreenIcons
      modifies this, iconsView, config
      ensures Valid()
      ensures ShellState() == EditorScreenStep(old(ShellState()), key, old(iconsView.editing))
      ensures old(iconsView.editing) && (key == "enter" || key == "esc") ==>
        !iconsView.editing && iconsView.selected == old(iconsView.selected) && iconsView.Buffers() == old(iconsView.Buffers())
        && config.Value() == old(config.Value()).(icons := IconsScreen.SavedIcons(iconsView.Buffers()))
      ensures old(iconsView.editing) && key != "enter" && key != "esc" ==>
        iconsView.editing && iconsView.selected == old(iconsView.selected) && unchanged(config)
        && iconsView.Buffers() == old(iconsView.Buffers())[iconsView.selected := IconsScreen.Held(typed)]
      ensures !old(iconsView.editing) ==> unchanged(config) && iconsView.Buffers() == old(iconsView.Buffers())
      ensures !old(iconsView.editing) && IsUp(key) ==> !iconsView.editing && iconsView.selected == Prev(old(iconsView.selected), 8)
      ensures !old(iconsView.editing) && IsDown(key) ==> !iconsView.editing && iconsView.selected == Next(old(iconsView.selected), 8)
      ensures !old(iconsView.editing) && (key == "enter" || key == "e") ==> iconsView.editing && iconsView.selected == old(iconsView.selected)
      ensures !old(iconsView.editing) && !IsUp(key) && !IsDown(key) && key != "enter" && key != "e" ==>
        !iconsView.editing && iconsView.selected == old(iconsView.selected)
    {
      if iconsView.editing {
        if key == "enter" {
          iconsView.StopEdit();
          dirty := true;
        } else if key == "esc" {
          iconsView.StopEdit();
        } else {
          iconsView.SetCurrentInput(typed);
        }
        return;
      }
      if IsUp(key) {
        iconsView.Up();
      } else if IsDown(key) {
        iconsView.Down();
      } else if key == "enter" || key == "e" {
        iconsView.StartEdit();
      } else if IsLeave(key) {
        screen := ScreenMenu;
      }
    }

    /** The display options screen. With the editor open, enter commits the
        buffer to the selected setting and marks the configuration changed,
        esc discards it, any other key edits it. With it closed, the cursor
        keys wrap over the four rows, enter and e open the editor on the
        setting's current text, esc and q return to the menu. */
    method UpdateDisplay(key: string, typed: string)
      requires Valid() && !confirmQuit && screen == ScreenDisplay
      modifies this, displayView`selected, displayView`editing, displayView`input, config
      ensures Valid()
      ensures ShellState() == EditorScreenStep(old(ShellState()), key, old(displayView.editing))
      ensures displayView.selected == old(displayView.selected) || (!old(displayView.editing) && (IsUp(key) || IsDown(key)))
      ensures old(displayView.editing) && key == "enter" ==>
        !displayView.editing && config.Value() == DisplayOptions.Assign(old(config.Value()), displayView.items[displayView.selected], old(displayView.input))
      ensures old(displayView.editing) && key == "esc" ==> !displayView.editing && unchanged(config)
      ensures old(displayView.editing) && key != "enter" && key != "esc" ==>
        displayView.editing && displayView.input == TextInput.SetValue(typed, DisplayOptions.InputLimit) && unchanged(config)
      ensures !old(displayView.editing) ==> unchanged(config)
      ensures !old(displayView.editing) && IsUp(key) ==> !displayView.editing && displayView.selected == Prev(old(displayView.selected), 4)
      ensures !old(displayView.editing) && IsDown(key) ==> !displayView.editing && displayView.selected == Next(old(displayView.selected), 4)
      ensures !old(displayView.editing) && (key == "enter" || key == "e") ==>
        displayView.editing
        && displayView.input == TextInput.SetValue(DisplayOptions.GetValue(config.Value(), displayView.items[displayView.selected]), DisplayOptions.InputLimit)
      ensures !old(displayView.editing) && !IsUp(key) && !IsDown(key) && key != "enter" && key != "e" ==>
        !displayView.editing && displayView.input == old(displayView.input)
    {
      if displayView.editing {
        if key == "enter" {
          displayView.StopEdit();
          dirty := true;
        } else if key == "esc" {
          displayView.CancelEdit();
        } else {
          displayView.SetCurrentInput(typed);
        }
        return;
      }
      if IsUp(key) {
        displayView.Up();
      } else if IsDown(key) {
        displayView.Down();
      } else if key == "enter" || key == "e" {
        displayView.StartEdit();
      } else if IsLeave(key) {
        screen := ScreenMenu;
      }
    }

    /** The mascot screen. The editor guard looks only at the emoji and
        threshold editors: with one of them open, enter commits it and marks
        the configuration changed, esc closes it and any other key edits
        it. Otherwise keys go to the view: the cursor keys move, enter acts
        on the row and marks the configuration changed, space and x flip
        the category's enabled flag from the category list or on its first
        row, a and d add or delete a frame and mark the configuration
        changed, esc and q go back and leave to the menu from the top. A
        speed edit hence receives no keys, and its commit stores the buffer it
        was opened with, which changes the speed only when that speed was
        too long for the editor. */
    method UpdateMascot(key: string, typed: string)
      requires Valid() && !confirmQuit && screen == ScreenMascot
      modifies this, mascotView, config
      ensures Valid()
      ensures ShellState() == MascotStep(old(ShellState()), key, old(Facts()))
      ensures old(mascotView.editingEmoji || mascotView.editingThreshold) && key != "enter" && key != "esc" ==>
        unchanged(config)
        && mascotView.Ui() == (if old(mascotView.editingEmoji) then old(mascotView.Ui()).(emojiInput := TextInput.SetValue(typed, MascotScreen.EmojiLimit))
                               else old(mascotView.Ui()).(thresholdInput := TextInput.SetValue(typed, MascotScreen.ThresholdLimit)))
      ensures old(mascotView.editingSpeed) ==> mascotView.speedInput == old(mascotView.speedInput)
      ensures old(mascotView.editingSpeed) && key == "enter" ==>
        !mascotView.editingSpeed
        && config.Value() == old(config.Value()).(mascot := MascotScreen.CommitSpeed(old(config.mascot), old(mascotView.Current()), old(mascotView.speedInput)))
      ensures old(mascotView.editingSpeed) && key == "enter" && MascotScreen.SpeedFits(old(GetInt(config.mascot, mascotView.Current().speed))) ==>
        config.Value() == old(config.Value())
      ensures old(mascotView.editingSpeed) && IsLeave(key) ==> !mascotView.editingSpeed && unchanged(config)
      ensures old(mascotView.editingSpeed) && key != "enter" && !IsLeave(key) ==>
        mascotView.Ui() == old(mascotView.Ui()) && config.Value() == old(config.Value())
      ensures !old(mascotView.Editing()) && !old(mascotView.inCategory) && (key == " " || key == "x") ==>
        mascotView.Ui() == old(mascotView.Ui())
        && config.Value() == old(config.Value()).(mascot := MascotScreen.FlipBool(old(config.mascot), mascotView.Current().enabled))
    {
      if mascotView.editingEmoji || mascotView.editingThreshold {
        MascotEditorKey(key, typed);
      } else if mascotView.editingSpeed {
        MascotSpeedKey(key);
      } else {
        MascotViewKey(key);
      }
    }

    /** A key while the emoji or threshold editor is open: enter commits it,
        esc closes it, anything else edits it. */
    method MascotEditorKey(key: string, typed: string)
      requires Valid() && !confirmQuit && screen == ScreenMascot
      requires mascotView.editingEmoji || mascotView.editingThreshold
      modifies this`dirty, mascotView, config
      ensures Valid()
      ensures ShellState() == MascotStep(old(ShellState()), key, old(Facts()))
      ensures key != "enter" && key != "esc" ==>
        unchanged(config)
        && mascotView.Ui() == (if old(mascotView.editingEmoji) then old(mascotView.Ui()).(emojiInput := TextInput.SetValue(typed, MascotScreen.EmojiLimit))
                               else old(mascotView.Ui()).(thresholdInput := TextInput.SetValue(typed, MascotScreen.ThresholdLimit)))
      ensures key == "enter" && old(mascotView.editingEmoji) ==>
        mascotView.Ui() == old(mascotView.Ui()).(editingEmoji := false)
        && config.Value() == old(config.Value()).(mascot := MascotScreen.CommitEmoji(old(config.mascot), old(mascotView.Current()),
             old(mascotView.subSelected - MascotScreen.EmojiOffset(mascotView.Current())), old(mascotView.emojiInput)))
      ensures key == "enter" && old(mascotView.editingThreshold) ==>
        mascotView.Ui() == old(mascotView.Ui()).(editingThreshold := false)
        && config.Value() == old(config.Value()).(mascot := MascotScreen.CommitThreshold(old(config.mascot), old(mascotView.Current()), old(mascotView.thresholdInput)))
      ensures key == "esc" ==>
        mascotView.Ui() == old(mascotView.Ui()).(editingEmoji := false, editingThreshold := false) && unchanged(config)
    {
      if key == "enter" {
        MascotEnter();
      } else if key == "esc" {
        var _ := MascotBack();
      } else {
        mascotView.SetCurrentInput(typed);
      }
    }

    /** A key during a speed edit. The editor guard does not see it, so the
        key goes to the view as if no editor were open: the cursor keys and
        the frame keys are refused by the open editor, space and x do
        nothing off the first row, enter commits the untouched buffer, and
        esc and q close the editor. */
    method MascotSpeedKey(key: string)
      requires Valid() && !confirmQuit && screen == ScreenMascot
      requires !mascotView.editingEmoji && !mascotView.editingThreshold && mascotView.editingSpeed
      modifies this`dirty, mascotView, config
      ensures Valid()
      ensures ShellState() == MascotStep(old(ShellState()), key, old(Facts()))
      ensures mascotView.speedInput == old(mascotView.speedInput)
      ensures key == "enter" ==>
        !mascotView.editingSpeed
        && config.Value() == old(config.Value()).(mascot := MascotScreen.CommitSpeed(old(config.mascot), old(mascotView.Current()), old(mascotView.speedInput)))
      ensures key == "enter" && MascotScreen.SpeedFits(old(GetInt(config.mascot, mascotView.Current().speed))) ==>
        config.Value() == old(config.Value())
      ensures IsLeave(key) ==> !mascotView.editingSpeed && unchanged(config)
      ensures key == "enter" || IsLeave(key) ==> mascotView.Ui() == old(mascotView.Ui()).(editingSpeed := false)
      ensures key != "enter" && !IsLeave(key) ==> mascotView.Ui() == old(mascotView.Ui()) && config.Value() == old(config.Value())
    {
      if key == "enter" {
        MascotEnter();
      } else {
        MascotSpeedOtherKey(key);
      }
    }

    /** A key other than enter during a speed edit. */
    method MascotSpeedOtherKey(key: string)
      requires Valid() && !confirmQuit && screen == ScreenMascot
      requires !mascotView.editingEmoji && !mascotView.editingThreshold && mascotView.editingSpeed && key != "enter"
      modifies this`dirty, mascotView, config
      ensures Valid()
      ensures ShellState() == MascotStep(old(ShellState()), key, old(Facts()))
      ensures mascotView.speedInput == old(mascotView.speedInput)
      ensures IsLeave(key) ==> !mascotView.editingSpeed && unchanged(config)
      ensures IsLeave(key) ==> mascotView.Ui() == old(mascotView.Ui()).(editingSpeed := false)
      ensures !IsLeave(key) ==> mascotView.Ui() == old(mascotView.Ui()) && config.Value() == old(config.Value())
    {
      if IsLeave(key) {
        var _ := MascotBack();
      } else {
        MascotSpeedRefusedKey(key);
      }
    }

    /** A key during a speed edit that neither commits nor closes it: the
        open editor refuses the cursor and frame keys, and space and x do
        nothing off the first row. */
    method MascotSpeedRefusedKey(key: string)
      requires Valid() && !confirmQuit && screen == ScreenMascot
      requires !mascotView.editingEmoji && !mascotView.editingThreshold && mascotView.editingSpeed
      requires key != "enter" && !IsLeave(key)
      modifies this`dirty, mascotView, config
      ensures Valid()
      ensures ShellState() == MascotStep(old(ShellState()), key, old(Facts()))
      ensures mascotView.Ui() == old(mascotView.Ui()) && config.Value() == old(config.Value())
    {
      if IsUp(key) || IsDown(key) {
        MascotMove(IsUp(key));
      } else if key == " " || key == "x" {
        // The cursor is on the speed row, not on the first row.
      } else if key == "a" || key == "d" || key == "backspace" {
        MascotFrames(key == "a");
      }
    }

    /** A key with no mascot editor open. */
    method MascotViewKey(key: string)
      requires Valid() && !confirmQuit && screen == ScreenMascot && !mascotView.Editing()
      modifies this, mascotView, config
      ensures Valid()
      ensures ShellState() == MascotStep(old(ShellState()), key, old(Facts()))
      ensures !old(mascotView.inCategory) && (key == " " || key == "x") ==>
        mascotView.Ui() == old(mascotView.Ui())
        && config.Value() == old(config.Value()).(mascot := MascotScreen.FlipBool(old(config.mascot), mascotView.Current().enabled))
    {
      if IsUp(key) || IsDown(key) {
        MascotMove(IsUp(key));
      } else if key == "enter" {
        MascotEnter();
      } else if key == " " || key == "x" {
        MascotToggleKey(key);
      } else if key == "a" || key == "d" || key == "backspace" {
        MascotFrames(key == "a");
      } else if IsLeave(key) {
        MascotLeaveKey(key);
      }
    }

    /** Space or x with no editor open: from the category list it flips the
        category's enabled flag, on a category's first row it acts as enter,
        and elsewhere it does nothing. */
    method MascotToggleKey(key: string)
      requires Valid() && !confirmQuit && screen == ScreenMascot && !mascotView.Editing()
      requires key == " " || key == "x"
      modifies this`dirty, mascotView, config
      ensures Valid()
      ensures ShellState() == MascotStep(old(ShellState()), key, old(Facts()))
      ensures mascotView.Ui() == old(mascotView.Ui())
      ensures !old(mascotView.inCategory) || old(mascotView.subSelected) == 0 ==>
        config.Value() == old(config.Value()).(mascot := MascotScreen.FlipBool(old(config.mascot), mascotView.Current().enabled))
      ensures old(mascotView.inCategory) && old(mascotView.subSelected) != 0 ==> config.Value() == old(config.Value())
    {
      if !mascotView.inCategory {
        MascotFlipCategory();
      } else if mascotView.subSelected == 0 {
        MascotEnter();
      }
    }

    /** Esc or q with no editor open: back to the category list, or to the
        menu from the list itself. */
    method MascotLeaveKey(key: string)
      requires Valid() && !confirmQuit && screen == ScreenMascot && !mascotView.Editing()
      requires IsLeave(key)
      modifies this`screen, mascotView
      ensures Valid()
      ensures ShellState() == MascotStep(old(ShellState()), key, old(Facts()))
      ensures old(mascotView.inCategory) ==> mascotView.Ui() == old(mascotView.Ui()).(inCategory := false, subSelected := 0)
      ensures !old(mascotView.inCategory) ==> mascotView.Ui() == old(mascotView.Ui())
    {
      var toMenu := MascotBack();
      if toMenu {
        screen := ScreenMenu;
      }
    }

    /** The mascot view's Up or Down. */
    method MascotMove(up: bool)
      requires Valid() && screen == ScreenMascot
      modifies mascotView
      ensures Valid() && unchanged(config)
      ensures old(mascotView.Editing()) ==> mascotView.Ui() == old(mascotView.Ui())
      ensures mascotView.Editing() == old(mascotView.Editing()) && mascotView.inCategory == old(mascotView.inCategory)
      ensures !old(mascotView.Editing()) && old(mascotView.inCategory) ==>
        var n := old(MascotScreen.MaxItems(mascotView.Current(), mascotView.Count()));
        mascotView.Ui() == old(mascotView.Ui()).(subSelected :=
          if up then Prev(old(mascotView.subSelected), n) else Next(old(mascotView.subSelected), n))
      ensures !old(mascotView.Editing()) && !old(mascotView.inCategory) ==>
        mascotView.Ui() == old(mascotView.Ui()).(selected :=
          if up then Prev(old(mascotView.selected), 7) else Next(old(mascotView.selected), 7))
    {
      if up {
        mascotView.Up();
      } else {
        mascotView.Down();
      }
    }

    /** The mascot view's Enter, which marks the configuration changed
        whatever it did; committing a speed edit, whose buffer still holds
        the speed it was opened with as the editor took it, changes nothing
        unless that speed was too long for the editor. */
    method MascotEnter()
      requires Valid() && screen == ScreenMascot
      modifies this`dirty, mascotView, config
      ensures Valid() && dirty
      ensures old(mascotView.editingSpeed) ==>
        !mascotView.editingSpeed && mascotView.speedInput == old(mascotView.speedInput)
        && config.Value() == old(config.Value()).(mascot := MascotScreen.CommitSpeed(old(config.mascot), old(mascotView.Current()), old(mascotView.speedInput)))
      ensures old(mascotView.editingSpeed) ==> mascotView.Ui() == old(mascotView.Ui()).(editingSpeed := false)
      ensures old(mascotView.editingSpeed) && MascotScreen.SpeedFits(old(GetInt(config.mascot, mascotView.Current().speed))) ==>
        config.Value() == old(config.Value())
      ensures old(mascotView.editingEmoji) ==>
        mascotView.Ui() == old(mascotView.Ui()).(editingEmoji := false)
        && config.Value() == old(config.Value()).(mascot := MascotScreen.CommitEmoji(old(config.mascot), old(mascotView.Current()),
             old(mascotView.subSelected - MascotScreen.EmojiOffset(mascotView.Current())), old(mascotView.emojiInput)))
      ensures old(mascotView.editingThreshold) ==>
        mascotView.Ui() == old(mascotView.Ui()).(editingThreshold := false)
        && config.Value() == old(config.Value()).(mascot := MascotScreen.CommitThreshold(old(config.mascot), old(mascotView.Current()), old(mascotView.thresholdInput)))
      ensures !old(mascotView.Editing()) && !old(mascotView.inCategory) ==>
        mascotView.Ui() == old(mascotView.Ui()).(inCategory := true, subSelected := 0) && config.Value() == old(config.Value())
      ensures !old(mascotView.Editing()) && old(mascotView.inCategory) && old(mascotView.Selection()) == MascotScreen.ToggleEnabled ==>
        mascotView.Ui() == old(mascotView.Ui())
        && config.Value() == old(config.Value()).(mascot := MascotScreen.FlipBool(old(config.mascot), old(mascotView.Current()).enabled))
      ensures !old(mascotView.Editing()) && old(mascotView.inCategory) && old(mascotView.Selection()) == MascotScreen.ToggleAnimate ==>
        mascotView.Ui() == old(mascotView.Ui())
        && config.Value() == old(config.Value()).(mascot := MascotScreen.FlipBool(old(config.mascot), old(mascotView.Current()).animate))
      ensures !old(mascotView.Editing()) && old(mascotView.inCategory) && old(mascotView.Selection()) == MascotScreen.EditThreshold ==>
        config.Value() == old(config.Value())
        && mascotView.Ui() == old(mascotView.Ui()).(editingThreshold := true,
             thresholdInput := TextInput.SetValue(Itoa(old(GetInt(config.mascot, mascotView.Current().threshold.value))), MascotScreen.ThresholdLimit))
      ensures !old(mascotView.Editing()) && old(mascotView.inCategory) && old(mascotView.Selection()) == MascotScreen.EditSpeed ==>
        config.Value() == old(config.Value())
        && mascotView.Ui() == old(mascotView.Ui()).(editingSpeed := true,
             speedInput := TextInput.SetValue(Itoa(old(GetInt(config.mascot, mascotView.Current().speed))), MascotScreen.SpeedLimit))
      ensures !old(mascotView.Editing()) && old(mascotView.inCategory) && old(mascotView.Selection()).Emoji? ==>
        config.Value() == old(config.Value())
        && mascotView.Ui() == old(mascotView.Ui()).(editingEmoji := true,
             emojiInput := TextInput.SetValue(old(GetList(config.mascot, mascotView.Current().emojis)[mascotView.Selection().index]), MascotScreen.EmojiLimit))
    {
      if mascotView.editingSpeed {
        MascotCommitSpeed();
      } else {
        MascotViewEnter();
      }
      dirty := true;
    }

    /** The mascot view's Enter with no speed edit open: an open frame or
        threshold editor is committed, the category list opens the selected
        category, and a category row does what it says. */
    method MascotViewEnter()
      requires Valid() && screen == ScreenMascot && !mascotView.editingSpeed
      modifies mascotView, config
      ensures Valid()
      ensures old(mascotView.editingEmoji) ==>
        mascotView.Ui() == old(mascotView.Ui()).(editingEmoji := false)
        && config.Value() == old(config.Value()).(mascot := MascotScreen.CommitEmoji(old(config.mascot), old(mascotView.Current()),
             old(mascotView.subSelected - MascotScreen.EmojiOffset(mascotView.Current())), old(mascotView.emojiInput)))
      ensures old(mascotView.editingThreshold) ==>
        mascotView.Ui() == old(mascotView.Ui()).(editingThreshold := false)
        && config.Value() == old(config.Value()).(mascot := MascotScreen.CommitThreshold(old(config.mascot), old(mascotView.Current()), old(mascotView.thresholdInput)))
      ensures !old(mascotView.Editing()) && !old(mascotView.inCategory) ==>
        mascotView.Ui() == old(mascotView.Ui()).(inCategory := true, subSelected := 0) && config.Value() == old(config.Value())
      ensures !old(mascotView.Editing()) && old(mascotView.inCategory) && old(mascotView.Selection()) == MascotScreen.ToggleEnabled ==>
        mascotView.Ui() == old(mascotView.Ui())
        && config.Value() == old(config.Value()).(mascot := MascotScreen.FlipBool(old(config.mascot), old(mascotView.Current()).enabled))
      ensures !old(mascotView.Editing()) && old(mascotView.inCategory) && old(mascotView.Selection()) == MascotScreen.ToggleAnimate ==>
        mascotView.Ui() == old(mascotView.Ui())
        && config.Value() == old(config.Value()).(mascot := MascotScreen.FlipBool(old(config.mascot), old(mascotView.Current()).animate))
      ensures !old(mascotView.Editing()) && old(mascotView.inCategory) && old(mascotView.Selection()) == MascotScreen.EditThreshold ==>
        config.Value() == old(config.Value())
        && mascotView.Ui() == old(mascotView.Ui()).(editingThreshold := true,
             thresholdInput := TextInput.SetValue(Itoa(old(GetInt(config.mascot, mascotView.Current().threshold.value))), MascotScreen.ThresholdLimit))
      ensures !old(mascotView.Editing()) && old(mascotView.inCategory) && old(mascotView.Selection()) == MascotScreen.EditSpeed ==>
        config.Value() == old(config.Value())
        && mascotView.Ui() == old(mascotView.Ui()).(editingSpeed := true,
             speedInput := TextInput.SetValue(Itoa(old(GetInt(config.mascot, mascotView.Current().speed))), MascotScreen.SpeedLimit))
      ensures !old(mascotView.Editing()) && old(mascotView.inCategory) && old(mascotView.Selection()).Emoji? ==>
        config.Value() == old(config.Value())
        && mascotView.Ui() == old(mascotView.Ui()).(editingEmoji := true,
             emojiInput := TextInput.SetValue(old(GetList(config.mascot, mascotView.Current().emojis)[mascotView.Selection().index]), MascotScreen.EmojiLimit))
    {
      mascotView.Enter();
    }

    /** Enter during a speed edit: the view stores the buffer. */
    method MascotCommitSpeed()
      requires Valid() && screen == ScreenMascot && mascotView.editingSpeed
      modifies mascotView, config
      ensures Valid()
      ensures !mascotView.editingSpeed && mascotView.speedInput == old(mascotView.speedInput)
      ensures mascotView.Ui() == old(mascotView.Ui()).(editingSpeed := false)
      ensures config.Value() == old(config.Value()).(mascot := MascotScreen.CommitSpeed(old(config.mascot), old(mascotView.Current()), old(mascotView.speedInput)))
      ensures MascotScreen.SpeedFits(old(GetInt(config.mascot, mascotView.Current().speed))) ==> config.Value() == old(config.Value())
    {
      MascotScreen.SpeedEditUntouched(config.mascot, mascotView.Current());
      mascotView.Enter();
    }

    /** Space or x on the category list flips the selected category's
        enabled flag directly, and marks the configuration changed. */
    method MascotFlipCategory()
      requires Valid() && screen == ScreenMascot && !mascotView.Editing() && !mascotView.inCategory
      modifies this`dirty, config
      ensures Valid() && dirty
      ensures config.Value() == old(config.Value()).(mascot := MascotScreen.FlipBool(old(config.mascot), mascotView.Current().enabled))
    {
      var cat := mascotView.categories[mascotView.selected];
      config.mascot := MascotScreen.FlipBool(config.mascot, cat.enabled);
      dirty := true;
    }

    /** The mascot view's AddEmoji or DeleteEmoji, which mark the
        configuration changed whatever they did. */
    method MascotFrames(add: bool)
      requires Valid() && screen == ScreenMascot
      modifies this`dirty, mascotView, config
      ensures Valid() && dirty
      ensures old(mascotView.Editing()) ==> mascotView.Ui() == old(mascotView.Ui()) && config.Value() == old(config.Value())
      ensures add ==> mascotView.Ui() == old(mascotView.Ui())
      ensures add && old(mascotView.inCategory && !mascotView.Editing()) ==>
        config.Value() == old(config.Value()).(mascot := SetList(old(config.mascot), mascotView.Current().emojis,
                                                                  old(GetList(config.mascot, mascotView.Current().emojis)) + [MascotScreen.NewEmoji]))
      ensures add && !old(mascotView.inCategory) ==> config.Value() == old(config.Value())
      ensures !add && old(mascotView.CanDelete()) ==>
        var offset := old(MascotScreen.EmojiOffset(mascotView.Current()));
        config.Value() == old(config.Value()).(mascot := SetList(old(config.mascot), old(mascotView.Current().emojis),
                                                                  MascotScreen.RemoveAt(old(GetList(config.mascot, mascotView.Current().emojis)), old(mascotView.subSelected) - offset)))
        && mascotView.Ui() == old(mascotView.Ui()).(subSelected :=
             if old(mascotView.subSelected) >= old(mascotView.Count()) - 1 + offset then old(mascotView.subSelected) - 1 else old(mascotView.subSelected))
      ensures !add && !old(mascotView.CanDelete()) ==> mascotView.Ui() == old(mascotView.Ui()) && config.Value() == old(config.Value())
    {
      if add {
        MascotAddFrame();
      } else {
        MascotDeleteFrame();
      }
      dirty := true;
    }

    /** The mascot view's AddEmoji: a new frame at the end of the opened
        category's list, when no editor is open. */
    method MascotAddFrame()
      requires Valid() && screen == ScreenMascot
      modifies config
      ensures Valid()
      ensures mascotView.inCategory && !mascotView.Editing() ==>
        config.Value() == old(config.Value()).(mascot := SetList(old(config.mascot), mascotView.Current().emojis,
                                                                  old(GetList(config.mascot, mascotView.Current().emojis)) + [MascotScreen.NewEmoji]))
      ensures !(mascotView.inCategory && !mascotView.Editing()) ==> config.Value() == old(config.Value())
    {
      mascotView.AddEmoji();
    }

    /** The mascot view's DeleteEmoji: the frame under the cursor goes, unless
        it is the only one or an editor is open. */
    method MascotDeleteFrame()
      requires Valid() && screen == ScreenMascot
      modifies mascotView, config
      ensures Valid()
      ensures old(mascotView.CanDelete()) ==>
        var offset := old(MascotScreen.EmojiOffset(mascotView.Current()));
        config.Value() == old(config.Value()).(mascot := SetList(old(config.mascot), old(mascotView.Current().emojis),
                                                                  MascotScreen.RemoveAt(old(GetList(config.mascot, mascotView.Current().emojis)), old(mascotView.subSelected) - offset)))
        && mascotView.Ui() == old(mascotView.Ui()).(subSelected :=
             if old(mascotView.subSelected) >= old(mascotView.Count()) - 1 + offset then old(mascotView.subSelected) - 1 else old(mascotView.subSelected))
      ensures !old(mascotView.CanDelete()) ==> mascotView.Ui() == old(mascotView.Ui()) && config.Value() == old(config.Value())
    {
      mascotView.DeleteEmoji();
    }

    /** The mascot view's Back; the answer says whether to leave to the menu. */
    method MascotBack() returns (toMenu: bool)
      requires Valid() && screen == ScreenMascot
      modifies mascotView
      ensures Valid() && unchanged(config)
      ensures toMenu <==> !old(mascotView.Editing()) && !old(mascotView.inCategory)
      ensures !mascotView.Editing()
      ensures mascotView.speedInput == old(mascotView.speedInput)
      ensures old(mascotView.editingEmoji) ==> mascotView.Ui() == old(mascotView.Ui()).(editingEmoji := false)
      ensures old(mascotView.editingThreshold) ==> mascotView.Ui() == old(mascotView.Ui()).(editingThreshold := false)
      ensures old(mascotView.editingSpeed) ==> mascotView.Ui() == old(mascotView.Ui()).(editingSpeed := false)
      ensures !old(mascotView.Editing()) && old(mascotView.inCategory) ==>
        mascotView.Ui() == old(mascotView.Ui()).(inCategory := false, subSelected := 0)
      ensures !old(mascotView.Editing()) && !old(mascotView.inCategory) ==> mascotView.Ui() == old(mascotView.Ui())
    {
      toMenu := mascotView.Back();
    }
  }
}
