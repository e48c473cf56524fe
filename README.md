# lunar-statusline configuration editor, modelled in Dafny

The terminal editor of lunar-statusline (`tui/`) lets a user change the
statusline's configuration screen by screen. A main menu leads to the
Sections, Icons & Emojis, Mascot Settings and Display Options screens, each a
controller over one shared, mutable configuration object. A dispatcher owns the
current screen, the unsaved-changes flag, the quit confirmation and the last
error text, and routes every key to the controller of the current screen. A
Notifications controller exists beside them.

This project models that core as imperative Dafny, in the form the Go code
has:

- `Configuration.Config` is a class with one field per section of the Go
  `Config` struct; every value inside it is a datatype. `DefaultConfig` gives
  the values of `config.DefaultConfig`, with its emoji and symbol literals
  written as the characters they stand for (see "## Left out").
- The Go code edits the configuration through `*bool`, `*int` and
  `*[]string` pointers held by the rows of each screen. These become selector values
  (`Bindings`): a row names a field of the configuration, and `GetFlag`,
  `SetBool`, `SetInt`, `SetList` read and write the field it names, with
  lemmas saying nothing else moves.
- Each controller is a class whose methods update its fields and the shared
  `Config`. The `modifies` clauses are field-granular. Each controller
  method states its whole new state in terms of specification functions
  (`Assign`, `SavedIcons`, `CommitThreshold`, `WithFlag`, …), and lemmas
  prove what those functions promise: round trips, idempotence, isolation
  and bounds. The dispatcher's key handlers state its own fields exactly and
  pass on the effects of the controller methods they call; the exceptions
  are listed under "## Left out".
- The dispatcher is `Dispatcher.Model`. Its `Update` is tied to a pure
  function `Step` on the dispatcher's own fields. The Go program's rules
  are proved about `Step`, for example:
  - quitting with unsaved changes always asks first;
  - only the fields of the current screen's controller change;
  - only a successful save clears the unsaved-changes flag.
- Go `int` is the 64-bit `GoText.GoInt`. `strconv.Atoi`, `strconv.Itoa` and
  `strings.TrimSpace` are modelled in `GoText`, with `Atoi(Itoa(n)) == Some(n)`
  proved.
- Every editor is a Bubbles text input with a character limit (20 on Display
  Options, 10 on Icons, 30/4/5 for a mascot frame, threshold and speed, 3 and
  100 for a notification threshold and title). `TextInput.SetValue` is what
  such an input holds after its value is set: tabs and line breaks become
  spaces, other control characters and U+FFFD are dropped, and the text is
  cut to the limit. Every screen puts its text through it when an editor
  opens and when a key is typed.

Things that are outside the program's own logic become parameters:

- Whether writing the configuration to disk succeeded is an input (`saveOk`,
  `errText`). Which write was requested is an output
  (`Persist`: none, save, save and install).
- The Bubble Tea text input widget is modelled as a string buffer. A key
  forwarded to it yields the text the key leaves, `typed`, which the buffer
  holds as `TextInput.SetValue` of it under the input's limit.

Behaviour kept as the Go code has it, though it may surprise a reader:

- The menu's enter handler switches on the literal indices 5 and 6, but the
  menu list has its separator at index 5. The cursor never rests on the
  separator, so "Save & Apply" (index 6) only saves the configuration,
  "Save Config Only" (7) and "Notifications" (4) do nothing, and installing
  cannot be reached from the menu (`Dispatcher.MenuEntriesMisrouted`).
- The mascot screen's dispatcher forwards text only while an emoji or a
  threshold is being edited. Typing into the speed editor is never
  forwarded, so committing a speed edit writes back the value shown when it
  opened. That changes nothing unless the speed's spelling was longer than
  the editor's five characters: a speed of 123456 comes back as 12345
  (`MascotScreen.LongSpeedCut`). The dispatcher's invariant `MascotOk`
  records that the speed buffer holds the current speed, as the editor took
  it, while it is open.
- Opening an editor and confirming it untouched can change a value that does
  not fit the editor: a longer text is cut, and a text with a tab or a
  control character is cleaned (`DisplayOptions.EditUntouched`,
  `MascotScreen.ThresholdEditUntouched`, `MascotScreen.EmojiEditUntouched`,
  `NotificationsScreen.ThresholdEditUntouched`). Icons saved back after a
  load are cut to ten characters in the same way (`IconsScreen.SaveAfterLoad`).
- On the Icons screen, esc while editing writes the buffers back to the
  configuration just as enter does. Only enter marks the configuration
  dirty.
- Mascot thresholds are stored as parsed, without the 0–100 clamp the
  notification thresholds get (`MascotScreen.ThresholdNotClamped`).
- A notification threshold that does not parse is stored as 0
  (`NotificationsScreen.BadThresholdStoresZero`).
- The Notifications controller is not reachable from the dispatcher
  (model.go has no notifications screen). It is modelled as a controller
  on its own.

## Model

| member | source | states |
|---|---|---|
| `Configuration.Config.constructor` | tui/config/config.go:4-14 | the settings a new configuration holds are exactly the given ones |
| `Configuration.DefaultConfig` | tui/config/config.go:149-268 | the defaults have five moon phases, four frames for every mood, positive animation speeds, notification thresholds within 0–100, four strictly increasing moon-phase thresholds, a truncation length below the maximum directory length, every section enabled and a non-empty separator |
| `GoText.Atoi` | tui/ui/views/display.go:71-73 | the parse succeeds exactly when the text is an optional sign followed by at least one digit and its value fits in 64 bits, and the result is then that value |
| `GoText.Pow10Monotone` | tui/ui/views/display.go:71-73 | powers of ten grow with the exponent, the scale the digit bounds below are measured on |
| `GoText.DigitsBelow` | tui/ui/views/display.go:71-73 | a run of `k` digits has a value below 10^k |
| `GoText.DigitsAbove` | tui/ui/views/display.go:71-73 | a run of `k` digits with a nonzero first digit has a value of at least 10^(k-1) |
| `GoText.DigitsPrefixAtMost` | tui/ui/views/display.go:71-73 | a prefix of a digit run never has a larger value than the run |
| `GoText.NatDigitsLeading` | tui/ui/views/display.go:51-63 | the decimal spelling of a number has no leading zero |
| `GoText.NatDigitsCut` | tui/ui/views/display.go:51-63 | the first `k` digits of a longer spelling of `m` lie between 10^(k-1) and 10^k, strictly below `m` |
| `GoText.ItoaCutNonNegative` | tui/ui/views/mascot.go:335-354 | cutting the spelling of a non-negative number still parses, and to a strictly smaller value |
| `GoText.ItoaCutNegative` | tui/ui/views/mascot.go:307-326 | cutting the spelling of a negative number after its sign and a digit still parses, to a negative value strictly above the number |
| `GoText.ItoaLength` | tui/ui/views/display.go:51-63 | the spelling of a 64-bit integer has at most 20 characters |
| `GoText.AtoiItoa` | tui/ui/views/display.go:51-83 | every 64-bit integer's decimal spelling parses back to that integer |
| `GoText.TrimSpace` | tui/ui/views/notifications.go:786 | the result is a contiguous part of the input with no white space at either end, everything before and after it is white space, and an input with no white space at its ends is returned unchanged |
| `TextInput.Sanitize` | tui/ui/views/display.go:108 | the cleaned text holds no break or control character, is no longer than the input, and a clean input is kept as it is |
| `TextInput.SanitizeLength` | tui/ui/views/display.go:108 | cleaning shortens a text by exactly the characters it drops, since a tab or line break becomes one space |
| `TextInput.Clip` | tui/ui/views/display.go:32-34 | the limited text is the input's first `limit` characters, or all of it when it is shorter |
| `TextInput.SetValue` | tui/ui/views/display.go:32-34 | the held text is clean and within the limit, and it equals the given text exactly when that text is clean and within the limit |
| `TextInput.ItoaClean` | tui/ui/views/mascot.go:310 | a decimal spelling has only characters the input keeps |
| `TextInput.SetValueItoa` | tui/ui/views/mascot.go:338 | an input given a decimal spelling holds it cut to the limit |
| `Bindings.SetFlag` | tui/ui/views/sections.go:73-77 | writing a section flag sets that flag and leaves every other flag as it was |
| `Bindings.FlagsExtensional` | tui/ui/views/sections.go:30-37 | the eight flags the Sections rows point at make up the whole enabled-sections record |
| `Bindings.FlipFlag` | tui/ui/views/sections.go:73-77 | toggling a flag negates it and leaves every other flag as it was |
| `Bindings.FlipFlagTwice` | tui/ui/views/sections.go:73-77 | toggling the same flag twice restores the record |
| `Bindings.MascotExtensional` | tui/ui/views/mascot.go:13-23 | the booleans, integers and emoji lists a mascot row can point at make up the whole mascot record |
| `Bindings.SetBool` | tui/ui/views/mascot.go:219-222 | writing through a boolean pointer changes that boolean and nothing else in the mascot settings |
| `Bindings.SetInt` | tui/ui/views/mascot.go:317-326 | writing through an integer pointer changes that integer and nothing else in the mascot settings |
| `Bindings.SetList` | tui/ui/views/mascot.go:363-385 | writing through an emoji-list pointer changes that list and nothing else in the mascot settings |
| `Bindings.SetIntSame` | tui/ui/views/mascot.go:317-323 | writing back the value an integer already has changes nothing |
| `Bindings.FlipBoolTwice` | tui/ui/views/mascot.go:219-222 | toggling a boolean and toggling it back restores the mascot settings |
| `Cursor.Prev` | tui/ui/views/sections.go:57-62 | moving up from a row in range stays in range |
| `Cursor.Next` | tui/ui/views/sections.go:65-70 | moving down from a row in range stays in range |
| `Cursor.PrevWraps` | tui/ui/views/sections.go:57-62 | moving up is the controllers' decrement that wraps from the first row to the last |
| `Cursor.NextWraps` | tui/ui/views/sections.go:65-70 | moving down is the controllers' increment that wraps from the last row to the first |
| `Cursor.PrevNextInverse` | tui/ui/views/sections.go:57-70 | one step down followed by one step up, or the reverse, returns to the same row |
| `Sections.ItemFlagsDistinct` | tui/ui/views/sections.go:30-37 | the eight Sections rows point at eight different flags |
| `Sections.ToggleIsolated` | tui/ui/views/sections.go:30-37 | toggling one row never changes the flag shown in another row |
| `Sections.SectionsView.constructor` | tui/ui/views/sections.go:26-41 | a new Sections screen has its eight rows bound to the given configuration and the cursor on the first row |
| `Sections.SectionsView.UpdateConfig` | tui/ui/views/sections.go:44-54 | every row is rebound to the new configuration and nothing else about the rows changes |
| `Sections.SectionsView.Up` | tui/ui/views/sections.go:57-62 | the cursor moves up one row with wrap-around, including the cases where it starts outside the list |
| `Sections.SectionsView.Down` | tui/ui/views/sections.go:65-70 | the cursor moves down one row with wrap-around, including the cases where it starts outside the list |
| `Sections.SectionsView.Toggle` | tui/ui/views/sections.go:73-77 | exactly the selected row's flag is negated in the configuration; with the cursor out of range nothing changes |
| `Menu.SkipsUpUnique` | tui/ui/views/menu.go:42-51 | the entry that moving up lands on, and the number of steps taken, are determined by the starting entry |
| `Menu.SkipsDownUnique` | tui/ui/views/menu.go:54-63 | the entry that moving down lands on, and the number of steps taken, are determined by the starting entry |
| `Menu.UpAfterDown` | tui/ui/views/menu.go:42-63 | from any non-separator entry, moving down and then up returns to it |
| `Menu.DownAfterUp` | tui/ui/views/menu.go:42-63 | from any non-separator entry, moving up and then down returns to it |
| `Menu.DownFromNotifications` | tui/ui/views/menu.go:25-35 | in the default menu, moving down from Notifications skips the separator and lands on Save & Apply |
| `Menu.UpFromSaveApply` | tui/ui/views/menu.go:25-35 | in the default menu, moving up from Save & Apply skips the separator and lands on Notifications |
| `Menu.DefaultMenuSkipsSeparator` | tui/ui/views/menu.go:24-39 | the default menu's one separator is at index 5 and both directions step over it |
| `Menu.DefaultMenuWraps` | tui/ui/views/menu.go:42-63 | in the default menu, moving down from the last entry reaches the first and moving up from the first reaches the last |
| `Menu.MenuView.constructor` | tui/ui/views/menu.go:24-39 | a new menu holds the eight default entries with the first one selected |
| `Menu.MenuView.Up` | tui/ui/views/menu.go:42-51 | the cursor moves up past any separators, wrapping, to the nearest entry that is not a separator |
| `Menu.MenuView.Down` | tui/ui/views/menu.go:54-63 | the cursor moves down past any separators, wrapping, to the nearest entry that is not a separator |
| `Menu.MenuView.SelectedItem` | tui/ui/views/menu.go:66-68 | the selected item is one of the menu's entries and never the separator |
| `DisplayOptions.DisplayItems` | tui/ui/views/display.go:37-42 | the Display screen has four rows with distinct settings, and exactly the separator row edits text |
| `DisplayOptions.GetValue` | tui/ui/views/display.go:51-63 | the separator row shows the separator itself, and an integer row shows text that parses back to the setting's value |
| `DisplayOptions.Assign` | tui/ui/views/display.go:66-83 | committing text changes only the named setting: the separator is stored verbatim, an integer setting takes the parsed value, unparsable text changes nothing, every other row shows what it showed before, and the moon-phase thresholds and every other section are kept |
| `DisplayOptions.EditUntouched` | tui/ui/views/display.go:32-34 | every integer setting's text fits the input, and opening an editor and confirming it untouched keeps the settings exactly when the setting's text fits the input |
| `DisplayOptions.AssignShownValue` | tui/ui/views/display.go:106-119 | committing the text a setting shows leaves the settings as they were; `EditUntouched` covers the path through the input |
| `DisplayOptions.AssignIdempotent` | tui/ui/views/display.go:66-83 | committing the same text twice is the same as committing it once |
| `DisplayOptions.DisplayView.constructor` | tui/ui/views/display.go:31-48 | a new Display screen has the four rows, the cursor on the first and no editor open |
| `DisplayOptions.DisplayView.SetValue` | tui/ui/views/display.go:66-83 | the configuration becomes the result of `Assign` on the old configuration |
| `DisplayOptions.DisplayView.Up` | tui/ui/views/display.go:86-93 | the cursor moves up with wrap-around, and stays put while an editor is open |
| `DisplayOptions.DisplayView.Down` | tui/ui/views/display.go:96-103 | the cursor moves down with wrap-around, and stays put while an editor is open |
| `DisplayOptions.DisplayView.StartEdit` | tui/ui/views/display.go:106-111 | the editor opens holding the selected setting's current text, as the 20-character input takes it |
| `DisplayOptions.DisplayView.StopEdit` | tui/ui/views/display.go:114-119 | the editor closes and the buffer is committed to the selected setting as `Assign` says |
| `DisplayOptions.DisplayView.CancelEdit` | tui/ui/views/display.go:122-125 | the editor closes; the configuration is not in its frame |
| `DisplayOptions.DisplayView.SetCurrentInput` | tui/ui/views/display.go:128-130 | the editor's buffer becomes the typed text, as the 20-character input takes it |
| `IconsScreen.SavedIcons` | tui/ui/views/icons.go:71-81 | saving the eight buffers always yields exactly five moon phases |
| `IconsScreen.SaveAfterLoad` | tui/ui/views/icons.go:42-81 | loading icons with five moon phases into the buffers and saving them back gives the same icons exactly when every icon fits the 10-character input |
| `IconsScreen.LoadAfterSave` | tui/ui/views/icons.go:42-81 | saving the buffers and loading the result gives back each buffer as the input takes it, so buffers that fit come back unchanged |
| `IconsScreen.SaveAfterLoadAnyMoons` | tui/ui/views/icons.go:42-81 | after a load and a save, the git and directory icons and the first five moons survive as the input takes them, a missing moon is filled from its old buffer, and moons past the fifth are dropped |
| `IconsScreen.SetInputKeepsRows` | tui/ui/views/icons.go:117-119 | typing a text that fits the input into one buffer keeps the eight rows' keys in place |
| `IconsScreen.IconsView.constructor` | tui/ui/views/icons.go:28-57 | a new Icons screen has its buffers loaded from the configuration, the cursor on the first row and no editor open |
| `IconsScreen.IconsView.LoadFromConfig` | tui/ui/views/icons.go:60-68 | each buffer receives its icon from the configuration as the input takes it, and a moon buffer whose phase is missing keeps its text |
| `IconsScreen.IconsView.SaveToConfig` | tui/ui/views/icons.go:71-81 | the configuration's icons become the icons the buffers spell and nothing else in the configuration changes |
| `IconsScreen.IconsView.Up` | tui/ui/views/icons.go:84-91 | the cursor moves up with wrap-around, and stays put while editing |
| `IconsScreen.IconsView.Down` | tui/ui/views/icons.go:94-101 | the cursor moves down with wrap-around, and stays put while editing |
| `IconsScreen.IconsView.StartEdit` | tui/ui/views/icons.go:104-107 | the editor opens on the selected row |
| `IconsScreen.IconsView.StopEdit` | tui/ui/views/icons.go:110-114 | the editor closes and all buffers are saved to the configuration |
| `IconsScreen.IconsView.SetCurrentInput` | tui/ui/views/icons.go:117-119 | only the selected row's buffer changes, to the typed text as the 10-character input takes it |
| `MascotScreen.Categories` | tui/ui/views/mascot.go:56-127 | the Mascot screen lists seven mood categories |
| `MascotScreen.LayoutAgrees` | tui/ui/views/mascot.go:137-193 | the number of rows in a category equals the row count the cursor wraps at, and the emoji rows start at the offset the code uses for them |
| `MascotScreen.LayoutSettingsRows` | tui/ui/views/mascot.go:215-253 | a category's rows start with its enabled toggle, then its threshold if it has one, then the animate toggle and the speed; none of them is an emoji row |
| `MascotScreen.LayoutInjective` | tui/ui/views/mascot.go:215-253 | no two rows of a category do the same thing |
| `MascotScreen.FlipBool` | tui/ui/views/mascot.go:219-222 | toggling negates the pointed-at boolean and keeps every other boolean, number and list |
| `MascotScreen.CommitThreshold` | tui/ui/views/mascot.go:317-326 | a parsed threshold is stored as it is; unparsable text, or a category without a threshold, changes nothing; no other number, no boolean and no list changes |
| `MascotScreen.CommitSpeed` | tui/ui/views/mascot.go:345-354 | only a positive parsed speed is stored, otherwise nothing changes, and nothing but the category's speed can change |
| `MascotScreen.CommitEmoji` | tui/ui/views/mascot.go:289-298 | the edited frame is replaced by the text, all other frames, lists, booleans and numbers are kept, and an index out of range changes nothing |
| `MascotScreen.RemoveAt` | tui/ui/views/mascot.go:378-380 | removing a frame shortens the list by one and shifts the later frames down |
| `MascotScreen.RemoveAtDropsOne` | tui/ui/views/mascot.go:378-380 | the frames left after a removal are the old frames less one copy of the removed one |
| `MascotScreen.DefaultSpeedsPositive` | tui/config/config.go:181-204 | every default animation speed is positive |
| `MascotScreen.CommitsKeepSpeedsPositive` | tui/ui/views/mascot.go:289-354 | no commit or toggle on the Mascot screen can make an animation speed zero or negative |
| `MascotScreen.ThresholdShownValue` | tui/ui/views/mascot.go:307-326 | committing the decimal spelling of the stored threshold leaves the mascot settings as they were; `ThresholdEditUntouched` covers the path through the input |
| `MascotScreen.SpeedShownValue` | tui/ui/views/mascot.go:335-354 | committing the decimal spelling of the stored speed leaves the mascot settings as they were, whether or not it is positive; `SpeedEditUntouched` covers the path through the input |
| `MascotScreen.ThresholdEditUntouched` | tui/ui/views/mascot.go:46-48 | opening the threshold editor and confirming it untouched keeps the settings exactly when the threshold's spelling fits the 4-character input |
| `MascotScreen.SpeedEditUntouched` | tui/ui/views/mascot.go:50-52 | opening the speed editor and confirming it untouched keeps the settings exactly when the speed is not positive or its spelling fits the 5-character input |
| `MascotScreen.EmojiEditUntouched` | tui/ui/views/mascot.go:42-44 | opening a frame editor and confirming it untouched keeps the settings exactly when the frame is clean and fits the 30-character input |
| `MascotScreen.LongSpeedCut` | tui/ui/views/mascot.go:335-354 | a speed of 123456 comes back from an untouched edit as 12345 |
| `MascotScreen.LongThresholdCut` | tui/ui/views/mascot.go:307-326 | a threshold of 12345 comes back from an untouched edit as 1234 |
| `MascotScreen.ThresholdNotClamped` | tui/ui/views/mascot.go:317-326 | thresholds of 250 and -5 are stored as they are |
| `MascotScreen.CategoryBindings` | tui/ui/views/mascot.go:56-127 | the four time-of-day moods share one enabled flag, the other moods have flags of their own, every mood has its own emojis, and exactly the first three have thresholds |
| `MascotScreen.TimeMoodsToggleTogether` | tui/ui/views/mascot.go:87-126 | toggling any time-of-day mood toggles all four of them |
| `MascotScreen.MascotView.constructor` | tui/ui/views/mascot.go:41-134 | a new Mascot screen lists the seven categories over the given configuration, with the first selected and no editor open |
| `MascotScreen.MascotView.Selection` | tui/ui/views/mascot.go:215-253 | the selected row is the enabled toggle at 0, the threshold at 1 when there is one, the animate toggle and speed just before the emoji offset, and an emoji frame from the offset on |
| `MascotScreen.MascotView.Up` | tui/ui/views/mascot.go:147-164 | nothing moves while editing; otherwise the row or category cursor moves up with wrap-around |
| `MascotScreen.MascotView.Down` | tui/ui/views/mascot.go:167-184 | nothing moves while editing; otherwise the row or category cursor moves down with wrap-around |
| `MascotScreen.MascotView.StartEditEmoji` | tui/ui/views/mascot.go:279-286 | for an existing frame the editor opens holding that frame as the 30-character input takes it; for an index past the end nothing happens |
| `MascotScreen.MascotView.StopEditEmoji` | tui/ui/views/mascot.go:289-298 | the editor closes and the buffer is committed as `CommitEmoji` says |
| `MascotScreen.MascotView.CancelEditEmoji` | tui/ui/views/mascot.go:301-304 | the emoji editor closes and nothing else on the screen changes |
| `MascotScreen.MascotView.StartEditThreshold` | tui/ui/views/mascot.go:307-314 | for a category with a threshold the editor opens holding its value's spelling as the 4-character input takes it; otherwise nothing happens |
| `MascotScreen.MascotView.StopEditThreshold` | tui/ui/views/mascot.go:317-326 | the editor closes and the buffer is committed as `CommitThreshold` says |
| `MascotScreen.MascotView.CancelEditThreshold` | tui/ui/views/mascot.go:329-332 | the threshold editor closes and nothing else on the screen changes |
| `MascotScreen.MascotView.StartEditSpeed` | tui/ui/views/mascot.go:335-342 | the speed editor opens holding the category's current speed's spelling as the 5-character input takes it |
| `MascotScreen.MascotView.StopEditSpeed` | tui/ui/views/mascot.go:345-354 | the editor closes and the buffer is committed as `CommitSpeed` says |
| `MascotScreen.MascotView.CancelEditSpeed` | tui/ui/views/mascot.go:357-360 | the speed editor closes and nothing else on the screen changes |
| `MascotScreen.MascotView.Enter` | tui/ui/views/mascot.go:196-254 | an open editor is committed and closed; in the category list, enter opens the category on its first row; inside a category, it does what the selected row does |
| `MascotScreen.MascotView.EnterRow` | tui/ui/views/mascot.go:215-253 | the two toggle rows negate their flags, and the threshold, speed and emoji rows open their editors |
| `MascotScreen.MascotView.Back` | tui/ui/views/mascot.go:257-276 | an open editor is closed without committing; otherwise a category is left for the list; and it reports leaving the screen exactly when neither was the case |
| `MascotScreen.MascotView.AddEmoji` | tui/ui/views/mascot.go:363-368 | inside a category and not editing, a new frame is appended to its emoji list; otherwise the configuration does not change |
| `MascotScreen.MascotView.DeleteEmoji` | tui/ui/views/mascot.go:371-385 | on an emoji row of a list with more than one frame, exactly that frame is removed and the cursor moves up if it was on the last frame; otherwise nothing changes |
| `MascotScreen.MascotView.SetCurrentInput` | tui/ui/views/mascot.go:388-399 | the buffer of whichever editor is open becomes the typed text as that input takes it; with no editor open nothing changes |
| `NotificationsScreen.NotificationsExtensional` | tui/ui/views/notifications.go:282-343 | the toggles the Notifications rows point at, together with the rest, make up the whole notifications record |
| `NotificationsScreen.WithFlag` | tui/ui/views/notifications.go:282-343 | writing one notification toggle sets it and leaves every other toggle and every non-toggle field as it was |
| `NotificationsScreen.ToggleTwice` | tui/ui/views/notifications.go:282-343 | toggling a notification setting twice restores it |
| `NotificationsScreen.WithThreshold` | tui/ui/views/notifications.go:362-376 | writing one channel's threshold sets it and leaves every other channel's threshold and every other field as it was |
| `NotificationsScreen.WithThresholdSame` | tui/ui/views/notifications.go:362-376 | writing back the threshold a channel already has changes nothing |
| `NotificationsScreen.ParseThreshold` | tui/ui/views/notifications.go:785-801 | the text is trimmed; blank text means 0; it fails exactly when the trimmed text is not an integer; and a parsed value is clamped to 0–100 |
| `NotificationsScreen.CommittedThreshold` | tui/ui/views/notifications.go:246-254 | the stored threshold is always within 0–100, and is 0 when the text does not parse |
| `NotificationsScreen.ItoaUnpadded` | tui/ui/views/notifications.go:781-783 | the threshold editor's initial text has no white space for the parser to trim |
| `NotificationsScreen.ThresholdEditUntouched` | tui/ui/views/notifications.go:57-60 | with the 3-character threshold input, confirming an untouched threshold editor keeps a value within 0–100 and clamps one outside it |
| `NotificationsScreen.ThresholdShownValue` | tui/ui/views/notifications.go:246-254 | committing the decimal spelling of a threshold keeps a value within 0–100 and clamps one outside it |
| `NotificationsScreen.BadThresholdStoresZero` | tui/ui/views/notifications.go:246-254 | text such as "7%" fails to parse and is stored as 0, and blank text parses as 0 |
| `NotificationsScreen.TruncateStr` | tui/ui/views/notifications.go:803-808 | a short string is kept; a longer one is cut to exactly the limit in bytes, keeping its start and ending in "..." |
| `NotificationsScreen.TruncateStrIdempotent` | tui/ui/views/notifications.go:803-808 | truncating twice is truncating once |
| `NotificationsScreen.MaxSubItems` | tui/ui/views/notifications.go:218-228 | every notification category has at least three rows |
| `NotificationsScreen.SubItemsAgree` | tui/ui/views/notifications.go:218-228 | a row does something exactly when its index is below the category's row count, so the cursor's bound and the action table agree |
| `NotificationsScreen.FirstRowTogglesEnabled` | tui/ui/views/notifications.go:307-311 | the first row of every category toggles that category's enabled flag |
| `NotificationsScreen.DesktopOnlyRows` | tui/ui/views/notifications.go:282-305 | the title editor, sound chooser and volume chooser are reached only from rows 3, 5 and 6 of the desktop category |
| `NotificationsScreen.FirstOrZeroUnique` | tui/ui/views/notifications.go:134-143 | the option the chooser preselects is determined by the stored value |
| `NotificationsScreen.SoundConfirmUnmoved` | tui/ui/views/notifications.go:134-143 | opening the sound chooser preselects the stored sound, or "(None)" for a path not among the options |
| `NotificationsScreen.VolumeConfirmUnmoved` | tui/ui/views/notifications.go:146-155 | opening the volume chooser preselects the stored volume, or the first option for a volume not among them |
| `NotificationsScreen.NotificationsView.constructor` | tui/ui/views/notifications.go:56-88 | a new Notifications screen has the five categories, the three volume options, the given sounds with the stored one preselected, and nothing open |
| `NotificationsScreen.NotificationsView.SelectCurrentSound` | tui/ui/views/notifications.go:134-143 | the selected sound becomes the first option whose path is the stored one, or the first option if none is |
| `NotificationsScreen.NotificationsView.SelectCurrentVolume` | tui/ui/views/notifications.go:146-155 | the selected volume becomes the first option equal to the stored one, or the first option if none is |
| `NotificationsScreen.NotificationsView.Up` | tui/ui/views/notifications.go:158-185 | the open chooser's cursor, otherwise the row cursor, otherwise the category cursor moves up with wrap-around |
| `NotificationsScreen.NotificationsView.Down` | tui/ui/views/notifications.go:188-215 | the open chooser's cursor, otherwise the row cursor, otherwise the category cursor moves down with wrap-around |
| `NotificationsScreen.NotificationsView.GetThreshold` | tui/ui/views/notifications.go:345-360 | the threshold read is the selected category's channel threshold |
| `NotificationsScreen.NotificationsView.SetThreshold` | tui/ui/views/notifications.go:362-376 | the selected category's threshold becomes the value and nothing else in the configuration changes |
| `NotificationsScreen.NotificationsView.Perform` | tui/ui/views/notifications.go:282-343 | the selected row's action is carried out: a toggle negates its flag, and an editor or chooser opens on the stored value |
| `NotificationsScreen.NotificationsView.OpenThreshold` | tui/ui/views/notifications.go:321-324 | the threshold editor opens holding the selected channel's threshold, as the 3-character input takes it |
| `NotificationsScreen.NotificationsView.OpenTitle` | tui/ui/views/notifications.go:292-295 | the title editor opens holding the stored desktop title, as the 100-character input takes it |
| `NotificationsScreen.NotificationsView.OpenSound` | tui/ui/views/notifications.go:298-300 | the sound chooser opens with the stored sound preselected |
| `NotificationsScreen.NotificationsView.OpenVolume` | tui/ui/views/notifications.go:301-303 | the volume chooser opens with the stored volume preselected |
| `NotificationsScreen.NotificationsView.ConfirmMode` | tui/ui/views/notifications.go:232-261 | the open chooser or editor is committed in the code's order of precedence and closed; only the notifications settings change |
| `NotificationsScreen.NotificationsView.CommitSound` | tui/ui/views/notifications.go:232-237 | the chosen sound's path becomes the desktop sound path and the chooser closes |
| `NotificationsScreen.NotificationsView.CommitVolume` | tui/ui/views/notifications.go:239-244 | the chosen volume becomes the desktop volume and the chooser closes |
| `NotificationsScreen.NotificationsView.CommitTitle` | tui/ui/views/notifications.go:257-261 | the edited text becomes the desktop title and the editor closes |
| `NotificationsScreen.NotificationsView.Enter` | tui/ui/views/notifications.go:231-280 | an open chooser or editor is committed; in the category list, enter opens the category on its first row; inside a category, it performs the selected row's action |
| `NotificationsScreen.NotificationsView.Back` | tui/ui/views/notifications.go:379-401 | an open chooser or editor closes without committing; otherwise a category is left; and it reports leaving the screen exactly when neither was the case |
| `NotificationsScreen.NotificationsView.SetCurrentInput` | tui/ui/views/notifications.go:404-412 | the threshold buffer, else the title buffer, receives the typed text as its input takes it; with no editor open nothing changes |
| `Preview.ContextText` | tui/ui/views/preview.go:42-72 | the context part starts with the moon sample when moons are on, and otherwise is the token count, the percentage or both, as enabled |
| `Preview.SeparatorOf` | tui/ui/views/preview.go:86-89 | the separator used is never empty and is the configured one when that is set |
| `Preview.JoinAppend` | tui/ui/views/preview.go:91 | joining one more part adds the separator and that part at the end |
| `Preview.JoinLength` | tui/ui/views/preview.go:91 | the joined line is as long as its parts together plus one separator between each two neighbours |
| `Preview.PartsOrdered` | tui/ui/views/preview.go:26-84 | the preview's parts appear in the fixed order git, directory, model, context, mascot |
| `Preview.PartsPresence` | tui/ui/views/preview.go:26-84 | a section's text is in the preview exactly when the section is enabled, and every part is an enabled section's text |
| `Preview.AllDisabledIsEmpty` | tui/ui/views/preview.go:22-91 | with every section disabled the preview is empty |
| `Preview.AllEnabledShowsFive` | tui/ui/views/preview.go:26-84 | with every section enabled the preview has five parts |
| `Preview.PreviewView.constructor` | tui/ui/views/preview.go:16-18 | the preview is bound to the given configuration |
| `Preview.PreviewView.ContextPart` | tui/ui/views/preview.go:42-72 | the step-by-step assembly of the context part gives `ContextText` |
| `Preview.PreviewView.Render` | tui/ui/views/preview.go:21-91 | the rendered line is the enabled sections' texts, in order, joined by the separator |
| `Dispatcher.QuitRequest` | tui/ui/model.go:138-143 | quitting happens at once exactly when there are no unsaved changes, and then nothing else changes; otherwise the quit confirmation opens, which is the only change; no save is requested |
| `Dispatcher.ConfirmStep` | tui/ui/model.go:117-134 | in the quit confirmation, y quits, s saves, installs and quits, n or esc close it, and unsaved changes are cleared only by a successful save; a failed save records its error text, and every other key keeps the error |
| `Dispatcher.MenuSave` | tui/ui/model.go:189-204 | a save is always requested; the program quits exactly when it succeeded, and then the error is empty and nothing is unsaved; a failed one records "Save failed: " and the error, keeps the unsaved flag and stays; the screen and the confirmation are kept |
| `Dispatcher.MenuStep` | tui/ui/model.go:172-214 | the screen changes only by enter on the first four entries; a save is requested exactly by enter at the literal indices 5 and 6, with installing only at 5; the program quits exactly on q with nothing unsaved or on a successful save; q otherwise opens the confirmation; every other key changes nothing |
| `Dispatcher.SectionsStep` | tui/ui/model.go:216-231 | a toggle key marks the configuration dirty, esc or q returns to the menu, and nothing else in the dispatcher changes |
| `Dispatcher.EditorScreenStep` | tui/ui/model.go:233-263 | only enter while editing marks the configuration dirty, and leaving for the menu happens only when not editing |
| `Dispatcher.MascotStep` | tui/ui/model.go:265-318 | which mascot keys mark the configuration dirty, and that the screen returns to the menu only when the view is at its top level |
| `Dispatcher.ScreenStep` | tui/ui/model.go:154-166 | a screen's key handler can only set the dirty flag, never on the menu, and can only change the screen to the menu |
| `Dispatcher.Step` | tui/ui/model.go:108-170 | quitting with unsaved changes only happens from the quit confirmation; only a successful save clears the dirty flag; installing is requested only from the confirmation or the literal menu index 5; the screen changes only along the menu's routes |
| `Dispatcher.MenuEntriesMisrouted` | tui/ui/model.go:179-205 | from the default menu, enter never installs; "Save & Apply" only saves; "Save Config Only" and "Notifications" do nothing |
| `Dispatcher.Model.constructor` | tui/ui/model.go:82-100 | a new editor starts on the menu with nothing dirty, no error and no confirmation open |
| `Dispatcher.Model.Update` | tui/ui/model.go:108-170 | the dispatcher's new state and its outcome are `Step` of the old state, and only the current screen's controller and, off the menu, the configuration can change |
| `Dispatcher.Model.ConfirmKey` | tui/ui/model.go:117-134 | a key in the quit confirmation does what `ConfirmStep` says |
| `Dispatcher.Model.GlobalKey` | tui/ui/model.go:137-152 | ctrl+c and ctrl+s do what `Step` says, whatever screen is shown |
| `Dispatcher.Model.Route` | tui/ui/model.go:154-166 | a key reaches only the current screen's controller |
| `Dispatcher.Model.UpdateMenu` | tui/ui/model.go:172-214 | the outcome is `MenuStep`; up and down move the menu cursor past separators; other keys leave it |
| `Dispatcher.Model.UpdateSections` | tui/ui/model.go:216-231 | the shell is `SectionsStep`; up and down move the cursor; a toggle key flips exactly the selected flag; other keys leave the configuration |
| `Dispatcher.Model.UpdateIcons` | tui/ui/model.go:233-263 | the shell is `EditorScreenStep`; while editing, enter or esc save the buffers and other keys type; otherwise keys move, open the editor or leave |
| `Dispatcher.Model.UpdateDisplay` | tui/ui/model.go:320-350 | the shell is `EditorScreenStep`; while editing, enter commits, esc discards and other keys type; otherwise keys move, open the editor or leave |
| `Dispatcher.Model.UpdateMascot` | tui/ui/model.go:265-318 | the shell is `MascotStep`; emoji and threshold editors receive typed keys; the speed editor never does, so a speed commit stores the buffer it opened with, which changes nothing when the speed fits the input |
| `Dispatcher.Model.MascotEditorKey` | tui/ui/model.go:265-283 | while an emoji or threshold editor is open, enter closes it and commits its buffer as `CommitEmoji` or `CommitThreshold` says and marks dirty, esc closes it and keeps the configuration, and other keys type into the open buffer |
| `Dispatcher.Model.MascotSpeedKey` | tui/ui/model.go:287-317 | while the speed editor is open, no key changes its buffer, enter closes it and commits the buffer, which changes nothing when the speed fits the input, and leaving closes it; on enter, esc and q only the speed-editor flag of the view changes, and on every other key the view is unchanged |
| `Dispatcher.Model.MascotSpeedOtherKey` | tui/ui/model.go:287-317 | during a speed edit every key but enter leaves the buffer and the configuration alone, and esc or q close the editor, with no other field of the view changing |
| `Dispatcher.Model.MascotSpeedRefusedKey` | tui/ui/model.go:287-311 | during a speed edit the cursor keys, the frame keys, space and x leave the view, the buffer and the configuration exactly as they were |
| `Dispatcher.Model.MascotCommitSpeed` | tui/ui/views/mascot.go:345-354 | enter during a speed edit closes it, with no other field of the view changing, and stores the buffer as `CommitSpeed` says, which changes nothing when the speed fits the input |
| `Dispatcher.Model.MascotViewKey` | tui/ui/model.go:287-317 | with no editor open, the shell is `MascotStep` and a toggle key in the category list flips that category's enabled flag |
| `Dispatcher.Model.MascotToggleKey` | tui/ui/model.go:295-305 | space or x never moves the view; it flips the selected category's enabled flag from the list and, acting as enter, on a category's first row; on any other row it changes nothing |
| `Dispatcher.Model.MascotLeaveKey` | tui/ui/model.go:312-315 | esc or q leaves an opened category for the list with the row cursor back at 0, and from the list returns to the menu with the view unchanged |
| `Dispatcher.Model.MascotMove` | tui/ui/model.go:287-290 | up and down change nothing while editing; otherwise they move the row cursor inside a category, or the category cursor on the list, with wrap-around, and never change the configuration |
| `Dispatcher.Model.MascotEnter` | tui/ui/model.go:291-293 | enter always marks the configuration dirty; it commits and closes an open editor as `CommitEmoji`, `CommitThreshold` or `CommitSpeed` says, opens a category from the list, and on a category row flips its flag or opens its editor holding the stored value as the input takes it; a speed commit only closes the speed editor in the view and changes nothing in the configuration when the speed fits the input |
| `Dispatcher.Model.MascotViewEnter` | tui/ui/views/mascot.go:196-254 | with no speed edit open, the view's enter has exactly the effect on the view and the configuration that `MascotScreen.MascotView.Enter` gives |
| `Dispatcher.Model.MascotFlipCategory` | tui/ui/model.go:296-300 | the selected category's enabled flag is negated and the configuration marked dirty |
| `Dispatcher.Model.MascotFrames` | tui/ui/model.go:306-311 | adding or deleting frames marks the configuration dirty and does nothing while an editor is open; a adds the new frame at the end of an opened category's list; d and backspace remove the frame under the cursor unless it is the only one, moving the cursor up from the last frame |
| `Dispatcher.Model.MascotAddFrame` | tui/ui/views/mascot.go:363-369 | in an opened category with no editor open the new frame is appended to its list; otherwise nothing changes |
| `Dispatcher.Model.MascotDeleteFrame` | tui/ui/views/mascot.go:371-386 | a deletable frame is removed as `RemoveAt` says and the cursor moves up from the last frame; otherwise nothing changes |
| `Dispatcher.Model.MascotBack` | tui/ui/model.go:312-316 | stepping back closes whichever editor is open and changes nothing else; with none open it leaves a category for the list with the row cursor at 0, or on the list changes nothing and reports leaving; it never changes the configuration |

Proof helpers carry no row: `MascotScreen.SixDigitCut`, `FiveDigitSpelling` and `FiveDigitCut` spell the literal numbers behind `LongSpeedCut` and `LongThresholdCut`, and `NotificationsScreen.NotANumber` and `Blank` work out how the literal texts `"7%"` and `"  "` parse, for `BadThresholdStoresZero`. `GoText.TrimmedAt`, `InfixOfSlices` and `SpacesOfSuffix` carry the proof of `TrimSpace`.

## Left out

- Reading and writing the configuration file (`tui/config/io.go`: `Load`, `Save`, `SaveAndInstall`) is I/O. The model takes the save's success and error text as inputs and reports which write was requested.
- `loadSoundOptions` lists sound files on disk. The sounds are a given sequence whose first entry is "(None)" with an empty path.
- `PlaySelectedSound` starts an audio player, which is I/O.
- `floatToStr`, `parseVolume`, `getCurrentSoundName` and `getCurrentVolumeName` only format volumes and names for display. The volume float64 is a real that the model only copies and compares.
- All rendering is left out: the `Render` and `View` methods, `styles.go`, `renderHeader` and `generateSparkles`. `Preview.PreviewView.Render` is the exception: it builds a plain string.
- The Bubble Tea text input's own editing behaviour (cursor movement, insertion, focus, width) is left out: the widget library is not part of this model. A forwarded key is modelled as the text it leaves, held as `TextInput.SetValue` of it: cleaned, then cut to the input's character limit.
- TextInput.Sanitize: follows the cleaning the Bubbles input applies when a value is set, as described above; the widget's source is not part of this model, so any further Unicode handling it has is not captured.
- `Init`, window-size messages and `main.go` are program start-up and terminal plumbing.
- `OrigConfig` in model.go is stored but never read, so it is not modelled.
- The Mascot category labels and descriptions (mascot.go:58-123) are display text and are not modelled. The other screens keep their labels as functions.
- The configuration's version, colour and waiting-indicator settings are never edited by the editor. They are kept as plain fields of `Config` that no method writes.
- DisplayOptions.GetValue and DisplayOptions.DisplayView.SetValue: the fall-through for an unknown key (display.go:62 and 82) cannot occur, because the keys are a closed enumeration.
- NotificationsScreen.TruncateStr: requires a limit of at least 3 for a string longer than the limit. For smaller limits the Go slice expression panics.
- Dispatcher.Model.Update: for the controllers, states only which one may change. What the change is is stated by the `Update…` handlers and the controllers' own methods.
- Dispatcher.Model.UpdateMascot: states the dispatcher's fields, the typing and speed-edit cases and the category flip. The other view effects are stated by the handlers it calls (`MascotEditorKey`, `MascotSpeedKey`, `MascotViewKey`).
- Dispatcher.Model.MascotViewKey: states the dispatcher's fields and the category flip. The view effects of each key are stated by the handler it calls (`MascotMove`, `MascotEnter`, `MascotToggleKey`, `MascotFrames`, `MascotLeaveKey`).
- The emoji and symbol literals of `config.DefaultConfig` (tui/config/config.go:173-218) appear in the source text as UTF-8 bytes read as Mac Roman, for example `"üåë"` for the new-moon emoji and `" ‚Ä¢ "` for the separator. `Configuration.DefaultConfig` uses the decoded code points (`"🌑"`, `" • "`), which is what the compiled program holds.
- Preview.ContextText: when moons are enabled, states only that the text starts with the moon sample. `Preview.PreviewView.ContextPart` and the function's definition give the exact text.
