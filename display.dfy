/** The Display Options screen: four settings, one of them text (the section
    separator) and three of them integers, edited one at a time through a
    text buffer. */
module DisplayOptions {
  import opened GoText
  import opened Configuration
  import opened Cursor
  import TextInput

  /** The four settings, by the key the source switches on. */
  datatype DisplayKey = SeparatorKey | DirMaxLenKey | DirTruncateKey | TokenKFormatKey

  datatype DisplayItem = DisplayItem(key: DisplayKey, isString: bool)

  /** The key, label and help text a row is shown with. */
  function KeyText(k: DisplayKey): string
  {
    match k
    case SeparatorKey => "separator"
    case DirMaxLenKey => "dir_max_len"
    case DirTruncateKey => "dir_truncate"
    case TokenKFormatKey => "token_k_format"
  }

  function Label(k: DisplayKey): string
  {
    match k
    case SeparatorKey => "Separator"
    case DirMaxLenKey => "Directory Max Length"
    case DirTruncateKey => "Directory Truncate To"
    case TokenKFormatKey => "Token K Format"
  }

  function Description(k: DisplayKey): string
  {
    match k
    case SeparatorKey => "Text between sections"
    case DirMaxLenKey => "Maximum directory name length"
    case DirTruncateKey => "Length to truncate directory to"
    case TokenKFormatKey => "Threshold for showing as 'k' format"
  }

  /** The rows of the screen, top to bottom. */
  function DisplayItems(): (r: seq<DisplayItem>)
    ensures |r| == 4
    ensures forall i, j :: 0 <= i < j < |r| ==> r[i].key != r[j].key
    ensures forall i :: 0 <= i < |r| ==> (r[i].isString <==> r[i].key == SeparatorKey)
  {
    [ DisplayItem(SeparatorKey, true), DisplayItem(DirMaxLenKey, false),
      DisplayItem(DirTruncateKey, false), DisplayItem(TokenKFormatKey, false) ]
  }

  /** The integer setting an integer key names. */
  function IntSetting(s: Settings, key: DisplayKey): GoInt
    requires key != SeparatorKey
  {
    match key
    case DirMaxLenKey => s.thresholds.directoryMaxLength
    case DirTruncateKey => s.thresholds.directoryTruncateTo
    case TokenKFormatKey => s.thresholds.tokenKFormat
  }

  /** The text shown for a setting: the separator itself, or the decimal
      spelling of an integer, which parses back to that integer. */
  function GetValue(s: Settings, item: DisplayItem): (r: string)
    ensures item.key == SeparatorKey ==> r == s.display.separator
    ensures item.key != SeparatorKey ==> Atoi(r) == Some(IntSetting(s, item.key))
  {
    match item.key
    case SeparatorKey => s.display.separator
    case DirMaxLenKey => AtoiItoa(s.thresholds.directoryMaxLength); Itoa(s.thresholds.directoryMaxLength)
    case DirTruncateKey => AtoiItoa(s.thresholds.directoryTruncateTo); Itoa(s.thresholds.directoryTruncateTo)
    case TokenKFormatKey => AtoiItoa(s.thresholds.tokenKFormat); Itoa(s.thresholds.tokenKFormat)
  }

  /** The settings after committing `value` to `item`. The separator takes
      the text as it is; an integer setting takes the parsed value, with no
      range check, and a text that does not parse leaves everything as it
      was. Nothing outside the named setting changes. */
  function Assign(s: Settings, item: DisplayItem, value: string): (r: Settings)
    ensures r.(display := s.display, thresholds := s.thresholds) == s
    ensures r.thresholds.moonPhases == s.thresholds.moonPhases
    ensures item.key == SeparatorKey ==> GetValue(r, item) == value
    ensures item.key != SeparatorKey && Atoi(value).Some? ==> IntSetting(r, item.key) == Atoi(value).value
    ensures item.key != SeparatorKey && Atoi(value).None? ==> r == s
    ensures forall other: DisplayItem :: other.key != item.key ==> GetValue(r, other) == GetValue(s, other)
  {
    match item.key
    case SeparatorKey => s.(display := s.display.(separator := value))
    case DirMaxLenKey =>
      (match Atoi(value)
       case Some(v) => s.(thresholds := s.thresholds.(directoryMaxLength := v))
       case None => s)
    case DirTruncateKey =>
      (match Atoi(value)
       case Some(v) => s.(thresholds := s.thresholds.(directoryTruncateTo := v))
       case None => s)
    case TokenKFormatKey =>
      (match Atoi(value)
       case Some(v) => s.(thresholds := s.thresholds.(tokenKFormat := v))
       case None => s)
  }

  /** Committing the text a setting is shown as gives back the same
      settings. */
  lemma AssignShownValue(s: Settings, item: DisplayItem)
    ensures Assign(s, item, GetValue(s, item)) == s
  {
    match item.key
    case SeparatorKey =>
    case DirMaxLenKey => AtoiItoa(s.thresholds.directoryMaxLength);
    case DirTruncateKey => AtoiItoa(s.thresholds.directoryTruncateTo);
    case TokenKFormatKey => AtoiItoa(s.thresholds.tokenKFormat);
  }

  /** Committing twice is committing once. */
  lemma AssignIdempotent(s: Settings, item: DisplayItem, value: string)
    ensures Assign(Assign(s, item, value), item, value) == Assign(s, item, value)
  {
  }

  /** The character limit of the screen's text input. */
  const InputLimit: nat := 20

  /** Opening the editor and confirming it untouched keeps the settings
      exactly when the input holds the setting's text unchanged: always for
      the integers, whose spelling is at most twenty characters, and for a
      separator only when it is clean and at most twenty characters long; a
      longer separator comes back cut to its first twenty. */
  lemma EditUntouched(s: Settings, item: DisplayItem)
    ensures item.key != SeparatorKey ==> TextInput.Fits(GetValue(s, item), InputLimit)
    ensures Assign(s, item, TextInput.SetValue(GetValue(s, item), InputLimit)) == s
            <==> TextInput.Fits(GetValue(s, item), InputLimit)
  {
    var v := GetValue(s, item);
    if item.key != SeparatorKey {
      ItoaLength(IntSetting(s, item.key));
      TextInput.ItoaClean(IntSetting(s, item.key));
    }
    if TextInput.Fits(v, InputLimit) {
      AssignShownValue(s, item);
    } else if item.key == SeparatorKey {
      assert GetValue(Assign(s, item, TextInput.SetValue(v, InputLimit)), item) != v;
    }
  }

  class DisplayView {
    const items: seq<DisplayItem>
    var selected: int
    var editing: bool
    /** The text buffer of the editor. */
    var input: string
    const config: Config

    ghost predicate Valid()
      reads this
    {
      |items| == 4 && 0 <= selected < |items|
    }

    constructor (cfg: Config)
      ensures Valid() && items == DisplayItems() && config == cfg && selected == 0 && !editing
    {
      items := DisplayItems();
      selected := 0;
      editing := false;
      input := "";
      config := cfg;
    }

    /** Write `value` to the setting `item` names. */
    method SetValue(item: DisplayItem, value: string)
      modifies config`display, config`thresholds
      ensures config.Value() == Assign(old(config.Value()), item, value)
    {
      match item.key
      case SeparatorKey =>
        config.display := config.display.(separator := value);
      case DirMaxLenKey =>
        var p := Atoi(value);
        if p.Some? {
          config.thresholds := config.thresholds.(directoryMaxLength := p.value);
        }
      case DirTruncateKey =>
        var p := Atoi(value);
        if p.Some? {
          config.thresholds := config.thresholds.(directoryTruncateTo := p.value);
        }
      case TokenKFormatKey =>
        var p := Atoi(value);
        if p.Some? {
          config.thresholds := config.thresholds.(tokenKFormat := p.value);
        }
    }

    /** One row up, wrapping; the cursor stays put while editing. */
    method Up()
      requires Valid()
      modifies this`selected
      ensures Valid()
      ensures old(editing) ==> selected == old(selected)
      ensures !old(editing) ==> selected == Prev(old(selected), |items|)
    {
      if !editing {
        PrevWraps(selected, |items|);
        selected := selected - 1;
        if selected < 0 {
          selected := |items| - 1;
        }
      }
    }

    /** One row down, wrapping; the cursor stays put while editing. */
    method Down()
      requires Valid()
      modifies this`selected
      ensures Valid()
      ensures old(editing) ==> selected == old(selected)
      ensures !old(editing) ==> selected == Next(old(selected), |items|)
    {
      if !editing {
        NextWraps(selected, |items|);
        selected := selected + 1;
        if selected >= |items| {
          selected := 0;
        }
      }
    }

    /** Open the editor on the selected setting, filled with its current
        text as the input holds it. */
    method StartEdit()
      requires Valid()
      modifies this`input, this`editing
      ensures editing && input == TextInput.SetValue(GetValue(config.Value(), items[selected]), InputLimit)
    {
      var item := items[selected];
      input := TextInput.SetValue(GetValue(config.Value(), item), InputLimit);
      editing := true;
    }

    /** Commit the buffer to the selected setting and close the editor. */
    method StopEdit()
      requires Valid()
      modifies this`editing, config`display, config`thresholds
      ensures !editing
      ensures config.Value() == Assign(old(config.Value()), items[selected], input)
    {
      var item := items[selected];
      SetValue(item, input);
      editing := false;
    }

    /** Replace the editor's text, as a key forwarded to the text input
        does; the input keeps it clean and within its limit. */
    method SetCurrentInput(text: string)
      modifies this`input
      ensures input == TextInput.SetValue(text, InputLimit)
    {
      input := TextInput.SetValue(text, InputLimit);
    }

    /** Close the editor without writing anything. */
    method CancelEdit()
      modifies this`editing
      ensures !editing
    {
      editing := false;
    }
  }
}
