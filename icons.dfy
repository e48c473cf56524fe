/** The Icons & Emojis screen: eight text buffers, one per icon (the two git
    states, the directory and the five moon phases), loaded from the
    configuration when the screen is built and written back as a whole when
    an edit ends. */
module IconsScreen {
  import opened Configuration
  import opened Cursor
  import TextInput

  /** The eight icons the screen edits. */
  datatype IconKey = GitCleanIcon | GitDirtyIcon | DirectoryIcon | MoonIcon(phase: nat)

  /** A row: which icon, and the text buffer editing it. */
  datatype IconItem = IconItem(key: IconKey, input: string)

  /** The key, label and help text a row is shown with. */
  function KeyText(k: IconKey): string
  {
    match k
    case GitCleanIcon => "git_clean"
    case GitDirtyIcon => "git_dirty"
    case DirectoryIcon => "directory"
    case MoonIcon(p) => if p == 1 then "moon_1" else if p == 2 then "moon_2" else if p == 3 then "moon_3"
                        else if p == 4 then "moon_4" else "moon_5"
  }

  function Label(k: IconKey): string
  {
    match k
    case GitCleanIcon => "Git Clean"
    case GitDirtyIcon => "Git Dirty"
    case DirectoryIcon => "Directory"
    case MoonIcon(p) => if p == 1 then "Moon Phase 1" else if p == 2 then "Moon Phase 2" else if p == 3 then "Moon Phase 3"
                        else if p == 4 then "Moon Phase 4" else "Moon Phase 5"
  }

  function Description(k: IconKey): string
  {
    match k
    case GitCleanIcon => "Icon when git status is clean"
    case GitDirtyIcon => "Icon when there are uncommitted changes"
    case DirectoryIcon => "Icon for directory name"
    case MoonIcon(p) =>
      if p == 1 then "First moon phase (0-20%)" else if p == 2 then "Second moon phase (20-40%)"
      else if p == 3 then "Third moon phase (40-60%)" else if p == 4 then "Fourth moon phase (60-80%)"
      else "Fifth moon phase (80-100%)"
  }

  /** The rows of a new screen, top to bottom, with empty buffers. */
  function IconItems(): (r: seq<IconItem>)
    ensures |r| == 8
  {
    [ IconItem(GitCleanIcon, ""), IconItem(GitDirtyIcon, ""), IconItem(DirectoryIcon, ""),
      IconItem(MoonIcon(1), ""), IconItem(MoonIcon(2), ""), IconItem(MoonIcon(3), ""),
      IconItem(MoonIcon(4), ""), IconItem(MoonIcon(5), "") ]
  }

  /** Number of moon buffers. */
  const MoonSlots := 5

  /** The character limit of each buffer's text input. */
  const InputLimit: nat := 10

  /** What a buffer holds after its value is set to `s`. */
  function Held(s: string): string
  {
    TextInput.SetValue(s, InputLimit)
  }

  /** The buffer contents of a list of rows. */
  function Inputs(items: seq<IconItem>): (r: seq<string>)
    ensures |r| == |items| && forall i :: 0 <= i < |items| ==> r[i] == items[i].input
  {
    seq(|items|, i requires 0 <= i < |items| => items[i].input)
  }

  /** The buffers after loading `ic` over `b`: the first three take the git
      and directory icons; moon buffer `i` takes moon `i` when the
      configuration has one, and keeps what it held otherwise. Each loaded
      icon is held as the input holds it. */
  function LoadedInputs(b: seq<string>, ic: Icons): (r: seq<string>)
    requires |b| == 8
    ensures |r| == 8
  {
    [Held(ic.gitClean), Held(ic.gitDirty), Held(ic.directory)]
    + seq(MoonSlots, i requires 0 <= i < MoonSlots => if i < |ic.moons| then Held(ic.moons[i]) else b[3 + i])
  }

  /** Every icon is clean and within the input's limit. */
  predicate IconsFit(ic: Icons)
  {
    TextInput.Fits(ic.gitClean, InputLimit) && TextInput.Fits(ic.gitDirty, InputLimit)
    && TextInput.Fits(ic.directory, InputLimit)
    && forall i :: 0 <= i < |ic.moons| ==> TextInput.Fits(ic.moons[i], InputLimit)
  }

  /** Every buffer is clean and within the input's limit. */
  predicate BuffersFit(b: seq<string>)
  {
    forall i :: 0 <= i < |b| ==> TextInput.Fits(b[i], InputLimit)
  }

  /** The icons written back from buffers `b`: always exactly five moons. */
  function SavedIcons(b: seq<string>): (ic: Icons)
    requires |b| == 8
    ensures |ic.moons| == MoonSlots
  {
    Icons(b[0], b[1], b[2], b[3..8])
  }

  /** Loading a configuration with five moons and saving it again gives back
      the same icons exactly when every icon fits the input; a longer icon
      comes back cut to its first ten characters. */
  lemma SaveAfterLoad(b: seq<string>, ic: Icons)
    requires |b| == 8 && |ic.moons| == MoonSlots
    ensures SavedIcons(LoadedInputs(b, ic)) == ic <==> IconsFit(ic)
  {
    var l := LoadedInputs(b, ic);
    if IconsFit(ic) {
      assert l[3..8] == ic.moons;
    }
  }

  /** Saving buffers and loading the result gives back the buffers as the
      inputs hold them, whatever the buffers held before the load: the
      buffers themselves, since they always fit. */
  lemma LoadAfterSave(b: seq<string>, before: seq<string>)
    requires |b| == 8 && |before| == 8
    ensures LoadedInputs(before, SavedIcons(b)) == seq(8, i requires 0 <= i < 8 => Held(b[i]))
    ensures BuffersFit(b) ==> LoadedInputs(before, SavedIcons(b)) == b
  {
    var l := LoadedInputs(before, SavedIcons(b));
    assert forall i :: 3 <= i < 8 ==> l[i] == Held(b[i]);
  }

  /** A load followed by a save on any configuration: the git and directory
      icons survive as the inputs hold them, so do each of the first five
      moons, a moon slot the configuration had no moon for is filled from
      the old buffer, and moons past the fifth are dropped. */
  lemma SaveAfterLoadAnyMoons(b: seq<string>, ic: Icons)
    requires |b| == 8
    ensures var saved := SavedIcons(LoadedInputs(b, ic));
      && saved.gitClean == Held(ic.gitClean) && saved.gitDirty == Held(ic.gitDirty)
      && saved.directory == Held(ic.directory)
      && |saved.moons| == MoonSlots
      && (forall i :: 0 <= i < MoonSlots && i < |ic.moons| ==> saved.moons[i] == Held(ic.moons[i]))
      && (forall i :: |ic.moons| <= i < MoonSlots ==> saved.moons[i] == b[3 + i])
  {
    var l := LoadedInputs(b, ic);
    assert forall i :: 0 <= i < MoonSlots ==> l[3..8][i] == l[3 + i];
  }

  /** Eight rows, in order, with only their buffers free, each buffer
      holding what a text input can hold. */
  ghost predicate IsRows(items: seq<IconItem>)
  {
    |items| == 8
    && forall i :: 0 <= i < 8 ==> items[i].(input := "") == IconItems()[i] && TextInput.Fits(items[i].input, InputLimit)
  }

  /** Replacing one buffer by text the input can hold keeps the rows. */
  lemma SetInputKeepsRows(items: seq<IconItem>, k: int, text: string)
    requires IsRows(items) && 0 <= k < 8 && TextInput.Fits(text, InputLimit)
    ensures IsRows(items[k := items[k].(input := text)])
  {
    var items' := items[k := items[k].(input := text)];
    assert forall i :: 0 <= i < 8 ==> items'[i].(input := "") == items[i].(input := "");
  }

  class IconsView {
    var items: seq<IconItem>
    var selected: int
    var editing: bool
    const config: Config

    /** The buffer contents, top to bottom. */
    function Buffers(): seq<string>
      reads this
    {
      Inputs(items)
    }

    /** The eight rows, in order, with only their buffers free. */
    ghost predicate Rows()
      reads this
    {
      IsRows(items)
    }

    ghost predicate Valid()
      reads this
    {
      Rows() && 0 <= selected < |items|
    }

    constructor (cfg: Config)
      ensures Valid() && config == cfg && selected == 0 && !editing
      ensures Buffers() == LoadedInputs(Inputs(IconItems()), cfg.Value().icons)
    {
      items := IconItems();
      selected := 0;
      editing := false;
      config := cfg;
      new;
      LoadFromConfig();
    }

    /** Fill the buffers from the configuration. */
    method LoadFromConfig()
      requires Rows()
      modifies this`items
      ensures Rows()
      ensures Buffers() == LoadedInputs(old(Buffers()), config.Value().icons)
    {
      var ic := config.icons;
      SetInputKeepsRows(items, 0, Held(ic.gitClean));
      items := items[0 := items[0].(input := Held(ic.gitClean))];
      SetInputKeepsRows(items, 1, Held(ic.gitDirty));
      items := items[1 := items[1].(input := Held(ic.gitDirty))];
      SetInputKeepsRows(items, 2, Held(ic.directory));
      items := items[2 := items[2].(input := Held(ic.directory))];
      var i := 0;
      while i < MoonSlots && i < |ic.moons|
        invariant 0 <= i <= MoonSlots && i <= |ic.moons|
        invariant Rows()
        invariant items[0].input == Held(ic.gitClean) && items[1].input == Held(ic.gitDirty)
        invariant items[2].input == Held(ic.directory)
        invariant forall j :: 3 <= j < 3 + i ==> items[j].input == Held(ic.moons[j - 3])
        invariant forall j :: 3 + i <= j < 8 ==> items[j].input == old(items[j].input)
      {
        SetInputKeepsRows(items, 3 + i, Held(ic.moons[i]));
        items := items[3 + i := items[3 + i].(input := Held(ic.moons[i]))];
        i := i + 1;
      }
      ghost var l := LoadedInputs(old(Buffers()), ic);
      forall k | 0 <= k < 8
        ensures Buffers()[k] == l[k]
      {
        if k >= 3 {
          assert l[k] == if k - 3 < |ic.moons| then Held(ic.moons[k - 3]) else old(Buffers())[k];
        }
      }
    }

    /** Write every buffer back: the git and directory icons, and a fresh
        list of exactly five moons. */
    method SaveToConfig()
      requires Rows()
      modifies config`icons
      ensures config.Value() == old(config.Value()).(icons := SavedIcons(Buffers()))
    {
      var moons := new string[MoonSlots];
      for i := 0 to MoonSlots
        modifies moons
        invariant forall j :: 0 <= j < i ==> moons[j] == items[3 + j].input
      {
        moons[i] := items[3 + i].input;
      }
      assert moons[..] == Buffers()[3..8];
      config.icons := Icons(items[0].input, items[1].input, items[2].input, moons[..]);
    }

    /** One row up, wrapping; the cursor stays put while editing. */
    method Up()
      requires Valid()
      modifies this`selected
      ensures Valid()
      ensures old(editing) ==> selected == old(selected)
      ensures !old(editing) ==> selected == Prev(old(selected), |items|)
    {
      if !editing {
        PrevWraps(selected, |items|);
        selected := selected - 1;
        if selected < 0 {
          selected := |items| - 1;
        }
      }
    }

    /** One row down, wrapping; the cursor stays put while editing. */
    method Down()
      requires Valid()
      modifies this`selected
      ensures Valid()
      ensures old(editing) ==> selected == old(selected)
      ensures !old(editing) ==> selected == Next(old(selected), |items|)
    {
      if !editing {
        NextWraps(selected, |items|);
        selected := selected + 1;
        if selected >= |items| {
          selected := 0;
        }
      }
    }

    /** Open the editor on the selected buffer. */
    method StartEdit()
      modifies this`editing
      ensures editing
    {
      editing := true;
    }

    /** Close the editor and write all buffers back. */
    method StopEdit()
      requires Rows()
      modifies this`editing, config`icons
      ensures !editing
      ensures config.Value() == old(config.Value()).(icons := SavedIcons(Buffers()))
    {
      editing := false;
      SaveToConfig();
    }

    /** Replace the contents of the selected buffer, as a key forwarded to
        the text input does; the input keeps it clean and within its
        limit. */
    method SetCurrentInput(text: string)
      requires Valid()
      modifies this`items
      ensures Valid()
      ensures Buffers() == old(Buffers())[selected := Held(text)]
    {
      SetInputKeepsRows(items, selected, Held(text));
      items := items[selected := items[selected].(input := Held(text))];
    }
  }
}
