/** The main menu: a fixed list of entries with one separator line, and a
    cursor that moves up and down, wraps at both ends and never rests on the
    separator. */
module Menu {
  import opened Cursor

  /** The lines of the menu. */
  datatype MenuEntry =
    SectionsEntry | IconsEntry | MascotEntry | DisplayEntry | NotificationsEntry
    | SeparatorEntry | SaveApplyEntry | SaveOnlyEntry

  datatype MenuItem = MenuItem(entry: MenuEntry, isSeparator: bool)

  /** The label and help text an entry is shown with. */
  function Name(e: MenuEntry): string
  {
    match e
    case SectionsEntry => "Sections"
    case IconsEntry => "Icons & Emojis"
    case MascotEntry => "Mascot Settings"
    case DisplayEntry => "Display Options"
    case NotificationsEntry => "Notifications"
    case SeparatorEntry => ""
    case SaveApplyEntry => "Save & Apply"
    case SaveOnlyEntry => "Save Config Only"
  }

  function Description(e: MenuEntry): string
  {
    match e
    case SectionsEntry => "Toggle which sections are displayed"
    case IconsEntry => "Customize icons and emojis"
    case MascotEntry => "Configure mascot moods and triggers"
    case DisplayEntry => "Separator and formatting settings"
    case NotificationsEntry => "Configure alerts, sounds, and notification triggers"
    case SeparatorEntry => ""
    case SaveApplyEntry => "Save config and install statusline to ~/.claude/"
    case SaveOnlyEntry => "Save config without installing globally"
  }

  /** The entries of a new menu, top to bottom. */
  function DefaultItems(): (r: seq<MenuItem>)
    ensures |r| == 8
  {
    [ MenuItem(SectionsEntry, false), MenuItem(IconsEntry, false), MenuItem(MascotEntry, false),
      MenuItem(DisplayEntry, false), MenuItem(NotificationsEntry, false), MenuItem(SeparatorEntry, true),
      MenuItem(SaveApplyEntry, false), MenuItem(SaveOnlyEntry, false) ]
  }

  /** `k` single steps up from `s` in a list of `n` entries. */
  function BackN(s: int, k: nat, n: int): (r: int)
    requires 0 <= s < n
    ensures 0 <= r < n
    decreases k
  {
    if k == 0 then s else BackN(Prev(s, n), k - 1, n)
  }

  /** `k` single steps down from `s` in a list of `n` entries. */
  function FwdN(s: int, k: nat, n: int): (r: int)
    requires 0 <= s < n
    ensures 0 <= r < n
    decreases k
  {
    if k == 0 then s else FwdN(Next(s, n), k - 1, n)
  }

  /** Moving up from `s` lands on `t` after `k` steps: `t` is the first entry
      above `s`, cyclically, that is not a separator, and every entry passed on
      the way is one. */
  predicate SkipsUp(items: seq<MenuItem>, s: int, k: int, t: int)
    requires 0 <= s < |items|
  {
    1 <= k <= |items| && t == BackN(s, k, |items|) && !items[t].isSeparator
    && forall j :: 1 <= j < k ==> items[BackN(s, j, |items|)].isSeparator
  }

  /** Moving down from `s` lands on `t` after `k` steps, as `SkipsUp` the
      other way round. */
  predicate SkipsDown(items: seq<MenuItem>, s: int, k: int, t: int)
    requires 0 <= s < |items|
  {
    1 <= k <= |items| && t == FwdN(s, k, |items|) && !items[t].isSeparator
    && forall j :: 1 <= j < k ==> items[FwdN(s, j, |items|)].isSeparator
  }

  /** Where moving up lands is determined by where it starts. */
  lemma SkipsUpUnique(items: seq<MenuItem>, s: int, k1: int, t1: int, k2: int, t2: int)
    requires 0 <= s < |items|
    requires SkipsUp(items, s, k1, t1) && SkipsUp(items, s, k2, t2)
    ensures k1 == k2 && t1 == t2
  {
  }

  /** Where moving down lands is determined by where it starts. */
  lemma SkipsDownUnique(items: seq<MenuItem>, s: int, k1: int, t1: int, k2: int, t2: int)
    requires 0 <= s < |items|
    requires SkipsDown(items, s, k1, t1) && SkipsDown(items, s, k2, t2)
    ensures k1 == k2 && t1 == t2
  {
  }

  /** One step up undoes the last of `k` steps down. */
  lemma {:induction false} PrevFwdN(s: int, k: nat, n: int)
    requires 0 <= s < n && k >= 1
    ensures Prev(FwdN(s, k, n), n) == FwdN(s, k - 1, n)
    decreases k
  {
    if k == 1 {
      PrevNextInverse(s, n);
    } else {
      PrevFwdN(Next(s, n), k - 1, n);
    }
  }

  /** `j` steps up after `k` steps down leave `k - j` steps down. */
  lemma {:induction false} BackNFwdN(s: int, k: nat, j: nat, n: int)
    requires 0 <= s < n && j <= k
    ensures BackN(FwdN(s, k, n), j, n) == FwdN(s, k - j, n)
  {
    if j > 0 {
      PrevFwdN(s, k, n);
      BackNFwdN(s, k - 1, j - 1, n);
    }
  }

  /** Moving down from an entry and then up again returns to that entry: the
      way up passes the same separators in the opposite order. */
  lemma UpAfterDown(items: seq<MenuItem>, s: int, k: int, t: int)
    requires 0 <= s < |items| && !items[s].isSeparator
    requires SkipsDown(items, s, k, t)
    ensures SkipsUp(items, t, k, s)
  {
    var n := |items|;
    BackNFwdN(s, k, k, n);
    forall j | 1 <= j < k
      ensures items[BackN(t, j, n)].isSeparator
    {
      BackNFwdN(s, k, j, n);
      assert items[FwdN(s, k - j, n)].isSeparator;
    }
  }

  /** The same lemma the other way round needs the mirror image of
      `PrevFwdN`. */
  lemma {:induction false} NextBackN(s: int, k: nat, n: int)
    requires 0 <= s < n && k >= 1
    ensures Next(BackN(s, k, n), n) == BackN(s, k - 1, n)
    decreases k
  {
    if k == 1 {
      PrevNextInverse(s, n);
    } else {
      NextBackN(Prev(s, n), k - 1, n);
    }
  }

  lemma {:induction false} FwdNBackN(s: int, k: nat, j: nat, n: int)
    requires 0 <= s < n && j <= k
    ensures FwdN(BackN(s, k, n), j, n) == BackN(s, k - j, n)
  {
    if j > 0 {
      NextBackN(s, k, n);
      FwdNBackN(s, k - 1, j - 1, n);
    }
  }

  /** Moving up from an entry and then down again returns to that entry. */
  lemma DownAfterUp(items: seq<MenuItem>, s: int, k: int, t: int)
    requires 0 <= s < |items| && !items[s].isSeparator
    requires SkipsUp(items, s, k, t)
    ensures SkipsDown(items, t, k, s)
  {
    var n := |items|;
    FwdNBackN(s, k, k, n);
    forall j | 1 <= j < k
      ensures items[FwdN(t, j, n)].isSeparator
    {
      FwdNBackN(s, k, j, n);
      assert items[BackN(s, k - j, n)].isSeparator;
    }
  }

  /** Down from "Notifications" passes the separator and lands on
      "Save & Apply". */
  lemma DownFromNotifications(items: seq<MenuItem>)
    requires items == DefaultItems()
    ensures SkipsDown(items, 4, 2, 6)
  {
    assert FwdN(4, 1, 8) == 5 && FwdN(4, 2, 8) == 6;
  }

  /** Up from "Save & Apply" passes the separator and lands on
      "Notifications". */
  lemma UpFromSaveApply(items: seq<MenuItem>)
    requires items == DefaultItems()
    ensures SkipsUp(items, 6, 2, 4)
  {
    assert BackN(6, 1, 8) == 5 && BackN(6, 2, 8) == 4;
  }

  /** On the default menu, down from "Notifications" skips the separator and
      lands on "Save & Apply", and up from there comes back. */
  lemma DefaultMenuSkipsSeparator()
    ensures SkipsDown(DefaultItems(), 4, 2, 6)
    ensures SkipsUp(DefaultItems(), 6, 2, 4)
    ensures DefaultItems()[5].isSeparator
  {
    DownFromNotifications(DefaultItems());
    UpFromSaveApply(DefaultItems());
  }

  /** On the default menu the cursor wraps from the last entry to the first
      going down and from the first to the last going up. */
  lemma DefaultMenuWraps()
    ensures SkipsDown(DefaultItems(), 7, 1, 0)
    ensures SkipsUp(DefaultItems(), 0, 1, 7)
  {
    assert FwdN(7, 1, 8) == FwdN(0, 0, 8);
    assert BackN(0, 1, 8) == BackN(7, 0, 8);
  }

  class MenuView {
    const items: seq<MenuItem>
    var selected: int
    /** An entry that is not a separator; its existence is what makes the
        separator-skipping recursion stop. */
    ghost const anchor: int

    /** The list has an entry the cursor can rest on, and the cursor is in
        range. */
    ghost predicate InRange()
      reads this
    {
      0 <= anchor < |items| && !items[anchor].isSeparator && 0 <= selected < |items|
    }

    /** Between moves the cursor rests on an entry that is not a separator. */
    ghost predicate Valid()
      reads this
    {
      InRange() && !items[selected].isSeparator
    }

    constructor ()
      ensures Valid() && items == DefaultItems() && selected == 0
    {
      items := DefaultItems();
      selected := 0;
      anchor := 0;
    }

    /** Steps up from `s` before reaching the anchor; `n` for the anchor
        itself. */
    ghost function UpDist(s: int): (d: int)
      reads this
      requires 0 <= s < |items| && 0 <= anchor < |items|
      ensures 1 <= d <= |items|
    {
      if s > anchor then s - anchor else s - anchor + |items|
    }

    /** Steps down from `s` before reaching the anchor; `n` for the anchor
        itself. */
    ghost function DownDist(s: int): (d: int)
      reads this
      requires 0 <= s < |items| && 0 <= anchor < |items|
      ensures 1 <= d <= |items|
    {
      if anchor > s then anchor - s else anchor - s + |items|
    }

    /** Step up, wrapping to the last entry, and keep stepping while the
        cursor is on a separator. */
    method Up()
      requires InRange()
      modifies this`selected
      decreases UpDist(selected)
      ensures Valid()
      ensures exists k :: k <= old(UpDist(selected)) && SkipsUp(items, old(selected), k, selected)
    {
      ghost var s := selected;
      selected := selected - 1;
      if selected < 0 {
        selected := |items| - 1;
      }
      PrevWraps(s, |items|);
      assert selected == BackN(s, 1, |items|);
      if items[selected].isSeparator {
        ghost var s1 := selected;
        Up();
        ghost var k' :| k' <= UpDist(s1) && SkipsUp(items, s1, k', selected);
        forall j | 1 <= j < k' + 1
          ensures items[BackN(s, j, |items|)].isSeparator
        {
          if j > 1 {
            assert BackN(s, j, |items|) == BackN(s1, j - 1, |items|);
          }
        }
        assert SkipsUp(items, s, k' + 1, selected);
      } else {
        assert SkipsUp(items, s, 1, selected);
      }
    }

    /** Step down, wrapping to the first entry, and keep stepping while the
        cursor is on a separator. */
    method Down()
      requires InRange()
      modifies this`selected
      decreases DownDist(selected)
      ensures Valid()
      ensures exists k :: k <= old(DownDist(selected)) && SkipsDown(items, old(selected), k, selected)
    {
      ghost var s := selected;
      selected := selected + 1;
      if selected >= |items| {
        selected := 0;
      }
      NextWraps(s, |items|);
      assert selected == FwdN(s, 1, |items|);
      if items[selected].isSeparator {
        ghost var s1 := selected;
        Down();
        ghost var k' :| k' <= DownDist(s1) && SkipsDown(items, s1, k', selected);
        forall j | 1 <= j < k' + 1
          ensures items[FwdN(s, j, |items|)].isSeparator
        {
          if j > 1 {
            assert FwdN(s, j, |items|) == FwdN(s1, j - 1, |items|);
          }
        }
        assert SkipsDown(items, s, k' + 1, selected);
      } else {
        assert SkipsDown(items, s, 1, selected);
      }
    }

    /** The entry under the cursor, never the separator. */
    function SelectedItem(): (r: MenuItem)
      reads this
      requires Valid()
      ensures r in items && !r.isSeparator
    {
      items[selected]
    }
  }
}
