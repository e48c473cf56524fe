/** The Mascot Settings screen: seven mood categories, each bound to fields of
    the mascot record, opened one at a time to toggle a flag, edit a number
    or edit, add and delete the frames of its animation. */
module MascotScreen {
  import opened GoText
  import opened Configuration
  import opened Bindings
  import opened Cursor
  import TextInput

  /** A category, by its key, and the mascot fields it is bound to. The
      three trigger moods have a threshold; the four time-of-day moods share
      one enabled flag, one animate flag and one speed. */
  datatype MascotCategory = MascotCategory(
    key: string,
    enabled: BoolRef, threshold: Option<IntRef>, emojis: ListRef, animate: BoolRef, speed: IntRef)

  /** The categories, top to bottom. */
  function Categories(): (r: seq<MascotCategory>)
    ensures |r| == 7
  {
    [ MascotCategory("context_panic",
        MoodEnabled(ContextPanicMood), Some(MoodThreshold(ContextPanicMood)), MoodEmojis(ContextPanicMood),
        MoodAnimate(ContextPanicMood), MoodSpeed(ContextPanicMood)),
      MascotCategory("productive",
        MoodEnabled(ProductiveMood), Some(MoodThreshold(ProductiveMood)), MoodEmojis(ProductiveMood),
        MoodAnimate(ProductiveMood), MoodSpeed(ProductiveMood)),
      MascotCategory("deletion",
        MoodEnabled(DeletionMood), Some(MoodThreshold(DeletionMood)), MoodEmojis(DeletionMood),
        MoodAnimate(DeletionMood), MoodSpeed(DeletionMood)),
      MascotCategory("time_night",
        TimeEnabled, None, NightEmojis, TimeAnimate, TimeSpeed),
      MascotCategory("time_morning",
        TimeEnabled, None, MorningEmojis, TimeAnimate, TimeSpeed),
      MascotCategory("time_afternoon",
        TimeEnabled, None, AfternoonEmojis, TimeAnimate, TimeSpeed),
      MascotCategory("time_evening",
        TimeEnabled, None, EveningEmojis, TimeAnimate, TimeSpeed) ]
  }

  /** The frame a new animation step starts with. */
  const NewEmoji: string := "🆕"

  /** The character limits of the frame, threshold and speed inputs. */
  const EmojiLimit: nat := 30
  const ThresholdLimit: nat := 4
  const SpeedLimit: nat := 5

  // ------------------------------------------------------------ row layout

  /** What a row inside an opened category does. */
  datatype SubItem = ToggleEnabled | EditThreshold | ToggleAnimate | EditSpeed | Emoji(index: int)

  /** The settings rows of an opened category: the enabled flag, the
      threshold when the category has one, the animate flag and the speed. */
  function SettingsRows(cat: MascotCategory): seq<SubItem>
  {
    if cat.threshold.Some? then [ToggleEnabled, EditThreshold, ToggleAnimate, EditSpeed]
    else [ToggleEnabled, ToggleAnimate, EditSpeed]
  }

  /** One row per frame. */
  function EmojiRows(count: nat): (r: seq<SubItem>)
    ensures |r| == count && forall i :: 0 <= i < count ==> r[i] == Emoji(i)
  {
    seq(count, i => Emoji(i))
  }

  /** The rows of an opened category with `count` frames: the settings rows,
      then one row per frame. */
  function Layout(cat: MascotCategory, count: nat): seq<SubItem>
  {
    SettingsRows(cat) + EmojiRows(count)
  }

  /** The number of rows, counted the controller's way. */
  function MaxItems(cat: MascotCategory, count: int): int
  {
    var maxItems := 1 + 2 + count;
    if cat.threshold.Some? then maxItems + 1 else maxItems
  }

  /** The row of the first frame, as the controller computes it. */
  function EmojiOffset(cat: MascotCategory): int
  {
    if cat.threshold.Some? then 4 else 3
  }

  /** The controller's row count and frame offset agree with the layout: the
      layout has `MaxItems` rows and frame `i` sits at row `EmojiOffset + i`. */
  lemma LayoutAgrees(cat: MascotCategory, count: nat)
    ensures |Layout(cat, count)| == MaxItems(cat, count) == EmojiOffset(cat) + count
    ensures forall i :: 0 <= i < count ==> Layout(cat, count)[EmojiOffset(cat) + i] == Emoji(i)
    ensures forall k :: EmojiOffset(cat) <= k < |Layout(cat, count)| ==> Layout(cat, count)[k] == Emoji(k - EmojiOffset(cat))
  {
    var e := EmojiRows(count);
    var l := SettingsRows(cat) + e;
    var off := EmojiOffset(cat);
    forall k | off <= k < |l|
      ensures l[k] == Emoji(k - off)
    {
      assert l[k] == e[k - off];
    }
    forall i | 0 <= i < count
      ensures l[off + i] == Emoji(i)
    {
      assert l[off + i] == e[i];
    }
  }

  /** The rows above the first frame are the four settings rows, in the
      order the controller's switch numbers them. */
  lemma LayoutSettingsRows(cat: MascotCategory, count: nat)
    ensures |Layout(cat, count)| >= EmojiOffset(cat)
    ensures forall k :: 0 <= k < EmojiOffset(cat) ==> !Layout(cat, count)[k].Emoji?
    ensures Layout(cat, count)[0] == ToggleEnabled
    ensures cat.threshold.Some? ==>
      Layout(cat, count)[1] == EditThreshold && Layout(cat, count)[2] == ToggleAnimate && Layout(cat, count)[3] == EditSpeed
    ensures cat.threshold.None? ==>
      Layout(cat, count)[1] == ToggleAnimate && Layout(cat, count)[2] == EditSpeed
  {
    var h := SettingsRows(cat);
    var l := h + EmojiRows(count);
    forall k | 0 <= k < EmojiOffset(cat)
      ensures l[k] == h[k] && !h[k].Emoji?
    {
    }
  }

  /** No two rows of a layout do the same thing. */
  lemma LayoutInjective(cat: MascotCategory, count: nat)
    ensures forall i, j :: 0 <= i < j < |Layout(cat, count)| ==> Layout(cat, count)[i] != Layout(cat, count)[j]
  {
    var h := SettingsRows(cat);
    var e := EmojiRows(count);
    var l := h + e;
    forall i, j | 0 <= i < j < |l|
      ensures l[i] != l[j]
    {
      if j < |h| {
        assert l[i] == h[i] && l[j] == h[j];
      } else if i < |h| {
        assert l[i] == h[i] && l[j] == e[j - |h|];
      } else {
        assert l[i] == e[i - |h|] && l[j] == e[j - |h|];
      }
    }
  }

  // ---------------------------------------------------- edits of the record

  /** A flag toggle: the one flag flips and every other field keeps its
      value. */
  function FlipBool(m: Mascot, r: BoolRef): (m': Mascot)
    ensures GetBool(m', r) == !GetBool(m, r)
    ensures forall q :: q != r ==> GetBool(m', q) == GetBool(m, q)
    ensures forall q :: GetInt(m', q) == GetInt(m, q)
    ensures forall q :: GetList(m', q) == GetList(m, q)
  {
    SetBool(m, r, !GetBool(m, r))
  }

  /** The threshold editor's commit: the parsed value, with no range check;
      a text that does not parse, or a category without a threshold, leaves
      the record as it was. */
  function CommitThreshold(m: Mascot, cat: MascotCategory, text: string): (r: Mascot)
    ensures cat.threshold.Some? && Atoi(text).Some? ==> GetInt(r, cat.threshold.value) == Atoi(text).value
    ensures cat.threshold.None? || Atoi(text).None? ==> r == m
    ensures forall q :: cat.threshold.Some? && q != cat.threshold.value ==> GetInt(r, q) == GetInt(m, q)
    ensures forall q :: GetBool(r, q) == GetBool(m, q)
    ensures forall q :: GetList(r, q) == GetList(m, q)
  {
    if cat.threshold.Some? then
      match Atoi(text)
      case Some(v) => SetInt(m, cat.threshold.value, v)
      case None => m
    else m
  }

  /** The speed editor's commit: only a text that parses to a positive
      number is stored. */
  function CommitSpeed(m: Mascot, cat: MascotCategory, text: string): (r: Mascot)
    ensures Atoi(text).Some? && Atoi(text).value > 0 ==> GetInt(r, cat.speed) == Atoi(text).value
    ensures Atoi(text).None? || Atoi(text).value <= 0 ==> r == m
    ensures GetInt(r, cat.speed) > 0 || r == m
    ensures forall q :: q != cat.speed ==> GetInt(r, q) == GetInt(m, q)
    ensures forall q :: GetBool(r, q) == GetBool(m, q)
    ensures forall q :: GetList(r, q) == GetList(m, q)
  {
    match Atoi(text)
    case Some(v) => if v > 0 then SetInt(m, cat.speed, v) else m
    case None => m
  }

  /** The frame editor's commit: frame `idx` becomes `text` when there is
      such a frame; the list keeps its length and every other frame. */
  function CommitEmoji(m: Mascot, cat: MascotCategory, idx: int, text: string): (r: Mascot)
    ensures |GetList(r, cat.emojis)| == |GetList(m, cat.emojis)|
    ensures 0 <= idx < |GetList(m, cat.emojis)| ==> GetList(r, cat.emojis)[idx] == text
    ensures forall k :: 0 <= k < |GetList(m, cat.emojis)| && k != idx ==> GetList(r, cat.emojis)[k] == GetList(m, cat.emojis)[k]
    ensures forall q :: q != cat.emojis ==> GetList(r, q) == GetList(m, q)
    ensures forall q :: GetBool(r, q) == GetBool(m, q)
    ensures forall q :: GetInt(r, q) == GetInt(m, q)
    ensures !(0 <= idx < |GetList(m, cat.emojis)|) ==> r == m
  {
    var l := GetList(m, cat.emojis);
    if 0 <= idx < |l| then SetList(m, cat.emojis, l[idx := text]) else m
  }

  /** The list with element `idx` cut out. */
  function RemoveAt(l: seq<string>, idx: int): (r: seq<string>)
    requires 0 <= idx < |l|
    ensures |r| == |l| - 1
    ensures forall k :: 0 <= k < idx ==> r[k] == l[k]
    ensures forall k :: idx <= k < |r| ==> r[k] == l[k + 1]
  {
    l[..idx] + l[idx + 1..]
  }

  /** Deleting drops exactly the one frame: what remains, with it, is what
      there was. */
  lemma RemoveAtDropsOne(l: seq<string>, idx: int)
    requires 0 <= idx < |l|
    ensures multiset(RemoveAt(l, idx)) + multiset{l[idx]} == multiset(l)
  {
    assert l == l[..idx] + [l[idx]] + l[idx + 1..];
  }

  /** The integers of the mascot record that are animation speeds. */
  predicate IsSpeed(r: IntRef)
  {
    r.MoodSpeed? || r.TimeSpeed?
  }

  /** Every animation speed is positive. */
  ghost predicate SpeedsPositive(m: Mascot)
  {
    forall r :: IsSpeed(r) ==> GetInt(m, r) > 0
  }

  /** The defaults start with positive speeds. */
  lemma DefaultSpeedsPositive()
    ensures SpeedsPositive(DefaultConfig().mascot)
  {
    var m := DefaultConfig().mascot;
    assert Speeds(m)[0] > 0 && Speeds(m)[1] > 0 && Speeds(m)[2] > 0 && Speeds(m)[3] > 0;
    forall r: IntRef | IsSpeed(r)
      ensures GetInt(m, r) > 0
    {
      if r.MoodSpeed? {
        match r.mood
        case ContextPanicMood =>
        case ProductiveMood =>
        case DeletionMood =>
      }
    }
  }

  /** No commit of the screen makes a speed zero or negative. */
  lemma CommitsKeepSpeedsPositive(m: Mascot, cat: MascotCategory, idx: int, text: string)
    requires cat in Categories() && SpeedsPositive(m)
    ensures SpeedsPositive(CommitSpeed(m, cat, text))
    ensures SpeedsPositive(CommitThreshold(m, cat, text))
    ensures SpeedsPositive(CommitEmoji(m, cat, idx, text))
    ensures SpeedsPositive(FlipBool(m, cat.enabled)) && SpeedsPositive(FlipBool(m, cat.animate))
  {
    var s := CommitSpeed(m, cat, text);
    forall r: IntRef | IsSpeed(r)
      ensures GetInt(s, r) > 0
    {
      if r != cat.speed {
        assert GetInt(s, r) == GetInt(m, r);
      }
    }
    if cat.threshold.Some? && Atoi(text).Some? {
      var t := CommitThreshold(m, cat, text);
      forall r: IntRef | IsSpeed(r)
        ensures GetInt(t, r) > 0
      {
        assert r != cat.threshold.value;
        assert GetInt(t, r) == GetInt(m, r);
      }
    }
    var e := CommitEmoji(m, cat, idx, text);
    forall r: IntRef | IsSpeed(r)
      ensures GetInt(e, r) > 0
    {
      assert GetInt(e, r) == GetInt(m, r);
    }
    var f := FlipBool(m, cat.enabled);
    forall r: IntRef | IsSpeed(r)
      ensures GetInt(f, r) > 0
    {
      assert GetInt(f, r) == GetInt(m, r);
    }
    var g := FlipBool(m, cat.animate);
    forall r: IntRef | IsSpeed(r)
      ensures GetInt(g, r) > 0
    {
      assert GetInt(g, r) == GetInt(m, r);
    }
  }

  /** Committing a threshold editor that still shows the stored threshold
      changes nothing. */
  lemma ThresholdShownValue(m: Mascot, cat: MascotCategory)
    requires cat.threshold.Some?
    ensures CommitThreshold(m, cat, Itoa(GetInt(m, cat.threshold.value))) == m
  {
    AtoiItoa(GetInt(m, cat.threshold.value));
    SetIntSame(m, cat.threshold.value);
  }

  /** Committing a speed editor that still shows the stored speed changes
      nothing, whether or not that speed is positive. */
  lemma SpeedShownValue(m: Mascot, cat: MascotCategory)
    ensures CommitSpeed(m, cat, Itoa(GetInt(m, cat.speed))) == m
  {
    AtoiItoa(GetInt(m, cat.speed));
    SetIntSame(m, cat.speed);
  }

  /** Opening the threshold editor and confirming it untouched keeps the
      record exactly when the threshold's spelling fits the editor's four
      characters; a longer one is stored cut to its first four. */
  lemma ThresholdEditUntouched(m: Mascot, cat: MascotCategory)
    requires cat.threshold.Some?
    ensures CommitThreshold(m, cat, TextInput.SetValue(Itoa(GetInt(m, cat.threshold.value)), ThresholdLimit)) == m
            <==> |Itoa(GetInt(m, cat.threshold.value))| <= ThresholdLimit
  {
    var x := GetInt(m, cat.threshold.value);
    TextInput.SetValueItoa(x, ThresholdLimit);
    if |Itoa(x)| <= ThresholdLimit {
      ThresholdShownValue(m, cat);
    } else {
      if x >= 0 {
        ItoaCutNonNegative(x, ThresholdLimit);
      } else {
        ItoaCutNegative(x, ThresholdLimit);
      }
      assert GetInt(CommitThreshold(m, cat, Itoa(x)[..ThresholdLimit]), cat.threshold.value) != x;
    }
  }

  /** A speed the speed editor gives back unchanged: one that is not stored
      anyway, or whose spelling fits the editor. */
  predicate SpeedFits(speed: int)
  {
    speed <= 0 || |Itoa(speed)| <= SpeedLimit
  }

  /** Opening the speed editor and confirming it untouched keeps the record
      exactly when the speed is not positive, so nothing is stored, or its
      spelling fits the editor's five characters; a longer speed is stored
      cut to its first five digits. */
  lemma SpeedEditUntouched(m: Mascot, cat: MascotCategory)
    ensures CommitSpeed(m, cat, TextInput.SetValue(Itoa(GetInt(m, cat.speed)), SpeedLimit)) == m
            <==> SpeedFits(GetInt(m, cat.speed))
  {
    var x := GetInt(m, cat.speed);
    TextInput.SetValueItoa(x, SpeedLimit);
    if |Itoa(x)| <= SpeedLimit {
      SpeedShownValue(m, cat);
    } else if x > 0 {
      ItoaCutNonNegative(x, SpeedLimit);
      assert GetInt(CommitSpeed(m, cat, Itoa(x)[..SpeedLimit]), cat.speed) != x;
    } else {
      ItoaCutNegative(x, SpeedLimit);
    }
  }

  /** Opening a frame editor and confirming it untouched keeps the record
      exactly when the frame is clean and fits the editor's thirty
      characters. */
  lemma EmojiEditUntouched(m: Mascot, cat: MascotCategory, idx: int)
    requires 0 <= idx < |GetList(m, cat.emojis)|
    ensures CommitEmoji(m, cat, idx, TextInput.SetValue(GetList(m, cat.emojis)[idx], EmojiLimit)) == m
            <==> TextInput.Fits(GetList(m, cat.emojis)[idx], EmojiLimit)
  {
    var l := GetList(m, cat.emojis);
    if TextInput.Fits(l[idx], EmojiLimit) {
      assert l[idx := l[idx]] == l;
      var r := CommitEmoji(m, cat, idx, l[idx]);
      assert GetList(r, cat.emojis) == l;
      MascotExtensional(r, m);
    }
  }

  /** A speed of 123456 comes back from an untouched edit as 12345. */
  lemma LongSpeedCut(m: Mascot, cat: MascotCategory)
    requires GetInt(m, cat.speed) == 123456
    ensures GetInt(CommitSpeed(m, cat, TextInput.SetValue(Itoa(GetInt(m, cat.speed)), SpeedLimit)), cat.speed) == 12345
  {
    TextInput.SetValueItoa(123456, SpeedLimit);
    SixDigitCut();
    AtoiItoa(12345);
  }

  lemma SixDigitCut()
    ensures Itoa(123456)[..SpeedLimit] == Itoa(12345)
  {
    FiveDigitSpelling();
    assert Itoa(123456) == NatDigits(12345) + ['6'];
  }

  /** A threshold of 12345 comes back from an untouched edit as 1234. */
  lemma LongThresholdCut(m: Mascot, cat: MascotCategory)
    requires cat.threshold.Some? && GetInt(m, cat.threshold.value) == 12345
    ensures GetInt(CommitThreshold(m, cat, TextInput.SetValue(Itoa(GetInt(m, cat.threshold.value)), ThresholdLimit)),
                   cat.threshold.value) == 1234
  {
    TextInput.SetValueItoa(12345, ThresholdLimit);
    FiveDigitCut();
    AtoiItoa(1234);
  }

  /** The spellings of 12345 and of its prefixes, one digit at a time. */
  lemma FiveDigitSpelling()
    ensures NatDigits(1234) == "1234" && NatDigits(12345) == "12345"
  {
    assert NatDigits(12) == NatDigits(1) + ['2'];
    assert NatDigits(123) == NatDigits(12) + ['3'];
    assert NatDigits(1234) == NatDigits(123) + ['4'];
    assert NatDigits(12345) == NatDigits(1234) + ['5'];
  }

  lemma FiveDigitCut()
    ensures Itoa(12345)[..ThresholdLimit] == Itoa(1234)
  {
    FiveDigitSpelling();
  }

  /** The threshold editor stores numbers outside 0..100 as they are. */
  lemma ThresholdNotClamped(m: Mascot)
    ensures GetInt(CommitThreshold(m, Categories()[0], "250"), MoodThreshold(ContextPanicMood)) == 250
    ensures GetInt(CommitThreshold(m, Categories()[0], "-5"), MoodThreshold(ContextPanicMood)) == -5
  {
    assert DigitsValue("250") == 250 by {
      assert "250"[..2] == "25" && "25"[..1] == "2" && "2"[..0] == "";
    }
    assert "-5"[1..] == "5" && "5"[..0] == "";
  }

  /** The four time-of-day categories share their enabled flag, animate flag
      and speed, so toggling one toggles them all; the trigger moods and the
      frame lists are each bound to their own field. */
  lemma CategoryBindings()
    ensures forall i, j :: 3 <= i < 7 && 3 <= j < 7 ==>
      Categories()[i].enabled == Categories()[j].enabled && Categories()[i].animate == Categories()[j].animate
      && Categories()[i].speed == Categories()[j].speed
    ensures forall i, j :: 0 <= i < j < 7 && i < 3 ==>
      Categories()[i].enabled != Categories()[j].enabled && Categories()[i].speed != Categories()[j].speed
    ensures forall i, j :: 0 <= i < j < 7 ==> Categories()[i].emojis != Categories()[j].emojis
    ensures forall i :: 0 <= i < 7 ==> (Categories()[i].threshold.Some? <==> i < 3)
  {
  }

  /** Toggling the enabled flag of one time-of-day category shows up in all
      four of them. */
  lemma TimeMoodsToggleTogether(m: Mascot, i: int, j: int)
    requires 3 <= i < 7 && 3 <= j < 7
    ensures GetBool(FlipBool(m, Categories()[i].enabled), Categories()[j].enabled) == !GetBool(m, Categories()[j].enabled)
  {
    CategoryBindings();
  }

  // ------------------------------------------------------------ controller

  /** The controller's own fields, as one value. */
  datatype MascotUi = MascotUi(
    selected: int, subSelected: int, inCategory: bool,
    editingEmoji: bool, editingThreshold: bool, editingSpeed: bool,
    emojiInput: string, thresholdInput: string, speedInput: string)

  class MascotView {
    const categories: seq<MascotCategory>
    var selected: int
    var subSelected: int
    var inCategory: bool
    var editingEmoji: bool
    var editingThreshold: bool
    var editingSpeed: bool
    var emojiInput: string
    var thresholdInput: string
    var speedInput: string
    const config: Config

    function Ui(): MascotUi
      reads this
    {
      MascotUi(selected, subSelected, inCategory, editingEmoji, editingThreshold, editingSpeed,
               emojiInput, thresholdInput, speedInput)
    }

    function Editing(): bool
      reads this
    {
      editingEmoji || editingThreshold || editingSpeed
    }

    function Current(): MascotCategory
      reads this
      requires 0 <= selected < |categories|
    {
      categories[selected]
    }

    /** The number of frames of the selected category. */
    function Count(): nat
      reads this, config`mascot
      requires 0 <= selected < |categories|
    {
      |GetList(config.mascot, Current().emojis)|
    }

    /** The row under the cursor of the opened category. */
    ghost function Selection(): (r: SubItem)
      reads this, config`mascot
      requires 0 <= selected < |categories| && 0 <= subSelected < MaxItems(Current(), Count())
      ensures r == ToggleEnabled <==> subSelected == 0
      ensures r == EditThreshold <==> Current().threshold.Some? && subSelected == 1
      ensures r == ToggleAnimate <==> subSelected == EmojiOffset(Current()) - 2
      ensures r == EditSpeed <==> subSelected == EmojiOffset(Current()) - 1
      ensures r.Emoji? <==> subSelected >= EmojiOffset(Current())
      ensures r.Emoji? ==> r.index == subSelected - EmojiOffset(Current()) && 0 <= r.index < Count()
    {
      LayoutAgrees(Current(), Count());
      LayoutSettingsRows(Current(), Count());
      Layout(Current(), Count())[subSelected]
    }

    /** The cursor is on a category, and inside an opened one on one of its
        rows; at most one editor is open, only inside a category, and only on
        a row of its kind, by the controller's own row numbering. */
    ghost predicate Valid()
      reads this, config`mascot
    {
      |categories| == 7 && 0 <= selected < |categories|
      && (inCategory ==> 0 <= subSelected < MaxItems(Current(), Count()))
      && (!inCategory ==> subSelected == 0)
      && (Editing() ==> inCategory)
      && (editingEmoji ==> !editingThreshold && !editingSpeed && EmojiOffset(Current()) <= subSelected)
      && (editingThreshold ==> !editingSpeed && Current().threshold.Some? && subSelected == 1)
      && (editingSpeed ==> subSelected == EmojiOffset(Current()) - 1)
    }

    constructor (cfg: Config)
      ensures Valid() && config == cfg && categories == Categories()
      ensures Ui() == MascotUi(0, 0, false, false, false, false, "", "", "")
    {
      categories := Categories();
      config := cfg;
      selected := 0;
      subSelected := 0;
      inCategory := false;
      editingEmoji := false;
      editingThreshold := false;
      editingSpeed := false;
      emojiInput := "";
      thresholdInput := "";
      speedInput := "";
    }

    /** Up inside a category moves between its rows, outside it between
        categories, both wrapping; an open editor holds the cursor. */
    method Up()
      requires Valid()
      modifies this`selected, this`subSelected
      ensures Valid()
      ensures old(Editing()) ==> Ui() == old(Ui())
      ensures !old(Editing()) && old(inCategory) ==>
        Ui() == old(Ui()).(subSelected := Prev(old(subSelected), old(MaxItems(Current(), Count()))))
      ensures !old(Editing()) && !old(inCategory) ==> Ui() == old(Ui()).(selected := Prev(old(selected), 7))
    {
      if editingEmoji || editingThreshold || editingSpeed {
        return;
      }
      if inCategory {
        var cat := categories[selected];
        var maxItems := MaxItems(cat, |GetList(config.mascot, cat.emojis)|);
        PrevWraps(subSelected, maxItems);
        subSelected := subSelected - 1;
        if subSelected < 0 {
          subSelected := maxItems - 1;
        }
      } else {
        PrevWraps(selected, |categories|);
        selected := selected - 1;
        if selected < 0 {
          selected := |categories| - 1;
        }
      }
    }

    /** Down, the mirror image of `Up`. */
    method Down()
      requires Valid()
      modifies this`selected, this`subSelected
      ensures Valid()
      ensures old(Editing()) ==> Ui() == old(Ui())
      ensures !old(Editing()) && old(inCategory) ==>
        Ui() == old(Ui()).(subSelected := Next(old(subSelected), old(MaxItems(Current(), Count()))))
      ensures !old(Editing()) && !old(inCategory) ==> Ui() == old(Ui()).(selected := Next(old(selected), 7))
    {
      if editingEmoji || editingThreshold || editingSpeed {
        return;
      }
      if inCategory {
        var cat := categories[selected];
        var maxItems := MaxItems(cat, |GetList(config.mascot, cat.emojis)|);
        NextWraps(subSelected, maxItems);
        subSelected := subSelected + 1;
        if subSelected >= maxItems {
          subSelected := 0;
        }
      } else {
        NextWraps(selected, |categories|);
        selected := selected + 1;
        if selected >= |categories| {
          selected := 0;
        }
      }
    }

    /** Open an editor on frame `idx` of the selected category, filled with
        that frame, when there is such a frame. */
    method StartEditEmoji(idx: int)
      requires 0 <= selected < |categories| && 0 <= idx
      modifies this`emojiInput, this`editingEmoji
      ensures idx < old(Count()) ==>
        Ui() == old(Ui()).(emojiInput := TextInput.SetValue(old(GetList(config.mascot, Current().emojis))[idx], EmojiLimit),
                           editingEmoji := true)
      ensures idx >= old(Count()) ==> Ui() == old(Ui())
    {
      var cat := categories[selected];
      if idx < |GetList(config.mascot, cat.emojis)| {
        emojiInput := TextInput.SetValue(GetList(config.mascot, cat.emojis)[idx], EmojiLimit);
        editingEmoji := true;
      }
    }

    /** Store the frame editor's text in the frame under the cursor. */
    method StopEditEmoji()
      requires 0 <= selected < |categories|
      modifies this`editingEmoji, config`mascot
      ensures Ui() == old(Ui()).(editingEmoji := false)
      ensures config.Value() == old(config.Value()).(mascot :=
        CommitEmoji(old(config.mascot), Current(), subSelected - EmojiOffset(Current()), emojiInput))
    {
      var cat := categories[selected];
      var emojiOffset := EmojiOffset(cat);
      var emojiIdx := subSelected - emojiOffset;
      var l := GetList(config.mascot, cat.emojis);
      if emojiIdx >= 0 && emojiIdx < |l| {
        config.mascot := SetList(config.mascot, cat.emojis, l[emojiIdx := emojiInput]);
      }
      editingEmoji := false;
    }

    method CancelEditEmoji()
      modifies this`editingEmoji
      ensures Ui() == old(Ui()).(editingEmoji := false)
    {
      editingEmoji := false;
    }

    /** Open the threshold editor, filled with the stored threshold, when the
        category has one. */
    method StartEditThreshold()
      requires 0 <= selected < |categories|
      modifies this`thresholdInput, this`editingThreshold
      ensures old(Current()).threshold.Some? ==> Ui() == old(Ui()).(
        thresholdInput := TextInput.SetValue(Itoa(GetInt(config.mascot, old(Current()).threshold.value)), ThresholdLimit),
        editingThreshold := true)
      ensures old(Current()).threshold.None? ==> Ui() == old(Ui())
    {
      var cat := categories[selected];
      if cat.threshold.Some? {
        thresholdInput := TextInput.SetValue(Itoa(GetInt(config.mascot, cat.threshold.value)), ThresholdLimit);
        editingThreshold := true;
      }
    }

    /** Store the threshold editor's text when it parses. */
    method StopEditThreshold()
      requires 0 <= selected < |categories|
      modifies this`editingThreshold, config`mascot
      ensures Ui() == old(Ui()).(editingThreshold := false)
      ensures config.Value() == old(config.Value()).(mascot := CommitThreshold(old(config.mascot), Current(), thresholdInput))
    {
      var cat := categories[selected];
      if cat.threshold.Some? {
        var p := Atoi(thresholdInput);
        if p.Some? {
          config.mascot := SetInt(config.mascot, cat.threshold.value, p.value);
        }
      }
      editingThreshold := false;
    }

    method CancelEditThreshold()
      modifies this`editingThreshold
      ensures Ui() == old(Ui()).(editingThreshold := false)
    {
      editingThreshold := false;
    }

    /** Open the speed editor, filled with the stored speed. */
    method StartEditSpeed()
      requires 0 <= selected < |categories|
      modifies this`speedInput, this`editingSpeed
      ensures Ui() == old(Ui()).(speedInput := TextInput.SetValue(Itoa(GetInt(config.mascot, old(Current()).speed)), SpeedLimit),
                                 editingSpeed := true)
    {
      var cat := categories[selected];
      speedInput := TextInput.SetValue(Itoa(GetInt(config.mascot, cat.speed)), SpeedLimit);
      editingSpeed := true;
    }

    /** Store the speed editor's text when it parses to a positive number. */
    method StopEditSpeed()
      requires 0 <= selected < |categories|
      modifies this`editingSpeed, config`mascot
      ensures Ui() == old(Ui()).(editingSpeed := false)
      ensures config.Value() == old(config.Value()).(mascot := CommitSpeed(old(config.mascot), Current(), speedInput))
    {
      var cat := categories[selected];
      var p := Atoi(speedInput);
      if p.Some? && p.value > 0 {
        config.mascot := SetInt(config.mascot, cat.speed, p.value);
      }
      editingSpeed := false;
    }

    method CancelEditSpeed()
      modifies this`editingSpeed
      ensures Ui() == old(Ui()).(editingSpeed := false)
    {
      editingSpeed := false;
    }

    /** Enter commits an open editor; at the top level it opens the selected
        category on its first row; inside a category it does what the row
        under the cursor says: flip a flag, or open the editor for the
        threshold, the speed or a frame. */
    method Enter()
      requires Valid()
      modifies this, config`mascot
      ensures Valid()
      ensures old(editingEmoji) ==>
        Ui() == old(Ui()).(editingEmoji := false)
        && config.Value() == old(config.Value()).(mascot :=
             CommitEmoji(old(config.mascot), Current(), subSelected - EmojiOffset(Current()), emojiInput))
      ensures old(editingThreshold) ==>
        Ui() == old(Ui()).(editingThreshold := false)
        && config.Value() == old(config.Value()).(mascot := CommitThreshold(old(config.mascot), Current(), thresholdInput))
      ensures old(editingSpeed) ==>
        Ui() == old(Ui()).(editingSpeed := false)
        && config.Value() == old(config.Value()).(mascot := CommitSpeed(old(config.mascot), Current(), speedInput))
      ensures !old(Editing()) && !old(inCategory) ==>
        Ui() == old(Ui()).(inCategory := true, subSelected := 0) && config.Value() == old(config.Value())
      ensures !old(Editing()) && old(inCategory) && old(Selection()) == ToggleEnabled ==>
        Ui() == old(Ui()) && config.Value() == old(config.Value()).(mascot := FlipBool(old(config.mascot), Current().enabled))
      ensures !old(Editing()) && old(inCategory) && old(Selection()) == ToggleAnimate ==>
        Ui() == old(Ui()) && config.Value() == old(config.Value()).(mascot := FlipBool(old(config.mascot), Current().animate))
      ensures !old(Editing()) && old(inCategory) && old(Selection()) == EditThreshold ==>
        config.Value() == old(config.Value())
        && Ui() == old(Ui()).(thresholdInput := TextInput.SetValue(Itoa(GetInt(old(config.mascot), old(Current()).threshold.value)), ThresholdLimit),
                              editingThreshold := true)
      ensures !old(Editing()) && old(inCategory) && old(Selection()) == EditSpeed ==>
        config.Value() == old(config.Value())
        && Ui() == old(Ui()).(speedInput := TextInput.SetValue(Itoa(GetInt(old(config.mascot), old(Current()).speed)), SpeedLimit),
                              editingSpeed := true)
      ensures !old(Editing()) && old(inCategory) && old(Selection()).Emoji? ==>
        config.Value() == old(config.Value())
        && Ui() == old(Ui()).(emojiInput := TextInput.SetValue(old(GetList(config.mascot, Current().emojis)[Selection().index]), EmojiLimit),
                              editingEmoji := true)
    {
      if editingEmoji {
        StopEditEmoji();
      } else if editingThreshold {
        StopEditThreshold();
      } else if editingSpeed {
        StopEditSpeed();
      } else if !inCategory {
        inCategory := true;
        subSelected := 0;
      } else {
        EnterRow();
      }
    }

    /** Enter on a row of an opened category with no editor open. */
    method EnterRow()
      requires Valid() && inCategory && !Editing()
      modifies this, config`mascot
      ensures Valid()
      ensures old(Selection()) == ToggleEnabled ==>
        Ui() == old(Ui()) && config.Value() == old(config.Value()).(mascot := FlipBool(old(config.mascot), Current().enabled))
      ensures old(Selection()) == ToggleAnimate ==>
        Ui() == old(Ui()) && config.Value() == old(config.Value()).(mascot := FlipBool(old(config.mascot), Current().animate))
      ensures old(Selection()) == EditThreshold ==>
        config.Value() == old(config.Value())
        && Ui() == old(Ui()).(thresholdInput := TextInput.SetValue(Itoa(GetInt(old(config.mascot), old(Current()).threshold.value)), ThresholdLimit),
                              editingThreshold := true)
      ensures old(Selection()) == EditSpeed ==>
        config.Value() == old(config.Value())
        && Ui() == old(Ui()).(speedInput := TextInput.SetValue(Itoa(GetInt(old(config.mascot), old(Current()).speed)), SpeedLimit),
                              editingSpeed := true)
      ensures old(Selection()).Emoji? ==>
        config.Value() == old(config.Value())
        && Ui() == old(Ui()).(emojiInput := TextInput.SetValue(old(GetList(config.mascot, Current().emojis)[Selection().index]), EmojiLimit),
                              editingEmoji := true)
    {
      var cat := categories[selected];
      var emojiOffset := EmojiOffset(cat);
      LayoutAgrees(cat, Count());
      LayoutSettingsRows(cat, Count());

      if subSelected == 0 {
        config.mascot := SetBool(config.mascot, cat.enabled, !GetBool(config.mascot, cat.enabled));
        return;
      }

      if cat.threshold.Some? {
        if subSelected == 1 {
          StartEditThreshold();
          return;
        } else if subSelected == 2 {
          config.mascot := SetBool(config.mascot, cat.animate, !GetBool(config.mascot, cat.animate));
          return;
        } else if subSelected == 3 {
          StartEditSpeed();
          return;
        }
      } else {
        if subSelected == 1 {
          config.mascot := SetBool(config.mascot, cat.animate, !GetBool(config.mascot, cat.animate));
          return;
        } else if subSelected == 2 {
          StartEditSpeed();
          return;
        }
      }

      var emojiIdx := subSelected - emojiOffset;
      assert Layout(cat, Count())[emojiOffset + emojiIdx] == Emoji(emojiIdx);
      if emojiIdx >= 0 && emojiIdx < |GetList(config.mascot, cat.emojis)| {
        StartEditEmoji(emojiIdx);
      }
    }

    /** Back closes an open editor without storing it, or closes the opened
        category; at the top level it changes nothing and answers `true`,
        the signal to return to the main menu. */
    method Back() returns (toMenu: bool)
      requires Valid()
      modifies this
      ensures Valid()
      ensures toMenu <==> !old(Editing()) && !old(inCategory)
      ensures old(editingEmoji) ==> Ui() == old(Ui()).(editingEmoji := false)
      ensures old(editingThreshold) ==> Ui() == old(Ui()).(editingThreshold := false)
      ensures old(editingSpeed) ==> Ui() == old(Ui()).(editingSpeed := false)
      ensures !old(Editing()) && old(inCategory) ==> Ui() == old(Ui()).(inCategory := false, subSelected := 0)
      ensures !old(Editing()) && !old(inCategory) ==> Ui() == old(Ui())
    {
      if editingEmoji {
        CancelEditEmoji();
        return false;
      }
      if editingThreshold {
        CancelEditThreshold();
        return false;
      }
      if editingSpeed {
        CancelEditSpeed();
        return false;
      }
      if inCategory {
        inCategory := false;
        subSelected := 0;
        return false;
      }
      return true;
    }

    /** Append a new frame to the opened category, when no editor is open. */
    method AddEmoji()
      requires Valid()
      modifies config`mascot
      ensures Valid()
      ensures inCategory && !Editing() ==>
        config.Value() == old(config.Value()).(mascot :=
          SetList(old(config.mascot), Current().emojis, old(GetList(config.mascot, Current().emojis)) + [NewEmoji]))
      ensures !(inCategory && !Editing()) ==> config.Value() == old(config.Value())
    {
      if inCategory && !editingEmoji && !editingThreshold && !editingSpeed {
        var cat := categories[selected];
        config.mascot := SetList(config.mascot, cat.emojis, GetList(config.mascot, cat.emojis) + [NewEmoji]);
      }
    }

    /** The cursor is on a frame of an opened category that has more than
        one frame, and no editor is open. */
    function CanDelete(): bool
      reads this, config`mascot
      requires 0 <= selected < |categories|
    {
      inCategory && !Editing() && 0 <= subSelected - EmojiOffset(Current()) < Count() && Count() > 1
    }

    /** Delete the frame under the cursor, unless it is the category's only
        frame; the cursor moves up when it was on the last frame. */
    method DeleteEmoji()
      requires Valid()
      modifies this`subSelected, config`mascot
      ensures Valid()
      ensures old(CanDelete()) ==>
        config.mascot == SetList(old(config.mascot), Current().emojis,
          RemoveAt(old(GetList(config.mascot, Current().emojis)), old(subSelected) - EmojiOffset(Current())))
        && subSelected == if old(subSelected) >= old(Count()) - 1 + EmojiOffset(Current())
                          then old(subSelected) - 1 else old(subSelected)
      ensures !old(CanDelete()) ==> config.mascot == old(config.mascot) && subSelected == old(subSelected)
    {
      if !inCategory || editingEmoji || editingThreshold || editingSpeed {
        return;
      }
      var cat := categories[selected];
      var emojiOffset := EmojiOffset(cat);
      var emojiIdx := subSelected - emojiOffset;
      var emojis := GetList(config.mascot, cat.emojis);
      if emojiIdx >= 0 && emojiIdx < |emojis| && |emojis| > 1 {
        var rest := RemoveAt(emojis, emojiIdx);
        config.mascot := SetList(config.mascot, cat.emojis, rest);
        assert Current() == cat;
        assert Count() == |rest| == |emojis| - 1;
        if subSelected >= |rest| + emojiOffset {
          subSelected := subSelected - 1;
        }
        assert 0 <= subSelected < MaxItems(cat, |rest|);
      }
    }

    /** Replace the text of the open editor, as a key forwarded to the text
        input does; with no editor open nothing changes. */
    method SetCurrentInput(text: string)
      requires Valid()
      modifies this`emojiInput, this`thresholdInput, this`speedInput
      ensures Valid()
      ensures editingEmoji ==> Ui() == old(Ui()).(emojiInput := TextInput.SetValue(text, EmojiLimit))
      ensures !editingEmoji && editingThreshold ==> Ui() == old(Ui()).(thresholdInput := TextInput.SetValue(text, ThresholdLimit))
      ensures !editingEmoji && !editingThreshold && editingSpeed ==> Ui() == old(Ui()).(speedInput := TextInput.SetValue(text, SpeedLimit))
      ensures !Editing() ==> Ui() == old(Ui())
    {
      if editingEmoji {
        emojiInput := TextInput.SetValue(text, EmojiLimit);
      } else if editingThreshold {
        thresholdInput := TextInput.SetValue(text, ThresholdLimit);
      } else if editingSpeed {
        speedInput := TextInput.SetValue(text, SpeedLimit);
      }
    }
  }
}
