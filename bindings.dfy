/** Field bindings. The controllers hold pointers into the configuration; here
    a binding is a selector naming one field, read and written through `Get`
    and `Set` functions on the record. Each `Set` changes its own field to the
    new value and leaves every other field of the record as it was, and the
    selectors together reach every field. */
module Bindings {
  import opened GoText
  import opened Configuration

  // ---------------------------------------------------------------- sections

  /** One flag of `EnabledSections`. */
  datatype SectionFlag =
    | WaitingIndicatorFlag | GitFlag | DirectoryFlag | ModelFlag
    | ContextMoonsFlag | TokenCountFlag | PercentageFlag | MascotFlag

  function GetFlag(e: EnabledSections, f: SectionFlag): bool
  {
    match f
    case WaitingIndicatorFlag => e.waitingIndicator
    case GitFlag => e.git
    case DirectoryFlag => e.directory
    case ModelFlag => e.model
    case ContextMoonsFlag => e.contextMoons
    case TokenCountFlag => e.tokenCount
    case PercentageFlag => e.percentage
    case MascotFlag => e.mascot
  }

  function SetFlag(e: EnabledSections, f: SectionFlag, v: bool): (r: EnabledSections)
    ensures GetFlag(r, f) == v
    ensures forall g :: g != f ==> GetFlag(r, g) == GetFlag(e, g)
  {
    match f
    case WaitingIndicatorFlag => e.(waitingIndicator := v)
    case GitFlag => e.(git := v)
    case DirectoryFlag => e.(directory := v)
    case ModelFlag => e.(model := v)
    case ContextMoonsFlag => e.(contextMoons := v)
    case TokenCountFlag => e.(tokenCount := v)
    case PercentageFlag => e.(percentage := v)
    case MascotFlag => e.(mascot := v)
  }

  /** The eight flags are all of `EnabledSections`: two records that agree on
      every flag are equal. */
  lemma FlagsExtensional(a: EnabledSections, b: EnabledSections)
    requires forall f :: GetFlag(a, f) == GetFlag(b, f)
    ensures a == b
  {
    assert GetFlag(a, WaitingIndicatorFlag) == GetFlag(b, WaitingIndicatorFlag);
    assert GetFlag(a, GitFlag) == GetFlag(b, GitFlag);
    assert GetFlag(a, DirectoryFlag) == GetFlag(b, DirectoryFlag);
    assert GetFlag(a, ModelFlag) == GetFlag(b, ModelFlag);
    assert GetFlag(a, ContextMoonsFlag) == GetFlag(b, ContextMoonsFlag);
    assert GetFlag(a, TokenCountFlag) == GetFlag(b, TokenCountFlag);
    assert GetFlag(a, PercentageFlag) == GetFlag(b, PercentageFlag);
    assert GetFlag(a, MascotFlag) == GetFlag(b, MascotFlag);
  }

  /** Flipping a flag. */
  function FlipFlag(e: EnabledSections, f: SectionFlag): (r: EnabledSections)
    ensures GetFlag(r, f) == !GetFlag(e, f)
    ensures forall g :: g != f ==> GetFlag(r, g) == GetFlag(e, g)
  {
    SetFlag(e, f, !GetFlag(e, f))
  }

  /** Flipping the same flag twice gives back the record. */
  lemma FlipFlagTwice(e: EnabledSections, f: SectionFlag)
    ensures FlipFlag(FlipFlag(e, f), f) == e
  {
    var once := FlipFlag(e, f);
    var r := FlipFlag(once, f);
    forall g ensures GetFlag(r, g) == GetFlag(e, g) {
      if g != f {
        assert GetFlag(r, g) == GetFlag(once, g);
      }
    }
    FlagsExtensional(r, e);
  }

  // ------------------------------------------------------------------ mascot

  /** The three trigger-based moods. */
  datatype Mood = ContextPanicMood | ProductiveMood | DeletionMood

  /** A boolean of the mascot record. The four time-of-day moods have one
      enabled flag and one animate flag between them. */
  datatype BoolRef = MoodEnabled(mood: Mood) | MoodAnimate(mood: Mood) | TimeEnabled | TimeAnimate

  /** An integer of the mascot record. */
  datatype IntRef = MoodThreshold(mood: Mood) | MoodSpeed(mood: Mood) | TimeSpeed

  /** A frame list of the mascot record. */
  datatype ListRef = MoodEmojis(mood: Mood) | NightEmojis | MorningEmojis | AfternoonEmojis | EveningEmojis

  function StateOf(m: Mascot, mood: Mood): MascotState
  {
    match mood
    case ContextPanicMood => m.contextPanic
    case ProductiveMood => m.productive
    case DeletionMood => m.deletion
  }

  function WithState(m: Mascot, mood: Mood, st: MascotState): Mascot
  {
    match mood
    case ContextPanicMood => m.(contextPanic := st)
    case ProductiveMood => m.(productive := st)
    case DeletionMood => m.(deletion := st)
  }

  function GetBool(m: Mascot, r: BoolRef): bool
  {
    match r
    case MoodEnabled(mood) => StateOf(m, mood).enabled
    case MoodAnimate(mood) => StateOf(m, mood).animate
    case TimeEnabled => m.timeBased.enabled
    case TimeAnimate => m.timeBased.animate
  }

  function GetInt(m: Mascot, r: IntRef): GoInt
  {
    match r
    case MoodThreshold(mood) => StateOf(m, mood).threshold
    case MoodSpeed(mood) => StateOf(m, mood).speed
    case TimeSpeed => m.timeBased.speed
  }

  function GetList(m: Mascot, r: ListRef): seq<string>
  {
    match r
    case MoodEmojis(mood) => StateOf(m, mood).emojis
    case NightEmojis => m.timeBased.night
    case MorningEmojis => m.timeBased.morning
    case AfternoonEmojis => m.timeBased.afternoon
    case EveningEmojis => m.timeBased.evening
  }

  /** The fields reached through `BoolRef`, `IntRef` and `ListRef` are all of
      the mascot record. */
  lemma MascotExtensional(a: Mascot, b: Mascot)
    requires forall r :: GetBool(a, r) == GetBool(b, r)
    requires forall r :: GetInt(a, r) == GetInt(b, r)
    requires forall r :: GetList(a, r) == GetList(b, r)
    ensures a == b
  {
    forall mood ensures StateOf(a, mood) == StateOf(b, mood) {
      assert GetBool(a, MoodEnabled(mood)) == GetBool(b, MoodEnabled(mood));
      assert GetBool(a, MoodAnimate(mood)) == GetBool(b, MoodAnimate(mood));
      assert GetInt(a, MoodThreshold(mood)) == GetInt(b, MoodThreshold(mood));
      assert GetInt(a, MoodSpeed(mood)) == GetInt(b, MoodSpeed(mood));
      assert GetList(a, MoodEmojis(mood)) == GetList(b, MoodEmojis(mood));
    }
    assert StateOf(a, ContextPanicMood) == StateOf(b, ContextPanicMood);
    assert StateOf(a, ProductiveMood) == StateOf(b, ProductiveMood);
    assert StateOf(a, DeletionMood) == StateOf(b, DeletionMood);
    assert GetBool(a, TimeEnabled) == GetBool(b, TimeEnabled);
    assert GetBool(a, TimeAnimate) == GetBool(b, TimeAnimate);
    assert GetInt(a, TimeSpeed) == GetInt(b, TimeSpeed);
    assert GetList(a, NightEmojis) == GetList(b, NightEmojis);
    assert GetList(a, MorningEmojis) == GetList(b, MorningEmojis);
    assert GetList(a, AfternoonEmojis) == GetList(b, AfternoonEmojis);
    assert GetList(a, EveningEmojis) == GetList(b, EveningEmojis);
  }

  function SetBool(m: Mascot, r: BoolRef, v: bool): (m': Mascot)
    ensures GetBool(m', r) == v
    ensures forall q :: q != r ==> GetBool(m', q) == GetBool(m, q)
    ensures forall q :: GetInt(m', q) == GetInt(m, q)
    ensures forall q :: GetList(m', q) == GetList(m, q)
  {
    match r
    case MoodEnabled(mood) => WithState(m, mood, StateOf(m, mood).(enabled := v))
    case MoodAnimate(mood) => WithState(m, mood, StateOf(m, mood).(animate := v))
    case TimeEnabled => m.(timeBased := m.timeBased.(enabled := v))
    case TimeAnimate => m.(timeBased := m.timeBased.(animate := v))
  }

  function SetInt(m: Mascot, r: IntRef, v: GoInt): (m': Mascot)
    ensures GetInt(m', r) == v
    ensures forall q :: q != r ==> GetInt(m', q) == GetInt(m, q)
    ensures forall q :: GetBool(m', q) == GetBool(m, q)
    ensures forall q :: GetList(m', q) == GetList(m, q)
  {
    match r
    case MoodThreshold(mood) => WithState(m, mood, StateOf(m, mood).(threshold := v))
    case MoodSpeed(mood) => WithState(m, mood, StateOf(m, mood).(speed := v))
    case TimeSpeed => m.(timeBased := m.timeBased.(speed := v))
  }

  function SetList(m: Mascot, r: ListRef, v: seq<string>): (m': Mascot)
    ensures GetList(m', r) == v
    ensures forall q :: q != r ==> GetList(m', q) == GetList(m, q)
    ensures forall q :: GetBool(m', q) == GetBool(m, q)
    ensures forall q :: GetInt(m', q) == GetInt(m, q)
  {
    match r
    case MoodEmojis(mood) => WithState(m, mood, StateOf(m, mood).(emojis := v))
    case NightEmojis => m.(timeBased := m.timeBased.(night := v))
    case MorningEmojis => m.(timeBased := m.timeBased.(morning := v))
    case AfternoonEmojis => m.(timeBased := m.timeBased.(afternoon := v))
    case EveningEmojis => m.(timeBased := m.timeBased.(evening := v))
  }

  /** Writing back the value a field already holds changes nothing. */
  lemma SetIntSame(m: Mascot, r: IntRef)
    ensures SetInt(m, r, GetInt(m, r)) == m
  {
    MascotExtensional(SetInt(m, r, GetInt(m, r)), m);
  }

  /** Flipping a mascot boolean twice gives back the record. */
  lemma FlipBoolTwice(m: Mascot, r: BoolRef)
    ensures SetBool(SetBool(m, r, !GetBool(m, r)), r, GetBool(m, r)) == m
  {
    MascotExtensional(SetBool(SetBool(m, r, !GetBool(m, r)), r, GetBool(m, r)), m);
  }
}
