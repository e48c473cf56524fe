/** The live preview: the statusline the current configuration would print
    for a fixed sample session (branch "main", directory "project", model
    "Sonnet", 12k tokens at 45%), before any styling. */
module Preview {
  import opened Configuration

  /** The preview's sections, in the order they are printed. */
  datatype Section = GitSection | DirectorySection | ModelSection | ContextSection | MascotSection

  function Rank(sec: Section): nat
  {
    match sec
    case GitSection => 0
    case DirectorySection => 1
    case ModelSection => 2
    case ContextSection => 3
    case MascotSection => 4
  }

  datatype Part = Part(section: Section, text: string)

  /** Whether a section appears: the context section appears when any of
      moons, token count and percentage is enabled. */
  predicate Shown(e: EnabledSections, sec: Section)
  {
    match sec
    case GitSection => e.git
    case DirectorySection => e.directory
    case ModelSection => e.model
    case ContextSection => e.contextMoons || e.tokenCount || e.percentage
    case MascotSection => e.mascot
  }

  const MoonsFallback: string := "🌑🌘🌗"
  const MascotFallback: string := "🎧 in the zone"

  /** The first three moon icons, or a fixed sample with fewer than three. */
  function MoonsSample(ic: Icons): string
  {
    if |ic.moons| >= 3 then ic.moons[0] + ic.moons[1] + ic.moons[2] else MoonsFallback
  }

  /** The sample mascot: the first afternoon frame when the time-of-day mood
      is on and has a frame, a fixed text otherwise. */
  function MascotSample(m: Mascot): string
  {
    if m.timeBased.enabled && |m.timeBased.afternoon| > 0 then m.timeBased.afternoon[0] else MascotFallback
  }

  /** The context section's text: the moons followed by the token count and
      the percentage, each after a space; without moons, the token count and
      the percentage alone, separated by one space when both are on. */
  function ContextText(e: EnabledSections, ic: Icons): (r: string)
    ensures e.contextMoons ==> MoonsSample(ic) <= r
    ensures !e.contextMoons && e.tokenCount && e.percentage ==> r == "12k (45%)"
    ensures !e.contextMoons && e.tokenCount && !e.percentage ==> r == "12k"
    ensures !e.contextMoons && !e.tokenCount && e.percentage ==> r == "(45%)"
  {
    if e.contextMoons then
      var m := MoonsSample(ic);
      var r := m + (if e.tokenCount then " 12k" else "") + (if e.percentage then " (45%)" else "");
      assert r[..|m|] == m;
      r
    else
      var tokens := if e.tokenCount then "12k" else "";
      if e.percentage then (if tokens != "" then tokens + " " else tokens) + "(45%)" else tokens
  }

  /** The text a shown section prints. */
  function SectionText(s: Settings, sec: Section): string
  {
    match sec
    case GitSection => s.icons.gitClean + " main"
    case DirectorySection => s.icons.directory + " project"
    case ModelSection => "Sonnet"
    case ContextSection => ContextText(s.enabledSections, s.icons)
    case MascotSection => MascotSample(s.mascot)
  }

  /** The part section `sec` contributes: one when it is shown, none
      otherwise. */
  function Piece(s: Settings, sec: Section): seq<Part>
  {
    if Shown(s.enabledSections, sec) then [Part(sec, SectionText(s, sec))] else []
  }

  /** The parts the preview joins, section by section in print order. */
  function Parts(s: Settings): seq<Part>
  {
    Piece(s, GitSection) + Piece(s, DirectorySection) + Piece(s, ModelSection)
    + Piece(s, ContextSection) + Piece(s, MascotSection)
  }

  function Texts(parts: seq<Part>): (r: seq<string>)
    ensures |r| == |parts| && forall i :: 0 <= i < |parts| ==> r[i] == parts[i].text
  {
    seq(|parts|, i requires 0 <= i < |parts| => parts[i].text)
  }

  lemma TextsAppend(a: seq<Part>, b: seq<Part>)
    ensures Texts(a + b) == Texts(a) + Texts(b)
  {
  }

  lemma TextsPiece(s: Settings, sec: Section)
    ensures Texts(Piece(s, sec)) == if Shown(s.enabledSections, sec) then [SectionText(s, sec)] else []
  {
  }

  /** The texts of the parts, section by section. */
  lemma TextsOfParts(s: Settings)
    ensures Texts(Parts(s)) == Texts(Piece(s, GitSection)) + Texts(Piece(s, DirectorySection))
      + Texts(Piece(s, ModelSection)) + Texts(Piece(s, ContextSection)) + Texts(Piece(s, MascotSection))
  {
    var g, d, m, c := Piece(s, GitSection), Piece(s, DirectorySection), Piece(s, ModelSection), Piece(s, ContextSection);
    TextsAppend(g + d + m + c, Piece(s, MascotSection));
    TextsAppend(g + d + m, c);
    TextsAppend(g + d, m);
    TextsAppend(g, d);
  }

  /** The separator the preview uses: the configured one, or " | " when it
      is empty. */
  function SeparatorOf(d: Display): (r: string)
    ensures r != ""
    ensures d.separator != "" ==> r == d.separator
  {
    if d.separator == "" then " | " else d.separator
  }

  /** `strings.Join`: the texts with `sep` between each neighbouring pair. */
  function Join(xs: seq<string>, sep: string): string
  {
    if |xs| == 0 then "" else if |xs| == 1 then xs[0] else xs[0] + sep + Join(xs[1..], sep)
  }

  /** Appending one more text to a non-empty list appends the separator and
      that text to the joined string, the way the preview grows one part at
      a time. */
  lemma {:induction false} JoinAppend(xs: seq<string>, x: string, sep: string)
    requires xs != []
    ensures Join(xs + [x], sep) == Join(xs, sep) + sep + x
  {
    var ys := xs + [x];
    if |xs| == 1 {
      assert ys[1..] == [x];
    } else {
      assert ys[1..] == xs[1..] + [x];
      JoinAppend(xs[1..], x, sep);
    }
  }

  function TotalLength(xs: seq<string>): nat
  {
    if xs == [] then 0 else |xs[0]| + TotalLength(xs[1..])
  }

  /** The joined string is as long as its texts and the separators between
      them. */
  lemma {:induction false} JoinLength(xs: seq<string>, sep: string)
    requires xs != []
    ensures |Join(xs, sep)| == TotalLength(xs) + (|xs| - 1) * |sep|
  {
    if |xs| > 1 {
      JoinLength(xs[1..], sep);
      assert (|xs| - 1) * |sep| == (|xs[1..]| - 1) * |sep| + |sep|;
    } else {
      assert TotalLength(xs[1..]) == 0;
    }
  }

  /** Every part's section ranks below `k`. */
  predicate RanksBelow(ps: seq<Part>, k: int)
  {
    forall i :: 0 <= i < |ps| ==> Rank(ps[i].section) < k
  }

  /** Every part's section ranks strictly below the next one's. */
  predicate Ordered(ps: seq<Part>)
  {
    forall i, j :: 0 <= i < j < |ps| ==> Rank(ps[i].section) < Rank(ps[j].section)
  }

  /** Appending the piece of a section that ranks above everything before it
      keeps the parts ordered. */
  lemma AppendPiece(ps: seq<Part>, s: Settings, sec: Section)
    requires Ordered(ps) && RanksBelow(ps, Rank(sec))
    ensures Ordered(ps + Piece(s, sec)) && RanksBelow(ps + Piece(s, sec), Rank(sec) + 1)
  {
    var r := ps + Piece(s, sec);
    forall i, j | 0 <= i < j < |r|
      ensures Rank(r[i].section) < Rank(r[j].section)
    {
      if j >= |ps| {
        assert r[j].section == sec;
      }
    }
  }

  /** The parts are in the order git, directory, model, context, mascot, so
      each section appears at most once. */
  lemma PartsOrdered(s: Settings)
    ensures Ordered(Parts(s))
  {
    AppendPiece([], s, GitSection);
    AppendPiece(Piece(s, GitSection), s, DirectorySection);
    AppendPiece(Piece(s, GitSection) + Piece(s, DirectorySection), s, ModelSection);
    AppendPiece(Piece(s, GitSection) + Piece(s, DirectorySection) + Piece(s, ModelSection), s, ContextSection);
    AppendPiece(Piece(s, GitSection) + Piece(s, DirectorySection) + Piece(s, ModelSection) + Piece(s, ContextSection), s, MascotSection);
    assert [] + Piece(s, GitSection) == Piece(s, GitSection);
  }

  /** A section appears exactly when it is enabled, and every part carries
      its own section's text. */
  lemma PartsPresence(s: Settings, sec: Section)
    ensures Part(sec, SectionText(s, sec)) in Parts(s) <==> Shown(s.enabledSections, sec)
    ensures forall p :: p in Parts(s) ==> Shown(s.enabledSections, p.section) && p.text == SectionText(s, p.section)
  {
  }

  /** With every printed section switched off the preview is empty, whatever
      the separator. */
  lemma AllDisabledIsEmpty(s: Settings)
    requires !s.enabledSections.git && !s.enabledSections.directory && !s.enabledSections.model
    requires !s.enabledSections.contextMoons && !s.enabledSections.tokenCount && !s.enabledSections.percentage
    requires !s.enabledSections.mascot
    ensures Join(Texts(Parts(s)), SeparatorOf(s.display)) == ""
  {
  }

  /** With every section enabled, as in the default configuration, all five
      parts are printed. */
  lemma AllEnabledShowsFive(s: Settings)
    requires AllSectionsEnabled(s.enabledSections)
    ensures |Parts(s)| == 5
  {
  }

  class PreviewView {
    const config: Config

    constructor (cfg: Config)
      ensures config == cfg
    {
      config := cfg;
    }

    /** The context section's text, built the way the preview appends it:
        the moons with the token count and percentage after them, or the
        token count and percentage alone. */
    static method ContextPart(e: EnabledSections, ic: Icons) returns (part: string)
      ensures part == ContextText(e, ic)
    {
      if e.contextMoons {
        var moons := "";
        if |ic.moons| >= 3 {
          moons := ic.moons[0] + ic.moons[1] + ic.moons[2];
        } else {
          moons := MoonsFallback;
        }
        part := moons;
        if e.tokenCount {
          part := part + " 12k";
        }
        if e.percentage {
          part := part + " (45%)";
        }
      } else {
        part := "";
        if e.tokenCount {
          part := "12k";
        }
        if e.percentage {
          if part != "" {
            part := part + " ";
          }
          part := part + "(45%)";
        }
      }
    }

    /** The preview string, built by appending one part per shown section
        and joining the parts. It only reads the configuration. */
    method Render() returns (preview: string)
      ensures preview == Join(Texts(Parts(config.Value())), SeparatorOf(config.display))
    {
      var parts: seq<string> := [];
      var cfg := config;
      var e := cfg.enabledSections;
      var ic := cfg.icons;
      var mascot := cfg.mascot;
      var display := cfg.display;
      ghost var s := cfg.Value();
      assert s.enabledSections == e && s.icons == ic && s.mascot == mascot && s.display == display;
      TextsPiece(s, GitSection);
      TextsPiece(s, DirectorySection);
      TextsPiece(s, ModelSection);
      TextsPiece(s, ContextSection);
      TextsPiece(s, MascotSection);
      if e.git {
        parts := parts + [ic.gitClean + " main"];
      }
      ghost var done := Texts(Piece(s, GitSection));
      assert parts == done;
      if e.directory {
        parts := parts + [ic.directory + " project"];
      }
      done := done + Texts(Piece(s, DirectorySection));
      assert parts == done;
      if e.model {
        parts := parts + ["Sonnet"];
      }
      done := done + Texts(Piece(s, ModelSection));
      assert parts == done;
      if e.contextMoons || e.tokenCount || e.percentage {
        var contextPart := ContextPart(e, ic);
        parts := parts + [contextPart];
      }
      done := done + Texts(Piece(s, ContextSection));
      assert parts == done;
      if e.mascot {
        var mascotEmoji: string;
        if mascot.timeBased.enabled && |mascot.timeBased.afternoon| > 0 {
          mascotEmoji := mascot.timeBased.afternoon[0];
        } else {
          mascotEmoji := MascotFallback;
        }
        parts := parts + [mascotEmoji];
      }
      done := done + Texts(Piece(s, MascotSection));
      assert parts == done;
      TextsOfParts(s);
      var separator := display.separator;
      if separator == "" {
        separator := " | ";
      }
      preview := Join(parts, separator);
    }
  }
}
