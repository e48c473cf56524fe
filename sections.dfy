/** The Sections screen: eight check boxes, each bound to one flag of
    `EnabledSections` in the configuration object. */
module Sections {
  import opened Configuration
  import opened Bindings
  import opened Cursor

  /** The Go `*bool` of an item: which configuration object, which flag. */
  datatype FlagBinding = FlagBinding(target: Config, flag: SectionFlag)

  datatype SectionItem = SectionItem(key: string, name: string, description: string, enabled: FlagBinding)

  /** The flag each of the eight rows is bound to, top to bottom. */
  function ItemFlags(): seq<SectionFlag>
  {
    [WaitingIndicatorFlag, GitFlag, DirectoryFlag, ModelFlag, ContextMoonsFlag, TokenCountFlag, PercentageFlag, MascotFlag]
  }

  /** No two rows share a flag. */
  lemma ItemFlagsDistinct()
    ensures |ItemFlags()| == 8
    ensures forall i, j :: 0 <= i < 8 && 0 <= j < 8 && i != j ==> ItemFlags()[i] != ItemFlags()[j]
  {
  }

  /** Toggling row `i` leaves the flag of every other row `j` as it was. */
  lemma ToggleIsolated(e: EnabledSections, i: int, j: int)
    requires 0 <= i < 8 && 0 <= j < 8 && i != j
    ensures GetFlag(FlipFlag(e, ItemFlags()[i]), ItemFlags()[j]) == GetFlag(e, ItemFlags()[j])
  {
    ItemFlagsDistinct();
  }

  class SectionsView {
    var items: seq<SectionItem>
    var selected: int
    var config: Config

    /** Every row is bound, in order, to its flag of the view's configuration. */
    ghost predicate Valid()
      reads this
    {
      |items| == 8 && forall i :: 0 <= i < 8 ==> items[i].enabled == FlagBinding(config, ItemFlags()[i])
    }

    constructor (cfg: Config)
      ensures Valid() && config == cfg && selected == 0
    {
      config := cfg;
      items := [
        SectionItem("waiting_indicator", "Waiting Indicator", "Show alert when Claude needs your input", FlagBinding(cfg, WaitingIndicatorFlag)),
        SectionItem("git", "Git Branch", "Show current git branch and status", FlagBinding(cfg, GitFlag)),
        SectionItem("directory", "Directory", "Show current directory name", FlagBinding(cfg, DirectoryFlag)),
        SectionItem("model", "Model Name", "Show Claude model in use", FlagBinding(cfg, ModelFlag)),
        SectionItem("context_moons", "Context Moons", "Visual moon phases for context usage", FlagBinding(cfg, ContextMoonsFlag)),
        SectionItem("token_count", "Token Count", "Show token count (e.g., 12k)", FlagBinding(cfg, TokenCountFlag)),
        SectionItem("percentage", "Percentage", "Show context usage percentage", FlagBinding(cfg, PercentageFlag)),
        SectionItem("mascot", "Mascot", "Show reactive mascot emoji", FlagBinding(cfg, MascotFlag))
      ];
      selected := 0;
    }

    /** Point the view and all eight rows at another configuration object. */
    method UpdateConfig(cfg: Config)
      requires |items| == 8
      modifies this`config, this`items
      ensures Valid() && config == cfg
      ensures forall i :: 0 <= i < 8 ==> items[i].enabled.target == cfg
      ensures forall i :: 0 <= i < 8 ==> items[i].(enabled := old(items[i].enabled)) == old(items[i])
    {
      config := cfg;
      ItemFlagsDistinct();
      var rows := items;
      items := seq(8, i requires 0 <= i < 8 => rows[i].(enabled := FlagBinding(cfg, ItemFlags()[i])));
    }

    /** One row up, wrapping from the first row to the last. */
    method Up()
      requires Valid()
      modifies this`selected
      ensures 0 <= old(selected) < 8 ==> selected == Prev(old(selected), 8)
      ensures old(selected) < 0 ==> selected == 7
      ensures old(selected) >= 8 ==> selected == old(selected) - 1
    {
      selected := selected - 1;
      if selected < 0 {
        selected := |items| - 1;
      }
      if 0 <= old(selected) < 8 {
        PrevWraps(old(selected), 8);
      }
    }

    /** One row down, wrapping from the last row to the first. */
    method Down()
      requires Valid()
      modifies this`selected
      ensures 0 <= old(selected) < 8 ==> selected == Next(old(selected), 8)
      ensures old(selected) >= 7 ==> selected == 0
      ensures old(selected) < 7 ==> selected == old(selected) + 1
    {
      selected := selected + 1;
      if selected >= |items| {
        selected := 0;
      }
      if 0 <= old(selected) < 8 {
        NextWraps(old(selected), 8);
      }
    }

    /** Flip the flag the selected row is bound to; out of range, do nothing. */
    method Toggle()
      requires Valid()
      modifies config`enabledSections
      ensures 0 <= selected < 8 ==>
        config.Value() == old(config.Value()).(enabledSections := FlipFlag(old(config.enabledSections), ItemFlags()[selected]))
      ensures !(0 <= selected < 8) ==> config.Value() == old(config.Value())
    {
      if selected >= 0 && selected < |items| {
        var b := items[selected].enabled;
        b.target.enabledSections := SetFlag(b.target.enabledSections, b.flag, !GetFlag(b.target.enabledSections, b.flag));
      }
    }
  }
}
