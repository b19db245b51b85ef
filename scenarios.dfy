/** Clients of the registry that show what its contracts let a caller conclude. */
module Scenarios {
  import opened Wrappers
  import opened JsText
  import opened Plugins
  import opened PluginRegistry

  /** The enabled list of the scenario below: A and C, in catalog order. */
  lemma {:induction false} ScenarioEnabled(a: Plugin, b: Plugin, c: Plugin)
    requires a.name == "delta" && b.name == "iob" && c.name == "cob"
    ensures Filter([a, b, c], EnabledBy(ArrayOf(["delta", "cob"]))) == [a, c]
  {
    var rule := EnabledBy(ArrayOf(["delta", "cob"]));
    assert Keeps(rule, a) && !Keeps(rule, b) && Keeps(rule, c);
    assert [a][..0] == [];
    assert Filter([a], rule) == [a];
    assert [a, b][..1] == [a];
    assert Filter([a, b], rule) == [a];
    assert [a, b, c][..2] == [a, b];
  }

  /** The shown list of the scenario below: A because its name is special, C because the sandbox lists it. */
  lemma {:induction false} ScenarioShown(a: Plugin, c: Plugin, sbx: Option<Sandbox>)
    requires a.name == "delta" && c.name == "cob"
    requires sbx == Some(Sandbox(Some(ArrayOf(["cob"]))))
    ensures Filter([a, c], ShownFor(sbx)) == [a, c]
  {
    SpecialNamesAreSpecial(1);
    assert Keeps(ShownFor(sbx), a) && Keeps(ShownFor(sbx), c);
    assert [a, c][..1] == [a] && [a][..0] == [];
  }

  /** What the registry of the scenario below reports once A and C are enabled. */
  lemma ScenarioView(registry: Registry, a: Plugin, b: Plugin, c: Plugin, sbx: Option<Sandbox>)
    requires a.name == "delta" && b.name == "iob" && c.name == "cob"
    requires a.pluginType == Some("major") && b.pluginType == Some("minor") && c.pluginType == Some("status")
    requires registry.enabledPlugins == [a, c]
    requires sbx == Some(Sandbox(Some(ArrayOf(["cob"]))))
    ensures registry.ShownPlugins(sbx) == [a, c]
    ensures Names(registry.enabledPlugins) == ["delta", "cob"]
    ensures Names(registry.ShownPlugins(sbx)) == ["delta", "cob"]
    ensures !registry.HasShownType(b.pluginType, sbx)
  {
    ScenarioShown(a, c, sbx);
  }

  /**
   * Catalog [A, B, C] where only A has a special name; `enable` lists A and C;
   * the sandbox's `showPlugins` lists C. The enabled and the shown plugins are
   * both [A, C] (A through the special list, C through the hint), and B's type,
   * which no shown plugin has, is not shown.
   */
  method EnableAndShow() returns (enabled: seq<string>, shown: seq<string>, typeShown: bool)
    ensures enabled == ["delta", "cob"]
    ensures shown == ["delta", "cob"]
    ensures !typeShown
  {
    var a := new Plugin("delta", Some("major"), {});
    var b := new Plugin("iob", Some("minor"), {});
    var c := new Plugin("cob", Some("status"), {});
    var registry := new Registry([], []);
    registry.Register([a, b, c]);
    assert registry.allPlugins == [a, b, c];
    var self := registry.Init(Settings(ArrayOf(["delta", "cob"])));
    ScenarioEnabled(a, b, c);
    var sbx := Some(Sandbox(Some(ArrayOf(["cob"]))));
    ScenarioView(registry, a, b, c, sbx);
    enabled := Names(registry.enabledPlugins);
    shown := Names(registry.ShownPlugins(sbx));
    typeShown := registry.HasShownType(b.pluginType, sbx);
  }

  /**
   * Running `init` twice with the same settings leaves the same enabled list,
   * and every flag as the settings give it, as after the first run.
   */
  method InitTwice(registry: Registry, settings: Settings) returns (first: seq<Plugin>, second: seq<Plugin>)
    modifies registry, registry.allPlugins
    ensures first == second == registry.enabledPlugins
    ensures registry.allPlugins == old(registry.allPlugins)
    ensures forall i :: 0 <= i < |registry.allPlugins| ==>
      registry.allPlugins[i].enabled == Lists(settings.enable, registry.allPlugins[i].name)
  {
    var self := registry.Init(settings);
    first := registry.enabledPlugins;
    self := registry.Init(settings);
    second := registry.enabledPlugins;
  }

  /** A second `init` with other settings keeps nothing from the first. */
  method InitSupersedes(registry: Registry, s1: Settings, s2: Settings) returns (after: seq<Plugin>)
    modifies registry, registry.allPlugins
    ensures after == registry.enabledPlugins == Filter(old(registry.allPlugins), EnabledBy(s2.enable))
    ensures forall i :: 0 <= i < |after| ==> Lists(s2.enable, after[i].name)
  {
    var self := registry.Init(s1);
    self := registry.Init(s2);
    after := registry.enabledPlugins;
  }
}
