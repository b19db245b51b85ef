/**
 * The plugin registry: the object built by `init()` in lib/plugins/index.js.
 * Its state is the catalog of registered plugins and the enabled subset the
 * last `init(settings)` computed; everything else is derived from those two
 * lists on each call.
 */
module PluginRegistry {
  import opened Wrappers
  import opened JsText
  import opened Plugins
  import opened Dispatch

  /** The configuration `init` reads: its `enable` list of plugin names. */
  datatype Settings = Settings(enable: Listing)

  /** What `plugins(name)` returns: the registry itself, a plugin, or `undefined`. */
  datatype LookupResult = Itself | Found(plugin: Plugin) | NotFound

  /** The one key `extendedClientSettings` copies besides the client default plugin names. */
  const DeviceStatusKey: string := "devicestatus"

  class Registry {
    /** Every registered plugin, in registration order (duplicates kept). */
    var allPlugins: seq<Plugin>
    /** The plugins the last `init` enabled, in catalog order. */
    var enabledPlugins: seq<Plugin>
    /** The default plugin instances for a browser client and for the server, in registration order. */
    const clientDefaults: seq<Plugin>
    const serverDefaults: seq<Plugin>

    constructor (clientDefaults: seq<Plugin>, serverDefaults: seq<Plugin>)
      ensures allPlugins == [] && enabledPlugins == []
      ensures this.clientDefaults == clientDefaults && this.serverDefaults == serverDefaults
    {
      allPlugins := [];
      enabledPlugins := [];
      this.clientDefaults := clientDefaults;
      this.serverDefaults := serverDefaults;
    }

    /**
     * After an `init`, each catalog entry's flag says whether it is in the
     * enabled list, and the enabled list holds catalog entries only.
     */
    ghost predicate Stamped()
      reads this, allPlugins
    {
      && (forall i :: 0 <= i < |enabledPlugins| ==> enabledPlugins[i] in allPlugins)
      && (forall i :: 0 <= i < |allPlugins| ==> (allPlugins[i].enabled <==> allPlugins[i] in enabledPlugins))
    }

    /**
     * `plugins(name)`: a falsy name (`undefined` or "") gives back the registry
     * itself; otherwise the first catalog entry with that name, or `undefined`.
     */
    function Lookup(name: Option<string>): (r: LookupResult)
      reads this
      ensures r.Itself? <==> name.None? || name.value == ""
      ensures r.NotFound? <==> name.Some? && name.value != "" && forall i :: 0 <= i < |allPlugins| ==> allPlugins[i].name != name.value
      ensures r.Found? ==> name.Some? && r.plugin.name == name.value
      ensures r.Found? ==> exists k :: 0 <= k < |allPlugins| && allPlugins[k] == r.plugin && forall j :: 0 <= j < k ==> allPlugins[j].name != name.value
    {
      if name.None? || name.value == "" then Itself
      else
        match Find(allPlugins, Named(name.value))
        case None => NotFound
        case Some(p) => Found(p)
    }

    /** `register(all)`: appends every plugin of `plugins`, in order, with no duplicate check. */
    method Register(plugins: seq<Plugin>)
      modifies this
      ensures allPlugins == old(allPlugins) + plugins
      ensures enabledPlugins == old(enabledPlugins)
    {
      var i := 0;
      while i < |plugins|
        invariant 0 <= i <= |plugins|
        invariant allPlugins == old(allPlugins) + plugins[..i]
        invariant enabledPlugins == old(enabledPlugins)
      {
        assert plugins[..i + 1] == plugins[..i] + [plugins[i]];
        allPlugins := allPlugins + [plugins[i]];
        i := i + 1;
      }
      assert plugins[..|plugins|] == plugins;
    }

    /** `registerClientDefaults()`: registers the client default plugins and returns the registry. */
    method RegisterClientDefaults() returns (self: Registry)
      modifies this
      ensures self == this
      ensures allPlugins == old(allPlugins) + clientDefaults
      ensures enabledPlugins == old(enabledPlugins)
    {
      Register(clientDefaults);
      self := this;
    }

    /** `registerServerDefaults()`: registers the server default plugins and returns the registry. */
    method RegisterServerDefaults() returns (self: Registry)
      modifies this
      ensures self == this
      ensures allPlugins == old(allPlugins) + serverDefaults
      ensures enabledPlugins == old(enabledPlugins)
    {
      Register(serverDefaults);
      self := this;
    }

    /**
     * `init(settings)`: recomputes the enabled list from scratch. Each catalog
     * entry's `enabled` flag is set to whether `settings.enable` lists its name,
     * and the enabled list becomes the flagged entries in catalog order. The
     * result depends on the catalog and the settings only, not on any earlier `init`.
     */
    method Init(settings: Settings) returns (self: Registry)
      modifies this, allPlugins
      ensures self == this
      ensures allPlugins == old(allPlugins)
      ensures forall i :: 0 <= i < |allPlugins| ==> allPlugins[i].enabled == Lists(settings.enable, allPlugins[i].name)
      ensures enabledPlugins == Filter(allPlugins, EnabledBy(settings.enable))
      ensures Stamped()
    {
      enabledPlugins := [];
      var i := 0;
      while i < |allPlugins|
        invariant 0 <= i <= |allPlugins|
        invariant allPlugins == old(allPlugins)
        invariant forall j :: 0 <= j < i ==> allPlugins[j].enabled == Lists(settings.enable, allPlugins[j].name)
        invariant enabledPlugins == Filter(allPlugins[..i], EnabledBy(settings.enable))
      {
        assert allPlugins[..i + 1][..i] == allPlugins[..i];
        var plugin := allPlugins[i];
        plugin.enabled := Lists(settings.enable, plugin.name);
        if plugin.enabled {
          enabledPlugins := enabledPlugins + [plugin];
        }
        i := i + 1;
      }
      assert allPlugins[..|allPlugins|] == allPlugins;
      forall k | 0 <= k < |allPlugins|
        ensures allPlugins[k].enabled <==> allPlugins[k] in enabledPlugins
      {
        FilterMember(allPlugins, EnabledBy(settings.enable), allPlugins[k]);
      }
      forall k | 0 <= k < |enabledPlugins|
        ensures enabledPlugins[k] in allPlugins
      {
        FilterMember(allPlugins, EnabledBy(settings.enable), enabledPlugins[k]);
      }
      self := this;
    }

    /** `eachPlugin(f)`: `_.each` over the catalog. */
    method EachPlugin(stopsAt: (Plugin, nat) -> bool) returns (visited: seq<Plugin>)
      ensures VisitedByEach(visited, allPlugins, stopsAt)
    {
      visited := Each(allPlugins, stopsAt);
    }

    /** `eachEnabledPlugin(f)`: `_.each` over the enabled list. */
    method EachEnabledPlugin(stopsAt: (Plugin, nat) -> bool) returns (visited: seq<Plugin>)
      ensures VisitedByEach(visited, enabledPlugins, stopsAt)
    {
      visited := Each(enabledPlugins, stopsAt);
    }

    /**
     * `shownPlugins(sbx)`: the enabled plugins whose name is special or, when
     * the sandbox has a truthy `showPlugins`, listed there; in enabled order.
     */
    function ShownPlugins(sbx: Option<Sandbox>): (r: seq<Plugin>)
      reads this
      ensures forall i :: 0 <= i < |r| ==> IsSpecial(r[i].name) || HintedBy(sbx, r[i].name)
    {
      Filter(enabledPlugins, ShownFor(sbx))
    }

    /** The shown plugins are an order-preserving subsequence of the enabled ones. */
    lemma ShownIsSubsequence(sbx: Option<Sandbox>)
      ensures IsSubsequence(ShownPlugins(sbx), enabledPlugins)
    {
      FilterIsSubsequence(enabledPlugins, ShownFor(sbx));
    }

    /**
     * A plugin is shown iff it is enabled and special or hinted; an enabled
     * special plugin is shown as often as it is enabled, whatever the sandbox.
     */
    lemma ShownMember(sbx: Option<Sandbox>, p: Plugin)
      ensures p in ShownPlugins(sbx) <==> p in enabledPlugins && (IsSpecial(p.name) || HintedBy(sbx, p.name))
      ensures IsSpecial(p.name) ==> multiset(ShownPlugins(sbx))[p] == multiset(enabledPlugins)[p]
    {
      FilterCount(enabledPlugins, ShownFor(sbx), p);
    }

    /** After an `init`, a disabled plugin is never shown, even when the sandbox lists it. */
    lemma DisabledNeverShown(sbx: Option<Sandbox>, p: Plugin)
      requires Stamped()
      requires p in allPlugins && !p.enabled
      ensures p !in ShownPlugins(sbx)
    {
      FilterMember(enabledPlugins, ShownFor(sbx), p);
    }

    /** `eachShownPlugins(sbx, f)`: `_.each` over the shown plugins. */
    method EachShownPlugins(sbx: Option<Sandbox>, stopsAt: (Plugin, nat) -> bool) returns (visited: seq<Plugin>)
      ensures VisitedByEach(visited, ShownPlugins(sbx), stopsAt)
    {
      visited := Each(ShownPlugins(sbx), stopsAt);
    }

    /** `hasShownType(pluginType, sbx)`: some shown plugin has exactly this `pluginType` (`undefined` included). */
    function HasShownType(pluginType: Option<string>, sbx: Option<Sandbox>): (r: bool)
      reads this
      ensures r <==> exists i :: 0 <= i < |ShownPlugins(sbx)| && ShownPlugins(sbx)[i].pluginType == pluginType
    {
      Find(ShownPlugins(sbx), OfType(pluginType)).Some?
    }

    /** Without a sandbox, the special enabled plugins are still shown, so their types still count. */
    lemma HasShownTypeWithoutSandbox(pluginType: Option<string>)
      ensures HasShownType(pluginType, None) <==>
        exists i :: 0 <= i < |enabledPlugins| && IsSpecial(enabledPlugins[i].name) && enabledPlugins[i].pluginType == pluginType
    {
      var shown := ShownPlugins(None);
      if HasShownType(pluginType, None) {
        var i :| 0 <= i < |shown| && shown[i].pluginType == pluginType;
        FilterMember(enabledPlugins, ShownFor(None), shown[i]);
        var k :| 0 <= k < |enabledPlugins| && enabledPlugins[k] == shown[i];
      }
      if exists i :: 0 <= i < |enabledPlugins| && IsSpecial(enabledPlugins[i].name) && enabledPlugins[i].pluginType == pluginType {
        var i :| 0 <= i < |enabledPlugins| && IsSpecial(enabledPlugins[i].name) && enabledPlugins[i].pluginType == pluginType;
        FilterMember(enabledPlugins, ShownFor(None), enabledPlugins[i]);
        var k :| 0 <= k < |shown| && shown[k] == enabledPlugins[i];
      }
    }

    /** `setProperties(sbx)`: calls `setProperties` on every enabled plugin that has it, in enabled order. */
    method SetProperties<X>(extend: Plugin -> X) returns (calls: seq<Invocation<X>>)
      ensures Targets(calls) == Filter(enabledPlugins, Implements(Hook.SetProperties))
      ensures forall i :: 0 <= i < |calls| ==> calls[i].context == extend(calls[i].plugin)
    {
      calls := FanOut(enabledPlugins, Hook.SetProperties, extend);
    }

    /** `checkNotifications(sbx)`: calls `checkNotifications` on every enabled plugin that has it, in enabled order. */
    method CheckNotifications<X>(extend: Plugin -> X) returns (calls: seq<Invocation<X>>)
      ensures Targets(calls) == Filter(enabledPlugins, Implements(Hook.CheckNotifications))
      ensures forall i :: 0 <= i < |calls| ==> calls[i].context == extend(calls[i].plugin)
    {
      calls := FanOut(enabledPlugins, Hook.CheckNotifications, extend);
    }

    /** `updateVisualisations(sbx)`: calls `updateVisualisation` on every shown plugin that has it, in shown order. */
    method UpdateVisualisations<X>(sbx: Sandbox, extend: Plugin -> X) returns (calls: seq<Invocation<X>>)
      ensures Targets(calls) == Filter(ShownPlugins(Some(sbx)), Implements(Hook.UpdateVisualisation))
      ensures forall i :: 0 <= i < |calls| ==> calls[i].context == extend(calls[i].plugin)
    {
      calls := FanOut(ShownPlugins(Some(sbx)), Hook.UpdateVisualisation, extend);
    }

    /** Only shown plugins are asked to render, and only those with the hook. */
    lemma UpdateVisualisationsOnlyShown(sbx: Sandbox, p: Plugin)
      ensures p in Filter(ShownPlugins(Some(sbx)), Implements(Hook.UpdateVisualisation)) <==>
        p in enabledPlugins && (IsSpecial(p.name) || HintedBy(Some(sbx), p.name)) && Hook.UpdateVisualisation in p.hooks
    {
      FilterMember(ShownPlugins(Some(sbx)), Implements(Hook.UpdateVisualisation), p);
      ShownMember(Some(sbx), p);
    }

    /**
     * `getAllEventTypes(sbx)`: the concatenation, in enabled order, of the
     * `getEventTypes` results that are arrays; `answer(p)` is what plugin `p`'s
     * hook returns for its extended sandbox.
     */
    method GetAllEventTypes<E>(answer: Plugin -> HookValue<E>) returns (all: seq<E>)
      ensures all == EventTypes(enabledPlugins, answer)
    {
      all := [];
      for i := 0 to |enabledPlugins|
        invariant all == EventTypes(enabledPlugins[..i], answer)
      {
        assert enabledPlugins[..i + 1][..i] == enabledPlugins[..i];
        var plugin := enabledPlugins[i];
        if GetEventTypes in plugin.hooks {
          var eventTypes := answer(plugin);
          if eventTypes.JsArray? {
            all := all + eventTypes.elems;
          }
        }
      }
      assert enabledPlugins[..|enabledPlugins|] == enabledPlugins;
    }

    /** `enabledPluginNames()`: the enabled names joined by single spaces; "" when nothing is enabled. */
    function EnabledPluginNames(): (s: string)
      reads this
      ensures enabledPlugins == [] ==> s == ""
      ensures |enabledPlugins| == 1 ==> s == enabledPlugins[0].name
    {
      Join(Names(enabledPlugins), ' ')
    }

    /** When no enabled name contains a space, splitting the summary at spaces gives back the enabled names in order. */
    lemma EnabledNamesRoundTrip()
      requires enabledPlugins != []
      requires forall i :: 0 <= i < |enabledPlugins| ==> ' ' !in enabledPlugins[i].name
      ensures Split(EnabledPluginNames(), ' ') == Names(enabledPlugins)
    {
      var names := Names(enabledPlugins);
      forall w | w in names
        ensures ' ' !in w
      {
        var i :| 0 <= i < |names| && names[i] == w;
      }
      SplitJoin(names, ' ');
    }

    /**
     * `extendedClientSettings(all)`: a new map keyed by the client default
     * plugin names and "devicestatus", each holding `all[key]` (`undefined`
     * when `all` has no such key). `all` is a value and is left as it was.
     */
    method ExtendedClientSettings<V>(all: map<string, V>) returns (client: map<string, Option<V>>)
      ensures client.Keys == (set i | 0 <= i < |clientDefaults| :: clientDefaults[i].name) + {DeviceStatusKey}
      ensures forall k :: k in client ==> client[k] == Get(all, k)
    {
      client := map[];
      for i := 0 to |clientDefaults|
        invariant client.Keys == set j | 0 <= j < i :: clientDefaults[j].name
        invariant forall k :: k in client ==> client[k] == Get(all, k)
      {
        var name := clientDefaults[i].name;
        client := client[name := Get(all, name)];
      }
      client := client[DeviceStatusKey := Get(all, DeviceStatusKey)];
    }
  }
}
