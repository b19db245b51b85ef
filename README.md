# Plugin registry of cgm-remote-monitor, modelled in Dafny

This project models the plugin registry of the cgm-remote-monitor (Nightscout)
application, `lib/plugins/index.js`. The registry keeps two ordered lists of
plugin objects:

- the catalog (`allPlugins`), which `register` appends to;
- the enabled list (`enabledPlugins`), which `init(settings)` recomputes from the
  catalog and the settings' `enable` list. While doing so, `init` stamps an
  `enabled` flag on every plugin.

Everything else is derived from those two lists on each call:

- the lookup `plugins(name)`;
- the shown plugins for a sandbox. A plugin is shown when its name is special or
  when the sandbox's `showPlugins` lists it;
- `hasShownType`;
- the three capability-checked hook dispatchers;
- the concatenated event types;
- the space-joined summary of enabled names;
- the projection of extended settings onto the client default plugins.

Files and modules:

- `wrappers.dfy` (`Wrappers`): `Option`, the stand-in for `undefined`, and the
  property read `Get`.
- `js_text.dfy` (`JsText`): the JavaScript built-ins the registry depends on.
  `indexOf` on strings is a substring search. `indexOf` on arrays is a
  strict-equality search. It also has the truthiness of a searchable value and
  `join`. `split` is here only as the reference inverse of `join`.
- `plugins.dfy` (`Plugins`): the `Plugin` class and the special-name string. It
  also has `_.filter` and `_.find` over plugin lists. The predicates the registry
  hands them are one `Rule` datatype.
- `dispatch.dfy` (`Dispatch`): the hook fan-out, `_.each` with its early exit,
  and the concatenation of event types.
- `registry.dfy` (`PluginRegistry`): the `Registry` class. Its fields are the
  state that the closure in `index.js` holds.
- `scenarios.dfy` (`Scenarios`): client code that uses the contracts. It holds a
  catalog/enable/show example and two runs of `init` in a row.

A plugin is a class. Its `name`, `pluginType` (optional) and set of implemented
hooks are constant. Its `enabled` flag is a mutable field that `Init` writes in
place. So a plugin object that is registered twice is the same object twice,
exactly as in the JavaScript.

A hook call is recorded as an `Invocation(plugin, context)`. The context is
`extend(plugin)`, where `extend` stands for `sbx.withExtendedSettings`. A
dispatcher returns the trace of the calls it makes, in call order. For
`getEventTypes`, `answer(p)` stands for what plugin `p`'s hook returns: the
abstract value `Undefined`, `JsArray(elems)` or `NotAnArray`.

Where the code behaves differently from what the names suggest:

- The special test is `specialPlugins.indexOf(name) > -1` on the string
  "ar2 delta direction timeago upbat rawbg errorcodes profile". That is a
  substring test, so "ar", "rawb" and "" count as special, and so does "ar2"
  (the AR2 forecast). The model declares the string as written and proves it
  equal to the space-join of its eight words (`SpecialPluginsIsJoin`).
- Without a sandbox (`sbx` undefined), enabled special plugins are still shown.
  So `hasShownType(t)` with no sandbox is true when an enabled special plugin has
  type `t`. `HasShownTypeWithoutSandbox` states this.
- `hasShownType(undefined, sbx)` is true when a shown plugin has no `pluginType`,
  because `undefined === undefined`.
- `settings.enable` and `sbx.showPlugins` are searched with `indexOf`. This works
  on arrays (membership) and on strings (substring). Both are modelled
  (`Listing`). An empty `showPlugins` string is falsy, so it hides the hint
  altogether.
- Registration never removes duplicates. `FilterCount` shows that every derived
  list keeps each plugin as often as the catalog has it.
- `_.each` stops right after the visitor returns `false`. `eachPlugin`,
  `eachEnabledPlugin` and `eachShownPlugins` are modelled with that exit.
  `stopsAt(p, i)` is the visitor's answer for plugin `p` at index `i`. The
  registry's own callbacks never return `false`.

## Model

| member | source | states |
|---|---|---|
| `Plugins.Plugin.constructor` | lib/plugins/index.js:20-59 | a plugin carries a fixed name, optional type and hook set; `enabled` starts false |
| `PluginRegistry.Registry.constructor` | lib/plugins/index.js:5-8 | a new registry has an empty catalog and an empty enabled list, and holds the client and server default lists |
| `PluginRegistry.Registry.Lookup` | lib/plugins/index.js:10-16 | a falsy name (undefined or "") returns the registry itself; otherwise the result is the first catalog entry with that name, or undefined exactly when no entry has it |
| `PluginRegistry.Registry.Register` | lib/plugins/index.js:71-75 | the catalog becomes the old catalog followed by the given plugins, in input order, with no duplicate check; the enabled list is untouched |
| `PluginRegistry.Registry.RegisterClientDefaults` | lib/plugins/index.js:66-69 | appends the client default list to the catalog and returns the registry |
| `PluginRegistry.Registry.RegisterServerDefaults` | lib/plugins/index.js:61-64 | appends the server default list to the catalog and returns the registry |
| `PluginRegistry.Registry.Init` | lib/plugins/index.js:77-91 | the catalog is unchanged; every entry's flag equals "settings.enable lists its name"; the enabled list is exactly the catalog filtered by that test, in catalog order, with nothing kept from an earlier init; flags and list agree (`Stamped`) |
| `PluginRegistry.Registry.EachPlugin` | lib/plugins/index.js:93-95 | visits the catalog in order, stopping right after the first plugin whose visitor returns false |
| `PluginRegistry.Registry.EachEnabledPlugin` | lib/plugins/index.js:97-99 | the same walk over the enabled list |
| `PluginRegistry.Registry.ShownPlugins` | lib/plugins/index.js:104-108 | every shown plugin has a special name or is listed by a truthy `sbx.showPlugins` |
| `PluginRegistry.Registry.ShownIsSubsequence` | lib/plugins/index.js:104-108 | the shown plugins are an order-preserving subsequence of the enabled plugins |
| `PluginRegistry.Registry.ShownMember` | lib/plugins/index.js:104-108 | a plugin is shown iff it is enabled and special or hinted; an enabled special plugin is shown as often as it is enabled, whatever the sandbox |
| `PluginRegistry.Registry.DisabledNeverShown` | lib/plugins/index.js:84-108 | after init, a plugin whose flag is false is never shown, even when the sandbox lists it |
| `PluginRegistry.Registry.EachShownPlugins` | lib/plugins/index.js:110-112 | the early-exit walk over the shown plugins |
| `PluginRegistry.Registry.HasShownType` | lib/plugins/index.js:114-118 | true iff some shown plugin's `pluginType` equals the argument, undefined included |
| `PluginRegistry.Registry.HasShownTypeWithoutSandbox` | lib/plugins/index.js:104-118 | with no sandbox, the answer is whether an enabled special plugin has the type |
| `PluginRegistry.Registry.SetProperties` | lib/plugins/index.js:120-126 | the hook is called exactly on the enabled plugins that implement it, in enabled order, each with its own extended sandbox |
| `PluginRegistry.Registry.CheckNotifications` | lib/plugins/index.js:128-134 | the hook is called exactly on the enabled plugins that implement it, in enabled order, each with its own extended sandbox |
| `PluginRegistry.Registry.UpdateVisualisations` | lib/plugins/index.js:136-142 | the hook is called exactly on the shown plugins that implement it, in shown order, each with its own extended sandbox |
| `PluginRegistry.Registry.UpdateVisualisationsOnlyShown` | lib/plugins/index.js:136-142 | a plugin is asked to render iff it is enabled, special or hinted, and has the hook |
| `PluginRegistry.Registry.GetAllEventTypes` | lib/plugins/index.js:144-156 | the result is the enabled plugins' array results concatenated in enabled order; plugins without the hook, or whose result is not an array, add nothing |
| `PluginRegistry.Registry.EnabledPluginNames` | lib/plugins/index.js:158-162 | "" when nothing is enabled; the single name when one plugin is enabled |
| `PluginRegistry.Registry.EnabledNamesRoundTrip` | lib/plugins/index.js:158-162 | when no enabled name contains a space, splitting the summary at spaces gives back the enabled names in enabled order |
| `PluginRegistry.Registry.ExtendedClientSettings` | lib/plugins/index.js:164-174 | the keys are exactly the client default names plus "devicestatus"; each value is the input's value for that key, or undefined; the input is a value and is not changed |
| `Plugins.SpecialPluginsIsJoin` | lib/plugins/index.js:102 | the special-plugins string is exactly the space-join of the eight special names, in the listed order |
| `Plugins.SpecialLongerPrefixIsJoin` | lib/plugins/index.js:102 | the first six special names joined by spaces give the first six words of the special-plugins string |
| `Plugins.SpecialPrefixIsJoin` | lib/plugins/index.js:102 | the first four special names joined by spaces give the first four words of the special-plugins string |
| `Plugins.HintedBy` | lib/plugins/index.js:106 | the `sbx && sbx.showPlugins && indexOf > -1` short-circuit: no hint without a sandbox, without `showPlugins`, or with an empty `showPlugins` string; otherwise membership for an array and a substring test for a non-empty string |
| `Plugins.Keeps` | lib/plugins/index.js:12-147 | each callback's meaning (lines 12, 81, 106, 116, 122, 130, 138 and 147): `enable` lists the name (membership or substring); special names are always shown and, with no sandbox, only they are; a hook is present; the name equals the wanted name (`{name: name}`); the type is strictly equal to the wanted one, undefined included |
| `Plugins.Names` | lib/plugins/index.js:159-160 | `_.map` to names keeps the length and puts each plugin's name at its index |
| `Plugins.IsSpecial` | lib/plugins/index.js:102-106 | a name is special iff it is a substring of the special-plugins string |
| `Plugins.SpecialNamesAreSpecial` | lib/plugins/index.js:102 | each of the eight listed names is special |
| `Plugins.FragmentsAreSpecial` | lib/plugins/index.js:106 | "ar" and "" are special too, because the test is a substring test |
| `Plugins.Filter` | lib/plugins/index.js:105 | `_.filter` keeps only plugins that satisfy the rule and never grows the list |
| `Plugins.FilterIsSubsequence` | lib/plugins/index.js:105 | `_.filter` keeps the survivors in their original order |
| `Plugins.FilterCount` | lib/plugins/index.js:84-89 | a kept plugin appears in the result exactly as often as in the input; a rejected one not at all |
| `Plugins.FilterMember` | lib/plugins/index.js:105 | membership in the result is membership in the input plus the rule |
| `Plugins.FirstIndex` | lib/plugins/index.js:115 | the index `_.find` stops at satisfies the rule, and no earlier plugin does; -1 when none does |
| `Plugins.Find` | lib/plugins/index.js:12 | `_.find` gives undefined iff no plugin satisfies the rule; otherwise the first plugin that does |
| `JsText.StrIndexOf` | lib/plugins/index.js:106 | `String.prototype.indexOf`: never below -1; non-negative iff the pattern is a substring, at its first occurrence; -1 when absent |
| `JsText.ArrIndexOf` | lib/plugins/index.js:81 | `Array.prototype.indexOf`: -1 iff absent, otherwise the first index holding the value |
| `JsText.Lists` | lib/plugins/index.js:81 | `l.indexOf(name) > -1` is membership for an array and a substring test for a string |
| `JsText.Truthy` | lib/plugins/index.js:106 | a searchable value is falsy exactly when it is the empty string; every array is truthy |
| `JsText.Join` | lib/plugins/index.js:161 | `join` of no words is ""; every word occurs in the joined string |
| `JsText.JoinSnoc` | lib/plugins/index.js:161 | joining one more word appends the separator and that word |
| `JsText.SplitJoin` | lib/plugins/index.js:161 | splitting a join of separator-free words gives back the words |
| `Dispatch.FanOut` | lib/plugins/index.js:120-142 | the calls made are exactly the list's plugins that have the hook, in list order, each with its extended sandbox |
| `Dispatch.Each` | lib/plugins/index.js:93-99 | `_.each` visits a prefix of the list and stops only right after a visitor returns false |
| `Dispatch.EachVisitsAll` | lib/plugins/index.js:93-99 | a visitor that never returns false sees the whole list |
| `Dispatch.Contribution` | lib/plugins/index.js:147-151 | a plugin adds nothing without `getEventTypes` or when its result is not an array; otherwise it adds exactly the elements of its result |
| `Dispatch.EventTypes` | lib/plugins/index.js:144-156 | the event types of a one-plugin list are that plugin's contribution; with EventTypesConcat and EventTypesMember, the list's contributions concatenated in order |
| `Dispatch.EventTypesConcat` | lib/plugins/index.js:144-156 | the event types of a concatenated list are the concatenation of the event types of its parts |
| `Dispatch.EventTypesMember` | lib/plugins/index.js:144-156 | an event type is reported iff some plugin of the list contributes it |
| `Wrappers.Get` | lib/plugins/index.js:167-171 | reading a property gives the stored value when the key is present and `undefined` exactly when it is absent |
| `Scenarios.EnableAndShow` | lib/plugins/index.js:77-118 | catalog [A special, B, C], enable A and C, hint C: enabled = shown = [A, C], and B's type is not shown |
| `Scenarios.ScenarioEnabled` | lib/plugins/index.js:77-91 | the enabled list of that example is [A, C] |
| `Scenarios.ScenarioShown` | lib/plugins/index.js:104-108 | the shown list of that example is [A, C] |
| `Scenarios.ScenarioView` | lib/plugins/index.js:104-162 | names, shown list and type query of that example |
| `Scenarios.InitTwice` | lib/plugins/index.js:77-91 | two inits with the same settings give the same enabled list, leave the catalog as it was, and leave every flag as the settings give it |
| `Scenarios.InitSupersedes` | lib/plugins/index.js:77-91 | after init(s1) then init(s2), the enabled list is what init(s2) alone gives |

## Left out

- The individual plugin implementations (`require('./rawbg')()` and the rest) and `plugins.base`: the default lists are constructor parameters, opaque plugin records whose names and hooks the caller supplies.
- Hook bodies and `sbx.withExtendedSettings` are code outside this file. A hook call is recorded in a trace, and the extended sandbox is the abstract function `extend`. Hooks are assumed to return normally and to leave the registry alone. An exception inside a hook, which in JavaScript aborts the rest of the fan-out, is not modelled.
- `getEventTypes` results are reduced to `Undefined`, `JsArray(elems)` or `NotAnArray`. The value depends on the plugin only, through `answer`.
- PluginRegistry.Registry.SetProperties, CheckNotifications, GetAllEventTypes and UpdateVisualisations: the sandbox is always present. In JavaScript, calling them with no sandbox throws a TypeError as soon as a plugin with the hook is reached.
- PluginRegistry.Registry.Init: `settings.enable` is always present (an array or a string). With a missing `enable`, the JavaScript throws a TypeError only when the catalog is non-empty, at the first `isEnabled` call (index.js:81). By then `enabledPlugins` has already been reset to `[]` (index.js:78). With an empty catalog it returns normally with an empty enabled list.
- PluginRegistry.Registry.Lookup: names are strings or undefined. Other falsy values (`null`, `0`, `false`) behave like undefined in JavaScript and are not modelled separately.
- PluginRegistry.Registry.ExtendedClientSettings: a JavaScript object is modelled as a map. Property names inherited from `Object.prototype` (such as `constructor`) are not modelled.
- The `enabled` flag is `undefined` in JavaScript before the first `init`. The model starts it at false, which has the same truthiness.
- Visitors passed to `eachPlugin`, `eachEnabledPlugin` and `eachShownPlugins` are reduced to whether they return `false`, as a function of the plugin and its index. A visitor whose answer depends on other state it keeps between calls is covered only in so far as that state is determined by the index. Their side effects are not modelled, and neither is a visitor that changes the registry during the walk. Lodash also passes the collection; it is fixed for a walk.
- The function-as-object idiom (`return plugins()`, where the registry is also the lookup function) becomes a `Registry` instance whose `Lookup` returns `Itself` for a falsy name. The registry's own methods return `self` where the JavaScript returns `plugins`.
- `register` is given an array. `_.each` over a non-array object or `undefined` is not modelled.
