/**
 * Plugins as the registry sees them, and the selection rules it applies to
 * ordered lists of plugins: `_.filter` and `_.find` with the predicates
 * used by `init`, `shownPlugins`, the hook dispatchers, the lookup by name
 * and `hasShownType`.
 */
module Plugins {
  import opened Wrappers
  import opened JsText

  /** The optional lifecycle hooks a plugin may implement. */
  datatype Hook = SetProperties | CheckNotifications | UpdateVisualisation | GetEventTypes

  /**
   * A plugin object. Its name, type and hooks are fixed when it is built;
   * `enabled` is the flag `init` stamps on it in place.
   */
  class Plugin {
    const name: string
    const pluginType: Option<string>
    const hooks: set<Hook>
    var enabled: bool

    constructor (name: string, pluginType: Option<string>, hooks: set<Hook>)
      ensures this.name == name && this.pluginType == pluginType && this.hooks == hooks
      ensures !enabled
    {
      this.name := name;
      this.pluginType := pluginType;
      this.hooks := hooks;
      enabled := false;
    }
  }

  /** The plugins that are always on or have custom settings, in the order the registry lists them. */
  const SpecialNames: seq<string> := ["ar2", "delta", "direction", "timeago", "upbat", "rawbg", "errorcodes", "profile"]

  /** The registry keeps them as one space-separated string. */
  const SpecialPlugins: string := "ar2 delta direction timeago upbat rawbg errorcodes profile"

  /** The first four special names joined. */
  lemma SpecialPrefixIsJoin()
    ensures Join(SpecialNames[..4], ' ') == "ar2 delta direction timeago"
  {
    var ns := SpecialNames;
    assert Join(ns[..1], ' ') == "ar2";
    JoinSnoc(ns[..1], ns[1], ' ');
    assert ns[..1] + [ns[1]] == ns[..2];
    assert Join(ns[..2], ' ') == "ar2 delta";
    JoinSnoc(ns[..2], ns[2], ' ');
    assert ns[..2] + [ns[2]] == ns[..3];
    assert Join(ns[..3], ' ') == "ar2 delta direction";
    JoinSnoc(ns[..3], ns[3], ' ');
    assert ns[..3] + [ns[3]] == ns[..4];
    assert Join(ns[..4], ' ') == "ar2 delta direction timeago";
  }

  /** The first six special names joined. */
  lemma SpecialLongerPrefixIsJoin()
    ensures Join(SpecialNames[..6], ' ') == "ar2 delta direction timeago upbat rawbg"
  {
    var ns := SpecialNames;
    SpecialPrefixIsJoin();
    JoinSnoc(ns[..4], ns[4], ' ');
    assert ns[..4] + [ns[4]] == ns[..5];
    assert Join(ns[..5], ' ') == "ar2 delta direction timeago upbat";
    JoinSnoc(ns[..5], ns[5], ' ');
    assert ns[..5] + [ns[5]] == ns[..6];
    assert Join(ns[..6], ' ') == "ar2 delta direction timeago upbat rawbg";
  }

  /** The special string is the space-join of the special names. */
  lemma SpecialPluginsIsJoin()
    ensures SpecialPlugins == Join(SpecialNames, ' ')
  {
    var ns := SpecialNames;
    SpecialLongerPrefixIsJoin();
    JoinSnoc(ns[..6], ns[6], ' ');
    assert ns[..6] + [ns[6]] == ns[..7];
    assert Join(ns[..7], ' ') == "ar2 delta direction timeago upbat rawbg errorcodes";
    JoinSnoc(ns[..7], ns[7], ' ');
    assert ns[..7] + [ns[7]] == ns[..8];
    assert Join(ns[..8], ' ') == "ar2 delta direction timeago upbat rawbg errorcodes profile";
    assert ns[..8] == ns;
  }

  /** `specialPlugins.indexOf(name) > -1`: a substring test, not a word test. */
  function IsSpecial(name: string): (r: bool)
    ensures r <==> IsSubstring(name, SpecialPlugins)
  {
    StrIndexOf(SpecialPlugins, name) > -1
  }

  /** The rendering context, as far as the registry reads it: its optional `showPlugins` hint. */
  datatype Sandbox = Sandbox(showPlugins: Option<Listing>)

  /**
   * `sbx && sbx.showPlugins && sbx.showPlugins.indexOf(name) > -1`, short-circuits
   * included: no hint without a sandbox, without `showPlugins` or with an empty
   * `showPlugins` string; otherwise the listing decides.
   */
  function HintedBy(sbx: Option<Sandbox>, name: string): (r: bool)
    ensures r ==> sbx.Some? && sbx.value.showPlugins.Some? && sbx.value.showPlugins.value != StringOf("")
    ensures sbx.Some? && sbx.value.showPlugins.Some? && sbx.value.showPlugins.value.ArrayOf? ==>
      (r <==> name in sbx.value.showPlugins.value.items)
    ensures sbx.Some? && sbx.value.showPlugins.Some? && sbx.value.showPlugins.value.StringOf? && sbx.value.showPlugins.value.text != "" ==>
      (r <==> IsSubstring(name, sbx.value.showPlugins.value.text))
  {
    && sbx.Some?
    && sbx.value.showPlugins.Some?
    && Truthy(sbx.value.showPlugins.value)
    && Lists(sbx.value.showPlugins.value, name)
  }

  /** The predicates the registry hands to `_.filter` and `_.find`. */
  datatype Rule =
    | EnabledBy(enable: Listing)          // init: settings.enable.indexOf(plugin.name) > -1
    | ShownFor(sbx: Option<Sandbox>)      // shownPlugins: special, or hinted by the sandbox
    | Implements(hook: Hook)              // dispatchers: the plugin has the hook
    | Named(wanted: string)               // plugins(name): _.find(allPlugins, {name: name})
    | OfType(wantedType: Option<string>)  // hasShownType: plugin.pluginType === pluginType

  /** Whether `rule` keeps plugin `p`. */
  function Keeps(rule: Rule, p: Plugin): (r: bool)
    ensures rule.EnabledBy? && rule.enable.ArrayOf? ==> (r <==> p.name in rule.enable.items)
    ensures rule.EnabledBy? && rule.enable.StringOf? ==> (r <==> IsSubstring(p.name, rule.enable.text))
    ensures rule.ShownFor? && IsSubstring(p.name, SpecialPlugins) ==> r
    ensures rule.ShownFor? && rule.sbx.None? ==> (r <==> IsSubstring(p.name, SpecialPlugins))
    ensures rule.Implements? ==> (r <==> rule.hook in p.hooks)
    ensures rule.Named? ==> (r <==> p.name == rule.wanted)
    ensures rule.OfType? ==> (r <==> p.pluginType == rule.wantedType)
  {
    match rule
    case EnabledBy(enable) => Lists(enable, p.name)
    case ShownFor(sbx) => IsSpecial(p.name) || HintedBy(sbx, p.name)
    case Implements(h) => h in p.hooks
    case Named(n) => p.name == n
    case OfType(t) => p.pluginType == t
  }

  /** `a` is `b` with some elements left out, the rest kept in order. */
  ghost predicate IsSubsequence<T>(a: seq<T>, b: seq<T>)
    decreases |b|
  {
    if |a| == 0 then true
    else if |b| == 0 then false
    else if a[|a| - 1] == b[|b| - 1] then IsSubsequence(a[..|a| - 1], b[..|b| - 1])
    else IsSubsequence(a, b[..|b| - 1])
  }

  /** `_.filter(ps, rule)`: the plugins the rule keeps, in list order. */
  function Filter(ps: seq<Plugin>, rule: Rule): (r: seq<Plugin>)
    ensures |r| <= |ps|
    ensures forall i :: 0 <= i < |r| ==> Keeps(rule, r[i])
  {
    if |ps| == 0 then []
    else
      var last := ps[|ps| - 1];
      Filter(ps[..|ps| - 1], rule) + (if Keeps(rule, last) then [last] else [])
  }

  /** Filtering keeps the survivors in their original order. */
  lemma {:induction false} FilterIsSubsequence(ps: seq<Plugin>, rule: Rule)
    ensures IsSubsequence(Filter(ps, rule), ps)
  {
    if |ps| > 0 {
      var init, last := ps[..|ps| - 1], ps[|ps| - 1];
      var r := Filter(init, rule);
      FilterIsSubsequence(init, rule);
      if Keeps(rule, last) {
        assert (r + [last])[..|r|] == r;
      } else {
        assert Filter(ps, rule) == r;
        assert |r| > 0 ==> r[|r| - 1] != last;
      }
    }
  }

  /**
   * A plugin occurs in the filtered list exactly as often as in `ps` when the
   * rule keeps it, and not at all otherwise: duplicates are neither merged nor dropped.
   */
  lemma {:induction false} FilterCount(ps: seq<Plugin>, rule: Rule, p: Plugin)
    ensures multiset(Filter(ps, rule))[p] == if Keeps(rule, p) then multiset(ps)[p] else 0
  {
    if |ps| > 0 {
      var init, last := ps[..|ps| - 1], ps[|ps| - 1];
      assert ps == init + [last];
      FilterCount(init, rule, p);
    }
  }

  /** Membership in the filtered list: in `ps` and kept by the rule. */
  lemma FilterMember(ps: seq<Plugin>, rule: Rule, p: Plugin)
    ensures p in Filter(ps, rule) <==> p in ps && Keeps(rule, p)
  {
    FilterCount(ps, rule, p);
  }

  /** The index `_.find` stops at: the first plugin the rule keeps, or -1. */
  function FirstIndex(ps: seq<Plugin>, rule: Rule): (k: int)
    ensures -1 <= k < |ps|
    ensures k >= 0 ==> Keeps(rule, ps[k])
    ensures forall j :: 0 <= j < |ps| && (k == -1 || j < k) ==> !Keeps(rule, ps[j])
  {
    if |ps| == 0 then -1
    else if Keeps(rule, ps[0]) then 0
    else
      var k := FirstIndex(ps[1..], rule);
      if k == -1 then -1 else k + 1
  }

  /** `_.find(ps, rule)`: the first plugin the rule keeps, or `undefined`. */
  function Find(ps: seq<Plugin>, rule: Rule): (r: Option<Plugin>)
    ensures r.None? <==> forall i :: 0 <= i < |ps| ==> !Keeps(rule, ps[i])
    ensures r.Some? ==> r.value in ps && Keeps(rule, r.value)
    ensures r.Some? ==> exists k :: 0 <= k < |ps| && ps[k] == r.value && forall j :: 0 <= j < k ==> !Keeps(rule, ps[j])
  {
    var k := FirstIndex(ps, rule);
    if k == -1 then None else Some(ps[k])
  }

  /** `_.map(ps, p => p.name)`. */
  function Names(ps: seq<Plugin>): (ns: seq<string>)
    ensures |ns| == |ps|
    ensures forall i :: 0 <= i < |ps| ==> ns[i] == ps[i].name
  {
    seq(|ps|, i requires 0 <= i < |ps| => ps[i].name)
  }

  /** Every always-shown name passes the special test. */
  lemma SpecialNamesAreSpecial(k: nat)
    requires k < |SpecialNames|
    ensures IsSpecial(SpecialNames[k])
  {
    SpecialPluginsIsJoin();
    assert SpecialNames[k] in SpecialNames;
  }

  /** The special test is a substring test: fragments such as "ar" and "" pass too. */
  lemma FragmentsAreSpecial()
    ensures IsSpecial("ar") && IsSpecial("")
  {
    SpecialNamesAreSpecial(0);
    var i :| OccursAt("ar2", SpecialPlugins, i);
    assert OccursAt("ar", "ar2", 0);
    OccursWithin("ar", "ar2", SpecialPlugins, 0, i);
    assert OccursAt("", SpecialPlugins, 0);
  }
}
