/**
 * Walking an ordered list of plugins: `_.each` with its early exit, the
 * capability-checked fan-out of a lifecycle hook, and the concatenation of
 * the event types that plugins report.
 *
 * Hook bodies and `sbx.withExtendedSettings` belong to other code: a fan-out
 * is described by the trace of the calls it makes, each call pairing the
 * plugin with the extended sandbox it receives.
 */
module Dispatch {
  import opened Plugins

  /** One call of a hook: the plugin whose hook runs and the extended sandbox handed to it. */
  datatype Invocation<X> = Invocation(plugin: Plugin, context: X)

  /** The plugins of a call trace, in call order. */
  function Targets<X>(calls: seq<Invocation<X>>): (ps: seq<Plugin>)
    ensures |ps| == |calls|
    ensures forall i :: 0 <= i < |calls| ==> ps[i] == calls[i].plugin
  {
    seq(|calls|, i requires 0 <= i < |calls| => calls[i].plugin)
  }

  /**
   * For each plugin of `ps`, in order: if it has `hook`, call the hook with
   * `extend(plugin)` (`plugin.hook(sbx.withExtendedSettings(plugin))`).
   */
  method FanOut<X>(ps: seq<Plugin>, hook: Hook, extend: Plugin -> X) returns (calls: seq<Invocation<X>>)
    ensures Targets(calls) == Filter(ps, Implements(hook))
    ensures forall i :: 0 <= i < |calls| ==> calls[i].context == extend(calls[i].plugin)
  {
    calls := [];
    for i := 0 to |ps|
      invariant Targets(calls) == Filter(ps[..i], Implements(hook))
      invariant forall j :: 0 <= j < |calls| ==> calls[j].context == extend(calls[j].plugin)
    {
      assert ps[..i + 1][..i] == ps[..i];
      var plugin := ps[i];
      if hook in plugin.hooks {
        calls := calls + [Invocation(plugin, extend(plugin))];
      }
    }
    assert ps[..|ps|] == ps;
  }

  /**
   * What `_.each(ps, f)` visits: the plugins in order, stopping right after
   * the first call for which `f` returns `false`. `stopsAt(p, i)` is the
   * visitor's answer for plugin `p` at index `i`, so a visitor that answers
   * differently for two occurrences of the same plugin is covered.
   */
  ghost predicate VisitedByEach(visited: seq<Plugin>, ps: seq<Plugin>, stopsAt: (Plugin, nat) -> bool)
  {
    && visited <= ps
    && (forall j :: 0 <= j < |visited| - 1 ==> !stopsAt(visited[j], j))
    && (|visited| < |ps| ==> |visited| > 0 && stopsAt(visited[|visited| - 1], |visited| - 1))
  }

  /** `_.each(ps, f)`, returning the plugins the visitor was called on. */
  method Each(ps: seq<Plugin>, stopsAt: (Plugin, nat) -> bool) returns (visited: seq<Plugin>)
    ensures VisitedByEach(visited, ps, stopsAt)
  {
    visited := [];
    var i := 0;
    while i < |ps|
      invariant 0 <= i <= |ps|
      invariant visited == ps[..i]
      invariant forall j :: 0 <= j < i ==> !stopsAt(ps[j], j)
    {
      visited := visited + [ps[i]];
      if stopsAt(ps[i], i) {
        return;
      }
      i := i + 1;
    }
  }

  /** A visitor that never returns `false` sees every plugin, in order. */
  lemma EachVisitsAll(visited: seq<Plugin>, ps: seq<Plugin>, stopsAt: (Plugin, nat) -> bool)
    requires VisitedByEach(visited, ps, stopsAt)
    requires forall i :: 0 <= i < |ps| ==> !stopsAt(ps[i], i)
    ensures visited == ps
  {
  }

  /** The value a plugin's `getEventTypes` hook returns, as far as the registry can tell it apart. */
  datatype HookValue<E> = Undefined | JsArray(elems: seq<E>) | NotAnArray

  /** What one plugin adds to `getAllEventTypes`: the elements of its result, only when it has the hook and the result is an array. */
  function Contribution<E>(p: Plugin, answer: Plugin -> HookValue<E>): (r: seq<E>)
    ensures GetEventTypes !in p.hooks ==> r == []
    ensures !answer(p).JsArray? ==> r == []
    ensures GetEventTypes in p.hooks && answer(p).JsArray? ==> r == answer(p).elems
  {
    if GetEventTypes in p.hooks && answer(p).JsArray? then answer(p).elems else []
  }

  /** The contributions of `ps`, concatenated in list order. */
  function EventTypes<E>(ps: seq<Plugin>, answer: Plugin -> HookValue<E>): (r: seq<E>)
    ensures |ps| == 1 ==> r == Contribution(ps[0], answer)
  {
    if |ps| == 0 then []
    else EventTypes(ps[..|ps| - 1], answer) + Contribution(ps[|ps| - 1], answer)
  }

  /** Appending a plugin appends its contribution. */
  lemma EventTypesSnoc<E>(ps: seq<Plugin>, p: Plugin, answer: Plugin -> HookValue<E>)
    ensures EventTypes(ps + [p], answer) == EventTypes(ps, answer) + Contribution(p, answer)
  {
    assert (ps + [p])[..|ps|] == ps;
  }

  /** Event types of a concatenated list are the concatenated event types: order is list order. */
  lemma {:induction false} EventTypesConcat<E>(a: seq<Plugin>, b: seq<Plugin>, answer: Plugin -> HookValue<E>)
    ensures EventTypes(a + b, answer) == EventTypes(a, answer) + EventTypes(b, answer)
  {
    if |b| == 0 {
      assert a + b == a;
    } else {
      var init, last := b[..|b| - 1], b[|b| - 1];
      assert b == init + [last];
      assert a + b == (a + init) + [last];
      EventTypesConcat(a, init, answer);
      EventTypesSnoc(a + init, last, answer);
      EventTypesSnoc(init, last, answer);
    }
  }

  /** An event type is reported iff some plugin of the list contributes it. */
  lemma {:induction false} EventTypesMember<E>(ps: seq<Plugin>, answer: Plugin -> HookValue<E>, x: E)
    ensures x in EventTypes(ps, answer) <==> exists i :: 0 <= i < |ps| && x in Contribution(ps[i], answer)
  {
    if |ps| > 0 {
      var init := ps[..|ps| - 1];
      EventTypesMember(init, answer, x);
      if x in EventTypes(init, answer) {
        var i :| 0 <= i < |init| && x in Contribution(init[i], answer);
        assert ps[i] == init[i];
      }
      if exists i :: 0 <= i < |ps| && x in Contribution(ps[i], answer) {
        var i :| 0 <= i < |ps| && x in Contribution(ps[i], answer);
        if i < |init| {
          assert ps[i] == init[i];
        }
      }
    }
  }
}
