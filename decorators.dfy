/** `RouteMeta` and the `route` decorator. */
module Decorators {
  import opened Optional

  /** The values a per-rule keyword option can take in this model. */
  datatype OptionValue =
    | NoneValue            // Python `None`
    | Flag(b: bool)
    | Text(s: string)
    | Number(n: int)
    | Internal             // a Werkzeug-internal object (map, argument set, trace)

  /** Keyword options, keyed by keyword name. */
  type Options = map<string, OptionValue>

  /** One `@route` annotation: path template, methods as given, keyword options. */
  datatype RouteMeta = RouteMeta(routePath: string, methods: seq<string>, options: Options)

  /** `route`'s default for `methods`. */
  const DefaultMethods: seq<string> := ["GET"]

  /**
   * The annotation `route(path, methods, **options)` builds; `methods == None`
   * stands for the argument being omitted.
   */
  function MakeMeta(path: string, methods: Option<seq<string>>, options: Options): RouteMeta {
    RouteMeta(path, if methods.Some? then methods.value else DefaultMethods, options)
  }

  /** `route('/example')` with nothing else attaches `RouteMeta('/example', ('GET',), {})`. */
  lemma DefaultRouteMeta(path: string)
    ensures MakeMeta(path, None, map[]) == RouteMeta(path, ["GET"], map[])
  {
  }

  /** `getattr(func, 'route_meta', [])`. */
  function AttachedMeta(routeMeta: Option<seq<RouteMeta>>): seq<RouteMeta> {
    if routeMeta.Some? then routeMeta.value else []
  }

  /** The list the decorator stores: the new annotation first, then the old list unchanged. */
  function Prepend(routeMeta: Option<seq<RouteMeta>>, meta: RouteMeta): (r: seq<RouteMeta>)
    ensures |r| == |AttachedMeta(routeMeta)| + 1
    ensures r[0] == meta && r[1..] == AttachedMeta(routeMeta)
  {
    [meta] + AttachedMeta(routeMeta)
  }

  function Reversed(s: seq<RouteMeta>): (r: seq<RouteMeta>)
    ensures |r| == |s|
    ensures forall i :: 0 <= i < |s| ==> r[i] == s[|s| - 1 - i]
  {
    if s == [] then [] else Reversed(s[1..]) + [s[0]]
  }

  /**
   * The `route_meta` attribute after applying decorators for `applied`, in the
   * order Python applies them (the one nearest the `def` first).
   */
  function ApplyRoutes(routeMeta: Option<seq<RouteMeta>>, applied: seq<RouteMeta>): Option<seq<RouteMeta>>
    decreases applied
  {
    if applied == [] then routeMeta else ApplyRoutes(Some(Prepend(routeMeta, applied[0])), applied[1..])
  }

  /**
   * Stacking N `@route` decorators leaves N more entries, the most recently
   * applied first, each exactly as given, in front of the previous list.
   */
  lemma {:induction false} StackedRoutes(routeMeta: Option<seq<RouteMeta>>, applied: seq<RouteMeta>)
    requires applied != []
    decreases applied
    ensures ApplyRoutes(routeMeta, applied) == Some(Reversed(applied) + AttachedMeta(routeMeta))
  {
    var next := Some(Prepend(routeMeta, applied[0]));
    if |applied| == 1 {
      assert Reversed(applied) == [applied[0]];
    } else {
      StackedRoutes(next, applied[1..]);
      var later, prior := Reversed(applied[1..]), AttachedMeta(routeMeta);
      assert Reversed(applied) == later + [applied[0]];
      assert AttachedMeta(next) == [applied[0]] + prior;
      assert later + ([applied[0]] + prior) == later + [applied[0]] + prior;
    }
  }

  /** A Python function object, of which only the `route_meta` attribute matters here. */
  class FunctionObject {
    var routeMeta: Option<seq<RouteMeta>>

    /** A freshly defined function: it has no `route_meta` attribute. */
    constructor Plain()
      ensures routeMeta == None
    {
      routeMeta := None;
    }

    /** Applies the decorator `route(path, methods, **options)` to this function. */
    method Route(path: string, methods: Option<seq<string>>, options: Options)
      modifies this
      ensures routeMeta == Some(Prepend(old(routeMeta), MakeMeta(path, methods, options)))
    {
      var meta := MakeMeta(path, methods, options);
      routeMeta := Some([meta] + AttachedMeta(routeMeta));
    }
  }
}
