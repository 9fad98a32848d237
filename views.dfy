/**
 * The view class itself: `ViewMeta.__new__` as the constructor that builds the
 * class's route table, `GenericView.register` and `GenericView.dispatch_request`.
 */
module Views {
  import opened Optional
  import opened Strings
  import opened Decorators
  import opened RouteTable
  import opened Registration
  import opened Dispatching

  /** A Flask application or Blueprint; `add_url_rule` records each call. */
  class Container {
    const isBlueprint: bool
    const urlPrefix: Option<string>
    var rules: seq<ExternalRule>

    constructor App()
      ensures !isBlueprint && urlPrefix == None && rules == []
    {
      isBlueprint, urlPrefix, rules := false, None, [];
    }

    constructor Blueprint(urlPrefix: Option<string>)
      ensures isBlueprint && this.urlPrefix == urlPrefix && rules == []
    {
      this.isBlueprint, this.urlPrefix, this.rules := true, urlPrefix, [];
    }

    method AddUrlRule(rule: ExternalRule)
      modifies this`rules
      ensures rules == old(rules) + [rule]
    {
      rules := rules + [rule];
    }
  }

  /** A base class: a view class (it has a `url_map`) or any other class. */
  datatype Base = OtherBase | ViewBase(view: ViewClass)

  predicate BasesValid(bases: seq<Base>) {
    forall b <- bases :: b.ViewBase? ==> b.view.Valid()
  }

  /**
   * The inner loop of step 1 for one base: every endpoint of `rules` that the
   * namespace lacks is copied in from the base's own namespace.
   */
  function CopyInherited(ns: Namespace, base: ViewClass, rules: seq<Rule>): (r: Namespace)
    requires WellFormed(ns)
    requires forall x <- rules :: x.endpoint in base.attrs.vals
    ensures WellFormed(r)
    decreases |rules|
  {
    if rules == [] then ns
    else
      var e := rules[0].endpoint;
      CopyInherited(if e in ns.vals then ns else Insert(ns, e, base.attrs.vals[e]), base, rules[1..])
  }

  /** Step 1 of the builder over all bases, in order. */
  function Inherit(ns: Namespace, bases: seq<Base>): (r: Namespace)
    requires WellFormed(ns) && BasesValid(bases)
    ensures WellFormed(r)
    decreases |bases|
  {
    if bases == [] then ns
    else
      var next := if bases[0].ViewBase? then CopyInherited(ns, bases[0].view, bases[0].view.urlMap) else ns;
      Inherit(next, bases[1..])
  }

  /** Some rule of `rules` has endpoint `e`. */
  predicate HasEndpoint(rules: seq<Rule>, e: string) {
    exists x <- rules :: x.endpoint == e
  }

  /** The first base, in order, whose table routes the handler `e`. */
  function FirstSupplier(bases: seq<Base>, e: string): (r: Option<nat>)
    ensures r.Some? ==> r.value < |bases| && bases[r.value].ViewBase? &&
                        HasEndpoint(bases[r.value].view.urlMap, e)
    ensures r.Some? ==> forall j :: 0 <= j < r.value ==>
                        !(bases[j].ViewBase? && HasEndpoint(bases[j].view.urlMap, e))
    ensures r.None? ==> forall j :: 0 <= j < |bases| ==>
                        !(bases[j].ViewBase? && HasEndpoint(bases[j].view.urlMap, e))
    decreases |bases|
  {
    if bases == [] then None
    else if bases[0].ViewBase? && HasEndpoint(bases[0].view.urlMap, e) then Some(0)
    else
      var rest := FirstSupplier(bases[1..], e);
      assert forall j :: 1 <= j < |bases| ==> bases[j] == bases[1..][j - 1];
      if rest.Some? then Some(rest.value + 1) else None
  }

  /** `attrs.get(k)`. */
  function Lookup(ns: Namespace, k: string): Option<Attr> {
    if k in ns.vals then Some(ns.vals[k]) else None
  }

  lemma {:induction false} CopyInheritedLookup(ns: Namespace, base: ViewClass, rules: seq<Rule>, k: string)
    requires WellFormed(ns)
    requires forall x <- rules :: x.endpoint in base.attrs.vals
    ensures Lookup(CopyInherited(ns, base, rules), k) ==
      if k in ns.vals then Some(ns.vals[k])
      else if HasEndpoint(rules, k) then Some(base.attrs.vals[k])
      else None
    decreases |rules|
  {
    if rules != [] {
      var e := rules[0].endpoint;
      var next := if e in ns.vals then ns else Insert(ns, e, base.attrs.vals[e]);
      CopyInheritedLookup(next, base, rules[1..], k);
      assert HasEndpoint(rules, k) <==> e == k || HasEndpoint(rules[1..], k) by {
        if HasEndpoint(rules, k) && e != k {
          var x :| x in rules && x.endpoint == k;
          var n :| 0 <= n < |rules| && rules[n] == x;
          assert rules[1..][n - 1] == x;
        }
      }
    }
  }

  /**
   * After step 1 an attribute of the class body keeps its own value; a name
   * it lacks holds the value of the FIRST base that routes that name, or is
   * absent when no base does.
   */
  lemma {:induction false} InheritLookup(ns: Namespace, bases: seq<Base>, k: string)
    requires WellFormed(ns) && BasesValid(bases)
    ensures var s := FirstSupplier(bases, k);
            Lookup(Inherit(ns, bases), k) ==
              if k in ns.vals then Some(ns.vals[k])
              else if s.Some? then Some(bases[s.value].view.attrs.vals[k])
              else None
    decreases |bases|
  {
    if bases != [] {
      var next := if bases[0].ViewBase? then CopyInherited(ns, bases[0].view, bases[0].view.urlMap) else ns;
      if bases[0].ViewBase? {
        CopyInheritedLookup(ns, bases[0].view, bases[0].view.urlMap, k);
      }
      InheritLookup(next, bases[1..], k);
    }
  }

  /**
   * Inheritance of routes: a handler the class body defines keeps only its own
   * rules; one it does not define has all the rules the first base routing it
   * has for it; any other name has no rules.
   */
  lemma InheritedRoutes(own: Namespace, bases: seq<Base>, e: string)
    requires WellFormed(own) && BasesValid(bases)
    ensures e in own.vals ==> RulesOf(Table(Inherit(own, bases)), e) == RulesFor(e, own.vals[e])
    ensures e !in own.vals && FirstSupplier(bases, e).Some? ==>
      RulesOf(Table(Inherit(own, bases)), e) == RulesOf(bases[FirstSupplier(bases, e).value].view.urlMap, e)
    ensures e !in own.vals && FirstSupplier(bases, e).None? ==> RulesOf(Table(Inherit(own, bases)), e) == []
  {
    var ns := Inherit(own, bases);
    InheritLookup(own, bases, e);
    TableRulesOf(ns.keys, ns.vals, e);
    var s := FirstSupplier(bases, e);
    if e !in own.vals && s.Some? {
      var base := bases[s.value].view;
      TableRulesOf(base.attrs.keys, base.attrs.vals, e);
    }
  }

  /** The inner loop of step 1 for one base. */
  method CopyFromBase(ns: Namespace, base: ViewClass) returns (r: Namespace)
    requires WellFormed(ns)
    requires forall x <- base.urlMap :: x.endpoint in base.attrs.vals
    ensures r == CopyInherited(ns, base, base.urlMap)
  {
    r := ns;
    var j := 0;
    while j < |base.urlMap|
      invariant 0 <= j <= |base.urlMap|
      invariant WellFormed(r)
      invariant CopyInherited(r, base, base.urlMap[j..]) == CopyInherited(ns, base, base.urlMap)
    {
      var e := base.urlMap[j].endpoint;
      ghost var rest := base.urlMap[j..];
      assert rest[0] == base.urlMap[j] && rest[1..] == base.urlMap[j + 1..];
      assert forall x <- rest :: x in base.urlMap;
      if e !in r.vals {
        r := Insert(r, e, base.attrs.vals[e]);
      }
      j := j + 1;
    }
  }

  /** Step 1 of `ViewMeta.__new__`: re-add inherited handlers the class body does not override. */
  method InheritedNamespace(own: Namespace, bases: seq<Base>) returns (ns: Namespace)
    requires WellFormed(own) && BasesValid(bases)
    ensures ns == Inherit(own, bases)
  {
    ns := own;
    var i := 0;
    while i < |bases|
      invariant 0 <= i <= |bases|
      invariant WellFormed(ns)
      invariant Inherit(ns, bases[i..]) == Inherit(own, bases)
    {
      if bases[i].ViewBase? {
        ns := CopyFromBase(ns, bases[i].view);
      }
      assert bases[i..][1..] == bases[i + 1..];
      i := i + 1;
    }
  }

  /** The rules added for one annotated function, one `url_map.add` per entry. */
  method AddMetaRules(table: seq<Rule>, name: string, metas: seq<RouteMeta>) returns (r: seq<Rule>)
    ensures r == table + MetaRules(name, metas)
  {
    r := table;
    var j := 0;
    while j < |metas|
      invariant 0 <= j <= |metas|
      invariant r == table + MetaRules(name, metas[..j])
    {
      r := r + [Rule(metas[j].routePath, metas[j].methods, name, metas[j].options)];
      assert metas[..j + 1][..j] == metas[..j];
      j := j + 1;
    }
    assert metas[..j] == metas;
  }

  /** Steps 2 and 3 of `ViewMeta.__new__`: one rule per annotation, then the convention rules. */
  method BuildTable(ns: Namespace) returns (table: seq<Rule>)
    requires WellFormed(ns)
    ensures table == Table(ns)
  {
    table := [];
    var i := 0;
    while i < |ns.keys|
      invariant 0 <= i <= |ns.keys|
      invariant table == TableOf(ns.keys[..i], ns.vals)
    {
      var k := ns.keys[i];
      var a := ns.vals[k];
      if a.Function? && a.routeMeta.Some? {
        table := AddMetaRules(table, k, a.routeMeta.value);
      }
      var path := if k in {"index", "post"} then "/" else "/<id>";
      if k in Keywords && !(a.Function? && a.routeMeta.Some?) {
        table := table + [Rule(path, [if k == "index" then "get" else k], k, map[])];
      }
      assert ns.keys[..i + 1][..i] == ns.keys[..i];
      i := i + 1;
    }
    assert ns.keys[..i] == ns.keys;
  }

  /** A class whose metaclass is `ViewMeta`. */
  class ViewClass {
    const name: string
    const routePrefix: Option<string>
    const routeBase: Option<string>
    /** The class namespace after the builder ran (own attributes, then copied-in ones). */
    const attrs: Namespace
    /** `url_map`, the class's route table, never changed after the class is built. */
    const urlMap: seq<Rule>
    /** `_bp_prefix`, written by `register` on a Blueprint. */
    var bpPrefix: Option<string>
    /** `url_map_adapter`: the table as bound by `register`. */
    var adapter: Option<seq<Rule>>

    predicate Valid() {
      WellFormed(attrs) && urlMap == Table(attrs) && forall r <- urlMap :: r.endpoint in attrs.vals
    }

    /**
     * `ViewMeta.__new__(name, bases, own)`: copies in inherited handlers, then
     * adds one rule per annotation and one per un-annotated keyword handler.
     */
    constructor (name: string, bases: seq<Base>, own: Namespace, routePrefix: Option<string>, routeBase: Option<string>)
      requires WellFormed(own) && BasesValid(bases)
      ensures this.name == name && this.routePrefix == routePrefix && this.routeBase == routeBase
      ensures attrs == Inherit(own, bases) && urlMap == Table(attrs)
      ensures Valid()
      ensures bpPrefix == None && adapter == None
    {
      var ns := InheritedNamespace(own, bases);
      var table := BuildTable(ns);
      this.name := name;
      this.routePrefix := routePrefix;
      this.routeBase := routeBase;
      this.attrs := ns;
      this.urlMap := table;
      bpPrefix := None;
      adapter := None;
    }

    /**
     * `register(app_or_bp)`: records a Blueprint's prefix, binds the table and
     * makes one `add_url_rule` call per table rule.
     */
    method Register(container: Container)
      modifies this`bpPrefix, this`adapter, container`rules
      ensures bpPrefix == if container.isBlueprint then container.urlPrefix else old(bpPrefix)
      ensures adapter == Some(urlMap)
      ensures container.rules == old(container.rules) + ExternalRules(name, routePrefix, routeBase, urlMap)
    {
      if container.isBlueprint {
        bpPrefix := container.urlPrefix;
      }
      var prefix := OrEmpty(routePrefix);
      var base := OrEmpty(routeBase);
      adapter := Some(urlMap);
      var i := 0;
      while i < |urlMap|
        invariant 0 <= i <= |urlMap|
        invariant bpPrefix == if container.isBlueprint then container.urlPrefix else old(bpPrefix)
        invariant adapter == Some(urlMap)
        invariant container.rules == old(container.rules) + ExternalRules(name, routePrefix, routeBase, urlMap[..i])
      {
        var rule := urlMap[i];
        var opts := RegisterOptions(RuleDict(rule));
        var ext := ExternalRule(prefix + base + rule.path, name + ":" + rule.endpoint, rule.methods, opts);
        assert ext == Externalize(name, routePrefix, routeBase, rule);
        container.AddUrlRule(ext);
        ExternalRulesSnoc(name, routePrefix, routeBase, urlMap, i);
        i := i + 1;
      }
      assert urlMap[..i] == urlMap;
    }

    /**
     * `dispatch_request(**kwargs)` for a request whose matched rule template is
     * `template` and whose method is `verb`.
     */
    method DispatchRequest(template: string, verb: string, call: (string, Kwargs) -> Ret, kwargs: Kwargs)
      returns (res: Result<Response, Failure>)
      requires adapter.Some?
      ensures res == Dispatch(adapter.value, attrs.vals, bpPrefix, routePrefix, routeBase, template, verb, call, kwargs)
    {
      var bp := OrEmpty(bpPrefix);
      var prefix := OrEmpty(routePrefix);
      var base := OrEmpty(routeBase);
      var path := Lstrip(template, bp);
      path := Lstrip(path, prefix);
      path := Lstrip(path, base);
      var m := Lower(verb);
      var found := Match(adapter.value, path, m);
      if found.Err? {
        return Err(found.error);
      }
      var viewFunc := found.value;
      if viewFunc in attrs.vals && Truthy(attrs.vals[viewFunc]) {
        if attrs.vals[viewFunc].Function? {
          var rv := call(viewFunc, kwargs);
          var args := if rv.Tuple? then rv.items else [rv.v];
          res := AfterViewFunc(args);
        } else {
          res := Err(TypeError);
        }
      } else {
        res := Err(MethodNotAllowed);
      }
    }
  }

  /**
   * Registering and dispatching fit together: a request for the template of
   * the i-th registered rule, carrying the prefix the class recorded, with a
   * method that rule allows, reaches a handler of the class, namely that of
   * the earliest rule for the same template and method.
   */
  lemma RegisteredRouteDispatches(className: string, routePrefix: Option<string>, routeBase: Option<string>,
                                  ns: Namespace, bpPrefix: Option<string>, i: nat, verb: string)
    requires WellFormed(ns) && i < |Table(ns)|
    requires Allows(Table(ns)[i].methods, verb)
    ensures var t := Table(ns);
            var template := OrEmpty(bpPrefix) + ExternalRules(className, routePrefix, routeBase, t)[i].path;
            var m := Match(t, StripPrefixes(template, bpPrefix, routePrefix, routeBase), Lower(verb));
            && m.Ok? && m.value in ns.vals
            && exists j :: 0 <= j <= i && Serves(t[j], t[i].path, verb) && t[j].endpoint == m.value &&
                           forall j' :: 0 <= j' < j ==> !Serves(t[j'], t[i].path, verb)
  {
    var t := Table(ns);
    var ext := ExternalRules(className, routePrefix, routeBase, t)[i];
    assert ext.path == OrEmpty(routePrefix) + OrEmpty(routeBase) + t[i].path;
    StripRoundTrip(bpPrefix, routePrefix, routeBase, t[i].path);
    MatchFindsEarliest(t, t[i].path, verb, i);
  }

  /**
   * After `register(bp)` the class keeps the Blueprint's prefix; an app
   * route whose template does not start with that prefix still resolves,
   * to the earliest rule for its template and method.
   */
  lemma AppRouteAfterBlueprint(className: string, routePrefix: Option<string>, routeBase: Option<string>,
                               ns: Namespace, bp: string, i: nat, verb: string)
    requires WellFormed(ns) && i < |Table(ns)|
    requires Allows(Table(ns)[i].methods, verb)
    requires !(|bp| > 0 && IsPrefix(bp, ExternalRules(className, routePrefix, routeBase, Table(ns))[i].path))
    ensures var t := Table(ns);
            var template := ExternalRules(className, routePrefix, routeBase, t)[i].path;
            var m := Match(t, StripPrefixes(template, Some(bp), routePrefix, routeBase), Lower(verb));
            && m.Ok? && m.value in ns.vals
            && exists j :: 0 <= j <= i && Serves(t[j], t[i].path, verb) && t[j].endpoint == m.value &&
                           forall j' :: 0 <= j' < j ==> !Serves(t[j'], t[i].path, verb)
  {
    var t := Table(ns);
    var ext := ExternalRules(className, routePrefix, routeBase, t)[i];
    assert ext.path == OrEmpty(routePrefix) + OrEmpty(routeBase) + t[i].path;
    assert Lstrip(ext.path, bp) == ext.path;
    assert OrEmpty(None) + ext.path == ext.path;
    StripRoundTrip(None, routePrefix, routeBase, t[i].path);
    assert StripPrefixes(ext.path, Some(bp), routePrefix, routeBase) == t[i].path;
    MatchFindsEarliest(t, t[i].path, verb, i);
  }

  /** A class whose only handler `h` is routed at `/abc` for GET. */
  lemma SingleRouteTable(ns: Namespace)
    requires ns == Namespace(["h"], map["h" := Function(Some([RouteMeta("/abc", ["GET"], map[])]))])
    ensures WellFormed(ns) && Table(ns) == [Rule("/abc", ["GET"], "h", map[])]
  {
    assert ns.keys[..|ns.keys| - 1] == [];
    assert RulesFor("h", ns.vals["h"]) == MetaRules("h", [RouteMeta("/abc", ["GET"], map[])]);
  }

  /**
   * As written, `register(bp)` followed by `register(app)` leaves an app route
   * unreachable: with Blueprint prefix `/a`, the app template `/abc` is
   * stripped to `bc`, which no rule has, so dispatch raises NotFound.
   */
  lemma BlueprintPrefixBreaksAppRoute(ns: Namespace, call: (string, Kwargs) -> Ret, kwargs: Kwargs)
    requires ns == Namespace(["h"], map["h" := Function(Some([RouteMeta("/abc", ["GET"], map[])]))])
    ensures WellFormed(ns) && Table(ns) == [Rule("/abc", ["GET"], "h", map[])]
    ensures ExternalRules("V", None, None, Table(ns))[0].path == "/abc"
    ensures Dispatch(Table(ns), ns.vals, Some("/a"), None, None, "/abc", "GET", call, kwargs) == Err(NotFound)
  {
    SingleRouteTable(ns);
    assert "/abc"[..2] == "/a";
    assert "/a" + "bc" == "/abc";
    LstripConcat("/a", "bc");
    assert StripPrefixes("/abc", Some("/a"), None, None) == "bc";
    assert Table(ns)[0].path != "bc";
  }

  /** The prefix a container puts in front of the paths registered on it: none for an application. */
  function MountPrefix(c: Container): Option<string> {
    if c.isBlueprint then c.urlPrefix else None
  }

  /**
   * The evidently intended `dispatch_request`: it strips the prefix of the
   * container `via` that received the request instead of the `_bp_prefix`
   * recorded by the last Blueprint registration.
   */
  function MountedDispatch(table: seq<Rule>, attrs: map<string, Attr>, via: Container,
                           routePrefix: Option<string>, routeBase: Option<string>,
                           template: string, verb: string,
                           call: (string, Kwargs) -> Ret, kwargs: Kwargs): Result<Response, Failure>
  {
    Dispatch(table, attrs, MountPrefix(via), routePrefix, routeBase, template, verb, call, kwargs)
  }

  /**
   * With the corrected dispatch, a request that reaches a rule through the
   * container `via` (its template being the container's prefix followed by
   * the path `register` passed) runs the handler of the earliest rule serving
   * that template and method.
   */
  lemma MountedRouteDispatches(className: string, routePrefix: Option<string>, routeBase: Option<string>,
                               ns: Namespace, via: Container, i: nat, verb: string,
                               call: (string, Kwargs) -> Ret, kwargs: Kwargs)
    requires WellFormed(ns) && i < |Table(ns)|
    requires Allows(Table(ns)[i].methods, verb)
    ensures var t := Table(ns);
            var template := OrEmpty(MountPrefix(via)) + ExternalRules(className, routePrefix, routeBase, t)[i].path;
            exists j :: 0 <= j <= i && Serves(t[j], t[i].path, verb) &&
                        (forall j' :: 0 <= j' < j ==> !Serves(t[j'], t[i].path, verb)) &&
                        MountedDispatch(t, ns.vals, via, routePrefix, routeBase, template, verb, call, kwargs)
                          == Invoke(ns.vals, t[j].endpoint, call, kwargs)
  {
    RegisteredRouteDispatches(className, routePrefix, routeBase, ns, MountPrefix(via), i, verb);
  }

  /**
   * The corrected dispatch serves a class registered on two containers (an
   * application and a Blueprint, say) the same way through both: every rule
   * reaches the same handler, that of the earliest rule serving its template
   * and method, whatever the order of the registrations.
   */
  lemma MountPrefixServesBothContainers(className: string, routePrefix: Option<string>, routeBase: Option<string>,
                                        ns: Namespace, first: Container, second: Container, i: nat, verb: string,
                                        call: (string, Kwargs) -> Ret, kwargs: Kwargs)
    requires WellFormed(ns) && i < |Table(ns)|
    requires Allows(Table(ns)[i].methods, verb)
    ensures var t := Table(ns);
            var path := ExternalRules(className, routePrefix, routeBase, t)[i].path;
            MountedDispatch(t, ns.vals, first, routePrefix, routeBase, OrEmpty(MountPrefix(first)) + path, verb, call, kwargs)
              == MountedDispatch(t, ns.vals, second, routePrefix, routeBase, OrEmpty(MountPrefix(second)) + path, verb, call, kwargs)
  {
    var t := Table(ns);
    MountedRouteDispatches(className, routePrefix, routeBase, ns, first, i, verb, call, kwargs);
    MountedRouteDispatches(className, routePrefix, routeBase, ns, second, i, verb, call, kwargs);
    var path := ExternalRules(className, routePrefix, routeBase, t)[i].path;
    var j1 :| 0 <= j1 <= i && Serves(t[j1], t[i].path, verb) &&
              (forall j' :: 0 <= j' < j1 ==> !Serves(t[j'], t[i].path, verb)) &&
              MountedDispatch(t, ns.vals, first, routePrefix, routeBase, OrEmpty(MountPrefix(first)) + path, verb, call, kwargs)
                == Invoke(ns.vals, t[j1].endpoint, call, kwargs);
    var j2 :| 0 <= j2 <= i && Serves(t[j2], t[i].path, verb) &&
              (forall j' :: 0 <= j' < j2 ==> !Serves(t[j'], t[i].path, verb)) &&
              MountedDispatch(t, ns.vals, second, routePrefix, routeBase, OrEmpty(MountPrefix(second)) + path, verb, call, kwargs)
                == Invoke(ns.vals, t[j2].endpoint, call, kwargs);
    assert j1 == j2;
  }
}
