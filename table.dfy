/**
 * The per-class route table that `ViewMeta.__new__` builds: the class namespace,
 * the rules each attribute contributes, and the table as a whole.
 */
module RouteTable {
  import opened Optional
  import opened Decorators

  /**
   * A class attribute as the table builder sees it: a function, with its
   * `route_meta` attribute if it has one, or any other value, of which only
   * its Python truthiness matters.
   */
  datatype Attr = Function(routeMeta: Option<seq<RouteMeta>>) | Data(truthy: bool)

  /** The class namespace `attrs`: a dict, so keys are distinct and kept in insertion order. */
  datatype Namespace = Namespace(keys: seq<string>, vals: map<string, Attr>)

  predicate WellFormed(ns: Namespace) {
    (forall i, j :: 0 <= i < j < |ns.keys| ==> ns.keys[i] != ns.keys[j]) &&
    (forall k <- ns.keys :: k in ns.vals) && (forall k <- ns.vals :: k in ns.keys)
  }

  /** `attrs[k] = a` for a key not yet present: appended at the end. */
  function Insert(ns: Namespace, k: string, a: Attr): (r: Namespace)
    requires WellFormed(ns) && k !in ns.vals
    ensures WellFormed(r)
    ensures r.keys == ns.keys + [k] && r.vals == ns.vals[k := a]
  {
    Namespace(ns.keys + [k], ns.vals[k := a])
  }

  /** A Werkzeug `Rule` as far as this code uses it. */
  datatype Rule = Rule(path: string, methods: seq<string>, endpoint: string, options: Options)

  /** `route_keywords`: the names that get a rule without `@route`. */
  const Keywords: set<string> := {"index", "get", "post", "put", "patch", "delete"}

  /** `hasattr(func, 'route_meta')`. */
  predicate Annotated(a: Attr) {
    a.Function? && a.routeMeta.Some?
  }

  /** The rule built from one annotation of the function `name`. */
  function RuleOf(name: string, m: RouteMeta): Rule {
    Rule(m.routePath, m.methods, name, m.options)
  }

  /** The rules added for a function's `route_meta` list: one per entry, in list order. */
  function MetaRules(name: string, metas: seq<RouteMeta>): (rs: seq<Rule>)
    ensures |rs| == |metas|
    ensures forall i :: 0 <= i < |metas| ==>
      rs[i].path == metas[i].routePath && rs[i].methods == metas[i].methods &&
      rs[i].endpoint == name && rs[i].options == metas[i].options
  {
    if metas == [] then [] else MetaRules(name, metas[..|metas| - 1]) + [RuleOf(name, metas[|metas| - 1])]
  }

  /** The implicit rule for an un-annotated attribute, if its name is a keyword. */
  function ImplicitRules(name: string): seq<Rule> {
    if name in Keywords then
      [Rule(if name in {"index", "post"} then "/" else "/<id>",
            [if name == "index" then "get" else name], name, map[])]
    else []
  }

  /** Every rule the attribute `name` contributes to the table. */
  function RulesFor(name: string, a: Attr): (rs: seq<Rule>)
    ensures forall r <- rs :: r.endpoint == name
  {
    if Annotated(a) then MetaRules(name, a.routeMeta.value) else ImplicitRules(name)
  }

  /**
   * A function with `route_meta` gets exactly one rule per entry, in order,
   * and never an implicit rule, whatever its name.
   */
  lemma AnnotatedRules(name: string, metas: seq<RouteMeta>)
    ensures |RulesFor(name, Function(Some(metas)))| == |metas|
    ensures forall i :: 0 <= i < |metas| ==> RulesFor(name, Function(Some(metas)))[i] == RuleOf(name, metas[i])
  {
  }

  /** The convention rules for attributes without `route_meta`. */
  lemma ConventionRules(name: string, a: Attr)
    requires !Annotated(a)
    ensures name == "index" ==> RulesFor(name, a) == [Rule("/", ["get"], "index", map[])]
    ensures name == "post" ==> RulesFor(name, a) == [Rule("/", ["post"], "post", map[])]
    ensures name in {"get", "put", "patch", "delete"} ==> RulesFor(name, a) == [Rule("/<id>", [name], name, map[])]
    ensures name !in Keywords ==> RulesFor(name, a) == []
  {
  }

  /** The table for the attributes `keys`, in order. */
  function TableOf(keys: seq<string>, vals: map<string, Attr>): (t: seq<Rule>)
    requires forall k <- keys :: k in vals
    ensures forall r <- t :: r.endpoint in keys
  {
    if keys == [] then []
    else
      var last := keys[|keys| - 1];
      TableOf(keys[..|keys| - 1], vals) + RulesFor(last, vals[last])
  }

  /** `url_map` as the builder leaves it for the final namespace. */
  function Table(ns: Namespace): seq<Rule>
    requires WellFormed(ns)
  {
    TableOf(ns.keys, ns.vals)
  }

  /** The rules of `rules` whose endpoint is `e`, in order. */
  function RulesOf(rules: seq<Rule>, e: string): (rs: seq<Rule>)
    ensures forall r <- rs :: r in rules && r.endpoint == e
  {
    if rules == [] then []
    else
      var last := rules[|rules| - 1];
      RulesOf(rules[..|rules| - 1], e) + (if last.endpoint == e then [last] else [])
  }

  lemma {:induction false} RulesOfConcat(a: seq<Rule>, b: seq<Rule>, e: string)
    ensures RulesOf(a + b, e) == RulesOf(a, e) + RulesOf(b, e)
    decreases |b|
  {
    if b == [] {
      assert a + b == a;
    } else {
      var b' := b[..|b| - 1];
      assert (a + b)[..|a + b| - 1] == a + b';
      assert (a + b)[|a + b| - 1] == b[|b| - 1];
      RulesOfConcat(a, b', e);
    }
  }

  lemma {:induction false} RulesOfUniform(rules: seq<Rule>, name: string, e: string)
    requires forall r <- rules :: r.endpoint == name
    ensures RulesOf(rules, e) == if name == e then rules else []
    decreases |rules|
  {
    if rules != [] {
      var init, last := rules[..|rules| - 1], rules[|rules| - 1];
      assert rules == init + [last];
      assert forall r <- init :: r in rules;
      RulesOfUniform(init, name, e);
      assert RulesOf(rules, e) == RulesOf(init, e) + (if last.endpoint == e then [last] else []);
    }
  }

  /** The rules an attribute contributes are exactly the table's rules with its name as endpoint. */
  lemma RulesForOwnName(name: string, a: Attr, e: string)
    ensures RulesOf(RulesFor(name, a), e) == if name == e then RulesFor(name, a) else []
  {
    RulesOfUniform(RulesFor(name, a), name, e);
  }

  /**
   * In a table built from distinct attribute names, the rules with endpoint
   * `e` are exactly those the attribute `e` contributes (none if there is no
   * such attribute).
   */
  lemma {:induction false} TableRulesOf(keys: seq<string>, vals: map<string, Attr>, e: string)
    requires forall k <- keys :: k in vals
    requires forall i, j :: 0 <= i < j < |keys| ==> keys[i] != keys[j]
    ensures e in keys ==> RulesOf(TableOf(keys, vals), e) == RulesFor(e, vals[e])
    ensures e !in keys ==> RulesOf(TableOf(keys, vals), e) == []
    decreases |keys|
  {
    if keys != [] {
      var init, last := keys[..|keys| - 1], keys[|keys| - 1];
      assert keys == init + [last];
      TableRulesOf(init, vals, e);
      RulesOfConcat(TableOf(init, vals), RulesFor(last, vals[last]), e);
      RulesForOwnName(last, vals[last], e);
      if last == e {
        assert e !in init by {
          forall i | 0 <= i < |init| ensures init[i] != e {
            assert keys[i] != keys[|keys| - 1];
          }
        }
      }
    }
  }
}
