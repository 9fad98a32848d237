/**
 * What `GenericView.register` passes to `add_url_rule` for each rule of the
 * class table: the composed path, the `ClassName:endpoint` id, the methods
 * and the filtered per-rule options.
 */
module Registration {
  import opened Optional
  import opened Decorators
  import opened RouteTable

  /** `_opts`: attributes of a rule that are never passed on as options. */
  const Reserved: set<string> := {"rule", "map", "endpoint", "methods", "is_leaf", "arguments"}

  /** `key.startswith('_')`. */
  predicate IsPrivate(key: string) {
    |key| > 0 && key[0] == '_'
  }

  /**
   * `rule.__dict__`: the reserved attributes, one private attribute, `defaults`
   * (None unless given) and the options the rule was built with.
   */
  function RuleDict(r: Rule): Options {
    (map["defaults" := NoneValue] + r.options) +
    map["rule" := Text(r.path), "map" := Internal, "endpoint" := Text(r.endpoint),
        "methods" := Internal, "is_leaf" := Internal, "arguments" := Internal,
        "_trace" := Internal]
  }

  /**
   * The options comprehension of `register`: keeps a key when it is not
   * reserved and not private, and then drops `defaults` when it is None.
   */
  function RegisterOptions(d: Options): Options {
    var kept := map k | k in d && k !in Reserved && !IsPrivate(k) :: d[k];
    if "defaults" in kept && kept["defaults"] == NoneValue then kept - {"defaults"} else kept
  }

  /** A key is passed on exactly when it is kept by the filter, and with its own value. */
  lemma RegisterOptionsKeys(d: Options, k: string)
    ensures k in RegisterOptions(d) <==>
      k in d && k !in Reserved && !IsPrivate(k) && !(k == "defaults" && d[k] == NoneValue)
    ensures k in RegisterOptions(d) ==> RegisterOptions(d)[k] == d[k]
  {
  }

  /**
   * The options registered for a rule are exactly its own options, minus
   * reserved and private keys and minus a `defaults` that is None.
   */
  lemma RegisteredRuleOptions(r: Rule, k: string)
    ensures k in RegisterOptions(RuleDict(r)) <==>
      k in r.options && k !in Reserved && !IsPrivate(k) && !(k == "defaults" && r.options[k] == NoneValue)
    ensures k in RegisterOptions(RuleDict(r)) ==> RegisterOptions(RuleDict(r))[k] == r.options[k]
  {
    RegisterOptionsKeys(RuleDict(r), k);
  }

  /** The endpoint id `f'{cls.__name__}:{rule.endpoint}'`. */
  function EndpointId(className: string, endpoint: string): string {
    className + ":" + endpoint
  }

  /**
   * Class names hold no `:`, so an endpoint id determines the class and the
   * handler it was made from.
   */
  lemma EndpointIdInjective(c1: string, e1: string, c2: string, e2: string)
    requires ':' !in c1 && ':' !in c2
    requires EndpointId(c1, e1) == EndpointId(c2, e2)
    ensures c1 == c2 && e1 == e2
  {
    var id := EndpointId(c1, e1);
    assert id[|c1|] == ':' && id[|c2|] == ':';
    assert forall i :: 0 <= i < |c1| ==> id[i] == c1[i];
    assert forall i :: 0 <= i < |c2| ==> id[i] == c2[i];
    assert |c1| == |c2|;
    assert c1 == id[..|c1|] == c2;
    assert e1 == id[|c1| + 1..] == e2;
  }

  /** One call of `add_url_rule` as the container records it. */
  datatype ExternalRule = ExternalRule(path: string, endpoint: string, methods: seq<string>, options: Options)

  /** The `add_url_rule` call for one table rule. */
  function Externalize(className: string, routePrefix: Option<string>, routeBase: Option<string>, r: Rule): ExternalRule {
    ExternalRule(OrEmpty(routePrefix) + OrEmpty(routeBase) + r.path, EndpointId(className, r.endpoint),
                 r.methods, RegisterOptions(RuleDict(r)))
  }

  /**
   * The `add_url_rule` calls `register` makes, one per table rule and in table
   * order: path `(route_prefix or '') + (route_base or '') + rule`, endpoint
   * `ClassName:endpoint`, the rule's methods and its filtered options.
   */
  function ExternalRules(className: string, routePrefix: Option<string>, routeBase: Option<string>, table: seq<Rule>): (ext: seq<ExternalRule>)
    ensures |ext| == |table|
    ensures forall i :: 0 <= i < |table| ==>
      ext[i].path == OrEmpty(routePrefix) + OrEmpty(routeBase) + table[i].path &&
      ext[i].endpoint == className + ":" + table[i].endpoint &&
      ext[i].methods == table[i].methods &&
      ext[i].options == RegisterOptions(RuleDict(table[i]))
  {
    if table == [] then []
    else ExternalRules(className, routePrefix, routeBase, table[..|table| - 1])
         + [Externalize(className, routePrefix, routeBase, table[|table| - 1])]
  }

  /** Registering one more table rule appends its `add_url_rule` call. */
  lemma ExternalRulesSnoc(className: string, routePrefix: Option<string>, routeBase: Option<string>,
                          table: seq<Rule>, i: nat)
    requires i < |table|
    ensures ExternalRules(className, routePrefix, routeBase, table[..i + 1])
         == ExternalRules(className, routePrefix, routeBase, table[..i]) + [Externalize(className, routePrefix, routeBase, table[i])]
  {
    assert table[..i + 1][..i] == table[..i];
  }
}
