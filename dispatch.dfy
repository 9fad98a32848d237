/**
 * `GenericView.dispatch_request` and the default `after_view_func`: prefix
 * stripping, the second lookup in the class's own table, the call of the
 * handler and the normalisation of its return value.
 *
 * `url_map_adapter.match` is modelled by `Match`, an abstraction of Werkzeug's
 * URL matcher: a rule matches when its path template equals the stripped
 * template exactly and its methods contain the request method (compared
 * upper-cased, as Werkzeug does).
 */
module Dispatching {
  import opened Optional
  import opened Strings
  import opened RouteTable

  /** A value a handler returns: a body or a status. */
  datatype Value = Str(s: string) | Int(n: int) | Nil

  /** A handler's return value: a tuple, or any single non-tuple value. */
  datatype Ret = Single(v: Value) | Tuple(items: seq<Value>)

  /** The path arguments passed to the handler as keyword arguments. */
  type Kwargs = map<string, string>

  /** The exceptions a dispatch can raise. */
  datatype Failure =
    | NotFound           // werkzeug NotFound: no rule has this template
    | MethodNotAllowed   // werkzeug MethodNotAllowed
    | TypeError          // the handler or after_view_func could not be called as Python requires

  /** The (body, status) pair `dispatch_request` returns. */
  datatype Response = Response(body: Value, status: Value)

  /** The three strips of `dispatch_request`: blueprint prefix, class prefix, class base, in that order. */
  function StripPrefixes(template: string, bpPrefix: Option<string>, routePrefix: Option<string>,
                         routeBase: Option<string>): string
  {
    Lstrip(Lstrip(Lstrip(template, OrEmpty(bpPrefix)), OrEmpty(routePrefix)), OrEmpty(routeBase))
  }

  /**
   * Stripping the three prefixes from a template composed from them in the
   * same order gives the class-relative rule back.
   */
  lemma StripRoundTrip(bpPrefix: Option<string>, routePrefix: Option<string>, routeBase: Option<string>, rule: string)
    ensures StripPrefixes(OrEmpty(bpPrefix) + (OrEmpty(routePrefix) + OrEmpty(routeBase) + rule),
                          bpPrefix, routePrefix, routeBase) == rule
  {
    var bp, p, b := OrEmpty(bpPrefix), OrEmpty(routePrefix), OrEmpty(routeBase);
    LstripConcat(bp, p + b + rule);
    assert p + b + rule == p + (b + rule);
    LstripConcat(p, b + rule);
    LstripConcat(b, rule);
  }

  /** The method set names `verb`, ignoring ASCII case. */
  predicate Allows(methods: seq<string>, verb: string) {
    exists k :: 0 <= k < |methods| && Upper(methods[k]) == Upper(verb)
  }

  /** The rule answers this template and method. */
  predicate Serves(r: Rule, path: string, verb: string) {
    r.path == path && Allows(r.methods, verb)
  }

  /**
   * `url_map_adapter.match(path, verb)`: the endpoint of the first rule
   * serving the template and method; NotFound when no rule has the template,
   * MethodNotAllowed when some do but none allows the method.
   */
  function Match(table: seq<Rule>, path: string, verb: string): (res: Result<string, Failure>)
    ensures res.Ok? <==> exists i :: 0 <= i < |table| && Serves(table[i], path, verb)
    ensures res.Ok? ==> exists i :: (0 <= i < |table| && Serves(table[i], path, verb) &&
                                     table[i].endpoint == res.value &&
                                     forall j :: 0 <= j < i ==> !Serves(table[j], path, verb))
    ensures res == Err(NotFound) <==> forall i :: 0 <= i < |table| ==> table[i].path != path
    ensures res.Err? ==> res.error != TypeError
  {
    if table == [] then Err(NotFound)
    else if Serves(table[0], path, verb) then Ok(table[0].endpoint)
    else
      var rest := Match(table[1..], path, verb);
      assert forall i :: 1 <= i < |table| ==> table[i] == table[1..][i - 1];
      if rest.Ok? then rest
      else if table[0].path == path then Err(MethodNotAllowed)
      else rest
  }

  /** The default `after_view_func(response, status=200)`, called with the tuple spread as arguments. */
  function AfterViewFunc(args: seq<Value>): (res: Result<Response, Failure>)
    ensures |args| == 1 ==> res == Ok(Response(args[0], Int(200)))
    ensures |args| == 2 ==> res == Ok(Response(args[0], args[1]))
    ensures res.Ok? <==> 1 <= |args| <= 2
  {
    if |args| == 1 then Ok(Response(args[0], Int(200)))
    else if |args| == 2 then Ok(Response(args[0], args[1]))
    else Err(TypeError)
  }

  /** `if type(rv) != tuple: rv = (rv,)`. */
  function Normalize(rv: Ret): seq<Value> {
    match rv
    case Single(v) => [v]
    case Tuple(items) => items
  }

  /** `if func := getattr(self, view_func, None)`: the attribute exists and is truthy. */
  predicate Truthy(a: Attr) {
    a.Function? || a.truthy
  }

  /**
   * `dispatch_request` on a class whose bound table is `table` and whose
   * namespace is `attrs`; `call(name, kwargs)` is what the handler `name`
   * returns (the handlers' bodies are not part of this model).
   */
  function Dispatch(table: seq<Rule>, attrs: map<string, Attr>, bpPrefix: Option<string>,
                    routePrefix: Option<string>, routeBase: Option<string>,
                    template: string, verb: string,
                    call: (string, Kwargs) -> Ret, kwargs: Kwargs): Result<Response, Failure>
  {
    var path := StripPrefixes(template, bpPrefix, routePrefix, routeBase);
    match Match(table, path, Lower(verb))
    case Err(f) => Err(f)
    case Ok(name) => Invoke(attrs, name, call, kwargs)
  }

  /** What `dispatch_request` does once the matcher has named the handler `name`. */
  function Invoke(attrs: map<string, Attr>, name: string,
                  call: (string, Kwargs) -> Ret, kwargs: Kwargs): Result<Response, Failure>
  {
    if name in attrs && Truthy(attrs[name]) then
      if attrs[name].Function? then AfterViewFunc(Normalize(call(name, kwargs))) else Err(TypeError)
    else Err(MethodNotAllowed)
  }

  /**
   * The outcomes of a dispatch: a bare return gets status 200, a pair keeps
   * its status, a falsy or missing handler raises MethodNotAllowed, and the
   * matcher's exceptions propagate.
   */
  lemma DispatchOutcome(table: seq<Rule>, attrs: map<string, Attr>, bpPrefix: Option<string>,
                        routePrefix: Option<string>, routeBase: Option<string>,
                        template: string, verb: string,
                        call: (string, Kwargs) -> Ret, kwargs: Kwargs)
    ensures var m := Match(table, StripPrefixes(template, bpPrefix, routePrefix, routeBase), Lower(verb));
            var res := Dispatch(table, attrs, bpPrefix, routePrefix, routeBase, template, verb, call, kwargs);
            && (m.Err? ==> res == Err(m.error))
            && (m.Ok? && (m.value !in attrs || !Truthy(attrs[m.value])) ==> res == Err(MethodNotAllowed))
            && (m.Ok? && m.value in attrs && attrs[m.value].Function? ==>
                  (call(m.value, kwargs).Single? ==> res == Ok(Response(call(m.value, kwargs).v, Int(200)))) &&
                  (call(m.value, kwargs).Tuple? && |call(m.value, kwargs).items| == 2 ==>
                     res == Ok(Response(call(m.value, kwargs).items[0], call(m.value, kwargs).items[1]))))
  {
  }

  /**
   * A request for a template that the table knows, with a method none of the
   * rules for that template allows, raises MethodNotAllowed.
   */
  lemma UnservedMethod(table: seq<Rule>, attrs: map<string, Attr>, bpPrefix: Option<string>,
                       routePrefix: Option<string>, routeBase: Option<string>,
                       template: string, verb: string,
                       call: (string, Kwargs) -> Ret, kwargs: Kwargs, i: nat)
    requires i < |table| && table[i].path == StripPrefixes(template, bpPrefix, routePrefix, routeBase)
    requires forall j :: 0 <= j < |table| && table[j].path == table[i].path ==> !Allows(table[j].methods, verb)
    ensures Dispatch(table, attrs, bpPrefix, routePrefix, routeBase, template, verb, call, kwargs)
            == Err(MethodNotAllowed)
  {
    UpperOfLower(verb);
  }

  /**
   * A request whose method a rule for the template allows is matched, to the
   * earliest rule for that template and method (the case of the method name
   * does not matter, as `dispatch_request` lower-cases it).
   */
  lemma MatchFindsEarliest(table: seq<Rule>, path: string, verb: string, i: nat)
    requires i < |table| && Serves(table[i], path, verb)
    ensures var m := Match(table, path, Lower(verb));
            m.Ok? && exists j :: 0 <= j <= i && Serves(table[j], path, verb) && table[j].endpoint == m.value &&
                                 forall j' :: 0 <= j' < j ==> !Serves(table[j'], path, verb)
  {
    UpperOfLower(verb);
    assert Serves(table[i], path, Lower(verb));
    var m := Match(table, path, Lower(verb));
    var j :| 0 <= j < |table| && Serves(table[j], path, Lower(verb)) && table[j].endpoint == m.value &&
             forall j' :: 0 <= j' < j ==> !Serves(table[j'], path, Lower(verb));
    assert j <= i;
    assert Serves(table[j], path, verb);
  }
}
