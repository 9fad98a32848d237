# flask-viewful route tables in Dafny

This project models the routing core of `flask_viewful.py`. That module lets one
Flask view class serve several routes. Each handler carries `@route`
annotations. A metaclass (`ViewMeta`) turns the annotations into a per-class
Werkzeug `Map`. Inherited handlers that the class does not redefine are merged
into it. `GenericView.register` installs every rule on an application or
Blueprint under one shared dispatch function. `GenericView.dispatch_request`
strips the prefixes from the matched rule template, looks the handler up again
in the class's own table, calls it and normalises its return value.

Modules, one per part of the source:

- `Optional` (optional.dfy): `Option`, `Result` and Python's `s or ''`.
- `Strings` (strings.dfy): `_lstrip` and the ASCII case mapping that method names go through.
- `Decorators` (decorators.dfy): `RouteMeta`, the annotation built by `route(...)`, and
  `FunctionObject`, a function whose `route_meta` attribute the decorator updates in place.
- `RouteTable` (table.dfy): the class namespace, the rules each attribute contributes
  (annotations and the `index`/`get`/`post`/`put`/`patch`/`delete` conventions) and the table as a whole.
- `Registration` (registration.dfy): what `register` passes to `add_url_rule` for each rule.
  This covers the composed path, the `ClassName:endpoint` id and the filtered options.
- `Dispatching` (dispatch.dfy): the three prefix strips, the lookup in the class table,
  the default `after_view_func` and the whole of `dispatch_request` as a function.
- `Views` (views.dfy): `ViewClass`, whose constructor is the `ViewMeta.__new__` builder
  written as loops, plus `Register` and `DispatchRequest`. It also holds `Container`,
  an application or Blueprint that records `add_url_rule` calls. Inheritance and the
  theorem tying registration to dispatch are proved here too.

Werkzeug's `Map` is a sequence of `Rule` records (path, methods, endpoint,
options). The model iterates it in insertion order; Werkzeug's `iter_rules()`
(lines 51 and 124) returns its own sorted order instead. `url_map_adapter.match` is modelled by
`Dispatching.Match`, an abstraction of Werkzeug's URL matcher. It picks the
first rule whose path template equals the stripped template exactly and whose
methods contain the request method, compared upper-cased. It raises NotFound
when no rule has the template and MethodNotAllowed when rules have it but none
allows the method. A class's `url_map` and namespace are `const` fields: a
subclass is built from its bases' tables and never changes them.

Class attributes are `RouteTable.Attr` values. A `Function` carries its
`route_meta` list, if it has one. `Data` is any other value, and the model
keeps only its truthiness. The code treats such values as follows, and the model
does the same:

- A non-function attribute named like a convention handler (`get = None`) gets
  the implicit rule, because it has no `route_meta`.
- Dispatching to it then raises MethodNotAllowed, because `getattr` gives a falsy value.
- A function whose `route_meta` is an empty list gets no rule at all. It has the
  attribute, so no implicit rule is added, and the list is empty, so no annotated rule is added.

Two consequences of the code as written:

- The table is not a map from (path, method) to a handler. It keeps every rule, and lookup picks the first one that serves the request.
- `register` passes `route_prefix + route_base + rule` to `add_url_rule`. The Blueprint adds its own prefix when the Blueprint is registered. Only `dispatch_request` knows that prefix, from `_bp_prefix`.

## Model

| member | source | states |
|---|---|---|
| Strings.Lstrip | flask_viewful.py:20-27 | if `chars` is non-empty and a literal prefix of `text`, then `chars + result == text`; otherwise the result is `text` unchanged |
| Strings.LstripConcat | flask_viewful.py:20-27 | stripping a string that was prepended gives back what followed it, for every prefix, the empty one included |
| Strings.UpperOfLower | flask_viewful.py:95 | lower-casing the request method does not change what upper-case comparison sees |
| Decorators.DefaultRouteMeta | flask_viewful.py:30-35 | `route(path)` with no other arguments builds `RouteMeta(path, ('GET',), {})` |
| Decorators.Prepend | flask_viewful.py:33 | the new list is one longer than the old one; its head is the new annotation and its tail is the previous list, or empty when the function had none |
| Decorators.StackedRoutes | flask_viewful.py:30-35 | applying N decorators leaves N new entries, most recently applied first, each exactly as given, ahead of the previous list |
| Decorators.FunctionObject.Route | flask_viewful.py:30-35 | the decorator replaces the function's `route_meta` with the new annotation prepended to the old list |
| RouteTable.MetaRules | flask_viewful.py:59-67 | one rule per `route_meta` entry, in list order, with that entry's path, methods and options and the function's name as endpoint |
| RouteTable.RulesFor | flask_viewful.py:59-76 | every rule an attribute contributes has the attribute's name as endpoint |
| RouteTable.AnnotatedRules | flask_viewful.py:59-76 | a function with `route_meta` gets exactly one rule per entry, in order, and no implicit rule whatever its name |
| RouteTable.ConventionRules | flask_viewful.py:69-76 | without `route_meta`: `index` gives (`/`, get), `post` gives (`/`, post), `get`/`put`/`patch`/`delete` give (`/<id>`, own name), and any other name gives no rule |
| RouteTable.TableOf | flask_viewful.py:59-76 | every endpoint in the table is an attribute name of the class |
| RouteTable.TableRulesOf | flask_viewful.py:59-76 | in the table, the rules for endpoint `e` are exactly the rules attribute `e` contributes, and none when there is no such attribute |
| Registration.RegisterOptionsKeys | flask_viewful.py:123-131 | a key is passed on exactly when it is not reserved, does not start with `_`, and is not a `defaults` that is None; it keeps its value |
| Registration.RegisteredRuleOptions | flask_viewful.py:123-131 | for a rule's `__dict__`, the passed options are the rule's own options minus reserved and private keys and minus a `defaults` that is None |
| Registration.EndpointIdInjective | flask_viewful.py:134 | a `ClassName:endpoint` id determines both the class name and the endpoint when class names contain no `:` |
| Registration.ExternalRules | flask_viewful.py:119-138 | one `add_url_rule` call per table rule, in order: path `(route_prefix or '') + (route_base or '') + rule`, endpoint `ClassName:endpoint`, the same methods and the filtered options |
| Dispatching.StripRoundTrip | flask_viewful.py:89-94 | stripping the blueprint prefix, then the class prefix, then the class base from a template built from them in that order yields the class-relative rule |
| Dispatching.Match | flask_viewful.py:97 | the lookup succeeds exactly when some rule serves the template and method, and then returns the earliest such rule's endpoint; NotFound exactly when no rule has the template; otherwise MethodNotAllowed |
| Dispatching.MatchFindsEarliest | flask_viewful.py:95-97 | a method that a rule for the template allows, in any letter case, is matched to a rule at or before it that serves that template and method, with no earlier rule serving them |
| Dispatching.AfterViewFunc | flask_viewful.py:110-111 | one argument gives `(body, 200)`, two give `(body, status)`, and any other count raises TypeError |
| Dispatching.DispatchOutcome | flask_viewful.py:97-106 | matcher exceptions propagate; a missing or falsy handler raises MethodNotAllowed; a bare return `v` gives `(v, 200)`; a pair `(b, s)` gives `(b, s)` |
| Dispatching.UnservedMethod | flask_viewful.py:97-106 | a request for a known template with a method that none of the rules for that template allows raises MethodNotAllowed |
| Views.CopyInheritedLookup | flask_viewful.py:51-53 | for one base, names already in the namespace keep their value; other names routed by the base get the base's attribute; all other names stay absent |
| Views.InheritLookup | flask_viewful.py:49-53 | after step 1, own attributes keep their value, a missing name takes the value of the first base in order that routes it, and other names stay absent |
| Views.InheritedRoutes | flask_viewful.py:49-76 | a redefined handler has only the subclass's own rules; an inherited one has exactly the rules the first base routing it has; any other name has none |
| Views.CopyFromBase | flask_viewful.py:50-53 | the loop over one base's rules builds the namespace that `CopyInherited` specifies |
| Views.InheritedNamespace | flask_viewful.py:49-53 | the loop over the bases builds the namespace that `Inherit` specifies |
| Views.AddMetaRules | flask_viewful.py:60-67 | the loop over a `route_meta` list appends exactly `MetaRules` for it |
| Views.BuildTable | flask_viewful.py:59-76 | the loop over the namespace builds exactly the table `Table` specifies |
| Views.ViewClass.constructor | flask_viewful.py:39-79 | the new class's namespace is the inherited merge of its body, and its `url_map` is that namespace's table; it is valid and not yet registered |
| Views.ViewClass.Register | flask_viewful.py:113-138 | `_bp_prefix` becomes the Blueprint's prefix only when registering on a Blueprint; the adapter is bound to the table; the container gains exactly the `ExternalRules` calls |
| Views.ViewClass.DispatchRequest | flask_viewful.py:88-106 | the sequential strips, lookup, call and normalisation give exactly `Dispatch` of the class's current state |
| Views.RegisteredRouteDispatches | flask_viewful.py:88-138 | a request for a registered rule's template, carrying the recorded blueprint prefix and an allowed method, resolves to a handler of the class: that of the earliest rule serving the same template and method |
| Views.AppRouteAfterBlueprint | flask_viewful.py:88-138 | after registration on a Blueprint, an application route whose template does not start with the Blueprint's prefix still resolves to the earliest rule serving its template and method |
| Views.SingleRouteTable | flask_viewful.py:59-67 | a class whose one handler `h` is annotated `/abc` for GET has the table `[/abc GET -> h]` |
| Views.BlueprintPrefixBreaksAppRoute | flask_viewful.py:88-93 | with `_bp_prefix` `/a` left by a Blueprint registration, the application template `/abc` is stripped to `bc` and dispatch raises NotFound |
| Views.MountedRouteDispatches | flask_viewful.py:88-138 | with the corrected dispatch, which strips the prefix of the container that received the request (none for an application, its own for a Blueprint), a registered rule reached through any container runs the handler of the earliest rule serving its template and method |
| Views.MountPrefixServesBothContainers | flask_viewful.py:88-138 | with the corrected dispatch, a class registered on two containers gives the same result for every rule through both, whatever the order of registration |

## Left out

- Werkzeug's `Rule` compilation and converters are not modelled. Neither is the addition of HEAD and OPTIONS, nor the upper-casing of the stored method set. Rules keep their methods as given, and `Match` compares methods upper-cased.
- `methods=None`, which lets a Werkzeug rule accept any method, is not modelled.
- Werkzeug's real URL matching and its ordering of rules by complexity are not modelled. `Match` is an exact-template lookup. Among rules with the same template, Werkzeug keeps insertion order, as `Match` does. Werkzeug's `MapAdapter.match` also looks up `'/' + path.lstrip('/')` rather than the exact text it is given. For a Blueprint with `url_prefix='/bp/'`, Flask mounts the rule `/example` as `/bp/example`. `_lstrip` leaves `example`, which Werkzeug finds as `/example`, whereas `Dispatch` returns NotFound.
- Werkzeug's `Rule` constructor rejects unknown or reserved keyword options; that check is not modelled. `RuleDict` holds the reserved attributes, one private attribute, `defaults` and the rule's own options. Werkzeug's other defaulted attributes (`strict_slashes`, `subdomain`, ...) are not modelled.
- Flask's side is not modelled: `as_view`, the view function object, endpoint-conflict assertions in `add_url_rule`, and the deferred Blueprint registration. How a Blueprint joins its prefix to a path is modelled in `RegisteredRouteDispatches` as plain concatenation. That matches Flask's join when the prefix has no trailing `/` and the path starts with `/`.
- Duplicate-rule conflict detection belongs to Werkzeug and Flask, not to this code.
- Python reflection is not modelled. The class namespace is an explicit ordered map. `route_prefix` and `route_base`, which Python reads through the class hierarchy, are constructor parameters. The `url_map` entry that `__new__` adds to the namespace (line 78) is the separate `urlMap` field.
- Views.ViewClass.constructor: a new class starts with `_bp_prefix` None and no `url_map_adapter`. In Python `register` stores both as class attributes (lines 117 and 122), which are looked up through the class hierarchy at dispatch time. A subclass therefore sees its parent's `_bp_prefix` whenever the parent registers on a Blueprint, and its parent's adapter, bound to the parent's table, whenever the parent registers anywhere. This holds before or after the subclass is created, until the subclass registers itself. A subclass mounted without `register` then dispatches against its parent's table.
- Views.RegisteredRouteDispatches: holds only under the exact-template abstraction of `Match`. Werkzeug's converters can reject their own placeholder text (the template `/<int:id>` does not match the rule `/<int:id>`, giving NotFound), and overlapping dynamic rules such as `/<a>` and `/<b>` can resolve to the other endpoint.
- Dispatching.Dispatch: a truthy attribute that is not a function raises TypeError in the model. Python would call any callable (a class, a `functools.partial`, an instance with `__call__`); such callables are not modelled.
- The order of `Map.iter_rules()` is not modelled. Werkzeug sorts rules when `update()` runs, so the inherited rules copied at line 51 and the `add_url_rule` calls at line 124 follow Werkzeug's order, not insertion order. The model uses insertion order in both places.
- `before_view_func` is a no-op hook and is not modelled. Only the default `after_view_func` is modelled; overrides are not.
- Handler bodies are not modelled. What handler `name` returns for given keyword arguments is the parameter `call`.
- A tuple subclass returned by a handler counts as a tuple in the model. Python's `type(rv) != tuple` would wrap it.
- Strings.Upper: only ASCII letters change case. Python's `str.lower` and Werkzeug's `upper` cover all of Unicode.
- Views.ViewClass.DispatchRequest: requires the class to have been registered. Before that, Python raises AttributeError, unless an ancestor was registered and the class inherits that ancestor's `url_map_adapter` (see the constructor line above).
- `example.py`, `setup.py` and the test files are not part of this model. The tests informed the contracts only.

## Findings

| source | as written | input that shows it | evidently intended | confidence | as-written member | corrected member |
|---|---|---|---|---|---|---|
| flask_viewful.py:88-93 | `dispatch_request` strips the `_bp_prefix` that `register` stores on the class (lines 115-117) at the last Blueprint registration from every request, including requests the class receives through the application | a class with one rule `/abc`, registered on a Blueprint with prefix `/a` and also on the application; the application request for `/abc` is stripped to `bc` and raises NotFound | strip only the prefix of the container that received the request, so that each rule resolves through both registrations | not executed | Views.BlueprintPrefixBreaksAppRoute | Views.MountPrefixServesBothContainers |
