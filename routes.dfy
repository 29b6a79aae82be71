/**
 * Route descriptors and transitions as the router hands them to the
 * transition analyzer, and the parameter list the analyzer builds from a
 * route's parent chain before it asks the router for a URL
 * (`findAllRouteParamsForUrlLookup`).
 */
module Routes {
  import opened Wrappers

  /** One dynamic-segment parameter of a route level: its key and its value. */
  type Param = (string, string)

  /**
   * A route descriptor: its dotted name, its parameters in key order
   * (`Object.keys` order), and the descriptor of its parent. The router's
   * keys are unique; the sequence does not enforce that, and nothing here
   * depends on it.
   */
  datatype RouteInfo = RouteInfo(name: string, params: seq<Param>, parent: Option<RouteInfo>)

  /**
   * A transition. The router's objects are compared by identity; `id`
   * stands for that identity, so two transitions are the same object
   * exactly when they are equal values.
   */
  datatype Transition = Transition(id: nat, to: Option<RouteInfo>)

  /** The values of one level's parameters, in key order. */
  function Values(ps: seq<Param>): (vs: seq<string>)
    ensures |vs| == |ps|
    ensures forall k :: 0 <= k < |ps| ==> vs[k] == ps[k].1
  {
    if ps == [] then [] else Values(ps[..|ps| - 1]) + [ps[|ps| - 1].1]
  }

  /** The parameter maps of the chain starting at `route`, leaf to root, skipping levels without parameters. */
  function Levels(route: Option<RouteInfo>): seq<seq<Param>>
    decreases route
  {
    match route
    case None => []
    case Some(r) => (if |r.params| > 0 then [r.params] else []) + Levels(r.parent)
  }

  /** The values of every map in `levels`, map after map, each in key order. */
  function Flatten(levels: seq<seq<Param>>): seq<string>
  {
    if levels == [] then [] else Flatten(levels[..|levels| - 1]) + Values(levels[|levels| - 1])
  }

  function Reversed<T>(s: seq<T>): (r: seq<T>)
    ensures |r| == |s|
    ensures forall k :: 0 <= k < |s| ==> r[k] == s[|s| - 1 - k]
  {
    if s == [] then [] else Reversed(s[1..]) + [s[0]]
  }

  /**
   * The argument list the analyzer passes to the router's URL builder for
   * `route`: read root first, each level in reversed key order, one value
   * per parameter of the chain.
   */
  function LookupParams(route: RouteInfo): (r: seq<string>)
    ensures r == RootFirstParams(Some(route))
    ensures |r| == ParamCount(Some(route))
  {
    LookupParamsRootFirst(Some(route));
    LookupParamsLength(Some(route));
    Reversed(Flatten(Levels(Some(route))))
  }

  /**
   * The same list read root first: the levels from the root down to
   * `route`, each contributing its values in REVERSED key order.
   */
  function RootFirstParams(route: Option<RouteInfo>): seq<string>
    decreases route
  {
    match route
    case None => []
    case Some(r) => RootFirstParams(r.parent) + Reversed(Values(r.params))
  }

  /** The number of parameters over the whole chain. */
  function ParamCount(route: Option<RouteInfo>): nat
    decreases route
  {
    match route
    case None => 0
    case Some(r) => |r.params| + ParamCount(r.parent)
  }

  /** No level of the chain has a dynamic segment. */
  predicate AllStatic(route: Option<RouteInfo>)
    decreases route
  {
    match route
    case None => true
    case Some(r) => r.params == [] && AllStatic(r.parent)
  }

  lemma {:induction false} FlattenAppend(a: seq<seq<Param>>, b: seq<seq<Param>>)
    ensures Flatten(a + b) == Flatten(a) + Flatten(b)
    decreases |b|
  {
    if b == [] {
      assert a + b == a;
    } else {
      var b' := b[..|b| - 1];
      assert (a + b)[..|a + b| - 1] == a + b';
      assert (a + b)[|a + b| - 1] == b[|b| - 1];
      FlattenAppend(a, b');
      calc {
        Flatten(a + b);
        Flatten(a + b') + Values(b[|b| - 1]);
        Flatten(a) + Flatten(b') + Values(b[|b| - 1]);
        Flatten(a) + Flatten(b);
      }
    }
  }

  lemma ReversedAppend<T>(a: seq<T>, b: seq<T>)
    ensures Reversed(a + b) == Reversed(b) + Reversed(a)
  {
  }

  /**
   * Reading the argument list root first: the outermost level comes first,
   * but inside one level the key order is reversed.
   */
  lemma {:induction false} LookupParamsRootFirst(route: Option<RouteInfo>)
    ensures Reversed(Flatten(Levels(route))) == RootFirstParams(route)
    decreases route
  {
    match route
    case None =>
    case Some(r) =>
      var own: seq<seq<Param>> := if |r.params| > 0 then [r.params] else [];
      FlattenAppend(own, Levels(r.parent));
      assert Flatten(own) == Values(r.params) by {
        if |r.params| > 0 {
          assert own[..0] == [];
        }
      }
      ReversedAppend(Flatten(own), Flatten(Levels(r.parent)));
      LookupParamsRootFirst(r.parent);
  }

  /** The argument list holds one value per parameter of the chain. */
  lemma {:induction false} LookupParamsLength(route: Option<RouteInfo>)
    ensures |Flatten(Levels(route))| == ParamCount(route)
    decreases route
  {
    match route
    case None =>
    case Some(r) =>
      var own: seq<seq<Param>> := if |r.params| > 0 then [r.params] else [];
      FlattenAppend(own, Levels(r.parent));
      if |r.params| > 0 {
        assert own[..0] == [];
      }
      LookupParamsLength(r.parent);
  }

  /** A chain without dynamic segments yields the empty argument list. */
  lemma {:induction false} AllStaticNoParams(route: Option<RouteInfo>)
    requires AllStatic(route)
    ensures Flatten(Levels(route)) == []
    decreases route
  {
    match route
    case None =>
    case Some(r) =>
      assert Levels(route) == Levels(r.parent);
      AllStaticNoParams(r.parent);
  }

  /**
   * `params.child` under `params` (path `/some-route/:param`): the child
   * has no segment, so the list is the parent's value. A level with two
   * keys contributes its values last key first.
   */
  lemma LookupParamsExamples()
    ensures LookupParams(RouteInfo("params.child", [],
              Some(RouteInfo("params", [("param", "my-param")], Some(RouteInfo("application", [], None))))))
            == ["my-param"]
    ensures LookupParams(RouteInfo("post.comment", [("comment_id", "7")],
              Some(RouteInfo("post", [("year", "2021"), ("slug", "hello")], None))))
            == ["hello", "2021", "7"]
  {
    var post := RouteInfo("post", [("year", "2021"), ("slug", "hello")], None);
    var comment := RouteInfo("post.comment", [("comment_id", "7")], Some(post));
    assert Values(post.params) == ["2021", "hello"];
    assert RootFirstParams(Some(post)) == ["hello", "2021"];
  }

  /** `findAllRouteParamsForUrlLookup`: walk the chain, flatten, reverse. */
  method FindAllRouteParamsForUrlLookup(transition: Transition) returns (finalParams: seq<string>)
    requires transition.to.Some?
    ensures finalParams == LookupParams(transition.to.value)
    ensures finalParams == RootFirstParams(transition.to)
    ensures |finalParams| == ParamCount(transition.to)
  {
    var params := CollectParamLevels(transition.to);
    var flat := FlattenParamLevels(params);
    var buffer := new string[|flat|](k requires 0 <= k < |flat| => flat[k]);
    assert buffer[..] == flat;
    ReverseInPlace(buffer);
    finalParams := buffer[..];
    LookupParamsRootFirst(transition.to);
    LookupParamsLength(transition.to);
  }

  /** The `while (route)` walk up the parent links, keeping the non-empty parameter maps. */
  method CollectParamLevels(start: Option<RouteInfo>) returns (params: seq<seq<Param>>)
    ensures params == Levels(start)
  {
    var route := start;
    params := [];
    while route.Some?
      invariant params + Levels(route) == Levels(start)
      decreases route
    {
      var level := route.value;
      if |level.params| > 0 {
        params := params + [level.params];
      }
      route := level.parent;
    }
  }

  /** The nested `forEach` pushing every value of every collected map, in order. */
  method FlattenParamLevels(params: seq<seq<Param>>) returns (flat: seq<string>)
    ensures flat == Flatten(params)
  {
    flat := [];
    var i := 0;
    while i < |params|
      invariant 0 <= i <= |params|
      invariant flat == Flatten(params[..i])
    {
      var obj := params[i];
      var j := 0;
      while j < |obj|
        invariant 0 <= j <= |obj|
        invariant flat == Flatten(params[..i]) + Values(obj[..j])
      {
        assert obj[..j + 1][..j] == obj[..j];
        flat := flat + [obj[j].1];
        j := j + 1;
      }
      assert obj[..j] == obj;
      assert params[..i + 1][..i] == params[..i];
      i := i + 1;
    }
    assert params[..i] == params;
  }

  /** JavaScript's in-place `Array.prototype.reverse`. */
  method ReverseInPlace(a: array<string>)
    modifies a
    ensures a[..] == Reversed(old(a[..]))
  {
    var lo, hi := 0, a.Length;
    while lo + 1 < hi
      invariant 0 <= lo <= hi <= a.Length && lo + hi == a.Length
      invariant forall k :: 0 <= k < lo ==> a[k] == old(a[a.Length - 1 - k])
      invariant forall k :: hi <= k < a.Length ==> a[k] == old(a[a.Length - 1 - k])
      invariant forall k :: lo <= k < hi ==> a[k] == old(a[k])
    {
      a[lo], a[hi - 1] := a[hi - 1], a[lo];
      lo, hi := lo + 1, hi - 1;
    }
    assert forall k :: 0 <= k < a.Length ==> a[..][k] == Reversed(old(a[..]))[k];
  }
}
