/**
 * The router transition analyzer service: a queue of in-flight transitions,
 * an ordered registry of "should update URL" callbacks, and the decision
 * whether a transition into a loading/error substate should announce the
 * URL of the route it interrupted.
 */
module TransitionAnalyzer {
  import opened Wrappers
  import opened Routes

  /** A registered `shouldUpdateURL` callback, by identity. */
  type CallbackId = nat

  /** One invocation `cb(url)` of a registered callback. */
  datatype Call = Call(callback: CallbackId, url: string)

  const LoadingSuffix: string := "loading"
  const ErrorSuffix: string := "error"

  /**
   * JavaScript's `String.prototype.endsWith`, case-sensitive. JavaScript
   * compares UTF-16 code units and Dafny's `string` holds Unicode scalar
   * values; the two agree here because both suffixes are ASCII.
   */
  predicate EndsWith(s: string, suffix: string)
  {
    |suffix| <= |s| && s[|s| - |suffix|..] == suffix
  }

  lemma EndsWithExactly(s: string, suffix: string)
    ensures EndsWith(s, suffix) <==> exists p :: p + suffix == s
  {
    if EndsWith(s, suffix) {
      var p := s[..|s| - |suffix|];
      assert p + suffix == s;
    }
    if exists p :: p + suffix == s {
      var p :| p + suffix == s;
      assert s[|p|..] == suffix;
    }
  }

  /** A substate route name: some string followed by "loading" or by "error". */
  predicate IsIntermediateName(name: string): (r: bool)
    ensures r <==> exists p :: p + "loading" == name || p + "error" == name
  {
    EndsWithExactly(name, LoadingSuffix);
    EndsWithExactly(name, ErrorSuffix);
    EndsWith(name, LoadingSuffix) || EndsWith(name, ErrorSuffix)
  }

  /**
   * `isIntermediateRoute`: it reads `transition.to.name`, so `to` must be
   * present. A transition is intermediate exactly when its destination name
   * is some string followed by "loading" or "error".
   */
  predicate IsIntermediateRoute(transition: Transition): (r: bool)
    requires transition.to.Some?
    ensures r <==> exists p :: p + "loading" == transition.to.value.name || p + "error" == transition.to.value.name
  {
    IsIntermediateName(transition.to.value.name)
  }

  /** `hasRouteInfoForAnalysis`: the definition of `!!transition.to`; `RouteWillChange` states its effect. */
  predicate HasRouteInfoForAnalysis(transition: Transition)
  {
    transition.to.Some?
  }

  /** The match is on the last characters of the full dotted name, with no case folding. */
  lemma IntermediateNameExamples()
    ensures IsIntermediateName("my.route.loading") && IsIntermediateName("my.error")
    ensures IsIntermediateName("downloading")
    ensures !IsIntermediateName("my.route") && !IsIntermediateName("my.route.Loading")
    ensures !IsIntermediateName("my.loading.index")
  {
  }

  /** `Array.prototype.indexOf` by identity: the first position of `x`, or -1. */
  function IndexOf<T(==)>(s: seq<T>, x: T): (r: int)
    ensures -1 <= r < |s|
    ensures r == -1 <==> x !in s
    ensures 0 <= r ==> s[r] == x && forall j :: 0 <= j < r ==> s[j] != x
  {
    if s == [] then -1
    else if s[0] == x then 0
    else
      var k := IndexOf(s[1..], x);
      if k == -1 then -1
      else k + 1
  }

  /** Every queued transition has a destination (the queue only takes those). */
  predicate AllRouted(queue: seq<Transition>)
  {
    forall k :: 0 <= k < |queue| ==> queue[k].to.Some?
  }

  /**
   * The guard chain of `determineUrlForDestinationRoute` over `queue`,
   * and the URL it asks the router for when every guard passes.
   * A URL is produced exactly when the transition is intermediate, it first
   * occurs at a position with a predecessor, and that predecessor is not
   * intermediate; the URL is then the router's URL for the predecessor's
   * destination and its parameter list.
   */
  function EarlyUrl(queue: seq<Transition>, transition: Transition, urlFor: (string, seq<string>) -> string): (r: Option<string>)
    requires transition.to.Some? && AllRouted(queue)
    ensures r.Some? <==>
      IsIntermediateRoute(transition) &&
      exists i :: FirstAt(queue, transition, i) && 0 < i && !IsIntermediateRoute(queue[i - 1])
    ensures forall i :: FirstAt(queue, transition, i) && 0 < i && r.Some? ==>
      r.value == urlFor(queue[i - 1].to.value.name, LookupParams(queue[i - 1].to.value))
  {
    IndexOfIsFirstAt(queue, transition);
    if !IsIntermediateRoute(transition) then None
    else
      var index := IndexOf(queue, transition);
      if index <= 0 then None
      else
        var before := queue[index - 1];
        if IsIntermediateRoute(before) then None
        else Some(urlFor(before.to.value.name, LookupParams(before.to.value)))
  }

  /** `transition` first occurs in `queue` at position `i`. */
  predicate FirstAt(queue: seq<Transition>, transition: Transition, i: int)
  {
    0 <= i < |queue| && queue[i] == transition && transition !in queue[..i]
  }

  /** `indexOf` finds the one position where the transition first occurs. */
  lemma IndexOfIsFirstAt(queue: seq<Transition>, transition: Transition)
    ensures transition in queue ==> FirstAt(queue, transition, IndexOf(queue, transition))
    ensures forall i :: FirstAt(queue, transition, i) ==> i == IndexOf(queue, transition)
  {
  }

  /** The defensive guards: a transition missing from the queue, or at its head, yields no URL. */
  lemma NoPredecessorNoUrl(queue: seq<Transition>, transition: Transition, urlFor: (string, seq<string>) -> string)
    requires transition.to.Some? && AllRouted(queue)
    requires transition !in queue || queue[0] == transition
    ensures EarlyUrl(queue, transition, urlFor) == None
  {
  }

  /** The calls `callbacks.forEach(cb => cb(url))` makes. */
  function Invocations(callbacks: seq<CallbackId>, url: string): seq<Call>
  {
    seq(|callbacks|, k requires 0 <= k < |callbacks| => Call(callbacks[k], url))
  }

  /** What `routeWillChange` fires for an enqueued transition: every callback, when the URL is truthy. */
  function Notifications(queue: seq<Transition>, transition: Transition, callbacks: seq<CallbackId>,
                         urlFor: (string, seq<string>) -> string): seq<Call>
    requires transition.to.Some? && AllRouted(queue)
  {
    match EarlyUrl(queue, transition, urlFor)
    case Some(u) => if u != "" then Invocations(callbacks, u) else []
    case None => []
  }

  /** The callback `forEach`: each registered callback once, in registration order, with `url`. */
  method Notify(callbacks: seq<CallbackId>, url: string) returns (calls: seq<Call>)
    ensures |calls| == |callbacks|
    ensures forall k :: 0 <= k < |calls| ==> calls[k] == Call(callbacks[k], url)
  {
    calls := [];
    var i := 0;
    while i < |callbacks|
      invariant 0 <= i <= |callbacks|
      invariant |calls| == i
      invariant forall k :: 0 <= k < i ==> calls[k] == Call(callbacks[k], url)
    {
      calls := calls + [Call(callbacks[i], url)];
      i := i + 1;
    }
  }

  /** `callbacks.filter(cb => cb !== removed)`. */
  function Without(callbacks: seq<CallbackId>, removed: CallbackId): (r: seq<CallbackId>)
    ensures multiset(r) == multiset(callbacks)[removed := 0]
    ensures removed !in r
    ensures removed !in callbacks ==> r == callbacks
  {
    if callbacks == [] then []
    else
      var rest := Without(callbacks[1..], removed);
      assert callbacks == [callbacks[0]] + callbacks[1..];
      if callbacks[0] == removed then rest else [callbacks[0]] + rest
  }

  /** Removal keeps the other callbacks in their order: it distributes over concatenation. */
  lemma {:induction false} WithoutAppend(a: seq<CallbackId>, b: seq<CallbackId>, removed: CallbackId)
    ensures Without(a + b, removed) == Without(a, removed) + Without(b, removed)
    decreases |a|
  {
    if a == [] {
      assert a + b == b;
    } else {
      assert (a + b)[1..] == a[1..] + b;
      WithoutAppend(a[1..], b, removed);
    }
  }

  /** A callback that is not registered is never invoked. */
  lemma UnregisteredNeverNotified(queue: seq<Transition>, transition: Transition, callbacks: seq<CallbackId>,
                                  urlFor: (string, seq<string>) -> string, cb: CallbackId)
    requires transition.to.Some? && AllRouted(queue)
    requires cb !in callbacks
    ensures forall c :: c in Notifications(queue, transition, callbacks, urlFor) ==> c.callback != cb
  {
  }

  /** A destination that is not a substate never triggers a notification, whatever the queue. */
  lemma NonIntermediateNeverNotifies(queue: seq<Transition>, transition: Transition, callbacks: seq<CallbackId>,
                                     urlFor: (string, seq<string>) -> string)
    requires transition.to.Some? && AllRouted(queue)
    requires !IsIntermediateRoute(transition)
    ensures Notifications(queue, transition, callbacks, urlFor) == []
  {
  }

  /**
   * Navigation A -> A.loading -> A.error from an empty queue: the three
   * `routeWillChange` events together fire the callbacks for A's URL once.
   */
  lemma LoadingThenErrorNotifiesOnce(a: Transition, loading: Transition, error: Transition,
                                     callbacks: seq<CallbackId>, urlFor: (string, seq<string>) -> string)
    requires a.to.Some? && loading.to.Some? && error.to.Some?
    requires !IsIntermediateRoute(a) && IsIntermediateRoute(loading) && IsIntermediateRoute(error)
    requires error != loading
    ensures
      var url := urlFor(a.to.value.name, LookupParams(a.to.value));
      Notifications([a], a, callbacks, urlFor)
      + Notifications([a, loading], loading, callbacks, urlFor)
      + Notifications([a, loading, error], error, callbacks, urlFor)
      == if url != "" then Invocations(callbacks, url) else []
  {
  }

  /** The analyzer service: its queue and registry, and the router's URL builder it was given. */
  class RouterTransitionAnalyzer {
    const urlFor: (string, seq<string>) -> string
    var callbacks: seq<CallbackId>
    var queue: seq<Transition>

    ghost predicate Valid()
      reads this
    {
      AllRouted(queue)
    }

    constructor (urlFor: (string, seq<string>) -> string)
      ensures Valid() && this.urlFor == urlFor
      ensures callbacks == [] && queue == []
    {
      this.urlFor := urlFor;
      callbacks := [];
      queue := [];
    }

    /** `onShouldUpdateURL`: append, duplicates allowed. */
    method OnShouldUpdateURL(callbackToAdd: CallbackId)
      requires Valid()
      modifies this
      ensures Valid()
      ensures callbacks == old(callbacks) + [callbackToAdd]
      ensures queue == old(queue)
    {
      callbacks := callbacks + [callbackToAdd];
    }

    /** `offShouldUpdateURL`: drop every entry identical to the callback. */
    method OffShouldUpdateURL(callbackToRemove: CallbackId)
      requires Valid()
      modifies this
      ensures Valid()
      ensures callbacks == Without(old(callbacks), callbackToRemove)
      ensures callbackToRemove !in callbacks
      ensures queue == old(queue)
    {
      callbacks := Without(callbacks, callbackToRemove);
    }

    /** The state reset of `willDestroy`. */
    method WillDestroy()
      modifies this
      ensures Valid()
      ensures callbacks == [] && queue == []
    {
      callbacks := [];
      queue := [];
    }

    /** `routeWillChangeHandler`: enqueue, decide, notify. Returns the callback invocations made. */
    method RouteWillChange(transition: Transition) returns (fired: seq<Call>)
      requires Valid()
      modifies this
      ensures Valid()
      ensures callbacks == old(callbacks)
      ensures transition.to.None? ==> queue == old(queue) && fired == []
      ensures transition.to.Some? ==>
        queue == old(queue) + [transition] &&
        fired == Notifications(queue, transition, callbacks, urlFor)
      ensures forall c :: c in fired ==> c.callback in callbacks
    {
      fired := [];
      if !HasRouteInfoForAnalysis(transition) {
        return;
      }
      queue := queue + [transition];
      var newUrl := DetermineUrlForDestinationRoute(transition);
      if newUrl.Some? && newUrl.value != "" {
        fired := Notify(callbacks, newUrl.value);
        assert fired == Invocations(callbacks, newUrl.value);
      }
    }

    /** `routeDidChangeHandler`: the queue is emptied whatever the transition holds. */
    method RouteDidChange(transition: Transition)
      modifies this
      ensures Valid()
      ensures queue == []
      ensures callbacks == old(callbacks)
    {
      queue := [];
    }

    /** `determineUrlForDestinationRoute`, reading the current queue. */
    method DetermineUrlForDestinationRoute(transition: Transition) returns (url: Option<string>)
      requires Valid() && transition.to.Some?
      ensures url == EarlyUrl(queue, transition, urlFor)
    {
      url := None;
      if IsIntermediateRoute(transition) {
        var index := IndexOf(queue, transition);
        if 0 < index {
          var before := queue[index - 1];
          if !IsIntermediateRoute(before) {
            var params := FindAllRouteParamsForUrlLookup(before);
            url := Some(urlFor(before.to.value.name, params));
          }
        }
      }
    }
  }
}
