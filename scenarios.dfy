/**
 * The navigations and history sequences the repository's tests exercise,
 * replayed on freshly created objects.
 */
module Scenarios {
  import opened Wrappers
  import opened Routes
  import opened TransitionAnalyzer
  import opened EagerHistoryLocation

  /** A router URL builder that the history-only scenarios never consult. */
  function NoUrl(name: string, params: seq<string>): string
  {
    ""
  }

  /** Registers `callbacks` with a fresh analyzer, in order. */
  method NewAnalyzerWith(callbacks: seq<CallbackId>, urlFor: (string, seq<string>) -> string)
    returns (analyzer: RouterTransitionAnalyzer)
    ensures fresh(analyzer) && analyzer.Valid()
    ensures analyzer.urlFor == urlFor && analyzer.callbacks == callbacks && analyzer.queue == []
  {
    analyzer := new RouterTransitionAnalyzer(urlFor);
    for i := 0 to |callbacks|
      invariant analyzer.Valid() && analyzer.urlFor == urlFor
      invariant analyzer.callbacks == callbacks[..i] && analyzer.queue == []
    {
      assert callbacks[..i + 1] == callbacks[..i] + [callbacks[i]];
      analyzer.OnShouldUpdateURL(callbacks[i]);
    }
    assert callbacks[..|callbacks|] == callbacks;
  }

  /**
   * A -> A.loading -> A.error: the `routeWillChange` events fire the
   * callbacks once, for A's URL, and the second substate is suppressed.
   */
  method LoadingThenError(a: Transition, loading: Transition, error: Transition,
                          callbacks: seq<CallbackId>, urlFor: (string, seq<string>) -> string)
    returns (first: seq<Call>, second: seq<Call>, third: seq<Call>)
    requires a.to.Some? && loading.to.Some? && error.to.Some?
    requires !IsIntermediateRoute(a) && IsIntermediateRoute(loading) && IsIntermediateRoute(error)
    requires error != loading
    ensures first == [] && third == []
    ensures var url := urlFor(a.to.value.name, LookupParams(a.to.value));
      second == if url != "" then Invocations(callbacks, url) else []
  {
    var analyzer := NewAnalyzerWith(callbacks, urlFor);
    first := analyzer.RouteWillChange(a);
    assert analyzer.queue == [a];
    second := analyzer.RouteWillChange(loading);
    assert analyzer.queue == [a, loading];
    assert IndexOf([a, loading], loading) == 1;
    third := analyzer.RouteWillChange(error);
    assert IndexOf([a, loading, error], error) == 2;
    NonIntermediateNeverNotifies([a], a, callbacks, urlFor);
  }

  /** After `routeDidChange` the queue starts over: a lone substate transition has no predecessor. */
  method SubstateAfterSettling(a: Transition, loading: Transition, callbacks: seq<CallbackId>,
                               urlFor: (string, seq<string>) -> string)
    returns (fired: seq<Call>)
    requires a.to.Some? && loading.to.Some?
    ensures fired == []
  {
    var analyzer := NewAnalyzerWith(callbacks, urlFor);
    var ignored := analyzer.RouteWillChange(a);
    analyzer.RouteDidChange(a);
    fired := analyzer.RouteWillChange(loading);
  }

  /** A handler registered and then removed is not called, while the other callbacks still are. */
  method UnsubscribedHandlerNotCalled(a: Transition, loading: Transition, others: seq<CallbackId>,
                                      handler: CallbackId, urlFor: (string, seq<string>) -> string)
    returns (fired: seq<Call>)
    requires a.to.Some? && loading.to.Some?
    requires !IsIntermediateRoute(a) && IsIntermediateRoute(loading)
    requires handler !in others
    ensures forall c :: c in fired ==> c.callback != handler
    ensures var url := urlFor(a.to.value.name, LookupParams(a.to.value));
      fired == if url != "" then Invocations(others, url) else []
  {
    var analyzer := NewAnalyzerWith(others, urlFor);
    analyzer.OnShouldUpdateURL(handler);
    analyzer.OffShouldUpdateURL(handler);
    WithoutAppend(others, [handler], handler);
    assert Without([handler], handler) == [];
    assert analyzer.callbacks == others;
    var ignored := analyzer.RouteWillChange(a);
    fired := analyzer.RouteWillChange(loading);
    assert IndexOf([a, loading], loading) == 1;
    UnregisteredNeverNotified([a, loading], loading, others, urlFor, handler);
  }

  /** An eager push followed by the router's `setURL` of the same path leaves one history entry. */
  method EagerPushThenSetURL(path: string, currentURL: string, baseState: string -> State)
    returns (pushed: Option<State>, lengthAfterPush: nat, lengthAfterSet: nat, delegated: seq<BaseCall>)
    requires currentURL != path
    ensures pushed == Some(EagerState(path))
    ensures lengthAfterPush == 1 && lengthAfterSet == 1
    ensures delegated == [ReplaceCall(path)]
  {
    var analyzer := new RouterTransitionAnalyzer(NoUrl);
    var history := new History();
    var location := new UpdateUrlEagerlyHistoryLocation(history, analyzer, 0, baseState);
    location.ShouldUpdateURL(path, currentURL);
    pushed, lengthAfterPush := history.state, |history.entries|;
    location.SetURL(path);
    lengthAfterSet, delegated := |history.entries|, location.delegated;
  }

  /**
   * The router's replace uses the flag up: with base states that carry no
   * flag, a later `setURL` of another path is a base set and adds an entry.
   */
  method FlagConsumedBySetURL(path: string, path2: string, currentURL: string, baseState: string -> State)
    returns (delegated: seq<BaseCall>, lengthAfterFirstSet: nat, lengthAfterSecondSet: nat)
    requires currentURL != path && path2 != path
    requires FlagFree(baseState)
    ensures delegated == [ReplaceCall(path), SetCall(path2)]
    ensures lengthAfterFirstSet == 1 && lengthAfterSecondSet == 2
  {
    var analyzer := new RouterTransitionAnalyzer(NoUrl);
    var history := new History();
    var location := new UpdateUrlEagerlyHistoryLocation(history, analyzer, 0, baseState);
    location.ShouldUpdateURL(path, currentURL);
    location.SetURL(path);
    lengthAfterFirstSet := |history.entries|;
    location.SetURL(path2);
    lengthAfterSecondSet, delegated := |history.entries|, location.delegated;
  }

  /** When `getURL()` already reports the path, the handler pushes nothing. */
  method SamePathPushesNothing(path: string, baseState: string -> State)
    returns (state: Option<State>, length: nat)
    ensures state == None && length == 0
  {
    var analyzer := new RouterTransitionAnalyzer(NoUrl);
    var history := new History();
    var location := new UpdateUrlEagerlyHistoryLocation(history, analyzer, 0, baseState);
    location.ShouldUpdateURL(path, path);
    state, length := history.state, |history.entries|;
  }

  /**
   * The whole flow: A -> A.loading through the analyzer notifies the
   * location, which pushes A's URL as a flagged entry; when the router
   * finishes and sets that URL, the entry is replaced, not duplicated.
   */
  method EagerUpdateAcrossSubstate(a: Transition, loading: Transition, handler: CallbackId,
                                   urlFor: (string, seq<string>) -> string, currentURL: string,
                                   baseState: string -> State)
    returns (fired: seq<Call>, afterPush: seq<Entry>, afterSet: seq<Entry>)
    requires a.to.Some? && loading.to.Some?
    requires !IsIntermediateRoute(a) && IsIntermediateRoute(loading)
    requires var url := urlFor(a.to.value.name, LookupParams(a.to.value)); url != "" && url != currentURL
    ensures var url := urlFor(a.to.value.name, LookupParams(a.to.value));
      fired == [Call(handler, url)] &&
      afterPush == [Entry(EagerState(url), "", url)] &&
      afterSet == [Entry(baseState(url), "", url)]
  {
    ghost var url := urlFor(a.to.value.name, LookupParams(a.to.value));
    var analyzer := new RouterTransitionAnalyzer(urlFor);
    var history := new History();
    var location := new UpdateUrlEagerlyHistoryLocation(history, analyzer, handler, baseState);
    var ignored := analyzer.RouteWillChange(a);
    fired := analyzer.RouteWillChange(loading);
    assert IndexOf([a, loading], loading) == 1;
    assert EarlyUrl([a, loading], loading, urlFor) == Some(url);
    assert fired == Invocations([handler], url);
    location.ShouldUpdateURL(fired[0].url, currentURL);
    afterPush := history.entries;
    assert HasPendingReplaceFlag(history.state);
    location.SetURL(fired[0].url);
    afterSet := history.entries;
  }
}
