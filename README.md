# ember-refined-route-substate-url, modelled in Dafny

The addon makes an Ember application update the browser URL early when a
route transition enters a loading or error substate. It has two parts:

- A router transition analyzer service. It keeps a queue of in-flight
  transitions and an ordered registry of "should update URL" callbacks.
  On each `routeWillChange` event it enqueues each transition that has a
  destination. If the destination is a substate and the queue entry before
  it is not, it asks the router for the URL of that predecessor and, when
  that URL is truthy, calls every callback with it. `routeDidChange`
  empties the queue.
- A History-API location. Its handler pushes a history entry flagged with
  `history_location_update_url_eagerly_to_destination_route: true`, unless
  the current URL is already the path. Its `setURL` turns into the base
  `replaceURL` when the current history state carries that flag. So the
  router's final write replaces the eager entry instead of adding a second
  one.

Files:

- `wrappers.dfy`: `Option`, which stands for JavaScript's `null`/`undefined`.
- `routes.dfy`: route descriptors and transitions. It also holds the
  parameter list the analyzer builds from a route's parent chain. That list
  is given as a specification function (`LookupParams`). The source's loops
  (parent walk, nested flatten, in-place array reverse) are methods proved
  against it.
- `analyzer.dfy`: the substate test, `indexOf`, the guard chain of
  `determineUrlForDestinationRoute` as a pure function, the callback filter,
  and the `RouterTransitionAnalyzer` class with its two fields.
- `history.dfy`: the browser history, shaped like the fake in the unit
  test (entries most-recent first; a push prepends; a replace overwrites the
  top; its `length` getter is read as `|entries|`), and the
  `UpdateUrlEagerlyHistoryLocation` class.
- `scenarios.dfy`: the navigations and history sequences from the
  repository's tests, replayed on freshly created objects.

Modelling choices:

- Transitions are compared by identity in the source. Here a transition
  carries an `id`, and equal values stand for the same object.
- A callback is its identity (`CallbackId`). Invoking it is recorded as a
  `Call(callback, url)`, and `RouteWillChange` returns the list of calls made.
- `router.urlFor` is an uninterpreted function, `urlFor`, given to the
  analyzer when it is created. `getURL()` is the `currentURL` parameter of the
  location's handler.
- The source calls the callbacks only when the URL is truthy. Here that
  means `Some(u)` with `u != ""`.
- The reversal at `addon/services/router-transition-analyzer.ts:135` is
  modelled as written. It puts the levels root first, but it also reverses
  the key order inside each level. `LookupParamsRootFirst` states the exact
  order, and `LookupParamsExamples` shows a level with two keys coming out
  last key first.
- The name test is a plain suffix test on the whole dotted name. So a route
  named `downloading` also counts as a substate (`IntermediateNameExamples`).

## Model

| member | source | states |
|---|---|---|
| `Routes.Reversed` | addon/services/router-transition-analyzer.ts:135 | the result has the input's length, and position k holds the input's element at length-1-k |
| `Routes.Values` | addon/services/router-transition-analyzer.ts:129-132 | one value per parameter, position k holding the value of the k-th key |
| `Routes.LookupParams` | addon/services/router-transition-analyzer.ts:117-137 | the argument list for a route is its chain read root first, each level's values in reversed key order, one value per parameter of the chain |
| `Routes.LookupParamsRootFirst` | addon/services/router-transition-analyzer.ts:117-137 | the reversed leaf-to-root flattening equals the levels read root first, each level's values in reversed key order |
| `Routes.LookupParamsLength` | addon/services/router-transition-analyzer.ts:121-133 | the flat list holds exactly one value per parameter of the whole chain; skipping empty levels loses nothing |
| `Routes.AllStaticNoParams` | addon/services/router-transition-analyzer.ts:121-127 | a chain in which no level has a dynamic segment yields the empty parameter list |
| `Routes.LookupParamsExamples` | tests/acceptance/router-transition-analyzer-test.ts:130-157 | `params.child` under `params` with `param: my-param` gives `["my-param"]`; a two-key parent level comes out last key first |
| `Routes.FindAllRouteParamsForUrlLookup` | addon/services/router-transition-analyzer.ts:117-137 | the returned list equals the reversed flattening of the non-empty levels, equals the root-first reading, and has one value per parameter |
| `Routes.CollectParamLevels` | addon/services/router-transition-analyzer.ts:118-127 | the parent walk collects exactly the non-empty parameter maps of the chain, leaf to root |
| `Routes.FlattenParamLevels` | addon/services/router-transition-analyzer.ts:128-133 | the nested loop yields every value of every collected map, map by map, each map in key order |
| `Routes.ReverseInPlace` | addon/services/router-transition-analyzer.ts:135 | the array afterwards holds the reversal of its old contents |
| `TransitionAnalyzer.EndsWithExactly` | addon/services/router-transition-analyzer.ts:141-144 | `endsWith(s, suffix)` holds exactly when s is some string followed by suffix |
| `TransitionAnalyzer.IsIntermediateName` | addon/services/router-transition-analyzer.ts:141-144 | a name is a substate name exactly when it is some string followed by `loading` or by `error` |
| `TransitionAnalyzer.IsIntermediateRoute` | addon/services/router-transition-analyzer.ts:139-145 | a transition is intermediate exactly when its destination name is some string followed by `loading` or by `error` |
| `TransitionAnalyzer.IntermediateNameExamples` | addon/services/router-transition-analyzer.ts:8-11 | the suffix test is case-sensitive and on the full name: `my.route.Loading` and `my.loading.index` are not substates, `downloading` is |
| `TransitionAnalyzer.IndexOf` | addon/services/router-transition-analyzer.ts:88-89 | -1 exactly when absent; otherwise a position holding the element with no earlier occurrence |
| `TransitionAnalyzer.IndexOfIsFirstAt` | addon/services/router-transition-analyzer.ts:88-89 | when the transition is queued, `indexOf` returns its first position, and that position is the only first position |
| `TransitionAnalyzer.EarlyUrl` | addon/services/router-transition-analyzer.ts:79-112 | a URL is produced iff the destination is intermediate, it first occurs at a position above 0, and the entry before it is not intermediate; the URL is then `urlFor(predecessor name, its parameter list)` |
| `TransitionAnalyzer.NoPredecessorNoUrl` | addon/services/router-transition-analyzer.ts:86-97 | a transition missing from the queue, or at its head, yields no URL |
| `TransitionAnalyzer.NonIntermediateNeverNotifies` | tests/acceptance/router-transition-analyzer-test.ts:15-41 | a destination that is not a substate fires no callback, whatever the queue holds |
| `TransitionAnalyzer.LoadingThenErrorNotifiesOnce` | addon/services/router-transition-analyzer.ts:99-104 | for A, A.loading, A.error from an empty queue, the three events together fire the callbacks once, with A's URL |
| `TransitionAnalyzer.Notify` | addon/services/router-transition-analyzer.ts:62-67 | each registered callback is called once, in registration order, duplicates included, with the same URL |
| `TransitionAnalyzer.UnregisteredNeverNotified` | addon/services/router-transition-analyzer.ts:61-67 | a callback that is not in the registry gets no call |
| `TransitionAnalyzer.Without` | addon/services/router-transition-analyzer.ts:34-40 | the filtered registry holds every other callback as often as before and the removed one not at all; removing one that is absent changes nothing |
| `TransitionAnalyzer.WithoutAppend` | addon/services/router-transition-analyzer.ts:35-39 | the filter distributes over concatenation, so the remaining callbacks keep their order |
| `TransitionAnalyzer.RouterTransitionAnalyzer.constructor` | addon/services/router-transition-analyzer.ts:21-28 | the service starts with an empty registry and an empty queue |
| `TransitionAnalyzer.RouterTransitionAnalyzer.OnShouldUpdateURL` | addon/services/router-transition-analyzer.ts:30-32 | the callback is appended to the registry and the queue is unchanged |
| `TransitionAnalyzer.RouterTransitionAnalyzer.OffShouldUpdateURL` | addon/services/router-transition-analyzer.ts:34-40 | the registry becomes the filtered registry, without the callback; the queue is unchanged |
| `TransitionAnalyzer.RouterTransitionAnalyzer.WillDestroy` | addon/services/router-transition-analyzer.ts:50-51 | both the registry and the queue are emptied |
| `TransitionAnalyzer.RouterTransitionAnalyzer.RouteWillChange` | addon/services/router-transition-analyzer.ts:54-68 | without a destination (`hasRouteInfoForAnalysis`, the definition of `!!transition.to`, is false), nothing changes and nothing fires; otherwise the transition is appended to the queue and the calls made are the notifications for the new queue; the registry is unchanged and only registered callbacks are called |
| `TransitionAnalyzer.RouterTransitionAnalyzer.RouteDidChange` | addon/services/router-transition-analyzer.ts:70-77 | the queue is emptied whatever the transition holds; the registry is unchanged |
| `TransitionAnalyzer.RouterTransitionAnalyzer.DetermineUrlForDestinationRoute` | addon/services/router-transition-analyzer.ts:79-112 | the guard chain run on the current queue, with the parameter list from the loops, returns the URL that `EarlyUrl` specifies |
| `EagerHistoryLocation.EagerState` | addon/locations/history.ts:50-54 | the pushed state has exactly the flag key and `early_update_path`; the flag is `true` and the path is recorded |
| `EagerHistoryLocation.HasPendingReplaceFlag` | addon/locations/history.ts:31-34 | the flag test holds exactly when a state is present and it already maps the flag key to `true` |
| `EagerHistoryLocation.PendingReplaceFlagExactlyTrue` | addon/locations/history.ts:33 | no state, a missing key, `false` or the string "true" fail the test; the eager state passes it |
| `EagerHistoryLocation.History.constructor` | tests/unit/locations/history-test.ts:104-105 | the fake history starts with a null state and no entries |
| `EagerHistoryLocation.History.PushState` | tests/unit/locations/history-test.ts:110-113 | the state becomes the pushed one and the entry goes on top |
| `EagerHistoryLocation.History.ReplaceState` | tests/unit/locations/history-test.ts:106-109 | the state becomes the given one and the top entry is overwritten (created when there is none) |
| `EagerHistoryLocation.UpdateUrlEagerlyHistoryLocation.constructor` | addon/locations/history.ts:25-28 | the handler is appended to the analyzer's registry once; the analyzer's queue is unchanged |
| `EagerHistoryLocation.UpdateUrlEagerlyHistoryLocation.WillDestroy` | addon/locations/history.ts:41-44 | the analyzer's registry loses every entry of the handler |
| `EagerHistoryLocation.UpdateUrlEagerlyHistoryLocation.SetURL` | addon/locations/history.ts:30-39 | when the current state is present and its flag is exactly `true`, the base `replaceURL` runs (top entry overwritten); otherwise the base `setURL` runs; with flag-free base states the flag is used up afterwards |
| `EagerHistoryLocation.UpdateUrlEagerlyHistoryLocation.BaseReplaceURL` | addon/locations/history.ts:35 | `super.replaceURL(path)` is recorded and overwrites the top entry with the base state for the path |
| `EagerHistoryLocation.UpdateUrlEagerlyHistoryLocation.BaseSetURL` | addon/locations/history.ts:38 | `super.setURL(path)` is recorded and pushes one entry with the base state for the path |
| `EagerHistoryLocation.UpdateUrlEagerlyHistoryLocation.ShouldUpdateURL` | addon/locations/history.ts:46-55 | when `getURL()` equals the path, the history is untouched; otherwise exactly one entry with the flagged state, title "" and the path as URL is pushed |
| `Scenarios.LoadingThenError` | tests/acceptance/router-transition-analyzer-test.ts:101-128 | on a live analyzer, the A event and the A.error event fire nothing, and the A.loading event fires every callback once with A's URL |
| `Scenarios.SubstateAfterSettling` | addon/services/router-transition-analyzer.ts:70-71 | after `routeDidChange`, a substate transition alone in the queue fires nothing |
| `Scenarios.UnsubscribedHandlerNotCalled` | tests/acceptance/router-transition-analyzer-test.ts:161-196 | a handler registered then removed is never called; the other callbacks still are |
| `Scenarios.EagerPushThenSetURL` | tests/unit/locations/history-test.ts:10-63 | the eager push leaves one entry with the flagged state; the router's `setURL` then replaces it, so the length stays one |
| `Scenarios.FlagConsumedBySetURL` | addon/locations/history.ts:30-38 | after the eager push, the first `setURL` of the path replaces, and a second `setURL` of another path is a base set, so the lengths are one and then two |
| `Scenarios.SamePathPushesNothing` | tests/unit/locations/history-test.ts:65-100 | when `getURL()` already reports the path, the state stays null and nothing is pushed |
| `Scenarios.EagerUpdateAcrossSubstate` | addon/locations/history.ts:30-55 | A then A.loading through the analyzer notifies the location once with A's URL; the history then holds one flagged entry for it, and after `setURL` one base entry for it |

## Left out

- `addon/locations/hash.ts`: it only forwards the path to the base `HashLocation.setURL`, so the model has nothing to say about it.
- Ember wiring is not modelled: service injection, subscribing and unsubscribing the handlers with `router.on`/`router.off`, and `debug` logging.
- `router.urlFor` is uninterpreted. The URL-building algorithm is not part of this repository.
- `getURL()` is abstract: the location's handler takes its current value as a parameter.
- `UpdateUrlEagerlyHistoryLocation.SetURL`: the base `setURL` and `replaceURL` are abstract operations. Each is recorded in `delegated` and acts as a push (respectively a replace) of an abstract state `baseState(path)`. Ember's own check that skips the write when the state's path already matches, and its `formatURL`, are not modelled.
- `UpdateUrlEagerlyHistoryLocation.SetURL`: that the flag is used up by the replace is stated only for base states that carry no flag (`FlagFree`). The base state is abstract here; Ember's `{path, uuid}` has no flag key.
- `History.PushState`: it follows the unit test's fake history, so a push prepends and does not drop forward entries of the browser's stack.
- `TransitionAnalyzer.RouterTransitionAnalyzer.DetermineUrlForDestinationRoute`: the `!routeBeforeIntermediateRoute` guard at `addon/services/router-transition-analyzer.ts:95-97` has no counterpart. After the index check the predecessor always exists in the model.
- Parameter values are `string`; the `undefined` a route's parameter map may hold in TypeScript's type is not modelled.
- `Object.keys` order is the order of the parameter sequence. JavaScript's rule that integer-like keys come first is not modelled.
- Exceptions thrown by callbacks are not modelled. Nor are callbacks that register or unregister while the analyzer is notifying.
- The asynchronous model loading and timers of the acceptance tests are not modelled; their event order is taken as given.
