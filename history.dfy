/**
 * The History-API location that updates the URL eagerly: on the analyzer's
 * notification it pushes a flagged history entry for the destination URL,
 * and when the router later sets that URL it replaces the flagged entry
 * instead of adding a second one.
 */
module EagerHistoryLocation {
  import opened Wrappers
  import TransitionAnalyzer

  /** The values a history state object holds here. */
  datatype JsValue = JsBool(b: bool) | JsString(s: string) | JsOther

  /** A history state object: a record from keys to values. */
  type State = map<string, JsValue>

  /** One history entry as `pushState(state, title, url)` creates it. */
  datatype Entry = Entry(state: State, title: string, url: string)

  /** A call the location hands on to the base `HistoryLocation`. */
  datatype BaseCall = SetCall(path: string) | ReplaceCall(path: string)

  /** `historyStateKey`: the key of the pending-replace flag. */
  const HistoryStateKey: string := "history_location_update_url_eagerly_to_destination_route"
  const EarlyUpdatePathKey: string := "early_update_path"

  /**
   * `this.history.state && this.history.state[historyStateKey] === true`:
   * a state is present and setting the flag to `true` would not change it.
   */
  predicate HasPendingReplaceFlag(state: Option<State>): (r: bool)
    ensures r <==> state.Some? && state.value[HistoryStateKey := JsBool(true)] == state.value
  {
    if state.Some? && HistoryStateKey !in state.value then
      assert HistoryStateKey !in state.value.Keys;
      assert HistoryStateKey in state.value[HistoryStateKey := JsBool(true)].Keys;
      false
    else
      state.Some? && HistoryStateKey in state.value && state.value[HistoryStateKey] == JsBool(true)
  }

  /** Only the exact value `true` counts: no state, no key, `false` or the string "true" do not. */
  lemma PendingReplaceFlagExactlyTrue(path: string)
    ensures !HasPendingReplaceFlag(None)
    ensures !HasPendingReplaceFlag(Some(map[]))
    ensures !HasPendingReplaceFlag(Some(map[HistoryStateKey := JsBool(false)]))
    ensures !HasPendingReplaceFlag(Some(map[HistoryStateKey := JsString("true")]))
    ensures !HasPendingReplaceFlag(Some(map[EarlyUpdatePathKey := JsString(path)]))
    ensures HasPendingReplaceFlag(Some(EagerState(path)))
  {
  }

  /** The base class's state objects never carry the flag (Ember writes `{path, uuid}`). */
  ghost predicate FlagFree(baseState: string -> State)
  {
    forall p :: HistoryStateKey !in baseState(p)
  }

  /** The state object the eager push carries. */
  function EagerState(path: string): (s: State)
    ensures s.Keys == {HistoryStateKey, EarlyUpdatePathKey}
    ensures HasPendingReplaceFlag(Some(s))
    ensures s[EarlyUpdatePathKey] == JsString(path)
  {
    map[HistoryStateKey := JsBool(true), EarlyUpdatePathKey := JsString(path)]
  }

  /** The browser history: the current state and the entries, most recent first. */
  class History {
    var state: Option<State>
    var entries: seq<Entry>

    constructor ()
      ensures state == None && entries == []
    {
      state := None;
      entries := [];
    }

    /** `pushState`: the new entry goes on top. */
    method PushState(s: State, title: string, url: string)
      modifies this
      ensures state == Some(s)
      ensures entries == [Entry(s, title, url)] + old(entries)
    {
      state := Some(s);
      entries := [Entry(s, title, url)] + entries;
    }

    /** `replaceState`: the top entry is overwritten (or created, when there is none). */
    method ReplaceState(s: State, title: string, url: string)
      modifies this
      ensures state == Some(s)
      ensures entries == if old(entries) == [] then [Entry(s, title, url)]
                         else [Entry(s, title, url)] + old(entries)[1..]
    {
      state := Some(s);
      if entries == [] {
        entries := [Entry(s, title, url)];
      } else {
        entries := entries[0 := Entry(s, title, url)];
      }
    }
  }

  /**
   * `UpdateUrlEagerlyHistoryLocation`. `handler` is the identity of its
   * `shouldUpdateURL` arrow function; `baseState` is the state object the
   * base class writes for a path; `delegated` records the calls handed on
   * to the base class.
   */
  class UpdateUrlEagerlyHistoryLocation {
    const history: History
    const analyzer: TransitionAnalyzer.RouterTransitionAnalyzer
    const handler: TransitionAnalyzer.CallbackId
    const baseState: string -> State
    var delegated: seq<BaseCall>

    /** The constructor registers the handler with the analyzer, once. */
    constructor (history: History, analyzer: TransitionAnalyzer.RouterTransitionAnalyzer,
                 handler: TransitionAnalyzer.CallbackId, baseState: string -> State)
      requires analyzer.Valid()
      modifies analyzer
      ensures this.history == history && this.analyzer == analyzer
      ensures this.handler == handler && this.baseState == baseState
      ensures delegated == []
      ensures analyzer.Valid()
      ensures analyzer.callbacks == old(analyzer.callbacks) + [handler]
      ensures analyzer.queue == old(analyzer.queue)
    {
      this.history := history;
      this.analyzer := analyzer;
      this.handler := handler;
      this.baseState := baseState;
      delegated := [];
      new;
      analyzer.OnShouldUpdateURL(handler);
    }

    /** `willDestroy`: the handler is removed from the analyzer. */
    method WillDestroy()
      requires analyzer.Valid()
      modifies analyzer
      ensures analyzer.Valid()
      ensures analyzer.callbacks == TransitionAnalyzer.Without(old(analyzer.callbacks), handler)
      ensures handler !in analyzer.callbacks
      ensures analyzer.queue == old(analyzer.queue)
    {
      analyzer.OffShouldUpdateURL(handler);
    }

    /** The overridden `setURL`: replace when the current state carries the flag, else the base `setURL`. */
    method SetURL(path: string)
      modifies this, history
      ensures HasPendingReplaceFlag(old(history.state)) ==>
        delegated == old(delegated) + [ReplaceCall(path)] &&
        history.state == Some(baseState(path)) &&
        history.entries == if old(history.entries) == [] then [Entry(baseState(path), "", path)]
                           else [Entry(baseState(path), "", path)] + old(history.entries)[1..]
      ensures !HasPendingReplaceFlag(old(history.state)) ==>
        delegated == old(delegated) + [SetCall(path)] &&
        history.state == Some(baseState(path)) &&
        history.entries == [Entry(baseState(path), "", path)] + old(history.entries)
      ensures FlagFree(baseState) ==> !HasPendingReplaceFlag(history.state)
    {
      if HasPendingReplaceFlag(history.state) {
        BaseReplaceURL(path);
        return;
      }
      BaseSetURL(path);
    }

    /** The base `replaceURL`, as a recorded replace of the top entry. */
    method BaseReplaceURL(path: string)
      modifies this, history
      ensures delegated == old(delegated) + [ReplaceCall(path)]
      ensures history.state == Some(baseState(path))
      ensures history.entries == if old(history.entries) == [] then [Entry(baseState(path), "", path)]
                                 else [Entry(baseState(path), "", path)] + old(history.entries)[1..]
    {
      delegated := delegated + [ReplaceCall(path)];
      history.ReplaceState(baseState(path), "", path);
    }

    /** The base `setURL`, as a recorded push of a new entry. */
    method BaseSetURL(path: string)
      modifies this, history
      ensures delegated == old(delegated) + [SetCall(path)]
      ensures history.state == Some(baseState(path))
      ensures history.entries == [Entry(baseState(path), "", path)] + old(history.entries)
    {
      delegated := delegated + [SetCall(path)];
      history.PushState(baseState(path), "", path);
    }

    /** The `shouldUpdateURL` handler; `currentURL` is what `getURL()` reports. */
    method ShouldUpdateURL(path: string, currentURL: string)
      modifies history
      ensures currentURL == path ==> history.state == old(history.state) && history.entries == old(history.entries)
      ensures currentURL != path ==>
        history.state == Some(EagerState(path)) &&
        history.entries == [Entry(EagerState(path), "", path)] + old(history.entries)
    {
      if currentURL == path {
        return;
      }
      history.PushState(EagerState(path), "", path);
    }
  }
}
