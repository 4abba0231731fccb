# future-blink client state machine, in Dafny

future-blink is a small React/Redux front end. A user types a prompt into an
input node of a two-node flow chart and runs the flow. The reply from an AI
service appears in the output node. The prompt/response pair can be saved to a
database and later searched, sorted, loaded back or deleted from a side column.

This project models the client-side state machine behind that screen.

- **`FlowSlice`** (`flow_slice.dfy`) holds the `flow` slice of the Redux store:
  - the two fixed nodes and the edge list;
  - the input and output texts, mirrored into node data;
  - the saved/dirty tracker (`isSaved`, `lastSavedText`);
  - the saved-query list and the history list;
  - the lifecycle flags of the four asynchronous operations.

  Every reducer case is a pure function of the old state, and `Reduce` puts them together over the action datatype. The class `Store` updates its fields in place, as the Immer-backed reducers do. Each of its methods is proved to produce exactly the new state the pure function describes.
- **`FlowProperties`** (`flow_properties.dfy`) proves the slice's invariants and laws:
  - the node/text mirror and the saved tracker;
  - the lifecycle flags;
  - `resetFlow`;
  - the history cap;
  - optimistic removal.
- **`ApiSlice`** (`api_slice.dfy`) is the `api` slice: a map from request key to `{type, loading, error}`, with its reducer and lookups, and the class `RequestTable` that changes the map in place.
- **`AppStore`** (`app_store.dfy`) is the root state: the two slices side by side. It proves that a mixed run of actions leaves each slice where its own actions alone would.
- **`Thunks`** (`thunks.dfy`) models the `askAI` and `saveData` thunks as the action sequences they dispatch. It covers:
  - the generated request key;
  - the pairing of one `startRequest` with one `completeRequest` of the same key;
  - the settled state.
- **`FlowChart`** (`flow_chart.dfy`) models the deterministic glue of the chart component:
  - the projection of store nodes into rendered nodes and the edge pass-through;
  - the Run and Save button conditions;
  - the input-change, run, save, connect and node-drag handlers. Each handler is a function giving its action sequence plus a method that dispatches it into `Store`/`RequestTable`.
- **`SavedQueriesColumn`** (`saved_queries.dfy`) models the saved-queries column:
  - the case-insensitive search;
  - the timestamp ordering;
  - the time-ago labels;
  - the per-row delete spinner;
  - the delete and load handlers.
- **`Util`** (`util.dfy`) holds the JavaScript string operations the code relies on: `trim`, ASCII `toLowerCase`, `includes`, decimal rendering of numbers, and `filter`.

The store selectors (`selectNodes` … `selectEditDialogOpen`, `selectApiLoading`, `selectApiError`) are plain field reads. They are the fields of `FlowState` and `ApiState`. `selectRequestLoading` and `selectRequestError` are `ApiSlice.RequestLoading` and `ApiSlice.RequestError`.

Behaviour reproduced as the code has it, with the lemmas that pin it down:

- **The per-kind loading lookup is always false.** The component looks a request up under the kind name (`'askAI'`, `'saveData'`). The thunks store records under generated keys `<kind>_<time>_<random>`, so that lookup never finds one. `ApiSlice.KindLookupAlwaysFalse` proves this. `FlowChart.RunningIsFlowFlag`, `FlowChart.RunEnabledIff` and `FlowChart.SaveEnabledIff` then prove that the spinner and the buttons depend on the flow slice's own flags alone.
- **`setError` is called but never imported.** So the empty-input guards in `handleRunFlow` and `handleSave` dispatch `clearError` and then throw.
  - The model dispatches `clearError` and returns `threw = true`.
  - `FlowChart.RunFlowGuard` and `FlowChart.SaveGuard` state the resulting state.
- **The two thunks `fetchSavedQueries` and `deleteSavedQuery` are not defined.** They are imported but absent from the thunk file. Their reducer cases are modelled as actions carrying the payloads the reducers read. The payload of `deleteSavedQuery.fulfilled` is the deleted id.
- **`askAI.fulfilled` prepends to the history without the 10-entry cap that `addToHistory` applies.**
  - `FlowProperties.HistoryBound` proves the cap for every other action.
  - `FlowProperties.AskAIOverflowsHistory` exhibits the eleventh entry.
  - `FlowProperties.AddToHistoryDoesNotRecover` shows that `addToHistory` then only keeps the length.
- **`handleNodesChange` dispatches one `setNodes` per qualifying change.** Each one is built from the nodes seen when the handler was created, so only the last qualifying change survives (`FlowChart.LastLiftedWins`).

Times, random suffixes, service outcomes and the `window.confirm` answer are parameters of the model.

## Model

| member | source | states |
|---|---|---|
| Util.TrimStart | frontend/src/components/FlowChart.jsx:85 | the result is a suffix of the input, every dropped character is whitespace, and the result does not start with whitespace |
| Util.TrimEnd | frontend/src/components/FlowChart.jsx:113 | the result is a prefix of the input, every dropped character is whitespace, and the result does not end with whitespace |
| Util.BlankIffAllWhitespace | frontend/src/components/FlowChart.jsx:85 | `!s.trim()` holds exactly when every character of the string is whitespace |
| Util.Lower | frontend/src/components/SavedQueriesColumn.jsx:146 | lower-casing keeps the length and maps each character on its own |
| Util.LowerIdempotent | frontend/src/components/SavedQueriesColumn.jsx:146 | lower-casing twice is lower-casing once |
| Util.Contains | frontend/src/components/SavedQueriesColumn.jsx:146 | `includes` is true exactly when the term occurs at some position |
| Util.Decimal | frontend/src/features/flow/flowThunks.js:6 | a number renders as a non-empty string of digits without a leading zero; it starts with `0` exactly when it is zero |
| Util.DecimalRoundTrip | frontend/src/features/flow/flowThunks.js:6 | parsing the rendered number gives the number back |
| Util.DecimalInjective | frontend/src/components/FlowChart.jsx:141 | different numbers render differently |
| Util.Filter | frontend/src/features/flow/flowSlice.js:153-157 | `filter` keeps exactly the elements satisfying the test, each as many times as it occurs, in their original order, and adds nothing |
| Util.FilterKeepsAll | frontend/src/features/flow/flowSlice.js:153-157 | filtering with a test every element passes returns the sequence unchanged |
| Util.FilterSameKeep | frontend/src/components/SavedQueriesColumn.jsx:144-147 | filtering depends only on which elements the test accepts |
| ApiSlice.OnStartRequest | frontend/src/features/api/apiSlice.js:23-30 | the key maps to `{type, loading: true, error: null}`, overwriting any earlier record; every other key and the other fields are unchanged |
| ApiSlice.OnCompleteRequest | frontend/src/features/api/apiSlice.js:31-41 | a missing key is a no-op; a truthy error keeps the record with `loading: false` and that error; no error deletes the record; no other key is touched |
| ApiSlice.Reduce | frontend/src/features/api/apiSlice.js:10-42 | `setError`/`clearError`/`setLoading` change only their own field (`clearError` sets null); request actions change only the request map |
| ApiSlice.ReduceAllAppend | frontend/src/features/api/apiSlice.js:10-42 | running two action sequences one after the other equals running their concatenation |
| ApiSlice.ReduceAllTwo | frontend/src/features/api/apiSlice.js:10-42 | a two-action run is the two reducer steps in order |
| ApiSlice.RequestLoading | frontend/src/features/api/apiSlice.js:50-51 | the record's `loading`, or false when there is no record; its meaning is stated by `StartThenLoading`, `StartThenSucceed` and `KindLookupMissesGeneratedKeys` |
| ApiSlice.RequestError | frontend/src/features/api/apiSlice.js:52-53 | `requests[id]?.error`; its meaning is stated by `StartThenLoading` and `StartThenFail` |
| ApiSlice.StartThenLoading | frontend/src/features/api/apiSlice.js:23-53 | right after `startRequest(id)` the lookup by `id` is loading with no error |
| ApiSlice.StartThenSucceed | frontend/src/features/api/apiSlice.js:31-51 | start then successful completion of the same key is not loading, and on a fresh key leaves the state as it was |
| ApiSlice.StartThenFail | frontend/src/features/api/apiSlice.js:34-53 | start then failed completion leaves a settled record holding the error |
| ApiSlice.CompletionsCommute | frontend/src/features/api/apiSlice.js:31-41 | completions of different keys commute |
| ApiSlice.GeneratedKeysPreserved | frontend/src/features/api/apiSlice.js:23-41 | if every key contains `_` and every request action uses such a key, every key still contains `_` afterwards |
| ApiSlice.KindLookupMissesGeneratedKeys | frontend/src/features/api/apiSlice.js:50-51 | a lookup by a name without `_` is never loading when all keys contain `_` |
| ApiSlice.KindLookupAlwaysFalse | frontend/src/components/FlowChart.jsx:68-69 | after any run of actions with generated keys from the initial state, the lookups by `'askAI'` and `'saveData'` are false |
| ApiSlice.RequestTable.constructor | frontend/src/features/api/apiSlice.js:3-8 | the table starts in the initial api state |
| ApiSlice.RequestTable.SetLoading | frontend/src/features/api/apiSlice.js:14-16 | the new state is the reducer's result for `setLoading` |
| ApiSlice.RequestTable.SetError | frontend/src/features/api/apiSlice.js:17-19 | the new state is the reducer's result for `setError` |
| ApiSlice.RequestTable.ClearError | frontend/src/features/api/apiSlice.js:20-22 | the new state is the reducer's result for `clearError` |
| ApiSlice.RequestTable.StartRequest | frontend/src/features/api/apiSlice.js:23-30 | the in-place insert yields the reducer's result for `startRequest` |
| ApiSlice.RequestTable.CompleteRequest | frontend/src/features/api/apiSlice.js:31-41 | the in-place update or delete yields the reducer's result for `completeRequest` |
| ApiSlice.RequestTable.Dispatch | frontend/src/features/api/apiSlice.js:10-42 | dispatching any action yields the reducer's result |
| FlowSlice.IndexOf | frontend/src/features/flow/flowSlice.js:68 | `findIndex` gives -1 exactly when no node has the id, and otherwise the first node with it |
| FlowSlice.WithData | frontend/src/features/flow/flowSlice.js:71-74 | replacing one node's data keeps every id, type and position and every other node |
| FlowSlice.WriteNodeValue | frontend/src/features/flow/flowSlice.js:99-103 | writing a node's `value` sets it on the first node with the id, keeping that node's other data keys and layout and every other node; without such a node nothing changes |
| FlowSlice.WithoutIdSpec | frontend/src/features/flow/flowSlice.js:153-157 | removal by id keeps exactly the records with another id, each as often as before, in order, and is a no-op when the id is absent |
| FlowSlice.OnUpdateNodeData | frontend/src/features/flow/flowSlice.js:66-90 | an unknown id changes nothing; otherwise the node's data becomes the old data merged with the patch; a `value` for node 1 or 2 also sets the input or output text; a new input text clears `isSaved` unless it equals `lastSavedText` |
| FlowSlice.UpdateNodeValue | frontend/src/features/flow/flowSlice.js:66-90 | a `value` patch for an existing node makes that node's value the patch value and leaves every other id's value, and sets the output text exactly when the node is `'2'` |
| FlowSlice.OnSetInputText | frontend/src/features/flow/flowSlice.js:91-104 | `inputText` and node 1's value become `x`, node 1's other data keys and every other node unchanged; `isSaved` is cleared iff `x != lastSavedText` and never set; the mirror is kept |
| FlowSlice.OnSetOutputText | frontend/src/features/flow/flowSlice.js:105-112 | `outputText` and node 2's value become `x`, node 2's other data keys and every other node unchanged; the saved tracker is untouched; the mirror is kept |
| FlowSlice.OnSetSavedStatus | frontend/src/features/flow/flowSlice.js:113-118 | sets `isSaved`; marking saved records the current input as `lastSavedText`; the tracker invariant holds afterwards |
| FlowSlice.HistoryRecord | frontend/src/features/flow/flowSlice.js:120-124 | the entry holds every payload key with its value, plus `id` (the time in decimal) and `timestamp` unless the payload supplies them, and nothing else |
| FlowSlice.OnAddToHistory | frontend/src/features/flow/flowSlice.js:119-129 | the new entry is first and the rest is a prefix of the old history; a history of at most 10 stays at most 10; a full one keeps its length |
| FlowSlice.OnResetFlow | frontend/src/features/flow/flowSlice.js:130-139 | nodes, edges, texts, flags and `lastSavedText` return to their initial values; saved queries, current id, history and the list flags are kept |
| FlowSlice.OnAskAIFulfilled | frontend/src/features/flow/flowSlice.js:165-186 | output text and node 2's value become the response (node 2's other data keys and every other node unchanged), `isSaved` and `isFlowRunning` are cleared, exactly one history entry with prompt and response is prepended, and the mirror is kept |
| FlowSlice.OnSaveDataFulfilled | frontend/src/features/flow/flowSlice.js:195-214 | marks saved with `lastSavedText := inputText` and `currentQueryId := id`; prepends one record only for a truthy id not yet listed, and otherwise leaves the list; a truthy id is listed afterwards |
| FlowSlice.NewSavedQuery | frontend/src/features/flow/flowSlice.js:206-211 | the record for a new id: the current prompt and response at the completion time; `OnSaveDataFulfilled` and `FlowProperties.StaleSaveMarksEditSaved` state when and with which texts it is added |
| FlowSlice.OnDeleteFulfilled | frontend/src/features/flow/flowSlice.js:238-251 | removes every record with the id and clears `deleteLoading`; clears `isSaved`, `currentQueryId` and `lastSavedText` only when the id is the current query |
| FlowSlice.Reduce | frontend/src/features/flow/flowSlice.js:53-256 | one case per action, each the matching `On…` function or single-field update (bridging lemmas `ReduceSetInputText` … `ReduceDeleteFulfilled`); its cross-case meaning is `FlowProperties.MirrorPreserved`, `SavedTrackerPreserved`, `LifecycleFlags` and `HistoryBoundStep` |
| FlowSlice.ReduceAll | frontend/src/features/flow/flowSlice.js:53-256 | the store applying actions in dispatch order; stated by `ReduceAllAppend` and the run-level properties in `FlowProperties` |
| FlowSlice.ReduceAllAppend | frontend/src/features/flow/flowSlice.js:53-256 | running two action sequences one after the other equals running their concatenation |
| FlowSlice.Store.constructor | frontend/src/features/flow/flowSlice.js:9-51 | the store starts in the initial state |
| FlowSlice.Store.SetEditDialogOpen | frontend/src/features/flow/flowSlice.js:57-59 | only `editDialogOpen` changes |
| FlowSlice.Store.SetNodes | frontend/src/features/flow/flowSlice.js:60-62 | only the nodes change, to the given list |
| FlowSlice.Store.SetEdges | frontend/src/features/flow/flowSlice.js:63-65 | only the edges change, to the given list |
| FlowSlice.Store.UpdateNodeData | frontend/src/features/flow/flowSlice.js:66-90 | the in-place update yields `OnUpdateNodeData` of the old state |
| FlowSlice.Store.SetInputText | frontend/src/features/flow/flowSlice.js:91-104 | the in-place update yields `OnSetInputText` of the old state |
| FlowSlice.Store.SetOutputText | frontend/src/features/flow/flowSlice.js:105-112 | the in-place update yields `OnSetOutputText` of the old state |
| FlowSlice.Store.SetSavedStatus | frontend/src/features/flow/flowSlice.js:113-118 | the in-place update yields `OnSetSavedStatus` of the old state |
| FlowSlice.Store.AddToHistory | frontend/src/features/flow/flowSlice.js:119-129 | `unshift` then conditional `pop` yields `OnAddToHistory` of the old state |
| FlowSlice.Store.ResetFlow | frontend/src/features/flow/flowSlice.js:130-139 | the in-place update yields `OnResetFlow` of the old state |
| FlowSlice.Store.ClearHistory | frontend/src/features/flow/flowSlice.js:140-142 | only the history changes, to empty |
| FlowSlice.Store.SetSavedQueries | frontend/src/features/flow/flowSlice.js:143-145 | only the saved-query list changes |
| FlowSlice.Store.SetSavedQueriesLoading | frontend/src/features/flow/flowSlice.js:146-148 | only `savedQueriesLoading` changes |
| FlowSlice.Store.SetSavedQueriesError | frontend/src/features/flow/flowSlice.js:149-151 | only `savedQueriesError` changes |
| FlowSlice.Store.RemoveSavedQueryLocal | frontend/src/features/flow/flowSlice.js:153-157 | only the saved-query list changes, to the records with another id |
| FlowSlice.Store.AskAIPending | frontend/src/features/flow/flowSlice.js:162-164 | only `isFlowRunning` changes, to true |
| FlowSlice.Store.AskAIFulfilled | frontend/src/features/flow/flowSlice.js:165-186 | the in-place update yields `OnAskAIFulfilled` of the old state |
| FlowSlice.Store.AskAIRejected | frontend/src/features/flow/flowSlice.js:187-189 | only `isFlowRunning` changes, to false |
| FlowSlice.Store.SaveDataPending | frontend/src/features/flow/flowSlice.js:192-194 | only `isSaving` changes, to true |
| FlowSlice.Store.SaveDataFulfilled | frontend/src/features/flow/flowSlice.js:195-214 | the in-place update yields `OnSaveDataFulfilled` of the old state |
| FlowSlice.Store.SaveDataRejected | frontend/src/features/flow/flowSlice.js:215-218 | only `isSaving` and `isSaved` change, both to false |
| FlowSlice.Store.FetchSavedQueriesPending | frontend/src/features/flow/flowSlice.js:221-224 | only `savedQueriesLoading` (true) and `savedQueriesError` (null) change |
| FlowSlice.Store.FetchSavedQueriesFulfilled | frontend/src/features/flow/flowSlice.js:225-228 | the list is replaced by the payload and loading ends; nothing else changes |
| FlowSlice.Store.FetchSavedQueriesRejected | frontend/src/features/flow/flowSlice.js:229-232 | loading ends and the error is the payload; nothing else changes |
| FlowSlice.Store.DeleteSavedQueryPending | frontend/src/features/flow/flowSlice.js:235-237 | only `deleteLoading` changes, to true |
| FlowSlice.Store.DeleteSavedQueryFulfilled | frontend/src/features/flow/flowSlice.js:238-251 | the in-place update yields `OnDeleteFulfilled` of the old state |
| FlowSlice.Store.DeleteSavedQueryRejected | frontend/src/features/flow/flowSlice.js:252-255 | `deleteLoading` ends and the error is the payload; nothing else changes |
| FlowProperties.InitialMirrored | frontend/src/features/flow/flowSlice.js:9-38 | the initial state satisfies the mirror invariant |
| FlowProperties.UpdateNodeDataKeepsMirror | frontend/src/features/flow/flowSlice.js:66-90 | `updateNodeData` keeps the mirror invariant |
| FlowProperties.MirrorPreserved | frontend/src/features/flow/flowSlice.js:57-255 | every action except `setNodes` keeps the mirror invariant |
| FlowProperties.SetNodesBreaksMirror | frontend/src/features/flow/flowSlice.js:60-62 | `setNodes` can break the mirror invariant |
| FlowProperties.MirrorPreservedAll | frontend/src/features/flow/flowSlice.js:57-255 | any run without `setNodes` keeps the mirror invariant |
| FlowProperties.MirrorFromInitial | frontend/src/features/flow/flowSlice.js:9-255 | the mirror holds after any run from the initial state without `setNodes` |
| FlowProperties.SavedTrackerPreserved | frontend/src/features/flow/flowSlice.js:57-255 | every action keeps "saved implies the input equals `lastSavedText`" |
| FlowProperties.SavedTrackerPreservedAll | frontend/src/features/flow/flowSlice.js:57-255 | every run keeps the saved-tracker invariant |
| FlowProperties.SavedTrackerFromInitial | frontend/src/features/flow/flowSlice.js:9-255 | the saved-tracker invariant holds after any run from the initial state |
| FlowProperties.StaleSaveMarksEditSaved | frontend/src/features/flow/flowSlice.js:192-214 | an edit between save pending and fulfilled is what gets marked saved and recorded |
| FlowProperties.SaveFulfilledNoDuplicate | frontend/src/features/flow/flowSlice.js:198-207 | a second fulfilled save with the same truthy id does not add a record |
| FlowProperties.LifecycleFlags | frontend/src/features/flow/flowSlice.js:162-255 | each pending case sets its flag (fetch also clears the error) and nothing else; the matching fulfilled and rejected cases clear it |
| FlowProperties.FetchReplacesWholesale | frontend/src/features/flow/flowSlice.js:225-228 | a fulfilled fetch makes the list the payload, whatever it was before |
| FlowProperties.LastResponseWins | frontend/src/features/flow/flowSlice.js:165-186 | of two fulfilled askAI actions the later response is shown, and both are recorded in history |
| FlowProperties.ResetRestoresInitial | frontend/src/features/flow/flowSlice.js:130-139 | reset restores nodes, edges, texts, flags and `lastSavedText` to the initial values and keeps saved queries, current id and history |
| FlowProperties.ResetIdempotent | frontend/src/features/flow/flowSlice.js:130-139 | resetting twice equals resetting once |
| FlowProperties.ResetOfInitial | frontend/src/features/flow/flowSlice.js:130-139 | reset of the initial state is the initial state |
| FlowProperties.HistoryBoundStep | frontend/src/features/flow/flowSlice.js:119-129 | every action except `askAI.fulfilled` keeps a history of at most 10 entries at most 10 |
| FlowProperties.HistoryBound | frontend/src/features/flow/flowSlice.js:119-129 | any run without `askAI.fulfilled` keeps the history at most 10 entries |
| FlowProperties.AskAIOverflowsHistory | frontend/src/features/flow/flowSlice.js:179-185 | `askAI.fulfilled` on a full history makes it 11 entries long |
| FlowProperties.AddToHistoryDoesNotRecover | frontend/src/features/flow/flowSlice.js:125-128 | on an over-long history `addToHistory` keeps the length, so it never shrinks back to 10 |
| FlowProperties.WithoutIdIdempotent | frontend/src/features/flow/flowSlice.js:153-157 | removing an id twice equals removing it once |
| FlowProperties.RemoveThenConfirm | frontend/src/features/flow/flowSlice.js:238-243 | after the optimistic removal, the confirmed delete leaves the list as the removal left it |
| AppStore.Step | frontend/src/app/rootReducer.js:5-8 | the combined reducer hands each action to its own slice; stated by `RunSplits` |
| AppStore.Run | frontend/src/app/rootReducer.js:5-8 | dispatching a sequence of actions; stated by `RunSplits` and `RunAppend` |
| AppStore.FlowPart | frontend/src/app/rootReducer.js:5-8 | the flow actions of a run hold exactly the flow actions dispatched in it, and are no more than the run |
| AppStore.ApiPart | frontend/src/app/rootReducer.js:5-8 | the api actions of a run hold exactly the api actions dispatched in it, and are no more than the run |
| AppStore.FlowPartAppend | frontend/src/app/rootReducer.js:5-8 | the flow actions of two runs in turn are the first run's followed by the second's |
| AppStore.ApiPartAppend | frontend/src/app/rootReducer.js:5-8 | the api actions of two runs in turn are the first run's followed by the second's |
| AppStore.RunSplits | frontend/src/app/rootReducer.js:5-8 | a mixed run leaves each slice where its own actions alone would |
| AppStore.RunAppend | frontend/src/app/rootReducer.js:5-8 | running two dispatch sequences in turn equals running their concatenation |
| Thunks.RequestId | frontend/src/features/flow/flowThunks.js:6 | a generated key starts with the kind and `_` and so contains `_` |
| Thunks.SplitAtUnderscore | frontend/src/features/flow/flowThunks.js:6 | a string joined at `_` to a part without `_` splits back uniquely |
| Thunks.RequestIdInjective | frontend/src/features/flow/flowThunks.js:6 | for kinds without `_`, equal keys mean equal kind, time and suffix |
| Thunks.AskAIActions | frontend/src/features/flow/flowThunks.js:8-30 | the askAI dispatch sequence; stated by `AskAIActionsInOrder` and `AskAIPairsRequest` |
| Thunks.SaveDataActions | frontend/src/features/flow/flowThunks.js:32-53 | the saveData dispatch sequence; stated by `SaveDataActionsInOrder` and `SaveDataPairsRequest` |
| Thunks.ThunkTraceParts | frontend/src/features/flow/flowThunks.js:8-53 | a thunk's dispatches split into pending and settle on the flow slice and start and complete on the api slice |
| Thunks.StartComplete | frontend/src/features/flow/flowThunks.js:14-27 | start and complete on a fresh key leave the table as before on success, or with a settled record holding the error, and never loading |
| Thunks.AskAIPairsRequest | frontend/src/features/flow/flowThunks.js:8-30 | askAI dispatches one start and one complete of the same key; afterwards that key is not loading, the flow is not running, and the flow state is the fulfilled or rejected case |
| Thunks.SaveDataPairsRequest | frontend/src/features/flow/flowThunks.js:32-53 | saveData dispatches one start and one complete of the same key; afterwards the key is not loading, saving has ended, and `isSaved` holds exactly on success |
| Thunks.ThunksKeepGeneratedKeys | frontend/src/features/flow/flowThunks.js:6-53 | every request action a thunk dispatches uses a key containing `_` |
| FlowChart.ProjectNode | frontend/src/components/FlowChart.jsx:151-175 | one node's projection; stated by `ProjectNodeRoles` |
| FlowChart.ProjectNodes | frontend/src/components/FlowChart.jsx:151-175 | the projection maps each node on its own and keeps the length and order |
| FlowChart.IsRunning | frontend/src/components/FlowChart.jsx:160 | whether the flow is running or the `askAI` lookup is loading; stated by `RunningIsFlowFlag` |
| FlowChart.Render | frontend/src/components/FlowChart.jsx:150-183 | the nodes and edges handed to React Flow; stated by `RenderKeepsLayout` |
| FlowChart.RenderKeepsLayout | frontend/src/components/FlowChart.jsx:150-183 | the rendered nodes keep the ids and positions, and the edges pass through unchanged |
| FlowChart.ProjectNodeRoles | frontend/src/components/FlowChart.jsx:152-174 | node 1 becomes an input node with `onChange`; node 2 an output node without one; both carry `isRunning`; others keep their type and data; other data keys are carried over |
| FlowChart.RunningIsFlowFlag | frontend/src/components/FlowChart.jsx:160 | with generated keys, `isFlowRunning || isAILoading` equals `isFlowRunning` |
| FlowChart.RunDisabled | frontend/src/components/FlowChart.jsx:255 | the Run button's `disabled`; stated by `RunEnabledIff` |
| FlowChart.SaveDisabled | frontend/src/components/FlowChart.jsx:283-289 | the Save button's `disabled`; stated by `SaveEnabledIff` |
| FlowChart.RunEnabledIff | frontend/src/components/FlowChart.jsx:255 | Run is enabled iff the flow is not running and the trimmed input is non-empty |
| FlowChart.SaveEnabledIff | frontend/src/components/FlowChart.jsx:283-289 | Save is enabled iff not saving, not saved, and both trimmed texts are non-empty |
| FlowChart.InputChangeActions | frontend/src/components/FlowChart.jsx:76-82 | the two actions typing dispatches; stated by `InputChangeEffect` |
| FlowChart.InputChangeEffect | frontend/src/components/FlowChart.jsx:76-82 | typing sets the input text and node 1, clears `isSaved` unless the text equals `lastSavedText`, and keeps the mirror |
| FlowChart.HandleInputChange | frontend/src/components/FlowChart.jsx:76-82 | the two dispatches leave the store where the input-change actions put it |
| FlowChart.RunFlowActions | frontend/src/components/FlowChart.jsx:84-110 | the Run handler's dispatch sequence; stated by `RunFlowGuard` and `RunFlowWritesOutput` |
| FlowChart.RunFlowGuard | frontend/src/components/FlowChart.jsx:85-89 | blank input dispatches no flow action and only clears the api error |
| FlowChart.RunFlowWritesOutput | frontend/src/components/FlowChart.jsx:84-110 | for non-blank input, node 2 and the output text end as the response, or `Error: ` and the message, or the fallback text; the flow is not running and the request is settled |
| FlowChart.HandleRunFlow | frontend/src/components/FlowChart.jsx:84-110 | reports the guard's throw exactly on blank input, and leaves store and request table where the handler's action sequence puts them |
| FlowChart.SaveActions | frontend/src/components/FlowChart.jsx:112-129 | the Save handler's dispatch sequence; stated by `SaveGuard` and `SaveEnabledSaves` |
| FlowChart.SaveGuard | frontend/src/components/FlowChart.jsx:113-117 | a blank input or output dispatches no flow action and only clears the api error |
| FlowChart.SaveEnabledSaves | frontend/src/components/FlowChart.jsx:112-129 | when Save is enabled the handler runs the saveData thunk, and after a success Save is disabled |
| FlowChart.HandleSave | frontend/src/components/FlowChart.jsx:112-129 | reports the guard's throw exactly when either text is blank, and leaves store and request table where the handler's action sequence puts them |
| FlowChart.NewEdge | frontend/src/components/FlowChart.jsx:139-142 | the edge a connection adds; stated by `NewEdgeIdsDiffer` and `OnConnect` |
| FlowChart.NewEdgeIdsDiffer | frontend/src/components/FlowChart.jsx:141 | edges made at different times get different ids |
| FlowChart.OnConnect | frontend/src/components/FlowChart.jsx:137-147 | the store edges become the old edges with exactly the new edge appended; nothing else changes |
| FlowChart.MoveNode | frontend/src/components/FlowChart.jsx:193-197 | the node with the id moves to the position; all ids, types and data and all other nodes are unchanged |
| FlowChart.NodesChangeActions | frontend/src/components/FlowChart.jsx:185-202 | one `setNodes` per qualifying change, each from the captured nodes; stated by `LastLiftedWins` |
| FlowChart.LastLifted | frontend/src/components/FlowChart.jsx:188-191 | none exactly when no change qualifies (a position change for a rendered node); otherwise a qualifying change with no qualifying change after it |
| FlowChart.LastLiftedWins | frontend/src/components/FlowChart.jsx:185-202 | the handler's dispatches leave the store unchanged without a qualifying change, and otherwise with only the last one applied to the original nodes |
| FlowChart.DragKeepsMirror | frontend/src/components/FlowChart.jsx:185-202 | dragging keeps the mirror invariant, although it goes through `setNodes` |
| FlowChart.HandleNodesChange | frontend/src/components/FlowChart.jsx:185-202 | the loop over the changes leaves the store where the handler's action sequence puts it |
| SavedQueriesColumn.Search | frontend/src/components/SavedQueriesColumn.jsx:144-147 | keeps exactly the queries whose lower-cased prompt or response contains the lower-cased term, each as often as before, in order; a missing field never matches |
| SavedQueriesColumn.SearchIgnoresTermCase | frontend/src/components/SavedQueriesColumn.jsx:146 | the search gives the same result for the term and its lower-cased form |
| SavedQueriesColumn.EmptyTermKeepsFilled | frontend/src/components/SavedQueriesColumn.jsx:144-147 | the empty term keeps exactly the queries that have a prompt or a response, each as often as before |
| SavedQueriesColumn.Insert | frontend/src/components/SavedQueriesColumn.jsx:148-157 | inserting into a sorted list keeps it sorted and adds exactly that query |
| SavedQueriesColumn.Sort | frontend/src/components/SavedQueriesColumn.jsx:148-157 | the result is ordered by timestamp (ascending for `oldest`, descending otherwise) and is a permutation of the input |
| SavedQueriesColumn.FilteredQueries | frontend/src/components/SavedQueriesColumn.jsx:143-157 | the list the column shows; stated by `FilteredQueriesSpec` |
| SavedQueriesColumn.FilteredQueriesSpec | frontend/src/components/SavedQueriesColumn.jsx:143-157 | the shown list is a sorted permutation of a subsequence of the saved queries, holding exactly the matches, so Showing is at most Total |
| SavedQueriesColumn.Bucket | frontend/src/components/SavedQueriesColumn.jsx:172-177 | under 1 minute is "Just now", under 60 gives minutes, under 1440 whole hours, else whole days, each with its floor bounds |
| SavedQueriesColumn.Label | frontend/src/components/SavedQueriesColumn.jsx:174-177 | the text of a bucket; stated by `LabelInjective` and `TimeAgoBounds` |
| SavedQueriesColumn.GetTimeAgo | frontend/src/components/SavedQueriesColumn.jsx:169-178 | the relative-time label; stated by `TimeAgoBounds` |
| SavedQueriesColumn.LabelInjective | frontend/src/components/SavedQueriesColumn.jsx:174-177 | different buckets give different labels |
| SavedQueriesColumn.TimeAgoBounds | frontend/src/components/SavedQueriesColumn.jsx:169-178 | each label bounds the elapsed milliseconds: "Just now" iff under a minute, `n m`/`n h`/`n d` within that unit's interval |
| SavedQueriesColumn.IsQueryDeleting | frontend/src/components/SavedQueriesColumn.jsx:181-183 | whether a row shows the spinner; stated by `AtMostOneDeleting` |
| SavedQueriesColumn.AtMostOneDeleting | frontend/src/components/SavedQueriesColumn.jsx:181-183 | a spinner shows only while a delete is loading for a selected query, and on exactly one id |
| SavedQueriesColumn.DeleteActions | frontend/src/components/SavedQueriesColumn.jsx:78-92 | the delete handler's dispatch sequence; stated by `DeleteOrder`, `DeleteSucceeded` and `DeleteFailedRollsBack` |
| SavedQueriesColumn.DeleteOrder | frontend/src/components/SavedQueriesColumn.jsx:78-92 | unconfirmed dispatches nothing; confirmed removes locally before the remote delete; a refetch is dispatched exactly once, and only on failure |
| SavedQueriesColumn.DeleteSucceeded | frontend/src/components/SavedQueriesColumn.jsx:78-84 | a successful delete leaves the list without the id, in its old order, with loading ended |
| SavedQueriesColumn.DeleteFailedRollsBack | frontend/src/components/SavedQueriesColumn.jsx:83-89 | after a failed delete the refetch restores the server's list and clears the error, or, if it fails too, keeps the optimistic list with the refetch error |
| SavedQueriesColumn.HandleDelete | frontend/src/components/SavedQueriesColumn.jsx:78-92 | the handler's dispatches leave the store where the delete action sequence puts it |
| SavedQueriesColumn.LoadQueryActions | frontend/src/components/SavedQueriesColumn.jsx:94-107 | the four actions loading a query dispatches; stated by `LoadQueryEffect` |
| SavedQueriesColumn.LoadQueryEffect | frontend/src/components/SavedQueriesColumn.jsx:94-107 | loading a query puts its prompt and response in both texts and nodes, keeps the mirror, leaves the saved list and `lastSavedText`, and keeps `isSaved` only if the prompt equals `lastSavedText` |
| SavedQueriesColumn.HandleLoadQuery | frontend/src/components/SavedQueriesColumn.jsx:94-107 | the four dispatches leave the store where the load action sequence puts it |

## Left out

- Time, randomness and service results are not computed: `Date.now()`, `new Date()`, `toISOString()`, the random base-36 suffix, the AI/database responses and `window.confirm` are parameters.
- History entries take their id and ISO timestamp as a number and a string passed in; saved-query timestamps are milliseconds, not ISO strings, and invalid dates (`NaN` differences) are not modelled.
- React Flow's local state is not modelled: `onNodesChange`, `setReactFlowNodes`/`setReactFlowEdges`, `addEdge`'s de-duplication and `handleReset`'s local setters live in the component library, not the store.
- Node positions are integer pairs; React Flow's positions are floating-point numbers, but the core only copies them and never computes with them.
- An edge holds only its id, source and target; handle fields spread in from the connection parameters are not kept.
- `alert`, `console.error`, the clipboard, `formatDate` (date-fns) and all layout and styling are presentational and left out.
- The backend routes, the Express/Mongoose server and the axios interceptors are outside the client state machine; only their contract is used (a saved record carries prompt and response, and a failed call has a message).
- Lower-casing is ASCII only; JavaScript's full Unicode case mapping is not modelled (`trim`'s whitespace set is the full ECMAScript one).
- Immer drafts, React hooks, effect scheduling and promise interleaving are not modelled; asynchronous completion is an arbitrary sequence of discrete actions.
- `setLoading` and `updateLoading` are modelled but nothing in the core dispatches or changes them.
- SavedQueriesColumn.LoadQueryActions: requires the query to have both a prompt and a response, which the database schema guarantees (backend/routes/db.routes.js:6-10); a record without them is not modelled.
- SavedQueriesColumn.Sort: states sorted-and-permutation but not the stability of JavaScript's `sort` among equal timestamps.
- FlowChart.HandleRunFlow: the `setError` call on the guard path throws a `ReferenceError` in the source; the model stops there and reports `threw`, without modelling the exception object.
