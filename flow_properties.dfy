/**
 * What the `flow` slice's reducer keeps across actions and across runs of
 * actions: the two texts mirror the nodes, the saved flag never outlives an
 * edit, the lifecycle flags follow their operations, `resetFlow` is
 * idempotent, and the history cap holds on every path but one.
 */
module FlowProperties {
  import opened Util
  import opened FlowSlice

  // ---------------------------------------------------------------------
  // The mirror invariant
  // ---------------------------------------------------------------------

  lemma InitialMirrored()
    ensures Mirrored(InitialState)
    ensures Mirrored(InitialState.(nodes := InitialNodes))
  {
    assert IndexOf(InitialNodes, "1") == 0;
    assert InitialNodes[1..][0].id == "2";
    assert IndexOf(InitialNodes, "2") == 1;
  }

  /** `updateNodeData` keeps the mirror: a `value` for node `'1'`/`'2'` goes
      to both the node and its text, and any other patch leaves both. */
  lemma UpdateNodeDataKeepsMirror(s: FlowState, nodeId: string, patch: map<string, string>)
    requires Mirrored(s)
    ensures Mirrored(OnUpdateNodeData(s, nodeId, patch))
  {
    var r := OnUpdateNodeData(s, nodeId, patch);
    if HasNode(s.nodes, nodeId) {
      IndexOfSameIds(r.nodes, s.nodes, "1");
      IndexOfSameIds(r.nodes, s.nodes, "2");
      var i, i1, i2 := IndexOf(s.nodes, nodeId), IndexOf(s.nodes, "1"), IndexOf(s.nodes, "2");
      if nodeId == "1" {
        assert i == i1 && i != i2;
      } else if nodeId == "2" {
        assert i == i2 && i != i1;
      } else {
        assert i != i1 && i != i2;
      }
    }
  }

  /** Every action but `setNodes` keeps the texts equal to the nodes' values. */
  lemma MirrorPreserved(s: FlowState, a: FlowAction)
    requires Mirrored(s)
    requires !a.SetNodes?
    ensures Mirrored(Reduce(s, a))
  {
    match a
    case UpdateNodeData(nodeId, patch) =>
      ReduceUpdateNodeData(s, nodeId, patch);
      UpdateNodeDataKeepsMirror(s, nodeId, patch);
    case ResetFlow =>
      ReduceResetFlow(s);
      InitialMirrored();
    case SetInputText(x) => ReduceSetInputText(s, x);
    case SetOutputText(x) => ReduceSetOutputText(s, x);
    case AskAIFulfilled(response, model, now, stamp) => ReduceAskAIFulfilled(s, response, model, now, stamp);
    case _ =>
      ReduceKeepsNodesAndTexts(s, a);
      MirrorSameFields(s, Reduce(s, a));
  }

  /** A state with the same nodes and texts as a mirrored one is mirrored. */
  lemma MirrorSameFields(s: FlowState, r: FlowState)
    requires Mirrored(s)
    requires r.nodes == s.nodes && r.inputText == s.inputText && r.outputText == s.outputText
    ensures Mirrored(r)
  {
  }

  /** `setNodes` replaces the nodes wholesale and can break the mirror. */
  lemma SetNodesBreaksMirror()
    ensures Mirrored(InitialState)
    ensures !Mirrored(Reduce(InitialState, SetNodes([])))
  {
    InitialMirrored();
    assert IndexOf([], "1") == -1;
  }

  predicate KeepsNodes(a: FlowAction) {
    !a.SetNodes?
  }

  lemma {:induction false} MirrorPreservedAll(s: FlowState, actions: seq<FlowAction>)
    requires Mirrored(s)
    requires forall i :: 0 <= i < |actions| ==> KeepsNodes(actions[i])
    ensures Mirrored(ReduceAll(s, actions))
    decreases |actions|
  {
    if actions != [] {
      assert KeepsNodes(actions[0]);
      MirrorPreserved(s, actions[0]);
      MirrorPreservedAll(Reduce(s, actions[0]), actions[1..]);
    }
  }

  /** From the initial state, any run without `setNodes` ends mirrored. */
  lemma MirrorFromInitial(actions: seq<FlowAction>)
    requires forall i :: 0 <= i < |actions| ==> KeepsNodes(actions[i])
    ensures Mirrored(ReduceAll(InitialState, actions))
  {
    InitialMirrored();
    MirrorPreservedAll(InitialState, actions);
  }

  // ---------------------------------------------------------------------
  // The saved tracker
  // ---------------------------------------------------------------------

  /** No action leaves `isSaved` set for a prompt other than the last saved
      one: edits clear it, and the only ways to set it record the prompt. */
  lemma SavedTrackerPreserved(s: FlowState, a: FlowAction)
    requires SavedMatchesPrompt(s)
    ensures SavedMatchesPrompt(Reduce(s, a))
  {
  }

  lemma {:induction false} SavedTrackerPreservedAll(s: FlowState, actions: seq<FlowAction>)
    requires SavedMatchesPrompt(s)
    ensures SavedMatchesPrompt(ReduceAll(s, actions))
    decreases |actions|
  {
    if actions != [] {
      SavedTrackerPreserved(s, actions[0]);
      SavedTrackerPreservedAll(Reduce(s, actions[0]), actions[1..]);
    }
  }

  lemma SavedTrackerFromInitial(actions: seq<FlowAction>)
    ensures SavedMatchesPrompt(ReduceAll(InitialState, actions))
  {
    SavedTrackerPreservedAll(InitialState, actions);
  }

  /** A save that completes after the prompt was edited marks the edited
      prompt as saved: nothing ties a completion to the text it sent. */
  lemma StaleSaveMarksEditSaved(s: FlowState, x: string, savedId: Option<string>, time: int)
    ensures var r := Reduce(Reduce(Reduce(s, SaveDataPending), SetInputText(x)), SaveDataFulfilled(savedId, time));
      r.isSaved && r.lastSavedText == x && r.inputText == x && r.currentQueryId == savedId
    ensures var s2 := Reduce(Reduce(s, SaveDataPending), SetInputText(x));
      var r := Reduce(s2, SaveDataFulfilled(savedId, time));
      Truthy(savedId) && !HasQuery(s.savedQueries, savedId.value) ==> r.savedQueries[0].prompt == Some(x)
  {
    ReduceSaveDataPending(s);
    var s1 := Reduce(s, SaveDataPending);
    ReduceSetInputText(s1, x);
    var s2 := Reduce(s1, SetInputText(x));
    ReduceSaveDataFulfilled(s2, savedId, time);
  }

  /** A second completion with the same truthy id adds no second record. */
  lemma SaveFulfilledNoDuplicate(s: FlowState, savedId: Option<string>, t1: int, t2: int)
    requires Truthy(savedId)
    ensures var s1 := Reduce(s, SaveDataFulfilled(savedId, t1));
      Reduce(s1, SaveDataFulfilled(savedId, t2)).savedQueries == s1.savedQueries
  {
  }

  // ---------------------------------------------------------------------
  // Lifecycle flags of the remote operations
  // ---------------------------------------------------------------------

  /** Each `pending` sets its flag and changes nothing else but, for the
      fetch, the error; the matching `fulfilled` and `rejected` clear it. */
  lemma LifecycleFlags(s: FlowState, response: string, model: string, now: nat, stamp: string,
                       savedId: Option<string>, time: int, queries: seq<SavedQuery>,
                       message: string, queryId: string)
    ensures Reduce(s, AskAIPending) == s.(isFlowRunning := true)
    ensures !Reduce(s, AskAIFulfilled(response, model, now, stamp)).isFlowRunning
    ensures !Reduce(s, AskAIRejected).isFlowRunning
    ensures Reduce(s, SaveDataPending) == s.(isSaving := true)
    ensures !Reduce(s, SaveDataFulfilled(savedId, time)).isSaving
    ensures !Reduce(s, SaveDataRejected).isSaving && !Reduce(s, SaveDataRejected).isSaved
    ensures Reduce(s, FetchSavedQueriesPending) == s.(savedQueriesLoading := true, savedQueriesError := None)
    ensures !Reduce(s, FetchSavedQueriesFulfilled(queries)).savedQueriesLoading
    ensures !Reduce(s, FetchSavedQueriesRejected(message)).savedQueriesLoading
    ensures Reduce(s, DeleteSavedQueryPending) == s.(deleteLoading := true)
    ensures !Reduce(s, DeleteSavedQueryFulfilled(queryId)).deleteLoading
    ensures !Reduce(s, DeleteSavedQueryRejected(message)).deleteLoading
  {
    ReduceAskAIPending(s);
    ReduceAskAIFulfilled(s, response, model, now, stamp);
    ReduceAskAIRejected(s);
    ReduceSaveDataPending(s);
    ReduceSaveDataFulfilled(s, savedId, time);
    ReduceSaveDataRejected(s);
    ReduceFetchPending(s);
    ReduceFetchFulfilled(s, queries);
    ReduceFetchRejected(s, message);
    ReduceDeletePending(s);
    ReduceDeleteFulfilled(s, queryId);
    ReduceDeleteRejected(s, message);
  }

  /** `fetchSavedQueries.fulfilled` replaces the list wholesale: what was
      there before, including optimistic removals, does not matter. */
  lemma FetchReplacesWholesale(s: FlowState, t: FlowState, queries: seq<SavedQuery>)
    ensures Reduce(s, FetchSavedQueriesFulfilled(queries)).savedQueries == queries
    ensures Reduce(s, FetchSavedQueriesFulfilled(queries)).savedQueries
         == Reduce(t, FetchSavedQueriesFulfilled(queries)).savedQueries
  {
  }

  /** Of two responses that complete one after the other, the later one is
      what the output shows. */
  lemma LastResponseWins(s: FlowState, r1: string, m1: string, n1: nat, t1: string,
                         r2: string, m2: string, n2: nat, t2: string)
    requires Mirrored(s)
    ensures var r := Reduce(Reduce(s, AskAIFulfilled(r1, m1, n1, t1)), AskAIFulfilled(r2, m2, n2, t2));
      r.outputText == r2 && NodeValue(r.nodes, "2") == Some(r2) && |r.history| == |s.history| + 2
  {
    MirrorPreserved(s, AskAIFulfilled(r1, m1, n1, t1));
  }

  // ---------------------------------------------------------------------
  // resetFlow
  // ---------------------------------------------------------------------

  /** `resetFlow` puts every field it touches back to its initial value. */
  lemma ResetRestoresInitial(s: FlowState)
    ensures var r := Reduce(s, ResetFlow);
      r.nodes == InitialState.nodes && r.edges == InitialState.edges
      && r.inputText == InitialState.inputText && r.outputText == InitialState.outputText
      && r.isFlowRunning == InitialState.isFlowRunning && r.isSaving == InitialState.isSaving
      && r.isSaved == InitialState.isSaved && r.lastSavedText == InitialState.lastSavedText
    ensures Reduce(s, ResetFlow).savedQueries == s.savedQueries
    ensures Reduce(s, ResetFlow).currentQueryId == s.currentQueryId
    ensures Reduce(s, ResetFlow).history == s.history
  {
  }

  lemma ResetIdempotent(s: FlowState)
    ensures Reduce(Reduce(s, ResetFlow), ResetFlow) == Reduce(s, ResetFlow)
  {
  }

  /** A reset on the initial state changes nothing. */
  lemma ResetOfInitial()
    ensures Reduce(InitialState, ResetFlow) == InitialState
  {
  }

  // ---------------------------------------------------------------------
  // History length
  // ---------------------------------------------------------------------

  /** Any action but `askAI.fulfilled` keeps a history of at most ten
      entries at most ten. */
  lemma HistoryBoundStep(s: FlowState, a: FlowAction)
    requires |s.history| <= HistoryLimit
    requires !a.AskAIFulfilled?
    ensures |Reduce(s, a).history| <= HistoryLimit
  {
    match a
    case AddToHistory(payload, now, stamp) => ReduceAddToHistory(s, payload, now, stamp);
    case ResetFlow => ReduceResetFlow(s);
    case UpdateNodeData(nodeId, patch) => ReduceUpdateNodeData(s, nodeId, patch);
    case SetInputText(text) => ReduceSetInputText(s, text);
    case SetOutputText(text) => ReduceSetOutputText(s, text);
    case SetSavedStatus(saved) => ReduceSetSavedStatus(s, saved);
    case SaveDataFulfilled(savedId, time) => ReduceSaveDataFulfilled(s, savedId, time);
    case DeleteSavedQueryFulfilled(queryId) => ReduceDeleteFulfilled(s, queryId);
    case _ =>
  }

  predicate Capped(a: FlowAction) {
    !a.AskAIFulfilled?
  }

  lemma {:induction false} HistoryBound(s: FlowState, actions: seq<FlowAction>)
    requires |s.history| <= HistoryLimit
    requires forall i :: 0 <= i < |actions| ==> Capped(actions[i])
    ensures |ReduceAll(s, actions).history| <= HistoryLimit
    decreases |actions|
  {
    if actions != [] {
      assert Capped(actions[0]);
      HistoryBoundStep(s, actions[0]);
      HistoryBound(Reduce(s, actions[0]), actions[1..]);
    }
  }

  /** `askAI.fulfilled` prepends without the cap: a full history grows
      past ten. */
  lemma AskAIOverflowsHistory(s: FlowState, response: string, model: string, now: nat, stamp: string)
    requires |s.history| == HistoryLimit
    ensures |Reduce(s, AskAIFulfilled(response, model, now, stamp)).history| == HistoryLimit + 1
  {
  }

  /** An `addToHistory` after an overflow drops one entry and adds one, so
      the history stays over the cap. */
  lemma AddToHistoryDoesNotRecover(s: FlowState, payload: map<string, string>, now: nat, stamp: string)
    requires |s.history| > HistoryLimit
    ensures |Reduce(s, AddToHistory(payload, now, stamp)).history| == |s.history|
  {
  }

  // ---------------------------------------------------------------------
  // Saved-queries removal
  // ---------------------------------------------------------------------

  lemma WithoutIdIdempotent(qs: seq<SavedQuery>, id: string)
    ensures WithoutId(WithoutId(qs, id), id) == WithoutId(qs, id)
  {
    WithoutIdSpec(qs, id);
    WithoutIdSpec(WithoutId(qs, id), id);
  }

  /** The optimistic removal followed by the confirmed delete leaves the
      list as the removal alone left it. */
  lemma RemoveThenConfirm(s: FlowState, id: string)
    ensures Reduce(Reduce(s, RemoveSavedQueryLocal(id)), DeleteSavedQueryFulfilled(id)).savedQueries
         == Reduce(s, RemoveSavedQueryLocal(id)).savedQueries
  {
    ReduceRemoveSavedQueryLocal(s, id);
    ReduceDeleteFulfilled(Reduce(s, RemoveSavedQueryLocal(id)), id);
    WithoutIdIdempotent(s.savedQueries, id);
  }
}
