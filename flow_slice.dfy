/**
 * The `flow` slice of the Redux store: the two fixed nodes of the graph
 * (`'1'` input, `'2'` output) and its edges, the prompt and response texts
 * that mirror the nodes' `data.value`, the saved/dirty tracker, the saved
 * queries list, a capped history and the lifecycle flags of the four remote
 * operations.
 *
 * `FlowState` and `Reduce` give the slice as values (one function per case
 * reducer that does more than set a field); the class `Store` is the slice as
 * its case reducers run, changing fields in place, each method proved to
 * agree with `Reduce`. Selectors are plain field reads of `FlowState`.
 */
module FlowSlice {
  import opened Util

  datatype Position = Position(x: int, y: int)

  /** A graph node; `kind` is the node's `type`, `data` its string-valued
      attributes (`label`, `value`). */
  datatype Node = Node(id: string, kind: string, position: Position, data: map<string, string>)

  datatype Edge = Edge(id: string, source: string, target: string)

  /** A history record: its keys and their texts (`id` is the decimal text
      of the time it was made). */
  type HistoryEntry = map<string, string>

  /** A saved prompt/response pair as the list holds it; `timestamp` is in
      milliseconds. A record fetched from the server may lack either text. */
  datatype SavedQuery = SavedQuery(id: string, prompt: Option<string>, response: Option<string>, timestamp: int)

  datatype FlowState = FlowState(
    nodes: seq<Node>,
    edges: seq<Edge>,
    inputText: string,
    outputText: string,
    isFlowRunning: bool,
    isSaving: bool,
    isSaved: bool,
    lastSavedText: string,
    history: seq<HistoryEntry>,
    savedQueries: seq<SavedQuery>,
    currentQueryId: Option<string>,
    savedQueriesLoading: bool,
    savedQueriesError: Option<string>,
    deleteLoading: bool,
    updateLoading: bool,
    editDialogOpen: bool)

  const InitialNodes: seq<Node> := [
    Node("1", "inputNode", Position(100, 100), map["label" := "Input Node", "value" := ""]),
    Node("2", "outputNode", Position(400, 100), map["label" := "Output Node", "value" := ""])
  ]

  const InitialEdges: seq<Edge> := [Edge("e1-2", "1", "2")]

  const InitialState: FlowState := FlowState(
    InitialNodes, InitialEdges, "", "", false, false, false, "", [], [],
    None, false, None, false, false, false)

  /** History is trimmed back to this many entries by `addToHistory`. */
  const HistoryLimit := 10

  /** The actions the slice handles: its own case reducers, then the
      `pending`/`fulfilled`/`rejected` actions of the four remote operations.
      Times (`Date.now()`, ISO timestamps) arrive as parameters. */
  datatype FlowAction =
    | SetEditDialogOpen(open: bool)
    | SetNodes(newNodes: seq<Node>)
    | SetEdges(newEdges: seq<Edge>)
    | UpdateNodeData(nodeId: string, patch: map<string, string>)
    | SetInputText(text: string)
    | SetOutputText(text: string)
    | SetSavedStatus(saved: bool)
    | AddToHistory(payload: map<string, string>, now: nat, stamp: string)
    | ResetFlow
    | ClearHistory
    | SetSavedQueries(queries: seq<SavedQuery>)
    | SetSavedQueriesLoading(flag: bool)
    | SetSavedQueriesError(error: Option<string>)
    | RemoveSavedQueryLocal(queryId: string)
    | AskAIPending
    | AskAIFulfilled(response: string, model: string, now: nat, stamp: string)
    | AskAIRejected
    | SaveDataPending
    | SaveDataFulfilled(savedId: Option<string>, time: int)
    | SaveDataRejected
    | FetchSavedQueriesPending
    | FetchSavedQueriesFulfilled(queries: seq<SavedQuery>)
    | FetchSavedQueriesRejected(message: string)
    | DeleteSavedQueryPending
    | DeleteSavedQueryFulfilled(queryId: string)
    | DeleteSavedQueryRejected(message: string)

  // ---------------------------------------------------------------------
  // Nodes
  // ---------------------------------------------------------------------

  /** `nodes.findIndex(node => node.id === id)`. */
  function IndexOf(nodes: seq<Node>, id: string): (r: int)
    ensures -1 <= r < |nodes|
    ensures r == -1 <==> forall j :: 0 <= j < |nodes| ==> nodes[j].id != id
    ensures r >= 0 ==> nodes[r].id == id && forall j :: 0 <= j < r ==> nodes[j].id != id
  {
    if nodes == [] then -1
    else if nodes[0].id == id then 0
    else
      var k := IndexOf(nodes[1..], id);
      if k == -1 then -1 else k + 1
  }

  predicate HasNode(nodes: seq<Node>, id: string) {
    IndexOf(nodes, id) != -1
  }

  /** `data.value` of the node `findIndex` finds, if any. */
  function NodeValue(nodes: seq<Node>, id: string): Option<string> {
    var i := IndexOf(nodes, id);
    if i != -1 && "value" in nodes[i].data then Some(nodes[i].data["value"]) else None
  }

  /** The same node ids, types and positions at the same places. */
  predicate SameLayout(a: seq<Node>, b: seq<Node>) {
    |a| == |b| &&
    forall i :: 0 <= i < |a| ==>
      a[i].id == b[i].id && a[i].kind == b[i].kind && a[i].position == b[i].position
  }

  /** `findIndex` sees only ids, so two lists with the same ids at the same
      places (the same layout, or nodes that were only moved) find every id
      at the same index. */
  lemma IndexOfSameIds(a: seq<Node>, b: seq<Node>, id: string)
    requires |a| == |b|
    requires forall i :: 0 <= i < |a| ==> a[i].id == b[i].id
    ensures IndexOf(a, id) == IndexOf(b, id)
  {
  }

  /** The node at `i` with its data replaced: the layout is kept, the node
      now holds `data`, and every other node is as it was. */
  function WithData(nodes: seq<Node>, i: int, data: map<string, string>): (r: seq<Node>)
    requires 0 <= i < |nodes|
    ensures SameLayout(r, nodes)
    ensures r[i].data == data
    ensures forall j :: 0 <= j < |nodes| && j != i ==> r[j] == nodes[j]
  {
    nodes[i := nodes[i].(data := data)]
  }

  /** `r` is `nodes` with `data.value` of the node `findIndex` finds for `id`
      set to `value`: that node keeps its other data keys and its layout,
      every other node is as it was, and without such a node nothing
      changes. */
  predicate ValueWritten(r: seq<Node>, nodes: seq<Node>, id: string, value: string) {
    var i := IndexOf(nodes, id);
    if i == -1 then r == nodes
    else
      |r| == |nodes| && r[i] == nodes[i].(data := nodes[i].data["value" := value]) &&
      forall j :: 0 <= j < |nodes| && j != i ==> r[j] == nodes[j]
  }

  /** Writes `value` into `data.value` of the node with that id, if any. */
  function WriteNodeValue(nodes: seq<Node>, id: string, value: string): (r: seq<Node>)
    ensures ValueWritten(r, nodes, id, value)
    ensures SameLayout(r, nodes)
    ensures HasNode(nodes, id) ==> NodeValue(r, id) == Some(value)
    ensures !HasNode(nodes, id) ==> r == nodes
    ensures forall other :: other != id ==> NodeValue(r, other) == NodeValue(nodes, other)
  {
    var i := IndexOf(nodes, id);
    if i == -1 then nodes
    else
      var r := WithData(nodes, i, nodes[i].data["value" := value]);
      forall other ensures IndexOf(r, other) == IndexOf(nodes, other) {
        IndexOfSameIds(r, nodes, other);
      }
      r
  }

  /** The mirror invariant: the texts equal the two nodes' values. */
  predicate Mirrored(s: FlowState) {
    NodeValue(s.nodes, "1") == Some(s.inputText) && NodeValue(s.nodes, "2") == Some(s.outputText)
  }

  /** The saved flag is only ever set while the prompt equals the last
      saved prompt. */
  predicate SavedMatchesPrompt(s: FlowState) {
    s.isSaved ==> s.inputText == s.lastSavedText
  }

  // ---------------------------------------------------------------------
  // Saved queries
  // ---------------------------------------------------------------------

  predicate HasQuery(qs: seq<SavedQuery>, id: string) {
    exists i :: 0 <= i < |qs| && qs[i].id == id
  }

  /** `filter(query => query._id !== id)`; what it keeps is stated by
      `WithoutIdSpec`. */
  function WithoutId(qs: seq<SavedQuery>, id: string): (r: seq<SavedQuery>)
    ensures |r| <= |qs|
  {
    Filter(qs, (q: SavedQuery) => q.id != id)
  }

  /** Every record with that id is gone, every other record stays, in the
      original order; a list without that id is returned as it was. */
  lemma WithoutIdSpec(qs: seq<SavedQuery>, id: string)
    ensures forall q :: q in WithoutId(qs, id) <==> q in qs && q.id != id
    ensures forall q :: multiset(WithoutId(qs, id))[q] == if q.id != id then multiset(qs)[q] else 0
    ensures !HasQuery(WithoutId(qs, id), id)
    ensures IsSubsequence(WithoutId(qs, id), qs)
    ensures !HasQuery(qs, id) ==> WithoutId(qs, id) == qs
  {
    var r := WithoutId(qs, id);
    if !HasQuery(qs, id) {
      FilterKeepsAll(qs, (q: SavedQuery) => q.id != id);
    }
  }

  // ---------------------------------------------------------------------
  // Case reducers that do more than set one field
  // ---------------------------------------------------------------------

  /** `updateNodeData`: merges `patch` into the first node with that id; a
      `value` for node `'1'`/`'2'` also becomes the prompt/response, and a
      prompt different from the last saved one clears `isSaved`. No such
      node: nothing changes. */
  function OnUpdateNodeData(s: FlowState, nodeId: string, patch: map<string, string>): (r: FlowState)
    ensures !HasNode(s.nodes, nodeId) ==> r == s
    ensures SameLayout(r.nodes, s.nodes)
    ensures HasNode(s.nodes, nodeId) ==>
      var i := IndexOf(s.nodes, nodeId);
      r.nodes[i].data == s.nodes[i].data + patch &&
      forall j :: 0 <= j < |s.nodes| && j != i ==> r.nodes[j] == s.nodes[j]
    ensures r.inputText ==
      if nodeId == "1" && HasNode(s.nodes, nodeId) && "value" in patch then patch["value"] else s.inputText
    ensures r.outputText ==
      if nodeId == "2" && HasNode(s.nodes, nodeId) && "value" in patch then patch["value"] else s.outputText
    ensures r.isSaved ==
      (s.isSaved && (r.inputText == s.lastSavedText || !(nodeId == "1" && HasNode(s.nodes, nodeId) && "value" in patch)))
    ensures r == s.(nodes := r.nodes, inputText := r.inputText, outputText := r.outputText, isSaved := r.isSaved)
  {
    var i := IndexOf(s.nodes, nodeId);
    if i == -1 then s
    else
      var typed := nodeId == "1" && "value" in patch;
      var x := if typed then patch["value"] else s.inputText;
      s.(nodes := WithData(s.nodes, i, s.nodes[i].data + patch),
         inputText := x,
         isSaved := if typed && x != s.lastSavedText then false else s.isSaved,
         outputText := if nodeId == "2" && "value" in patch then patch["value"] else s.outputText)
  }

  /** `updateNodeData` of a value for a node that exists: that node now
      holds the value, and every other id's value is as it was. */
  lemma UpdateNodeValue(s: FlowState, id: string, value: string)
    requires HasNode(s.nodes, id)
    ensures var r := OnUpdateNodeData(s, id, map["value" := value]);
      HasNode(r.nodes, id) && NodeValue(r.nodes, id) == Some(value) &&
      forall other :: other != id ==> NodeValue(r.nodes, other) == NodeValue(s.nodes, other)
    ensures var r := OnUpdateNodeData(s, id, map["value" := value]);
      r.outputText == (if id == "2" then value else s.outputText) && r.isFlowRunning == s.isFlowRunning
  {
    var r := OnUpdateNodeData(s, id, map["value" := value]);
    IndexOfSameIds(r.nodes, s.nodes, id);
    forall other | other != id
      ensures NodeValue(r.nodes, other) == NodeValue(s.nodes, other)
    {
      IndexOfSameIds(r.nodes, s.nodes, other);
    }
  }

  /** `setInputText(x)`: the prompt and node `'1'` become `x`; `isSaved` is
      cleared iff `x` differs from the last saved prompt, never set. */
  function OnSetInputText(s: FlowState, x: string): (r: FlowState)
    ensures r.inputText == x
    ensures r.isSaved == (s.isSaved && x == s.lastSavedText)
    ensures ValueWritten(r.nodes, s.nodes, "1", x)
    ensures HasNode(s.nodes, "1") ==> NodeValue(r.nodes, "1") == Some(x)
    ensures forall id :: id != "1" ==> NodeValue(r.nodes, id) == NodeValue(s.nodes, id)
    ensures SameLayout(r.nodes, s.nodes)
    ensures r == s.(nodes := r.nodes, inputText := x, isSaved := r.isSaved)
    ensures Mirrored(s) ==> Mirrored(r)
  {
    s.(inputText := x,
       isSaved := if x != s.lastSavedText then false else s.isSaved,
       nodes := WriteNodeValue(s.nodes, "1", x))
  }

  /** `setOutputText(x)`: the response and node `'2'` become `x`; the saved
      tracker is untouched. */
  function OnSetOutputText(s: FlowState, x: string): (r: FlowState)
    ensures r.outputText == x
    ensures ValueWritten(r.nodes, s.nodes, "2", x)
    ensures HasNode(s.nodes, "2") ==> NodeValue(r.nodes, "2") == Some(x)
    ensures forall id :: id != "2" ==> NodeValue(r.nodes, id) == NodeValue(s.nodes, id)
    ensures SameLayout(r.nodes, s.nodes)
    ensures r == s.(nodes := r.nodes, outputText := x)
    ensures Mirrored(s) ==> Mirrored(r)
  {
    s.(outputText := x, nodes := WriteNodeValue(s.nodes, "2", x))
  }

  /** `setSavedStatus(b)`: marking saved records the current prompt as the
      last saved one; marking unsaved keeps the last saved prompt. */
  function OnSetSavedStatus(s: FlowState, saved: bool): (r: FlowState)
    ensures r.isSaved == saved
    ensures r.lastSavedText == if saved then s.inputText else s.lastSavedText
    ensures r == s.(isSaved := saved, lastSavedText := r.lastSavedText)
    ensures SavedMatchesPrompt(r)
  {
    if saved then s.(isSaved := true, lastSavedText := s.inputText) else s.(isSaved := false)
  }

  /** The history entry `{ id, timestamp, ...payload }`: the payload's keys
      win over the two generated ones. */
  function HistoryRecord(payload: map<string, string>, now: nat, stamp: string): (r: HistoryEntry)
    ensures forall k :: k in payload ==> k in r && r[k] == payload[k]
    ensures forall k :: k in r ==> k in payload || k == "id" || k == "timestamp"
    ensures "id" in r && ("id" !in payload ==> r["id"] == Decimal(now))
    ensures "timestamp" in r && ("timestamp" !in payload ==> r["timestamp"] == stamp)
  {
    map["id" := Decimal(now), "timestamp" := stamp] + payload
  }

  /** `addToHistory`: the new entry goes first, and one entry is dropped
      from the end when that makes the list longer than ten; a list of at
      most ten stays at most ten. */
  function OnAddToHistory(s: FlowState, payload: map<string, string>, now: nat, stamp: string): (r: FlowState)
    ensures |r.history| > 0 && r.history[0] == HistoryRecord(payload, now, stamp)
    ensures r.history[1..] <= s.history
    ensures |s.history| < HistoryLimit ==> r.history == [HistoryRecord(payload, now, stamp)] + s.history
    ensures |s.history| <= HistoryLimit ==> |r.history| <= HistoryLimit
    ensures |s.history| >= HistoryLimit ==> |r.history| == |s.history|
    ensures r == s.(history := r.history)
  {
    var h := [HistoryRecord(payload, now, stamp)] + s.history;
    assert h[1..] == s.history;
    s.(history := if |h| > HistoryLimit then h[..|h| - 1] else h)
  }

  /** `resetFlow`: nodes, edges, texts, running/saving flags and the saved
      tracker go back to their initial values; the saved queries, the
      current query id, the history and the other flags stay. */
  function OnResetFlow(s: FlowState): (r: FlowState)
    ensures r.nodes == InitialNodes && r.edges == InitialEdges
    ensures r.inputText == "" && r.outputText == "" && r.lastSavedText == ""
    ensures !r.isFlowRunning && !r.isSaving && !r.isSaved
    ensures r.savedQueries == s.savedQueries && r.currentQueryId == s.currentQueryId
    ensures r.history == s.history
    ensures r.savedQueriesLoading == s.savedQueriesLoading && r.savedQueriesError == s.savedQueriesError
    ensures r.deleteLoading == s.deleteLoading && r.updateLoading == s.updateLoading
    ensures r.editDialogOpen == s.editDialogOpen
  {
    s.(nodes := InitialNodes, edges := InitialEdges, inputText := "", outputText := "",
       isFlowRunning := false, isSaving := false, isSaved := false, lastSavedText := "")
  }

  /** `askAI.fulfilled`: the response becomes the output text and node
      `'2'`'s value, the pair is no longer saved, the run is over, and one
      history entry is put first with no cap on the length. */
  function OnAskAIFulfilled(s: FlowState, response: string, model: string, now: nat, stamp: string): (r: FlowState)
    ensures r.outputText == response
    ensures ValueWritten(r.nodes, s.nodes, "2", response)
    ensures HasNode(s.nodes, "2") ==> NodeValue(r.nodes, "2") == Some(response)
    ensures forall id :: id != "2" ==> NodeValue(r.nodes, id) == NodeValue(s.nodes, id)
    ensures !r.isSaved && !r.isFlowRunning
    ensures |r.history| == |s.history| + 1 && r.history[1..] == s.history
    ensures "prompt" in r.history[0] && r.history[0]["prompt"] == s.inputText
    ensures "response" in r.history[0] && r.history[0]["response"] == response
    ensures r == s.(nodes := r.nodes, outputText := response, isSaved := false,
                    isFlowRunning := false, history := r.history)
    ensures Mirrored(s) ==> Mirrored(r)
  {
    var entry := map["id" := Decimal(now), "timestamp" := stamp, "prompt" := s.inputText,
                     "response" := response, "model" := model];
    s.(isFlowRunning := false, outputText := response, nodes := WriteNodeValue(s.nodes, "2", response),
       isSaved := false, history := [entry] + s.history)
  }

  /** The record `saveData.fulfilled` adds for a new id. */
  function NewSavedQuery(s: FlowState, id: string, time: int): SavedQuery {
    SavedQuery(id, Some(s.inputText), Some(s.outputText), time)
  }

  /** `saveData.fulfilled`: the pair is saved with the current prompt as the
      last saved text and the id as the current query; one record is put
      first only when the id is truthy and no record has it yet. */
  function OnSaveDataFulfilled(s: FlowState, savedId: Option<string>, time: int): (r: FlowState)
    ensures r.isSaved && !r.isSaving
    ensures r.lastSavedText == s.inputText && r.currentQueryId == savedId
    ensures Truthy(savedId) && !HasQuery(s.savedQueries, savedId.value) ==>
      r.savedQueries == [NewSavedQuery(s, savedId.value, time)] + s.savedQueries
    ensures !(Truthy(savedId) && !HasQuery(s.savedQueries, savedId.value)) ==>
      r.savedQueries == s.savedQueries
    ensures Truthy(savedId) ==> HasQuery(r.savedQueries, savedId.value)
    ensures r == s.(isSaving := false, isSaved := true, lastSavedText := s.inputText,
                    currentQueryId := savedId, savedQueries := r.savedQueries)
  {
    var s1 := s.(isSaving := false, isSaved := true, lastSavedText := s.inputText, currentQueryId := savedId);
    if Truthy(savedId) && !HasQuery(s.savedQueries, savedId.value) then
      var qs := [NewSavedQuery(s, savedId.value, time)] + s.savedQueries;
      assert qs[0].id == savedId.value;
      s1.(savedQueries := qs)
    else s1
  }

  /** `deleteSavedQuery.fulfilled`: the records with that id are gone and,
      only when it was the current query, the saved tracker and the current
      query id are cleared. */
  function OnDeleteFulfilled(s: FlowState, id: string): (r: FlowState)
    ensures !r.deleteLoading
    ensures r.savedQueries == WithoutId(s.savedQueries, id)
    ensures s.currentQueryId == Some(id) ==>
      !r.isSaved && r.currentQueryId == None && r.lastSavedText == ""
    ensures s.currentQueryId != Some(id) ==>
      r.isSaved == s.isSaved && r.currentQueryId == s.currentQueryId && r.lastSavedText == s.lastSavedText
    ensures r == s.(deleteLoading := false, savedQueries := r.savedQueries, isSaved := r.isSaved,
                    currentQueryId := r.currentQueryId, lastSavedText := r.lastSavedText)
  {
    var s1 := s.(deleteLoading := false, savedQueries := WithoutId(s.savedQueries, id));
    if s.currentQueryId == Some(id) then
      s1.(isSaved := false, currentQueryId := None, lastSavedText := "")
    else s1
  }

  /** The slice's reducer: one case per action. What holds across cases
      (lifecycle flags, the mirror invariant, the saved tracker) is proved in
      `FlowProperties`. */
  function Reduce(s: FlowState, a: FlowAction): FlowState
  {
    match a
    case SetEditDialogOpen(open) => s.(editDialogOpen := open)
    case SetNodes(newNodes) => s.(nodes := newNodes)
    case SetEdges(newEdges) => s.(edges := newEdges)
    case UpdateNodeData(nodeId, patch) => OnUpdateNodeData(s, nodeId, patch)
    case SetInputText(text) => OnSetInputText(s, text)
    case SetOutputText(text) => OnSetOutputText(s, text)
    case SetSavedStatus(saved) => OnSetSavedStatus(s, saved)
    case AddToHistory(payload, now, stamp) => OnAddToHistory(s, payload, now, stamp)
    case ResetFlow => OnResetFlow(s)
    case ClearHistory => s.(history := [])
    case SetSavedQueries(queries) => s.(savedQueries := queries)
    case SetSavedQueriesLoading(flag) => s.(savedQueriesLoading := flag)
    case SetSavedQueriesError(error) => s.(savedQueriesError := error)
    case RemoveSavedQueryLocal(queryId) => s.(savedQueries := WithoutId(s.savedQueries, queryId))
    case AskAIPending => s.(isFlowRunning := true)
    case AskAIFulfilled(response, model, now, stamp) => OnAskAIFulfilled(s, response, model, now, stamp)
    case AskAIRejected => s.(isFlowRunning := false)
    case SaveDataPending => s.(isSaving := true)
    case SaveDataFulfilled(savedId, time) => OnSaveDataFulfilled(s, savedId, time)
    case SaveDataRejected => s.(isSaving := false, isSaved := false)
    case FetchSavedQueriesPending => s.(savedQueriesLoading := true, savedQueriesError := None)
    case FetchSavedQueriesFulfilled(queries) => s.(savedQueriesLoading := false, savedQueries := queries)
    case FetchSavedQueriesRejected(message) => s.(savedQueriesLoading := false, savedQueriesError := Some(message))
    case DeleteSavedQueryPending => s.(deleteLoading := true)
    case DeleteSavedQueryFulfilled(queryId) => OnDeleteFulfilled(s, queryId)
    case DeleteSavedQueryRejected(message) => s.(deleteLoading := false, savedQueriesError := Some(message))
  }

  /** The store applying actions one after another, in dispatch order. */
  function ReduceAll(s: FlowState, actions: seq<FlowAction>): FlowState
    decreases |actions|
  {
    if actions == [] then s else ReduceAll(Reduce(s, actions[0]), actions[1..])
  }

  lemma {:induction false} ReduceAllAppend(s: FlowState, xs: seq<FlowAction>, ys: seq<FlowAction>)
    ensures ReduceAll(s, xs + ys) == ReduceAll(ReduceAll(s, xs), ys)
    decreases |xs|
  {
    if xs == [] {
      assert xs + ys == ys;
    } else {
      assert (xs + ys)[1..] == xs[1..] + ys;
      ReduceAllAppend(Reduce(s, xs[0]), xs[1..], ys);
    }
  }

  /** One more dispatched action extends the run by one step. */
  lemma ReduceAllSnoc(s: FlowState, xs: seq<FlowAction>, a: FlowAction)
    ensures ReduceAll(s, xs + [a]) == Reduce(ReduceAll(s, xs), a)
  {
    ReduceAllAppend(s, xs, [a]);
    var t := ReduceAll(s, xs);
    assert ReduceAll(t, [a]) == ReduceAll(Reduce(t, a), [a][1..]);
  }

  lemma ReduceAllSingle(s: FlowState, a: FlowAction)
    ensures ReduceAll(s, [a]) == Reduce(s, a)
  {
    assert [a][1..] == [];
  }

  // The cases of `Reduce` one at a time, so that a proof about a run of
  // actions need not unfold the whole reducer at every step.

  /** The actions that write neither the nodes nor the two texts. */
  predicate KeepsNodesAndTexts(a: FlowAction) {
    !(a.SetNodes? || a.UpdateNodeData? || a.SetInputText? || a.SetOutputText? || a.ResetFlow? || a.AskAIFulfilled?)
  }

  lemma ReduceKeepsNodesAndTexts(s: FlowState, a: FlowAction)
    requires KeepsNodesAndTexts(a)
    ensures Reduce(s, a).nodes == s.nodes
    ensures Reduce(s, a).inputText == s.inputText && Reduce(s, a).outputText == s.outputText
  {
    match a
    case SetSavedStatus(saved) => ReduceSetSavedStatus(s, saved);
    case AddToHistory(payload, now, stamp) => ReduceAddToHistory(s, payload, now, stamp);
    case SaveDataFulfilled(savedId, time) => ReduceSaveDataFulfilled(s, savedId, time);
    case DeleteSavedQueryFulfilled(queryId) => ReduceDeleteFulfilled(s, queryId);
    case RemoveSavedQueryLocal(queryId) => ReduceRemoveSavedQueryLocal(s, queryId);
    case _ =>
  }

  lemma ReduceSetNodes(s: FlowState, newNodes: seq<Node>)
    ensures Reduce(s, SetNodes(newNodes)) == s.(nodes := newNodes)
  {
  }

  lemma ReduceUpdateNodeData(s: FlowState, nodeId: string, patch: map<string, string>)
    ensures Reduce(s, UpdateNodeData(nodeId, patch)) == OnUpdateNodeData(s, nodeId, patch)
  {
  }

  lemma ReduceSetInputText(s: FlowState, x: string)
    ensures Reduce(s, SetInputText(x)) == OnSetInputText(s, x)
  {
  }

  lemma ReduceSetOutputText(s: FlowState, x: string)
    ensures Reduce(s, SetOutputText(x)) == OnSetOutputText(s, x)
  {
  }

  lemma ReduceSetSavedStatus(s: FlowState, saved: bool)
    ensures Reduce(s, SetSavedStatus(saved)) == OnSetSavedStatus(s, saved)
  {
  }

  lemma ReduceAddToHistory(s: FlowState, payload: map<string, string>, now: nat, stamp: string)
    ensures Reduce(s, AddToHistory(payload, now, stamp)) == OnAddToHistory(s, payload, now, stamp)
  {
  }

  lemma ReduceResetFlow(s: FlowState)
    ensures Reduce(s, ResetFlow) == OnResetFlow(s)
  {
  }

  lemma ReduceRemoveSavedQueryLocal(s: FlowState, queryId: string)
    ensures Reduce(s, RemoveSavedQueryLocal(queryId)) == s.(savedQueries := WithoutId(s.savedQueries, queryId))
  {
  }

  lemma ReduceAskAIFulfilled(s: FlowState, response: string, model: string, now: nat, stamp: string)
    ensures Reduce(s, AskAIFulfilled(response, model, now, stamp)) == OnAskAIFulfilled(s, response, model, now, stamp)
  {
  }

  lemma ReduceAskAIPending(s: FlowState)
    ensures Reduce(s, AskAIPending) == s.(isFlowRunning := true)
  {
  }

  lemma ReduceAskAIRejected(s: FlowState)
    ensures Reduce(s, AskAIRejected) == s.(isFlowRunning := false)
  {
  }

  lemma ReduceSaveDataPending(s: FlowState)
    ensures Reduce(s, SaveDataPending) == s.(isSaving := true)
  {
  }

  lemma ReduceSaveDataRejected(s: FlowState)
    ensures Reduce(s, SaveDataRejected) == s.(isSaving := false, isSaved := false)
  {
  }

  lemma ReduceSaveDataFulfilled(s: FlowState, savedId: Option<string>, time: int)
    ensures Reduce(s, SaveDataFulfilled(savedId, time)) == OnSaveDataFulfilled(s, savedId, time)
  {
  }

  lemma ReduceFetchPending(s: FlowState)
    ensures Reduce(s, FetchSavedQueriesPending) == s.(savedQueriesLoading := true, savedQueriesError := None)
  {
  }

  lemma ReduceFetchFulfilled(s: FlowState, queries: seq<SavedQuery>)
    ensures Reduce(s, FetchSavedQueriesFulfilled(queries)) == s.(savedQueriesLoading := false, savedQueries := queries)
  {
  }

  lemma ReduceFetchRejected(s: FlowState, message: string)
    ensures Reduce(s, FetchSavedQueriesRejected(message)) == s.(savedQueriesLoading := false, savedQueriesError := Some(message))
  {
  }

  lemma ReduceDeletePending(s: FlowState)
    ensures Reduce(s, DeleteSavedQueryPending) == s.(deleteLoading := true)
  {
  }

  lemma ReduceDeleteRejected(s: FlowState, message: string)
    ensures Reduce(s, DeleteSavedQueryRejected(message)) == s.(deleteLoading := false, savedQueriesError := Some(message))
  {
  }

  lemma ReduceDeleteFulfilled(s: FlowState, queryId: string)
    ensures Reduce(s, DeleteSavedQueryFulfilled(queryId)) == OnDeleteFulfilled(s, queryId)
  {
    if s.currentQueryId == Some(queryId) {
    } else {
    }
  }

  // ---------------------------------------------------------------------
  // The slice as its case reducers run: fields changed in place
  // ---------------------------------------------------------------------

  /** The slice's state object; each method is one case reducer (or one
      remote operation's lifecycle action) and is proved to leave the state
      that `Reduce` gives for that action. */
  class Store {
    var nodes: seq<Node>
    var edges: seq<Edge>
    var inputText: string
    var outputText: string
    var isFlowRunning: bool
    var isSaving: bool
    var isSaved: bool
    var lastSavedText: string
    var history: seq<HistoryEntry>
    var savedQueries: seq<SavedQuery>
    var currentQueryId: Option<string>
    var savedQueriesLoading: bool
    var savedQueriesError: Option<string>
    var deleteLoading: bool
    var updateLoading: bool
    var editDialogOpen: bool

    function State(): FlowState
      reads this
    {
      FlowState(nodes, edges, inputText, outputText, isFlowRunning, isSaving, isSaved,
                lastSavedText, history, savedQueries, currentQueryId, savedQueriesLoading,
                savedQueriesError, deleteLoading, updateLoading, editDialogOpen)
    }

    constructor ()
      ensures State() == InitialState
    {
      nodes, edges, inputText, outputText := InitialNodes, InitialEdges, "", "";
      isFlowRunning, isSaving, isSaved, lastSavedText := false, false, false, "";
      history, savedQueries, currentQueryId := [], [], None;
      savedQueriesLoading, savedQueriesError, deleteLoading := false, None, false;
      updateLoading, editDialogOpen := false, false;
    }

    method SetEditDialogOpen(open: bool)
      modifies this
      ensures State() == old(State()).(editDialogOpen := open)
    {
      editDialogOpen := open;
    }

    method SetNodes(newNodes: seq<Node>)
      modifies this
      ensures State() == old(State()).(nodes := newNodes)
    {
      nodes := newNodes;
    }

    method SetEdges(newEdges: seq<Edge>)
      modifies this
      ensures State() == old(State()).(edges := newEdges)
    {
      edges := newEdges;
    }

    /** Writes `data.value` of the node `findIndex` finds, if any. */
    method WriteValue(id: string, value: string)
      modifies this
      ensures State() == old(State()).(nodes := WriteNodeValue(old(nodes), id, value))
    {
      var i := IndexOf(nodes, id);
      if i != -1 {
        nodes := nodes[i := nodes[i].(data := nodes[i].data["value" := value])];
      }
    }

    method UpdateNodeData(nodeId: string, patch: map<string, string>)
      modifies this
      ensures State() == OnUpdateNodeData(old(State()), nodeId, patch)
    {
      var i := IndexOf(nodes, nodeId);
      if i != -1 {
        nodes := nodes[i := nodes[i].(data := nodes[i].data + patch)];
        if nodeId == "1" && "value" in patch {
          WriteInput(patch["value"]);
        }
        if nodeId == "2" && "value" in patch {
          outputText := patch["value"];
        }
      }
    }

    /** The prompt becomes `x`; a prompt other than the last saved one
        clears `isSaved`. */
    method WriteInput(x: string)
      modifies this
      ensures State() == old(State()).(inputText := x, isSaved := old(isSaved) && x == old(lastSavedText))
    {
      inputText := x;
      if inputText != lastSavedText {
        isSaved := false;
      }
    }

    method SetInputText(x: string)
      modifies this
      ensures State() == OnSetInputText(old(State()), x)
    {
      WriteInput(x);
      WriteValue("1", x);
    }

    method SetOutputText(x: string)
      modifies this
      ensures State() == OnSetOutputText(old(State()), x)
    {
      outputText := x;
      WriteValue("2", x);
    }

    method SetSavedStatus(saved: bool)
      modifies this
      ensures State() == OnSetSavedStatus(old(State()), saved)
    {
      isSaved := saved;
      if saved {
        lastSavedText := inputText;
      }
    }

    method AddToHistory(payload: map<string, string>, now: nat, stamp: string)
      modifies this
      ensures State() == OnAddToHistory(old(State()), payload, now, stamp)
    {
      history := [HistoryRecord(payload, now, stamp)] + history;
      if |history| > HistoryLimit {
        history := history[..|history| - 1];
      }
    }

    method ResetFlow()
      modifies this
      ensures State() == OnResetFlow(old(State()))
    {
      nodes, edges := InitialNodes, InitialEdges;
      inputText, outputText := "", "";
      ClearTracker();
    }

    /** The run and save flags drop and the saved tracker is emptied. */
    method ClearTracker()
      modifies this
      ensures State() == old(State()).(isFlowRunning := false, isSaving := false, isSaved := false, lastSavedText := "")
    {
      isFlowRunning, isSaving := false, false;
      isSaved, lastSavedText := false, "";
    }

    method ClearHistory()
      modifies this
      ensures State() == old(State()).(history := [])
    {
      history := [];
    }

    method SetSavedQueries(queries: seq<SavedQuery>)
      modifies this
      ensures State() == old(State()).(savedQueries := queries)
    {
      savedQueries := queries;
    }

    method SetSavedQueriesLoading(flag: bool)
      modifies this
      ensures State() == old(State()).(savedQueriesLoading := flag)
    {
      savedQueriesLoading := flag;
    }

    method SetSavedQueriesError(error: Option<string>)
      modifies this
      ensures State() == old(State()).(savedQueriesError := error)
    {
      savedQueriesError := error;
    }

    method RemoveSavedQueryLocal(queryId: string)
      modifies this
      ensures State() == old(State()).(savedQueries := WithoutId(old(savedQueries), queryId))
    {
      savedQueries := WithoutId(savedQueries, queryId);
    }

    method AskAIPending()
      modifies this
      ensures State() == old(State()).(isFlowRunning := true)
    {
      isFlowRunning := true;
    }

    method AskAIFulfilled(response: string, model: string, now: nat, stamp: string)
      modifies this
      ensures State() == OnAskAIFulfilled(old(State()), response, model, now, stamp)
    {
      isFlowRunning := false;
      SetOutputText(response);
      isSaved := false;
      history := [map["id" := Decimal(now), "timestamp" := stamp, "prompt" := inputText,
                      "response" := response, "model" := model]] + history;
    }

    method AskAIRejected()
      modifies this
      ensures State() == old(State()).(isFlowRunning := false)
    {
      isFlowRunning := false;
    }

    method SaveDataPending()
      modifies this
      ensures State() == old(State()).(isSaving := true)
    {
      isSaving := true;
    }

    method SaveDataFulfilled(savedId: Option<string>, time: int)
      modifies this
      ensures State() == OnSaveDataFulfilled(old(State()), savedId, time)
    {
      MarkSaved(savedId);
      if savedId.Some? && savedId.value != "" {
        var present := HasQuery(savedQueries, savedId.value);
        if !present {
          savedQueries := [SavedQuery(savedId.value, Some(inputText), Some(outputText), time)] + savedQueries;
        }
      }
    }

    /** The save is over and the current prompt is the saved one, under
        `savedId`. */
    method MarkSaved(savedId: Option<string>)
      modifies this
      ensures State() == old(State()).(isSaving := false, isSaved := true, lastSavedText := old(inputText),
                                       currentQueryId := savedId)
    {
      isSaving, isSaved := false, true;
      lastSavedText, currentQueryId := inputText, savedId;
    }

    method SaveDataRejected()
      modifies this
      ensures State() == old(State()).(isSaving := false, isSaved := false)
    {
      isSaving := false;
      isSaved := false;
    }

    method FetchSavedQueriesPending()
      modifies this
      ensures State() == old(State()).(savedQueriesLoading := true, savedQueriesError := None)
    {
      savedQueriesLoading := true;
      savedQueriesError := None;
    }

    method FetchSavedQueriesFulfilled(queries: seq<SavedQuery>)
      modifies this
      ensures State() == old(State()).(savedQueriesLoading := false, savedQueries := queries)
    {
      savedQueriesLoading := false;
      savedQueries := queries;
    }

    method FetchSavedQueriesRejected(message: string)
      modifies this
      ensures State() == old(State()).(savedQueriesLoading := false, savedQueriesError := Some(message))
    {
      savedQueriesLoading := false;
      savedQueriesError := Some(message);
    }

    method DeleteSavedQueryPending()
      modifies this
      ensures State() == old(State()).(deleteLoading := true)
    {
      deleteLoading := true;
    }

    method DeleteSavedQueryFulfilled(queryId: string)
      modifies this
      ensures State() == OnDeleteFulfilled(old(State()), queryId)
    {
      deleteLoading := false;
      savedQueries := WithoutId(savedQueries, queryId);
      if currentQueryId == Some(queryId) {
        ForgetCurrentQuery();
      }
    }

    /** No query is current any more and nothing counts as saved. */
    method ForgetCurrentQuery()
      modifies this
      ensures State() == old(State()).(isSaved := false, currentQueryId := None, lastSavedText := "")
    {
      isSaved, currentQueryId, lastSavedText := false, None, "";
    }

    method DeleteSavedQueryRejected(message: string)
      modifies this
      ensures State() == old(State()).(deleteLoading := false, savedQueriesError := Some(message))
    {
      deleteLoading := false;
      savedQueriesError := Some(message);
    }
  }
}
