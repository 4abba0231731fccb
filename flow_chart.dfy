/**
 * The deterministic part of the `FlowChart` component: how store nodes are
 * projected into the nodes the canvas draws, which buttons are enabled, and
 * the store actions its handlers dispatch.
 *
 * Each handler is given twice: as the list of actions it dispatches (a
 * function, about which the lemmas speak) and as a method that dispatches
 * them one by one to the two slice objects, proved to end where running
 * that list ends.
 */
module FlowChart {
  import opened Util
  import opened FlowSlice
  import ApiSlice
  import opened AppStore
  import opened Thunks
  import FlowProperties

  // ---------------------------------------------------------------------
  // Projection of store nodes into render nodes
  // ---------------------------------------------------------------------

  /** A value in a render node's `data`: the store's strings, plus the flags
      and the input handler the projection adds. */
  datatype Attr = Text(text: string) | Flag(on: bool) | InputHandler

  datatype RenderNode = RenderNode(id: string, kind: string, position: Position, data: map<string, Attr>)

  /** What the canvas is given: the projected nodes and the store's edges. */
  datatype View = View(nodes: seq<RenderNode>, edges: seq<Edge>)

  function Lift(data: map<string, string>): map<string, Attr> {
    map k | k in data :: Text(data[k])
  }

  /** The keys the projection writes into a role node's `data`. */
  predicate IsRoleKey(k: string) {
    k == "nodeType" || k == "onChange" || k == "isRunning"
  }

  /** The input node becomes an `inputNode` with the change handler, the
      output node an `outputNode` without one; both get the running flag.
      Any other node is drawn as stored. */
  function ProjectNode(n: Node, running: bool): RenderNode {
    if n.id == "1" then
      RenderNode(n.id, "inputNode", n.position,
        Lift(n.data)["nodeType" := Text("input")]["onChange" := InputHandler]["isRunning" := Flag(running)])
    else if n.id == "2" then
      RenderNode(n.id, "outputNode", n.position,
        Lift(n.data)["nodeType" := Text("output")]["isRunning" := Flag(running)])
    else RenderNode(n.id, n.kind, n.position, Lift(n.data))
  }

  function ProjectNodes(nodes: seq<Node>, running: bool): (r: seq<RenderNode>)
    ensures |r| == |nodes|
    ensures forall i :: 0 <= i < |nodes| ==> r[i] == ProjectNode(nodes[i], running)
  {
    seq(|nodes|, i requires 0 <= i < |nodes| => ProjectNode(nodes[i], running))
  }

  /** The running flag both role nodes show: the slice's flag or the
      request lookup by the kind name `askAI`. */
  function IsRunning(s: FlowState, api: ApiSlice.ApiState): bool {
    s.isFlowRunning || ApiSlice.RequestLoading(api, "askAI")
  }

  function Render(s: FlowState, api: ApiSlice.ApiState): View {
    View(ProjectNodes(s.nodes, IsRunning(s, api)), s.edges)
  }

  /** The projection keeps the list's length, order, ids and positions, and
      passes the edges through unchanged. */
  lemma RenderKeepsLayout(s: FlowState, api: ApiSlice.ApiState)
    ensures var v := Render(s, api);
      |v.nodes| == |s.nodes| && v.edges == s.edges &&
      forall i :: 0 <= i < |s.nodes| ==> v.nodes[i].id == s.nodes[i].id && v.nodes[i].position == s.nodes[i].position
  {
  }

  /** Per role: the node type, `nodeType`, the handler only on the input
      node, the running flag on both, every other data key carried over;
      other nodes are drawn exactly as stored. */
  lemma ProjectNodeRoles(n: Node, running: bool)
    ensures var r := ProjectNode(n, running);
      (forall k :: k in n.data && !IsRoleKey(k) ==> k in r.data && r.data[k] == Text(n.data[k])) &&
      (n.id == "1" ==>
        r.kind == "inputNode" && r.data["nodeType"] == Text("input") &&
        r.data["onChange"] == InputHandler && r.data["isRunning"] == Flag(running)) &&
      (n.id == "2" ==>
        r.kind == "outputNode" && r.data["nodeType"] == Text("output") &&
        r.data["isRunning"] == Flag(running) &&
        forall k :: k in r.data ==> r.data[k] != InputHandler) &&
      (n.id != "1" && n.id != "2" ==>
        r.kind == n.kind && r.data.Keys == n.data.Keys &&
        forall k :: k in r.data ==> r.data[k] == Text(n.data[k]))
  {
  }

  /** While every request key is a generated id, the lookup by kind adds
      nothing: the nodes show the slice's own running flag. */
  lemma RunningIsFlowFlag(s: FlowState, api: ApiSlice.ApiState)
    requires ApiSlice.GeneratedKeys(api)
    ensures IsRunning(s, api) == s.isFlowRunning
  {
    ApiSlice.KindLookupMissesGeneratedKeys(api, "askAI");
  }

  // ---------------------------------------------------------------------
  // Buttons
  // ---------------------------------------------------------------------

  /** The Run button's `disabled`. */
  predicate RunDisabled(s: FlowState, api: ApiSlice.ApiState) {
    s.isFlowRunning || ApiSlice.RequestLoading(api, "askAI") || IsBlank(s.inputText)
  }

  /** The Save button's `disabled`. */
  predicate SaveDisabled(s: FlowState, api: ApiSlice.ApiState) {
    s.isSaving || ApiSlice.RequestLoading(api, "saveData") || s.isSaved ||
    IsBlank(s.inputText) || IsBlank(s.outputText)
  }

  /** With generated request keys, Save is enabled exactly when nothing is
      being saved, the pair is not saved and both texts have content. */
  lemma SaveEnabledIff(s: FlowState, api: ApiSlice.ApiState)
    requires ApiSlice.GeneratedKeys(api)
    ensures !SaveDisabled(s, api) <==>
      !s.isSaving && !s.isSaved && !IsBlank(s.inputText) && !IsBlank(s.outputText)
  {
    ApiSlice.KindLookupMissesGeneratedKeys(api, "saveData");
  }

  /** With generated request keys, Run is enabled exactly when no run is
      in progress and the prompt has content. */
  lemma RunEnabledIff(s: FlowState, api: ApiSlice.ApiState)
    requires ApiSlice.GeneratedKeys(api)
    ensures !RunDisabled(s, api) <==> !s.isFlowRunning && !IsBlank(s.inputText)
  {
    ApiSlice.KindLookupMissesGeneratedKeys(api, "askAI");
  }

  // ---------------------------------------------------------------------
  // handleInputChange
  // ---------------------------------------------------------------------

  function InputChangeActions(value: string): seq<FlowAction> {
    [SetInputText(value), UpdateNodeData("1", map["value" := value])]
  }

  /** Typing `value` makes it the prompt and node `'1'`'s value, keeps the
      mirror, clears `isSaved` iff it differs from the last saved prompt,
      and leaves the response alone. */
  lemma InputChangeEffect(s: FlowState, value: string)
    ensures var r := ReduceAll(s, InputChangeActions(value));
      r.inputText == value &&
      r.isSaved == (s.isSaved && value == s.lastSavedText) &&
      r.outputText == s.outputText && r.lastSavedText == s.lastSavedText &&
      (HasNode(s.nodes, "1") ==> NodeValue(r.nodes, "1") == Some(value)) &&
      (Mirrored(s) ==> Mirrored(r))
  {
    InputChangeSteps(s, value);
    var s1 := OnSetInputText(s, value);
    var r := OnUpdateNodeData(s1, "1", map["value" := value]);
    IndexOfSameIds(r.nodes, s1.nodes, "1");
    if HasNode(s.nodes, "1") {
      IndexOfSameIds(s1.nodes, s.nodes, "1");
    }
    if Mirrored(s) {
      FlowProperties.UpdateNodeDataKeepsMirror(s1, "1", map["value" := value]);
    }
  }

  lemma InputChangeSteps(s: FlowState, value: string)
    ensures ReduceAll(s, InputChangeActions(value)) ==
      OnUpdateNodeData(OnSetInputText(s, value), "1", map["value" := value])
  {
    var s1 := OnSetInputText(s, value);
    ReduceSetInputText(s, value);
    ReduceUpdateNodeData(s1, "1", map["value" := value]);
    ReduceAllSnoc(s, [SetInputText(value)], UpdateNodeData("1", map["value" := value]));
    assert [SetInputText(value)] + [UpdateNodeData("1", map["value" := value])] == InputChangeActions(value);
    assert ReduceAll(s, [SetInputText(value)]) == s1 by {
      assert ReduceAll(s1, []) == s1;
      assert [SetInputText(value)][1..] == [];
    }
  }

  method HandleInputChange(store: Store, value: string)
    modifies store
    ensures store.State() == ReduceAll(old(store.State()), InputChangeActions(value))
  {
    InputChangeSteps(store.State(), value);
    store.SetInputText(value);
    store.UpdateNodeData("1", map["value" := value]);
  }

  // ---------------------------------------------------------------------
  // handleRunFlow
  // ---------------------------------------------------------------------

  /** The text the output node gets once the run settles. */
  function RunFlowOutput(outcome: AskOutcome): string {
    match outcome
    case AskSucceeded(response, _) => response
    case AskFailed(message) =>
      "Error: " + (if Truthy(message) then message.value else "Failed to get AI response")
  }

  /** What `handleRunFlow` dispatches. A blank prompt clears the error and
      then calls `setError`, which the component never imports: the call
      throws and nothing more is dispatched. */
  function RunFlowActions(input: string, id: string, outcome: AskOutcome, now: nat, stamp: string): seq<Dispatched> {
    if IsBlank(input) then [Api(ApiSlice.ClearError)]
    else AskAIActions(id, outcome, now, stamp) + [Flow(UpdateNodeData("2", map["value" := RunFlowOutput(outcome)]))]
  }

  lemma RunSingle(st: AppState, d: Dispatched)
    ensures Run(st, [d]) == Step(st, d)
  {
    assert [d][1..] == [];
  }

  /** A blank prompt never starts `askAI`: the only effect is the cleared
      error, and the flow slice is untouched. */
  lemma RunFlowGuard(st: AppState, input: string, id: string, outcome: AskOutcome, now: nat, stamp: string)
    requires IsBlank(input)
    ensures FlowPart(RunFlowActions(input, id, outcome, now, stamp)) == []
    ensures Run(st, RunFlowActions(input, id, outcome, now, stamp)) == st.(api := st.api.(error := None))
  {
    RunSingle(st, Api(ApiSlice.ClearError));
    assert FlowPart([Api(ApiSlice.ClearError)]) == FlowPart([]);
  }

  /** A run with content writes the response, or `Error: <message>` on
      failure, into the output text and node `'2'`; the run flag is down
      and the request record is no longer loading. */
  lemma RunFlowWritesOutput(st: AppState, input: string, id: string, outcome: AskOutcome, now: nat, stamp: string)
    requires !IsBlank(input)
    requires id !in st.api.requests
    requires HasNode(st.flow.nodes, "2")
    ensures var r := Run(st, RunFlowActions(input, id, outcome, now, stamp));
      NodeValue(r.flow.nodes, "2") == Some(RunFlowOutput(outcome)) &&
      r.flow.outputText == RunFlowOutput(outcome) &&
      !r.flow.isFlowRunning &&
      !ApiSlice.RequestLoading(r.api, id)
  {
    var thunk := AskAIActions(id, outcome, now, stamp);
    var patch := map["value" := RunFlowOutput(outcome)];
    var d := Flow(UpdateNodeData("2", patch));
    RunAppend(st, thunk, [d]);
    AskAIPairsRequest(st, id, outcome, now, stamp);
    var mid := Run(st, thunk);
    assert HasNode(mid.flow.nodes, "2") by {
      if outcome.AskSucceeded? {
        assert NodeValue(mid.flow.nodes, "2") == Some(outcome.response);
      }
    }
    RunSingle(mid, d);
    ReduceUpdateNodeData(mid.flow, "2", patch);
    UpdateNodeValue(mid.flow, "2", RunFlowOutput(outcome));
  }

  method HandleRunFlow(store: Store, table: ApiSlice.RequestTable, now: nat, random: string,
                       outcome: AskOutcome, doneTime: nat, stamp: string) returns (threw: bool)
    modifies store, table
    ensures threw == IsBlank(old(store.inputText))
    ensures AppState(store.State(), table.State()) ==
      Run(old(AppState(store.State(), table.State())),
          RunFlowActions(old(store.inputText), RequestId("askAI", now, random), outcome, doneTime, stamp))
  {
    ghost var st0 := AppState(store.State(), table.State());
    var input := store.inputText;
    if IsBlank(input) {
      table.ClearError();
      RunSingle(st0, Api(ApiSlice.ClearError));
      return true;
    }
    threw := false;
    var id := RequestId("askAI", now, random);
    AskAIActionsInOrder(id, outcome, doneTime, stamp);
    ghost var prev := store.State();
    store.AskAIPending();
    ReduceAskAIPending(prev);
    ghost var trace := [Flow(AskAIPending)];
    RunSingle(st0, Flow(AskAIPending));
    table.StartRequest(id, "askAI");
    RunSnoc(st0, trace, Api(ApiSlice.StartRequest(id, "askAI")));
    trace := trace + [Api(ApiSlice.StartRequest(id, "askAI"))];
    table.CompleteRequest(id, Failure(outcome));
    RunSnoc(st0, trace, Api(ApiSlice.CompleteRequest(id, Failure(outcome))));
    trace := trace + [Api(ApiSlice.CompleteRequest(id, Failure(outcome)))];
    prev := store.State();
    match outcome {
      case AskSucceeded(response, model) =>
        store.AskAIFulfilled(response, model, doneTime, stamp);
        ReduceAskAIFulfilled(prev, response, model, doneTime, stamp);
      case AskFailed(_) =>
        store.AskAIRejected();
        ReduceAskAIRejected(prev);
    }
    RunSnoc(st0, trace, Flow(AskAISettle(outcome, doneTime, stamp)));
    trace := trace + [Flow(AskAISettle(outcome, doneTime, stamp))];
    var patch := map["value" := RunFlowOutput(outcome)];
    prev := store.State();
    store.UpdateNodeData("2", patch);
    ReduceUpdateNodeData(prev, "2", patch);
    RunSnoc(st0, trace, Flow(UpdateNodeData("2", patch)));
  }

  // ---------------------------------------------------------------------
  // handleSave
  // ---------------------------------------------------------------------

  /** What `handleSave` dispatches: with either text blank, the same
      clear-then-throw as the run guard; otherwise `saveData`. */
  function SaveActions(input: string, output: string, id: string, outcome: SaveOutcome, time: int): seq<Dispatched> {
    if IsBlank(input) || IsBlank(output) then [Api(ApiSlice.ClearError)]
    else SaveDataActions(id, outcome, time)
  }

  lemma SaveGuard(st: AppState, input: string, output: string, id: string, outcome: SaveOutcome, time: int)
    requires IsBlank(input) || IsBlank(output)
    ensures FlowPart(SaveActions(input, output, id, outcome, time)) == []
    ensures Run(st, SaveActions(input, output, id, outcome, time)) == st.(api := st.api.(error := None))
  {
    RunSingle(st, Api(ApiSlice.ClearError));
    assert FlowPart([Api(ApiSlice.ClearError)]) == FlowPart([]);
  }

  /** The button and the handler agree: when Save is enabled, clicking it
      dispatches `saveData`, and a successful save disables it again. */
  lemma SaveEnabledSaves(st: AppState, id: string, outcome: SaveOutcome, time: int)
    requires !SaveDisabled(st.flow, st.api)
    requires id !in st.api.requests
    ensures SaveActions(st.flow.inputText, st.flow.outputText, id, outcome, time) == SaveDataActions(id, outcome, time)
    ensures outcome.SaveSucceeded? ==>
      SaveDisabled(Run(st, SaveActions(st.flow.inputText, st.flow.outputText, id, outcome, time)).flow,
                   Run(st, SaveActions(st.flow.inputText, st.flow.outputText, id, outcome, time)).api)
  {
    SaveDataPairsRequest(st, id, outcome, time);
  }

  method HandleSave(store: Store, table: ApiSlice.RequestTable, now: nat, random: string,
                    outcome: SaveOutcome, time: int) returns (threw: bool)
    modifies store, table
    ensures threw == (IsBlank(old(store.inputText)) || IsBlank(old(store.outputText)))
    ensures AppState(store.State(), table.State()) ==
      Run(old(AppState(store.State(), table.State())),
          SaveActions(old(store.inputText), old(store.outputText), RequestId("saveData", now, random), outcome, time))
  {
    ghost var st0 := AppState(store.State(), table.State());
    if IsBlank(store.inputText) || IsBlank(store.outputText) {
      table.ClearError();
      RunSingle(st0, Api(ApiSlice.ClearError));
      return true;
    }
    threw := false;
    var id := RequestId("saveData", now, random);
    SaveDataActionsInOrder(id, outcome, time);
    ghost var prev := store.State();
    store.SaveDataPending();
    ReduceSaveDataPending(prev);
    ghost var trace := [Flow(SaveDataPending)];
    RunSingle(st0, Flow(SaveDataPending));
    table.StartRequest(id, "saveData");
    RunSnoc(st0, trace, Api(ApiSlice.StartRequest(id, "saveData")));
    trace := trace + [Api(ApiSlice.StartRequest(id, "saveData"))];
    table.CompleteRequest(id, SaveFailure(outcome));
    RunSnoc(st0, trace, Api(ApiSlice.CompleteRequest(id, SaveFailure(outcome))));
    trace := trace + [Api(ApiSlice.CompleteRequest(id, SaveFailure(outcome)))];
    prev := store.State();
    match outcome {
      case SaveSucceeded(savedId) =>
        store.SaveDataFulfilled(savedId, time);
        ReduceSaveDataFulfilled(prev, savedId, time);
      case SaveFailed(_) =>
        store.SaveDataRejected();
        ReduceSaveDataRejected(prev);
    }
    RunSnoc(st0, trace, Flow(SaveDataSettle(outcome, time)));
  }

  // ---------------------------------------------------------------------
  // onConnect
  // ---------------------------------------------------------------------

  /** The edge a connection adds, with id `e<source>-<target>-<time>`. */
  function NewEdge(source: string, target: string, now: nat): Edge {
    Edge("e" + source + "-" + target + "-" + Decimal(now), source, target)
  }

  /** Connections between the same two nodes made at different
      milliseconds get different edge ids. */
  lemma NewEdgeIdsDiffer(source: string, target: string, n1: nat, n2: nat)
    requires n1 != n2
    ensures NewEdge(source, target, n1).id != NewEdge(source, target, n2).id
  {
    var p := "e" + source + "-" + target + "-";
    if NewEdge(source, target, n1).id == NewEdge(source, target, n2).id {
      assert Decimal(n1) == (p + Decimal(n1))[|p|..];
      assert Decimal(n2) == (p + Decimal(n2))[|p|..];
      DecimalInjective(n1, n2);
    }
  }

  /** `onConnect`: the store's edges become the old edges with the new one
      appended. */
  method OnConnect(store: Store, source: string, target: string, now: nat)
    modifies store
    ensures store.State() == old(store.State()).(edges := old(store.edges) + [NewEdge(source, target, now)])
    ensures |store.edges| == |old(store.edges)| + 1
  {
    var edges := store.edges;
    store.SetEdges(edges + [NewEdge(source, target, now)]);
  }

  // ---------------------------------------------------------------------
  // handleNodesChange
  // ---------------------------------------------------------------------

  /** One entry of the change list the canvas reports. */
  datatype NodeChange = NodeChange(kind: string, id: string, position: Option<Position>)

  /** `nodes.map(n => n.id === id ? { ...n, position } : n)`. */
  function MoveNode(nodes: seq<Node>, id: string, pos: Position): (r: seq<Node>)
    ensures |r| == |nodes|
    ensures forall i :: 0 <= i < |nodes| ==>
      r[i].id == nodes[i].id && r[i].kind == nodes[i].kind && r[i].data == nodes[i].data
    ensures forall i :: 0 <= i < |nodes| && nodes[i].id != id ==> r[i] == nodes[i]
    ensures forall i :: 0 <= i < |nodes| && nodes[i].id == id ==> r[i].position == pos
  {
    seq(|nodes|, i requires 0 <= i < |nodes| => if nodes[i].id == id then nodes[i].(position := pos) else nodes[i])
  }

  /** A change the handler lifts into the store: a position change that
      carries a position, for a node the canvas is drawing. */
  predicate Lifts(c: NodeChange, drawn: seq<RenderNode>) {
    c.kind == "position" && c.position.Some? && exists j :: 0 <= j < |drawn| && drawn[j].id == c.id
  }

  /** The `setNodes` actions dispatched for `changes`, in order. Every one
      starts from the `nodes` the handler was created with. */
  function NodesChangeActions(changes: seq<NodeChange>, nodes: seq<Node>, drawn: seq<RenderNode>): seq<FlowAction>
    decreases |changes|
  {
    if changes == [] then []
    else
      var c := changes[|changes| - 1];
      NodesChangeActions(changes[..|changes| - 1], nodes, drawn) +
      (if Lifts(c, drawn) then [SetNodes(MoveNode(nodes, c.id, c.position.value))] else [])
  }

  /** The last change that is lifted into the store, if any. */
  function LastLifted(changes: seq<NodeChange>, drawn: seq<RenderNode>): (r: Option<NodeChange>)
    ensures r.Some? ==> r.value in changes && Lifts(r.value, drawn)
    ensures r.None? <==> forall k :: 0 <= k < |changes| ==> !Lifts(changes[k], drawn)
    ensures r.Some? ==> exists k :: 0 <= k < |changes| && changes[k] == r.value && Lifts(changes[k], drawn) &&
                                    (forall j :: k < j < |changes| ==> !Lifts(changes[j], drawn))
    decreases |changes|
  {
    if changes == [] then None
    else if Lifts(changes[|changes| - 1], drawn) then Some(changes[|changes| - 1])
    else
      var n := |changes| - 1;
      var init := changes[..n];
      var r := LastLifted(init, drawn);
      assert r.None? <==> forall k :: 0 <= k < |changes| ==> !Lifts(changes[k], drawn) by {
        assert forall k :: 0 <= k < n ==> init[k] == changes[k];
      }
      assert r.Some? ==> exists k :: 0 <= k < |changes| && changes[k] == r.value && Lifts(changes[k], drawn) &&
                                     (forall j :: k < j < |changes| ==> !Lifts(changes[j], drawn)) by {
        if r.Some? {
          var k :| 0 <= k < n && init[k] == r.value && Lifts(init[k], drawn) &&
                   (forall j :: k < j < n ==> !Lifts(init[j], drawn));
          assert changes[k] == init[k];
          forall j | k < j < |changes|
            ensures !Lifts(changes[j], drawn)
          {
            if j < n {
              assert changes[j] == init[j];
            }
          }
        }
      }
      r
  }

  /** Since every dispatch starts from the same captured nodes, only the
      last lifted change survives: the store's nodes are the captured ones
      with that one node moved, and nothing else in the slice changes. */
  lemma {:induction false} LastLiftedWins(s: FlowState, changes: seq<NodeChange>, nodes: seq<Node>, drawn: seq<RenderNode>)
    ensures ReduceAll(s, NodesChangeActions(changes, nodes, drawn)) ==
      match LastLifted(changes, drawn)
      case None => s
      case Some(c) => s.(nodes := MoveNode(nodes, c.id, c.position.value))
    decreases |changes|
  {
    if changes != [] {
      var init := changes[..|changes| - 1];
      var c := changes[|changes| - 1];
      LastLiftedWins(s, init, nodes, drawn);
      if Lifts(c, drawn) {
        var a := SetNodes(MoveNode(nodes, c.id, c.position.value));
        ReduceAllSnoc(s, NodesChangeActions(init, nodes, drawn), a);
        ReduceSetNodes(ReduceAll(s, NodesChangeActions(init, nodes, drawn)), MoveNode(nodes, c.id, c.position.value));
      } else {
        assert NodesChangeActions(changes, nodes, drawn) == NodesChangeActions(init, nodes, drawn) + [];
        assert NodesChangeActions(init, nodes, drawn) + [] == NodesChangeActions(init, nodes, drawn);
      }
    }
  }

  /** Dragging keeps the mirror: a move changes positions only, so both
      texts still equal their nodes' values. */
  lemma DragKeepsMirror(s: FlowState, changes: seq<NodeChange>, drawn: seq<RenderNode>)
    requires Mirrored(s)
    ensures Mirrored(ReduceAll(s, NodesChangeActions(changes, s.nodes, drawn)))
  {
    LastLiftedWins(s, changes, s.nodes, drawn);
    var last := LastLifted(changes, drawn);
    if last.Some? {
      var moved := MoveNode(s.nodes, last.value.id, last.value.position.value);
      IndexOfSameIds(moved, s.nodes, "1");
      IndexOfSameIds(moved, s.nodes, "2");
    }
  }

  method HandleNodesChange(store: Store, changes: seq<NodeChange>, drawn: seq<RenderNode>)
    modifies store
    ensures store.State() == ReduceAll(old(store.State()), NodesChangeActions(changes, old(store.nodes), drawn))
  {
    var nodes := store.nodes;
    ghost var s0 := store.State();
    var i := 0;
    while i < |changes|
      invariant 0 <= i <= |changes|
      invariant store.State() == ReduceAll(s0, NodesChangeActions(changes[..i], nodes, drawn))
    {
      var c := changes[i];
      assert changes[..i + 1][..i] == changes[..i];
      assert changes[..i + 1][i] == c;
      var found := exists j :: 0 <= j < |drawn| && drawn[j].id == c.id;
      if c.kind == "position" && c.position.Some? && found {
        var moved := MoveNode(nodes, c.id, c.position.value);
        ghost var prev := store.State();
        store.SetNodes(moved);
        ReduceSetNodes(prev, moved);
        ReduceAllSnoc(s0, NodesChangeActions(changes[..i], nodes, drawn), SetNodes(moved));
      } else {
        assert NodesChangeActions(changes[..i + 1], nodes, drawn) == NodesChangeActions(changes[..i], nodes, drawn) + [];
        assert NodesChangeActions(changes[..i], nodes, drawn) + [] == NodesChangeActions(changes[..i], nodes, drawn);
      }
      i := i + 1;
    }
    assert changes[..i] == changes;
  }
}
