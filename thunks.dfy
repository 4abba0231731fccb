/**
 * The two async thunks `askAI` and `saveData`, as the actions they dispatch.
 *
 * Each thunk makes up a request id `<kind>_<time>_<random>`, dispatches its
 * own `pending` action, starts a request record under that id, and when the
 * service call settles completes the record (with the error message on
 * failure) and dispatches `fulfilled` or `rejected`. The clock and the random
 * digits are parameters; the service call is its outcome.
 */
module Thunks {
  import opened Util
  import FlowSlice
  import ApiSlice
  import opened AppStore

  // ---------------------------------------------------------------------
  // Request ids
  // ---------------------------------------------------------------------

  /** `generateRequestId(type)`: the kind, the time in decimal and the random
      digits, joined by underscores. */
  function RequestId(kind: string, now: nat, random: string): (r: string)
    ensures '_' in r
    ensures |r| > |kind| && r[..|kind| + 1] == kind + "_"
  {
    var r := kind + "_" + Decimal(now) + "_" + random;
    assert r[|kind|] == '_';
    r
  }

  /** Two strings split at their first underscore split the same way. */
  lemma SplitAtUnderscore(a: string, b: string, c: string, d: string)
    requires '_' !in a && '_' !in c
    requires a + "_" + b == c + "_" + d
    ensures a == c && b == d
  {
    var x := a + "_" + b;
    assert forall i :: 0 <= i < |a| ==> x[i] == a[i] != '_';
    assert forall i :: 0 <= i < |c| ==> x[i] == c[i] != '_';
    assert x[|a|] == '_' && x[|c|] == '_';
    assert a == x[..|a|] == c;
    assert b == x[|a| + 1..] == d;
  }

  /** Ids of kinds without an underscore determine kind, time and random
      digits: two requests started at different milliseconds, or of
      different kinds, never share a key. */
  lemma RequestIdInjective(k1: string, n1: nat, x1: string, k2: string, n2: nat, x2: string)
    requires '_' !in k1 && '_' !in k2
    requires RequestId(k1, n1, x1) == RequestId(k2, n2, x2)
    ensures k1 == k2 && n1 == n2 && x1 == x2
  {
    assert k1 + "_" + (Decimal(n1) + "_" + x1) == RequestId(k1, n1, x1);
    assert k2 + "_" + (Decimal(n2) + "_" + x2) == RequestId(k2, n2, x2);
    SplitAtUnderscore(k1, Decimal(n1) + "_" + x1, k2, Decimal(n2) + "_" + x2);
    assert '_' !in Decimal(n1) by { assert IsDigits(Decimal(n1)); }
    assert '_' !in Decimal(n2) by { assert IsDigits(Decimal(n2)); }
    SplitAtUnderscore(Decimal(n1), x1, Decimal(n2), x2);
    DecimalInjective(n1, n2);
  }

  // ---------------------------------------------------------------------
  // The dispatched actions
  // ---------------------------------------------------------------------

  /** How the `/ask-ai` call settled; a failure carries `error.message`,
      which may be missing. */
  datatype AskOutcome = AskSucceeded(response: string, model: string) | AskFailed(message: Option<string>)

  /** How the `/save` call settled; success carries the returned `id`. */
  datatype SaveOutcome = SaveSucceeded(savedId: Option<string>) | SaveFailed(message: Option<string>)

  /** The shape both thunks dispatch: flow `pending`, start, complete, flow
      `fulfilled`/`rejected`. */
  function ThunkTrace(pending: FlowSlice.FlowAction, start: ApiSlice.ApiAction,
                      complete: ApiSlice.ApiAction, settle: FlowSlice.FlowAction): seq<Dispatched> {
    [Flow(pending), Api(start), Api(complete), Flow(settle)]
  }

  lemma ThunkTraceParts(p: FlowSlice.FlowAction, st: ApiSlice.ApiAction, c: ApiSlice.ApiAction, e: FlowSlice.FlowAction)
    ensures FlowPart(ThunkTrace(p, st, c, e)) == [p, e]
    ensures ApiPart(ThunkTrace(p, st, c, e)) == [st, c]
  {
    var t := ThunkTrace(p, st, c, e);
    var t1, t2, t3 := t[1..], t[2..], t[3..];
    assert t1[1..] == t2 && t2[1..] == t3 && t3[1..] == [];
    assert FlowPart(t3) == [e] && ApiPart(t3) == [];
    assert FlowPart(t2) == [e] && ApiPart(t2) == [c];
    assert FlowPart(t1) == [e] && ApiPart(t1) == [st, c];
  }

  /** What `askAI(prompt)` dispatches under request id `id`; `now` and
      `stamp` are the clock readings the fulfilled case takes. */
  function AskAIActions(id: string, outcome: AskOutcome, now: nat, stamp: string): seq<Dispatched> {
    match outcome
    case AskSucceeded(response, model) =>
      ThunkTrace(FlowSlice.AskAIPending, ApiSlice.StartRequest(id, "askAI"),
                 ApiSlice.CompleteRequest(id, None), FlowSlice.AskAIFulfilled(response, model, now, stamp))
    case AskFailed(message) =>
      ThunkTrace(FlowSlice.AskAIPending, ApiSlice.StartRequest(id, "askAI"),
                 ApiSlice.CompleteRequest(id, message), FlowSlice.AskAIRejected)
  }

  /** What `saveData(payload)` dispatches under request id `id`; `time` is
      the timestamp the fulfilled case gives a new saved record. */
  function SaveDataActions(id: string, outcome: SaveOutcome, time: int): seq<Dispatched> {
    match outcome
    case SaveSucceeded(savedId) =>
      ThunkTrace(FlowSlice.SaveDataPending, ApiSlice.StartRequest(id, "saveData"),
                 ApiSlice.CompleteRequest(id, None), FlowSlice.SaveDataFulfilled(savedId, time))
    case SaveFailed(message) =>
      ThunkTrace(FlowSlice.SaveDataPending, ApiSlice.StartRequest(id, "saveData"),
                 ApiSlice.CompleteRequest(id, message), FlowSlice.SaveDataRejected)
  }

  /** The flow action `askAI` settles with. */
  function AskAISettle(outcome: AskOutcome, now: nat, stamp: string): FlowSlice.FlowAction {
    match outcome
    case AskSucceeded(response, model) => FlowSlice.AskAIFulfilled(response, model, now, stamp)
    case AskFailed(_) => FlowSlice.AskAIRejected
  }

  /** The flow action `saveData` settles with. */
  function SaveDataSettle(outcome: SaveOutcome, time: int): FlowSlice.FlowAction {
    match outcome
    case SaveSucceeded(savedId) => FlowSlice.SaveDataFulfilled(savedId, time)
    case SaveFailed(_) => FlowSlice.SaveDataRejected
  }

  /** The `askAI` actions one at a time, in dispatch order. */
  lemma AskAIActionsInOrder(id: string, outcome: AskOutcome, now: nat, stamp: string)
    ensures AskAIActions(id, outcome, now, stamp) ==
      [Flow(FlowSlice.AskAIPending)] + [Api(ApiSlice.StartRequest(id, "askAI"))] +
      [Api(ApiSlice.CompleteRequest(id, Failure(outcome)))] + [Flow(AskAISettle(outcome, now, stamp))]
  {
  }

  /** The `saveData` actions one at a time, in dispatch order. */
  lemma SaveDataActionsInOrder(id: string, outcome: SaveOutcome, time: int)
    ensures SaveDataActions(id, outcome, time) ==
      [Flow(FlowSlice.SaveDataPending)] + [Api(ApiSlice.StartRequest(id, "saveData"))] +
      [Api(ApiSlice.CompleteRequest(id, SaveFailure(outcome)))] + [Flow(SaveDataSettle(outcome, time))]
  {
  }

  /** The error a failed call leaves in its request record. */
  function Failure(outcome: AskOutcome): Option<string> {
    if outcome.AskFailed? then outcome.message else None
  }

  function SaveFailure(outcome: SaveOutcome): Option<string> {
    if outcome.SaveFailed? then outcome.message else None
  }

  /** Starting a fresh key and completing it: the table ends as it was, plus
      a settled record holding the error when the completion carried one. */
  lemma StartComplete(api: ApiSlice.ApiState, id: string, kind: string, failure: Option<string>)
    requires id !in api.requests
    ensures var r := ApiSlice.ReduceAll(api, [ApiSlice.StartRequest(id, kind), ApiSlice.CompleteRequest(id, failure)]);
      r.requests == (if Truthy(failure) then api.requests[id := ApiSlice.RequestRecord(kind, false, failure)]
                     else api.requests) &&
      !ApiSlice.RequestLoading(r, id) &&
      r.loading == api.loading && r.error == api.error
  {
    ApiSlice.ReduceAllTwo(api, ApiSlice.StartRequest(id, kind), ApiSlice.CompleteRequest(id, failure));
    var r1 := ApiSlice.Reduce(api, ApiSlice.StartRequest(id, kind));
    var r := ApiSlice.Reduce(r1, ApiSlice.CompleteRequest(id, failure));
    if !Truthy(failure) {
      assert r.requests == api.requests;
    } else {
      assert r.requests == api.requests[id := ApiSlice.RequestRecord(kind, false, failure)];
    }
  }

  /** `askAI` pairs one start with one completion of the same key and
      leaves no record loading; on a fresh key the table only gains the
      failed record, and the flow slice sees `pending` then the settling
      case, ending with the run flag down. */
  lemma AskAIPairsRequest(st: AppState, id: string, outcome: AskOutcome, now: nat, stamp: string)
    requires id !in st.api.requests
    ensures ApiPart(AskAIActions(id, outcome, now, stamp)) ==
      [ApiSlice.StartRequest(id, "askAI"), ApiSlice.CompleteRequest(id, Failure(outcome))]
    ensures var r := Run(st, AskAIActions(id, outcome, now, stamp));
      !ApiSlice.RequestLoading(r.api, id) &&
      r.api.requests == (if Truthy(Failure(outcome))
                         then st.api.requests[id := ApiSlice.RequestRecord("askAI", false, Failure(outcome))]
                         else st.api.requests) &&
      !r.flow.isFlowRunning
    ensures outcome.AskSucceeded? ==>
      Run(st, AskAIActions(id, outcome, now, stamp)).flow ==
        FlowSlice.OnAskAIFulfilled(st.flow.(isFlowRunning := true), outcome.response, outcome.model, now, stamp)
    ensures outcome.AskFailed? ==>
      Run(st, AskAIActions(id, outcome, now, stamp)).flow == st.flow.(isFlowRunning := false)
  {
    var t := AskAIActions(id, outcome, now, stamp);
    var f := if outcome.AskSucceeded? then FlowSlice.AskAIFulfilled(outcome.response, outcome.model, now, stamp)
             else FlowSlice.AskAIRejected;
    ThunkTraceParts(FlowSlice.AskAIPending, ApiSlice.StartRequest(id, "askAI"),
                    ApiSlice.CompleteRequest(id, Failure(outcome)), f);
    RunSplits(st, t);
    StartComplete(st.api, id, "askAI", Failure(outcome));
    FlowTwo(st.flow, FlowSlice.AskAIPending, f);
    FlowSlice.ReduceAskAIPending(st.flow);
    var s1 := st.flow.(isFlowRunning := true);
    if outcome.AskSucceeded? {
      FlowSlice.ReduceAskAIFulfilled(s1, outcome.response, outcome.model, now, stamp);
    } else {
      FlowSlice.ReduceAskAIRejected(s1);
    }
  }

  /** `saveData` pairs one start with one completion of the same key and
      leaves no record loading; the flow slice ends with the saving flag
      down, and saved exactly when the call succeeded. */
  lemma SaveDataPairsRequest(st: AppState, id: string, outcome: SaveOutcome, time: int)
    requires id !in st.api.requests
    ensures ApiPart(SaveDataActions(id, outcome, time)) ==
      [ApiSlice.StartRequest(id, "saveData"), ApiSlice.CompleteRequest(id, SaveFailure(outcome))]
    ensures var r := Run(st, SaveDataActions(id, outcome, time));
      !ApiSlice.RequestLoading(r.api, id) &&
      r.api.requests == (if Truthy(SaveFailure(outcome))
                         then st.api.requests[id := ApiSlice.RequestRecord("saveData", false, SaveFailure(outcome))]
                         else st.api.requests) &&
      !r.flow.isSaving && r.flow.isSaved == outcome.SaveSucceeded?
    ensures outcome.SaveSucceeded? ==>
      Run(st, SaveDataActions(id, outcome, time)).flow ==
        FlowSlice.OnSaveDataFulfilled(st.flow.(isSaving := true), outcome.savedId, time)
    ensures outcome.SaveFailed? ==>
      Run(st, SaveDataActions(id, outcome, time)).flow == st.flow.(isSaving := false, isSaved := false)
  {
    var t := SaveDataActions(id, outcome, time);
    var f := if outcome.SaveSucceeded? then FlowSlice.SaveDataFulfilled(outcome.savedId, time)
             else FlowSlice.SaveDataRejected;
    ThunkTraceParts(FlowSlice.SaveDataPending, ApiSlice.StartRequest(id, "saveData"),
                    ApiSlice.CompleteRequest(id, SaveFailure(outcome)), f);
    RunSplits(st, t);
    StartComplete(st.api, id, "saveData", SaveFailure(outcome));
    FlowTwo(st.flow, FlowSlice.SaveDataPending, f);
    FlowSlice.ReduceSaveDataPending(st.flow);
    var s1 := st.flow.(isSaving := true);
    if outcome.SaveSucceeded? {
      FlowSlice.ReduceSaveDataFulfilled(s1, outcome.savedId, time);
    } else {
      FlowSlice.ReduceSaveDataRejected(s1);
    }
  }

  lemma FlowTwo(s: FlowSlice.FlowState, a: FlowSlice.FlowAction, b: FlowSlice.FlowAction)
    ensures FlowSlice.ReduceAll(s, [a, b]) == FlowSlice.Reduce(FlowSlice.Reduce(s, a), b)
  {
    assert [a, b][1..] == [b];
    FlowSlice.ReduceAllSnoc(s, [a], b);
    assert [a] + [b] == [a, b];
    assert [a][1..] == [];
  }

  /** Every request id a thunk starts is a generated one, so the thunks
      keep the table's keys generated. */
  lemma ThunksKeepGeneratedKeys(kind: string, now: nat, random: string, ask: AskOutcome,
                                save: SaveOutcome, t: nat, stamp: string, time: int)
    ensures var id := RequestId(kind, now, random);
      (forall a :: a in ApiPart(AskAIActions(id, ask, t, stamp)) ==> ApiSlice.KeepsGeneratedKeys(a)) &&
      (forall a :: a in ApiPart(SaveDataActions(id, save, time)) ==> ApiSlice.KeepsGeneratedKeys(a))
  {
    var id := RequestId(kind, now, random);
    var f := if ask.AskSucceeded? then FlowSlice.AskAIFulfilled(ask.response, ask.model, t, stamp)
             else FlowSlice.AskAIRejected;
    ThunkTraceParts(FlowSlice.AskAIPending, ApiSlice.StartRequest(id, "askAI"),
                    ApiSlice.CompleteRequest(id, Failure(ask)), f);
    var g := if save.SaveSucceeded? then FlowSlice.SaveDataFulfilled(save.savedId, time)
             else FlowSlice.SaveDataRejected;
    ThunkTraceParts(FlowSlice.SaveDataPending, ApiSlice.StartRequest(id, "saveData"),
                    ApiSlice.CompleteRequest(id, SaveFailure(save)), g);
  }
}
