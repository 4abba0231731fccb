/**
 * The `api` slice of the Redux store: a global loading flag, a global error
 * value, and a table of in-flight requests keyed by a per-call request id.
 *
 * `ApiState` and `Reduce` give the slice as values; the class `RequestTable`
 * is the slice as the reducers run it, changing its fields in place, and each
 * of its methods is proved to agree with `Reduce`.
 */
module ApiSlice {
  import opened Util

  /** `{ type, loading, error }`, stored under a request id. */
  datatype RequestRecord = RequestRecord(kind: string, loading: bool, error: Option<string>)

  datatype ApiState = ApiState(
    loading: bool,
    error: Option<string>,
    lastRequestId: Option<string>,
    requests: map<string, RequestRecord>)

  const InitialApi := ApiState(false, None, None, map[])

  datatype ApiAction =
    | SetLoading(flag: bool)
    | SetError(message: Option<string>)
    | ClearError
    | StartRequest(requestId: string, kind: string)
    | CompleteRequest(requestId: string, failure: Option<string>)

  /** `startRequest`: a fresh pending record at `id`, replacing any record
      already there; no other key is touched. */
  function OnStartRequest(s: ApiState, id: string, kind: string): (r: ApiState)
    ensures r.requests.Keys == s.requests.Keys + {id}
    ensures r.requests[id] == RequestRecord(kind, true, None)
    ensures forall k :: k in s.requests && k != id ==> r.requests[k] == s.requests[k]
    ensures r.loading == s.loading && r.error == s.error && r.lastRequestId == s.lastRequestId
  {
    s.(requests := s.requests[id := RequestRecord(kind, true, None)])
  }

  /** `completeRequest`: a missing key is a no-op; a truthy error keeps the
      record, no longer loading, with that error; otherwise the record is
      deleted. Keys other than `id` are never touched. */
  function OnCompleteRequest(s: ApiState, id: string, failure: Option<string>): (r: ApiState)
    ensures id !in s.requests ==> r == s
    ensures id in s.requests && Truthy(failure) ==>
      id in r.requests && r.requests[id] == s.requests[id].(loading := false, error := failure)
    ensures id in s.requests && !Truthy(failure) ==> id !in r.requests
    ensures forall k :: k != id ==> (k in r.requests <==> k in s.requests)
    ensures forall k :: k != id && k in s.requests ==> r.requests[k] == s.requests[k]
    ensures r.loading == s.loading && r.error == s.error && r.lastRequestId == s.lastRequestId
  {
    if id in s.requests then
      var done := s.requests[id].(loading := false);
      if Truthy(failure) then s.(requests := s.requests[id := done.(error := failure)])
      else s.(requests := s.requests - {id})
    else s
  }

  /** The slice's reducer. `setError`/`clearError`/`setLoading` touch only
      their own field; the request cases touch only `requests`. */
  function Reduce(s: ApiState, a: ApiAction): (r: ApiState)
    ensures a.SetError? ==> r == s.(error := a.message)
    ensures a.ClearError? ==> r == s.(error := None)
    ensures a.SetLoading? ==> r == s.(loading := a.flag)
    ensures a.StartRequest? || a.CompleteRequest? ==> r == s.(requests := r.requests)
  {
    match a
    case SetLoading(flag) => s.(loading := flag)
    case SetError(message) => s.(error := message)
    case ClearError => s.(error := None)
    case StartRequest(id, kind) => OnStartRequest(s, id, kind)
    case CompleteRequest(id, failure) => OnCompleteRequest(s, id, failure)
  }

  function ReduceAll(s: ApiState, actions: seq<ApiAction>): ApiState
    decreases |actions|
  {
    if actions == [] then s else ReduceAll(Reduce(s, actions[0]), actions[1..])
  }

  lemma {:induction false} ReduceAllAppend(s: ApiState, xs: seq<ApiAction>, ys: seq<ApiAction>)
    ensures ReduceAll(s, xs + ys) == ReduceAll(ReduceAll(s, xs), ys)
    decreases |xs|
  {
    if xs == [] {
      assert xs + ys == ys;
    } else {
      assert (xs + ys)[1..] == xs[1..] + ys;
      ReduceAllAppend(Reduce(s, xs[0]), xs[1..], ys);
    }
  }

  lemma ReduceAllTwo(s: ApiState, a: ApiAction, b: ApiAction)
    ensures ReduceAll(s, [a, b]) == Reduce(Reduce(s, a), b)
  {
    var s1 := Reduce(s, a);
    assert [a, b][1..] == [b];
    assert ReduceAll(s1, [b]) == ReduceAll(Reduce(s1, b), []);
  }

  // ---------------------------------------------------------------------
  // Selectors
  // ---------------------------------------------------------------------

  /** `selectRequestLoading(k)`: looks the record up by exactly the key given. */
  function RequestLoading(s: ApiState, k: string): bool {
    k in s.requests && s.requests[k].loading
  }

  /** `selectRequestError(k)`; an absent record and a record without error
      both read as `None`. */
  function RequestError(s: ApiState, k: string): Option<string> {
    if k in s.requests then s.requests[k].error else None
  }

  /** The per-kind query of the design ("is any request of this kind
      pending"); the code has no such selector, see `KindLookupMissesGeneratedKeys`. */
  predicate KindPending(s: ApiState, kind: string) {
    exists k :: k in s.requests && s.requests[k].kind == kind && s.requests[k].loading
  }

  lemma StartThenLoading(s: ApiState, id: string, kind: string)
    ensures RequestLoading(Reduce(s, StartRequest(id, kind)), id)
    ensures RequestError(Reduce(s, StartRequest(id, kind)), id) == None
    ensures KindPending(Reduce(s, StartRequest(id, kind)), kind)
  {
    var r := Reduce(s, StartRequest(id, kind));
    assert id in r.requests && r.requests[id].kind == kind;
  }

  /** A started request that completes without error leaves no record, so
      its key no longer reads as loading; if the key was new, the whole
      table is back where it was. */
  lemma StartThenSucceed(s: ApiState, id: string, kind: string, failure: Option<string>)
    requires !Truthy(failure)
    ensures !RequestLoading(ReduceAll(s, [StartRequest(id, kind), CompleteRequest(id, failure)]), id)
    ensures id !in s.requests ==>
      ReduceAll(s, [StartRequest(id, kind), CompleteRequest(id, failure)]) == s
  {
    var s1 := Reduce(s, StartRequest(id, kind));
    var s2 := Reduce(s1, CompleteRequest(id, failure));
    ReduceAllTwo(s, StartRequest(id, kind), CompleteRequest(id, failure));
    if id !in s.requests {
      assert s2.requests == s.requests;
    }
  }

  /** A started request that fails keeps its record with the error and no
      longer reads as loading. */
  lemma StartThenFail(s: ApiState, id: string, kind: string, failure: Option<string>)
    requires Truthy(failure)
    ensures var r := ReduceAll(s, [StartRequest(id, kind), CompleteRequest(id, failure)]);
      !RequestLoading(r, id) && RequestError(r, id) == failure
      && r.requests == s.requests[id := RequestRecord(kind, false, failure)]
  {
    var s1 := Reduce(s, StartRequest(id, kind));
    ReduceAllTwo(s, StartRequest(id, kind), CompleteRequest(id, failure));
  }

  /** Completions of different keys commute: neither can cancel the other. */
  lemma CompletionsCommute(s: ApiState, id1: string, e1: Option<string>, id2: string, e2: Option<string>)
    requires id1 != id2
    ensures Reduce(Reduce(s, CompleteRequest(id1, e1)), CompleteRequest(id2, e2))
         == Reduce(Reduce(s, CompleteRequest(id2, e2)), CompleteRequest(id1, e1))
  {
    var a := Reduce(Reduce(s, CompleteRequest(id1, e1)), CompleteRequest(id2, e2));
    var b := Reduce(Reduce(s, CompleteRequest(id2, e2)), CompleteRequest(id1, e1));
    assert a.requests.Keys == b.requests.Keys;
    assert forall k :: k in a.requests ==> a.requests[k] == b.requests[k];
  }

  // ---------------------------------------------------------------------
  // The loading lookup by kind name
  // ---------------------------------------------------------------------

  /** Every stored key has the `<kind>_<time>_<random>` shape of a generated
      request id, which always contains an underscore. */
  predicate GeneratedKeys(s: ApiState) {
    forall k :: k in s.requests ==> '_' in k
  }

  /** An action that keeps `GeneratedKeys`: anything but a start under a key
      without an underscore. */
  predicate KeepsGeneratedKeys(a: ApiAction) {
    a.StartRequest? ==> '_' in a.requestId
  }

  lemma {:induction false} GeneratedKeysPreserved(s: ApiState, actions: seq<ApiAction>)
    requires GeneratedKeys(s)
    requires forall i :: 0 <= i < |actions| ==> KeepsGeneratedKeys(actions[i])
    ensures GeneratedKeys(ReduceAll(s, actions))
    decreases |actions|
  {
    if actions != [] {
      var s1 := Reduce(s, actions[0]);
      assert GeneratedKeys(s1) by {
        assert KeepsGeneratedKeys(actions[0]);
      }
      GeneratedKeysPreserved(s1, actions[1..]);
    }
  }

  /** The kind names `askAI` and `saveData` contain no underscore, so while
      every key is a generated id, looking them up never reads as loading,
      even when a request of that kind is pending. */
  lemma KindLookupMissesGeneratedKeys(s: ApiState, kind: string)
    requires GeneratedKeys(s)
    requires '_' !in kind
    ensures !RequestLoading(s, kind)
  {
  }

  /** From the initial state, through any actions that start requests only
      under generated ids, the lookups by kind name stay false. */
  lemma KindLookupAlwaysFalse(actions: seq<ApiAction>)
    requires forall i :: 0 <= i < |actions| ==> KeepsGeneratedKeys(actions[i])
    ensures !RequestLoading(ReduceAll(InitialApi, actions), "askAI")
    ensures !RequestLoading(ReduceAll(InitialApi, actions), "saveData")
  {
    GeneratedKeysPreserved(InitialApi, actions);
    var r := ReduceAll(InitialApi, actions);
    assert "askAI" !in r.requests by {
      assert '_' !in "askAI";
    }
    assert "saveData" !in r.requests by {
      assert '_' !in "saveData";
    }
  }

  // ---------------------------------------------------------------------
  // The slice as the reducers run it: fields changed in place
  // ---------------------------------------------------------------------

  class RequestTable {
    var loading: bool
    var error: Option<string>
    var lastRequestId: Option<string>
    var requests: map<string, RequestRecord>

    function State(): ApiState
      reads this
    {
      ApiState(loading, error, lastRequestId, requests)
    }

    constructor ()
      ensures State() == InitialApi
    {
      loading, error, lastRequestId, requests := false, None, None, map[];
    }

    method SetLoading(flag: bool)
      modifies this
      ensures State() == Reduce(old(State()), ApiAction.SetLoading(flag))
    {
      loading := flag;
    }

    method SetError(message: Option<string>)
      modifies this
      ensures State() == Reduce(old(State()), ApiAction.SetError(message))
    {
      error := message;
    }

    method ClearError()
      modifies this
      ensures State() == Reduce(old(State()), ApiAction.ClearError)
    {
      error := None;
    }

    method StartRequest(id: string, kind: string)
      modifies this
      ensures State() == Reduce(old(State()), ApiAction.StartRequest(id, kind))
    {
      requests := requests[id := RequestRecord(kind, true, None)];
    }

    method CompleteRequest(id: string, failure: Option<string>)
      modifies this
      ensures State() == Reduce(old(State()), ApiAction.CompleteRequest(id, failure))
    {
      if id in requests {
        requests := requests[id := requests[id].(loading := false)];
        if failure.Some? && failure.value != "" {
          requests := requests[id := requests[id].(error := failure)];
        } else {
          requests := requests - {id};
        }
      }
    }

    /** The store's `dispatch` for this slice. */
    method Dispatch(a: ApiAction)
      modifies this
      ensures State() == Reduce(old(State()), a)
    {
      match a
      case SetLoading(flag) => SetLoading(flag);
      case SetError(message) => SetError(message);
      case ClearError => ClearError();
      case StartRequest(id, kind) => StartRequest(id, kind);
      case CompleteRequest(id, failure) => CompleteRequest(id, failure);
    }
  }
}
