/**
 * The list logic of the `SavedQueriesColumn` component: the search filter
 * and timestamp ordering of the saved queries, the "time ago" label, the
 * per-row deleting spinner, and the actions its delete and load handlers
 * dispatch to the flow slice.
 */
module SavedQueriesColumn {
  import opened Util
  import opened FlowSlice
  import FlowProperties

  // ---------------------------------------------------------------------
  // Search
  // ---------------------------------------------------------------------

  /** `field?.toLowerCase().includes(term.toLowerCase())`: a missing field
      never matches. */
  predicate FieldMatches(field: Option<string>, term: string) {
    field.Some? && Contains(Lower(field.value), Lower(term))
  }

  predicate Matches(q: SavedQuery, term: string) {
    FieldMatches(q.prompt, term) || FieldMatches(q.response, term)
  }

  /** The search step: the queries whose prompt or response contains the
      term, ignoring case, in their stored order. */
  function Search(qs: seq<SavedQuery>, term: string): (r: seq<SavedQuery>)
    ensures forall q :: q in r <==> q in qs && Matches(q, term)
    ensures forall q :: multiset(r)[q] == if Matches(q, term) then multiset(qs)[q] else 0
    ensures IsSubsequence(r, qs)
  {
    Filter(qs, (q: SavedQuery) => Matches(q, term))
  }

  /** The search ignores the case of the term. */
  lemma SearchIgnoresTermCase(qs: seq<SavedQuery>, term: string)
    ensures Search(qs, Lower(term)) == Search(qs, term)
  {
    LowerIdempotent(term);
    FilterSameKeep(qs, (q: SavedQuery) => Matches(q, Lower(term)), (q: SavedQuery) => Matches(q, term));
  }

  /** With an empty term every query that has a prompt or a response is
      shown, and only those. */
  lemma EmptyTermKeepsFilled(qs: seq<SavedQuery>)
    ensures forall q :: q in Search(qs, "") <==> q in qs && (q.prompt.Some? || q.response.Some?)
    ensures forall q :: multiset(Search(qs, ""))[q] == if q.prompt.Some? || q.response.Some? then multiset(qs)[q] else 0
  {
    forall q | q in qs
      ensures Matches(q, "") <==> (q.prompt.Some? || q.response.Some?)
    {
      assert Lower("") == "";
      if q.prompt.Some? {
        assert OccursAt(Lower(q.prompt.value), "", 0);
      }
      if q.response.Some? {
        assert OccursAt(Lower(q.response.value), "", 0);
      }
    }
  }

  // ---------------------------------------------------------------------
  // Ordering
  // ---------------------------------------------------------------------

  /** The comparator puts `a` before `b` (returns a negative number). Any
      filter value other than `oldest` orders newest first. */
  predicate Before(a: SavedQuery, b: SavedQuery, filter: string) {
    if filter == "oldest" then a.timestamp < b.timestamp else a.timestamp > b.timestamp
  }

  /** No query comes after one the comparator puts after it. */
  predicate SortedBy(qs: seq<SavedQuery>, filter: string) {
    forall i, j :: 0 <= i < j < |qs| ==> !Before(qs[j], qs[i], filter)
  }

  /** Puts `q` after the queries that go strictly before it and before the
      rest, so that it keeps its place among equal timestamps. */
  function Insert(q: SavedQuery, sorted: seq<SavedQuery>, filter: string): (r: seq<SavedQuery>)
    requires SortedBy(sorted, filter)
    ensures SortedBy(r, filter)
    ensures multiset(r) == multiset(sorted) + multiset{q}
    ensures |r| == |sorted| + 1
  {
    if sorted == [] || !Before(sorted[0], q, filter) then
      [q] + sorted
    else
      var rest := Insert(q, sorted[1..], filter);
      assert sorted == [sorted[0]] + sorted[1..];
      InsertHeadFirst(q, sorted, rest, filter);
      SortedCons(sorted[0], rest, filter);
      [sorted[0]] + rest
  }

  /** Nothing inserted behind the head of a sorted list goes before it. */
  lemma InsertHeadFirst(q: SavedQuery, sorted: seq<SavedQuery>, rest: seq<SavedQuery>, filter: string)
    requires sorted != [] && SortedBy(sorted, filter) && Before(sorted[0], q, filter)
    requires multiset(rest) == multiset(sorted[1..]) + multiset{q}
    ensures forall k :: 0 <= k < |rest| ==> !Before(rest[k], sorted[0], filter)
  {
    forall k | 0 <= k < |rest|
      ensures !Before(rest[k], sorted[0], filter)
    {
      assert rest[k] in multiset(rest);
      if rest[k] != q {
        assert rest[k] in multiset(sorted[1..]);
        var m :| 0 <= m < |sorted[1..]| && sorted[1..][m] == rest[k];
        assert sorted[m + 1] == rest[k];
      }
    }
  }

  lemma SortedCons(x: SavedQuery, rest: seq<SavedQuery>, filter: string)
    requires SortedBy(rest, filter)
    requires forall k :: 0 <= k < |rest| ==> !Before(rest[k], x, filter)
    ensures SortedBy([x] + rest, filter)
  {
    var r := [x] + rest;
    forall i, j | 0 <= i < j < |r|
      ensures !Before(r[j], r[i], filter)
    {
      assert r[j] == rest[j - 1];
      if i > 0 {
        assert r[i] == rest[i - 1];
      }
    }
  }

  /** The `sort` with the timestamp comparator; `Insert` keeps it stable. */
  function Sort(qs: seq<SavedQuery>, filter: string): (r: seq<SavedQuery>)
    ensures SortedBy(r, filter)
    ensures multiset(r) == multiset(qs)
    ensures |r| == |qs|
    decreases |qs|
  {
    if qs == [] then []
    else
      assert qs == [qs[0]] + qs[1..];
      Insert(qs[0], Sort(qs[1..], filter), filter)
  }

  /** `filteredQueries`: the search, then the ordering. */
  function FilteredQueries(qs: seq<SavedQuery>, term: string, filter: string): seq<SavedQuery> {
    Sort(Search(qs, term), filter)
  }

  /** What the list shows is a reordering of a subsequence of the stored
      queries, holds exactly the matching ones, and is ordered by the
      filter; so "Showing" never exceeds "Total". */
  lemma FilteredQueriesSpec(qs: seq<SavedQuery>, term: string, filter: string)
    ensures var r := FilteredQueries(qs, term, filter);
      multiset(r) == multiset(Search(qs, term)) && IsSubsequence(Search(qs, term), qs) &&
      (forall q :: q in r <==> q in qs && Matches(q, term)) &&
      SortedBy(r, filter) &&
      |r| <= |qs|
  {
    var m := Search(qs, term);
    var r := FilteredQueries(qs, term, filter);
    forall q
      ensures q in r <==> q in m
    {
      assert q in r <==> q in multiset(r);
      assert q in m <==> q in multiset(m);
    }
    assert |m| <= |qs| by {
      assert m == Filter(qs, (q: SavedQuery) => Matches(q, term));
    }
  }

  // ---------------------------------------------------------------------
  // Time ago
  // ---------------------------------------------------------------------

  /** The bucket a time difference falls in. */
  datatype TimeAgo = JustNow | Minutes(n: nat) | Hours(n: nat) | Days(n: nat)

  /** `Math.floor((now - past) / 60000)`; Dafny's division by a positive
      divisor is the floor. */
  function DiffInMinutes(now: int, past: int): int {
    (now - past) / 60000
  }

  /** The buckets of `getTimeAgo`, on the floored minute count. */
  function Bucket(m: int): (r: TimeAgo)
    ensures r == JustNow <==> m < 1
    ensures r.Minutes? <==> 1 <= m < 60
    ensures r.Hours? <==> 60 <= m < 1440
    ensures r.Days? <==> 1440 <= m
    ensures r.Minutes? ==> r.n == m
    ensures r.Hours? ==> 1 <= r.n < 24 && r.n * 60 <= m < (r.n + 1) * 60
    ensures r.Days? ==> 1 <= r.n && r.n * 1440 <= m < (r.n + 1) * 1440
  {
    if m < 1 then JustNow
    else if m < 60 then Minutes(m)
    else if m < 1440 then Hours(m / 60)
    else Days(m / 1440)
  }

  function Label(t: TimeAgo): string {
    match t
    case JustNow => "Just now"
    case Minutes(n) => Decimal(n) + "m ago"
    case Hours(n) => Decimal(n) + "h ago"
    case Days(n) => Decimal(n) + "d ago"
  }

  /** `getTimeAgo(timestamp)` at time `now`. */
  function GetTimeAgo(now: int, past: int): string {
    Label(Bucket(DiffInMinutes(now, past)))
  }

  /** `d + suffix` for digits `d` and a five-letter suffix. */
  lemma SuffixAt(d: string, suffix: string)
    requires |suffix| == 5
    ensures (d + suffix)[|d + suffix| - 5..] == suffix
    ensures (d + suffix)[..|d + suffix| - 5] == d
  {
  }

  /** Different buckets get different labels: the text on the row tells the
      bucket and its count back. */
  lemma LabelInjective(t1: TimeAgo, t2: TimeAgo)
    requires Label(t1) == Label(t2)
    ensures t1 == t2
  {
    var l := Label(t1);
    if t1.JustNow? || t2.JustNow? {
      assert l[|l| - 1] == if t1.JustNow? then 'w' else 'o';
      assert l[|l| - 1] == if t2.JustNow? then 'w' else 'o';
    } else {
      var s1 := if t1.Minutes? then "m ago" else if t1.Hours? then "h ago" else "d ago";
      var s2 := if t2.Minutes? then "m ago" else if t2.Hours? then "h ago" else "d ago";
      SuffixAt(Decimal(t1.n), s1);
      SuffixAt(Decimal(t2.n), s2);
      assert s1 == l[|l| - 5..] == s2;
      DecimalInjective(t1.n, t2.n);
    }
  }

  /** The label never overstates the elapsed time and understates it by
      less than one of its units. */
  lemma TimeAgoBounds(now: int, past: int)
    ensures var m := DiffInMinutes(now, past);
      (GetTimeAgo(now, past) == "Just now" <==> now - past < 60000) &&
      forall n: nat ::
        (GetTimeAgo(now, past) == Label(Minutes(n)) ==> n * 60000 <= now - past < (n + 1) * 60000) &&
        (GetTimeAgo(now, past) == Label(Hours(n)) ==> n * 3600000 <= now - past < (n + 1) * 3600000) &&
        (GetTimeAgo(now, past) == Label(Days(n)) ==> n * 86400000 <= now - past < (n + 1) * 86400000)
  {
    var m := DiffInMinutes(now, past);
    var b := Bucket(m);
    assert m * 60000 <= now - past < (m + 1) * 60000;
    assert GetTimeAgo(now, past) == "Just now" <==> b == JustNow by {
      if b != JustNow && GetTimeAgo(now, past) == "Just now" {
        LabelInjective(b, JustNow);
      }
    }
    forall n: nat
      ensures GetTimeAgo(now, past) == Label(Minutes(n)) ==> n * 60000 <= now - past < (n + 1) * 60000
      ensures GetTimeAgo(now, past) == Label(Hours(n)) ==> n * 3600000 <= now - past < (n + 1) * 3600000
      ensures GetTimeAgo(now, past) == Label(Days(n)) ==> n * 86400000 <= now - past < (n + 1) * 86400000
    {
      if GetTimeAgo(now, past) == Label(Minutes(n)) {
        LabelInjective(b, Minutes(n));
      }
      if GetTimeAgo(now, past) == Label(Hours(n)) {
        LabelInjective(b, Hours(n));
        assert n * 60 <= m < (n + 1) * 60;
      }
      if GetTimeAgo(now, past) == Label(Days(n)) {
        LabelInjective(b, Days(n));
        assert n * 1440 <= m < (n + 1) * 1440;
      }
    }
  }

  // ---------------------------------------------------------------------
  // The deleting spinner
  // ---------------------------------------------------------------------

  /** `isQueryDeleting(id)`: a delete is in flight and the row is the
      selected query. */
  predicate IsQueryDeleting(deleteLoading: bool, selected: Option<SavedQuery>, id: string) {
    deleteLoading && selected.Some? && selected.value.id == id
  }

  /** The spinner shows on at most one row, and only while a delete is in
      flight. */
  lemma AtMostOneDeleting(deleteLoading: bool, selected: Option<SavedQuery>, a: string, b: string)
    requires IsQueryDeleting(deleteLoading, selected, a)
    ensures deleteLoading && selected.Some?
    ensures IsQueryDeleting(deleteLoading, selected, b) <==> a == b
  {
  }

  // ---------------------------------------------------------------------
  // handleDelete
  // ---------------------------------------------------------------------

  /** How the remote delete settled. */
  datatype DeleteOutcome = Deleted | DeleteFailed(message: string)

  /** How the re-fetch after a failed delete settled. */
  datatype FetchOutcome = Fetched(queries: seq<SavedQuery>) | FetchFailed(message: string)

  function FetchSettle(refetch: FetchOutcome): FlowAction {
    match refetch
    case Fetched(queries) => FetchSavedQueriesFulfilled(queries)
    case FetchFailed(message) => FetchSavedQueriesRejected(message)
  }

  /** What `handleDelete(id)` dispatches: nothing unless confirmed; then the
      optimistic removal, the delete thunk, and, when it fails, one
      re-fetch of the list. */
  function DeleteActions(id: string, confirmed: bool, outcome: DeleteOutcome, refetch: FetchOutcome): seq<FlowAction> {
    if !confirmed then []
    else
      match outcome
      case Deleted =>
        [RemoveSavedQueryLocal(id)] + [DeleteSavedQueryPending] + [DeleteSavedQueryFulfilled(id)]
      case DeleteFailed(message) =>
        [RemoveSavedQueryLocal(id)] + [DeleteSavedQueryPending] + [DeleteSavedQueryRejected(message)] +
        [FetchSavedQueriesPending] + [FetchSettle(refetch)]
  }

  /** The removal goes first, then the delete, and the list is re-fetched
      exactly once when the delete fails and never otherwise; unconfirmed,
      nothing is dispatched. */
  lemma DeleteOrder(id: string, confirmed: bool, outcome: DeleteOutcome, refetch: FetchOutcome)
    ensures var acts := DeleteActions(id, confirmed, outcome, refetch);
      (!confirmed <==> acts == []) &&
      (confirmed ==> |acts| >= 3 && acts[0] == RemoveSavedQueryLocal(id) && acts[1] == DeleteSavedQueryPending) &&
      multiset(acts)[FetchSavedQueriesPending] == (if confirmed && outcome.DeleteFailed? then 1 else 0)
  {
    if confirmed {
      match outcome
      case Deleted =>
      case DeleteFailed(message) =>
        var settle := FetchSettle(refetch);
        assert settle != FetchSavedQueriesPending;
        assert multiset([settle])[FetchSavedQueriesPending] == 0;
    }
  }

  lemma DeleteSucceededSteps(s: FlowState, id: string, refetch: FetchOutcome)
    ensures ReduceAll(s, DeleteActions(id, true, Deleted, refetch)) ==
      OnDeleteFulfilled(s.(savedQueries := WithoutId(s.savedQueries, id), deleteLoading := true), id)
  {
    var a1, a2, a3 := RemoveSavedQueryLocal(id), DeleteSavedQueryPending, DeleteSavedQueryFulfilled(id);
    var s1 := s.(savedQueries := WithoutId(s.savedQueries, id));
    var s2 := s1.(deleteLoading := true);
    ReduceAllSingle(s, a1);
    ReduceRemoveSavedQueryLocal(s, id);
    ReduceAllSnoc(s, [a1], a2);
    ReduceDeletePending(s1);
    ReduceAllSnoc(s, [a1] + [a2], a3);
    ReduceDeleteFulfilled(s2, id);
  }

  /** A confirmed delete that succeeds leaves the list without that id,
      the rest in order, and no delete in flight. */
  lemma DeleteSucceeded(s: FlowState, id: string, refetch: FetchOutcome)
    ensures var r := ReduceAll(s, DeleteActions(id, true, Deleted, refetch));
      r.savedQueries == WithoutId(s.savedQueries, id) && !HasQuery(r.savedQueries, id) &&
      IsSubsequence(r.savedQueries, s.savedQueries) && !r.deleteLoading
  {
    DeleteSucceededSteps(s, id, refetch);
    FlowProperties.WithoutIdIdempotent(s.savedQueries, id);
    WithoutIdSpec(s.savedQueries, id);
  }

  lemma DeleteFailedSteps(s: FlowState, id: string, message: string, refetch: FetchOutcome)
    ensures ReduceAll(s, DeleteActions(id, true, DeleteFailed(message), refetch)) ==
      Reduce(s.(savedQueries := WithoutId(s.savedQueries, id), deleteLoading := false,
                savedQueriesError := None, savedQueriesLoading := true), FetchSettle(refetch))
  {
    var a1, a2, a3, a4 := RemoveSavedQueryLocal(id), DeleteSavedQueryPending, DeleteSavedQueryRejected(message), FetchSavedQueriesPending;
    var s1 := s.(savedQueries := WithoutId(s.savedQueries, id));
    var s2 := s1.(deleteLoading := true);
    var s3 := s2.(deleteLoading := false, savedQueriesError := Some(message));
    ReduceAllSingle(s, a1);
    ReduceRemoveSavedQueryLocal(s, id);
    ReduceAllSnoc(s, [a1], a2);
    ReduceDeletePending(s1);
    ReduceAllSnoc(s, [a1] + [a2], a3);
    ReduceDeleteRejected(s2, message);
    ReduceAllSnoc(s, [a1] + [a2] + [a3], a4);
    ReduceFetchPending(s3);
    ReduceAllSnoc(s, [a1] + [a2] + [a3] + [a4], FetchSettle(refetch));
  }

  /** A failed delete is rolled back by the re-fetch: the list becomes the
      server's, and the delete's error is cleared by the re-fetch. When the
      re-fetch fails too, the record stays hidden and the error is the
      re-fetch's. */
  lemma DeleteFailedRollsBack(s: FlowState, id: string, message: string, refetch: FetchOutcome)
    ensures var r := ReduceAll(s, DeleteActions(id, true, DeleteFailed(message), refetch));
      !r.deleteLoading && !r.savedQueriesLoading &&
      (refetch.Fetched? ==> r.savedQueries == refetch.queries && r.savedQueriesError == None) &&
      (refetch.FetchFailed? ==>
        r.savedQueries == WithoutId(s.savedQueries, id) && r.savedQueriesError == Some(refetch.message))
  {
    DeleteFailedSteps(s, id, message, refetch);
    var s4 := s.(savedQueries := WithoutId(s.savedQueries, id), deleteLoading := false,
                 savedQueriesError := None, savedQueriesLoading := true);
    match refetch {
      case Fetched(queries) => ReduceFetchFulfilled(s4, queries);
      case FetchFailed(m) => ReduceFetchRejected(s4, m);
    }
  }

  method HandleDelete(store: Store, id: string, confirmed: bool, outcome: DeleteOutcome, refetch: FetchOutcome)
    modifies store
    ensures store.State() == ReduceAll(old(store.State()), DeleteActions(id, confirmed, outcome, refetch))
  {
    if !confirmed {
      return;
    }
    ghost var s := store.State();
    match outcome {
      case Deleted =>
        DeleteSucceededSteps(s, id, refetch);
        store.RemoveSavedQueryLocal(id);
        store.DeleteSavedQueryPending();
        store.DeleteSavedQueryFulfilled(id);
      case DeleteFailed(message) =>
        DeleteFailedSteps(s, id, message, refetch);
        store.RemoveSavedQueryLocal(id);
        store.DeleteSavedQueryPending();
        store.DeleteSavedQueryRejected(message);
        store.FetchSavedQueriesPending();
        ghost var s4 := store.State();
        match refetch {
          case Fetched(queries) =>
            ReduceFetchFulfilled(s4, queries);
            store.FetchSavedQueriesFulfilled(queries);
          case FetchFailed(m) =>
            ReduceFetchRejected(s4, m);
            store.FetchSavedQueriesRejected(m);
        }
    }
  }

  // ---------------------------------------------------------------------
  // handleLoadQuery
  // ---------------------------------------------------------------------

  /** What `handleLoadQuery(q)` dispatches: both texts, then both nodes. */
  function LoadQueryActions(q: SavedQuery): seq<FlowAction>
    requires q.prompt.Some? && q.response.Some?
  {
    [SetInputText(q.prompt.value)] + [SetOutputText(q.response.value)] +
    [UpdateNodeData("1", map["value" := q.prompt.value])] +
    [UpdateNodeData("2", map["value" := q.response.value])]
  }

  lemma LoadQuerySteps(s: FlowState, q: SavedQuery)
    requires q.prompt.Some? && q.response.Some?
    ensures ReduceAll(s, LoadQueryActions(q)) ==
      OnUpdateNodeData(
        OnUpdateNodeData(OnSetOutputText(OnSetInputText(s, q.prompt.value), q.response.value),
                         "1", map["value" := q.prompt.value]),
        "2", map["value" := q.response.value])
  {
    var p, x := q.prompt.value, q.response.value;
    var a1, a2, a3, a4 := SetInputText(p), SetOutputText(x),
                          UpdateNodeData("1", map["value" := p]), UpdateNodeData("2", map["value" := x]);
    var s1 := OnSetInputText(s, p);
    var s2 := OnSetOutputText(s1, x);
    var s3 := OnUpdateNodeData(s2, "1", map["value" := p]);
    ReduceAllSingle(s, a1);
    ReduceSetInputText(s, p);
    ReduceAllSnoc(s, [a1], a2);
    ReduceSetOutputText(s1, x);
    ReduceAllSnoc(s, [a1] + [a2], a3);
    ReduceUpdateNodeData(s2, "1", map["value" := p]);
    ReduceAllSnoc(s, [a1] + [a2] + [a3], a4);
    ReduceUpdateNodeData(s3, "2", map["value" := x]);
  }

  /** Loading a query makes its prompt and response the two texts and the
      two nodes' values (so the mirror holds whatever it was before), and
      keeps the pair saved only if the prompt is the last saved one. */
  lemma LoadQueryEffect(s: FlowState, q: SavedQuery)
    requires q.prompt.Some? && q.response.Some?
    requires HasNode(s.nodes, "1") && HasNode(s.nodes, "2")
    ensures var r := ReduceAll(s, LoadQueryActions(q));
      r.inputText == q.prompt.value && r.outputText == q.response.value &&
      NodeValue(r.nodes, "1") == Some(q.prompt.value) && NodeValue(r.nodes, "2") == Some(q.response.value) &&
      Mirrored(r) &&
      r.isSaved == (s.isSaved && q.prompt.value == s.lastSavedText) &&
      r.savedQueries == s.savedQueries && r.lastSavedText == s.lastSavedText
  {
    LoadQuerySteps(s, q);
    var p, x := q.prompt.value, q.response.value;
    var s1 := OnSetInputText(s, p);
    var s2 := OnSetOutputText(s1, x);
    IndexOfSameIds(s1.nodes, s.nodes, "1");
    IndexOfSameIds(s1.nodes, s.nodes, "2");
    IndexOfSameIds(s2.nodes, s1.nodes, "1");
    IndexOfSameIds(s2.nodes, s1.nodes, "2");
    UpdateNodeValue(s2, "1", p);
    var s3 := OnUpdateNodeData(s2, "1", map["value" := p]);
    UpdateNodeValue(s3, "2", x);
  }

  method HandleLoadQuery(store: Store, q: SavedQuery)
    requires q.prompt.Some? && q.response.Some?
    modifies store
    ensures store.State() == ReduceAll(old(store.State()), LoadQueryActions(q))
  {
    LoadQuerySteps(store.State(), q);
    store.SetInputText(q.prompt.value);
    store.SetOutputText(q.response.value);
    store.UpdateNodeData("1", map["value" := q.prompt.value]);
    store.UpdateNodeData("2", map["value" := q.response.value]);
  }
}
