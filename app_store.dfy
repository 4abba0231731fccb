/**
 * The root state: the `flow` and `api` slices side by side, each updated
 * by its own reducer. An action is addressed to one slice, so a run of
 * mixed actions is the same as running each slice on its own part of it.
 */
module AppStore {
  import FlowSlice
  import ApiSlice

  datatype AppState = AppState(flow: FlowSlice.FlowState, api: ApiSlice.ApiState)

  const InitialApp := AppState(FlowSlice.InitialState, ApiSlice.InitialApi)

  /** An action as dispatched to the store, tagged with its slice. */
  datatype Dispatched = Flow(fa: FlowSlice.FlowAction) | Api(aa: ApiSlice.ApiAction)

  function Step(st: AppState, d: Dispatched): AppState {
    match d
    case Flow(a) => st.(flow := FlowSlice.Reduce(st.flow, a))
    case Api(a) => st.(api := ApiSlice.Reduce(st.api, a))
  }

  function Run(st: AppState, ds: seq<Dispatched>): AppState
    decreases |ds|
  {
    if ds == [] then st else Run(Step(st, ds[0]), ds[1..])
  }

  /** The flow actions of a run, in order. */
  function FlowPart(ds: seq<Dispatched>): (r: seq<FlowSlice.FlowAction>)
    ensures |r| <= |ds|
    ensures forall a :: a in r <==> Flow(a) in ds
  {
    if ds == [] then []
    else if ds[0].Flow? then [ds[0].fa] + FlowPart(ds[1..])
    else FlowPart(ds[1..])
  }

  /** The api actions of a run, in order. */
  function ApiPart(ds: seq<Dispatched>): (r: seq<ApiSlice.ApiAction>)
    ensures |r| <= |ds|
    ensures forall a :: a in r <==> Api(a) in ds
  {
    if ds == [] then []
    else if ds[0].Api? then [ds[0].aa] + ApiPart(ds[1..])
    else ApiPart(ds[1..])
  }

  /** Splitting a run splits its flow actions the same way. */
  lemma {:induction false} FlowPartAppend(xs: seq<Dispatched>, ys: seq<Dispatched>)
    ensures FlowPart(xs + ys) == FlowPart(xs) + FlowPart(ys)
    decreases |xs|
  {
    if xs != [] {
      assert (xs + ys)[0] == xs[0];
      assert (xs + ys)[1..] == xs[1..] + ys;
      FlowPartAppend(xs[1..], ys);
    } else {
      assert xs + ys == ys;
    }
  }

  /** Splitting a run splits its api actions the same way. */
  lemma {:induction false} ApiPartAppend(xs: seq<Dispatched>, ys: seq<Dispatched>)
    ensures ApiPart(xs + ys) == ApiPart(xs) + ApiPart(ys)
    decreases |xs|
  {
    if xs != [] {
      assert (xs + ys)[0] == xs[0];
      assert (xs + ys)[1..] == xs[1..] + ys;
      ApiPartAppend(xs[1..], ys);
    } else {
      assert xs + ys == ys;
    }
  }

  /** The slices do not see each other's actions: a mixed run leaves each
      slice where its own actions alone would. */
  lemma {:induction false} RunSplits(st: AppState, ds: seq<Dispatched>)
    ensures Run(st, ds).flow == FlowSlice.ReduceAll(st.flow, FlowPart(ds))
    ensures Run(st, ds).api == ApiSlice.ReduceAll(st.api, ApiPart(ds))
    decreases |ds|
  {
    if ds != [] {
      var st1 := Step(st, ds[0]);
      RunSplits(st1, ds[1..]);
      var rest := ds[1..];
      if ds[0].Flow? {
        assert FlowPart(ds) == [ds[0].fa] + FlowPart(rest);
        assert ([ds[0].fa] + FlowPart(rest))[1..] == FlowPart(rest);
        assert ApiPart(ds) == ApiPart(rest);
      } else {
        assert ApiPart(ds) == [ds[0].aa] + ApiPart(rest);
        assert ([ds[0].aa] + ApiPart(rest))[1..] == ApiPart(rest);
        assert FlowPart(ds) == FlowPart(rest);
      }
    }
  }

  lemma {:induction false} RunAppend(st: AppState, xs: seq<Dispatched>, ys: seq<Dispatched>)
    ensures Run(st, xs + ys) == Run(Run(st, xs), ys)
    decreases |xs|
  {
    if xs == [] {
      assert xs + ys == ys;
    } else {
      assert (xs + ys)[1..] == xs[1..] + ys;
      RunAppend(Step(st, xs[0]), xs[1..], ys);
    }
  }

  lemma RunSnoc(st: AppState, xs: seq<Dispatched>, d: Dispatched)
    ensures Run(st, xs + [d]) == Step(Run(st, xs), d)
  {
    RunAppend(st, xs, [d]);
    assert Run(Run(st, xs), [d]) == Run(Step(Run(st, xs), d), []);
  }
}
