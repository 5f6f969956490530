/**
  The per-endpoint weighted evaluator. An endpoint's weight (in tenths,
  10 stands for 1.0) is judged only after a full window of new samples:
  a window of only failures lowers it by one tenth, a window of only
  successes raises it by one tenth, a mixed window leaves it alone, and
  the weight is clamped to 0..10. The endpoint is marked as having too
  many errors exactly when its weight is 0.
 */
module SamplePolicy {
  import opened Wrappers
  import I = Interfaces

  /** Number of new samples that triggers a judgment, and the size of the judged window. */
  const WindowSize: nat := 10

  /** Weight 1.0, in tenths. */
  const MaxWeight: int := 10

  /**
    An endpoint under weighted evaluation: its record (history, weight,
    status) and the number of samples added since the last judgment.
   */
  datatype WeightedEndpointStatus = WeightedEndpointStatus(endpoint: I.Endpoint, newSamples: nat)

  /** What one evaluation returns: the updated endpoint and whether weight or status changed. */
  datatype Evaluation = Evaluation(state: WeightedEndpointStatus, hasChanged: bool)

  function Weight(e: WeightedEndpointStatus): int { e.endpoint.weight }

  function StatusOf(e: WeightedEndpointStatus): I.Status { e.endpoint.status }

  /** The status that belongs with a weight: too many errors exactly at 0. */
  function StatusFor(weight: int): (st: I.Status)
    ensures st == I.TooManyErrors <==> weight == 0
  {
    if weight == 0 then I.TooManyErrors else I.NoReason
  }

  /**
    The states the evaluator can be in: the history is bounded by a
    capacity that holds at least one window, a full count of new samples
    is backed by a full window, the weight is in range and the status
    agrees with it.
   */
  ghost predicate Valid(e: WeightedEndpointStatus)
  {
    && WindowSize <= e.endpoint.capacity
    && |e.endpoint.history| <= e.endpoint.capacity
    && I.Min(e.newSamples, WindowSize) <= |e.endpoint.history|
    && 0 <= Weight(e) <= MaxWeight
    && StatusOf(e) == StatusFor(Weight(e))
  }

  /** A fresh endpoint: no samples, weight 1.0, no status reason. */
  function NewWeightedEndpoint(size: nat, url: Option<I.Url>): (e: WeightedEndpointStatus)
    ensures I.Get(e.endpoint) == [] && e.endpoint.capacity == size && e.endpoint.url == url
    ensures Weight(e) == MaxWeight && StatusOf(e) == I.NoReason && e.newSamples == 0
    ensures Valid(e) <==> WindowSize <= size
  {
    WeightedEndpointStatus(I.NewEndpoint(size, url).(weight := MaxWeight), 0)
  }

  /** Records a sample and counts it as new; weight and status wait for a judgment. */
  function Add(e: WeightedEndpointStatus, s: I.Sample): (r: WeightedEndpointStatus)
    ensures r.endpoint == I.Add(e.endpoint, s)
    ensures r.newSamples == e.newSamples + 1
    ensures Weight(r) == Weight(e) && StatusOf(r) == StatusOf(e)
    ensures Valid(e) ==> Valid(r)
  {
    WeightedEndpointStatus(I.Add(e.endpoint, s), e.newSamples + 1)
  }

  /** Records the samples in order; each counts as new. */
  function AddAll(e: WeightedEndpointStatus, xs: seq<I.Sample>): (r: WeightedEndpointStatus)
    ensures r.endpoint == I.AddAll(e.endpoint, xs)
    ensures r.newSamples == e.newSamples + |xs|
    ensures Weight(r) == Weight(e) && StatusOf(r) == StatusOf(e)
    ensures Valid(e) ==> Valid(r)
    decreases |xs|
  {
    if |xs| == 0 then e else AddAll(Add(e, xs[0]), xs[1..])
  }

  predicate AllFailed(w: seq<I.Sample>)
  {
    forall i :: 0 <= i < |w| ==> w[i].failed
  }

  predicate AllSucceeded(w: seq<I.Sample>)
  {
    forall i :: 0 <= i < |w| ==> !w[i].failed
  }

  /** The samples a judgment looks at: the most recent window. */
  function JudgedWindow(e: WeightedEndpointStatus): seq<I.Sample>
  {
    I.LastN(I.Get(e.endpoint), WindowSize)
  }

  /**
    The weight a judgment of `window` gives: one tenth lower for only
    failures, one tenth higher for only successes, clamped to 0..10.
   */
  function JudgedWeight(weight: int, window: seq<I.Sample>): (w: int)
    requires 0 <= weight <= MaxWeight
    ensures 0 <= w <= MaxWeight
    ensures AllFailed(window) ==> w == I.Max(0, weight - 1)
    ensures !AllFailed(window) && AllSucceeded(window) ==> w == I.Min(MaxWeight, weight + 1)
    ensures !AllFailed(window) && !AllSucceeded(window) ==> w == weight
  {
    if AllFailed(window) then I.Max(0, weight - 1)
    else if AllSucceeded(window) then I.Min(MaxWeight, weight + 1)
    else weight
  }

  /**
    One evaluation. Fewer than a window of new samples: nothing happens.
    Otherwise the most recent window is judged and the new-sample count
    restarts. The count restarts after a mixed window as well as after a
    uniform one; the recorded behaviour does not tell the two apart.
   */
  function Evaluate(e: WeightedEndpointStatus): (r: Evaluation)
    requires Valid(e)
    ensures Valid(r.state)
    ensures e.newSamples < WindowSize ==> r.state == e && !r.hasChanged
    ensures e.newSamples >= WindowSize ==>
      && r.state.newSamples == 0
      && r.state.endpoint == e.endpoint.(weight := Weight(r.state), status := StatusOf(r.state))
      && (Weight(r.state) == Weight(e) || Weight(r.state) == Weight(e) - 1 || Weight(r.state) == Weight(e) + 1)
    ensures r.hasChanged <==> Weight(r.state) != Weight(e)
  {
    if e.newSamples < WindowSize then Evaluation(e, false)
    else
      var w := JudgedWeight(Weight(e), JudgedWindow(e));
      var st := StatusFor(w);
      var e' := WeightedEndpointStatus(e.endpoint.(weight := w, status := st), 0);
      Evaluation(e', w != Weight(e) || st != StatusOf(e))
  }

  /**
    The evaluations a sequence of steps produces, each step recording its
    samples and then evaluating once.
   */
  function Replay(e: WeightedEndpointStatus, steps: seq<seq<I.Sample>>): (rs: seq<Evaluation>)
    requires Valid(e)
    ensures |rs| == |steps|
    decreases |steps|
  {
    if |steps| == 0 then []
    else
      var r := Evaluate(AddAll(e, steps[0]));
      [r] + Replay(r.state, steps[1..])
  }

  /** The samples of `n` failed requests. */
  function Failures(n: nat): (xs: seq<I.Sample>)
    ensures |xs| == n && AllFailed(xs)
  {
    seq(n, _ => I.Sample(true))
  }

  /** The samples of `n` successful requests. */
  function Successes(n: nat): (xs: seq<I.Sample>)
    ensures |xs| == n && AllSucceeded(xs)
  {
    seq(n, _ => I.Sample(false))
  }
}
