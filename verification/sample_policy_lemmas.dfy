/**
  What the weighted evaluator does with the samples an endpoint receives:
  the threshold, the three kinds of window, the clamps, the quarantine
  status, and the recorded scenarios of the evaluator's test table.

  Every lemma here turns Dafny's automatic induction off: the proofs that
  need induction write it out, and leaving it on made solving over
  sequences and stores unstable.
 */
module SamplePolicyLemmas {
  import opened Wrappers
  import I = Interfaces
  import IL = InterfacesLemmas
  import opened SamplePolicy

  /** The window judged after recording at least a window of samples is made of the last of those samples. */
  lemma {:induction false} JudgedWindowIsLatestSamples(e: WeightedEndpointStatus, xs: seq<I.Sample>)
    requires Valid(e)
    requires |xs| >= WindowSize
    ensures JudgedWindow(AddAll(e, xs)) == xs[|xs| - WindowSize..]
  {
    var all := I.Get(e.endpoint) + xs;
    IL.AddAllHistory(e.endpoint, xs);
    assert I.Get(AddAll(e, xs).endpoint) == I.LastN(all, e.endpoint.capacity);
    IL.LastNOfLastN(all, e.endpoint.capacity, WindowSize);
    assert JudgedWindow(AddAll(e, xs)) == I.LastN(all, WindowSize);
    IL.LastNOfLongTail(I.Get(e.endpoint), xs, WindowSize);
  }

  /** Every suffix of a uniform run of samples is uniform. */
  lemma {:induction false} UniformSuffix(xs: seq<I.Sample>, k: nat)
    requires k <= |xs|
    ensures AllFailed(xs) ==> AllFailed(xs[k..])
    ensures AllSucceeded(xs) ==> AllSucceeded(xs[k..])
  {
  }

  /**
    Fewer than a window of samples since the last judgment: the evaluation
    reports no change and weight and status stay as they were.
   */
  lemma {:induction false} BelowThresholdNoChange(e: WeightedEndpointStatus, xs: seq<I.Sample>)
    requires Valid(e)
    requires e.newSamples + |xs| < WindowSize
    ensures var r := Evaluate(AddAll(e, xs));
      && !r.hasChanged
      && Weight(r.state) == Weight(e) && StatusOf(r.state) == StatusOf(e)
      && r.state.newSamples == e.newSamples + |xs|
  {
  }

  /**
    A full window of failures lowers the weight by one tenth unless it is
    already 0, marks too many errors exactly when the weight reaches 0,
    and restarts the new-sample count.
   */
  lemma {:induction false} FailureWindowLowersWeight(e: WeightedEndpointStatus, xs: seq<I.Sample>)
    requires Valid(e)
    requires |xs| >= WindowSize && AllFailed(xs[|xs| - WindowSize..])
    ensures var r := Evaluate(AddAll(e, xs));
      && Weight(r.state) == I.Max(0, Weight(e) - 1)
      && (r.hasChanged <==> Weight(e) > 0)
      && (StatusOf(r.state) == I.TooManyErrors <==> Weight(e) <= 1)
      && r.state.newSamples == 0
  {
    JudgedWindowIsLatestSamples(e, xs);
  }

  /**
    A full window of successes raises the weight by one tenth unless it is
    already 1.0, clears the status, and restarts the new-sample count.
   */
  lemma {:induction false} SuccessWindowRaisesWeight(e: WeightedEndpointStatus, xs: seq<I.Sample>)
    requires Valid(e)
    requires |xs| >= WindowSize && AllSucceeded(xs[|xs| - WindowSize..])
    ensures var r := Evaluate(AddAll(e, xs));
      && Weight(r.state) == I.Min(MaxWeight, Weight(e) + 1)
      && (r.hasChanged <==> Weight(e) < MaxWeight)
      && StatusOf(r.state) == I.NoReason
      && r.state.newSamples == 0
  {
    JudgedWindowIsLatestSamples(e, xs);
    var w := xs[|xs| - WindowSize..];
    assert !w[0].failed;
  }

  /**
    A window holding both a failure and a success leaves weight and status
    alone and reports no change; the new-sample count still restarts.
   */
  lemma {:induction false} MixedWindowKeepsWeight(e: WeightedEndpointStatus, xs: seq<I.Sample>, i: nat, j: nat)
    requires Valid(e)
    requires e.newSamples + |xs| >= WindowSize
    requires i < |JudgedWindow(AddAll(e, xs))| && JudgedWindow(AddAll(e, xs))[i].failed
    requires j < |JudgedWindow(AddAll(e, xs))| && !JudgedWindow(AddAll(e, xs))[j].failed
    ensures var r := Evaluate(AddAll(e, xs));
      && !r.hasChanged
      && Weight(r.state) == Weight(e) && StatusOf(r.state) == StatusOf(e)
      && r.state.newSamples == 0
  {
  }

  /** Status is too many errors exactly when the weight is 0, in every reachable state. */
  lemma {:induction false} QuarantinedIffZeroWeight(size: nat, url: Option<I.Url>, steps: seq<seq<I.Sample>>)
    requires WindowSize <= size
    ensures var rs := Replay(NewWeightedEndpoint(size, url), steps);
      forall k :: 0 <= k < |rs| ==>
        && 0 <= Weight(rs[k].state) <= MaxWeight
        && (StatusOf(rs[k].state) == I.TooManyErrors <==> Weight(rs[k].state) == 0)
  {
    ReplayKeepsValid(NewWeightedEndpoint(size, url), steps);
  }

  /** Every state a run of steps reaches is a valid evaluator state. */
  lemma {:induction false} ReplayKeepsValid(e: WeightedEndpointStatus, steps: seq<seq<I.Sample>>)
    requires Valid(e)
    ensures forall k :: 0 <= k < |steps| ==> Valid(Replay(e, steps)[k].state)
    decreases |steps|
  {
    if |steps| > 0 {
      var r := Evaluate(AddAll(e, steps[0]));
      ReplayKeepsValid(r.state, steps[1..]);
      forall k | 0 <= k < |steps|
        ensures Valid(Replay(e, steps)[k].state)
      {
        ReplayUnfold(e, steps, k);
      }
    }
  }

  /** The first evaluation of a replay, and the rest as a replay from its result. */
  lemma {:induction false} ReplayUnfold(e: WeightedEndpointStatus, steps: seq<seq<I.Sample>>, k: nat)
    requires Valid(e) && k < |steps|
    ensures k == 0 ==> Replay(e, steps)[k] == Evaluate(AddAll(e, steps[0]))
    ensures k > 0 ==> Replay(e, steps)[k] == Replay(Evaluate(AddAll(e, steps[0])).state, steps[1..])[k - 1]
  {
  }

  /** Each evaluation of a replay after the first evaluates the state the one before it left. */
  lemma {:induction false} ReplayStep(e: WeightedEndpointStatus, steps: seq<seq<I.Sample>>, k: nat)
    requires Valid(e) && 0 < k < |steps|
    ensures Valid(Replay(e, steps)[k - 1].state)
    ensures Replay(e, steps)[k] == Evaluate(AddAll(Replay(e, steps)[k - 1].state, steps[k]))
    decreases k
  {
    ReplayKeepsValid(e, steps);
    ReplayUnfold(e, steps, k);
    ReplayUnfold(e, steps, k - 1);
    var s0 := Evaluate(AddAll(e, steps[0])).state;
    assert steps[1..][k - 1] == steps[k];
    if k == 1 {
      ReplayUnfold(s0, steps[1..], 0);
    } else {
      ReplayStep(s0, steps[1..], k - 1);
    }
  }

  /** One judged step of only failures, stated for the step lemmas of a replay. */
  lemma {:induction false} FailureStep(e: WeightedEndpointStatus, xs: seq<I.Sample>)
    requires Valid(e)
    requires |xs| >= WindowSize && AllFailed(xs)
    ensures Weight(Evaluate(AddAll(e, xs)).state) == I.Max(0, Weight(e) - 1)
    ensures Evaluate(AddAll(e, xs)).hasChanged <==> Weight(e) > 0
    ensures StatusOf(Evaluate(AddAll(e, xs)).state) == I.TooManyErrors <==> Weight(e) <= 1
  {
    UniformSuffix(xs, |xs| - WindowSize);
    FailureWindowLowersWeight(e, xs);
  }

  /** One judged step of only successes, stated for the step lemmas of a replay. */
  lemma {:induction false} SuccessStep(e: WeightedEndpointStatus, xs: seq<I.Sample>)
    requires Valid(e)
    requires |xs| >= WindowSize && AllSucceeded(xs)
    ensures Weight(Evaluate(AddAll(e, xs)).state) == I.Min(MaxWeight, Weight(e) + 1)
    ensures Evaluate(AddAll(e, xs)).hasChanged <==> Weight(e) < MaxWeight
    ensures StatusOf(Evaluate(AddAll(e, xs)).state) == I.NoReason
  {
    UniformSuffix(xs, |xs| - WindowSize);
    SuccessWindowRaisesWeight(e, xs);
  }

  /** Every step records at least a window of samples, all failures. */
  ghost predicate FailureWindows(steps: seq<seq<I.Sample>>)
  {
    forall k :: 0 <= k < |steps| ==> |steps[k]| >= WindowSize && AllFailed(steps[k])
  }

  /** Every step records at least a window of samples, all successes. */
  ghost predicate SuccessWindows(steps: seq<seq<I.Sample>>)
  {
    forall k :: 0 <= k < |steps| ==> |steps[k]| >= WindowSize && AllSucceeded(steps[k])
  }

  /**
    Repeated full failure windows walk the weight down one tenth per
    judgment until it sticks at 0; each judgment reports a change exactly
    while the weight was still above 0.
   */
  lemma {:induction false} RepeatedFailureWindows(e: WeightedEndpointStatus, steps: seq<seq<I.Sample>>)
    requires Valid(e)
    requires FailureWindows(steps)
    ensures forall k :: 0 <= k < |steps| ==>
      && Weight(Replay(e, steps)[k].state) == I.Max(0, Weight(e) - k - 1)
      && (Replay(e, steps)[k].hasChanged <==> Weight(e) - k > 0)
      && (StatusOf(Replay(e, steps)[k].state) == I.TooManyErrors <==> Weight(e) - k <= 1)
    decreases |steps|
  {
    forall k | 0 <= k < |steps|
      ensures Weight(Replay(e, steps)[k].state) == I.Max(0, Weight(e) - k - 1)
      ensures Replay(e, steps)[k].hasChanged <==> Weight(e) - k > 0
      ensures StatusOf(Replay(e, steps)[k].state) == I.TooManyErrors <==> Weight(e) - k <= 1
    {
      FailureWindowsAt(e, steps, k);
    }
  }

  /** Step k of a run of failure windows: weight, change flag and status. */
  lemma {:induction false} FailureWindowsAt(e: WeightedEndpointStatus, steps: seq<seq<I.Sample>>, k: nat)
    requires Valid(e)
    requires FailureWindows(steps)
    requires k < |steps|
    ensures Weight(Replay(e, steps)[k].state) == I.Max(0, Weight(e) - k - 1)
    ensures Replay(e, steps)[k].hasChanged <==> Weight(e) - k > 0
    ensures StatusOf(Replay(e, steps)[k].state) == I.TooManyErrors <==> Weight(e) - k <= 1
    decreases k
  {
    assert |steps[k]| >= WindowSize && AllFailed(steps[k]);
    if k == 0 {
      ReplayUnfold(e, steps, 0);
      FailureStep(e, steps[0]);
    } else {
      ReplayStep(e, steps, k);
      FailureWindowsAt(e, steps, k - 1);
      FailureStep(Replay(e, steps)[k - 1].state, steps[k]);
    }
  }

  /**
    Repeated full success windows walk the weight up one tenth per
    judgment until it sticks at 1.0; each judgment reports a change exactly
    while the weight was still below 1.0, and the status stays clear.
   */
  lemma {:induction false} RepeatedSuccessWindows(e: WeightedEndpointStatus, steps: seq<seq<I.Sample>>)
    requires Valid(e)
    requires SuccessWindows(steps)
    ensures forall k :: 0 <= k < |steps| ==>
      && Weight(Replay(e, steps)[k].state) == I.Min(MaxWeight, Weight(e) + k + 1)
      && (Replay(e, steps)[k].hasChanged <==> Weight(e) + k < MaxWeight)
      && StatusOf(Replay(e, steps)[k].state) == I.NoReason
    decreases |steps|
  {
    forall k | 0 <= k < |steps|
      ensures Weight(Replay(e, steps)[k].state) == I.Min(MaxWeight, Weight(e) + k + 1)
      ensures Replay(e, steps)[k].hasChanged <==> Weight(e) + k < MaxWeight
      ensures StatusOf(Replay(e, steps)[k].state) == I.NoReason
    {
      SuccessWindowsAt(e, steps, k);
    }
  }

  /** Step k of a run of success windows: weight, change flag and status. */
  lemma {:induction false} SuccessWindowsAt(e: WeightedEndpointStatus, steps: seq<seq<I.Sample>>, k: nat)
    requires Valid(e)
    requires SuccessWindows(steps)
    requires k < |steps|
    ensures Weight(Replay(e, steps)[k].state) == I.Min(MaxWeight, Weight(e) + k + 1)
    ensures Replay(e, steps)[k].hasChanged <==> Weight(e) + k < MaxWeight
    ensures StatusOf(Replay(e, steps)[k].state) == I.NoReason
    decreases k
  {
    assert |steps[k]| >= WindowSize && AllSucceeded(steps[k]);
    if k == 0 {
      ReplayUnfold(e, steps, 0);
      SuccessStep(e, steps[0]);
    } else {
      ReplayStep(e, steps, k);
      SuccessWindowsAt(e, steps, k - 1);
      SuccessStep(Replay(e, steps)[k - 1].state, steps[k]);
    }
  }

  /** At weight 1.0, success windows however often repeated change nothing. */
  lemma {:induction false} CeilingHolds(e: WeightedEndpointStatus, steps: seq<seq<I.Sample>>)
    requires Valid(e) && Weight(e) == MaxWeight
    requires SuccessWindows(steps)
    ensures forall k :: 0 <= k < |steps| ==>
      Weight(Replay(e, steps)[k].state) == MaxWeight && !Replay(e, steps)[k].hasChanged
  {
    RepeatedSuccessWindows(e, steps);
  }

  /** At weight 0, failure windows however often repeated change nothing and the endpoint stays quarantined. */
  lemma {:induction false} FloorHolds(e: WeightedEndpointStatus, steps: seq<seq<I.Sample>>)
    requires Valid(e) && Weight(e) == 0
    requires FailureWindows(steps)
    ensures forall k :: 0 <= k < |steps| ==>
      && Weight(Replay(e, steps)[k].state) == 0 && !Replay(e, steps)[k].hasChanged
      && StatusOf(Replay(e, steps)[k].state) == I.TooManyErrors
  {
    RepeatedFailureWindows(e, steps);
  }

  /**
    Only the latest window is judged: ten errors followed by one success
    make a mixed window, so a new endpoint keeps weight 1.0 and reports no
    change.
   */
  lemma {:induction false} TenErrorsThenOneSuccess(url: Option<I.Url>)
    ensures var r := Evaluate(AddAll(NewWeightedEndpoint(10, url), Failures(10) + Successes(1)));
      Weight(r.state) == MaxWeight && !r.hasChanged && StatusOf(r.state) == I.NoReason
  {
    var e := NewWeightedEndpoint(10, url);
    var xs := Failures(10) + Successes(1);
    JudgedWindowIsLatestSamples(e, xs);
    var w := JudgedWindow(AddAll(e, xs));
    assert w[0] == xs[1] && w[0].failed;
    assert w[9] == xs[10] && !w[9].failed;
    MixedWindowKeepsWeight(e, xs, 0, 9);
  }

  /** Recording two runs of samples is recording their concatenation. */
  lemma {:induction false} AddAllConcat(e: WeightedEndpointStatus, xs: seq<I.Sample>, ys: seq<I.Sample>)
    ensures AddAll(AddAll(e, xs), ys) == AddAll(e, xs + ys)
  {
    IL.AddAllConcat(e.endpoint, xs, ys);
  }

  /** Two uniform runs of samples make a uniform run. */
  lemma {:induction false} UniformConcat(xs: seq<I.Sample>, ys: seq<I.Sample>)
    ensures AllFailed(xs) && AllFailed(ys) ==> AllFailed(xs + ys)
    ensures AllSucceeded(xs) && AllSucceeded(ys) ==> AllSucceeded(xs + ys)
  {
  }

  /**
    The count of new samples restarts after a judgment: after a window of
    errors one more error is not judged, while the nine after it (ten new
    in all) are.
   */
  lemma {:induction false} CounterRestartsAfterJudgment(e: WeightedEndpointStatus, first: seq<I.Sample>, one: seq<I.Sample>, rest: seq<I.Sample>)
    requires Valid(e)
    requires |first| == WindowSize && |one| == 1 && |rest| == WindowSize - 1
    requires AllFailed(first) && AllFailed(one) && AllFailed(rest)
    ensures var r0 := Evaluate(AddAll(e, first));
      var r1 := Evaluate(AddAll(r0.state, one));
      var r2 := Evaluate(AddAll(r1.state, rest));
      && Weight(r0.state) == I.Max(0, Weight(e) - 1) && (r0.hasChanged <==> Weight(e) > 0)
      && Weight(r1.state) == I.Max(0, Weight(e) - 1) && !r1.hasChanged
      && Weight(r2.state) == I.Max(0, Weight(e) - 2) && (r2.hasChanged <==> Weight(e) > 1)
  {
    UniformSuffix(first, 0);
    FailureWindowLowersWeight(e, first);
    var r0 := Evaluate(AddAll(e, first));
    BelowThresholdNoChange(r0.state, one);
    // The ten samples judged next are the one error and the nine after it.
    AddAllConcat(r0.state, one, rest);
    UniformConcat(one, rest);
    UniformSuffix(one + rest, 0);
    FailureWindowLowersWeight(r0.state, one + rest);
  }

  /**
    Successes are judged only once ten of them are new: right after a
    judgment, one success and then eight more change nothing, the tenth
    raises the weight by one tenth (not above 1.0), and one more after
    that changes nothing again.
   */
  lemma {:induction false} SuccessesJudgedAtTen(e: WeightedEndpointStatus, one: seq<I.Sample>, eight: seq<I.Sample>, last: seq<I.Sample>, extra: seq<I.Sample>)
    requires Valid(e) && e.newSamples == 0
    requires |one| == 1 && |eight| == 8 && |last| == 1 && |extra| == 1
    requires AllSucceeded(one) && AllSucceeded(eight) && AllSucceeded(last) && AllSucceeded(extra)
    ensures var r1 := Evaluate(AddAll(e, one));
      var r2 := Evaluate(AddAll(r1.state, eight));
      var r3 := Evaluate(AddAll(r2.state, last));
      var r4 := Evaluate(AddAll(r3.state, extra));
      && Weight(r1.state) == Weight(e) && !r1.hasChanged
      && Weight(r2.state) == Weight(e) && !r2.hasChanged
      && Weight(r3.state) == I.Min(MaxWeight, Weight(e) + 1) && (r3.hasChanged <==> Weight(e) < MaxWeight)
      && StatusOf(r3.state) == I.NoReason
      && Weight(r4.state) == Weight(r3.state) && !r4.hasChanged
  {
    var r1 := Evaluate(AddAll(e, one));
    BelowThresholdNoChange(e, one);
    // Below the threshold the evaluation hands back the recorded state.
    assert r1.state == AddAll(e, one);
    AddAllConcat(e, one, eight);
    BelowThresholdNoChange(e, one + eight);
    var r2 := Evaluate(AddAll(r1.state, eight));
    assert r2.state == AddAll(e, one + eight);
    AddAllConcat(e, one + eight, last);
    UniformConcat(one, eight);
    UniformConcat(one + eight, last);
    UniformSuffix(one + eight + last, 0);
    SuccessWindowRaisesWeight(e, one + eight + last);
    var r3 := Evaluate(AddAll(r2.state, last));
    BelowThresholdNoChange(r3.state, extra);
  }

  /**
    The endpoint the batch handler creates starts at weight 0 with no
    status reason: the quarantine weight without the quarantine status,
    which is no state of the evaluator, whatever its capacity.
   */
  lemma {:induction false} NewEndpointOutsidePolicy(size: nat, url: Option<I.Url>)
    ensures Weight(WeightedEndpointStatus(I.NewEndpoint(size, url), 0)) == 0
    ensures StatusOf(WeightedEndpointStatus(I.NewEndpoint(size, url), 0)) == I.NoReason
    ensures !Valid(WeightedEndpointStatus(I.NewEndpoint(size, url), 0))
  {
  }
}
