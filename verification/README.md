# Failure detector: a Dafny model

This project models the core of `failure-detector`, a Go component. Callers report one sample per request: namespace, service, the endpoint's URL, and whether the request failed. The detector groups the samples into batches per service. It keeps a two-level store, service key → endpoint key → endpoint. Each endpoint has a bounded history of recent samples, plus a weight and a status field. The batch handler does not evaluate these yet, so they keep the values a new endpoint starts with. The weighted evaluator is modelled separately, on its own record.

The model has four modules:

- `Interfaces` (`interfaces.dfy`) holds:
  - the sample, endpoint and wrapped-store records;
  - the key functions (service key `namespace/service`, and the endpoint key, which is the URL host or `""`);
  - the construction of a new endpoint and of a wrapped store;
  - the endpoint's `Add`/`Get`.

  `InterfacesLemmas` proves:
  - that the service key can be read back;
  - that endpoints are filed where they are looked up;
  - what the history keeps: the last `capacity` samples, in order.
- `FailureDetector` (`failure_detector.dfy`) holds the batch handler `processBatch` and its two conversions. `FailureDetectorLemmas` proves:
  - that the store stays well keyed;
  - the keys afterwards;
  - the fetch-or-create behaviour for services and endpoints;
  - the history of every touched endpoint;
  - that nothing else changes.
- `SamplePolicy` (`sample_policy.dfy`) is the weighted evaluator. Its behaviour is fixed by the table-driven test of `SimpleWeightedEndpointStatusEvaluator`:
  - the weight is judged only after ten new samples;
  - a window of only failures lowers it by 0.1, and a window of only successes raises it by 0.1;
  - a mixed window leaves it alone;
  - the weight is clamped to 0..1;
  - the status is "too many errors" exactly at weight 0.

  `SamplePolicyLemmas` proves these rules for every starting state and every number of steps. The test's scenarios follow from them; the lemmas state the scenarios' distinctive steps directly: only the last ten samples are judged, the count restarts after a judgment for errors and for successes, and repeated windows walk the weight to a clamp.

Both stores are Dafny `map`s. A store files each object under the key its key function gives for that object: the URL host for endpoints, the batch key for wrapped stores. The Go code mutates the endpoint it fetched and then adds it back. The model computes the new endpoint and files it under the same key. The two agree because every endpoint sits under its own key, an invariant that `FailureDetectorLemmas.ProcessBatchValid` proves the handler keeps.

Weights are integers in tenths (10 stands for 1.0). The test compares weights only through `weightToErrorCount`, i.e. at tenth granularity.

## Model

| member | source | states |
|---|---|---|
| Interfaces.ServiceKey | interfaces.go:40-43 | the service key is the namespace, one '/', then the service, with exactly that length |
| Interfaces.EndpointSampleKey | interfaces.go:45-51 | a sample's endpoint key is its URL's host, or "" when it has no URL |
| Interfaces.EndpointKey | interfaces.go:57-63 | an endpoint is keyed by its URL's host, or "" when it has no URL |
| Interfaces.NewWrappedStore | interfaces.go:22-24 | the wrapped store delegates to the given store, and the wrapped-store key function gives back the batch key it was built with |
| Interfaces.Slots | interfaces.go:67-74 | viewed as slots, an endpoint's history always takes exactly `capacity` slots, as the fixed-size `data` slice does |
| Interfaces.NewEndpoint | interfaces.go:81-86 | a new endpoint has `size` slots, all empty, and no samples; it has the given URL and the zero status and weight |
| Interfaces.Add | interfaces.go:88-90 | recording a sample leaves URL, capacity, status and weight alone and grows the history by one, up to `capacity` |
| InterfacesLemmas.ServiceKeyRoundTrip | interfaces.go:40-43 | when the namespace has no '/', splitting the service key at its first '/' gives back the namespace and the service |
| InterfacesLemmas.ServiceKeyInjective | interfaces.go:40-43 | distinct (namespace, service) pairs never share a service key when namespaces have no '/' |
| InterfacesLemmas.MissingUrlSharesEmptyHostKey | interfaces.go:45-51 | a sample without a URL and one whose URL has an empty host map to the same endpoint key |
| InterfacesLemmas.CreatedEndpointKeyMatchesSample | interfaces.go:45-63 | an endpoint created from a sample's URL is filed under that sample's key, however many samples it has recorded since |
| InterfacesLemmas.AddAllKeepsFields | interfaces.go:88-90 | recording any run of samples leaves capacity, URL, status and weight unchanged |
| InterfacesLemmas.GetIsFilledSlots | interfaces.go:67-95 | the samples an endpoint returns are its filled slots in slot order: at most `capacity` of them, in the last slots, with every slot before them empty |
| InterfacesLemmas.NewEndpointGetIsEmpty | interfaces.go:92-95 | a newly created endpoint returns no samples |
| InterfacesLemmas.AddKeepsNewest | interfaces.go:88-90 | after recording, the history is a suffix of the old history followed by the sample, and the sample is the newest one held |
| InterfacesLemmas.AddAllHistory | interfaces.go:88-95 | after recording a run of samples, the endpoint returns the last `capacity` of its earlier samples followed by the run, in order |
| InterfacesLemmas.AddAllConcat | interfaces.go:88-90 | recording two runs one after the other is recording their concatenation |
| FailureDetector.ConvertToEndpointSample | failure_detector.go:93-99 | the cast succeeds exactly when every delivered item is an endpoint sample, and then it keeps length, order and contents |
| FailureDetector.ConvertToKeySample | failure_detector.go:101-105 | the key is the sample's endpoint key, and the retained sample keeps only whether the request failed |
| FailureDetector.ProcessBatch | failure_detector.go:57-60 | an empty batch leaves the top-level store unchanged |
| FailureDetector.ProcessRawBatch | failure_detector.go:57-61 | an empty delivery changes nothing; the handler fails exactly when some delivered item is not an endpoint sample |
| FailureDetectorLemmas.ConvertDeliveredRoundTrip | failure_detector.go:93-99 | casting the items delivered for a batch gives back that batch |
| FailureDetectorLemmas.ConvertIsDelivered | failure_detector.go:93-99 | a successful cast determines the delivered items exactly |
| FailureDetectorLemmas.ProcessRawBatchDelivered | failure_detector.go:57-62 | on delivered samples, the handler as the queue calls it does what the batch handler does to the typed batch |
| FailureDetectorLemmas.FetchOrCreateKey | failure_detector.go:70-76 | on a well-keyed store, the endpoint fetched or created for a sample is keyed by that sample's key and within its capacity |
| FailureDetectorLemmas.RecordSampleUpdate | failure_detector.go:69-79 | one sample replaces only the entry under its own key, with the fetched or new endpoint plus the sample |
| FailureDetectorLemmas.RecordSampleWellFiled | failure_detector.go:70-78 | one sample keeps every well-keyed entry well keyed |
| FailureDetectorLemmas.RecordSampleValid | failure_detector.go:69-79 | one sample keeps the endpoint store well keyed and within capacity |
| FailureDetectorLemmas.RecordSamplesValid | failure_detector.go:69-79 | a whole batch keeps the endpoint store well keyed and within capacity |
| FailureDetectorLemmas.RecordSamplesKeys | failure_detector.go:69-79 | after a batch, the endpoint keys are exactly the old ones plus every key the batch names |
| FailureDetectorLemmas.RecordSamplesHistory | failure_detector.go:69-79 | each endpoint afterwards is its starting endpoint with exactly the batch's samples for it recorded, in batch order |
| FailureDetectorLemmas.ServiceBeforeValid | failure_detector.go:63-66 | on a well-keyed top-level store, the endpoint store fetched or created for a batch is well keyed |
| FailureDetectorLemmas.ServiceUpdateValid | failure_detector.go:80 | filing a well-keyed endpoint store under its batch key keeps the top-level store well keyed |
| FailureDetectorLemmas.FetchOrCreateServiceFiled | failure_detector.go:63-66 | the fetched or new wrapped store carries the batch key, and holds the stored endpoint store or an empty one |
| FailureDetectorLemmas.ProcessBatchUpdate | failure_detector.go:62-80 | a non-empty batch replaces only the entry under the first sample's service key, with every sample recorded into that service's store |
| FailureDetectorLemmas.ProcessBatchServiceKeys | failure_detector.go:62-80 | the service keys afterwards are exactly the old ones plus the first sample's service key |
| FailureDetectorLemmas.ProcessBatchServiceEntry | failure_detector.go:62-80 | afterwards there is an entry under the first sample's service key, and it carries that key as its batch key |
| FailureDetectorLemmas.ProcessBatchOtherService | failure_detector.go:63-80 | every other service's entry is unchanged |
| FailureDetectorLemmas.ProcessBatchEndpointKeys | failure_detector.go:69-79 | the service's endpoint keys afterwards are exactly the old ones plus every key the batch names |
| FailureDetectorLemmas.ProcessBatchEndpoint | failure_detector.go:69-79 | each of the service's endpoints afterwards is its stored (or newly created) endpoint with exactly the batch's samples for it recorded, in order |
| FailureDetectorLemmas.ProcessBatchUntouched | failure_detector.go:69-79 | an endpoint of the service that the batch does not name is unchanged |
| FailureDetectorLemmas.ProcessBatchValid | failure_detector.go:57-83 | the handler keeps the two-level store well keyed and every history within capacity |
| FailureDetectorLemmas.EmptyBatchChangesNothing | failure_detector.go:57-60 | an empty batch leaves the store as it was |
| FailureDetectorLemmas.ProcessBatchHistory | failure_detector.go:71-77 | a stored endpoint is reused: its history afterwards is the last `capacity` of its earlier samples followed by the batch's samples for it |
| FailureDetectorLemmas.ProcessBatchCreates | failure_detector.go:72-75 | a missing endpoint is created with capacity 10, the URL of the first sample naming it, zero weight and no status, and holds the last 10 of the batch's samples for it |
| SamplePolicy.StatusFor | sample_policy_test.go:131-140 | the status is "too many errors" exactly when the weight is 0 |
| SamplePolicy.NewWeightedEndpoint | sample_policy_test.go:175-181 | a fresh evaluated endpoint has no samples and weight 1.0 with no status; it is a valid state exactly when its capacity has room for a full window |
| SamplePolicy.Add | sample_policy_test.go:164-167 | recording a sample counts it as new, records it on the endpoint, leaves weight and status alone and keeps the state valid |
| SamplePolicy.AddAll | sample_policy_test.go:175-181 | recording a run counts each sample as new, leaves weight and status alone and keeps the state valid |
| SamplePolicy.JudgedWeight | sample_policy_test.go:110-140 | the judged weight stays in 0..10: one lower after only failures (floor 0), one higher after only successes (ceiling 10), unchanged after a mixed window |
| SamplePolicy.Evaluate | sample_policy_test.go:78-94 | below ten new samples nothing changes; otherwise the count restarts and the weight moves by at most one tenth. The result is valid, and "changed" holds exactly when the weight moved |
| SamplePolicy.Replay | sample_policy_test.go:164-170 | running the steps yields one evaluation per step |
| SamplePolicy.Failures | sample_policy_test.go:191-197 | `n` samples, all failed |
| SamplePolicy.Successes | sample_policy_test.go:199-205 | `n` samples, all successful |
| SamplePolicyLemmas.JudgedWindowIsLatestSamples | sample_policy_test.go:39-47 | after ten or more samples are recorded, the judged window is exactly the last ten of them |
| SamplePolicyLemmas.BelowThresholdNoChange | sample_policy_test.go:29-36 | with fewer than ten new samples, evaluation reports no change and keeps weight and status |
| SamplePolicyLemmas.FailureWindowLowersWeight | sample_policy_test.go:110-131 | a window of only failures lowers the weight by one tenth (not below 0); it reports a change exactly when the weight was positive, and sets "too many errors" exactly when the weight reaches 0 |
| SamplePolicyLemmas.SuccessWindowRaisesWeight | sample_policy_test.go:84-91 | a window of only successes raises the weight by one tenth (not above 1.0), reports a change exactly when it was below 1.0, and clears the status |
| SamplePolicyLemmas.MixedWindowKeepsWeight | sample_policy_test.go:39-47 | a judged window holding both a failure and a success keeps weight and status and reports no change |
| SamplePolicyLemmas.QuarantinedIffZeroWeight | sample_policy_test.go:131-140 | in every state reachable from a fresh endpoint, the weight is in 0..10 and the status is "too many errors" exactly at weight 0 |
| SamplePolicyLemmas.ReplayKeepsValid | sample_policy_test.go:164-170 | every state a run of steps reaches is valid |
| SamplePolicyLemmas.ReplayStep | sample_policy_test.go:164-170 | each step of a run evaluates the state the previous step left, with that step's samples recorded |
| SamplePolicyLemmas.RepeatedFailureWindows | sample_policy_test.go:98-137 | after k+1 failure windows the weight is max(0, w-k-1); each step reports a change exactly when the weight was still positive; the status is "too many errors" once the weight reaches 0 |
| SamplePolicyLemmas.FailureWindowsAt | sample_policy_test.go:98-137 | the same for the k-th step alone |
| SamplePolicyLemmas.RepeatedSuccessWindows | sample_policy_test.go:49-64 | after k+1 success windows the weight is min(10, w+k+1); each step reports a change exactly while below 1.0; the status stays clear |
| SamplePolicyLemmas.SuccessWindowsAt | sample_policy_test.go:49-64 | the same for the k-th step alone |
| SamplePolicyLemmas.CeilingHolds | sample_policy_test.go:49-64 | at weight 1.0, success windows however often repeated keep the weight at 1.0 and report no change |
| SamplePolicyLemmas.FloorHolds | sample_policy_test.go:133-137 | at weight 0, failure windows however often repeated keep weight 0 and "too many errors", and report no change |
| SamplePolicyLemmas.TenErrorsThenOneSuccess | sample_policy_test.go:39-47 | ten errors then one success on a fresh endpoint form a mixed window: weight stays 1.0, no status, no change |
| SamplePolicyLemmas.AddAllConcat | sample_policy_test.go:164-167 | recording two runs one after the other is recording their concatenation |
| SamplePolicyLemmas.CounterRestartsAfterJudgment | sample_policy_test.go:78-82 | after a judged failure window, one more error is not judged, but the nine after it (ten new in all) lower the weight again |
| SamplePolicyLemmas.SuccessesJudgedAtTen | sample_policy_test.go:84-94 | right after a judgment, one success and then eight more change nothing; the tenth raises the weight by one tenth (not above 1.0) and clears the status; one more changes nothing |
| SamplePolicyLemmas.NewEndpointOutsidePolicy | interfaces.go:81-86 | an endpoint as `newEndpoint` builds it has weight 0 and no status reason, which is no valid evaluator state for any capacity |

## Left out

- `batch_processor.go` is not part of this model. It is the worker pool, the channel pump and the batch queue, all concurrency plumbing. The model takes an already-delivered batch as input.
- `test_drive_test.go` is not part of this model. It is random load generation with sleeps.
- `NewDefaultFailureDetector`, `newFailureDetector`, `Run` and `Collector` only wire the stores, queue and processor together; they are not modelled.
- TTL eviction and the clock are not modelled. Both stores are plain maps whose entries never expire, so neither the 120 s nor the 60 s time-to-live appears.
- FailureDetector.ProcessBatch: the batch key is always the default service-key function (`namespace/service`). The configurable `endpointSampleKeyFn` field is fixed to the one `NewDefaultFailureDetector` installs.
- FailureDetector.ProcessBatch: the handler's TODOs, calling the policy engine and propagating status changes, are absent from the code. The model therefore does not run the evaluator on the batch either.
- Interfaces.Add: in the code, `Endpoint.Add` and `Endpoint.Get` are unimplemented stubs. The model gives them the behaviour the evaluator's test relies on: keep the last `capacity` samples, oldest first. The ring buffer's `position` cursor and its arithmetic are not modelled. History is a sequence, and `Interfaces.Slots` derives the fixed-size slot view from it.
- Interfaces.Add: the contract gives only the length of the new history. The suffix-and-newest property is stated as the lemma `InterfacesLemmas.AddKeepsNewest` rather than as a postcondition.
- Interfaces.NewEndpoint: weight and status are the Go zero values (0.0 and ""), as `newEndpoint` leaves them. Only the evaluator's `NewWeightedEndpoint` starts at weight 1.0.
- The Go source of `SimpleWeightedEndpointStatusEvaluator`, `WeightedEndpointStatus` and `newWeightedEndpoint` is not part of this model. `SamplePolicy` reconstructs their behaviour from the scenarios of `TestSimpleWeightedEndpointStatusEvaluator`. One case is a choice: no scenario tells whether a mixed window restarts the new-sample count, and `SamplePolicy.Evaluate` restarts it after every judgment.
- SamplePolicy.Valid: the evaluator is modelled only for capacities of at least one window (ten samples). The test always uses ten.
- Weights are integer tenths, not `float32`, so float rounding is not modelled. The test compares weights only at tenth granularity.
- URLs are reduced to scheme and host, with no parsing. Errors are reduced to "failed or not", and an error's message is not kept.
- `ConvertToEndpointSample` models the Go run-time panic of a failed type assertion as `None`; `ProcessRawBatch` propagates it.

## Findings

| source | as written | input that shows it | evidently intended | confidence | as-written member | corrected member |
|---|---|---|---|---|---|---|
| interfaces.go:81-86 | `newEndpoint` leaves weight 0.0 and status "", and `processBatch` creates every endpoint this way (failure_detector.go:74) | any batch naming an endpoint not yet stored, e.g. one sample with URL host "a" on an empty store: `FailureDetectorLemmas.ProcessBatchCreates` gives weight 0 and no reason | a new endpoint starts at weight 1.0 with no reason, as every endpoint in the evaluator's test does (sample_policy_test.go:29-36); weight 0 without "too many errors" is no state of the evaluator | low (the evaluator is not yet wired into the handler); not executed | SamplePolicyLemmas.NewEndpointOutsidePolicy | SamplePolicy.NewWeightedEndpoint |

The evaluator model starts every endpoint from `SamplePolicy.NewWeightedEndpoint`, which is valid whenever it holds a full window. The batch handler model keeps the code's `newEndpoint` start because the code does not run the evaluator on the endpoints it creates.
