/**
  What the batch handler does to the two-level store: which keys exist
  afterwards, what each touched endpoint holds, and what is left alone.

  Every lemma here turns Dafny's automatic induction off: the proofs that
  need induction write it out, and leaving it on made solving over
  sequences and stores unstable.
 */
module FailureDetectorLemmas {
  import opened Wrappers
  import opened Interfaces
  import IL = InterfacesLemmas
  import opened FailureDetector

  /** The samples a batch holds for endpoint key `k`, in batch order. */
  function SamplesFor(batch: seq<EndpointSample>, k: string): seq<Sample>
    decreases |batch|
  {
    if |batch| == 0 then []
    else
      var ks := ConvertToKeySample(batch[0]);
      (if ks.key == k then [ks.sample] else []) + SamplesFor(batch[1..], k)
  }

  /** The URL of the first sample of the batch with endpoint key `k`. */
  function FirstUrlFor(batch: seq<EndpointSample>, k: string): Option<Url>
    requires k in BatchKeys(batch)
    decreases |batch|
  {
    if EndpointSampleKey(batch[0]) == k then batch[0].url else FirstUrlFor(batch[1..], k)
  }

  /**
    The endpoint the batch's samples for `k` are recorded on: the stored
    one, or else a new one built from the first such sample's URL.
   */
  function Base(store: EndpointStore, batch: seq<EndpointSample>, k: string): Endpoint
    requires k in store || k in BatchKeys(batch)
  {
    if k in store then store[k] else NewEndpoint(EndpointCapacity, FirstUrlFor(batch, k))
  }

  /** On a valid store, the endpoint a sample is recorded on is filed under the sample's key. */
  lemma {:induction false} FetchOrCreateKey(store: EndpointStore, s: EndpointSample)
    requires WellFiled(store, EndpointSampleKey(s))
    ensures EndpointKey(FetchOrCreate(store, EndpointSampleKey(s), s.url)) == EndpointSampleKey(s)
    ensures |FetchOrCreate(store, EndpointSampleKey(s), s.url).history| <= FetchOrCreate(store, EndpointSampleKey(s), s.url).capacity
  {
  }

  /**
    One sample: the store afterwards is the old one with the sample's
    endpoint (fetched or created) replaced by that endpoint with the
    sample recorded.
   */
  lemma {:induction false} RecordSampleUpdate(store: EndpointStore, s: EndpointSample)
    requires WellFiled(store, EndpointSampleKey(s))
    ensures RecordSample(store, s)
      == store[EndpointSampleKey(s) := Add(FetchOrCreate(store, EndpointSampleKey(s), s.url), Sample(s.failed))]
  {
    FetchOrCreateKey(store, s);
  }

  /** One sample keeps each well-filed endpoint well filed. */
  lemma {:induction false} RecordSampleWellFiled(store: EndpointStore, s: EndpointSample, k: string)
    requires WellFiled(store, EndpointSampleKey(s)) && WellFiled(store, k)
    ensures WellFiled(RecordSample(store, s), k)
  {
  }

  /** One sample keeps the endpoint store valid. */
  lemma {:induction false} RecordSampleValid(store: EndpointStore, s: EndpointSample)
    requires EndpointStoreValid(store)
    ensures EndpointStoreValid(RecordSample(store, s))
  {
    forall k {
      RecordSampleWellFiled(store, s, k);
    }
  }

  /** Recording a batch is recording its first sample, then the rest. */
  lemma {:induction false} RecordSamplesUnfold(store: EndpointStore, batch: seq<EndpointSample>)
    requires |batch| > 0
    ensures RecordSamples(store, batch) == RecordSamples(RecordSample(store, batch[0]), batch[1..])
  {
  }

  /** A batch keeps the endpoint store valid. */
  lemma {:induction false} RecordSamplesValid(store: EndpointStore, batch: seq<EndpointSample>)
    requires EndpointStoreValid(store)
    ensures EndpointStoreValid(RecordSamples(store, batch))
    decreases |batch|
  {
    if |batch| > 0 {
      RecordSamplesUnfold(store, batch);
      RecordSampleValid(store, batch[0]);
      RecordSamplesValid(RecordSample(store, batch[0]), batch[1..]);
    }
  }

  /** A batch: the endpoint keys afterwards are the old ones plus every key the batch names. */
  lemma {:induction false} RecordSamplesKeys(store: EndpointStore, batch: seq<EndpointSample>)
    requires EndpointStoreValid(store)
    ensures RecordSamples(store, batch).Keys == store.Keys + BatchKeys(batch)
    decreases |batch|
  {
    if |batch| > 0 {
      var key := EndpointSampleKey(batch[0]);
      assert WellFiled(store, key);
      RecordSamplesUnfold(store, batch);
      RecordSampleUpdate(store, batch[0]);
      RecordSampleValid(store, batch[0]);
      RecordSamplesKeys(RecordSample(store, batch[0]), batch[1..]);
    }
  }

  /** The samples for `k` of a batch: the first sample's, if it is for `k`, then the rest's. */
  lemma {:induction false} SamplesForUnfold(batch: seq<EndpointSample>, k: string)
    requires |batch| > 0
    ensures EndpointSampleKey(batch[0]) == k ==> SamplesFor(batch, k) == [Sample(batch[0].failed)] + SamplesFor(batch[1..], k)
    ensures EndpointSampleKey(batch[0]) != k ==> SamplesFor(batch, k) == SamplesFor(batch[1..], k)
  {
  }

  /** Recording `x` then `xs` is recording `[x] + xs`. */
  lemma {:induction false} AddAllCons(ep: Endpoint, x: Sample, xs: seq<Sample>)
    ensures AddAll(ep, [x] + xs) == AddAll(Add(ep, x), xs)
  {
    assert ([x] + xs)[1..] == xs;
  }

  /** The endpoint the first sample names is the base for the rest of the batch, with that sample recorded. */
  lemma {:induction false} BaseStepSame(store: EndpointStore, batch: seq<EndpointSample>, k: string)
    requires EndpointStoreValid(store)
    requires |batch| > 0 && EndpointSampleKey(batch[0]) == k
    ensures k in BatchKeys(batch)
    ensures Base(RecordSample(store, batch[0]), batch[1..], k) == Add(Base(store, batch, k), Sample(batch[0].failed))
  {
    assert WellFiled(store, k);
    RecordSampleUpdate(store, batch[0]);
  }

  /** Any other endpoint's base is the same for the rest of the batch. */
  lemma {:induction false} BaseStepOther(store: EndpointStore, batch: seq<EndpointSample>, k: string)
    requires EndpointStoreValid(store)
    requires |batch| > 0 && EndpointSampleKey(batch[0]) != k
    requires k in store || k in BatchKeys(batch)
    ensures k in RecordSample(store, batch[0]) || k in BatchKeys(batch[1..])
    ensures Base(RecordSample(store, batch[0]), batch[1..], k) == Base(store, batch, k)
  {
    assert WellFiled(store, EndpointSampleKey(batch[0]));
    RecordSampleUpdate(store, batch[0]);
  }

  /**
    A batch, per endpoint: each endpoint the batch names ends up as the
    stored endpoint (or, if there was none, a new one with the first
    sample's URL) with the batch's samples for it recorded in batch
    order. An existing endpoint is reused, so its earlier history, weight
    and status are kept.
   */
  lemma {:induction false} RecordSamplesHistory(store: EndpointStore, batch: seq<EndpointSample>, k: string)
    requires EndpointStoreValid(store)
    requires k in store || k in BatchKeys(batch)
    ensures k in RecordSamples(store, batch)
    ensures RecordSamples(store, batch)[k] == AddAll(Base(store, batch, k), SamplesFor(batch, k))
    decreases |batch|
  {
    if |batch| == 0 {
      assert SamplesFor(batch, k) == [];
    } else {
      var s1 := RecordSample(store, batch[0]);
      RecordSamplesUnfold(store, batch);
      RecordSampleValid(store, batch[0]);
      SamplesForUnfold(batch, k);
      if EndpointSampleKey(batch[0]) == k {
        BaseStepSame(store, batch, k);
        assert k in s1;
        RecordSamplesHistory(s1, batch[1..], k);
        AddAllCons(Base(store, batch, k), Sample(batch[0].failed), SamplesFor(batch[1..], k));
      } else {
        BaseStepOther(store, batch, k);
        RecordSamplesHistory(s1, batch[1..], k);
      }
    }
  }

  /** A batch holds samples for an endpoint key exactly when it names that key. */
  lemma {:induction false} SamplesForCount(batch: seq<EndpointSample>, k: string)
    ensures |SamplesFor(batch, k)| > 0 <==> k in BatchKeys(batch)
    decreases |batch|
  {
    if |batch| > 0 {
      SamplesForCount(batch[1..], k);
    }
  }

  /** The endpoint store a batch for service `key` is recorded into: the stored one, or a new empty one. */
  function ServiceBefore(top: ServiceStore, key: string): EndpointStore
  {
    if key in top then top[key].store else map[]
  }

  /** On a valid top-level store, the store a batch is recorded into is valid. */
  lemma {:induction false} ServiceBeforeValid(top: ServiceStore, key: string)
    requires ServiceStoreValid(top)
    ensures EndpointStoreValid(ServiceBefore(top, key))
  {
    assert ServiceFiled(top, key);
  }

  /** Filing a valid endpoint store under its own batch key keeps the top-level store valid. */
  lemma {:induction false} ServiceUpdateValid(top: ServiceStore, key: string, store: EndpointStore)
    requires ServiceStoreValid(top) && EndpointStoreValid(store)
    ensures ServiceStoreValid(top[key := WrappedStore(store, key)])
  {
    var r := top[key := WrappedStore(store, key)];
    forall k
      ensures ServiceFiled(r, k)
    {
      assert ServiceFiled(top, k);
    }
  }

  /** The batch handler on a non-empty batch, one step unfolded. */
  lemma {:induction false} ProcessBatchUnfold(top: ServiceStore, batch: seq<EndpointSample>)
    requires |batch| > 0
    ensures ProcessBatch(top, batch)
      == AddService(top, WrappedStore(RecordSamples(FetchOrCreateService(top, ServiceKey(batch[0])).store, batch),
                                      FetchOrCreateService(top, ServiceKey(batch[0])).batchKey))
  {
  }

  /** On a well-filed key, the fetched (or new) wrapped store carries that key and the store recorded into. */
  lemma {:induction false} FetchOrCreateServiceFiled(top: ServiceStore, key: string)
    requires ServiceFiled(top, key)
    ensures FetchOrCreateService(top, key) == WrappedStore(ServiceBefore(top, key), key)
  {
  }

  /**
    The batch handler on a well-keyed store replaces the entry under the
    first sample's service key by the fetched (or new) store with the
    batch recorded, keeping that key as its batch key.
   */
  lemma {:induction false} ProcessBatchUpdate(top: ServiceStore, batch: seq<EndpointSample>)
    requires ServiceStoreValid(top)
    requires |batch| > 0
    ensures ProcessBatch(top, batch)
      == top[ServiceKey(batch[0]) := WrappedStore(RecordSamples(ServiceBefore(top, ServiceKey(batch[0])), batch), ServiceKey(batch[0]))]
  {
    assert ServiceFiled(top, ServiceKey(batch[0]));
    FetchOrCreateServiceFiled(top, ServiceKey(batch[0]));
    ProcessBatchUnfold(top, batch);
  }

  /** The top-level keys afterwards are the old ones plus the batch's service key. */
  lemma {:induction false} ProcessBatchServiceKeys(top: ServiceStore, batch: seq<EndpointSample>)
    requires ServiceStoreValid(top)
    requires |batch| > 0
    ensures ProcessBatch(top, batch).Keys == top.Keys + {ServiceKey(batch[0])}
  {
    ProcessBatchUpdate(top, batch);
  }

  /** The entry under the batch's service key carries that key as its batch key. */
  lemma {:induction false} ProcessBatchServiceEntry(top: ServiceStore, batch: seq<EndpointSample>)
    requires ServiceStoreValid(top)
    requires |batch| > 0
    ensures ServiceKey(batch[0]) in ProcessBatch(top, batch)
    ensures ProcessBatch(top, batch)[ServiceKey(batch[0])].batchKey == ServiceKey(batch[0])
  {
    ProcessBatchUpdate(top, batch);
  }

  /** Every other service is unchanged. */
  lemma {:induction false} ProcessBatchOtherService(top: ServiceStore, batch: seq<EndpointSample>, k: string)
    requires ServiceStoreValid(top)
    requires |batch| > 0
    requires k in top && k != ServiceKey(batch[0])
    ensures k in ProcessBatch(top, batch) && ProcessBatch(top, batch)[k] == top[k]
  {
    ProcessBatchUpdate(top, batch);
  }

  /** The service's endpoint keys afterwards are the old ones plus every key the batch names. */
  lemma {:induction false} ProcessBatchEndpointKeys(top: ServiceStore, batch: seq<EndpointSample>)
    requires ServiceStoreValid(top)
    requires |batch| > 0
    ensures ServiceKey(batch[0]) in ProcessBatch(top, batch)
    ensures ProcessBatch(top, batch)[ServiceKey(batch[0])].store.Keys
      == ServiceBefore(top, ServiceKey(batch[0])).Keys + BatchKeys(batch)
  {
    ProcessBatchUpdate(top, batch);
    ServiceBeforeValid(top, ServiceKey(batch[0]));
    RecordSamplesKeys(ServiceBefore(top, ServiceKey(batch[0])), batch);
  }

  /**
    Each endpoint the batch names is the stored endpoint, or else a new
    one built from the first such sample's URL, with the batch's samples
    for it recorded in batch order.
   */
  lemma {:induction false} ProcessBatchEndpoint(top: ServiceStore, batch: seq<EndpointSample>, k: string)
    requires ServiceStoreValid(top)
    requires |batch| > 0
    requires k in ServiceBefore(top, ServiceKey(batch[0])) || k in BatchKeys(batch)
    ensures ServiceKey(batch[0]) in ProcessBatch(top, batch)
    ensures k in ProcessBatch(top, batch)[ServiceKey(batch[0])].store
    ensures ProcessBatch(top, batch)[ServiceKey(batch[0])].store[k]
      == AddAll(Base(ServiceBefore(top, ServiceKey(batch[0])), batch, k), SamplesFor(batch, k))
  {
    ProcessBatchUpdate(top, batch);
    ServiceBeforeValid(top, ServiceKey(batch[0]));
    RecordSamplesHistory(ServiceBefore(top, ServiceKey(batch[0])), batch, k);
  }

  /** An endpoint of the service that the batch does not name is unchanged. */
  lemma {:induction false} ProcessBatchUntouched(top: ServiceStore, batch: seq<EndpointSample>, k: string)
    requires ServiceStoreValid(top)
    requires |batch| > 0
    requires k in ServiceBefore(top, ServiceKey(batch[0])) && k !in BatchKeys(batch)
    ensures ServiceKey(batch[0]) in ProcessBatch(top, batch)
    ensures k in ProcessBatch(top, batch)[ServiceKey(batch[0])].store
    ensures ProcessBatch(top, batch)[ServiceKey(batch[0])].store[k] == ServiceBefore(top, ServiceKey(batch[0]))[k]
  {
    ProcessBatchUpdate(top, batch);
    ProcessBatchEndpoint(top, batch, k);
    SamplesForCount(batch, k);
  }

  /** The batch handler keeps the two-level store well keyed. */
  lemma {:induction false} ProcessBatchValid(top: ServiceStore, batch: seq<EndpointSample>)
    requires ServiceStoreValid(top)
    ensures ServiceStoreValid(ProcessBatch(top, batch))
  {
    if |batch| > 0 {
      var key := ServiceKey(batch[0]);
      ProcessBatchUpdate(top, batch);
      ServiceBeforeValid(top, key);
      RecordSamplesValid(ServiceBefore(top, key), batch);
      ServiceUpdateValid(top, key, RecordSamples(ServiceBefore(top, key), batch));
    }
  }

  /** The items the queue delivers for a batch of samples. */
  function Delivered(batch: seq<EndpointSample>): seq<RawItem>
  {
    seq(|batch|, i requires 0 <= i < |batch| => SampleItem(batch[i]))
  }

  /** Casting the delivered items gives back the batch. */
  lemma {:induction false} ConvertDeliveredRoundTrip(batch: seq<EndpointSample>)
    ensures ConvertToEndpointSample(Delivered(batch)) == Some(batch)
  {
    var raw := Delivered(batch);
    assert forall i :: 0 <= i < |raw| ==> raw[i].SampleItem?;
    assert ConvertToEndpointSample(raw).value == batch;
  }

  /** A successful cast loses nothing: the items were exactly the delivered samples. */
  lemma {:induction false} ConvertIsDelivered(raw: seq<RawItem>)
    requires ConvertToEndpointSample(raw).Some?
    ensures Delivered(ConvertToEndpointSample(raw).value) == raw
  {
    var batch := ConvertToEndpointSample(raw).value;
    assert |Delivered(batch)| == |raw|;
    forall i | 0 <= i < |raw|
      ensures Delivered(batch)[i] == raw[i]
    {
      assert raw[i].SampleItem?;
    }
  }

  /** On delivered samples, the handler as the queue calls it is the batch handler. */
  lemma {:induction false} ProcessRawBatchDelivered(top: ServiceStore, batch: seq<EndpointSample>)
    ensures ProcessRawBatch(top, Delivered(batch)) == Some(ProcessBatch(top, batch))
  {
    ConvertDeliveredRoundTrip(batch);
  }

  /** An empty batch leaves the store as it was. */
  lemma {:induction false} EmptyBatchChangesNothing(top: ServiceStore)
    ensures ProcessBatch(top, []) == top
  {
  }

  /**
    An endpoint already stored keeps its earlier samples: its history
    afterwards is the last `capacity` of its earlier history followed by
    the batch's samples for it, in batch order.
   */
  lemma {:induction false} ProcessBatchHistory(top: ServiceStore, batch: seq<EndpointSample>, k: string)
    requires ServiceStoreValid(top)
    requires |batch| > 0
    requires ServiceKey(batch[0]) in top && k in top[ServiceKey(batch[0])].store
    ensures ServiceKey(batch[0]) in ProcessBatch(top, batch)
    ensures k in ProcessBatch(top, batch)[ServiceKey(batch[0])].store
    ensures Get(ProcessBatch(top, batch)[ServiceKey(batch[0])].store[k])
      == LastN(Get(top[ServiceKey(batch[0])].store[k]) + SamplesFor(batch, k), top[ServiceKey(batch[0])].store[k].capacity)
  {
    var ep := top[ServiceKey(batch[0])].store[k];
    ProcessBatchEndpoint(top, batch, k);
    ServiceBeforeValid(top, ServiceKey(batch[0]));
    assert WellFiled(ServiceBefore(top, ServiceKey(batch[0])), k);
    IL.AddAllHistory(ep, SamplesFor(batch, k));
  }

  /**
    An endpoint the batch creates has the first such sample's URL, the
    zero weight and status of a new endpoint, and holds the last ten of
    the batch's samples for it, in batch order.
   */
  lemma {:induction false} ProcessBatchCreates(top: ServiceStore, batch: seq<EndpointSample>, k: string)
    requires ServiceStoreValid(top)
    requires |batch| > 0
    requires k !in ServiceBefore(top, ServiceKey(batch[0])) && k in BatchKeys(batch)
    ensures ServiceKey(batch[0]) in ProcessBatch(top, batch)
    ensures k in ProcessBatch(top, batch)[ServiceKey(batch[0])].store
    ensures ProcessBatch(top, batch)[ServiceKey(batch[0])].store[k].url == FirstUrlFor(batch, k)
    ensures ProcessBatch(top, batch)[ServiceKey(batch[0])].store[k].capacity == EndpointCapacity
    ensures ProcessBatch(top, batch)[ServiceKey(batch[0])].store[k].weight == 0
    ensures ProcessBatch(top, batch)[ServiceKey(batch[0])].store[k].status == NoReason
    ensures Get(ProcessBatch(top, batch)[ServiceKey(batch[0])].store[k]) == LastN(SamplesFor(batch, k), EndpointCapacity)
  {
    var ep := NewEndpoint(EndpointCapacity, FirstUrlFor(batch, k));
    ProcessBatchEndpoint(top, batch, k);
    IL.AddAllKeepsFields(ep, SamplesFor(batch, k));
    IL.AddAllHistory(ep, SamplesFor(batch, k));
    assert Get(ep) + SamplesFor(batch, k) == SamplesFor(batch, k);
  }
}
