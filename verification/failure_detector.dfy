/**
  The failure detector's batch handler. A batch holds the samples
  delivered together for one service. The handler fetches or creates the
  service's endpoint store, then fetches or creates each sample's
  endpoint, records the sample on it and files the endpoint back. Last,
  it files the store back into the top-level store.

  Both stores are maps here. A store files an object under the key its
  key function gives for that object: endpoints under their URL host, and
  wrapped stores under their batch key.
 */
module FailureDetector {
  import opened Wrappers
  import opened Interfaces

  /** The top-level store: service key to that service's wrapped endpoint store. */
  type ServiceStore = map<string, WrappedStore>

  /** The number of samples kept per endpoint. */
  const EndpointCapacity: nat := 10

  /** Every endpoint is filed under its own key and holds no more samples than its capacity. */
  ghost predicate EndpointStoreValid(store: EndpointStore)
  {
    forall k :: WellFiled(store, k)
  }

  /** The endpoint under `k`, if any, is filed under its own key and within its capacity. */
  ghost predicate WellFiled(store: EndpointStore, k: string)
  {
    k in store ==> EndpointKey(store[k]) == k && |store[k].history| <= store[k].capacity
  }

  /** Every wrapped store is filed under its batch key and is itself valid. */
  ghost predicate ServiceStoreValid(top: ServiceStore)
  {
    forall k :: ServiceFiled(top, k)
  }

  /** The wrapped store under `k`, if any, carries `k` as its batch key and is valid. */
  ghost predicate ServiceFiled(top: ServiceStore, k: string)
  {
    k in top ==> top[k].batchKey == k && EndpointStoreValid(top[k].store)
  }

  /** The endpoint keys a batch names. */
  function BatchKeys(batch: seq<EndpointSample>): set<string>
    decreases |batch|
  {
    if |batch| == 0 then {} else {EndpointSampleKey(batch[0])} + BatchKeys(batch[1..])
  }

  /** An item as the batch queue delivers it: an endpoint sample, or a value of any other type. */
  datatype RawItem = SampleItem(sample: EndpointSample) | OtherItem

  /**
    Casts every delivered item to an endpoint sample, keeping the order.
    The cast of an item of another type fails at run time; that failure
    is None here.
   */
  function ConvertToEndpointSample(raw: seq<RawItem>): (r: Option<seq<EndpointSample>>)
    ensures r.Some? <==> forall i :: 0 <= i < |raw| ==> raw[i].SampleItem?
    ensures r.Some? ==> |r.value| == |raw| && forall i :: 0 <= i < |raw| ==> r.value[i] == raw[i].sample
    decreases |raw|
  {
    if |raw| == 0 then Some([])
    else match raw[0]
      case OtherItem => None
      case SampleItem(s) =>
        match ConvertToEndpointSample(raw[1..])
        case None => None
        case Some(rest) => Some([s] + rest)
  }

  /** A sample paired with the key of the endpoint it belongs to. */
  datatype KeySample = KeySample(key: string, sample: Sample)

  /** Splits a collected sample into its endpoint key and the retained sample. */
  function ConvertToKeySample(s: EndpointSample): (r: KeySample)
    ensures r.key == EndpointSampleKey(s)
    ensures r.sample.failed == s.failed
  {
    KeySample(EndpointSampleKey(s), Sample(s.failed))
  }

  /** An endpoint store's Add: files the endpoint under its own key. */
  function AddEndpoint(store: EndpointStore, ep: Endpoint): EndpointStore
  {
    store[EndpointKey(ep) := ep]
  }

  /** The top-level store's Add: files the wrapped store under its batch key. */
  function AddService(top: ServiceStore, ws: WrappedStore): ServiceStore
  {
    top[WrappedStoreKey(ws) := ws]
  }

  /**
    The endpoint filed under `key`, or else a new one with room for ten
    samples and the given URL.
   */
  function FetchOrCreate(store: EndpointStore, key: string, url: Option<Url>): Endpoint
  {
    if key in store then store[key] else NewEndpoint(EndpointCapacity, url)
  }

  /**
    One sample: fetch its endpoint, or create one with room for ten
    samples and the sample's URL; record the sample; file the endpoint.
   */
  function RecordSample(store: EndpointStore, s: EndpointSample): EndpointStore
  {
    var ks := ConvertToKeySample(s);
    AddEndpoint(store, Add(FetchOrCreate(store, ks.key, s.url), ks.sample))
  }

  /** The samples of a batch, in batch order. */
  function RecordSamples(store: EndpointStore, batch: seq<EndpointSample>): EndpointStore
    decreases |batch|
  {
    if |batch| == 0 then store else RecordSamples(RecordSample(store, batch[0]), batch[1..])
  }

  /** The wrapped store filed under `key`, or else a new empty one with that batch key. */
  function FetchOrCreateService(top: ServiceStore, key: string): WrappedStore
  {
    if key in top then top[key] else NewWrappedStore(map[], key)
  }

  /**
    The batch handler. An empty batch changes nothing. Otherwise the
    batch key is the service key of the first sample; every sample of
    the batch goes into the store found (or created) under that key.
   */
  function ProcessBatch(top: ServiceStore, batch: seq<EndpointSample>): (r: ServiceStore)
    ensures |batch| == 0 ==> r == top
  {
    if |batch| == 0 then top
    else
      var serviceStore := FetchOrCreateService(top, ServiceKey(batch[0]));
      AddService(top, WrappedStore(RecordSamples(serviceStore.store, batch), serviceStore.batchKey))
  }

  /**
    The batch handler as the queue calls it, on the delivered items: an
    empty batch changes nothing; otherwise the items are cast and the
    samples processed. None stands for a failed cast.
   */
  function ProcessRawBatch(top: ServiceStore, raw: seq<RawItem>): (r: Option<ServiceStore>)
    ensures |raw| == 0 ==> r == Some(top)
    ensures r.None? <==> exists i :: 0 <= i < |raw| && raw[i].OtherItem?
  {
    if |raw| == 0 then Some(top)
    else match ConvertToEndpointSample(raw)
      case None => None
      case Some(batch) => Some(ProcessBatch(top, batch))
  }

}
