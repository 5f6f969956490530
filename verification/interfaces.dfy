/**
  Types and key functions of the failure detector: the collected sample,
  the per-endpoint record with its bounded sample history, the wrapped
  per-service store, and the functions that derive store keys from them.
 */
module Interfaces {
  import opened Wrappers

  /** A URL reduced to what the detector reads; the host is the endpoint's identity. */
  datatype Url = Url(scheme: string, host: string)

  /** One retained outcome; only whether an error was present is significant. */
  datatype Sample = Sample(failed: bool)

  /** What a caller reports for one request to one endpoint of one service. */
  datatype EndpointSample = EndpointSample(namespace: string, service: string, url: Option<Url>, failed: bool)

  /** The endpoint's status reason: the empty string, or the too-many-errors reason. */
  datatype Status = NoReason | TooManyErrors

  /**
    The record stored per endpoint. `history` holds the retained samples,
    oldest first, and never more than `capacity` of them; `weight` is in
    tenths (10 stands for 1.0).
   */
  datatype Endpoint = Endpoint(capacity: nat, history: seq<Sample>, url: Option<Url>, status: Status, weight: int)

  /** Store keyed by endpoint key, scoped to one service. */
  type EndpointStore = map<string, Endpoint>

  /** An endpoint store that remembers the service (batch) key it belongs to. */
  datatype WrappedStore = WrappedStore(store: EndpointStore, batchKey: string)

  function Min(a: int, b: int): int { if a <= b then a else b }

  function Max(a: int, b: int): int { if a <= b then b else a }

  /** The last `n` elements of `xs` (all of them when there are fewer). */
  function LastN<T>(xs: seq<T>, n: nat): (r: seq<T>)
    ensures |r| == Min(|xs|, n)
  {
    if |xs| <= n then xs else xs[|xs| - n..]
  }

  /** The service key of a sample: namespace and service joined by a slash. */
  function ServiceKey(s: EndpointSample): (key: string)
    ensures |key| == |s.namespace| + 1 + |s.service|
    ensures key[..|s.namespace|] == s.namespace
    ensures key[|s.namespace|] == '/'
    ensures key[|s.namespace| + 1..] == s.service
  {
    s.namespace + "/" + s.service
  }

  /** The host of an optional URL, the empty string when there is none. */
  function HostOf(url: Option<Url>): string
  {
    match url
    case None => ""
    case Some(u) => u.host
  }

  /** The endpoint key of a sample: its URL's host, or "" for a missing URL. */
  function EndpointSampleKey(s: EndpointSample): (key: string)
    ensures s.url.None? ==> key == ""
    ensures s.url.Some? ==> key == s.url.value.host
  {
    HostOf(s.url)
  }

  /** The key under which an endpoint store files an endpoint. */
  function EndpointKey(ep: Endpoint): (key: string)
    ensures ep.url.None? ==> key == ""
    ensures ep.url.Some? ==> key == ep.url.value.host
  {
    HostOf(ep.url)
  }

  /** The key under which the top-level store files a wrapped store: its batch key. */
  function WrappedStoreKey(w: WrappedStore): string
  {
    w.batchKey
  }

  function NewWrappedStore(delegate: EndpointStore, batchKey: string): (w: WrappedStore)
    ensures WrappedStoreKey(w) == batchKey
    ensures w.store == delegate
  {
    WrappedStore(delegate, batchKey)
  }

  /**
    A view of the history as `capacity` slots: the unfilled slots (None),
    then the retained samples oldest first. The view fixes how many slots
    there are and which of them hold a sample, not where the stored slot
    array puts them.
   */
  function Slots(ep: Endpoint): (slots: seq<Option<Sample>>)
    requires |ep.history| <= ep.capacity
    ensures |slots| == ep.capacity
  {
    seq(ep.capacity - |ep.history|, _ => None) + seq(|ep.history|, i requires 0 <= i < |ep.history| => Some(ep.history[i]))
  }

  /**
    A new endpoint: `size` empty slots and the given URL. Status and
    weight keep their zero values ("" and 0.0).
   */
  function NewEndpoint(size: nat, url: Option<Url>): (ep: Endpoint)
    ensures ep.capacity == size && ep.url == url
    ensures |ep.history| == 0
    ensures |Slots(ep)| == size && forall i :: 0 <= i < size ==> Slots(ep)[i] == None
    ensures ep.status == NoReason && ep.weight == 0
  {
    Endpoint(size, [], url, NoReason, 0)
  }

  /** Records a sample, dropping the oldest one once `capacity` are held. */
  function Add(ep: Endpoint, s: Sample): (r: Endpoint)
    ensures r.capacity == ep.capacity && r.url == ep.url
    ensures r.status == ep.status && r.weight == ep.weight
    ensures |r.history| == Min(|ep.history| + 1, ep.capacity)
  {
    ep.(history := LastN(ep.history + [s], ep.capacity))
  }

  /** Records the samples in order. */
  function AddAll(ep: Endpoint, xs: seq<Sample>): Endpoint
    decreases |xs|
  {
    if |xs| == 0 then ep else AddAll(Add(ep, xs[0]), xs[1..])
  }

  /** The retained samples, oldest first. */
  function Get(ep: Endpoint): seq<Sample>
  {
    ep.history
  }
}
