/**
  Properties of the key functions and of the endpoint history.

  Every lemma here turns Dafny's automatic induction off: the proofs that
  need induction write it out, and leaving it on made solving over
  sequences and stores unstable.
 */
module InterfacesLemmas {
  import opened Wrappers
  import opened Interfaces

  /** Position of the first '/' in `s`, or |s| when there is none. */
  function FirstSlash(s: string): (i: nat)
    ensures i <= |s|
    ensures i < |s| ==> s[i] == '/'
    ensures forall j :: 0 <= j < i ==> s[j] != '/'
  {
    if |s| == 0 then 0
    else if s[0] == '/' then 0
    else 1 + FirstSlash(s[1..])
  }

  /** Reads a service key back into namespace and service, splitting at the first slash. */
  function SplitServiceKey(key: string): Option<(string, string)>
  {
    var i := FirstSlash(key);
    if i == |key| then None else Some((key[..i], key[i + 1..]))
  }

  /** A namespace never holds a slash, so the service key can be read back. */
  lemma {:induction false} ServiceKeyRoundTrip(s: EndpointSample)
    requires forall j :: 0 <= j < |s.namespace| ==> s.namespace[j] != '/'
    ensures SplitServiceKey(ServiceKey(s)) == Some((s.namespace, s.service))
  {
    var key := ServiceKey(s);
    assert key[|s.namespace|] == '/';
    assert FirstSlash(key) == |s.namespace|;
  }

  /** Distinct (namespace, service) pairs get distinct service keys. */
  lemma {:induction false} ServiceKeyInjective(a: EndpointSample, b: EndpointSample)
    requires forall j :: 0 <= j < |a.namespace| ==> a.namespace[j] != '/'
    requires forall j :: 0 <= j < |b.namespace| ==> b.namespace[j] != '/'
    requires ServiceKey(a) == ServiceKey(b)
    ensures a.namespace == b.namespace && a.service == b.service
  {
    ServiceKeyRoundTrip(a);
    ServiceKeyRoundTrip(b);
  }

  /**
    A sample without a URL and a sample whose URL has an empty host share
    the endpoint key "", so both land on the same endpoint.
   */
  lemma {:induction false} MissingUrlSharesEmptyHostKey(s: EndpointSample, scheme: string)
    requires s.url.None?
    ensures EndpointSampleKey(s) == EndpointSampleKey(s.(url := Some(Url(scheme, ""))))
  {
  }

  /**
    An endpoint created from a sample's URL is filed under that sample's
    key however many samples it has recorded since.
   */
  lemma {:induction false} CreatedEndpointKeyMatchesSample(s: EndpointSample, size: nat, xs: seq<Sample>)
    ensures EndpointKey(AddAll(NewEndpoint(size, s.url), xs)) == EndpointSampleKey(s)
  {
    AddAllKeepsFields(NewEndpoint(size, s.url), xs);
  }

  /** Recording a run of samples changes only the history. */
  lemma {:induction false} AddAllKeepsFields(ep: Endpoint, xs: seq<Sample>)
    ensures AddAll(ep, xs).capacity == ep.capacity && AddAll(ep, xs).url == ep.url
    ensures AddAll(ep, xs).status == ep.status && AddAll(ep, xs).weight == ep.weight
    decreases |xs|
  {
    if |xs| > 0 {
      AddAllKeepsFields(Add(ep, xs[0]), xs[1..]);
    }
  }

  /**
    The samples an endpoint returns are its filled slots, in slot order:
    at most `capacity` of them, occupying the last slots.
   */
  lemma {:induction false} GetIsFilledSlots(ep: Endpoint)
    requires |ep.history| <= ep.capacity
    ensures |Get(ep)| <= ep.capacity
    ensures Slots(ep)[ep.capacity - |Get(ep)|..] == seq(|Get(ep)|, i requires 0 <= i < |Get(ep)| => Some(Get(ep)[i]))
    ensures forall i :: 0 <= i < ep.capacity - |Get(ep)| ==> Slots(ep)[i].None?
  {
  }

  /** A new endpoint returns no samples. */
  lemma {:induction false} NewEndpointGetIsEmpty(size: nat, url: Option<Url>)
    ensures Get(NewEndpoint(size, url)) == []
  {
  }

  /**
    Recording a sample keeps the newest samples: the history afterwards is
    a suffix of the old history followed by the sample, and (when there is
    room for any sample) the sample is the newest one held.
   */
  lemma {:induction false} AddKeepsNewest(ep: Endpoint, s: Sample)
    ensures Get(Add(ep, s)) == (Get(ep) + [s])[|Get(ep)| + 1 - |Get(Add(ep, s))|..]
    ensures ep.capacity > 0 ==> Get(Add(ep, s))[|Get(Add(ep, s))| - 1] == s
  {
  }

  /** Keeping the last n of a sequence and then appending loses nothing of the last n. */
  lemma {:induction false} LastNAppend<T>(a: seq<T>, b: seq<T>, n: nat)
    ensures LastN(LastN(a, n) + b, n) == LastN(a + b, n)
  {
    var la := LastN(a, n);
    assert la + b == (a + b)[|a| - |la|..];
    var l := LastN(la + b, n);
    var r := LastN(a + b, n);
    assert |l| == |r|;
    forall i | 0 <= i < |l|
      ensures l[i] == r[i]
    {
      assert l[i] == (la + b)[|la + b| - |l| + i];
      assert r[i] == (a + b)[|a + b| - |r| + i];
    }
  }

  /** The last n of the last c elements, for n <= c, are the last n elements. */
  lemma {:induction false} LastNOfLastN<T>(a: seq<T>, c: nat, n: nat)
    requires n <= c
    ensures LastN(LastN(a, c), n) == LastN(a, n)
  {
    var l := LastN(LastN(a, c), n);
    var r := LastN(a, n);
    forall i | 0 <= i < |l|
      ensures l[i] == r[i]
    {
      assert l[i] == LastN(a, c)[|LastN(a, c)| - |l| + i];
    }
  }

  /** When `b` has at least n elements, the last n of `a + b` all come from `b`. */
  lemma {:induction false} LastNOfLongTail<T>(a: seq<T>, b: seq<T>, n: nat)
    requires n <= |b|
    ensures LastN(a + b, n) == b[|b| - n..]
  {
    var ab := a + b;
    assert LastN(ab, n) == ab[|ab| - n..];
    assert ab[|ab| - n..] == b[|b| - n..] by {
      assert |ab| - n == |a| + (|b| - n);
      assert ab[|a|..] == b;
    }
  }

  /**
    The history after recording `xs` is the last `capacity` samples of the
    old history followed by `xs`: only the most recent samples are kept,
    in the order they were added.
   */
  lemma {:induction false} AddAllHistory(ep: Endpoint, xs: seq<Sample>)
    requires |ep.history| <= ep.capacity
    ensures Get(AddAll(ep, xs)) == LastN(Get(ep) + xs, ep.capacity)
    decreases |xs|
  {
    if |xs| == 0 {
      assert Get(ep) + xs == Get(ep);
    } else {
      var ep1 := Add(ep, xs[0]);
      AddAllHistory(ep1, xs[1..]);
      LastNAppend(ep.history + [xs[0]], xs[1..], ep.capacity);
      assert ep.history + [xs[0]] + xs[1..] == ep.history + xs;
    }
  }

  /** Recording two runs of samples is recording their concatenation. */
  lemma {:induction false} AddAllConcat(ep: Endpoint, xs: seq<Sample>, ys: seq<Sample>)
    ensures AddAll(AddAll(ep, xs), ys) == AddAll(ep, xs + ys)
    decreases |xs|
  {
    if |xs| > 0 {
      AddAllConcat(Add(ep, xs[0]), xs[1..], ys);
      assert (xs + ys)[1..] == xs[1..] + ys;
    } else {
      assert xs + ys == ys;
    }
  }
}
