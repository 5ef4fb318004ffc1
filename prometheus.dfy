/**
 * The request metrics (prometheus.go): a request counter and a latency
 * histogram, both keyed by the labels (method, client, success), with the
 * constant labels app and chain fixed when they are built. The counter vector
 * is a map from label key to count, the histogram a map from label key to the
 * sequence of samples observed under it (bucket counting is the backend's).
 */
module Prometheus {

  const LabelApp: string := "app"
  const LabelChain: string := "chain"
  const LabelSuccess: string := "success"
  const LabelMethod: string := "method"
  const LabelClient: string := "client"

  /** The variable label keys of both vectors, in this order. */
  const VariableLabels: seq<string> := [LabelMethod, LabelClient, LabelSuccess]

  /** Upper bounds of the latency histogram's buckets, in milliseconds. */
  const LatencyBucket: seq<int> := [2, 4, 8, 16, 32, 64, 128, 256, 512, 1024, 2048]

  function Pow2(n: nat): (p: nat)
    ensures p >= 1
  {
    if n == 0 then 1 else 2 * Pow2(n - 1)
  }

  /** The buckets are the eleven powers of two from 2 to 2048, strictly increasing. */
  lemma LatencyBucketsArePowersOfTwo()
    ensures |LatencyBucket| == 11
    ensures forall i :: 0 <= i < |LatencyBucket| ==> LatencyBucket[i] == Pow2(i + 1)
    ensures forall i, j :: 0 <= i < j < |LatencyBucket| ==> LatencyBucket[i] < LatencyBucket[j]
  {
    assert Pow2(11) == 2048 by {
      assert Pow2(1) == 2 && Pow2(2) == 4 && Pow2(3) == 8 && Pow2(4) == 16;
      assert Pow2(5) == 32 && Pow2(6) == 64 && Pow2(7) == 128 && Pow2(8) == 256;
      assert Pow2(9) == 512 && Pow2(10) == 1024;
    }
  }

  /** strconv.FormatBool: the success label is "true" exactly for true and "false" otherwise. */
  function FormatBool(b: bool): (s: string)
    ensures b ==> s == "true"
    ensures !b ==> s == "false"
  {
    if b then "true" else "false"
  }

  /** Distinct outcomes get distinct success labels. */
  lemma FormatBoolInjective(a: bool, b: bool)
    ensures FormatBool(a) == FormatBool(b) <==> a == b
  {
  }

  const NanosPerMilli: nat := 1000000

  /**
   * time.Duration.Milliseconds on a duration in nanoseconds: integer division
   * by one million truncated toward zero, so the magnitude is the whole number
   * of milliseconds in the duration and the sign is the duration's.
   */
  function Milliseconds(d: int): (ms: int)
    ensures 0 <= d ==> 0 <= ms && ms * NanosPerMilli <= d < (ms + 1) * NanosPerMilli
    ensures d < 0 ==> ms <= 0 && -ms * NanosPerMilli <= -d < (-ms + 1) * NanosPerMilli
  {
    if d >= 0 then d / NanosPerMilli else -((-d) / NanosPerMilli)
  }

  /** The label key (method, client, success) of the counter and the histogram. */
  type Key = (string, string, string)

  /** One call of Observe: its labels and the latency sample it recorded. */
  datatype Observation = Observation(op: string, client: string, successful: bool, latencyMs: int)

  function KeyOf(o: Observation): Key {
    (o.op, o.client, FormatBool(o.successful))
  }

  /** The value of a counter; a key never incremented reads as zero. */
  function Count(m: map<Key, nat>, k: Key): nat {
    if k in m then m[k] else 0
  }

  /** The samples recorded under a key; none for a key never observed. */
  function SamplesAt(m: map<Key, seq<int>>, k: Key): seq<int> {
    if k in m then m[k] else []
  }

  /** The counter vector after a history of observations, starting from no series. */
  function Counts(h: seq<Observation>): map<Key, nat> {
    if h == [] then map[]
    else
      var c := Counts(h[..|h| - 1]);
      var k := KeyOf(h[|h| - 1]);
      c[k := Count(c, k) + 1]
  }

  /** The histogram samples after a history of observations, starting from no series. */
  function Samples(h: seq<Observation>): map<Key, seq<int>> {
    if h == [] then map[]
    else
      var s := Samples(h[..|h| - 1]);
      var o := h[|h| - 1];
      s[KeyOf(o) := SamplesAt(s, KeyOf(o)) + [o.latencyMs]]
  }

  /** Reference definition: how many observations of h carry key k. */
  function Occurrences(h: seq<Observation>, k: Key): nat {
    if h == [] then 0
    else (if KeyOf(h[0]) == k then 1 else 0) + Occurrences(h[1..], k)
  }

  /** Reference definition: the latencies of the observations of h with key k, in order. */
  function LatenciesOf(h: seq<Observation>, k: Key): seq<int> {
    if h == [] then []
    else (if KeyOf(h[0]) == k then [h[0].latencyMs] else []) + LatenciesOf(h[1..], k)
  }

  lemma {:induction false} OccurrencesAppend(a: seq<Observation>, b: seq<Observation>, k: Key)
    ensures Occurrences(a + b, k) == Occurrences(a, k) + Occurrences(b, k)
  {
    if a != [] {
      assert (a + b)[1..] == a[1..] + b;
      OccurrencesAppend(a[1..], b, k);
    } else {
      assert a + b == b;
    }
  }

  lemma {:induction false} LatenciesOfAppend(a: seq<Observation>, b: seq<Observation>, k: Key)
    ensures LatenciesOf(a + b, k) == LatenciesOf(a, k) + LatenciesOf(b, k)
  {
    if a != [] {
      assert (a + b)[1..] == a[1..] + b;
      LatenciesOfAppend(a[1..], b, k);
    } else {
      assert a + b == b;
    }
  }

  /** One more observation increments its own key by one and leaves every other key alone. */
  lemma ObserveStep(h: seq<Observation>, o: Observation)
    ensures Counts(h + [o]) == Counts(h)[KeyOf(o) := Count(Counts(h), KeyOf(o)) + 1]
    ensures Samples(h + [o]) == Samples(h)[KeyOf(o) := SamplesAt(Samples(h), KeyOf(o)) + [o.latencyMs]]
  {
  }

  /** The counter at k is the number of observations with key k. */
  lemma {:induction false} CountIsOccurrences(h: seq<Observation>, k: Key)
    ensures Count(Counts(h), k) == Occurrences(h, k)
  {
    if h != [] {
      var p, o := h[..|h| - 1], h[|h| - 1];
      assert h == p + [o];
      CountIsOccurrences(p, k);
      OccurrencesAppend(p, [o], k);
      assert Occurrences([o], k) == if KeyOf(o) == k then 1 else 0;
    }
  }

  /** The samples at k are the latencies of the observations with key k, in order. */
  lemma {:induction false} SamplesAreLatencies(h: seq<Observation>, k: Key)
    ensures SamplesAt(Samples(h), k) == LatenciesOf(h, k)
  {
    if h != [] {
      var p, o := h[..|h| - 1], h[|h| - 1];
      assert h == p + [o];
      SamplesAreLatencies(p, k);
      LatenciesOfAppend(p, [o], k);
      assert LatenciesOf([o], k) == if KeyOf(o) == k then [o.latencyMs] else [];
    }
  }

  /** Counter and histogram agree: one sample per counted request, under every key. */
  lemma {:induction false} OneSamplePerCount(h: seq<Observation>, k: Key)
    ensures |SamplesAt(Samples(h), k)| == Count(Counts(h), k)
  {
    if h != [] {
      var p, o := h[..|h| - 1], h[|h| - 1];
      assert h == p + [o];
      ObserveStep(p, o);
      OneSamplePerCount(p, k);
    }
  }

  /** Further observations add to a counter exactly the number of them that carry its key. */
  lemma CountsAppend(h: seq<Observation>, more: seq<Observation>, k: Key)
    ensures Count(Counts(h + more), k) == Count(Counts(h), k) + Occurrences(more, k)
  {
    CountIsOccurrences(h + more, k);
    CountIsOccurrences(h, k);
    OccurrencesAppend(h, more, k);
  }

  /** Counters never decrease. */
  lemma CountsMonotonic(h: seq<Observation>, more: seq<Observation>, k: Key)
    ensures Count(Counts(h), k) <= Count(Counts(h + more), k)
  {
    CountsAppend(h, more, k);
  }

  /** Starting from zero, N observations that all carry key k leave the counter at k at N. */
  lemma {:induction false} NObservationsCountN(h: seq<Observation>, k: Key)
    requires forall i :: 0 <= i < |h| ==> KeyOf(h[i]) == k
    ensures Count(Counts(h), k) == |h|
  {
    if h != [] {
      var p := h[..|h| - 1];
      assert forall i :: 0 <= i < |p| ==> KeyOf(p[i]) == k by {
        forall i | 0 <= i < |p| ensures KeyOf(p[i]) == k { assert p[i] == h[i]; }
      }
      NObservationsCountN(p, k);
    }
  }

  /** Options shared by the counter and histogram vectors. */
  datatype VecOpts = VecOpts(
    name: string,
    help: string,
    constLabels: map<string, string>,
    variableLabels: seq<string>,
    buckets: seq<int>)

  function ConstLabels(appName: string, chainName: string): map<string, string> {
    map[LabelApp := appName, LabelChain := chainName]
  }

  function CounterOpts(appName: string, chainName: string): VecOpts {
    VecOpts("rpc_request_total", "RPC requests counts", ConstLabels(appName, chainName), VariableLabels, [])
  }

  function HistogramOpts(appName: string, chainName: string): VecOpts {
    VecOpts("rpc_latency_milliseconds", "RPC request latency in milliseconds",
            ConstLabels(appName, chainName), VariableLabels, LatencyBucket)
  }

  /**
   * Both vectors carry the same constant labels app and chain, valued by the
   * construction arguments, and exactly the variable label keys method, client,
   * success; no constant label key is also a variable one.
   */
  lemma VectorLabels(appName: string, chainName: string)
    ensures var c, l := CounterOpts(appName, chainName), HistogramOpts(appName, chainName);
      && c.constLabels == l.constLabels
      && c.constLabels.Keys == {"app", "chain"}
      && c.constLabels["app"] == appName && c.constLabels["chain"] == chainName
      && c.variableLabels == l.variableLabels == ["method", "client", "success"]
      && (forall i :: 0 <= i < |c.variableLabels| ==> c.variableLabels[i] !in c.constLabels)
      && l.buckets == LatencyBucket
  {
  }

  /**
   * The metrics of one client. req and latency are the two label-keyed
   * vectors, registered whether they are attached to the default registry;
   * history is the sequence of observations made so far.
   */
  class Metrics {
    const reqOpts: VecOpts
    const latencyOpts: VecOpts
    var req: map<Key, nat>
    var latency: map<Key, seq<int>>
    var registered: bool
    ghost var history: seq<Observation>

    /** The vectors hold exactly what the observations so far put in them. */
    ghost predicate Valid()
      reads this
    {
      req == Counts(history) && latency == Samples(history)
    }

    /** newMetrics: fresh, unregistered vectors with the constant labels app and chain. */
    constructor (appName: string, chainName: string)
      ensures Valid()
      ensures reqOpts == CounterOpts(appName, chainName)
      ensures latencyOpts == HistogramOpts(appName, chainName)
      ensures history == [] && req == map[] && latency == map[] && !registered
    {
      reqOpts := CounterOpts(appName, chainName);
      latencyOpts := HistogramOpts(appName, chainName);
      req := map[];
      latency := map[];
      registered := false;
      history := [];
    }

    method Register()
      modifies this
      ensures registered
      ensures req == old(req) && latency == old(latency) && history == old(history)
    {
      registered := true;
    }

    method Unregister()
      modifies this
      ensures !registered
      ensures req == old(req) && latency == old(latency) && history == old(history)
    {
      registered := false;
    }

    /**
     * Observe: one request of operation op against client, successful or not, that
     * took elapsed nanoseconds. The counter at (op, client, FormatBool(successful))
     * grows by one, one sample of the elapsed whole milliseconds is appended
     * under the same key, and no other key and not the registration change.
     */
    method Observe(op: string, elapsed: int, client: string, successful: bool)
      requires Valid()
      modifies this
      ensures Valid()
      ensures history == old(history) + [Observation(op, client, successful, Milliseconds(elapsed))]
      ensures var k := (op, client, FormatBool(successful));
        && req == old(req)[k := Count(old(req), k) + 1]
        && latency == old(latency)[k := SamplesAt(old(latency), k) + [Milliseconds(elapsed)]]
      ensures registered == old(registered)
    {
      var k := (op, client, FormatBool(successful));
      var ms := Milliseconds(elapsed);
      ghost var o := Observation(op, client, successful, ms);
      ObserveStep(history, o);
      req := req[k := Count(req, k) + 1];
      latency := latency[k := SamplesAt(latency, k) + [ms]];
      history := history + [o];
    }
  }
}
