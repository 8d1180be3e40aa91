/**
 Runtime counters kept by guards. Every live guard is recorded, so the counters can
 be said to equal what the live guards account for; the 64-bit counters wrap, so
 they do so modulo 2^64.
 */
module Metrics {
  import opened Options

  const U64_LIMIT: nat := 0x1_0000_0000_0000_0000
  const U64_MAX: nat := 0xffff_ffff_ffff_ffff

  /** Upper bounds of the duration buckets, in seconds. */
  const BOUNDS: seq<real> := [0.005, 0.01, 0.025, 0.05, 0.1, 0.25, 0.5, 1.0, 5.0]

  datatype HttpKey = HttpKey(verb: string, route: string)
  datatype HttpGuard = HttpGuard(key: HttpKey, bytes: nat)
  datatype Upstream = Kubernetes | Prometheus | Webhook

  datatype Series = Series(
    byStatus: map<string, nat>, count: nat, sum: real, buckets: seq<nat>, requestBytes: nat, responseBytes: nat)

  datatype Counters = Counters(active: nat, success: nat, error: nat)

  function Wrap(n: nat): nat { n % U64_LIMIT }

  function WrappingAdd(a: nat, b: nat): nat { Wrap(a + b) }

  function WrappingSub(a: nat, b: nat): nat
    requires b < U64_LIMIT
  {
    Wrap(a + U64_LIMIT - b)
  }

  function SaturatingAdd(a: nat, b: nat): nat { if a + b <= U64_MAX then a + b else U64_MAX }

  // ---------------------------------------------------------------------------- totals

  ghost function Total<K>(m: map<K, nat>): nat
    decreases |m|
  {
    if m == map[] then 0
    else
      var k :| k in m;
      m[k] + Total(m - {k})
  }

  lemma {:induction false} TotalWithout<K>(m: map<K, nat>, k: K)
    requires k in m
    ensures Total(m) == m[k] + Total(m - {k})
    decreases |m|
  {
    var j :| j in m && Total(m) == m[j] + Total(m - {j});
    if j != k {
      TotalWithout(m - {j}, k);
      TotalWithout(m - {k}, j);
      assert (m - {j}) - {k} == (m - {k}) - {j};
    }
  }

  lemma TotalWith<K>(m: map<K, nat>, k: K, v: nat)
    ensures k !in m ==> Total(m[k := v]) == Total(m) + v
    ensures k in m ==> Total(m[k := v]) + m[k] == Total(m) + v
  {
    TotalWithout(m[k := v], k);
    if k in m {
      TotalWithout(m, k);
      assert m[k := v] - {k} == m - {k};
    } else {
      assert m[k := v] - {k} == m;
    }
  }

  function Sizes(m: map<nat, HttpGuard>): map<nat, nat> { map g | g in m :: m[g].bytes }

  lemma WrapAdd(total: nat, b: nat)
    ensures WrappingAdd(Wrap(total), b) == Wrap(total + b)
  {
  }

  lemma WrapSub(total: nat, b: nat)
    requires b <= total && b < U64_LIMIT
    ensures WrappingSub(Wrap(total), b) == Wrap(total - b)
  {
  }

  /** A counter of live guards and a counter of their bytes. */
  ghost predicate Counts(active: nat, bytes: nat, m: map<nat, nat>) {
    && active == Wrap(|m|) && bytes == Wrap(Total(m))
    && forall g :: g in m ==> m[g] < U64_LIMIT
  }

  lemma CountsEmpty()
    ensures Counts(0, 0, map[])
  {
  }

  lemma CountsBegin(active: nat, bytes: nat, m: map<nat, nat>, id: nat, b: nat)
    requires Counts(active, bytes, m) && id !in m && b < U64_LIMIT
    ensures Counts(WrappingAdd(active, 1), WrappingAdd(bytes, b), m[id := b])
  {
    hide Wrap, WrappingAdd, Total;
    WrapAdd(|m|, 1);
    WrapAdd(Total(m), b);
    TotalWith(m, id, b);
  }

  lemma CountsEnd(active: nat, bytes: nat, m: map<nat, nat>, id: nat)
    requires Counts(active, bytes, m) && id in m
    ensures m[id] < U64_LIMIT && Counts(WrappingSub(active, 1), WrappingSub(bytes, m[id]), m - {id})
  {
    hide Wrap, WrappingSub, Total;
    SizeWithout(m, id);
    TotalWithout(m, id);
    WrapSub(|m|, 1);
    WrapSub(Total(m), m[id]);
  }

  lemma CountsSet(active: nat, bytes: nat, m: map<nat, nat>, id: nat, b: nat)
    requires Counts(active, bytes, m) && id in m && b < U64_LIMIT
    ensures b >= m[id] ==> Counts(active, WrappingAdd(bytes, b - m[id]), m[id := b])
    ensures b < m[id] ==> m[id] - b < U64_LIMIT && Counts(active, WrappingSub(bytes, m[id] - b), m[id := b])
  {
    hide Wrap, WrappingAdd, WrappingSub, Total;
    TotalWith(m, id, b);
    TotalWithout(m, id);
    if b >= m[id] {
      WrapAdd(Total(m), b - m[id]);
    } else {
      WrapSub(Total(m), m[id] - b);
    }
    assert m[id := b].Keys == m.Keys;
    assert |m[id := b]| == |m|;
  }

  // ---------------------------------------------------------------------------- series

  const EMPTY := Series(map[], 0, 0.0, [0, 0, 0, 0, 0, 0, 0, 0, 0], 0, 0)

  /** Each request is counted under one status, and in every bucket from its own on. */
  ghost predicate SeriesOk(s: Series) {
    && Total(s.byStatus) == s.count
    && |s.buckets| == |BOUNDS|
    && (forall i, j :: 0 <= i <= j < |s.buckets| ==> s.buckets[i] <= s.buckets[j])
    && (forall i :: 0 <= i < |s.buckets| ==> s.buckets[i] <= s.count)
  }

  lemma BoundsAscend(i: nat, j: nat)
    requires i <= j < |BOUNDS|
    ensures BOUNDS[i] <= BOUNDS[j]
  {
  }

  method CountBuckets(buckets: seq<nat>, elapsed: real) returns (counted: seq<nat>)
    requires |buckets| == |BOUNDS|
    ensures |counted| == |BOUNDS|
    ensures forall i :: 0 <= i < |BOUNDS| ==> counted[i] == buckets[i] + if elapsed <= BOUNDS[i] then 1 else 0
  {
    counted := buckets;
    for n := 0 to |BOUNDS|
      invariant |counted| == |BOUNDS|
      invariant forall i :: 0 <= i < n ==> counted[i] == buckets[i] + if elapsed <= BOUNDS[i] then 1 else 0
      invariant forall i :: n <= i < |BOUNDS| ==> counted[i] == buckets[i]
    {
      if elapsed <= BOUNDS[n] {
        counted := counted[n := counted[n] + 1];
      }
    }
  }

  /** One more request: its status, its duration in every bucket it fits, its bytes. */
  ghost predicate Recorded(s: Series, r: Series, elapsed: real, status: string, request: nat, response: nat) {
    && r.count == s.count + 1 && r.sum == s.sum + elapsed
    && r.byStatus == s.byStatus[status := (if status in s.byStatus then s.byStatus[status] else 0) + 1]
    && |r.buckets| == |s.buckets| == |BOUNDS|
    && (forall i :: 0 <= i < |BOUNDS| ==> r.buckets[i] == s.buckets[i] + if elapsed <= BOUNDS[i] then 1 else 0)
    && r.requestBytes == SaturatingAdd(s.requestBytes, request)
    && r.responseBytes == SaturatingAdd(s.responseBytes, response)
  }

  function SeriesAt(http: map<HttpKey, Series>, key: HttpKey): Series { if key in http then http[key] else EMPTY }

  method Record(s: Series, elapsed: real, status: string, request: nat, response: nat) returns (r: Series)
    requires SeriesOk(s)
    ensures SeriesOk(r) && Recorded(s, r, elapsed, status, request, response)
  {
    var before := if status in s.byStatus then s.byStatus[status] else 0;
    var buckets := CountBuckets(s.buckets, elapsed);
    TotalWith(s.byStatus, status, before + 1);
    forall i, j | 0 <= i <= j < |buckets| ensures buckets[i] <= buckets[j] {
      BoundsAscend(i, j);
    }
    r := Series(s.byStatus[status := before + 1], s.count + 1, s.sum + elapsed, buckets,
                SaturatingAdd(s.requestBytes, request), SaturatingAdd(s.responseBytes, response));
  }

  // ---------------------------------------------------------------------------- the counters

  const NO_CALLS: map<Upstream, Counters> :=
    map[Kubernetes := Counters(0, 0, 0), Prometheus := Counters(0, 0, 0), Webhook := Counters(0, 0, 0)]

  lemma NoCalls(u: Upstream)
    ensures CallsOk(NO_CALLS, map[], map[Kubernetes := 0, Prometheus := 0, Webhook := 0], u)
  {
    assert Live(map[], u) == {};
    match u
    case Kubernetes =>
    case Prometheus =>
    case Webhook =>
  }

  class Observability {
    var http: map<HttpKey, Series>
    var activeHttp: nat
    var requestBufferBytes: nat
    var activeSse: nat
    var sseBufferBytes: nat
    var upstream: map<Upstream, Counters>

    ghost var httpGuards: map<nat, HttpGuard>
    ghost var streams: map<nat, nat>
    ghost var calls: map<nat, Upstream>
    ghost var begun: map<Upstream, nat>
    ghost var finished: map<HttpKey, nat>

    ghost predicate Valid()
      reads this
    {
      && Counts(activeHttp, requestBufferBytes, Sizes(httpGuards))
      && Counts(activeSse, sseBufferBytes, streams)
      && AllSeries(http, finished)
      && forall u: Upstream :: CallsOk(upstream, calls, begun, u)
    }

    constructor ()
      ensures Valid() && httpGuards == map[] && streams == map[] && calls == map[]
    {
      http, activeHttp, requestBufferBytes, activeSse, sseBufferBytes := map[], 0, 0, 0, 0;
      upstream := NO_CALLS;
      httpGuards, streams, calls, finished := map[], map[], map[], map[];
      begun := map[Kubernetes := 0, Prometheus := 0, Webhook := 0];
      forall u ensures CallsOk(NO_CALLS, map[], map[Kubernetes := 0, Prometheus := 0, Webhook := 0], u) {
        NoCalls(u);
      }
      CountsEmpty();
      assert Sizes(map[]) == map[];
    }

    /** `begin_http`; the guard is known by a fresh identity. */
    method BeginHttp(key: HttpKey, bytes: nat, ghost id: nat)
      requires Valid() && id !in httpGuards && bytes < U64_LIMIT
      modifies this`activeHttp, this`requestBufferBytes, this`httpGuards
      ensures Valid() && httpGuards == old(httpGuards)[id := HttpGuard(key, bytes)]
    {
      hide Counts, AllSeries, CallsOk, WrappingAdd;
      CountsBegin(activeHttp, requestBufferBytes, Sizes(httpGuards), id, bytes);
      activeHttp := WrappingAdd(activeHttp, 1);
      requestBufferBytes := WrappingAdd(requestBufferBytes, bytes);
      httpGuards := httpGuards[id := HttpGuard(key, bytes)];
      assert Sizes(httpGuards) == Sizes(old(httpGuards))[id := bytes];
    }

    /** `finish_http`, by finishing the guard or by dropping it ("aborted"). */
    method FinishHttp(guard: HttpGuard, elapsed: real, status: string, response: nat, ghost id: nat)
      requires Valid() && id in httpGuards && httpGuards[id] == guard
      modifies this`http, this`activeHttp, this`requestBufferBytes, this`httpGuards, this`finished
      ensures Valid() && httpGuards == old(httpGuards) - {id}
      ensures finished
              == old(finished)[guard.key := (if guard.key in old(finished) then old(finished)[guard.key] else 0) + 1]
      ensures guard.key in http && http == old(http)[guard.key := http[guard.key]]
      ensures Recorded(SeriesAt(old(http), guard.key), http[guard.key], elapsed, status, guard.bytes, response)
    {
      hide Counts, CallsOk, WrappingSub, AllSeries, Recorded;
      CountsEnd(activeHttp, requestBufferBytes, Sizes(httpGuards), id);
      activeHttp := WrappingSub(activeHttp, 1);
      requestBufferBytes := WrappingSub(requestBufferBytes, guard.bytes);
      httpGuards := httpGuards - {id};
      assert Sizes(httpGuards) == Sizes(old(httpGuards)) - {id};
      var series := RecordHttp(guard, elapsed, status, response);
      ghost var n := if guard.key in finished then finished[guard.key] else 0;
      SeriesStep(http, finished, guard.key, series);
      finished := finished[guard.key := n + 1];
      http := http[guard.key := series];
    }

    method RecordHttp(guard: HttpGuard, elapsed: real, status: string, response: nat) returns (r: Series)
      requires AllSeries(http, finished)
      ensures SeriesOk(r) && r.count == (if guard.key in finished then finished[guard.key] else 0) + 1
      ensures Recorded(SeriesAt(http, guard.key), r, elapsed, status, guard.bytes, response)
    {
      EmptyOk();
      r := Record(SeriesAt(http, guard.key), elapsed, status, guard.bytes, response);
    }

    method BeginSse(ghost id: nat)
      requires Valid() && id !in streams
      modifies this`activeSse, this`sseBufferBytes, this`streams
      ensures Valid() && streams == old(streams)[id := 0]
    {
      hide Counts, AllSeries, CallsOk, WrappingAdd;
      CountsBegin(activeSse, sseBufferBytes, streams, id, 0);
      CountsAddNothing(activeSse, sseBufferBytes, streams);
      activeSse := WrappingAdd(activeSse, 1);
      streams := streams[id := 0];
    }

    /** `set_buffer_bytes`. */
    method SetBufferBytes(was: nat, bytes: nat, ghost id: nat)
      requires Valid() && id in streams && streams[id] == was && bytes < U64_LIMIT
      modifies this`sseBufferBytes, this`streams
      ensures Valid() && streams == old(streams)[id := bytes]
    {
      hide Counts, AllSeries, CallsOk, WrappingAdd, WrappingSub;
      CountsSet(activeSse, sseBufferBytes, streams, id, bytes);
      if bytes >= was {
        sseBufferBytes := WrappingAdd(sseBufferBytes, bytes - was);
      } else {
        sseBufferBytes := WrappingSub(sseBufferBytes, was - bytes);
      }
      streams := streams[id := bytes];
    }

    method DropSse(bytes: nat, ghost id: nat)
      requires Valid() && id in streams && streams[id] == bytes
      modifies this`activeSse, this`sseBufferBytes, this`streams
      ensures Valid() && streams == old(streams) - {id}
    {
      hide Counts, AllSeries, CallsOk, WrappingSub;
      CountsEnd(activeSse, sseBufferBytes, streams, id);
      sseBufferBytes := WrappingSub(sseBufferBytes, bytes);
      activeSse := WrappingSub(activeSse, 1);
      streams := streams - {id};
    }

    method BeginUpstream(u: Upstream, ghost id: nat)
      requires Valid() && id !in calls
      modifies this`upstream, this`calls, this`begun
      ensures Valid() && calls == old(calls)[id := u]
      ensures begun == old(begun)[u := (if u in old(begun) then old(begun)[u] else 0) + 1]
    {
      hide Counts, AllSeries, WrappingAdd, CallsOk;
      CallsListed(upstream, calls, begun, u);
      ghost var was := upstream;
      upstream := upstream[u := upstream[u].(active := WrappingAdd(upstream[u].active, 1))];
      CallBegins(was, calls, begun, u, id, upstream, calls[id := u], begun[u := begun[u] + 1]);
      calls, begun := calls[id := u], begun[u := begun[u] + 1];
    }

    /** Dropping the guard of a call, marked as a success or not. */
    method FinishUpstream(u: Upstream, success: bool, ghost id: nat)
      requires Valid() && id in calls && calls[id] == u
      modifies this`upstream, this`calls
      ensures Valid() && calls == old(calls) - {id}
      ensures u in upstream && u in old(upstream)
      ensures var c, c' := old(upstream)[u], upstream[u];
              c' == if success then c.(active := c'.active, success := WrappingAdd(c.success, 1))
                    else c.(active := c'.active, error := WrappingAdd(c.error, 1))
      ensures forall v :: v != u && v in old(upstream) ==> v in upstream && upstream[v] == old(upstream)[v]
    {
      hide Counts, AllSeries, WrappingAdd, WrappingSub, CallsOk;
      CallsListed(upstream, calls, begun, u);
      var c := upstream[u].(active := WrappingSub(upstream[u].active, 1));
      if success {
        c := c.(success := WrappingAdd(c.success, 1));
      } else {
        c := c.(error := WrappingAdd(c.error, 1));
      }
      CallEnds(upstream, calls, begun, u, id, upstream[u := c], calls - {id});
      upstream := upstream[u := c];
      calls := calls - {id};
    }
  }

  /** Every series counts the requests finished under its key. */
  ghost predicate AllSeries(http: map<HttpKey, Series>, finished: map<HttpKey, nat>) {
    && http.Keys == finished.Keys
    && forall k :: k in http ==> SeriesOk(http[k]) && http[k].count == finished[k]
  }

  lemma SeriesStep(http: map<HttpKey, Series>, finished: map<HttpKey, nat>, key: HttpKey, s: Series)
    requires AllSeries(http, finished) && SeriesOk(s)
    requires s.count == (if key in finished then finished[key] else 0) + 1
    ensures AllSeries(http[key := s], finished[key := (if key in finished then finished[key] else 0) + 1])
  {
  }

  lemma CountsAddNothing(active: nat, bytes: nat, m: map<nat, nat>)
    requires Counts(active, bytes, m)
    ensures WrappingAdd(bytes, 0) == bytes
  {
  }

  /** The counters of one upstream: live calls, and every call begun accounted for. */
  ghost predicate CallsOk(upstream: map<Upstream, Counters>, calls: map<nat, Upstream>,
                          begun: map<Upstream, nat>, u: Upstream) {
    && u in upstream && u in begun
    && upstream[u].active == Wrap(|Live(calls, u)|)
    && Wrap(upstream[u].active + upstream[u].success + upstream[u].error) == Wrap(begun[u])
  }

  lemma CallsListed(upstream: map<Upstream, Counters>, calls: map<nat, Upstream>,
                    begun: map<Upstream, nat>, u: Upstream)
    requires CallsOk(upstream, calls, begun, u)
    ensures u in upstream && u in begun
  {
  }

  lemma CallBegins(upstream: map<Upstream, Counters>, calls: map<nat, Upstream>,
                   begun: map<Upstream, nat>, u: Upstream, id: nat,
                   upstream': map<Upstream, Counters>, calls': map<nat, Upstream>, begun': map<Upstream, nat>)
    requires (forall v: Upstream :: CallsOk(upstream, calls, begun, v)) && id !in calls
    requires u in upstream && u in begun && calls' == calls[id := u] && begun' == begun[u := begun[u] + 1]
    requires upstream' == upstream[u := upstream[u].(active := WrappingAdd(upstream[u].active, 1))]
    ensures forall v: Upstream :: CallsOk(upstream', calls', begun', v)
  {
    hide Live;
    assert CallsOk(upstream, calls, begun, u);
    LiveWith(calls, id, u);
    WrapAdd(|Live(calls, u)|, 1);
    SumStep(upstream[u], begun[u]);
    hide Wrap, WrappingAdd;
    forall v: Upstream ensures CallsOk(upstream', calls', begun', v) {
      assert CallsOk(upstream, calls, begun, v);
    }
  }

  lemma CallEnds(upstream: map<Upstream, Counters>, calls: map<nat, Upstream>,
                 begun: map<Upstream, nat>, u: Upstream, id: nat,
                 upstream': map<Upstream, Counters>, calls': map<nat, Upstream>)
    requires (forall v: Upstream :: CallsOk(upstream, calls, begun, v)) && id in calls && calls[id] == u
    requires u in upstream && calls' == calls - {id}
    requires var c := upstream[u].(active := WrappingSub(upstream[u].active, 1));
             || upstream' == upstream[u := c.(success := WrappingAdd(c.success, 1))]
             || upstream' == upstream[u := c.(error := WrappingAdd(c.error, 1))]
    ensures forall v: Upstream :: CallsOk(upstream', calls', begun, v)
  {
    hide Live;
    assert CallsOk(upstream, calls, begun, u);
    LiveWithout(calls, id, u);
    WrapSub(|Live(calls, u)|, 1);
    SumMove(upstream[u], begun[u]);
    hide Wrap, WrappingAdd, WrappingSub;
    forall v: Upstream ensures CallsOk(upstream', calls', begun, v) {
      assert CallsOk(upstream, calls, begun, v);
    }
  }

  lemma EmptyOk()
    ensures SeriesOk(EMPTY)
  {
  }

  lemma SizeWithout<K, V>(m: map<K, V>, k: K)
    requires k in m
    ensures |m - {k}| == |m| - 1
  {
    assert (m - {k}).Keys == m.Keys - {k};
    assert |m.Keys| == |m| && |(m - {k}).Keys| == |m - {k}|;
  }

  /** The calls to one upstream that have begun and not ended. */
  function Live(calls: map<nat, Upstream>, u: Upstream): set<nat> { set g | g in calls && calls[g] == u }

  lemma LiveWith(calls: map<nat, Upstream>, id: nat, u: Upstream)
    requires id !in calls
    ensures |Live(calls[id := u], u)| == |Live(calls, u)| + 1
    ensures forall v :: v != u ==> Live(calls[id := u], v) == Live(calls, v)
  {
    assert Live(calls[id := u], u) == Live(calls, u) + {id};
  }

  lemma LiveWithout(calls: map<nat, Upstream>, id: nat, u: Upstream)
    requires id in calls && calls[id] == u
    ensures |Live(calls - {id}, u)| == |Live(calls, u)| - 1
    ensures forall v :: v != u ==> Live(calls - {id}, v) == Live(calls, v)
  {
    assert Live(calls - {id}, u) == Live(calls, u) - {id};
  }

  lemma WrapInside(a: nat, b: nat)
    ensures Wrap(Wrap(a) + b) == Wrap(a + b)
  {
  }

  lemma SumStep(c: Counters, begun: nat)
    requires Wrap(c.active + c.success + c.error) == Wrap(begun)
    ensures Wrap(WrappingAdd(c.active, 1) + c.success + c.error) == Wrap(begun + 1)
  {
    hide Wrap;
    WrapInside(c.active + 1, c.success + c.error);
    WrapInside(c.active + c.success + c.error, 1);
    WrapInside(begun, 1);
  }

  lemma SumMove(c: Counters, begun: nat)
    requires Wrap(c.active + c.success + c.error) == Wrap(begun)
    ensures Wrap(WrappingSub(c.active, 1) + WrappingAdd(c.success, 1) + c.error) == Wrap(begun)
    ensures Wrap(WrappingSub(c.active, 1) + c.success + WrappingAdd(c.error, 1)) == Wrap(begun)
  {
    hide Wrap;
    var less := c.active + U64_LIMIT - 1;
    assert Wrap(less + (c.success + 1) + c.error) == Wrap(begun) by { WholeTurn(c.active + c.success + c.error); }
    WrapInside(less, Wrap(c.success + 1) + c.error);
    WrapInside(c.success + 1, less + c.error);
    WrapInside(less, c.success + Wrap(c.error + 1));
    WrapInside(c.error + 1, less + c.success);
  }

  lemma WholeTurn(n: nat)
    ensures Wrap(n + U64_LIMIT) == Wrap(n)
  {
  }

  // ------------------------------------------------------------------------------ guards

  /** A request's guard: finishing it and dropping it count it once between them. */
  class HttpRequestGuard {
    const counters: Observability
    const guard: HttpGuard
    ghost const id: nat
    var finished: bool

    /** An unfinished guard is one of the live ones. */
    ghost predicate Valid()
      reads this, counters
    {
      && counters.Valid()
      && (if finished then id !in counters.httpGuards
          else id in counters.httpGuards && counters.httpGuards[id] == guard)
    }

    constructor (counters: Observability, key: HttpKey, bytes: nat, ghost id: nat)
      requires counters.Valid() && id !in counters.httpGuards && bytes < U64_LIMIT
      modifies counters
      ensures Valid() && !finished && this.counters == counters && guard == HttpGuard(key, bytes) && this.id == id
      ensures counters.httpGuards == old(counters.httpGuards)[id := HttpGuard(key, bytes)]
      ensures counters.finished == old(counters.finished)
    {
      this.counters, guard, this.id, finished := counters, HttpGuard(key, bytes), id, false;
      new;
      counters.BeginHttp(key, bytes, id);
    }

    /** What finishing or dropping an unfinished guard does to the counters. */
    twostate predicate Counted(elapsed: real, status: string, response: nat)
      reads this, counters
    {
      && counters.httpGuards == old(counters.httpGuards) - {id}
      && guard.key in counters.http
      && counters.http == old(counters.http)[guard.key := counters.http[guard.key]]
      && Recorded(SeriesAt(old(counters.http), guard.key), counters.http[guard.key],
                  elapsed, status, guard.bytes, response)
    }

    /** `finish`, up to the drop that follows it. */
    method Finish(elapsed: real, status: string, response: nat)
      requires Valid() && !finished
      modifies this, counters
      ensures Valid() && finished && Counted(elapsed, status, response)
    {
      hide Counts, AllSeries, CallsOk, Recorded;
      finished := true;
      counters.FinishHttp(guard, elapsed, status, response, id);
    }

    /** `drop`: a guard that was finished is not counted again, one that was not is aborted. */
    method Drop(elapsed: real)
      requires Valid()
      modifies this, counters
      ensures Valid() && finished
      ensures old(finished) ==>
                && counters.http == old(counters.http) && counters.httpGuards == old(counters.httpGuards)
                && counters.activeHttp == old(counters.activeHttp)
                && counters.requestBufferBytes == old(counters.requestBufferBytes)
      ensures !old(finished) ==> Counted(elapsed, "aborted", 0)
    {
      hide Counts, AllSeries, CallsOk, Recorded;
      if !finished {
        finished := true;
        counters.FinishHttp(guard, elapsed, "aborted", 0, id);
      }
    }
  }

  /** A call's guard: it ends as an error unless it was marked a success. */
  class UpstreamGuard {
    const counters: Observability
    const kind: Upstream
    ghost const id: nat
    var success: bool

    ghost predicate Valid()
      reads this, counters
    {
      counters.Valid() && id in counters.calls && counters.calls[id] == kind
    }

    constructor (counters: Observability, kind: Upstream, ghost id: nat)
      requires counters.Valid() && id !in counters.calls
      modifies counters
      ensures Valid() && !success && this.counters == counters && this.kind == kind && this.id == id
      ensures counters.calls == old(counters.calls)[id := kind]
    {
      this.counters, this.kind, this.id, success := counters, kind, id, false;
      new;
      counters.BeginUpstream(kind, id);
    }

    method Success()
      requires Valid()
      modifies this
      ensures Valid() && success
    {
      success := true;
    }

    method Drop()
      requires Valid()
      modifies counters
      ensures counters.Valid() && counters.calls == old(counters.calls) - {id}
      ensures kind in counters.upstream && kind in old(counters.upstream)
      ensures var c, c' := old(counters.upstream)[kind], counters.upstream[kind];
              c' == if success then c.(active := c'.active, success := WrappingAdd(c.success, 1))
                    else c.(active := c'.active, error := WrappingAdd(c.error, 1))
    {
      hide Counts, AllSeries, WrappingAdd;
      assert CallsOk(counters.upstream, counters.calls, counters.begun, kind);
      counters.FinishUpstream(kind, success, id);
    }
  }
}
