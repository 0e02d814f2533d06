/** The allocation state: for each cache the set of videos it stores and a usage
    counter, with the reads the optimizer and the evaluator make of it. */
module Allocation {
  import opened Problem

  /** All video ids in `vs` name a video. */
  predicate InRange(vs: set<nat>, videos: seq<Video>) {
    forall v :: v in vs ==> v < |videos|
  }

  ghost function Pick(vs: set<nat>): nat
    requires vs != {}
  {
    var v :| v in vs; v
  }

  /** The total size of the videos in `vs`. */
  ghost function SizeSum(videos: seq<Video>, vs: set<nat>): (n: nat)
    requires InRange(vs, videos)
    ensures forall v :: v in vs ==> videos[v].size <= n
    decreases vs
  {
    if vs == {} then 0
    else
      var v := Pick(vs);
      videos[v].size + SizeSum(videos, vs - {v})
  }

  /** The sum does not depend on which element is taken out first. */
  lemma {:induction false} SizeSumRemove(videos: seq<Video>, vs: set<nat>, v: nat)
    requires InRange(vs, videos) && v in vs
    ensures SizeSum(videos, vs) == videos[v].size + SizeSum(videos, vs - {v})
    decreases vs
  {
    var p := Pick(vs);
    if p != v {
      SizeSumRemove(videos, vs - {p}, v);
      SizeSumRemove(videos, vs - {v}, p);
      assert vs - {p} - {v} == vs - {v} - {p};
    }
  }

  lemma SizeSumAdd(videos: seq<Video>, vs: set<nat>, v: nat)
    requires InRange(vs, videos) && v < |videos| && v !in vs
    ensures SizeSum(videos, vs + {v}) == SizeSum(videos, vs) + videos[v].size
  {
    SizeSumRemove(videos, vs + {v}, v);
    assert vs + {v} - {v} == vs;
  }

  /** One stored set and one usage counter per cache of a valid input. */
  predicate Shaped(input: Input, cached: seq<set<nat>>, usage: seq<nat>) {
    ValidInput(input) && |cached| == input.cacheCount && |usage| == input.cacheCount
  }

  /** The capacity invariant: every counter is the total size of its cache's
      videos and never exceeds the capacity. */
  ghost predicate Consistent(input: Input, cached: seq<set<nat>>, usage: seq<nat>) {
    Shaped(input, cached, usage)
    && forall c :: 0 <= c < |cached| ==>
         InRange(cached[c], input.videos)
         && usage[c] == SizeSum(input.videos, cached[c])
         && usage[c] <= input.cacheSize
  }

  /** `after` stores everything `before` does (no eviction). */
  predicate Grows(before: seq<set<nat>>, after: seq<set<nat>>) {
    |before| == |after| && forall c :: 0 <= c < |before| ==> before[c] <= after[c]
  }

  /** Some cache connected to `endpoint` already stores `video`. */
  predicate IsCaching(input: Input, cached: seq<set<nat>>, endpoint: nat, video: nat)
    requires ValidInput(input) && |cached| == input.cacheCount && endpoint < |input.endpoints|
  {
    var conns := input.endpoints[endpoint].connections;
    exists i :: 0 <= i < |conns| && video in cached[conns[i].cache]
  }

  /** A served endpoint stays served when caches only gain videos. */
  lemma IsCachingGrows(input: Input, cached: seq<set<nat>>, cached': seq<set<nat>>, endpoint: nat, video: nat)
    requires ValidInput(input) && |cached| == input.cacheCount && endpoint < |input.endpoints|
    requires Grows(cached, cached')
    requires IsCaching(input, cached, endpoint, video)
    ensures IsCaching(input, cached', endpoint, video)
  {
    var conns := input.endpoints[endpoint].connections;
    var i :| 0 <= i < |conns| && video in cached[conns[i].cache];
    assert video in cached'[conns[i].cache];
  }

  /** `cached` with `v` added to cache `c`. */
  function Placed(cached: seq<set<nat>>, c: nat, v: nat): seq<set<nat>>
    requires c < |cached|
  {
    cached[c := cached[c] + {v}]
  }

  /** `usage` with `size` charged to cache `c`. */
  function Charged(usage: seq<nat>, c: nat, size: nat): seq<nat>
    requires c < |usage|
  {
    usage[c := usage[c] + size]
  }

  /** Inserting the video a cache already holds raises the counter but not the
      stored total: the reason every insertion is guarded by `IsCaching`. */
  lemma InsertPresentBreaksConsistency(input: Input, cached: seq<set<nat>>, usage: seq<nat>, c: nat, v: nat)
    requires Consistent(input, cached, usage)
    requires c < |cached| && v in cached[c] && input.videos[v].size > 0
    ensures !Consistent(input, Placed(cached, c, v), Charged(usage, c, input.videos[v].size))
  {
    var cached', usage' := Placed(cached, c, v), Charged(usage, c, input.videos[v].size);
    assert cached'[c] == cached[c];
    assert usage'[c] != SizeSum(input.videos, cached'[c]);
  }

  /** An insertion of a new video that fits keeps the capacity invariant. */
  lemma InsertKeepsConsistency(input: Input, cached: seq<set<nat>>, usage: seq<nat>, c: nat, v: nat)
    requires Consistent(input, cached, usage)
    requires c < |cached| && v < |input.videos| && v !in cached[c]
    requires usage[c] + input.videos[v].size <= input.cacheSize
    ensures Consistent(input, Placed(cached, c, v), Charged(usage, c, input.videos[v].size))
  {
    SizeSumAdd(input.videos, cached[c], v);
  }

  /** The index of the first connection from `k` on whose cache stores `video`. */
  function FirstHolding(cached: seq<set<nat>>, conns: seq<Connection>, video: nat, k: nat): (r: Option<nat>)
    requires k <= |conns| && forall i :: 0 <= i < |conns| ==> conns[i].cache < |cached|
    ensures r.Some? ==> k <= r.value < |conns| && video in cached[conns[r.value].cache]
    ensures r.Some? ==> forall j :: k <= j < r.value ==> video !in cached[conns[j].cache]
    ensures r.None? ==> forall j :: k <= j < |conns| ==> video !in cached[conns[j].cache]
    decreases |conns| - k
  {
    if k == |conns| then None
    else if video in cached[conns[k].cache] then Some(k)
    else FirstHolding(cached, conns, video, k + 1)
  }

  /** The latency a request saves: zero when no connected cache stores its
      video, otherwise measured at the first connected cache that does. */
  function Saved(input: Input, cached: seq<set<nat>>, r: Request): (s: int)
    requires ValidInput(input) && |cached| == input.cacheCount && RequestInRange(input, r)
    ensures s >= 0
    ensures !IsCaching(input, cached, r.endpoint, r.video) ==> s == 0
  {
    var e := input.endpoints[r.endpoint];
    assert ValidEndpoint(e, input.cacheCount);
    match FirstHolding(cached, e.connections, r.video, 0)
    case None => 0
    case Some(i) => (e.latency as int - e.connections[i].latency as int) * r.amount as int
  }

  /** The latency saved over all of `reqs`; never negative. */
  function SumSaved(input: Input, cached: seq<set<nat>>, reqs: seq<Request>): (s: int)
    requires ValidInput(input) && |cached| == input.cacheCount && RequestsInRange(input, reqs)
    ensures s >= 0
  {
    if reqs == [] then 0
    else SumSaved(input, cached, reqs[..|reqs| - 1]) + Saved(input, cached, reqs[|reqs| - 1])
  }

  /** The total amount of all requests, served or not. */
  function SumAmount(reqs: seq<Request>): (a: nat)
    ensures forall i :: 0 <= i < |reqs| ==> reqs[i].amount <= a
  {
    if reqs == [] then 0 else SumAmount(reqs[..|reqs| - 1]) + reqs[|reqs| - 1].amount
  }

  /** A request saves latency exactly when its endpoint is served, and never a negative amount. */
  lemma SavedServed(input: Input, cached: seq<set<nat>>, r: Request)
    requires ValidInput(input) && |cached| == input.cacheCount && RequestInRange(input, r)
    ensures Saved(input, cached, r) >= 0
    ensures !IsCaching(input, cached, r.endpoint, r.video) ==> Saved(input, cached, r) == 0
    ensures IsCaching(input, cached, r.endpoint, r.video) ==>
      var conns := input.endpoints[r.endpoint].connections;
      exists i :: 0 <= i < |conns|
        && r.video in cached[conns[i].cache]
        && (forall j :: 0 <= j < i ==> r.video !in cached[conns[j].cache])
        && Saved(input, cached, r) == (input.endpoints[r.endpoint].latency - conns[i].latency) * r.amount
  {
    var e := input.endpoints[r.endpoint];
    assert ValidEndpoint(e, input.cacheCount);
    var h := FirstHolding(cached, e.connections, r.video, 0);
    if h.Some? {
      assert e.connections[h.value].latency <= e.latency;
    }
  }

  /** With connections sorted fastest first, storing more videos never makes a
      request save less. */
  lemma SavedGrows(input: Input, cached: seq<set<nat>>, cached': seq<set<nat>>, r: Request)
    requires ValidInput(input) && |cached| == input.cacheCount && RequestInRange(input, r)
    requires EndpointsSorted(input.endpoints) && Grows(cached, cached')
    ensures Saved(input, cached, r) <= Saved(input, cached', r)
  {
    var e := input.endpoints[r.endpoint];
    assert ValidEndpoint(e, input.cacheCount);
    assert SortedByLatency(e.connections);
    var h := FirstHolding(cached, e.connections, r.video, 0);
    var h' := FirstHolding(cached', e.connections, r.video, 0);
    SavedServed(input, cached', r);
    if h.Some? {
      assert r.video in cached'[e.connections[h.value].cache];
      assert h'.Some? && h'.value <= h.value;
      assert e.connections[h'.value].latency <= e.connections[h.value].latency;
      assert e.latency - e.connections[h'.value].latency >= e.latency - e.connections[h.value].latency;
    }
  }

  /** The evaluator's total never decreases as caches gain videos. */
  lemma {:induction false} SumSavedGrows(input: Input, cached: seq<set<nat>>, cached': seq<set<nat>>, reqs: seq<Request>)
    requires ValidInput(input) && |cached| == input.cacheCount && RequestsInRange(input, reqs)
    requires EndpointsSorted(input.endpoints) && Grows(cached, cached')
    ensures SumSaved(input, cached, reqs) <= SumSaved(input, cached', reqs)
  {
    if reqs != [] {
      SumSavedGrows(input, cached, cached', reqs[..|reqs| - 1]);
      SavedGrows(input, cached, cached', reqs[|reqs| - 1]);
    }
  }

  /** The ids listed in a sequence. */
  function Listed(s: seq<nat>): set<nat> {
    set x | x in s
  }

  predicate NoDuplicates(s: seq<nat>) {
    forall i, j :: 0 <= i < j < |s| ==> s[i] != s[j]
  }

  /** An output line for cache `c`: its id, then each video of `vs` exactly once. */
  predicate CacheLine(line: seq<nat>, c: nat, vs: set<nat>) {
    |line| >= 1 && line[0] == c && Listed(line[1..]) == vs && NoDuplicates(line[1..])
  }

  class State {
    const input: Input
    var cached: seq<set<nat>>
    var usage: seq<nat>

    ghost predicate Valid()
      reads this
    {
      Consistent(input, cached, usage)
    }

    /** One empty set and one zero counter per cache. */
    constructor (input: Input)
      ensures this.input == input
      ensures cached == seq(input.cacheCount, _ => {})
      ensures usage == seq(input.cacheCount, _ => 0)
      ensures ValidInput(input) ==> Valid()
    {
      this.input := input;
      cached := seq(input.cacheCount, _ => {});
      usage := seq(input.cacheCount, _ => 0);
    }

    /** The counter of cache `c`: the total size of the videos it stores. */
    function CacheUsage(c: nat): (u: nat)
      reads this
      requires c < |usage|
      ensures Valid() ==> u == SizeSum(input.videos, cached[c]) && u <= input.cacheSize
    {
      usage[c]
    }

    /** Adds `v` to cache `c` and charges its size to `c`'s counter; every other
        cache is left alone. It does not itself check for room or duplicates;
        the invariant survives when the video is new to `c` and fits. */
    method InsertVideoInCache(c: nat, v: nat)
      requires c < |cached| && c < |usage| && v < |input.videos|
      modifies this
      ensures cached == Placed(old(cached), c, v)
      ensures usage == Charged(old(usage), c, input.videos[v].size)
      ensures old(Valid()) && v !in old(cached)[c] && old(usage)[c] + input.videos[v].size <= input.cacheSize
              ==> Valid()
    {
      if Valid() && v !in cached[c] && usage[c] + input.videos[v].size <= input.cacheSize {
        InsertKeepsConsistency(input, cached, usage, c, v);
      }
      cached := cached[c := cached[c] + {v}];
      usage := usage[c := usage[c] + input.videos[v].size];
    }

    /** The evaluator's two integer totals: latency saved and requests seen. */
    method Score() returns (sumLatency: int, sumRequests: nat)
      requires ValidInput(input) && |cached| == input.cacheCount
      ensures sumLatency == SumSaved(input, cached, input.requests)
      ensures sumRequests == SumAmount(input.requests)
      ensures sumLatency >= 0
    {
      var reqs := input.requests;
      sumLatency, sumRequests := 0, 0;
      var i := 0;
      while i < |reqs|
        invariant i <= |reqs|
        invariant sumLatency == SumSaved(input, cached, reqs[..i])
        invariant sumRequests == SumAmount(reqs[..i])
      {
        var r := reqs[i];
        var endpoint := input.endpoints[r.endpoint];
        assert ValidEndpoint(endpoint, input.cacheCount);
        var latency: Option<nat> := None;
        sumRequests := sumRequests + r.amount;
        var k := 0;
        while k < |endpoint.connections|
          invariant k <= |endpoint.connections|
          invariant FirstHolding(cached, endpoint.connections, r.video, 0)
                 == FirstHolding(cached, endpoint.connections, r.video, k)
        {
          if r.video in cached[endpoint.connections[k].cache] {
            latency := Some(endpoint.connections[k].latency);
            break;
          }
          k := k + 1;
        }
        if latency.Some? {
          sumLatency := sumLatency + (endpoint.latency as int - latency.value as int) * r.amount as int;
        }
        assert reqs[..i + 1][..i] == reqs[..i];
        i := i + 1;
      }
      assert reqs[..i] == reqs;
    }

    /** The output lines: the number of caches, then for each cache its id
        followed by each of its videos once, in no particular order. */
    method Output() returns (lines: seq<seq<nat>>)
      ensures |lines| == |cached| + 1 && lines[0] == [input.cacheCount]
      ensures forall c :: 0 <= c < |cached| ==> CacheLine(lines[c + 1], c, cached[c])
    {
      lines := [[input.cacheCount]];
      var c := 0;
      while c < |cached|
        invariant c <= |cached| && |lines| == c + 1 && lines[0] == [input.cacheCount]
        invariant forall d :: 0 <= d < c ==> CacheLine(lines[d + 1], d, cached[d])
      {
        var line: seq<nat> := [c];
        var rest := cached[c];
        while rest != {}
          invariant |line| >= 1 && line[0] == c
          invariant Listed(line[1..]) + rest == cached[c]
          invariant Listed(line[1..]) !! rest
          invariant NoDuplicates(line[1..])
          decreases rest
        {
          var v :| v in rest;
          assert (line + [v])[1..] == line[1..] + [v];
          line := line + [v];
          rest := rest - {v};
        }
        assert CacheLine(line, c, cached[c]);
        lines := lines + [line];
        c := c + 1;
      }
    }
  }
}
