/** The greedy placement loop. On every round each request whose endpoint is not
    yet served proposes the first cache on its endpoint (fastest first) that
    still has room for the video, scored by the latency it would save; the best
    proposal is inserted, and the rounds stop when no request proposes anything. */
module Greedy {
  import opened Problem
  import opened Allocation

  /** A proposed placement of `video` on `cache`, with its score. */
  datatype Choice = Choice(score: nat, video: nat, cache: nat)

  /** Cache `c` has room left for a video of `size`. The comparison is made on
      signed differences, which is the same as the sum fitting the capacity. */
  predicate HasRoom(cacheSize: nat, usage: seq<nat>, c: nat, size: nat): (b: bool)
    requires c < |usage|
    ensures b <==> usage[c] + size <= cacheSize
  {
    cacheSize as int - usage[c] as int >= size as int
  }

  /** The index of the first connection from `k` on whose cache has room. */
  function FirstFit(cacheSize: nat, usage: seq<nat>, conns: seq<Connection>, size: nat, k: nat): (r: Option<nat>)
    requires k <= |conns| && forall i :: 0 <= i < |conns| ==> conns[i].cache < |usage|
    ensures r.Some? ==> k <= r.value < |conns| && HasRoom(cacheSize, usage, conns[r.value].cache, size)
    ensures r.Some? ==> forall j :: k <= j < r.value ==> !HasRoom(cacheSize, usage, conns[j].cache, size)
    ensures r.None? ==> forall j :: k <= j < |conns| ==> !HasRoom(cacheSize, usage, conns[j].cache, size)
    decreases |conns| - k
  {
    if k == |conns| then None
    else if HasRoom(cacheSize, usage, conns[k].cache, size) then Some(k)
    else FirstFit(cacheSize, usage, conns, size, k + 1)
  }

  /** A request that can still be helped: its endpoint reaches no cache storing
      the video, and some cache it reaches has room for the video. */
  predicate Eligible(input: Input, cached: seq<set<nat>>, usage: seq<nat>, r: Request)
    requires Shaped(input, cached, usage) && RequestInRange(input, r)
  {
    var conns := input.endpoints[r.endpoint].connections;
    assert ValidEndpoint(input.endpoints[r.endpoint], input.cacheCount);
    && !IsCaching(input, cached, r.endpoint, r.video)
    && exists i :: 0 <= i < |conns| && HasRoom(input.cacheSize, usage, conns[i].cache, input.videos[r.video].size)
  }

  /** What one request proposes: nothing when its endpoint is already served or
      no connected cache has room; otherwise the first connected cache with room,
      scored as (datacenter latency - link latency) * amount. */
  function Candidate(input: Input, cached: seq<set<nat>>, usage: seq<nat>, r: Request): (o: Option<Choice>)
    requires Shaped(input, cached, usage) && RequestInRange(input, r)
    ensures o.Some? <==> Eligible(input, cached, usage, r)
    ensures o.Some? ==>
      var e := input.endpoints[r.endpoint];
      exists i :: 0 <= i < |e.connections|
        && HasRoom(input.cacheSize, usage, e.connections[i].cache, input.videos[r.video].size)
        && (forall j :: 0 <= j < i ==> !HasRoom(input.cacheSize, usage, e.connections[j].cache, input.videos[r.video].size))
        && o.value.video == r.video
        && o.value.cache == e.connections[i].cache
        && o.value.score == (e.latency - e.connections[i].latency) * r.amount
  {
    var e := input.endpoints[r.endpoint];
    assert ValidEndpoint(e, input.cacheCount);
    if IsCaching(input, cached, r.endpoint, r.video) then None
    else
      match FirstFit(input.cacheSize, usage, e.connections, input.videos[r.video].size, 0)
      case None => None
      case Some(i) =>
        Some(Choice((e.latency - e.connections[i].latency) * r.amount, r.video, e.connections[i].cache))
  }

  /** A proposal never names a cache that already stores the video, and always
      names one with room for it, reachable from the proposing request's endpoint. */
  lemma CandidateAdmissible(input: Input, cached: seq<set<nat>>, usage: seq<nat>, r: Request)
    requires Shaped(input, cached, usage) && RequestInRange(input, r)
    requires Candidate(input, cached, usage, r).Some?
    ensures var ch := Candidate(input, cached, usage, r).value;
      && ch.video == r.video
      && ch.cache < input.cacheCount
      && ch.video !in cached[ch.cache]
      && usage[ch.cache] + input.videos[ch.video].size <= input.cacheSize
      && exists i :: 0 <= i < |input.endpoints[r.endpoint].connections|
           && input.endpoints[r.endpoint].connections[i].cache == ch.cache
  {
    var ch := Candidate(input, cached, usage, r).value;
    var e := input.endpoints[r.endpoint];
    assert ValidEndpoint(e, input.cacheCount);
    var i :| 0 <= i < |e.connections| && HasRoom(input.cacheSize, usage, e.connections[i].cache, input.videos[r.video].size)
             && ch.cache == e.connections[i].cache && ch.video == r.video;
    assert !IsCaching(input, cached, r.endpoint, r.video);
  }

  /** The proposals of `reqs`, in order (the filter step of the scan). */
  function Candidates(input: Input, cached: seq<set<nat>>, usage: seq<nat>, reqs: seq<Request>): (cs: seq<Choice>)
    requires Shaped(input, cached, usage) && RequestsInRange(input, reqs)
    ensures |cs| <= |reqs|
  {
    if reqs == [] then []
    else
      var rest := Candidates(input, cached, usage, reqs[1..]);
      match Candidate(input, cached, usage, reqs[0])
      case None => rest
      case Some(ch) => [ch] + rest
  }

  /** The proposals are exactly what the requests propose. */
  lemma {:induction false} CandidatesExact(input: Input, cached: seq<set<nat>>, usage: seq<nat>, reqs: seq<Request>)
    requires Shaped(input, cached, usage) && RequestsInRange(input, reqs)
    ensures forall ch :: ch in Candidates(input, cached, usage, reqs) <==>
      exists i :: 0 <= i < |reqs| && Candidate(input, cached, usage, reqs[i]) == Some(ch)
  {
    if reqs != [] {
      CandidatesExact(input, cached, usage, reqs[1..]);
      forall ch
        ensures ch in Candidates(input, cached, usage, reqs) <==>
          exists i :: 0 <= i < |reqs| && Candidate(input, cached, usage, reqs[i]) == Some(ch)
      {
        if ch in Candidates(input, cached, usage, reqs[1..]) {
          var i :| 0 <= i < |reqs[1..]| && Candidate(input, cached, usage, reqs[1..][i]) == Some(ch);
          assert reqs[1..][i] == reqs[i + 1];
        }
        if i :| 0 <= i < |reqs| && Candidate(input, cached, usage, reqs[i]) == Some(ch) {
          if i > 0 {
            assert reqs[i] == reqs[1..][i - 1];
          }
        }
      }
    }
  }

  /** The highest-scoring choice; of equal scores the later one is taken. */
  function MaxChoice(cs: seq<Choice>): (m: Choice)
    requires cs != []
    ensures m in cs
    ensures forall ch :: ch in cs ==> ch.score <= m.score
  {
    if |cs| == 1 then cs[0]
    else
      var m := MaxChoice(cs[..|cs| - 1]);
      assert cs == cs[..|cs| - 1] + [cs[|cs| - 1]];
      if cs[|cs| - 1].score >= m.score then cs[|cs| - 1] else m
  }

  /** The next placement: the best proposal over all requests, or None when no
      request proposes anything. */
  function GreedyNext(input: Input, cached: seq<set<nat>>, usage: seq<nat>): (r: Option<Choice>)
    requires Shaped(input, cached, usage)
    ensures r.None? <==>
      forall i :: 0 <= i < |input.requests| ==> !Eligible(input, cached, usage, input.requests[i])
    ensures r.Some? ==>
      exists i :: 0 <= i < |input.requests| && Candidate(input, cached, usage, input.requests[i]) == r
    ensures r.Some? ==>
      forall i :: 0 <= i < |input.requests| && Eligible(input, cached, usage, input.requests[i]) ==>
        Candidate(input, cached, usage, input.requests[i]).value.score <= r.value.score
  {
    var cs := Candidates(input, cached, usage, input.requests);
    CandidatesExact(input, cached, usage, input.requests);
    if cs == [] then None
    else
      assert cs[0] in cs;
      Some(MaxChoice(cs))
  }

  /** The number of requests whose endpoint does not yet reach their video. */
  function Unserved(input: Input, cached: seq<set<nat>>, reqs: seq<Request>): (n: nat)
    requires ValidInput(input) && |cached| == input.cacheCount && RequestsInRange(input, reqs)
  {
    if reqs == [] then 0
    else
      var last := reqs[|reqs| - 1];
      Unserved(input, cached, reqs[..|reqs| - 1]) + (if IsCaching(input, cached, last.endpoint, last.video) then 0 else 1)
  }

  lemma {:induction false} UnservedBound(input: Input, cached: seq<set<nat>>, reqs: seq<Request>)
    requires ValidInput(input) && |cached| == input.cacheCount && RequestsInRange(input, reqs)
    ensures Unserved(input, cached, reqs) <= |reqs|
  {
    if reqs != [] {
      UnservedBound(input, cached, reqs[..|reqs| - 1]);
    }
  }

  /** Served requests stay served as caches gain videos. */
  lemma {:induction false} UnservedGrows(input: Input, cached: seq<set<nat>>, cached': seq<set<nat>>, reqs: seq<Request>)
    requires ValidInput(input) && |cached| == input.cacheCount && RequestsInRange(input, reqs)
    requires Grows(cached, cached')
    ensures Unserved(input, cached', reqs) <= Unserved(input, cached, reqs)
  {
    if reqs != [] {
      var last := reqs[|reqs| - 1];
      UnservedGrows(input, cached, cached', reqs[..|reqs| - 1]);
      if IsCaching(input, cached, last.endpoint, last.video) {
        IsCachingGrows(input, cached, cached', last.endpoint, last.video);
      }
    }
  }

  /** Serving one more request strictly lowers the count. */
  lemma {:induction false} UnservedDrops(input: Input, cached: seq<set<nat>>, cached': seq<set<nat>>, reqs: seq<Request>, i: nat)
    requires ValidInput(input) && |cached| == input.cacheCount && RequestsInRange(input, reqs)
    requires Grows(cached, cached') && i < |reqs|
    requires !IsCaching(input, cached, reqs[i].endpoint, reqs[i].video)
    requires IsCaching(input, cached', reqs[i].endpoint, reqs[i].video)
    ensures Unserved(input, cached', reqs) < Unserved(input, cached, reqs)
  {
    var prefix := reqs[..|reqs| - 1];
    if i == |reqs| - 1 {
      UnservedGrows(input, cached, cached', prefix);
    } else {
      assert prefix[i] == reqs[i];
      UnservedDrops(input, cached, cached', prefix, i);
      var last := reqs[|reqs| - 1];
      if IsCaching(input, cached, last.endpoint, last.video) {
        IsCachingGrows(input, cached, cached', last.endpoint, last.video);
      }
    }
  }

  /** Placing a request's proposal serves that request. */
  lemma CandidateServes(input: Input, cached: seq<set<nat>>, usage: seq<nat>, r: Request)
    requires Shaped(input, cached, usage) && RequestInRange(input, r)
    requires Candidate(input, cached, usage, r).Some?
    ensures var ch := Candidate(input, cached, usage, r).value;
      && ch.cache < |cached|
      && !IsCaching(input, cached, r.endpoint, r.video)
      && IsCaching(input, Placed(cached, ch.cache, ch.video), r.endpoint, r.video)
  {
    var ch := Candidate(input, cached, usage, r).value;
    CandidateAdmissible(input, cached, usage, r);
    var conns := input.endpoints[r.endpoint].connections;
    var k :| 0 <= k < |conns| && conns[k].cache == ch.cache;
    assert r.video in Placed(cached, ch.cache, ch.video)[conns[k].cache];
  }

  /** Each round serves at least one more request, so the loop runs at most
      once per request. */
  lemma GreedyNextServes(input: Input, cached: seq<set<nat>>, usage: seq<nat>, ch: Choice)
    requires Shaped(input, cached, usage)
    requires GreedyNext(input, cached, usage) == Some(ch)
    ensures ch.cache < |cached|
    ensures Grows(cached, Placed(cached, ch.cache, ch.video))
    ensures Unserved(input, Placed(cached, ch.cache, ch.video), input.requests) < Unserved(input, cached, input.requests)
  {
    var i :| 0 <= i < |input.requests| && Candidate(input, cached, usage, input.requests[i]) == Some(ch);
    CandidateServes(input, cached, usage, input.requests[i]);
    UnservedDrops(input, cached, Placed(cached, ch.cache, ch.video), input.requests, i);
  }

  /** One round of the loop: the chosen cache does not hold the video yet and has
      room for it, so inserting it keeps the capacity invariant. */
  lemma GreedyStep(input: Input, cached: seq<set<nat>>, usage: seq<nat>, ch: Choice)
    requires Consistent(input, cached, usage)
    requires GreedyNext(input, cached, usage) == Some(ch)
    ensures ch.cache < |cached| && ch.video < |input.videos|
    ensures ch.video !in cached[ch.cache]
    ensures usage[ch.cache] + input.videos[ch.video].size <= input.cacheSize
    ensures Consistent(input, Placed(cached, ch.cache, ch.video), Charged(usage, ch.cache, input.videos[ch.video].size))
  {
    var i :| 0 <= i < |input.requests| && Candidate(input, cached, usage, input.requests[i]) == Some(ch);
    CandidateAdmissible(input, cached, usage, input.requests[i]);
    InsertKeepsConsistency(input, cached, usage, ch.cache, ch.video);
  }

  /** One round: the state after inserting `GreedyNext`'s choice `ch`. */
  function Round(input: Input, cached: seq<set<nat>>, usage: seq<nat>, ch: Choice): (r: (seq<set<nat>>, seq<nat>))
    requires Consistent(input, cached, usage)
    requires GreedyNext(input, cached, usage) == Some(ch)
    ensures ch.cache < |cached| && ch.video < |input.videos|
    ensures r == (Placed(cached, ch.cache, ch.video), Charged(usage, ch.cache, input.videos[ch.video].size))
    ensures Consistent(input, r.0, r.1)
    ensures Grows(cached, r.0)
    ensures Unserved(input, r.0, input.requests) < Unserved(input, cached, input.requests)
  {
    GreedyStep(input, cached, usage, ch);
    GreedyNextServes(input, cached, usage, ch);
    (Placed(cached, ch.cache, ch.video), Charged(usage, ch.cache, input.videos[ch.video].size))
  }

  /** The rounds of the loop from `(cached, usage)` on: each round inserts the
      choice of `GreedyNext`, until it proposes nothing. Yields the final sets, the
      final counters and the number of rounds. */
  function Run(input: Input, cached: seq<set<nat>>, usage: seq<nat>): (r: (seq<set<nat>>, seq<nat>, nat))
    requires Consistent(input, cached, usage)
    ensures Consistent(input, r.0, r.1)
    decreases Unserved(input, cached, input.requests)
  {
    match GreedyNext(input, cached, usage)
    case None => (cached, usage, 0)
    case Some(ch) =>
      var next := Round(input, cached, usage, ch);
      var after := Run(input, next.0, next.1);
      (after.0, after.1, after.2 + 1)
  }

  /** The rounds only add videos. */
  lemma {:induction false} RunGrows(input: Input, cached: seq<set<nat>>, usage: seq<nat>)
    requires Consistent(input, cached, usage)
    ensures Grows(cached, Run(input, cached, usage).0)
    decreases Unserved(input, cached, input.requests)
  {
    var next := GreedyNext(input, cached, usage);
    if next.Some? {
      var after := Round(input, cached, usage, next.value);
      RunGrows(input, after.0, after.1);
    }
  }

  /** Each round serves at least one more request, so there are at most as many
      rounds as unserved requests. */
  lemma {:induction false} RunRounds(input: Input, cached: seq<set<nat>>, usage: seq<nat>)
    requires Consistent(input, cached, usage)
    ensures var r := Run(input, cached, usage);
      r.2 + Unserved(input, r.0, input.requests) <= Unserved(input, cached, input.requests)
    decreases Unserved(input, cached, input.requests)
  {
    var next := GreedyNext(input, cached, usage);
    if next.Some? {
      var after := Round(input, cached, usage, next.value);
      RunRounds(input, after.0, after.1);
    }
  }

  /** The rounds stop only where no request can still be helped. */
  lemma {:induction false} RunStops(input: Input, cached: seq<set<nat>>, usage: seq<nat>)
    requires Consistent(input, cached, usage)
    ensures var r := Run(input, cached, usage); GreedyNext(input, r.0, r.1).None?
    decreases Unserved(input, cached, input.requests)
  {
    var next := GreedyNext(input, cached, usage);
    if next.Some? {
      var after := Round(input, cached, usage, next.value);
      RunStops(input, after.0, after.1);
    }
  }

  /** Inserts the best placement until none is left: the final state and the
      number of rounds are those of `Run`. Ends with the capacity invariant
      intact, every cache holding at least what it held before, no request left
      that could still be helped, and at most one round per request. */
  method Greedy(state: State) returns (ghost steps: nat)
    requires state.Valid()
    modifies state
    ensures var run := Run(state.input, old(state.cached), old(state.usage));
      state.cached == run.0 && state.usage == run.1 && steps == run.2
    ensures state.Valid()
    ensures Grows(old(state.cached), state.cached)
    ensures GreedyNext(state.input, state.cached, state.usage).None?
    ensures steps <= |state.input.requests|
    ensures EndpointsSorted(state.input.endpoints) ==>
      SumSaved(state.input, old(state.cached), state.input.requests)
        <= SumSaved(state.input, state.cached, state.input.requests)
  {
    steps := 0;
    var next := GreedyNext(state.input, state.cached, state.usage);
    while next.Some?
      invariant state.Valid()
      invariant next == GreedyNext(state.input, state.cached, state.usage)
      invariant var run, now := Run(state.input, old(state.cached), old(state.usage)), Run(state.input, state.cached, state.usage);
        run.0 == now.0 && run.1 == now.1 && run.2 == steps + now.2
      decreases Unserved(state.input, state.cached, state.input.requests)
    {
      ghost var after := Round(state.input, state.cached, state.usage, next.value);
      state.InsertVideoInCache(next.value.cache, next.value.video);
      steps := steps + 1;
      next := GreedyNext(state.input, state.cached, state.usage);
    }
    assert var now := Run(state.input, state.cached, state.usage);
      now.0 == state.cached && now.1 == state.usage && now.2 == 0;
    UnservedBound(state.input, old(state.cached), state.input.requests);
    assert old(state.Valid());
    RunStops(state.input, old(state.cached), old(state.usage));
    RunGrows(state.input, old(state.cached), old(state.usage));
    RunRounds(state.input, old(state.cached), old(state.usage));
    if EndpointsSorted(state.input.endpoints) {
      SumSavedGrows(state.input, old(state.cached), state.cached, state.input.requests);
    }
  }
}
