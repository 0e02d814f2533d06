/** The demand model of the CDN placement problem: videos with sizes, caches of
    one uniform capacity, endpoints with their latency to the datacenter and to
    each connected cache, and request descriptions (video, endpoint, amount). */
module Problem {

  datatype Option<T> = None | Some(value: T)

  datatype Video = Video(size: nat)

  /** A link from an endpoint to a cache: the cache's id and the link latency. */
  datatype Connection = Connection(cache: nat, latency: nat)

  datatype Endpoint = Endpoint(latency: nat, connections: seq<Connection>)

  datatype Request = Request(amount: nat, video: nat, endpoint: nat)

  /** Caches carry no data of their own, so only their number is kept. */
  datatype Input = Input(
    videos: seq<Video>,
    endpoints: seq<Endpoint>,
    cacheCount: nat,
    cacheSize: nat,
    requests: seq<Request>)

  /** Every connection names an existing cache and is no slower than the datacenter. */
  predicate ValidEndpoint(e: Endpoint, cacheCount: nat) {
    forall i :: 0 <= i < |e.connections| ==>
      e.connections[i].cache < cacheCount && e.connections[i].latency <= e.latency
  }

  predicate RequestInRange(input: Input, r: Request) {
    r.video < |input.videos| && r.endpoint < |input.endpoints|
  }

  predicate RequestsInRange(input: Input, reqs: seq<Request>) {
    forall i :: 0 <= i < |reqs| ==> RequestInRange(input, reqs[i])
  }

  /** The conditions under which the engine never indexes out of range and never
      subtracts a larger latency from a smaller one. */
  predicate ValidInput(input: Input) {
    (forall e :: 0 <= e < |input.endpoints| ==> ValidEndpoint(input.endpoints[e], input.cacheCount))
    && RequestsInRange(input, input.requests)
  }

  predicate SortedByLatency(s: seq<Connection>) {
    forall i, j :: 0 <= i < j < |s| ==> s[i].latency <= s[j].latency
  }

  /** Every endpoint lists its connections fastest first. */
  predicate EndpointsSorted(eps: seq<Endpoint>) {
    forall e :: 0 <= e < |eps| ==> SortedByLatency(eps[e].connections)
  }

  /** Inserts `x` before the first element that is not faster than it. */
  function InsertByLatency(x: Connection, s: seq<Connection>): (r: seq<Connection>)
    ensures |r| == |s| + 1
  {
    if s == [] || x.latency <= s[0].latency then [x] + s
    else [s[0]] + InsertByLatency(x, s[1..])
  }

  /** A stable sort of the connections by link latency, ascending. */
  function SortByLatency(s: seq<Connection>): (r: seq<Connection>)
    ensures |r| == |s|
  {
    if s == [] then [] else InsertByLatency(s[0], SortByLatency(s[1..]))
  }

  lemma {:induction false} InsertByLatencySorted(x: Connection, s: seq<Connection>)
    requires SortedByLatency(s)
    ensures SortedByLatency(InsertByLatency(x, s))
    ensures InsertByLatency(x, s)[0] == x || (s != [] && InsertByLatency(x, s)[0] == s[0])
  {
    if s != [] && x.latency > s[0].latency {
      InsertByLatencySorted(x, s[1..]);
      var rest := InsertByLatency(x, s[1..]);
      assert s[0].latency <= rest[0].latency;
    }
  }

  lemma {:induction false} InsertByLatencyPermutes(x: Connection, s: seq<Connection>)
    ensures multiset(InsertByLatency(x, s)) == multiset(s) + multiset{x}
  {
    if s != [] && x.latency > s[0].latency {
      InsertByLatencyPermutes(x, s[1..]);
      assert s == [s[0]] + s[1..];
    }
  }

  /** The sort yields an ascending permutation of its input. */
  lemma {:induction false} SortByLatencyCorrect(s: seq<Connection>)
    ensures SortedByLatency(SortByLatency(s))
    ensures multiset(SortByLatency(s)) == multiset(s)
  {
    if s != [] {
      SortByLatencyCorrect(s[1..]);
      InsertByLatencySorted(s[0], SortByLatency(s[1..]));
      InsertByLatencyPermutes(s[0], SortByLatency(s[1..]));
      assert s == [s[0]] + s[1..];
    }
  }

  /** The connections of latency `l`, in order. */
  function WithLatency(s: seq<Connection>, l: nat): seq<Connection> {
    if s == [] then []
    else (if s[0].latency == l then [s[0]] else []) + WithLatency(s[1..], l)
  }

  lemma {:induction false} InsertByLatencyStable(x: Connection, s: seq<Connection>, l: nat)
    ensures WithLatency(InsertByLatency(x, s), l)
         == (if x.latency == l then [x] else []) + WithLatency(s, l)
  {
    if s == [] || x.latency <= s[0].latency {
      assert ([x] + s)[1..] == s;
    } else {
      InsertByLatencyStable(x, s[1..], l);
      var rest := InsertByLatency(x, s[1..]);
      assert ([s[0]] + rest)[1..] == rest;
      var tail := WithLatency(s[1..], l);
      if x.latency == l {
        assert s[0].latency != l;
        assert WithLatency(rest, l) == [x] + tail;
        assert WithLatency(s, l) == [] + tail == tail;
        assert WithLatency([s[0]] + rest, l) == [] + ([x] + tail);
      } else {
        assert WithLatency(rest, l) == [] + tail == tail;
      }
    }
  }

  /** The sort is stable: connections of equal latency keep their input order. */
  lemma {:induction false} SortByLatencyStable(s: seq<Connection>, l: nat)
    ensures WithLatency(SortByLatency(s), l) == WithLatency(s, l)
  {
    if s != [] {
      SortByLatencyStable(s[1..], l);
      InsertByLatencyStable(s[0], SortByLatency(s[1..]), l);
    }
  }
}
