/** Reading the problem description from lines that are already split into
    whitespace-separated natural-number tokens. A missing line or a missing
    token aborts the whole read, which is modelled as `None`. */
module Parse {
  import opened Problem

  /** The connection lines `pos .. pos + k - 1`, in input order. */
  function ParseConnections(lines: seq<seq<nat>>, pos: nat, k: nat): (r: Option<seq<Connection>>)
    requires pos <= |lines|
    ensures r.Some? <==> pos + k <= |lines| && forall j :: pos <= j < pos + k ==> |lines[j]| >= 2
    ensures r.Some? ==>
      && |r.value| == k
      && forall j :: 0 <= j < k ==> r.value[j] == Connection(lines[pos + j][0], lines[pos + j][1])
    decreases k
  {
    if k == 0 then Some([])
    else if pos == |lines| || |lines[pos]| < 2 then None
    else match ParseConnections(lines, pos + 1, k - 1)
      case None => None
      case Some(rest) => Some([Connection(lines[pos][0], lines[pos][1])] + rest)
  }

  /** The number of lines taken by the endpoint blocks of `eps`. */
  function BlocksLength(eps: seq<Endpoint>): nat {
    if eps == [] then 0 else 1 + |eps[0].connections| + BlocksLength(eps[1..])
  }

  /** One endpoint block at line `pos`: a line `latency count` followed by
      `count` connection lines, kept sorted by latency. Also yields the first
      line after the block. */
  function ParseEndpoint(lines: seq<seq<nat>>, pos: nat): (r: Option<(Endpoint, nat)>)
    requires pos <= |lines|
    ensures r.Some? <==>
      pos < |lines| && |lines[pos]| >= 2 && ParseConnections(lines, pos + 1, lines[pos][1]).Some?
    ensures r.Some? ==> r.value.1 == pos + 1 + |r.value.0.connections| <= |lines|
  {
    if pos == |lines| || |lines[pos]| < 2 then None
    else
      match ParseConnections(lines, pos + 1, lines[pos][1])
      case None => None
      case Some(conns) => Some((Endpoint(lines[pos][0], SortByLatency(conns)), pos + 1 + lines[pos][1]))
  }

  /** The endpoint read from a block: its datacenter latency is the first token of
      the block's first line, and its connections are the block's connection lines
      reordered fastest first. */
  lemma ParseEndpointContents(lines: seq<seq<nat>>, pos: nat)
    requires pos <= |lines| && ParseEndpoint(lines, pos).Some?
    ensures var ep := ParseEndpoint(lines, pos).value.0;
      && ep.latency == lines[pos][0]
      && |ep.connections| == lines[pos][1]
      && SortedByLatency(ep.connections)
      && multiset(ep.connections) == multiset(ParseConnections(lines, pos + 1, lines[pos][1]).value)
  {
    SortByLatencyCorrect(ParseConnections(lines, pos + 1, lines[pos][1]).value);
  }

  /** `n` endpoint blocks in a row from line `pos`, and the first line after them. */
  function ParseEndpoints(lines: seq<seq<nat>>, pos: nat, n: nat): (r: Option<(seq<Endpoint>, nat)>)
    requires pos <= |lines|
    ensures r.Some? ==> |r.value.0| == n && r.value.1 == pos + BlocksLength(r.value.0) <= |lines|
    decreases n
  {
    if n == 0 then Some(([], pos))
    else
      match ParseEndpoint(lines, pos)
      case None => None
      case Some((endpoint, next)) =>
        match ParseEndpoints(lines, next, n - 1)
        case None => None
        case Some((eps, end)) => Some(([endpoint] + eps, end))
  }

  /** Each endpoint block read comes out sorted by latency. */
  lemma {:induction false} ParseEndpointsSorted(lines: seq<seq<nat>>, pos: nat, n: nat)
    requires pos <= |lines|
    ensures ParseEndpoints(lines, pos, n).Some? ==> EndpointsSorted(ParseEndpoints(lines, pos, n).value.0)
    decreases n
  {
    if n > 0 {
      var one := ParseEndpoint(lines, pos);
      if one.Some? {
        SortByLatencyCorrect(ParseConnections(lines, pos + 1, lines[pos][1]).value);
        ParseEndpointsSorted(lines, one.value.1, n - 1);
      }
    }
  }

  /** The block read at line `start` yields endpoint `ep`. */
  predicate EndpointAt(lines: seq<seq<nat>>, start: nat, ep: Endpoint) {
    start <= |lines| && ParseEndpoint(lines, start).Some? && ParseEndpoint(lines, start).value.0 == ep
  }

  /** `EndpointAt` as a property of a start line and an endpoint. */
  function IsBlockOf(lines: seq<seq<nat>>): (nat, Endpoint) -> bool {
    (start: nat, ep: Endpoint) => EndpointAt(lines, start, ep)
  }

  /** `P` holds of every endpoint `e` of `eps` together with the line where its
      block starts: just after the blocks of endpoints `0 .. e - 1`, the first
      block starting at line `pos`. */
  predicate EachBlock(P: (nat, Endpoint) -> bool, pos: nat, eps: seq<Endpoint>) {
    forall e :: 0 <= e < |eps| ==> P(pos + BlocksLength(eps[..e]), eps[e])
  }

  /** Endpoint `e` of `eps` is the block read just after the blocks of endpoints
      `0 .. e - 1`, the first block starting at line `pos`. */
  predicate BlocksRead(lines: seq<seq<nat>>, pos: nat, eps: seq<Endpoint>) {
    EachBlock(IsBlockOf(lines), pos, eps)
  }

  lemma BlocksLengthPrefix(first: Endpoint, rest: seq<Endpoint>, e: nat)
    requires e <= |rest|
    ensures BlocksLength(([first] + rest)[..e + 1]) == 1 + |first.connections| + BlocksLength(rest[..e])
  {
    assert ([first] + rest)[..e + 1] == [first] + rest[..e];
    assert ([first] + rest[..e])[1..] == rest[..e];
  }

  /** A first block at `pos`, then blocks from the line after it. */
  lemma BlocksCons(P: (nat, Endpoint) -> bool, pos: nat, first: Endpoint, next: nat, rest: seq<Endpoint>)
    requires P(pos, first) && next == pos + 1 + |first.connections|
    requires EachBlock(P, next, rest)
    ensures EachBlock(P, pos, [first] + rest)
  {
    var eps := [first] + rest;
    forall e | 0 <= e < |eps|
      ensures P(pos + BlocksLength(eps[..e]), eps[e])
    {
      if e == 0 {
        assert eps[..0] == [];
      } else {
        BlocksLengthPrefix(first, rest, e - 1);
        assert eps[e] == rest[e - 1];
      }
    }
  }

  /** The endpoints of a successful read are the blocks read one after another. */
  lemma {:induction false} ParseEndpointsBlocks(lines: seq<seq<nat>>, pos: nat, n: nat)
    requires pos <= |lines| && ParseEndpoints(lines, pos, n).Some?
    ensures BlocksRead(lines, pos, ParseEndpoints(lines, pos, n).value.0)
    decreases n
  {
    if n > 0 {
      var (first, next) := ParseEndpoint(lines, pos).value;
      var rest := ParseEndpoints(lines, next, n - 1).value.0;
      assert ParseEndpoints(lines, pos, n).value.0 == [first] + rest;
      ParseEndpointsBlocks(lines, next, n - 1);
      assert IsBlockOf(lines)(pos, first);
      BlocksCons(IsBlockOf(lines), pos, first, next, rest);
    }
  }

  /** A failed read of `n` blocks means that, for some `k < n`, the first `k` blocks
      were read and block `k` was not. */
  lemma {:induction false} ParseEndpointsFailure(lines: seq<seq<nat>>, pos: nat, n: nat)
    requires pos <= |lines| && ParseEndpoints(lines, pos, n).None?
    ensures exists k ::
      && 0 <= k < n
      && ParseEndpoints(lines, pos, k).Some?
      && ParseEndpoint(lines, ParseEndpoints(lines, pos, k).value.1).None?
    decreases n
  {
    if ParseEndpoint(lines, pos).None? {
      assert ParseEndpoints(lines, pos, 0) == Some(([], pos));
    } else {
      var next := ParseEndpoint(lines, pos).value.1;
      assert ParseEndpoints(lines, next, n - 1).None?;
      ParseEndpointsFailure(lines, next, n - 1);
      var k :| 0 <= k < n - 1
        && ParseEndpoints(lines, next, k).Some?
        && ParseEndpoint(lines, ParseEndpoints(lines, next, k).value.1).None?;
      var (eps, end) := ParseEndpoints(lines, next, k).value;
      assert ParseEndpoints(lines, pos, k + 1) == Some(([ParseEndpoint(lines, pos).value.0] + eps, end));
    }
  }

  /** Every line from `pos` on is one request `video endpoint amount`. */
  function ParseRequests(lines: seq<seq<nat>>, pos: nat): (r: Option<seq<Request>>)
    requires pos <= |lines|
    ensures r.Some? <==> forall j :: pos <= j < |lines| ==> |lines[j]| >= 3
    ensures r.Some? ==>
      && |r.value| == |lines| - pos
      && forall i :: 0 <= i < |r.value| ==>
           r.value[i] == Request(lines[pos + i][2], lines[pos + i][0], lines[pos + i][1])
    decreases |lines| - pos
  {
    if pos == |lines| then Some([])
    else if |lines[pos]| < 3 then None
    else match ParseRequests(lines, pos + 1)
      case None => None
      case Some(rest) => Some([Request(lines[pos][2], lines[pos][0], lines[pos][1])] + rest)
  }

  /** The whole description: a header `videos endpoints requests caches capacity`
      (the first and third fields are not used), a line of video sizes, the
      endpoint blocks, and then requests up to the last line. */
  function Parse(lines: seq<seq<nat>>): (r: Option<Input>)
    ensures |lines| < 2 || |lines[0]| < 5 ==> r.None?
    ensures r.Some? ==>
      && r.value.cacheCount == lines[0][3]
      && r.value.cacheSize == lines[0][4]
      && |r.value.endpoints| == lines[0][1]
      && |r.value.videos| == |lines[1]|
      && (forall i :: 0 <= i < |lines[1]| ==> r.value.videos[i].size == lines[1][i])
    ensures r.Some? ==> EndpointsSorted(r.value.endpoints)
    ensures r.Some? ==> BlocksRead(lines, 2, r.value.endpoints)
    ensures r.Some? ==>
      var end := 2 + BlocksLength(r.value.endpoints);
      && end <= |lines|
      && |r.value.requests| == |lines| - end
      && forall i :: 0 <= i < |r.value.requests| ==>
           |lines[end + i]| >= 3
           && r.value.requests[i] == Request(lines[end + i][2], lines[end + i][0], lines[end + i][1])
  {
    if |lines| < 2 || |lines[0]| < 5 then None
    else
      var header := lines[0];
      var videos := seq(|lines[1]|, i requires 0 <= i < |lines[1]| => Video(lines[1][i]));
      ParseEndpointsSorted(lines, 2, header[1]);
      match ParseEndpoints(lines, 2, header[1])
      case None => None
      case Some((endpoints, end)) =>
        ParseEndpointsBlocks(lines, 2, header[1]);
        match ParseRequests(lines, end)
        case None => None
        case Some(requests) => Some(Input(videos, endpoints, header[3], header[4], requests))
  }

  /** The read succeeds exactly when the header has five tokens, a sizes line
      follows, all endpoint blocks are complete, and every line after them has the
      three tokens of a request. */
  lemma ParseSucceeds(lines: seq<seq<nat>>)
    ensures Parse(lines).Some? <==>
      && 2 <= |lines| && 5 <= |lines[0]|
      && ParseEndpoints(lines, 2, lines[0][1]).Some?
      && forall j :: ParseEndpoints(lines, 2, lines[0][1]).value.1 <= j < |lines| ==> |lines[j]| >= 3
  {
  }

  function Prepend<T>(prefix: seq<T>, o: Option<seq<T>>): Option<seq<T>> {
    if prefix == [] then o
    else match o
      case None => None
      case Some(rest) => Some(prefix + rest)
  }

  lemma PrependConcat<T>(a: seq<T>, b: seq<T>, o: Option<seq<T>>)
    ensures Prepend(a, Prepend(b, o)) == Prepend(a + b, o)
  {
    assert [] + b == b && a + [] == a;
    if o.Some? {
      assert a + (b + o.value) == (a + b) + o.value;
    }
  }

  /** Pushes one video per token of the sizes line. */
  method ReadVideos(sizes: seq<nat>) returns (videos: seq<Video>)
    ensures |videos| == |sizes| && forall i :: 0 <= i < |sizes| ==> videos[i] == Video(sizes[i])
  {
    videos := [];
    var id := 0;
    while id < |sizes|
      invariant id <= |sizes|
      invariant |videos| == id && forall i :: 0 <= i < id ==> videos[i] == Video(sizes[i])
    {
      videos := videos + [Video(sizes[id])];
      id := id + 1;
    }
  }

  /** Pushes the `count` connections of one endpoint, from line `pos` on. */
  method ReadConnections(lines: seq<seq<nat>>, pos: nat, count: nat) returns (r: Option<seq<Connection>>)
    requires pos <= |lines|
    ensures r == ParseConnections(lines, pos, count)
  {
    var connections: seq<Connection> := [];
    var j := 0;
    while j < count
      invariant j <= count && pos + j <= |lines|
      invariant ParseConnections(lines, pos, count)
             == Prepend(connections, ParseConnections(lines, pos + j, count - j))
    {
      var p := pos + j;
      if p == |lines| || |lines[p]| < 2 {
        return None;
      }
      var c := Connection(lines[p][0], lines[p][1]);
      PrependConcat(connections, [c], ParseConnections(lines, p + 1, count - j - 1));
      connections := connections + [c];
      j := j + 1;
    }
    assert connections + [] == connections;
    return Some(connections);
  }

  /** Reads one endpoint block at line `pos`. */
  method ReadEndpoint(lines: seq<seq<nat>>, pos: nat) returns (r: Option<(Endpoint, nat)>)
    requires pos <= |lines|
    ensures r == ParseEndpoint(lines, pos)
  {
    if pos == |lines| || |lines[pos]| < 2 {
      return None;
    }
    var latency, count := lines[pos][0], lines[pos][1];
    var connections := ReadConnections(lines, pos + 1, count);
    if connections.None? {
      return None;
    }
    var sorted := SortByLatency(connections.value);
    return Some((Endpoint(latency, sorted), pos + 1 + count));
  }

  /** Reading one more block after `k` blocks appends it, or fails. */
  lemma {:induction false} EndpointsSnoc(lines: seq<seq<nat>>, pos: nat, k: nat, eps: seq<Endpoint>, end: nat)
    requires pos <= |lines| && ParseEndpoints(lines, pos, k) == Some((eps, end))
    ensures end <= |lines|
    ensures ParseEndpoints(lines, pos, k + 1)
         == match ParseEndpoint(lines, end)
            case None => None
            case Some((endpoint, next)) => Some((eps + [endpoint], next))
    decreases k
  {
    if k == 0 {
      assert eps == [] && end == pos;
      if ParseEndpoint(lines, pos).Some? {
        assert [ParseEndpoint(lines, pos).value.0] + [] == eps + [ParseEndpoint(lines, pos).value.0];
      }
    } else {
      var (first, next) := ParseEndpoint(lines, pos).value;
      var (rest, end') := ParseEndpoints(lines, next, k - 1).value;
      assert eps == [first] + rest && end' == end;
      EndpointsSnoc(lines, next, k - 1, rest, end);
      if ParseEndpoint(lines, end).Some? {
        var last := ParseEndpoint(lines, end).value.0;
        assert [first] + (rest + [last]) == eps + [last];
      }
    }
  }

  /** Once a block is missing, reading more blocks fails as well. */
  lemma {:induction false} EndpointsFailLater(lines: seq<seq<nat>>, pos: nat, k: nat, m: nat)
    requires pos <= |lines| && k <= m && ParseEndpoints(lines, pos, k).None?
    ensures ParseEndpoints(lines, pos, m).None?
    decreases k
  {
    if ParseEndpoint(lines, pos).Some? {
      EndpointsFailLater(lines, ParseEndpoint(lines, pos).value.1, k - 1, m - 1);
    }
  }

  /** Reads `n` endpoint blocks from line 2 on, sorting each block's connections
      by latency; also returns the first line after the blocks. */
  method ReadEndpoints(lines: seq<seq<nat>>, n: nat) returns (r: Option<(seq<Endpoint>, nat)>)
    requires 2 <= |lines|
    ensures r == ParseEndpoints(lines, 2, n)
  {
    var endpoints: seq<Endpoint> := [];
    var pos := 2;
    var e := 0;
    while e < n
      invariant e <= n
      invariant ParseEndpoints(lines, 2, e) == Some((endpoints, pos))
    {
      EndpointsSnoc(lines, 2, e, endpoints, pos);
      var one := ReadEndpoint(lines, pos);
      if one.None? {
        EndpointsFailLater(lines, 2, e + 1, n);
        return None;
      }
      endpoints := endpoints + [one.value.0];
      pos := one.value.1;
      e := e + 1;
    }
    return Some((endpoints, pos));
  }

  /** Pushes one request per line from `pos` to the last line. */
  method ReadRequests(lines: seq<seq<nat>>, pos: nat) returns (r: Option<seq<Request>>)
    requires pos <= |lines|
    ensures r == ParseRequests(lines, pos)
  {
    var requests: seq<Request> := [];
    var q := pos;
    while q < |lines|
      invariant pos <= q <= |lines|
      invariant ParseRequests(lines, pos) == Prepend(requests, ParseRequests(lines, q))
    {
      if |lines[q]| < 3 {
        return None;
      }
      var request := Request(lines[q][2], lines[q][0], lines[q][1]);
      PrependConcat(requests, [request], ParseRequests(lines, q + 1));
      requests := requests + [request];
      q := q + 1;
    }
    assert requests + [] == requests;
    return Some(requests);
  }

  /** The whole read: header, video sizes, endpoint blocks, requests. */
  method ParseInput(lines: seq<seq<nat>>) returns (r: Option<Input>)
    ensures r == Parse(lines)
  {
    if |lines| == 0 || |lines[0]| < 5 {
      return None;
    }
    var numberOfEndpoints, numberOfCaches, cacheSize := lines[0][1], lines[0][3], lines[0][4];
    if |lines| < 2 {
      return None;
    }
    var videos := ReadVideos(lines[1]);
    var endpoints := ReadEndpoints(lines, numberOfEndpoints);
    if endpoints.None? {
      return None;
    }
    var requests := ReadRequests(lines, endpoints.value.1);
    if requests.None? {
      return None;
    }
    assert videos == seq(|lines[1]|, i requires 0 <= i < |lines[1]| => Video(lines[1][i]));
    r := Some(Input(videos, endpoints.value.0, numberOfCaches, cacheSize, requests.value));
  }
}
