# Greedy video placement on CDN edge caches — a Dafny model

The program plans which videos to store on which edge caches. Every cache has the
same capacity. Every endpoint has a latency to the datacenter and a latency to each
cache it is connected to. Every request description names a video, an endpoint and an
amount of requests. The program reads such a description, fills the caches
greedily, scores the result and prints one line per cache.

This project models the placement engine of `src/main.rs`:

- `problem.dfy` (module `Problem`): the demand model (`Video`, `Connection`,
  `Endpoint`, `Request`, `Input`). It also states the validity conditions the engine
  relies on and gives the stable sort of an endpoint's connections by link latency.
- `parse.dfy` (module `Parse`): the structure of `parse_input`, over lines that are
  already split into natural-number tokens. The reading loops are methods. Each is
  proved equal to a recursive reference definition (`Parse`, `ParseEndpoints`, ...).
  Facts about the file layout are proved about those definitions.
- `allocation.dfy` (module `Allocation`): the allocation `State` as a class. It has
  one `seq<set<nat>>` of stored videos and one `seq<nat>` of usage counters, with
  `InsertVideoInCache`, `CacheUsage`, `Score` and `Output`. The module also holds the
  capacity invariant (`Consistent`), `IsCaching` and the evaluator's reference sums.
- `greedy.dfy` (module `Greedy`): `greedy_next` as a pure function over a snapshot of
  the state (`GreedyNext`), built from the per-request proposal (`Candidate`), the
  filter step (`Candidates`) and the maximum (`MaxChoice`). The `greedy` loop is a
  method (`Greedy`) whose termination measure is the number of unserved requests.

The pure functions take the state as plain values `(input, cached, usage)`. The
class methods pass their own fields. A request is *served* when some cache connected
to its endpoint stores its video (`IsCaching`). It is *eligible* when it is not
served and some connected cache still has room for the video (`Eligible`).

Facts about the code that shape the model:
- Requests with the same `(video, endpoint)` pair are not merged. Each request line
  is scored on its own.
- There is one strategy: every round re-scores all requests and takes the best
  single placement. Scores are not divided by the video size.
- The header's video count (token 0) and request count (token 2) are not used. The
  video count comes from the sizes line, and every line after the endpoint blocks
  becomes a request.
- Videos larger than the capacity are not removed up front. Such a video never
  passes the room check, so it is never placed.
- The normalised score divides by the total amount in floating point, which gives
  NaN when there are no requests. That division is not modelled (see below).

## Model

| member | source | states |
|---|---|---|
| `Problem.SortByLatencyCorrect` | src/main.rs:128 | an endpoint's connections after the sort are in ascending link-latency order and are a permutation of the connections read |
| `Problem.SortByLatencyStable` | src/main.rs:128 | the sort is stable (as `sort_by` is): for every latency value, connections with that latency keep their input order |
| `Parse.ParseConnections` | src/main.rs:117-122 | reading `k` connection lines succeeds exactly when `k` lines with at least two tokens follow; connection `j` is `(cache id, latency)` taken from line `pos + j` |
| `Parse.ParseEndpoint` | src/main.rs:99-133 | a block is read exactly when its first line exists with at least two tokens and its connection lines can all be read; it takes that line plus one line per connection, and reading goes on at the line after its last connection |
| `Parse.ParseEndpointContents` | src/main.rs:104-128 | the endpoint's datacenter latency is token 0 of the block's first line; it has token 1 many connections, sorted by latency and a permutation of the connection lines read |
| `Parse.ParseEndpoints` | src/main.rs:97-135 | `n` endpoint blocks yield `n` endpoints, and reading goes on at the line just after all blocks |
| `Parse.ParseEndpointsBlocks` | src/main.rs:97-135 | endpoint `e` is the block read at the line just after the blocks of endpoints `0 .. e-1` |
| `Parse.ParseEndpointsFailure` | src/main.rs:97-135 | when reading `n` blocks fails, some block `k < n` is incomplete although the `k` blocks before it were read |
| `Parse.ParseEndpointsSorted` | src/main.rs:128-133 | every endpoint that is read has its connections sorted by latency |
| `Parse.ParseRequests` | src/main.rs:137-154 | the request lines are read successfully exactly when every remaining line has at least three tokens; request `i` is line `pos + i` read as `(video, endpoint, amount)` |
| `Parse.Parse` | src/main.rs:49-163 | no input without a header of five tokens and a sizes line; counting header tokens from 0, the cache count is token 3, the capacity token 4 and the endpoint count token 1; one video per size token; endpoint `e` is the block after the blocks of the endpoints before it, with sorted connections; every line after the endpoint blocks is one request, in order |
| `Parse.ParseSucceeds` | src/main.rs:49-163 | the read succeeds exactly when there are a five-token header and a sizes line, all endpoint blocks are complete and every line after them has three tokens |
| `Parse.ReadVideos` | src/main.rs:85-95 | the sizes loop pushes video `i` with size token `i` |
| `Parse.ReadConnections` | src/main.rs:117-126 | the connection loop yields exactly `ParseConnections`, aborting on a missing line or token |
| `Parse.ReadEndpoint` | src/main.rs:99-133 | reading one endpoint block yields exactly `ParseEndpoint` |
| `Parse.EndpointsSnoc` | src/main.rs:98-134 | after `k` blocks, reading one more block appends it to the endpoints read so far, or fails |
| `Parse.EndpointsFailLater` | src/main.rs:98-134 | once a block is missing, reading more blocks fails too |
| `Parse.ReadEndpoints` | src/main.rs:97-135 | the endpoint loop yields exactly `ParseEndpoints` from line 2 |
| `Parse.ReadRequests` | src/main.rs:137-154 | the loop over the remaining lines yields exactly `ParseRequests` |
| `Parse.ParseInput` | src/main.rs:49-163 | the whole read yields exactly `Parse`; every panic of the source appears as `None` |
| `Problem.InsertByLatency` | src/main.rs:128 | inserting one connection into a sorted run adds exactly one element |
| `Problem.SortByLatency` | src/main.rs:128 | the sort keeps the number of connections |
| `Allocation.SizeSum` | src/main.rs:192-195 | the total size of a set of videos is at least the size of each video in it |
| `Allocation.SizeSumAdd` | src/main.rs:192-195 | adding a new video to a set raises the set's total size by that video's size |
| `Allocation.Consistent` | src/main.rs:181-195 | the capacity invariant kept by all updates: each counter is its cache's total video size and at most the capacity (a definition; its properties are the lemmas `InsertKeepsConsistency` and `InsertPresentBreaksConsistency`) |
| `Allocation.IsCaching` | src/main.rs:185-190 | some cache connected to the endpoint stores the video (a definition; its properties are `IsCachingGrows` and `SavedServed`) |
| `Allocation.IsCachingGrows` | src/main.rs:185-190 | a served endpoint stays served when caches only gain videos |
| `Allocation.InsertKeepsConsistency` | src/main.rs:192-195 | inserting a video that is not yet in the cache and that fits keeps `usage[c]` equal to the total size of `c`'s videos and within the capacity |
| `Allocation.InsertPresentBreaksConsistency` | src/main.rs:192-195 | inserting a video the cache already holds would double-count its size, so the guard in `greedy_next` is needed |
| `Allocation.FirstHolding` | src/main.rs:208-213 | the result is the first connection, in the endpoint's order, whose cache stores the video; `None` means that no connection's cache does |
| `Allocation.SavedServed` | src/main.rs:202-217 | a request saves nothing when its endpoint is not served; otherwise it saves `(datacenter latency - link latency) * amount` at the first connected cache that stores the video; never negative |
| `Allocation.Saved` | src/main.rs:202-217 | a request never saves a negative amount, and saves nothing when no connected cache stores its video |
| `Allocation.SumSaved` | src/main.rs:199-218 | the total latency saved is never negative |
| `Allocation.SumAmount` | src/main.rs:206 | the total amount counts every request, so it is at least each request's amount |
| `Allocation.SavedGrows` | src/main.rs:202-217 | with connections sorted by latency, storing more videos never lowers what a request saves |
| `Allocation.SumSavedGrows` | src/main.rs:199-218 | with connections sorted by latency, storing more videos never lowers the total latency saved |
| `Allocation.State.constructor` | src/main.rs:173-179 | one empty video set and one zero counter per cache; the invariant holds from the start |
| `Allocation.State.CacheUsage` | src/main.rs:181-183 | a cache's counter is the total size of its videos and is at most the capacity |
| `Allocation.State.InsertVideoInCache` | src/main.rs:192-195 | adds `v` to cache `c` and raises `c`'s counter by `v`'s size; every other cache's set and counter are unchanged; the invariant survives when `v` is new to `c` and fits |
| `Allocation.State.Score` | src/main.rs:198-218 | the loop returns the total saved latency over all requests and the total amount over all requests, served or not; the latency total is non-negative |
| `Allocation.State.Output` | src/main.rs:223-239 | the first line is the cache count; line `c + 1` starts with `c` and lists each video of cache `c` exactly once and nothing else |
| `Greedy.HasRoom` | src/main.rs:260-261 | the signed comparison `capacity - usage >= size` holds exactly when the video still fits next to the current usage |
| `Greedy.FirstFit` | src/main.rs:257-262 | the result is the first connection, in the endpoint's order, whose cache has `capacity - usage >= size`; `None` means that no connected cache has room |
| `Greedy.Candidate` | src/main.rs:246-269 | a request proposes a placement exactly when it is eligible; the proposal is its video on the first connected cache with room, scored `(datacenter latency - link latency) * amount` |
| `Greedy.CandidateAdmissible` | src/main.rs:250-265 | a proposed cache is connected to the request's endpoint, does not hold the video yet and has room for it |
| `Greedy.Candidates` | src/main.rs:246-269 | the filter yields at most one choice per request |
| `Greedy.CandidatesExact` | src/main.rs:243-269 | the scanned choices are exactly the proposals of the individual requests |
| `Greedy.MaxChoice` | src/main.rs:270 | the chosen element is one of the choices, and no choice scores higher |
| `Greedy.GreedyNext` | src/main.rs:242-271 | `None` exactly when no request is eligible; otherwise it is the proposal of some request, and no eligible request proposes a higher score |
| `Greedy.UnservedBound` | src/main.rs:274-277 | the number of unserved requests is at most the number of requests |
| `Greedy.UnservedGrows` | src/main.rs:185-190 | the number of unserved requests never rises as caches gain videos |
| `Greedy.UnservedDrops` | src/main.rs:185-190 | when one more request becomes served and none stops being served, the number of unserved requests falls |
| `Greedy.CandidateServes` | src/main.rs:250-265 | placing a request's proposal makes that previously unserved request served |
| `Greedy.GreedyNextServes` | src/main.rs:274-275 | inserting the chosen placement only adds to caches and strictly lowers the number of unserved requests |
| `Greedy.GreedyStep` | src/main.rs:257-262 | the chosen cache does not hold the chosen video and has room for it, so the insertion keeps the capacity invariant |
| `Greedy.Round` | src/main.rs:274-275 | one round keeps the capacity invariant, only adds to caches and strictly lowers the number of unserved requests |
| `Greedy.Run` | src/main.rs:273-278 | the rounds from a consistent state, each inserting `GreedyNext`'s choice until it proposes nothing, end in a consistent state |
| `Greedy.RunGrows` | src/main.rs:273-278 | the rounds never remove a video from a cache |
| `Greedy.RunRounds` | src/main.rs:273-278 | each round serves at least one more request, so the number of rounds plus the final unserved count is at most the starting unserved count |
| `Greedy.RunStops` | src/main.rs:273-278 | after the rounds no request is eligible |
| `Greedy.Greedy` | src/main.rs:273-278 | the final sets and counters and the number of rounds are exactly those of `Run` from the starting state; the loop ends with the capacity invariant intact, no cache set shrunk and no eligible request left; it runs at most once per request; with sorted connections the total saved latency does not drop |

## Left out

- File and process I/O is not modelled: opening the file, reading lines, command-line arguments, printing to stdout and stderr, and `main`. Reading starts from lines already split into natural-number tokens. `Output` returns token lines, not a `String`.
- Decimal text-to-integer conversion is not modelled. Each `unwrap` panic on a missing line or token appears as `None` from `ParseInput`.
- The debug `println!` branches of `parse_input` are not modelled. They have no effect on the result.
- The progress bar and the timing are not modelled. They only observe the run.
- The rayon parallel scan in `greedy_next` is modelled as a sequential filter followed by a maximum.
- MaxChoice: picks the last of equal scores, as `max_by_key` does, but its contract and `GreedyNext`'s promise only a maximal score; which of several tied placements is chosen is not stated.
- State.Score: returns the two integer totals. It does not return the final `f64` division, `* 1000` and `floor`, nor the NaN produced when the total amount is 0.
- Machine integer widths are not modelled. All integers are unbounded. The `i32` casts in the room check are written as an integer comparison. Overflow of the `u32` additions and products (counters, scores, sums) is not modelled.
- ValidInput is required by the engine functions and methods. It asks that every id is in range and that no link latency exceeds its endpoint's datacenter latency. For inputs that break it, the source panics on an index or a `u32` subtraction (or wraps in a release build). `parse_input` checks neither condition, and neither does `ParseInput`.
- The `HashSet` iteration order in `output` is not fixed. `Output` takes the videos of each cache in an arbitrary order, and its contract fixes only each line's membership.
- The empty `Cache` struct is kept only as the number of caches.
- Greedy: the number of rounds is returned as a ghost count, which compiled code cannot observe; the source does not return it.
