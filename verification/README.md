# Angular service-worker data groups and the ngtsc statement visitor, in Dafny

This project models two pieces of the Angular repository and proves properties of them.

**The dynamic data cache of the service worker** (`packages/service-worker/worker/src/data.ts`).
A *data group* caches network responses for the URLs its patterns match. It keeps three stores
in step: a response cache keyed by request, an age table from URL to the time the response was
stored, and a least-recently-used chain that bounds the group to `maxSize` URLs. The chain is an
`LruList`: a doubly linked list with no object pointers. Its nodes live in a URL-keyed map, and
each node names its neighbours by URL. Its state is also persisted as a plain record.

- `lru.dfy` (module `Lru`):
  - `LruNode` and `LruState` are values.
  - `pop`, `remove` and `accessed` are written twice: as step functions on states
    (`PopState`, `RemoveState`, `AccessedState`), and as methods of the class `LruList`.
    The methods update the state field in place, and each is proved equal to its step function.
  - The step functions and methods are defined on every state. That includes states holding
    entries an earlier `remove` left behind.
  - A step can end in `Threw`. The source throws when it reads or writes a field of a missing
    map entry. A throw carries the state as the throw leaves it, updates made before it included.
  - `Linked(s, c)` says that state `s` links exactly the URL sequence `c` from head to tail
    and that `count == |c|`.
  - `Tidy(s, c)` adds that the map holds nothing but the linked nodes.
  - `Chain(s)` is the sequence a walk from the head reads in `count` steps.
  - `UntrackState` is `remove` as evidently intended: it also deletes the URL's map entry.
- `data_group.dfy` (module `DataGroups`):
  - Each operation of `DataGroup` is a function over a value `Stores` holding four parts: the
    response cache, the age table, the live `LruState` and the state last written to the table.
  - The functions take a `Removal` saying which `remove` the group calls at data.ts:324 and 481:
    the source's (`AsWritten`) or the corrected one (`Corrected`).
  - Lemmas about the functions state each operation's outcome for either removal.
  - The invariant `InStep` says the three stores agree. It is preserved, and the chain stays
    within `maxSize`, under `Corrected` only. Further lemmas show requests that break both as
    written.
  - The class `DataGroup` performs the source's steps in the source's order on its fields and
    on a live `LruList`: pop, clear, accessed, put, age write, chain sync. It calls the source's
    `remove`. Each of its methods is proved to produce exactly what its function does with
    `AsWritten`.
- `visitor.dfy` (module `Visitors`) models the ngtsc `Visitor`
  (`packages/compiler-cli/src/ngtsc/util/src/visitor.ts`):
  - The visitor records, per class declaration, a list of statements to insert before it
    (`_before`).
  - It later splices those lists into the enclosing statement list, consuming each entry it uses.
  - `Spliced` is the reference definition of the splice. The looping method
    `MaybeProcessStatements` is proved to compute it.
  - The lemmas state order, placement, length and consumption.
- `optional.dfy` holds the `Option` type standing for `null`/`undefined`.

Where the code and its comments disagree, the model follows the code. The disagreements that are
modelled as written:

- **Opaque responses.** The guard of `cacheResponse` (data.ts:500) skips ok opaque responses
  exactly when `okToCacheOpaque` is true. This is stated by `OpaqueFlagBackwards`. The Fetch
  standard gives every opaque response status 0, so `!res.ok` already keeps real opaque responses
  out either way; the inverted flag shows only for an ok opaque response, which the model's
  `Response` type allows and browsers do not produce.
- **Freshness fallback.** Its comment (data.ts:396-397) says to ignore age. Its lookup still
  enforces `maxAge` (data.ts:469), as `FreshnessFallbackChecksAge` states.
- **Eviction.** It triggers on `size >= maxSize` even when the URL being stored is already in the
  chain (data.ts:506). The chain then shrinks below the limit (`StoreOverEvicts`).
- **The head's `previous` link.** It is documented as null (data.ts:32-33), but `accessed` never
  resets it (data.ts:192, 209). The invariant does not constrain it while the node is the head.
  Once `remove` has left a node's entry behind, a later `accessed` reads that entry's stale links
  (`StaleHeadSelfLoop`).
- **`count`.** It is documented as the number of nodes in the chain (data.ts:63-66). `remove`
  leaves the removed node in the map, so a later `accessed` of it counts down for a node that is
  no longer linked. `count` then disagrees with the chain (`StaleMiddleAccessMiscounts`), and the
  group's size check at data.ts:506 lets the chain outgrow `maxSize` (`StaleMiddleOverrun`).
  See Findings.
- **Errors thrown by the chain.** `lru.accessed` in `loadFromCache` runs inside the `try` that
  guards the age read (data.ts:466-476). A TypeError it raises is swallowed, and the response is
  then evicted as if expired. Every other throw of the chain rejects the request.

## Model

| member | source | states |
|---|---|---|
| Lru.Without | packages/service-worker/worker/src/data.ts:126-174 | the chain order left after unlinking a URL: exactly the other URLs, one fewer when it was linked, unchanged when it was not |
| Lru.WithoutAt | packages/service-worker/worker/src/data.ts:143-174 | unlinking the URL at position k of a duplicate-free chain splices positions before and after k together |
| Lru.PromoteFacts | packages/service-worker/worker/src/data.ts:176-223 | the chain order after `accessed` is duplicate-free, holds the URL and everything it held, and grows by one only for a new URL |
| Lru.WalkForward | packages/service-worker/worker/src/data.ts:47-67 | following `next` from `head` for `count` steps yields exactly the linked chain, which is `Chain` |
| Lru.WalkBackward | packages/service-worker/worker/src/data.ts:47-67 | following `previous` from `tail` for `count` steps yields the chain reversed |
| Lru.LinkedUnique | packages/service-worker/worker/src/data.ts:47-67 | a state links at most one URL sequence |
| Lru.TidyCount | packages/service-worker/worker/src/data.ts:63-66 | `count`, the number of nodes in the chain, is also the number of map entries when the map holds only linked nodes |
| Lru.PopLinked | packages/service-worker/worker/src/data.ts:95-124 | on an empty chain `pop` returns null and changes nothing; otherwise it returns the tail, drops it from the chain and from the map, and the rest stays linked |
| Lru.PopTidy | packages/service-worker/worker/src/data.ts:95-124 | `pop` keeps the map free of unlinked nodes |
| Lru.RemoveHeadLinked | packages/service-worker/worker/src/data.ts:132-149 | removing the head of a longer chain returns true, makes its successor the head with `previous` null, and keeps every map key |
| Lru.RemoveTailLinked | packages/service-worker/worker/src/data.ts:152-173 | removing the tail returns true, moves `tail` to its predecessor, and keeps every map key |
| Lru.RemoveMiddleLinked | packages/service-worker/worker/src/data.ts:152-173 | removing a middle node returns true and links its neighbours to each other |
| Lru.RemoveLinked | packages/service-worker/worker/src/data.ts:126-174 | `remove` returns whether the URL was linked; an absent URL leaves the state unchanged; the sole node resets the state to empty; otherwise the map keeps its keys (the stale entry) and the rest stays linked |
| Lru.LinkAsHeadLinked | packages/service-worker/worker/src/data.ts:199-222 | linking a new node in front of the head yields the chain with the URL first and adds its key |
| Lru.AccessedLinked | packages/service-worker/worker/src/data.ts:176-223 | `accessed` of a linked or absent URL never throws and moves it to the front of the chain; for the head it changes nothing; the map gains the URL's key |
| Lru.AccessedTidy | packages/service-worker/worker/src/data.ts:176-223 | `accessed` keeps the map free of unlinked nodes |
| Lru.UntrackLinked | packages/service-worker/worker/src/data.ts:126-174 | the corrected `remove` of a linked or absent URL never throws, answers whether it was linked, unlinks it and leaves no entry for it |
| Lru.UntrackTidy | packages/service-worker/worker/src/data.ts:126-174 | the corrected `remove` keeps the map free of unlinked nodes |
| Lru.StaleHeadAccessThrows | packages/service-worker/worker/src/data.ts:126-197 | after `remove` of the head of a two-node chain the node stays in the map, and a later `accessed` of it throws |
| Lru.UntrackedHeadAccessed | packages/service-worker/worker/src/data.ts:176-223 | with the corrected `remove`, the same `accessed` succeeds and relinks the URL at the head |
| Lru.StaleHeadSelfLoop | packages/service-worker/worker/src/data.ts:126-222 | `accessed` of the tail, `remove` of it, then `accessed` of it again reads the stale entry's links and makes the other node its own successor |
| Lru.StaleMiddleAccessMiscounts | packages/service-worker/worker/src/data.ts:126-197 | after `remove` of a middle node, `accessed` of it succeeds but leaves `count` 2 while a walk from the head reads three URLs |
| Lru.LruList.constructor | packages/service-worker/worker/src/data.ts:75-85 | adopts the persisted state, or starts with the empty state |
| Lru.LruList.Size | packages/service-worker/worker/src/data.ts:90 | on any linked state the size is the length of the chain |
| Lru.LruList.Pop | packages/service-worker/worker/src/data.ts:95-124 | on any state, performs `PopState` in place: the value it returns, whether it throws and the state it leaves |
| Lru.LruList.Remove | packages/service-worker/worker/src/data.ts:126-174 | on any state, performs `RemoveState` in place, stale entries included |
| Lru.LruList.Accessed | packages/service-worker/worker/src/data.ts:176-223 | on any state, performs `AccessedState` in place, stale entries included |
| Lru.LruList.LinkHead | packages/service-worker/worker/src/data.ts:199-222 | performs step 2 of `accessed` in place, with the same result as `LinkAsHead` |
| Lru.LruList.Untrack | packages/service-worker/worker/src/data.ts:126-174 | the corrected `remove` in place: `remove`, then delete the URL's map entry unless it threw |
| DataGroups.Fetch | packages/service-worker/worker/src/data.ts:559-568 | the fetch promise rejects exactly when the network fails, and otherwise resolves to the response |
| DataGroups.TimeoutFetch | packages/service-worker/worker/src/data.ts:416-448 | without a timeout it is the plain fetch; with one, it yields null unless the response arrives in time |
| DataGroups.FullFetch | packages/service-worker/worker/src/data.ts:416-448 | the un-raced promise: the response, or a 504 Gateway Timeout when a timeout was set and the network fails |
| DataGroups.Then | packages/service-worker/worker/src/data.ts:374-375 | `await cacheResponse(...); return res` resolves to the response exactly when caching resolves, and rejects with its reason otherwise |
| DataGroups.ClearUrlEffect | packages/service-worker/worker/src/data.ts:550-557 | `clearCacheForUrl` deletes exactly the GET and HEAD entries of the URL and its age record, and nothing else |
| DataGroups.LookupOutcome | packages/service-worker/worker/src/data.ts:458-488 | `loadFromCache` returns `{res, age}` exactly when the response is cached, young enough and `accessed` succeeds, and then changes only the LRU state; a cached entry not served is cleared with its age and the chain synced, unless `remove` throws a TypeError; a miss changes nothing; every other URL keeps its entries and age; on a linked state, for a linked or absent URL, nothing throws, age alone decides, and an expired URL leaves the chain |
| DataGroups.LookupInStep | packages/service-worker/worker/src/data.ts:458-488 | with the corrected `remove`, `loadFromCache` never rejects, keeps the three stores in step and never lengthens the chain |
| DataGroups.EvictInStep | packages/service-worker/worker/src/data.ts:506-512 | on stores in step, eviction never throws, keeps them in step and drops exactly the last URL when the chain is full |
| DataGroups.PutInStep | packages/service-worker/worker/src/data.ts:518-528 | on stores in step, promoting, storing and stamping never throws, moves the URL to the front and, for a GET or HEAD, keeps the stores in step |
| DataGroups.StoreInStep | packages/service-worker/worker/src/data.ts:497-529 | on stores in step, `cacheResponse` never throws, keeps them in step for a GET or HEAD, and leaves the chain trimmed and then headed by the URL |
| DataGroups.StoreBounded | packages/service-worker/worker/src/data.ts:506-518 | on stores in step and with `maxSize >= 1`, a chain within the limit stays within it after `cacheResponse` |
| DataGroups.StoreOutcome | packages/service-worker/worker/src/data.ts:497-529 | `cacheResponse` writes nothing for a response it does not admit; a rejection is a TypeError with nothing synced; an admitted response, once stored, heads the chain, is cached with age `now`, and the table holds the new state |
| DataGroups.StoreLinkedResolves | packages/service-worker/worker/src/data.ts:506-518 | on a linked state, for a linked or absent URL, `cacheResponse` never throws, and an admitted response leaves the chain trimmed and then headed by the URL |
| DataGroups.StoreEvictsTail | packages/service-worker/worker/src/data.ts:506-518 | on any linked state with a full chain, the old tail loses its chain position, its map entry, its GET and HEAD entries and its age record, and the URL heads the rest of the chain |
| DataGroups.EvictDropsTail | packages/service-worker/worker/src/data.ts:506-512 | eviction from a full chain in step keeps the stores in step and drops the tail from the chain, the cache and the age table |
| DataGroups.StoreKeepsOthers | packages/service-worker/worker/src/data.ts:497-529 | every URL other than the stored one and the evicted tail keeps its cache entries and age record |
| DataGroups.StoreOverEvicts | packages/service-worker/worker/src/data.ts:506 | storing a URL already in a full chain still evicts the tail, leaving the chain one below its previous length |
| DataGroups.OpaqueFlagBackwards | packages/service-worker/worker/src/data.ts:500 | an ok opaque response is skipped when `okToCacheOpaque` is true and admitted when it is false |
| DataGroups.PerformanceServesCache | packages/service-worker/worker/src/data.ts:339-356 | a young cached response whose URL `accessed` promotes is served with only the LRU state changed; a background refresh is deferred exactly when its age reached `refreshAheadMs` |
| DataGroups.PerformanceTimesOut | packages/service-worker/worker/src/data.ts:358-376 | on a miss with a timeout and no timely response, the caller gets the 504, nothing is cached inline and the caching is deferred |
| DataGroups.FreshnessPrefersNetwork | packages/service-worker/worker/src/data.ts:378-408 | a timely network response (any answer, when no timeout is set) is returned unless caching it throws, and is cached when admitted; on a linked state, for a linked or absent URL, it is always returned |
| DataGroups.FreshnessFallbackChecksAge | packages/service-worker/worker/src/data.ts:392-414 | on a late or failed network answer a young cached response is served; one that is not young is not, and the full fetch answers unless a TypeError rejects; with the corrected `remove` on a linked state, the full fetch always answers |
| DataGroups.DispatchPasses | packages/service-worker/worker/src/data.ts:296-310 | requests no pattern matches and OPTIONS requests get null, with nothing changed |
| DataGroups.DispatchUnknownStrategy | packages/service-worker/worker/src/data.ts:311-321 | a GET or HEAD request under an unknown strategy rejects with that strategy, with nothing changed |
| DataGroups.MutationInvalidates | packages/service-worker/worker/src/data.ts:322-336 | any other method calls `remove`; a throw rejects with a TypeError before any fetch; otherwise it answers whether the map had an entry, clears that URL's entries and age if so, syncs the chain, leaves other URLs alone and returns the network fetch; on a linked state it never throws |
| DataGroups.DispatchInStep | packages/service-worker/worker/src/data.ts:296-337 | with the corrected `remove`, every request keeps the three stores in step, the chain within `maxSize >= 1`, and never rejects with a TypeError |
| DataGroups.ExpiredHeadRefetchRejects | packages/service-worker/worker/src/data.ts:458-529 | a GET of an expired head rejects with a TypeError under `performance` with a timely answer and under `freshness` with a late one; with the corrected `remove` the response is served |
| DataGroups.SecondMutationRejects | packages/service-worker/worker/src/data.ts:322-336 | a second POST to the former head rejects with a TypeError; with the corrected `remove` it goes to the network |
| DataGroups.StaleMiddleOverrun | packages/service-worker/worker/src/data.ts:296-529 | POST, GET, GET on a full chain of three leaves four URLs linked with `count` 3 and nothing evicted |
| DataGroups.DataGroup.constructor | packages/service-worker/worker/src/data.ts:257-264 | the group starts over the given stores, with its chain not yet loaded |
| DataGroups.DataGroup.Lru | packages/service-worker/worker/src/data.ts:269-279 | loads the chain once, from the persisted record or empty, and returns the same list afterwards |
| DataGroups.DataGroup.SyncLru | packages/service-worker/worker/src/data.ts:284-290 | writes the loaded chain to the table; does nothing when no chain is loaded |
| DataGroups.DataGroup.ClearCacheForUrl | packages/service-worker/worker/src/data.ts:550-557 | leaves the stores as `ClearUrl` describes |
| DataGroups.DataGroup.LoadFromCache | packages/service-worker/worker/src/data.ts:458-488 | returns the hit or the rejection and leaves the stores exactly as `Lookup` does with the source's `remove` |
| DataGroups.DataGroup.CacheResponse | packages/service-worker/worker/src/data.ts:497-529 | settles and leaves the stores exactly as `Store` does |
| DataGroups.DataGroup.HandleFetchWithPerformance | packages/service-worker/worker/src/data.ts:339-376 | answers and leaves the stores exactly as `Performance` does with the source's `remove` |
| DataGroups.DataGroup.HandleFetchWithFreshness | packages/service-worker/worker/src/data.ts:378-414 | answers and leaves the stores exactly as `Freshness` does with the source's `remove` |
| DataGroups.DataGroup.HandleFetch | packages/service-worker/worker/src/data.ts:296-337 | answers and leaves the stores exactly as `Dispatch` does with the source's `remove`, loading the chain for every matched request |
| Visitors.VisitClassDeclaration | packages/compiler-cli/src/ngtsc/util/src/visitor.ts:42-45 | the default class visit returns the node with no statements to insert |
| Visitors.VisitOtherNode | packages/compiler-cli/src/ngtsc/util/src/visitor.ts:62 | the default visit of any other node returns it unchanged |
| Visitors.HasStatements | packages/compiler-cli/src/ngtsc/util/src/visitor.ts:115-118 | true exactly when `statements` is defined and an array |
| Visitors.Recorded | packages/compiler-cli/src/ngtsc/util/src/visitor.ts:47-57 | an entry keyed by the visited node is set only when the result carries `before`; all other entries are untouched |
| Visitors.SpliceNoPending | packages/compiler-cli/src/ngtsc/util/src/visitor.ts:93-96 | with no pending entry for any statement, the splice returns the statements unchanged |
| Visitors.SplicePrefix | packages/compiler-cli/src/ngtsc/util/src/visitor.ts:102-109 | the output only ever grows at its end while the loop runs |
| Visitors.SpliceAt | packages/compiler-cli/src/ngtsc/util/src/visitor.ts:102-109 | each statement sits in the output right after its own pending list |
| Visitors.SplicePlacement | packages/compiler-cli/src/ngtsc/util/src/visitor.ts:101-110 | statements keep their original order, and each one's pending list comes immediately before it |
| Visitors.FirstsDistinct | packages/compiler-cli/src/ngtsc/util/src/visitor.ts:103-107 | the statements whose lists are consumed are the distinct statements, each once |
| Visitors.SpliceLength | packages/compiler-cli/src/ngtsc/util/src/visitor.ts:102-110 | the output length is the input length plus the total length of the consumed lists |
| Visitors.AfterNoPending | packages/compiler-cli/src/ngtsc/util/src/visitor.ts:102-109 | statements without pending lists are copied through in order |
| Visitors.RecordThenSplice | packages/compiler-cli/src/ngtsc/util/src/visitor.ts:47-112 | a list recorded for a class declaration is inserted exactly before that declaration, and nowhere else |
| Visitors.Visitor.constructor | packages/compiler-cli/src/ngtsc/util/src/visitor.ts:36 | the visitor starts with no pending insertions |
| Visitors.Visitor.RecordClassDeclaration | packages/compiler-cli/src/ngtsc/util/src/visitor.ts:47-57 | returns the visited node and updates `_before` as `Recorded` does |
| Visitors.Visitor.MaybeProcessStatements | packages/compiler-cli/src/ngtsc/util/src/visitor.ts:91-112 | clones exactly when some statement has a pending entry (otherwise returns the node unchanged); the output is `Spliced`; the used entries are deleted and all others survive |

## Left out

- Timeout racing (`Promise.race` in `networkFetchWithTimeout`, data.ts:416-448). The network's
  outcome is an input: it arrives in time, arrives late, or fails.
- Background work registered with `ctx.waitUntil` (data.ts:350, 369, 394), and `safeCacheResponse`
  (data.ts:450-456). A `deferred` flag records that such work was registered. Its later effect on
  the stores is not modelled, because it runs concurrently with other requests.
- `safeFetch` (data.ts:559-568) is modelled by its observable behaviour: it returns the promise
  without awaiting it, so a network failure rejects. Synchronous throws are not modelled.
- The browser Cache API, the `Database`/`Table` age and chain tables, `scope.fetch` and the
  adapter are abstract maps and parameters. The Cache API is an exact-key map, so its own request
  matching is not modelled. Reading or writing a table never fails.
- `adapter.time` is read once per request, as `now`.
- `RegExp` compilation and matching (data.ts:260, 298) is a `test` parameter, because it is
  foreign code.
- `cleanup` (data.ts:534-541) deletes whole stores. It is pure I/O.
- The `DataGroup` constructor's opening of the cache and the tables (data.ts:257-264) is not
  modelled. The group starts over given store contents.
- Nodes are values, not shared objects. The one place where the source relies on sharing is the
  node `accessed` holds across its call to `remove` (data.ts:193-216). `LinkAsHead` reads that
  node back from the map, so updates made through the map show in it.
- A lookup of `map[null]` counts as undefined. The two differ only for a URL that is literally
  `"null"`.
- The corrected `remove` exists as the step function `UntrackState`, the method
  `LruList.Untrack` and the `Corrected` removal of the group's functions. The class `DataGroup`
  calls the source's `remove`, so the invariant `InStep` and the `maxSize` bound are not
  promised for it.
- DataGroups.StoreBounded: assumes `maxSize >= 1`. With `maxSize <= 0` the guard at data.ts:506
  still lets one entry in, so the chain exceeds the limit. It also holds only for stores in step,
  which the source's `remove` does not keep (Findings).
- DataGroups.DispatchInStep: assumes `maxSize >= 1`, for the same reason, and is stated for the
  corrected `remove` only; `StaleMiddleOverrun` and `ExpiredHeadRefetchRejects` show that it
  fails as written.
- Concurrent requests interleaving at their suspension points are not modelled. Each request runs
  to completion against the stores.
- The TypeScript compiler API calls in visitor.ts are not modelled:
  - `ts.visitEachChild`, `ts.getMutableClone`, `ts.createNodeArray` (visitor.ts:50, 65, 99, 110);
  - the generic `_visit` walk (visitor.ts:72-89) and `_visitOtherNode` (visitor.ts:64-67);
  - `hasTrailingComma`.

  Statements are an abstract type with equality, and a node's statements are a sequence.

## Findings

| source | as written | input that shows it | evidently intended | confidence | as-written member | corrected member |
|---|---|---|---|---|---|---|
| packages/service-worker/worker/src/data.ts:126-174 | `remove` unlinks a URL but deletes its `map` entry only when it was the sole node. A later `accessed(url)` sees the entry and calls `remove` on the stale node, which reads `map[node.previous]` with `previous` null. | Chain `/a`,`/b`: `remove("/a")` then `accessed("/a")` throws a TypeError at data.ts:157. | `remove` also deletes `map[url]`, so the map holds only linked nodes | not executed | Lru.StaleHeadAccessThrows | Lru.UntrackTidy |
| packages/service-worker/worker/src/data.ts:126-222 | The stale entry keeps its old links, and `accessed` follows them. | Chain `/a`,`/b`: `accessed("/b")`, `remove("/b")`, `accessed("/b")` leaves `/a` as its own successor, so a walk from the head never ends. | the stale entry is gone, so `accessed` links `/b` as a new node | not executed | Lru.StaleHeadSelfLoop | Lru.UntrackTidy |
| packages/service-worker/worker/src/data.ts:126-197 | A second `remove` of a stale middle entry counts down again. | Chain `/x`,`/a`,`/y`: `remove("/a")` then `accessed("/a")` leaves `count` 2 while the chain reads `/a`,`/x`,`/y`. | `count` stays the number of nodes in the chain | not executed | Lru.StaleMiddleAccessMiscounts | Lru.UntrackTidy |
| packages/service-worker/worker/src/data.ts:458-529 | `loadFromCache` evicts an expired URL with `remove` (data.ts:481), and `cacheResponse` then calls `accessed` for it (data.ts:518). | `maxSize` 2, `/a`,`/b` cached at time 0, `maxAge` 1000: a GET of `/a` at time 5000 rejects with a TypeError although the network answered: under `performance` in time, under `freshness` (timeout 50) late. | the refetched response is cached and served | not executed | DataGroups.ExpiredHeadRefetchRejects | DataGroups.DispatchInStep |
| packages/service-worker/worker/src/data.ts:322-336 | A mutating request removes its URL with `remove` (data.ts:324). | The same stores: two POSTs to `/a`; the second rejects with a TypeError before any fetch. | every POST goes to the network | not executed | DataGroups.SecondMutationRejects | DataGroups.DispatchInStep |
| packages/service-worker/worker/src/data.ts:296-529 | `count` drifts below the chain's length, and the size check at data.ts:506 reads `count`. | `maxSize` 3, chain `/x`,`/a`,`/y`: POST `/a`, GET `/a`, GET `/b` leaves four URLs linked with `count` 3 and nothing evicted. | the chain never holds more than `maxSize` URLs | not executed | DataGroups.StaleMiddleOverrun | DataGroups.DispatchInStep |
