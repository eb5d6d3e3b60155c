/**
 * A data group of the Angular service worker (packages/service-worker/worker/src/data.ts:226-569).
 *
 * A data group caches the responses to requests whose URL matches one of its patterns, under one
 * of two strategies: `performance` (serve from the cache while the entry is young enough, else
 * go to the network) and `freshness` (go to the network first, fall back to the cache when the
 * network is slow or fails).  It keeps three stores in step: a response cache keyed by request,
 * an age table from URL to the time the response was stored, and the LRU chain (module `Lru`),
 * loaded lazily from and written back to a table.
 *
 * The stores are modelled as maps, the clock as an integer `now` read once per request, the URL
 * patterns as a test function, and the network as an input saying whether and when it answers.
 * The functions below state what each operation does to the stores, the whole `LruState`
 * included; the class `DataGroup` performs the same steps in the source's order on its fields and
 * the live `LruList`, and each of its methods is proved to agree with its function.
 *
 * The functions take a `Removal`: `AsWritten` calls the source's `remove`, which leaves the
 * removed URL's map entry behind, and `Corrected` calls `UntrackState`, which also deletes it.
 * The class follows the source.  The stores stay in step, and the chain within `maxSize`, only
 * under `Corrected`; the lemmas at the end of the module exhibit the requests that break both
 * as written.
 */
module DataGroups {
  import opened Optional
  import opened Lru

  // ---------------------------------------------------------------------------------------------
  // Requests, responses, configuration
  // ---------------------------------------------------------------------------------------------

  /** A request: its HTTP method (`Request.method`) and its URL. */
  datatype Request = Request(verb: string, url: string)

  /** `Response.type`. */
  datatype ResponseType = Basic | Cors | Default | Error | Opaque | OpaqueRedirect

  datatype Response = Response(status: int, statusText: string, kind: ResponseType, body: string)
  {
    /** `Response.ok`: the status is in the range 200-299. */
    predicate Ok() {
      200 <= status <= 299
    }
  }

  /** The body-less 504 the worker makes up when the network cannot answer (data.ts:428-431). */
  const GatewayTimeout := Response(504, "Gateway Timeout", Default, "")

  /** The group's part of the manifest: `DataGroupConfig`, without the fields only I/O uses. */
  datatype Config = Config(
    patterns: seq<string>,
    strategy: string,
    maxSize: int,
    maxAge: int,
    timeoutMs: Option<int>,
    refreshAheadMs: Option<int>)

  /** A response found in the cache, with how long ago it was stored. */
  datatype Hit = Hit(res: Response, age: int)

  // ---------------------------------------------------------------------------------------------
  // The network and promises
  // ---------------------------------------------------------------------------------------------

  /**
   * What the network does with a request: answers before the group's timeout would fire,
   * answers only after it, or fails (the fetch promise rejects).  Without a timeout the two
   * kinds of answer behave the same.
   */
  datatype Network = Arrives(res: Response) | ArrivesLate(res: Response) | Fails

  /**
   * Why a returned promise rejects: an unknown strategy, a failed fetch, or the TypeError an
   * `LruList` method raises on an entry that is `undefined`.
   */
  datatype Failure = UnknownStrategy(strategy: string) | NetworkError | TypeError

  /** How a promise settles. */
  datatype Settled<T> = Resolves(value: T) | Rejects(reason: Failure)

  /** `safeFetch` (data.ts:559-568): it returns the fetch promise unawaited, so a failure rejects. */
  function Fetch(net: Network): (p: Settled<Response>)
    ensures p.Rejects? <==> net.Fails?
    ensures p.Resolves? ==> p.value == net.res
  {
    if net.Fails? then Rejects(NetworkError) else Resolves(net.res)
  }

  /**
   * The first promise of `networkFetchWithTimeout` (data.ts:416-448): with a timeout, the race
   * gives the response only when it arrives in time and `undefined` otherwise, failure included;
   * without one it is the plain fetch.
   */
  function TimeoutFetch(config: Config, net: Network): (p: Settled<Option<Response>>)
    ensures p.Rejects? <==> config.timeoutMs.None? && net.Fails?
    ensures p == Resolves(None) <==> config.timeoutMs.Some? && !net.Arrives?
    ensures p.Resolves? && p.value.Some? ==> p.value.value == net.res
  {
    if config.timeoutMs.None? then
      (if net.Fails? then Rejects(NetworkError) else Resolves(Some(net.res)))
    else if net.Arrives? then Resolves(Some(net.res))
    else Resolves(None)
  }

  /**
   * The second promise of `networkFetchWithTimeout`: the full fetch, which with a timeout turns a
   * failure into the made-up 504 and without one is the plain fetch.
   */
  function FullFetch(config: Config, net: Network): (p: Settled<Response>)
    ensures p.Rejects? <==> config.timeoutMs.None? && net.Fails?
    ensures p.Resolves? ==> p.value == if net.Fails? then GatewayTimeout else net.res
  {
    if config.timeoutMs.Some? && net.Fails? then Resolves(GatewayTimeout) else Fetch(net)
  }

  /**
   * A promise of nothing followed by `return res`: the response once the first promise resolves,
   * its rejection otherwise.
   */
  function Then(p: Settled<()>, res: Response): (q: Settled<Option<Response>>)
    ensures q.Resolves? <==> p.Resolves?
    ensures q.Resolves? ==> q.value == Some(res)
    ensures q.Rejects? ==> q.reason == p.reason
  {
    match p
    case Resolves(_) => Resolves(Some(res))
    case Rejects(e) => Rejects(e)
  }

  /** A response promise seen as the `Response | null` promise `handleFetch` returns. */
  function Answer(p: Settled<Response>): Settled<Option<Response>> {
    match p
    case Resolves(r) => Resolves(Some(r))
    case Rejects(e) => Rejects(e)
  }

  /** `patterns.some(pattern => pattern.test(url))` (data.ts:298), the pattern test given. */
  predicate Matches(patterns: seq<string>, test: (string, string) -> bool, url: string) {
    exists i | 0 <= i < |patterns| :: test(patterns[i], url)
  }

  // ---------------------------------------------------------------------------------------------
  // The stores and what each operation does to them
  // ---------------------------------------------------------------------------------------------

  /**
   * Which `remove` the group calls at data.ts:324 and data.ts:481: the source's, or the corrected
   * one that also deletes the URL's map entry.
   */
  datatype Removal = AsWritten | Corrected

  /** `lru.remove(url)`, as written or corrected. */
  function Unlink(how: Removal, s: LruState, url: string): Step<bool> {
    if how == AsWritten then RemoveState(s, url) else UntrackState(s, url)
  }

  /**
   * The group's stores: the response cache, the age table, the live LRU state and the state last
   * written to the LRU table, if any.
   */
  datatype Stores = Stores(
    cache: map<Request, Response>,
    ages: map<string, int>,
    lru: LruState,
    stored: Option<LruState>)

  /** How an asynchronous step settles, and the stores it leaves (after a throw, as it leaves them). */
  datatype Effect<T> = Effect(result: Settled<T>, stores: Stores)

  /** The result of handling one request: the reply promise, the stores, and whether background work was registered with `ctx.waitUntil`. */
  datatype Served = Served(reply: Settled<Option<Response>>, stores: Stores, deferred: bool)

  /** The state `lru()` starts from (data.ts:269-279): the table's record, or an empty chain. */
  function FromTable(persisted: Option<LruState>): LruState {
    if persisted.Some? then persisted.value else EmptyState
  }

  /**
   * `clearCacheForUrl` (data.ts:550-557): delete the GET and HEAD entries of `url` and its age;
   * the chain is left alone.
   */
  function ClearUrl(st: Stores, url: string): Stores {
    st.(cache := st.cache - {Request("GET", url), Request("HEAD", url)}, ages := st.ages - {url})
  }

  /**
   * Clearing a URL removes exactly its GET and HEAD responses and its age record; every other
   * entry and the chain stay as they were.
   */
  lemma ClearUrlEffect(st: Stores, url: string)
    ensures var r := ClearUrl(st, url);
      && r.lru == st.lru && r.stored == st.stored
      && (forall q :: q in r.cache <==> q in st.cache && !(q.url == url && (q.verb == "GET" || q.verb == "HEAD")))
      && (forall q | q in r.cache :: r.cache[q] == st.cache[q])
      && (forall u :: u in r.ages <==> u in st.ages && u != url)
      && (forall u | u in r.ages :: r.ages[u] == st.ages[u])
  {
  }

  /** `syncLru` (data.ts:284-290) once the chain is loaded: the table holds the live state. */
  function Synced(st: Stores): Stores {
    st.(stored := Some(st.lru))
  }

  /** The cached response for `req` has an age record at most `maxAge` old (data.ts:466-469). */
  predicate Young(config: Config, st: Stores, req: Request, now: int) {
    req.url in st.ages && now - st.ages[req.url] <= config.maxAge
  }

  /**
   * The eviction at the end of `loadFromCache` (data.ts:481-485): `remove`, clear the URL's
   * entries, sync.  A throw from `remove` rejects before anything is cleared.
   */
  function Expire(how: Removal, st: Stores, url: string): Effect<Option<Hit>> {
    match Unlink(how, st.lru, url)
    case Threw(s1) => Effect(Rejects(TypeError), st.(lru := s1))
    case Done(_, s1) => Effect(Resolves(None), Synced(ClearUrl(st.(lru := s1), url)))
  }

  /**
   * `loadFromCache` (data.ts:458-488): a young cached response is returned once `accessed`
   * promotes its URL.  `accessed` runs inside the `try` that guards the age read, so a TypeError
   * it raises is swallowed, and the response is then evicted like one that is too old or has no
   * age record.
   */
  function Lookup(how: Removal, config: Config, st: Stores, req: Request, now: int): Effect<Option<Hit>> {
    if req !in st.cache then Effect(Resolves(None), st)
    else if Young(config, st, req, now) then
      match AccessedState(st.lru, req.url)
      case Done(_, s1) => Effect(Resolves(Some(Hit(st.cache[req], now - st.ages[req.url]))), st.(lru := s1))
      case Threw(s1) => Expire(how, st.(lru := s1), req.url)
    else Expire(how, st, req.url)
  }

  /** The guard of `cacheResponse` (data.ts:500): as written, the flag keeps opaque responses OUT. */
  predicate Admits(res: Response, okToCacheOpaque: bool) {
    res.Ok() && !(okToCacheOpaque && res.kind == Opaque)
  }

  /**
   * Eviction in `cacheResponse` (data.ts:506-512): when `size` has reached `maxSize`, pop the
   * tail and clear its entries.
   */
  function Evict(config: Config, st: Stores): Effect<()> {
    if st.lru.count < config.maxSize then Effect(Resolves(()), st)
    else
      match PopState(st.lru)
      case Threw(s1) => Effect(Rejects(TypeError), st.(lru := s1))
      case Done(evicted, s1) =>
        Effect(Resolves(()), if evicted.Some? then ClearUrl(st.(lru := s1), evicted.value) else st.(lru := s1))
  }

  /**
   * The rest of `cacheResponse` (data.ts:518-528): promote the URL, store the response, record
   * its age as `now`, sync the chain.
   */
  function Put(st: Stores, req: Request, res: Response, now: int): Effect<()> {
    match AccessedState(st.lru, req.url)
    case Threw(s1) => Effect(Rejects(TypeError), st.(lru := s1))
    case Done(_, s1) =>
      Effect(Resolves(()), Synced(st.(lru := s1, cache := st.cache[req := res], ages := st.ages[req.url := now])))
  }

  /**
   * `cacheResponse` (data.ts:497-529): an admitted response first makes room by evicting the
   * tail when the chain is full, then is promoted, stored, stamped with `now`, and the chain is
   * synced.
   */
  function Store(config: Config, st: Stores, req: Request, res: Response, now: int, okToCacheOpaque: bool): Effect<()> {
    if !Admits(res, okToCacheOpaque) then Effect(Resolves(()), st)
    else
      var evicted := Evict(config, st);
      if evicted.result.Rejects? then evicted else Put(evicted.stores, req, res, now)
  }

  /**
   * `handleFetchWithPerformance` (data.ts:339-376): a young cached response is served (and a
   * refresh registered once it is `refreshAheadMs` old); otherwise the timed fetch decides, a
   * timeout serving a 504 and leaving the full fetch to be cached in the background.
   */
  function Performance(how: Removal, config: Config, st: Stores, req: Request, now: int, net: Network): Served {
    var lookup := Lookup(how, config, st, req, now);
    match lookup.result
    case Rejects(e) => Served(Rejects(e), lookup.stores, false)
    case Resolves(Some(hit)) =>
      Served(Resolves(Some(hit.res)), lookup.stores,
        config.refreshAheadMs.Some? && hit.age >= config.refreshAheadMs.value)
    case Resolves(None) =>
      match TimeoutFetch(config, net)
      case Rejects(e) => Served(Rejects(e), lookup.stores, false)
      case Resolves(r) =>
        var res := if r.Some? then r.value else GatewayTimeout;
        var stored := Store(config, lookup.stores, req, res, now, false);
        Served(Then(stored.result, res), stored.stores, r.None?)
  }

  /**
   * `handleFetchWithFreshness` (data.ts:378-414): a timely network response is cached and
   * served; otherwise the cache is tried (with its age check), and failing that the full fetch.
   */
  function Freshness(how: Removal, config: Config, st: Stores, req: Request, now: int, net: Network): Served {
    var first := TimeoutFetch(config, net);
    if first.Resolves? && first.value.Some? then
      var stored := Store(config, st, req, first.value.value, now, true);
      Served(Then(stored.result, first.value.value), stored.stores, false)
    else
      var lookup := Lookup(how, config, st, req, now);
      match lookup.result
      case Rejects(e) => Served(Rejects(e), lookup.stores, true)
      case Resolves(Some(hit)) => Served(Resolves(Some(hit.res)), lookup.stores, true)
      case Resolves(None) =>
        match FullFetch(config, net)
        case Rejects(e) => Served(Rejects(e), lookup.stores, true)
        case Resolves(r) =>
          var stored := Store(config, lookup.stores, req, r, now, true);
          Served(Then(stored.result, r), stored.stores, true)
  }

  /**
   * `handleFetch` (data.ts:296-337): requests outside the group and OPTIONS requests are not
   * handled; GET and HEAD go to the configured strategy; any other method removes the URL from
   * the chain, clears its entries when `remove` found one, syncs, and goes to the network.
   */
  function Dispatch(how: Removal, config: Config, test: (string, string) -> bool, st: Stores, req: Request, now: int, net: Network): Served {
    if !Matches(config.patterns, test, req.url) || req.verb == "OPTIONS" then Served(Resolves(None), st, false)
    else if req.verb == "GET" || req.verb == "HEAD" then
      if config.strategy == "freshness" then Freshness(how, config, st, req, now, net)
      else if config.strategy == "performance" then Performance(how, config, st, req, now, net)
      else Served(Rejects(UnknownStrategy(config.strategy)), st, false)
    else
      match Unlink(how, st.lru, req.url)
      case Threw(s1) => Served(Rejects(TypeError), st.(lru := s1), false)
      case Done(wasCached, s1) =>
        var st1 := st.(lru := s1);
        Served(Answer(Fetch(net)), Synced(if wasCached then ClearUrl(st1, req.url) else st1), false)
  }

  // ---------------------------------------------------------------------------------------------
  // With the corrected removal the stores stay in step
  // ---------------------------------------------------------------------------------------------

  /**
   * The stores agree: the LRU state encodes the chain a walk from its head reads and has no entry
   * outside it, every cached response is a GET or HEAD of a URL in that chain, and every age
   * record is of a URL in it.
   */
  ghost predicate InStep(st: Stores) {
    && Tidy(st.lru, Chain(st.lru))
    && (forall q | q in st.cache :: (q.verb == "GET" || q.verb == "HEAD") && q.url in Chain(st.lru))
    && (forall u | u in st.ages :: u in Chain(st.lru))
  }

  /** The stores `a` and `b` hold the same responses and the same age for `u`. */
  ghost predicate SameEntries(a: Stores, b: Stores, u: string) {
    && (forall q: Request | q.url == u :: (q in a.cache <==> q in b.cache) && (q in a.cache ==> a.cache[q] == b.cache[q]))
    && (u in a.ages <==> u in b.ages)
    && (u in a.ages ==> a.ages[u] == b.ages[u])
  }

  /** `loadFromCache` with the corrected removal never throws, keeps the stores in step and never lengthens the chain. */
  lemma LookupInStep(config: Config, st: Stores, req: Request, now: int)
    requires InStep(st)
    ensures var l := Lookup(Corrected, config, st, req, now);
      && l.result.Resolves? && InStep(l.stores)
      && |Chain(l.stores.lru)| <= |Chain(st.lru)|
  {
    var c := Chain(st.lru);
    if req in st.cache {
      assert req.url in c;
      if Young(config, st, req, now) {
        AccessedTidy(st.lru, c, req.url);
        PromoteFacts(c, req.url);
        WalkForward(AccessedState(st.lru, req.url).state, Promote(c, req.url));
      } else {
        UntrackTidy(st.lru, c, req.url);
        var s1 := UntrackState(st.lru, req.url).state;
        WalkForward(s1, Without(c, req.url));
        ClearUrlEffect(st.(lru := s1), req.url);
      }
    }
  }

  /** The chain once `cacheResponse` has made room: without its last URL when `maxSize` is reached. */
  function Trimmed(config: Config, c: seq<string>): seq<string> {
    if |c| >= config.maxSize && c != [] then c[..|c| - 1] else c
  }

  /** Eviction never throws on stores in step, keeps them in step and drops the last URL when full. */
  lemma EvictInStep(config: Config, st: Stores)
    requires InStep(st)
    ensures var e := Evict(config, st);
      && e.result.Resolves? && InStep(e.stores)
      && Chain(e.stores.lru) == Trimmed(config, Chain(st.lru))
  {
    var c := Chain(st.lru);
    if st.lru.count >= config.maxSize {
      PopTidy(st.lru, c);
      if c != [] {
        DropLast(c);
        var s1 := PopState(st.lru).state;
        WalkForward(s1, c[..|c| - 1]);
        ClearUrlEffect(st.(lru := s1), c[|c| - 1]);
      }
    }
  }

  /** Storing never throws on stores in step, promotes the URL and, for a GET or HEAD, keeps them in step. */
  lemma PutInStep(st: Stores, req: Request, res: Response, now: int)
    requires InStep(st)
    ensures var p := Put(st, req, res, now);
      && p.result.Resolves?
      && Tidy(p.stores.lru, Promote(Chain(st.lru), req.url))
      && Chain(p.stores.lru) == Promote(Chain(st.lru), req.url)
      && ((req.verb == "GET" || req.verb == "HEAD") ==> InStep(p.stores))
  {
    var c := Chain(st.lru);
    AccessedTidy(st.lru, c, req.url);
    PromoteFacts(c, req.url);
    WalkForward(AccessedState(st.lru, req.url).state, Promote(c, req.url));
  }

  /**
   * `cacheResponse` never throws on stores in step; it keeps them in step for a GET or HEAD, and
   * an admitted response heads the trimmed chain.
   */
  lemma StoreInStep(config: Config, st: Stores, req: Request, res: Response, now: int, okToCacheOpaque: bool)
    requires InStep(st)
    ensures var r := Store(config, st, req, res, now, okToCacheOpaque);
      && r.result.Resolves?
      && ((req.verb == "GET" || req.verb == "HEAD") ==> InStep(r.stores))
      && Chain(r.stores.lru) ==
           if Admits(res, okToCacheOpaque) then Promote(Trimmed(config, Chain(st.lru)), req.url) else Chain(st.lru)
  {
    if Admits(res, okToCacheOpaque) {
      EvictInStep(config, st);
      PutInStep(Evict(config, st).stores, req, res, now);
    }
  }

  /** With room for at least one URL, `cacheResponse` on stores in step never grows the chain past `maxSize`. */
  lemma StoreBounded(config: Config, st: Stores, req: Request, res: Response, now: int, okToCacheOpaque: bool)
    requires InStep(st) && 1 <= config.maxSize && |Chain(st.lru)| <= config.maxSize
    ensures |Chain(Store(config, st, req, res, now, okToCacheOpaque).stores.lru)| <= config.maxSize
  {
    StoreInStep(config, st, req, res, now, okToCacheOpaque);
    var c := Chain(st.lru);
    if c != [] && |c| >= config.maxSize {
      DropLast(c);
    }
    PromoteFacts(Trimmed(config, c), req.url);
  }

  /** `handleFetchWithPerformance` with the corrected removal keeps stores in step, within `maxSize`, and never throws. */
  lemma PerformanceInStep(config: Config, st: Stores, req: Request, now: int, net: Network)
    requires InStep(st) && 1 <= config.maxSize && |Chain(st.lru)| <= config.maxSize
    requires req.verb == "GET" || req.verb == "HEAD"
    ensures var s := Performance(Corrected, config, st, req, now, net);
      && InStep(s.stores)
      && |Chain(s.stores.lru)| <= config.maxSize
      && s.reply != Rejects(TypeError)
  {
    var lookup := Lookup(Corrected, config, st, req, now);
    LookupInStep(config, st, req, now);
    var first := TimeoutFetch(config, net);
    if lookup.result == Resolves(None) && first.Resolves? {
      var r := if first.value.Some? then first.value.value else GatewayTimeout;
      StoreInStep(config, lookup.stores, req, r, now, false);
      StoreBounded(config, lookup.stores, req, r, now, false);
    }
  }

  /** `handleFetchWithFreshness` with the corrected removal keeps stores in step, within `maxSize`, and never throws. */
  lemma FreshnessInStep(config: Config, st: Stores, req: Request, now: int, net: Network)
    requires InStep(st) && 1 <= config.maxSize && |Chain(st.lru)| <= config.maxSize
    requires req.verb == "GET" || req.verb == "HEAD"
    ensures var s := Freshness(Corrected, config, st, req, now, net);
      && InStep(s.stores)
      && |Chain(s.stores.lru)| <= config.maxSize
      && s.reply != Rejects(TypeError)
  {
    var first := TimeoutFetch(config, net);
    if first.Resolves? && first.value.Some? {
      StoreInStep(config, st, req, first.value.value, now, true);
      StoreBounded(config, st, req, first.value.value, now, true);
    } else {
      var lookup := Lookup(Corrected, config, st, req, now);
      LookupInStep(config, st, req, now);
      if lookup.result == Resolves(None) && FullFetch(config, net).Resolves? {
        StoreInStep(config, lookup.stores, req, FullFetch(config, net).value, now, true);
        StoreBounded(config, lookup.stores, req, FullFetch(config, net).value, now, true);
      }
    }
  }

  /**
   * With the corrected removal, handling any request on stores in step keeps them in step, keeps
   * the chain within `maxSize` when there is room for one URL, and never rejects with a TypeError.
   */
  lemma DispatchInStep(config: Config, test: (string, string) -> bool, st: Stores, req: Request, now: int, net: Network)
    requires InStep(st) && 1 <= config.maxSize && |Chain(st.lru)| <= config.maxSize
    ensures var s := Dispatch(Corrected, config, test, st, req, now, net);
      && InStep(s.stores)
      && |Chain(s.stores.lru)| <= config.maxSize
      && s.reply != Rejects(TypeError)
  {
    if Matches(config.patterns, test, req.url) && req.verb != "OPTIONS" {
      if req.verb == "GET" || req.verb == "HEAD" {
        if config.strategy == "freshness" {
          FreshnessInStep(config, st, req, now, net);
        } else if config.strategy == "performance" {
          PerformanceInStep(config, st, req, now, net);
        }
      } else {
        var c := Chain(st.lru);
        UntrackTidy(st.lru, c, req.url);
        var s1 := UntrackState(st.lru, req.url).state;
        WalkForward(s1, Without(c, req.url));
        ClearUrlEffect(st.(lru := s1), req.url);
      }
    }
  }

  // ---------------------------------------------------------------------------------------------
  // What each operation promises
  // ---------------------------------------------------------------------------------------------

  /**
   * `loadFromCache` serves exactly the young cached responses whose URL `accessed` can promote,
   * and then changes nothing but the LRU state; any other cached response is evicted from the
   * cache and the age table and the chain is synced, unless `remove` throws, which rejects with a
   * TypeError.  On a linked state, for a URL that is linked or has no entry, nothing throws and
   * the hit is decided by age alone.
   */
  lemma LookupOutcome(how: Removal, config: Config, st: Stores, req: Request, now: int, c: seq<string>)
    ensures var l := Lookup(how, config, st, req, now);
      && (req !in st.cache ==> l == Effect(Resolves(None), st))
      && (l.result.Rejects? ==> l.result.reason == TypeError)
      && (l.result.Resolves? && l.result.value.Some? <==>
            req in st.cache && Young(config, st, req, now) && AccessedState(st.lru, req.url).Done?)
      && (l.result.Resolves? && l.result.value.Some? ==>
            && l.result.value.value == Hit(st.cache[req], now - st.ages[req.url])
            && l.stores == st.(lru := AccessedState(st.lru, req.url).state))
      && (req in st.cache && l.result == Resolves(None) ==>
            && Request("GET", req.url) !in l.stores.cache
            && Request("HEAD", req.url) !in l.stores.cache
            && req.url !in l.stores.ages
            && l.stores.stored == Some(l.stores.lru)
            && (how == Corrected ==> req.url !in l.stores.lru.nodes))
      && (Linked(st.lru, c) && (req.url in c || req.url !in st.lru.nodes) ==>
            && l.result.Resolves? && (l.result.value.Some? <==> req in st.cache && Young(config, st, req, now))
            && (req in st.cache && !Young(config, st, req, now) ==> Linked(l.stores.lru, Without(c, req.url))))
      && (forall u | u != req.url :: SameEntries(l.stores, st, u))
  {
    if Linked(st.lru, c) && (req.url in c || req.url !in st.lru.nodes) {
      AccessedLinked(st.lru, c, req.url);
      RemoveLinked(st.lru, c, req.url);
      UntrackLinked(st.lru, c, req.url);
    }
  }

  /**
   * `cacheResponse`: a response that is not admitted changes nothing.  An admitted one, once
   * stored, heads the chain, is cached for the request with its age `now`, and the table holds
   * the new state.  A rejection is a TypeError from `pop` or `accessed`, and nothing is synced
   * then.
   */
  lemma StoreOutcome(config: Config, st: Stores, req: Request, res: Response, now: int, okToCacheOpaque: bool)
    ensures var r := Store(config, st, req, res, now, okToCacheOpaque);
      && (!Admits(res, okToCacheOpaque) ==> r == Effect(Resolves(()), st))
      && (r.result.Rejects? ==> r.result.reason == TypeError && r.stores.stored == st.stored)
      && (Admits(res, okToCacheOpaque) && r.result.Resolves? ==>
            && r.stores.lru.head == Some(req.url)
            && req in r.stores.cache && r.stores.cache[req] == res
            && req.url in r.stores.ages && r.stores.ages[req.url] == now
            && r.stores.stored == Some(r.stores.lru))
  {
    if Admits(res, okToCacheOpaque) {
      var e := Evict(config, st);
      assert e.stores.stored == st.stored;
    }
  }

  /**
   * On a linked state, for a URL that is linked or has no entry, `cacheResponse` never throws:
   * `pop` finds the tail's predecessor and `accessed` finds the URL's neighbours.  An admitted
   * response leaves the chain trimmed and then headed by the URL; otherwise the chain is kept.
   */
  lemma StoreLinkedResolves(config: Config, st: Stores, req: Request, res: Response, now: int, okToCacheOpaque: bool, c: seq<string>)
    requires Linked(st.lru, c) && (req.url in c || req.url !in st.lru.nodes)
    ensures var r := Store(config, st, req, res, now, okToCacheOpaque);
      && r.result.Resolves?
      && Linked(r.stores.lru, if Admits(res, okToCacheOpaque) then Promote(Trimmed(config, c), req.url) else c)
  {
    if Admits(res, okToCacheOpaque) {
      PopLinked(st.lru, c);
      if st.lru.count >= config.maxSize && c != [] {
        var c1 := c[..|c| - 1];
        if req.url in c && req.url != c[|c| - 1] {
          var k :| 0 <= k < |c| && c[k] == req.url;
          assert c1[k] == req.url;
        }
        AccessedLinked(PopState(st.lru).state, c1, req.url);
      } else {
        AccessedLinked(st.lru, c, req.url);
      }
    }
  }

  /**
   * When the chain is full, `cacheResponse` evicts the least recently used URL (unless it is the
   * URL being cached) from the chain, the LRU map, the age table and its GET and HEAD cache
   * entries, and links the URL in front of the rest.  This holds on every linked state, including
   * those holding entries the source's `remove` left behind; only responses to other methods
   * can remain cached for the evicted URL.
   */
  lemma StoreEvictsTail(config: Config, st: Stores, req: Request, res: Response, now: int, okToCacheOpaque: bool, c: seq<string>)
    requires Linked(st.lru, c) && (req.url in c || req.url !in st.lru.nodes)
    requires Admits(res, okToCacheOpaque) && |c| >= config.maxSize && c != [] && req.url != c[|c| - 1]
    ensures var r := Store(config, st, req, res, now, okToCacheOpaque);
      var t := c[|c| - 1];
      && r.result.Resolves?
      && Linked(r.stores.lru, Promote(c[..|c| - 1], req.url))
      && t !in Chain(r.stores.lru)
      && t !in r.stores.lru.nodes
      && t !in r.stores.ages
      && Request("GET", t) !in r.stores.cache && Request("HEAD", t) !in r.stores.cache
      && (forall q | q in r.stores.cache && q.url == t :: q in st.cache && q.verb != "GET" && q.verb != "HEAD")
  {
    var t := c[|c| - 1];
    var c1 := c[..|c| - 1];
    StoreLinkedResolves(config, st, req, res, now, okToCacheOpaque, c);
    assert Trimmed(config, c) == c1;
    PopLinked(st.lru, c);
    DropLast(c);
    PromoteFacts(c1, req.url);
    var s1 := PopState(st.lru).state;
    assert Evict(config, st).stores == ClearUrl(st.(lru := s1), t);
    ClearUrlEffect(st.(lru := s1), t);
    if req.url in c {
      var k :| 0 <= k < |c| && c[k] == req.url;
      assert c1[k] == req.url;
    }
    AccessedLinked(s1, c1, req.url);
    WalkForward(Store(config, st, req, res, now, okToCacheOpaque).stores.lru, Promote(c1, req.url));
  }

  /** Eviction from a full chain in step drops its tail from every store. */
  lemma EvictDropsTail(config: Config, st: Stores)
    requires InStep(st) && st.lru.count >= config.maxSize && st.lru.tail.Some?
    ensures var e := Evict(config, st).stores;
      && InStep(e)
      && st.lru.tail.value !in Chain(e.lru)
      && st.lru.tail.value !in e.ages
      && (forall q | q in e.cache :: q.url != st.lru.tail.value)
  {
    var c := Chain(st.lru);
    var t := st.lru.tail.value;
    assert c != [] && t == c[|c| - 1];
    DropLast(c);
    EvictInStep(config, st);
    assert Evict(config, st).stores == ClearUrl(st.(lru := PopState(st.lru).state), t);
    ClearUrlEffect(st.(lru := PopState(st.lru).state), t);
  }

  /** `cacheResponse` leaves the entries of every URL other than the cached and the evicted one as they were. */
  lemma StoreKeepsOthers(config: Config, st: Stores, req: Request, res: Response, now: int, okToCacheOpaque: bool, u: string)
    requires u != req.url && !(st.lru.count >= config.maxSize && st.lru.tail == Some(u))
    ensures SameEntries(Store(config, st, req, res, now, okToCacheOpaque).stores, st, u)
  {
    if Admits(res, okToCacheOpaque) {
      var e := Evict(config, st);
      assert SameEntries(e.stores, st, u);
    }
  }

  /**
   * Eviction does not ask whether the URL being cached is already in the chain: re-caching a
   * linked URL into a full chain evicts the tail all the same and the chain shrinks by one.
   */
  lemma StoreOverEvicts(config: Config, st: Stores, req: Request, res: Response, now: int, okToCacheOpaque: bool, c: seq<string>)
    requires Linked(st.lru, c) && Admits(res, okToCacheOpaque) && |c| >= config.maxSize
    requires req.url in c && req.url != c[|c| - 1]
    ensures var r := Store(config, st, req, res, now, okToCacheOpaque);
      && r.result.Resolves?
      && |Chain(r.stores.lru)| == |c| - 1
      && c[|c| - 1] !in Chain(r.stores.lru)
  {
    var c1 := c[..|c| - 1];
    PopLinked(st.lru, c);
    DropLast(c);
    var k :| 0 <= k < |c| && c[k] == req.url;
    assert c1[k] == req.url;
    AccessedLinked(PopState(st.lru).state, c1, req.url);
    PromoteFacts(c1, req.url);
    WalkForward(Store(config, st, req, res, now, okToCacheOpaque).stores.lru, Promote(c1, req.url));
  }

  /**
   * The opaque flag works backwards: with `okToCacheOpaque` set an ok opaque response is NOT
   * stored, with it clear (the default) it is admitted and, unless a step throws, cached.
   */
  lemma OpaqueFlagBackwards(config: Config, st: Stores, req: Request, res: Response, now: int)
    requires res.Ok() && res.kind == Opaque
    ensures Store(config, st, req, res, now, true) == Effect(Resolves(()), st)
    ensures Admits(res, false)
    ensures var r := Store(config, st, req, res, now, false);
      r.result.Resolves? ==> req in r.stores.cache && r.stores.cache[req] == res
  {
  }

  /**
   * Under `performance`, a young cached response whose URL `accessed` promotes is served without
   * the network, the cache and the age table untouched; a refresh is registered exactly when the
   * response is at least `refreshAheadMs` old.
   */
  lemma PerformanceServesCache(how: Removal, config: Config, st: Stores, req: Request, now: int, net: Network)
    requires req in st.cache && Young(config, st, req, now)
    ensures var s := Performance(how, config, st, req, now, net);
      AccessedState(st.lru, req.url).Done? ==>
        && s.reply == Resolves(Some(st.cache[req]))
        && s.stores == st.(lru := AccessedState(st.lru, req.url).state)
        && (s.deferred <==> config.refreshAheadMs.Some? && now - st.ages[req.url] >= config.refreshAheadMs.value)
  {
  }

  /**
   * Under `performance` with a timeout, a miss whose network answer is late or fails is served a
   * 504, which is not cached; the full fetch is left to the background.
   */
  lemma PerformanceTimesOut(how: Removal, config: Config, st: Stores, req: Request, now: int, net: Network)
    requires Lookup(how, config, st, req, now).result == Resolves(None) && config.timeoutMs.Some? && !net.Arrives?
    ensures Performance(how, config, st, req, now, net) ==
      Served(Resolves(Some(GatewayTimeout)), Lookup(how, config, st, req, now).stores, true)
  {
  }

  /**
   * Under `freshness`, a timely network response is served even when the cache has a young one,
   * and is cached when admitted; only a TypeError from caching it can take its place, and on a
   * linked state, for a URL that is linked or has no entry, none is raised.
   */
  lemma FreshnessPrefersNetwork(how: Removal, config: Config, st: Stores, req: Request, now: int, net: Network, c: seq<string>)
    requires !net.Fails? && TimeoutFetch(config, net) == Resolves(Some(net.res))
    ensures var s := Freshness(how, config, st, req, now, net);
      && !s.deferred
      && (s.reply == Resolves(Some(net.res)) || s.reply == Rejects(TypeError))
      && (Admits(net.res, true) && s.reply.Resolves? ==> req in s.stores.cache && s.stores.cache[req] == net.res)
      && (Linked(st.lru, c) && (req.url in c || req.url !in st.lru.nodes) ==> s.reply == Resolves(Some(net.res)))
  {
    StoreOutcome(config, st, req, net.res, now, true);
    if Linked(st.lru, c) && (req.url in c || req.url !in st.lru.nodes) {
      StoreLinkedResolves(config, st, req, net.res, now, true, c);
    }
  }

  /**
   * The freshness fallback still checks the age: when the network is late or fails, a young
   * cached response that `accessed` promotes is served; a response that is not young is not, and
   * the full fetch answers instead, unless a TypeError rejects.  With the corrected removal, on a
   * linked state and for a URL that is linked or has no entry, the full fetch always answers.
   */
  lemma FreshnessFallbackChecksAge(how: Removal, config: Config, st: Stores, req: Request, now: int, net: Network, c: seq<string>)
    requires TimeoutFetch(config, net).Rejects? || TimeoutFetch(config, net).value.None?
    requires req in st.cache
    ensures var s := Freshness(how, config, st, req, now, net);
      && (Young(config, st, req, now) && AccessedState(st.lru, req.url).Done? ==>
            s.reply == Resolves(Some(st.cache[req])))
      && (!Young(config, st, req, now) ==>
            s.reply == Answer(FullFetch(config, net)) || s.reply == Rejects(TypeError))
      && (!Young(config, st, req, now) && how == Corrected && Linked(st.lru, c) && (req.url in c || req.url !in st.lru.nodes) ==>
            s.reply == Answer(FullFetch(config, net)))
  {
    if !Young(config, st, req, now) && how == Corrected && Linked(st.lru, c) && (req.url in c || req.url !in st.lru.nodes) {
      UntrackLinked(st.lru, c, req.url);
      var lookup := Lookup(how, config, st, req, now);
      if FullFetch(config, net).Resolves? {
        StoreLinkedResolves(config, lookup.stores, req, FullFetch(config, net).value, now, true, Without(c, req.url));
      }
    }
  }

  /** Requests outside the group, and OPTIONS requests, are passed over with nothing changed. */
  lemma DispatchPasses(how: Removal, config: Config, test: (string, string) -> bool, st: Stores, req: Request, now: int, net: Network)
    requires !Matches(config.patterns, test, req.url) || req.verb == "OPTIONS"
    ensures Dispatch(how, config, test, st, req, now, net) == Served(Resolves(None), st, false)
  {
  }

  /** A GET or HEAD under a strategy other than `freshness` and `performance` rejects and changes nothing. */
  lemma DispatchUnknownStrategy(how: Removal, config: Config, test: (string, string) -> bool, st: Stores, req: Request, now: int, net: Network)
    requires Matches(config.patterns, test, req.url) && (req.verb == "GET" || req.verb == "HEAD")
    requires config.strategy != "freshness" && config.strategy != "performance"
    ensures Dispatch(how, config, test, st, req, now, net) == Served(Rejects(UnknownStrategy(config.strategy)), st, false)
  {
  }

  /**
   * A mutating request (any method but GET, HEAD and OPTIONS) first removes its URL from the
   * chain.  If that throws, the request rejects with a TypeError before any fetch, with nothing
   * cleared or synced.  Otherwise `remove` answers whether the map had an entry for the URL; if
   * so the URL's responses and age are cleared; the state is synced, every other URL's entries
   * stay, and the network answers.  On a linked state, for a URL that is linked or has no entry,
   * nothing throws and the URL leaves the chain.
   */
  lemma MutationInvalidates(how: Removal, config: Config, test: (string, string) -> bool, st: Stores, req: Request, now: int, net: Network, u: string, c: seq<string>)
    requires Matches(config.patterns, test, req.url)
    requires req.verb != "GET" && req.verb != "HEAD" && req.verb != "OPTIONS"
    ensures var s := Dispatch(how, config, test, st, req, now, net);
      var un := Unlink(how, st.lru, req.url);
      && (un.Threw? ==> s == Served(Rejects(TypeError), st.(lru := un.state), false))
      && (un.Done? ==>
            && s.reply == Answer(Fetch(net))
            && un.value == (req.url in st.lru.nodes)
            && s.stores.lru == un.state && s.stores.stored == Some(un.state)
            && (un.value ==> Request("GET", req.url) !in s.stores.cache && Request("HEAD", req.url) !in s.stores.cache && req.url !in s.stores.ages)
            && (!un.value ==> s.stores.cache == st.cache && s.stores.ages == st.ages)
            && (u != req.url ==> SameEntries(s.stores, st, u)))
      && (Linked(st.lru, c) && (req.url in c || req.url !in st.lru.nodes) ==>
            un.Done? && Linked(un.state, Without(c, req.url)))
  {
    if Linked(st.lru, c) && (req.url in c || req.url !in st.lru.nodes) {
      RemoveLinked(st.lru, c, req.url);
      UntrackLinked(st.lru, c, req.url);
    }
  }

  // ---------------------------------------------------------------------------------------------
  // What the entries `remove` leaves behind do to the group
  // ---------------------------------------------------------------------------------------------

  /** An ok response. */
  const Ok200 := Response(200, "OK", Basic, "")

  /** A pattern test every URL passes. */
  const AnyUrl: (string, string) -> bool := (pattern, url) => true

  /** The chain `["/a", "/b"]`, both URLs' GET responses stored at time 0, the state synced. */
  function TwoCached(): Stores {
    Stores(map[Request("GET", "/a") := Ok200, Request("GET", "/b") := Ok200], map["/a" := 0, "/b" := 0],
      TwoChain(), Some(TwoChain()))
  }

  /**
   * Refetching an expired head rejects: `loadFromCache` evicts `/a` with `remove`, which leaves
   * its entry with a null `previous`, and `cacheResponse` then calls `accessed("/a")`, which
   * throws.  Under either strategy the request rejects although the network answered; with the
   * corrected removal the response is served.
   */
  lemma ExpiredHeadRefetchRejects()
    ensures var performance := Config(["/"], "performance", 2, 1000, None, None);
      && Dispatch(AsWritten, performance, AnyUrl, TwoCached(), Request("GET", "/a"), 5000, Arrives(Ok200)).reply == Rejects(TypeError)
      && Dispatch(Corrected, performance, AnyUrl, TwoCached(), Request("GET", "/a"), 5000, Arrives(Ok200)).reply == Resolves(Some(Ok200))
    ensures var freshness := Config(["/"], "freshness", 2, 1000, Some(50), None);
      && Dispatch(AsWritten, freshness, AnyUrl, TwoCached(), Request("GET", "/a"), 5000, ArrivesLate(Ok200)).reply == Rejects(TypeError)
      && Dispatch(Corrected, freshness, AnyUrl, TwoCached(), Request("GET", "/a"), 5000, ArrivesLate(Ok200)).reply == Resolves(Some(Ok200))
  {
    var get := Request("GET", "/a");
    assert AnyUrl("/", "/a");
    var c := ["/a", "/b"];
    assert Without(c, "/a") == ["/b"];
    RemoveLinked(TwoChain(), c, "/a");
    StaleHeadAccessThrows();
    UntrackLinked(TwoChain(), c, "/a");
    UntrackedHeadAccessed();
    forall how: Removal, config: Config | config.maxSize == 2 && config.maxAge == 1000
      ensures Lookup(how, config, TwoCached(), get, 5000).result == Resolves(None)
      ensures Lookup(how, config, TwoCached(), get, 5000).stores.lru == Unlink(how, TwoChain(), "/a").state
      ensures Evict(config, Lookup(how, config, TwoCached(), get, 5000).stores).stores == Lookup(how, config, TwoCached(), get, 5000).stores
    {
      assert !Young(config, TwoCached(), get, 5000);
    }
    var performance := Config(["/"], "performance", 2, 1000, None, None);
    var st1 := Lookup(AsWritten, performance, TwoCached(), get, 5000).stores;
    assert Put(st1, get, Ok200, 5000).result == Rejects(TypeError);
    assert Store(performance, st1, get, Ok200, 5000, false).result == Rejects(TypeError);
    assert Performance(AsWritten, performance, TwoCached(), get, 5000, Arrives(Ok200)).reply == Rejects(TypeError);
    assert performance.strategy != "freshness";
    assert AnyUrl(performance.patterns[0], "/a");
  }

  /**
   * A second mutating request to a URL that was the head rejects before any fetch: the first
   * `remove("/a")` leaves `/a`'s entry with a null `previous`, and the second reads through it.
   * With the corrected removal the second request goes to the network like the first.
   */
  lemma SecondMutationRejects()
    ensures var config := Config(["/"], "performance", 2, 1000, None, None);
      var post := Request("POST", "/a");
      var first := Dispatch(AsWritten, config, AnyUrl, TwoCached(), post, 0, Arrives(Ok200));
      var fixed := Dispatch(Corrected, config, AnyUrl, TwoCached(), post, 0, Arrives(Ok200));
      && first.reply == Resolves(Some(Ok200))
      && Dispatch(AsWritten, config, AnyUrl, first.stores, post, 0, Arrives(Ok200)).reply == Rejects(TypeError)
      && Dispatch(Corrected, config, AnyUrl, fixed.stores, post, 0, Arrives(Ok200)).reply == Resolves(Some(Ok200))
  {
    var config := Config(["/"], "performance", 2, 1000, None, None);
    assert AnyUrl(config.patterns[0], "/a");
    var c := ["/a", "/b"];
    RemoveLinked(TwoChain(), c, "/a");
    var s1 := RemoveState(TwoChain(), "/a").state;
    assert s1.head == Some("/b");
    assert s1.nodes["/a"] == LruNode("/a", None, Some("/b"));
    UntrackLinked(TwoChain(), c, "/a");
  }

  /**
   * The chain outgrows `maxSize`: with `maxSize` 3 and the chain `["/x", "/a", "/y"]`, a POST to
   * `/a` leaves its entry between `/x` and `/y`; a GET of `/a` "removes" it again, counting down
   * to 1, and links it in front (count 2, three URLs linked); a GET of `/b` finds room and links a
   * fourth URL.  `count` says 3 while the chain holds four URLs, and none was evicted.
   */
  lemma StaleMiddleOverrun()
    ensures var config := Config(["/"], "performance", 3, 1000, None, None);
      var st1 := Dispatch(AsWritten, config, AnyUrl, Stores(map[], map[], ThreeChain(), None), Request("POST", "/a"), 0, Arrives(Ok200)).stores;
      var st2 := Dispatch(AsWritten, config, AnyUrl, st1, Request("GET", "/a"), 0, Arrives(Ok200)).stores;
      var st3 := Dispatch(AsWritten, config, AnyUrl, st2, Request("GET", "/b"), 0, Arrives(Ok200)).stores;
      && st3.lru.count == config.maxSize
      && Walk(st3.lru.nodes, st3.lru.head, 5) == ["/b", "/a", "/x", "/y"]
  {
    var config := Config(["/"], "performance", 3, 1000, None, None);
    assert AnyUrl(config.patterns[0], "/a");
    assert AnyUrl(config.patterns[0], "/b");
    var s1 := LruState(Some("/x"), Some("/y"),
      map["/x" := LruNode("/x", None, Some("/y")),
          "/a" := LruNode("/a", Some("/x"), Some("/y")),
          "/y" := LruNode("/y", Some("/x"), None)], 2);
    assert RemoveState(ThreeChain(), "/a") == Done(true, s1);
    var st1 := Dispatch(AsWritten, config, AnyUrl, Stores(map[], map[], ThreeChain(), None), Request("POST", "/a"), 0, Arrives(Ok200)).stores;
    assert st1 == Stores(map[], map[], s1, Some(s1));
    var s2 := LruState(Some("/a"), Some("/y"),
      map["/x" := LruNode("/x", Some("/a"), Some("/y")),
          "/a" := LruNode("/a", Some("/x"), Some("/x")),
          "/y" := LruNode("/y", Some("/x"), None)], 2);
    assert AccessedState(s1, "/a") == Done((), s2);
    var st2 := Dispatch(AsWritten, config, AnyUrl, st1, Request("GET", "/a"), 0, Arrives(Ok200)).stores;
    assert st2.lru == s2;
    var s3 := AccessedState(s2, "/b").state;
    assert s3 == LruState(Some("/b"), Some("/y"),
      map["/x" := LruNode("/x", Some("/a"), Some("/y")),
          "/a" := LruNode("/a", Some("/b"), Some("/x")),
          "/y" := LruNode("/y", Some("/x"), None),
          "/b" := LruNode("/b", None, Some("/a"))], 3);
    var st3 := Dispatch(AsWritten, config, AnyUrl, st2, Request("GET", "/b"), 0, Arrives(Ok200)).stores;
    assert st3.lru == s3;
  }

  // ---------------------------------------------------------------------------------------------
  // The group object (data.ts:230-569)
  // ---------------------------------------------------------------------------------------------

  /** A data group: its configuration, its stores and its lazily loaded chain. */
  class DataGroup {
    const config: Config
    /** The response cache. */
    var cache: map<Request, Response>
    /** The age table: URL to the time its response was stored. */
    var ages: map<string, int>
    /** The `lru` record of the LRU table, if one was ever written. */
    var persisted: Option<LruState>
    /** `_lru`: the chain, once loaded. */
    var lru: LruList?

    /** The stores, with the LRU state the group would load if it has not yet. */
    ghost function View(): Stores
      reads this, lru
    {
      Stores(cache, ages, if lru != null then lru.state else FromTable(persisted), persisted)
    }

    /** A group over existing stores; the chain is not loaded yet (data.ts:257-264). */
    constructor (config: Config, cache: map<Request, Response>, ages: map<string, int>, persisted: Option<LruState>)
      ensures this.config == config && lru == null
      ensures View() == Stores(cache, ages, FromTable(persisted), persisted)
    {
      this.config := config;
      this.cache := cache;
      this.ages := ages;
      this.persisted := persisted;
      this.lru := null;
    }

    /** `lru()` (data.ts:267-279): load the chain on first use, from the table or empty. */
    method Lru() returns (l: LruList)
      modifies this
      ensures lru == l && View() == old(View())
      ensures old(lru) != null ==> l == old(lru)
      ensures old(lru) == null ==> fresh(l)
    {
      if lru == null {
        lru := new LruList(persisted);
      }
      l := lru;
    }

    /** `syncLru` (data.ts:284-290): write the loaded state to the table; nothing when not loaded. */
    method SyncLru()
      modifies this
      ensures lru == old(lru)
      ensures lru != null ==> View() == Synced(old(View()))
      ensures lru == null ==> View() == old(View())
    {
      if lru == null {
        return;
      }
      persisted := Some(lru.state);
    }

    /** `clearCacheForUrl` (data.ts:550-557). */
    method ClearCacheForUrl(url: string)
      modifies this
      ensures lru == old(lru) && persisted == old(persisted)
      ensures View() == ClearUrl(old(View()), url)
    {
      cache := cache - {Request("GET", url), Request("HEAD", url)};
      ages := ages - {url};
    }

    /** `loadFromCache` (data.ts:458-488), reading the clock as `now`. */
    method LoadFromCache(req: Request, now: int, l: LruList) returns (r: Settled<Option<Hit>>)
      requires l == lru
      modifies this, l
      ensures lru == old(lru)
      ensures Effect(r, View()) == Lookup(AsWritten, config, old(View()), req, now)
    {
      if req !in cache {
        return Resolves(None);
      }
      var res := cache[req];
      if req.url in ages && now - ages[req.url] <= config.maxAge {
        var age := now - ages[req.url];
        var threw := l.Accessed(req.url);
        if !threw {
          return Resolves(Some(Hit(res, age)));
        }
        // the TypeError is caught with the age read's errors: the response counts as expired
      }
      ghost var v1 := View();
      var _, threw := l.Remove(req.url);
      if threw {
        return Rejects(TypeError);
      }
      ClearCacheForUrl(req.url);
      SyncLru();
      r := Resolves(None);
      assert View() == Synced(ClearUrl(v1.(lru := RemoveState(v1.lru, req.url).state), req.url));
    }

    /** `cacheResponse` (data.ts:497-529), reading the clock as `now`. */
    method CacheResponse(req: Request, res: Response, l: LruList, now: int, okToCacheOpaque: bool) returns (r: Settled<()>)
      requires l == lru
      modifies this, l
      ensures lru == old(lru)
      ensures Effect(r, View()) == Store(config, old(View()), req, res, now, okToCacheOpaque)
    {
      if !res.Ok() || (okToCacheOpaque && res.kind == Opaque) {
        return Resolves(());
      }
      ghost var v0 := View();
      if l.Size() >= config.maxSize {
        var evictedUrl, threw := l.Pop();
        if threw {
          return Rejects(TypeError);
        }
        if evictedUrl.Some? {
          ClearCacheForUrl(evictedUrl.value);
        }
      }
      assert Evict(config, v0) == Effect(Resolves(()), View());
      ghost var v1 := View();
      var threw := l.Accessed(req.url);
      if threw {
        return Rejects(TypeError);
      }
      cache := cache[req := res];
      ages := ages[req.url := now];
      SyncLru();
      r := Resolves(());
      assert Put(v1, req, res, now) == Effect(r, View());
    }

    /** `handleFetchWithPerformance` (data.ts:339-376). */
    method HandleFetchWithPerformance(req: Request, now: int, net: Network, l: LruList)
      returns (reply: Settled<Option<Response>>, deferred: bool)
      requires l == lru
      modifies this, l
      ensures lru == old(lru)
      ensures Served(reply, View(), deferred) == Performance(AsWritten, config, old(View()), req, now, net)
    {
      var fromCache := LoadFromCache(req, now, l);
      if fromCache.Rejects? {
        return Rejects(fromCache.reason), false;
      }
      if fromCache.value.Some? {
        var hit := fromCache.value.value;
        deferred := config.refreshAheadMs.Some? && hit.age >= config.refreshAheadMs.value;
        return Resolves(Some(hit.res)), deferred;
      }
      var timeoutFetch := TimeoutFetch(config, net);
      if timeoutFetch.Rejects? {
        return Rejects(timeoutFetch.reason), false;
      }
      var res: Response;
      if timeoutFetch.value.None? {
        res := GatewayTimeout;
        deferred := true;
      } else {
        res := timeoutFetch.value.value;
        deferred := false;
      }
      var cached := CacheResponse(req, res, l, now, false);
      reply := Then(cached, res);
    }

    /** `handleFetchWithFreshness` (data.ts:378-414). */
    method HandleFetchWithFreshness(req: Request, now: int, net: Network, l: LruList)
      returns (reply: Settled<Option<Response>>, deferred: bool)
      requires l == lru
      modifies this, l
      ensures lru == old(lru)
      ensures Served(reply, View(), deferred) == Freshness(AsWritten, config, old(View()), req, now, net)
    {
      var timeoutFetch := TimeoutFetch(config, net);
      var res: Option<Response> := if timeoutFetch.Resolves? then timeoutFetch.value else None;
      deferred := false;
      if res.None? {
        deferred := true;
        var fromCache := LoadFromCache(req, now, l);
        if fromCache.Rejects? {
          return Rejects(fromCache.reason), deferred;
        }
        res := if fromCache.value.Some? then Some(fromCache.value.value.res) else None;
      } else {
        var cached := CacheResponse(req, res.value, l, now, true);
        if cached.Rejects? {
          return Rejects(cached.reason), deferred;
        }
      }
      if res.Some? {
        return Resolves(res), deferred;
      }
      var networkFetch := FullFetch(config, net);
      if networkFetch.Rejects? {
        return Rejects(networkFetch.reason), deferred;
      }
      var cached := CacheResponse(req, networkFetch.value, l, now, true);
      reply := Then(cached, networkFetch.value);
    }

    /** `handleFetch` (data.ts:296-337), with the pattern test given as `test`. */
    method HandleFetch(req: Request, now: int, net: Network, test: (string, string) -> bool)
      returns (reply: Settled<Option<Response>>, deferred: bool)
      modifies this, lru
      ensures Matches(config.patterns, test, req.url) ==> lru != null
      ensures Served(reply, View(), deferred) == Dispatch(AsWritten, config, test, old(View()), req, now, net)
    {
      if !Matches(config.patterns, test, req.url) {
        return Resolves(None), false;
      }
      var l := Lru();
      if req.verb == "OPTIONS" {
        return Resolves(None), false;
      }
      if req.verb == "GET" || req.verb == "HEAD" {
        if config.strategy == "freshness" {
          reply, deferred := HandleFetchWithFreshness(req, now, net, l);
        } else if config.strategy == "performance" {
          reply, deferred := HandleFetchWithPerformance(req, now, net, l);
        } else {
          reply, deferred := Rejects(UnknownStrategy(config.strategy)), false;
        }
        return;
      }
      var wasCached, threw := l.Remove(req.url);
      if threw {
        return Rejects(TypeError), false;
      }
      if wasCached {
        ClearCacheForUrl(req.url);
      }
      SyncLru();
      reply, deferred := Answer(Fetch(net)), false;
    }
  }
}
