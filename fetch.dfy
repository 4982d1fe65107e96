/**
 * The `fetch` handler: which requests the worker answers, and the
 * cache-first policy by which it answers them. The network's reply to the
 * request is an input.
 */
module Fetch {
  import opened Wrappers
  import opened Text
  import opened CacheStore
  import opened Config

  /** The parts of a request the handler reads: `url`, `method` (here `verb`) and `mode`. */
  datatype Request = Request(url: string, verb: string, mode: string)

  /** What `fetch(request)` settles to: a response, or a rejection (network error). */
  datatype NetOutcome = Ok(response: Response) | Fail

  /**
   * NotHandled: the handler returns without `respondWith`, so the browser
   * fetches by itself. Respond(r): `respondWith` a promise of `r`, where
   * None stands for the promise fulfilling with `undefined`.
   */
  datatype Answer = NotHandled | Respond(response: Option<Response>)

  /** The substrings that mark a request to an external service. */
  const EXCLUDED_MARKERS: seq<string> := ["api.alquran.cloud", "api.aladhan.com", "everyayah.com", "firebase", "googleapis"]

  /** `markers[0] || markers[1] || ...` over `url.includes(marker)`. */
  function ContainsAny(url: string, markers: seq<string>): (r: bool)
    ensures r <==> exists i :: 0 <= i < |markers| && Contains(url, markers[i])
  {
    if markers == [] then false
    else if Contains(url, markers[0]) then true
    else
      var r := ContainsAny(url, markers[1..]);
      assert forall i :: 1 <= i < |markers| ==> markers[i] == markers[1..][i - 1];
      r
  }

  /** The request filter: external services and non-GET requests are left to the browser. */
  function Skipped(req: Request): (r: bool)
    ensures r <==> (exists i :: 0 <= i < |EXCLUDED_MARKERS| && Contains(req.url, EXCLUDED_MARKERS[i])) || req.verb != "GET"
  {
    ContainsAny(req.url, EXCLUDED_MARKERS) || req.verb != "GET"
  }

  /** Only a complete same-origin response is copied into the cache. */
  predicate Cacheable(resp: Response)
  {
    resp.status == 200 && resp.kind == "basic"
  }

  /** Some namespace holds an entry for `url`. */
  predicate Held(s: Store, url: string)
  {
    exists n :: n in s.caches && url in s.caches[n]
  }

  /** The answer to one fetch event and the store once its write (if any) has completed. */
  datatype FetchStep = FetchStep(answer: Answer, store: Store)

  /** The fetch handler as a function of the store before the event and the network's reply. */
  function FetchPolicy(s: Store, req: Request, net: NetOutcome): (r: FetchStep)
    requires WellFormed(s)
    ensures WellFormed(r.store)
    // Filtered requests: not answered, store unchanged.
    ensures Skipped(req) ==> r == FetchStep(NotHandled, s)
    ensures !Skipped(req) ==> r.answer.Respond?
    // A hit: the entry `caches.match` finds first is the answer and nothing is written.
    ensures !Skipped(req) && Held(s, req.url) ==> r == FetchStep(Respond(Lookup(s, req.url)), s)
    ensures !Skipped(req) && Held(s, req.url) ==>
              r.answer.response.Some?
              && exists n :: n in s.caches && req.url in s.caches[n] && s.caches[n][req.url] == r.answer.response.value
    // A miss answered by the network: that response is the answer ...
    ensures !Skipped(req) && !Held(s, req.url) && net.Ok? ==> r.answer == Respond(Some(net.response))
    // ... and it is stored under CACHE_NAME exactly when it is cacheable ...
    ensures !Skipped(req) && !Held(s, req.url) && net.Ok? ==>
              (Held(r.store, req.url) <==> Cacheable(net.response))
    ensures !Skipped(req) && !Held(s, req.url) && net.Ok? && !Cacheable(net.response) ==> r.store == s
    ensures !Skipped(req) && !Held(s, req.url) && net.Ok? && Cacheable(net.response) ==>
              && r.store.caches.Keys == s.caches.Keys + {CACHE_NAME}
              && r.store.names == (if CACHE_NAME in s.caches then s.names else s.names + [CACHE_NAME])
              && r.store.caches[CACHE_NAME].Keys == (if CACHE_NAME in s.caches then s.caches[CACHE_NAME].Keys else {}) + {req.url}
              && req.url in r.store.caches[CACHE_NAME] && r.store.caches[CACHE_NAME][req.url] == net.response
              && (forall n :: n in s.caches && n != CACHE_NAME ==> r.store.caches[n] == s.caches[n])
              && (forall u :: CACHE_NAME in s.caches && u in s.caches[CACHE_NAME] ==>
                               u in r.store.caches[CACHE_NAME] && r.store.caches[CACHE_NAME][u] == s.caches[CACHE_NAME][u])
    // A miss the network cannot answer: a navigation falls back to the cached shell.
    ensures !Skipped(req) && !Held(s, req.url) && net.Fail? ==>
              r.store == s
              && r.answer == Respond(if req.mode == "navigate" then Lookup(s, OFFLINE_DOCUMENT) else None)
  {
    if Skipped(req) then FetchStep(NotHandled, s)
    else
      var hit := Lookup(s, req.url);
      if hit.Some? then FetchStep(Respond(hit), s)
      else match net
        case Ok(resp) =>
          if Cacheable(resp) then
            var s' := Stored(Opened(s, CACHE_NAME), CACHE_NAME, req.url, resp);
            assert Held(s', req.url) by { assert req.url in s'.caches[CACHE_NAME]; }
            FetchStep(Respond(Some(resp)), s')
          else FetchStep(Respond(Some(resp)), s)
        case Fail =>
          FetchStep(Respond(if req.mode == "navigate" then Lookup(s, OFFLINE_DOCUMENT) else None), s)
  }

  /** A request answered from the cache does not depend on what the network would have said. */
  lemma HitIgnoresNetwork(s: Store, req: Request, net1: NetOutcome, net2: NetOutcome)
    requires WellFormed(s) && Held(s, req.url)
    ensures FetchPolicy(s, req, net1) == FetchPolicy(s, req, net2)
  {
  }

  /** The handler, performing its lookups and its write on the shared store. */
  method HandleFetch(cs: CacheStorage, req: Request, net: NetOutcome) returns (answer: Answer)
    requires cs.Valid()
    modifies cs
    ensures cs.Valid() && FetchStep(answer, cs.View()) == FetchPolicy(old(cs.View()), req, net)
  {
    if Skipped(req) {
      return NotHandled;
    }
    var cached := Lookup(cs.View(), req.url);
    if cached.Some? {
      return Respond(cached);
    }
    match net {
      case Ok(resp) =>
        if Cacheable(resp) {
          cs.Open(CACHE_NAME);
          cs.Put(CACHE_NAME, req.url, resp);
        }
        answer := Respond(Some(resp));
      case Fail =>
        if req.mode == "navigate" {
          answer := Respond(Lookup(cs.View(), OFFLINE_DOCUMENT));
        } else {
          answer := Respond(None);
        }
    }
  }
}
