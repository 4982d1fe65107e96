/**
 * Properties that span several events: what one handler leaves in the
 * store is what a later one serves.
 */
module Scenarios {
  import opened Wrappers
  import opened CacheStore
  import opened Config
  import opened Fetch
  import opened Lifecycle

  /** A response stored on a miss is the answer to the next request for the same URL, whatever the network says then. */
  lemma StoredResponseServedNext(s: Store, req: Request, resp: Response, later: NetOutcome)
    requires WellFormed(s) && !Skipped(req) && !Held(s, req.url) && Cacheable(resp)
    ensures var s' := FetchPolicy(s, req, Ok(resp)).store;
            FetchPolicy(s', req, later) == FetchStep(Respond(Some(resp)), s')
  {
  }

  /**
   * The offline shell: once the install batch succeeded and activation has
   * run, a navigation the network cannot answer receives the `./index.html`
   * the install stored.
   */
  lemma OfflineNavigationGetsShell(s: Store, net: map<string, Response>, req: Request)
    requires WellFormed(s)
    requires AllFetched(URLS_TO_CACHE, net)
    requires !Skipped(req) && req.mode == "navigate"
    requires !Held(Retained(Seeded(s, Some(URLS_TO_CACHE), net).store), req.url)
    ensures FetchPolicy(Retained(Seeded(s, Some(URLS_TO_CACHE), net).store), req, Fail).answer
            == Respond(Some(net[OFFLINE_DOCUMENT]))
  {
    ShellDistinct();
  }

  /** Installing then activating leaves exactly one namespace, CACHE_NAME, holding the whole shell. */
  lemma InstallThenActivate(s: Store, net: map<string, Response>)
    requires WellFormed(s)
    requires AllFetched(URLS_TO_CACHE, net)
    ensures var a := Retained(Seeded(s, Some(URLS_TO_CACHE), net).store);
            a.names == [CACHE_NAME] && a.caches.Keys == {CACHE_NAME}
            && forall u :: u in URLS_TO_CACHE ==> u in a.caches[CACHE_NAME] && a.caches[CACHE_NAME][u] == net[u]
  {
    ShellDistinct();
  }
}
