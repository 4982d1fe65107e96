/**
 * The `install` and `activate` handlers: seeding the current namespace with
 * the application shell, and deleting every namespace of an older release.
 */
module Lifecycle {
  import opened Wrappers
  import opened CacheStore
  import opened Config

  /**
   * Open CACHE_NAME and add `urls` to it in one batch, as the install
   * handler and the CACHE_URLS message both do. All-or-nothing: either
   * every URL is stored with the network's response (`ok`), or no entry
   * changes. The namespace itself is opened first, so it exists afterwards
   * in both cases.
   */
  function Seeded(s: Store, urls: Option<seq<string>>, net: map<string, Response>): (r: BatchResult)
    requires WellFormed(s)
    ensures WellFormed(r.store)
    ensures r.ok <==> urls.Some? && Accepted(urls.value, net)
    ensures CACHE_NAME in r.store.caches && r.store.caches.Keys == s.caches.Keys + {CACHE_NAME}
    ensures r.store.names == if CACHE_NAME in s.caches then s.names else s.names + [CACHE_NAME]
    ensures r.ok ==> r.store.caches[CACHE_NAME].Keys ==
                       (if CACHE_NAME in s.caches then s.caches[CACHE_NAME].Keys else {}) + set u | u in urls.value
    ensures r.ok ==> forall u :: u in urls.value ==> u in r.store.caches[CACHE_NAME] && r.store.caches[CACHE_NAME][u] == net[u]
    ensures !r.ok ==> r.store == Opened(s, CACHE_NAME)
    ensures forall n :: n in s.caches && n != CACHE_NAME ==> r.store.caches[n] == s.caches[n]
    ensures forall u :: CACHE_NAME in s.caches && u in s.caches[CACHE_NAME] && (!r.ok || u !in urls.value) ==>
              u in r.store.caches[CACHE_NAME] && r.store.caches[CACHE_NAME][u] == s.caches[CACHE_NAME][u]
  {
    BatchAdded(Opened(s, CACHE_NAME), CACHE_NAME, urls, net)
  }

  /** Install: seed the shell; `skipWaiting` is requested only when the whole shell was stored. */
  method Install(cs: CacheStorage, net: map<string, Response>) returns (skipWaiting: bool)
    requires cs.Valid()
    modifies cs
    ensures cs.Valid() && BatchResult(skipWaiting, cs.View()) == Seeded(old(cs.View()), Some(URLS_TO_CACHE), net)
    ensures skipWaiting <==> AllFetched(URLS_TO_CACHE, net)
  {
    ShellDistinct();
    cs.Open(CACHE_NAME);
    skipWaiting := cs.AddAll(CACHE_NAME, Some(URLS_TO_CACHE), net);
  }

  /** The shell lists no URL twice, so only a failed fetch can make its batch reject. */
  lemma ShellDistinct()
    ensures Distinct(URLS_TO_CACHE)
  {
  }

  /** The store after activation: CACHE_NAME alone survives, with its entries. */
  function Retained(s: Store): (r: Store)
    requires WellFormed(s)
    ensures WellFormed(r)
    ensures |r.names| <= 1
    ensures r.caches.Keys == s.caches.Keys * {CACHE_NAME}
    ensures CACHE_NAME in s.caches ==> r.caches[CACHE_NAME] == s.caches[CACHE_NAME]
  {
    Store(if CACHE_NAME in s.caches then [CACHE_NAME] else [], s.caches - (s.caches.Keys - {CACHE_NAME}))
  }

  /** Activating twice leaves the same store as activating once. */
  lemma RetainedIdempotent(s: Store)
    requires WellFormed(s)
    ensures Retained(Retained(s)) == Retained(s)
  {
  }

  /** The names among `ns` that activation deletes. */
  function Stale(ns: seq<string>): (r: set<string>)
    ensures CACHE_NAME !in r
    ensures forall n :: n in r <==> n in ns && n != CACHE_NAME
  {
    set n | n in ns && n != CACHE_NAME
  }

  /** Removing no name keeps the list. */
  lemma {:induction false} WithoutNothing(ns: seq<string>)
    ensures Without(ns, {}) == ns
  {
    if ns != [] {
      WithoutNothing(ns[1..]);
    }
  }

  /** Removing one set of names and then another is removing both at once. */
  lemma {:induction false} WithoutBoth(ns: seq<string>, first: set<string>, second: set<string>)
    ensures Without(Without(ns, first), second) == Without(ns, first + second)
  {
    if ns != [] {
      WithoutBoth(ns[1..], first, second);
    }
  }

  /** When every listed name but `keep` is removed, at most `keep` is left. */
  lemma {:induction false} WithoutAllBut(ns: seq<string>, gone: set<string>, keep: string)
    requires Distinct(ns) && keep !in gone
    requires forall n :: n in ns ==> n in gone || n == keep
    ensures Without(ns, gone) == if keep in ns then [keep] else []
  {
    if ns != [] {
      assert Distinct(ns[1..]) by {
        forall i, j | 0 <= i < j < |ns[1..]| ensures ns[1..][i] != ns[1..][j] {
          assert ns[1..][i] == ns[i + 1] && ns[1..][j] == ns[j + 1];
        }
      }
      WithoutAllBut(ns[1..], gone, keep);
      if ns[0] == keep {
        assert keep !in ns[1..] by {
          forall k | 0 <= k < |ns[1..]| ensures ns[1..][k] != keep {
            assert ns[1..][k] == ns[k + 1];
          }
        }
      } else {
        assert keep in ns <==> keep in ns[1..];
      }
    }
  }

  /** The store once activation's loop has passed over `rest`, deleting each stale name in turn. */
  function Purged(s: Store, rest: seq<string>): Store
    decreases |rest|
  {
    if rest == [] then s
    else Purged(if rest[0] == CACHE_NAME then s else Deleted(s, rest[0]), rest[1..])
  }

  /** Deleting the stale names one by one is removing all of them at once. */
  lemma {:induction false} PurgedAtOnce(s: Store, rest: seq<string>)
    ensures Purged(s, rest) == Store(Without(s.names, Stale(rest)), s.caches - Stale(rest))
    decreases |rest|
  {
    if rest == [] {
      WithoutNothing(s.names);
      assert Stale(rest) == {};
    } else {
      var x := rest[0];
      var later := Stale(rest[1..]);
      if x != CACHE_NAME {
        var t := Deleted(s, x);
        assert t.names == Without(s.names, {x}) && t.caches == s.caches - {x};
        PurgedAtOnce(t, rest[1..]);
        assert Stale(rest) == {x} + later;
        WithoutBoth(s.names, {x}, later);
        assert t.caches - later == s.caches - ({x} + later);
      } else {
        PurgedAtOnce(s, rest[1..]);
        assert Stale(rest) == later;
      }
    }
  }

  /** Activate: list the namespaces, then delete each whose name is not CACHE_NAME. */
  method Activate(cs: CacheStorage)
    requires cs.Valid()
    modifies cs
    ensures cs.Valid() && cs.View() == Retained(old(cs.View()))
  {
    ghost var s0 := cs.View();
    var names := cs.Keys();
    AllStaleDeleted(s0);
    var i := 0;
    while i < |names|
      invariant 0 <= i <= |names|
      invariant cs.Valid()
      invariant Purged(cs.View(), names[i..]) == Retained(s0)
    {
      assert names[i..][1..] == names[i + 1..];
      if names[i] != CACHE_NAME {
        var existed := cs.Delete(names[i]);
      }
      i := i + 1;
    }
  }

  /** Deleting every stale name of a store leaves exactly what activation retains. */
  lemma AllStaleDeleted(s: Store)
    requires WellFormed(s)
    ensures Purged(s, s.names) == Retained(s)
  {
    PurgedAtOnce(s, s.names);
    WithoutAllBut(s.names, Stale(s.names), CACHE_NAME);
    assert s.caches - Stale(s.names) == s.caches - (s.caches.Keys - {CACHE_NAME});
  }
}
