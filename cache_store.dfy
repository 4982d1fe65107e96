/**
 * The browser's cache storage as the worker sees it: named namespaces, in
 * the order they were created, each mapping a request URL to a stored
 * response. The pure functions give the meaning of each platform call
 * (`caches.open`, `cache.put`, `caches.delete`, `cache.addAll`,
 * `caches.match`); the class `CacheStorage` holds the shared, mutable store
 * and performs those calls in place.
 */
module CacheStore {
  import opened Wrappers

  /** What the worker inspects of a response: its HTTP status and its `type` (`basic`, `cors`, `opaque`, ...). */
  datatype Response = Response(status: int, kind: string)

  /** The entries of one namespace, keyed by request URL. */
  type Entries = map<string, Response>

  /** All namespaces: their names in creation order, and their entries. */
  datatype Store = Store(names: seq<string>, caches: map<string, Entries>)

  predicate Distinct(ns: seq<string>)
  {
    forall i, j :: 0 <= i < j < |ns| ==> ns[i] != ns[j]
  }

  /** Each namespace is listed exactly once, and only existing namespaces are listed. */
  predicate WellFormed(s: Store)
  {
    Distinct(s.names) && (forall n :: n in s.names ==> n in s.caches) && (forall n :: n in s.caches ==> n in s.names)
  }

  /** `ns` with every name in `gone` removed; the others keep their relative order. */
  function Without(ns: seq<string>, gone: set<string>): (r: seq<string>)
    ensures forall n :: n in r <==> n in ns && n !in gone
  {
    if ns == [] then []
    else
      var rest := Without(ns[1..], gone);
      if ns[0] in gone then rest else [ns[0]] + rest
  }

  /** Removing names from a list without repetitions leaves a list without repetitions. */
  lemma {:induction false} WithoutDistinct(ns: seq<string>, gone: set<string>)
    requires Distinct(ns)
    ensures Distinct(Without(ns, gone))
  {
    if ns != [] {
      assert Distinct(ns[1..]) by {
        forall i, j | 0 <= i < j < |ns[1..]| ensures ns[1..][i] != ns[1..][j] {
          assert ns[1..][i] == ns[i + 1] && ns[1..][j] == ns[j + 1];
        }
      }
      WithoutDistinct(ns[1..], gone);
      assert ns[0] !in ns[1..] by {
        forall k | 0 <= k < |ns[1..]| ensures ns[1..][k] != ns[0] {
          assert ns[1..][k] == ns[k + 1];
        }
      }
    }
  }

  /** `caches.open(name)`: the namespace exists afterwards; it is created empty, after all others, if it did not. */
  function Opened(s: Store, name: string): (r: Store)
    ensures WellFormed(s) ==> WellFormed(r)
    ensures name in r.caches && r.caches.Keys == s.caches.Keys + {name}
    ensures forall n :: n in s.caches ==> r.caches[n] == s.caches[n]
    ensures name !in s.caches ==> r.caches[name] == map[] && r.names == s.names + [name]
    ensures name in s.caches ==> r == s
  {
    if name in s.caches then s else Store(s.names + [name], s.caches[name := map[]])
  }

  /** `cache.put(url, response)` on an open namespace: that one entry is overwritten; nothing else changes. */
  function Stored(s: Store, name: string, url: string, resp: Response): (r: Store)
    requires name in s.caches
    ensures WellFormed(s) ==> WellFormed(r)
    ensures r.names == s.names && r.caches.Keys == s.caches.Keys
    ensures forall n :: n in s.caches && n != name ==> r.caches[n] == s.caches[n]
    ensures r.caches[name].Keys == s.caches[name].Keys + {url}
    ensures url in r.caches[name] && r.caches[name][url] == resp
    ensures forall u :: u in s.caches[name] && u != url ==> u in r.caches[name] && r.caches[name][u] == s.caches[name][u]
    ensures r.caches[name].Keys == s.caches[name].Keys + {url}
  {
    Store(s.names, s.caches[name := s.caches[name][url := resp]])
  }

  /** `caches.delete(name)`: the namespace and all its entries are gone; every other one is untouched. */
  function Deleted(s: Store, name: string): (r: Store)
    ensures WellFormed(s) ==> WellFormed(r)
    ensures name !in r.caches && name !in r.names
    ensures r.names == Without(s.names, {name})
    ensures r.caches.Keys == s.caches.Keys - {name}
    ensures forall n :: n in r.caches ==> r.caches[n] == s.caches[n]
  {
    assert Distinct(s.names) ==> Distinct(Without(s.names, {name})) by {
      if Distinct(s.names) {
        WithoutDistinct(s.names, {name});
      }
    }
    Store(Without(s.names, {name}), s.caches - {name})
  }

  /** The first namespace in `names`, in order, that holds `url`, and its entry. */
  function LookupIn(names: seq<string>, caches: map<string, Entries>, url: string): (r: Option<Response>)
    ensures r.None? <==> forall n :: n in names && n in caches ==> url !in caches[n]
    ensures r.Some? ==> exists i :: 0 <= i < |names| && names[i] in caches && url in caches[names[i]]
                                    && caches[names[i]][url] == r.value
                                    && forall j :: 0 <= j < i ==> names[j] !in caches || url !in caches[names[j]]
  {
    if names == [] then None
    else if names[0] in caches && url in caches[names[0]] then Some(caches[names[0]][url])
    else
      var r := LookupIn(names[1..], caches, url);
      if r.Some? then
        ghost var i :| 0 <= i < |names[1..]| && names[1..][i] in caches && url in caches[names[1..][i]]
                      && caches[names[1..][i]][url] == r.value
                      && forall j :: 0 <= j < i ==> names[1..][j] !in caches || url !in caches[names[1..][j]];
        assert names[i + 1] == names[1..][i];
        assert forall j :: 1 <= j < i + 1 ==> names[j] == names[1..][j - 1];
        r
      else r
  }

  /** `caches.match(url)`: the entry of the first namespace, in creation order, holding `url`, if any namespace does. */
  function Lookup(s: Store, url: string): (r: Option<Response>)
    ensures r.Some? ==> exists i :: 0 <= i < |s.names| && s.names[i] in s.caches && url in s.caches[s.names[i]]
                                    && s.caches[s.names[i]][url] == r.value
                                    && forall j :: 0 <= j < i ==> s.names[j] !in s.caches || url !in s.caches[s.names[j]]
    ensures r.Some? ==> exists n :: n in s.caches && url in s.caches[n] && s.caches[n][url] == r.value
    ensures WellFormed(s) ==> (r.None? <==> forall n :: n in s.caches ==> url !in s.caches[n])
  {
    LookupIn(s.names, s.caches, url)
  }

  /** What `cache.addAll` demands of every response: `response.ok`, and not a partial (206) response. */
  predicate IsOk(resp: Response)
  {
    200 <= resp.status <= 299 && resp.status != 206
  }

  /**
   * Every URL was fetched (a URL absent from `net` is a failed fetch) with
   * an ok response.
   */
  predicate AllFetched(urls: seq<string>, net: map<string, Response>)
  {
    forall u :: u in urls ==> u in net && IsOk(net[u])
  }

  /**
   * What makes `cache.addAll` resolve: no URL is listed twice (a repeated
   * request is an InvalidStateError of the batch) and every URL was
   * fetched with an acceptable response.
   */
  predicate Accepted(urls: seq<string>, net: map<string, Response>)
  {
    Distinct(urls) && AllFetched(urls, net)
  }

  datatype BatchResult = BatchResult(ok: bool, store: Store)

  /**
   * `cache.addAll(urls)` on an open namespace, given the response the
   * network gives for each URL: all-or-nothing. `urls` is None when the
   * argument is not a list at all, which rejects like a failed fetch.
   */
  function BatchAdded(s: Store, name: string, urls: Option<seq<string>>, net: map<string, Response>): (r: BatchResult)
    requires name in s.caches
    ensures r.ok <==> urls.Some? && Accepted(urls.value, net)
    ensures !r.ok ==> r.store == s
    ensures WellFormed(s) ==> WellFormed(r.store)
    ensures r.store.names == s.names && r.store.caches.Keys == s.caches.Keys
    ensures forall n :: n in s.caches && n != name ==> r.store.caches[n] == s.caches[n]
    ensures r.ok ==> r.store.caches[name].Keys == s.caches[name].Keys + set u | u in urls.value
    ensures r.ok ==> forall u :: u in urls.value ==> r.store.caches[name][u] == net[u]
    ensures r.ok ==> forall u :: u in s.caches[name] && u !in urls.value ==> r.store.caches[name][u] == s.caches[name][u]
  {
    if urls.Some? && Accepted(urls.value, net) then
      var added := map u | u in urls.value :: net[u];
      BatchResult(true, Store(s.names, s.caches[name := s.caches[name] + added]))
    else
      BatchResult(false, s)
  }

  /** The shared cache storage, updated in place by the worker's handlers. */
  class CacheStorage {
    var names: seq<string>
    var caches: map<string, Entries>

    function View(): Store
      reads this
    {
      Store(names, caches)
    }

    ghost predicate Valid()
      reads this
    {
      WellFormed(View())
    }

    constructor ()
      ensures Valid() && View() == Store([], map[])
    {
      names := [];
      caches := map[];
    }

    /** `caches.keys()`: the namespace names in creation order. */
    method Keys() returns (ns: seq<string>)
      requires Valid()
      ensures ns == names
      ensures forall n :: n in ns <==> n in caches
    {
      ns := names;
    }

    method Open(name: string)
      requires Valid()
      modifies this
      ensures Valid() && View() == Opened(old(View()), name)
    {
      if name !in caches {
        names := names + [name];
        caches := caches[name := map[]];
      }
    }

    method Put(name: string, url: string, resp: Response)
      requires Valid() && name in caches
      modifies this
      ensures Valid() && View() == Stored(old(View()), name, url, resp)
    {
      caches := caches[name := caches[name][url := resp]];
    }

    /** Returns whether the namespace existed, as `caches.delete` does. */
    method Delete(name: string) returns (existed: bool)
      requires Valid()
      modifies this
      ensures existed == (name in old(caches))
      ensures Valid() && View() == Deleted(old(View()), name)
    {
      existed := name in caches;
      WithoutDistinct(names, {name});
      names := Without(names, {name});
      caches := caches - {name};
    }

    /** Returns whether the batch was stored, i.e. whether `addAll` resolved. */
    method AddAll(name: string, urls: Option<seq<string>>, net: map<string, Response>) returns (ok: bool)
      requires Valid() && name in caches
      modifies this
      ensures Valid() && BatchResult(ok, View()) == BatchAdded(old(View()), name, urls, net)
    {
      ok := urls.Some? && Accepted(urls.value, net);
      if ok {
        var added := map u | u in urls.value :: net[u];
        caches := caches[name := caches[name] + added];
      }
    }
  }
}
