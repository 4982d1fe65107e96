# Service worker of the Ramadan companion app, modelled in Dafny

This project models the decision rules of `sw.js`, the service worker of a
prayer-times and Quran-reading web app, at release `ramadan-app-v1.5`. That
release keeps one cache namespace, `CACHE_NAME`, and answers every request
it handles cache-first.

The shared state is the browser's cache storage. It is modelled as a class,
`CacheStore.CacheStorage`. The class has two fields: the namespace names in
creation order, and a map from each namespace to its entries (request URL to
a response record `{status, type}`). The platform calls the worker makes
(`caches.open`, `cache.put`, `caches.delete`, `cache.addAll`, `caches.keys`)
are methods of that class. Each method is specified by a pure function on a
`Store` value. `caches.match` is the function `Lookup`, which searches the
namespaces in creation order.

The event handlers are modelled as follows:

- **Fetch** (`Fetch`): the request filter, and the cache-first policy with its
  write-back and offline fallback. The network's answer is an input.
- **Install, activate and `CACHE_URLS`** (`Lifecycle`, `Dispatch`): the
  all-or-nothing seeding of `CACHE_NAME`, and the deletion of every other
  namespace, done by a loop over `caches.keys()`.
- **Notification builders** (`Notifications`): a push payload or a Firebase
  background message becomes a title plus options. JavaScript's `||` is
  modelled as `Text.Or`, so an absent or empty string takes the default.
- **Notification click** (`Click`): the router scans the client list in order
  and returns the commands it issues.
- **Message and sync dispatch** (`Dispatch`): closed datatypes for message
  types, one-shot sync tags and periodic sync tags.

The clock is a parameter, `now`. The network is one of two parameters. A
fetch gets a `NetOutcome`. A batch gets a map from URL to response, where a
missing URL is a failed fetch. Platform side effects (`skipWaiting`,
`postMessage`, `showNotification`, `focus`, `openWindow`) are returned as
values.

Two behaviours are easy to miss:

- `caches.open` runs before `addAll`, both at install and for `CACHE_URLS`.
  So a failed batch still leaves `CACHE_NAME` in place, possibly empty.
  `Seeded` states this.
- Install swallows a failed batch with `catch`. The worker still installs,
  but it does not request `skipWaiting`.

## Model

| member | source | states |
|---|---|---|
| `Text.Contains` | sw.js:61-65 | `s.includes(t)` holds exactly when `t` occurs at some position of `s` |
| `Text.Or` | sw.js:131-139 | JavaScript `or` on an optional string: a non-empty value is kept; an absent or empty one gives the fallback |
| `CacheStore.Opened` | sw.js:91-92 | after `caches.open(name)` the namespace exists; if it is new, it is empty and listed last; no other namespace changes |
| `CacheStore.Stored` | sw.js:93 | `cache.put` overwrites exactly one entry of one namespace: its keys gain the URL, the URL maps to the response; every other entry and namespace is unchanged |
| `CacheStore.Deleted` | sw.js:47 | `caches.delete(name)` removes that namespace and its name; the remaining names keep their order, and every other namespace keeps its entries |
| `CacheStore.LookupIn` | sw.js:75 | returns the entry of the first listed namespace holding the URL; None exactly when no listed namespace holds it |
| `CacheStore.Lookup` | sw.js:75 | `caches.match`: the entry of the first namespace, in creation order, that holds the URL; in a well-formed store, None exactly when no namespace holds the URL |
| `CacheStore.BatchAdded` | sw.js:26 | `cache.addAll` is all-or-nothing. It succeeds exactly when the list is defined, names no URL twice, and every URL fetched with a 2xx status other than 206. Then the namespace's keys are its old keys plus the listed URLs, each listed URL maps to its response, and unlisted entries are kept. Otherwise the store is unchanged |
| `CacheStore.CacheStorage.Keys` | sw.js:42 | `caches.keys()` lists exactly the existing namespaces |
| `CacheStore.CacheStorage.Open` | sw.js:23 | opens a namespace in place, as `Opened` describes |
| `CacheStore.CacheStorage.Put` | sw.js:93 | writes one entry in place, as `Stored` describes |
| `CacheStore.CacheStorage.Delete` | sw.js:47 | deletes a namespace in place, as `Deleted` describes, and reports whether it existed |
| `CacheStore.CacheStorage.AddAll` | sw.js:26 | performs the batch in place, as `BatchAdded` describes, and returns whether it succeeded |
| `Fetch.Skipped` | sw.js:61-72 | a request is left to the browser exactly when its URL contains one of the five excluded markers or its method is not GET |
| `Fetch.FetchPolicy` | sw.js:59-106 | skipped: not answered, store unchanged. Hit: the answer is what `caches.match` finds first, in creation order; store unchanged. Miss with a network response: that response is answered, and it is stored under `CACHE_NAME` exactly when status is 200 and type is `basic`. Then `CACHE_NAME`'s keys are its old keys plus the URL, `CACHE_NAME` is appended to the names only if it was new, and all other entries are kept; otherwise the store is unchanged. Miss with network failure: a navigation gets the lookup of `./index.html`, anything else gets no response; store unchanged |
| `Fetch.HitIgnoresNetwork` | sw.js:75-80 | a request answered from the cache gives the same answer and store whatever the network outcome |
| `Fetch.HandleFetch` | sw.js:59-106 | the handler's answer and the store it leaves are those of `FetchPolicy` on the store it started from |
| `Lifecycle.Seeded` | sw.js:223-235 | open `CACHE_NAME`, then add a batch, which succeeds exactly when `cache.addAll` accepts it. `CACHE_NAME` is appended to the names only if it was new. On success `CACHE_NAME`'s keys are its old keys plus the listed URLs, each stored with its response. On failure no entry changes and only the opened namespace may be new. Other namespaces are never touched |
| `Lifecycle.Install` | sw.js:20-36 | install seeds the shell as `Seeded` does; `skipWaiting` is requested exactly when every shell URL fetched with an acceptable response |
| `Lifecycle.ShellDistinct` | sw.js:2-14 | the shell list names no URL twice, so its batch cannot reject for a repeated request |
| `Lifecycle.Retained` | sw.js:42-50 | after activation at most one namespace is left; it is `CACHE_NAME`, present exactly when it was before, with the same entries |
| `Lifecycle.RetainedIdempotent` | sw.js:42-50 | activating twice gives the same store as activating once |
| `Lifecycle.AllStaleDeleted` | sw.js:44-49 | deleting every listed name other than `CACHE_NAME` leaves exactly the retained store |
| `Lifecycle.Activate` | sw.js:39-56 | the deletion loop over `caches.keys()` leaves the store `Retained` describes |
| `Notifications.PushPayload` | sw.js:112-128 | no data gives nothing. JSON is taken as parsed. Text that is not JSON becomes a payload with the app title, the raw text as body, the default icon and badge, and no tag or url |
| `Notifications.PushNotification` | sw.js:109-162 | a push without data shows nothing. Otherwise title, body, icon, badge, tag and url each take the payload's non-empty value or their fixed default. Non-JSON text becomes the body, and empty text gives the default body. Vibrate pattern, `requireInteraction`, `silent:false`, timestamp `now`, `primaryKey '2'` and the `open`/`dismiss` actions are the same for every push |
| `Notifications.PushNormalisationIdempotent` | sw.js:130-155 | feeding a built push notification's fields back as a JSON payload gives the same notification |
| `Notifications.FirebaseNotification` | sw.js:245-264 | only a `BACKGROUND_MESSAGE` shows a notification. Its title and url are defaulted, its body is passed through as given, and icon, badge, tag and `requireInteraction` are fixed |
| `Click.RouteClick` | sw.js:165-201 | the notification is closed first. `open`/`explore` focuses the first focusable client, in list order, whose URL contains the origin; if there is none, it opens `data.url` or `./` when `openWindow` exists. `dismiss`/`close` does nothing more. Any other action opens `data.url` or `./` without looking at the clients, and opens nothing when `openWindow` is missing |
| `Dispatch.Classify` | sw.js:209-242 | each recognised message type maps to its own constructor and carries the fields that handler reads; absent data or any other type is ignored |
| `Dispatch.HandleMessage` | sw.js:209-242 | `SKIP_WAITING` requests skip-waiting. `GET_VERSION` replies with `CACHE_NAME` and `now`. `CACHE_URLS` seeds the batch and replies with whether it succeeded. `FIREBASE_MESSAGING` shows the Firebase notification, if any. The store changes only for `CACHE_URLS` |
| `Dispatch.SyncTask` | sw.js:267-281 | a one-shot sync runs the task whose tag it carries, and none when no task has that tag |
| `Dispatch.SyncTagRoundTrip` | sw.js:270-280 | every background task is reached by its own sync tag |
| `Dispatch.PeriodicJobFor` | sw.js:319-324 | a periodic sync runs a job exactly when its tag is `update-content` |
| `Dispatch.JobTasks` | sw.js:326-333 | the content update starts both background tasks, each once |
| `Dispatch.PeriodicCoversSync` | sw.js:319-333 | the periodic update runs exactly the tasks of the two one-shot sync tags |
| `Scenarios.StoredResponseServedNext` | sw.js:82-96 | a response stored on a miss is the answer to the next request for that URL, whatever the network says then |
| `Scenarios.OfflineNavigationGetsShell` | sw.js:97-101 | after a successful install and an activation, a navigation the network cannot answer receives the stored `./index.html` |
| `Scenarios.InstallThenActivate` | sw.js:20-56 | install followed by activation leaves exactly one namespace, `CACHE_NAME`, holding every shell URL |

## Left out

- Real `fetch`, `caches.*`, `clients.*`, `showNotification`, `skipWaiting` and `clients.claim` are not called. The cache is a class field; the other calls are returned values or parameters. `clients.claim` after activation is unconditional and is not represented.
- Promise scheduling is left out. The un-awaited `cache.put` in the fetch handler is modelled as completing before the handler ends. Races between concurrent handlers are not modelled.
- Activation deletes stale namespaces one after another. The source starts the deletions together under `Promise.all`. They touch different names, so the final store is the same.
- URL resolution is left out. Cache keys and request URLs are compared as the strings given, so `./index.html` stands for the URL the platform resolves it to. Matching by `Vary` headers and the request method is also left out.
- JSON parsing of the push payload is left out. The input is a parsed record of optional string fields, or the raw text when parsing fails. A payload that is valid JSON but not an object (for example `null`, which makes the push handler in `sw.js` throw) is not modelled. Fields holding non-string values are not modelled either.
- `CacheStore.BatchAdded` finds a repeated request by comparing the URL strings as given. Two spellings of one resolved URL are not treated as a repeat, since URL resolution is left out.
- The error that `cache.addAll` reports (`error.message` in the `CACHE_URLS` reply) is not modelled; the reply keeps only `success`.
- A message with no reply port (`event.ports[0]` undefined) is not modelled. A notification whose `data` is missing is not modelled either. `sw.js` throws in both cases.
- `Click.RouteClick`: the router returns the commands it issues. It does not model the promises that `focus` and `openWindow` return. A click on the notification body calls `clients.openWindow` without checking that it exists; when it is missing the call throws, and the model shows this as no window opened.
- The background tasks themselves (`updatePrayerTimes`, `updateQuranData`): each is one network call and one fixed notification. Only the mapping from tags to tasks is modelled.
- The `notificationclose`, `error` and `unhandledrejection` handlers only log, so they are not modelled. All other console logging is left out too.
- The unused VAPID public key constant is not modelled.
- `Date.now()` is the parameter `now`.
