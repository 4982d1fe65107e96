/**
 * Dispatch of the events that carry a name: client messages by their
 * `type`, one-shot and periodic background syncs by their `tag`.
 */
module Dispatch {
  import opened Wrappers
  import opened CacheStore
  import opened Config
  import opened Notifications
  import opened Lifecycle

  /** The properties of `event.data` that the message handler reads; the whole of it may be absent. */
  datatype RawMessage = RawMessage(
    msgType: Option<string>,
    urls: Option<seq<string>>,
    action: Option<string>,
    title: Option<string>,
    body: Option<string>,
    url: Option<string>)

  /** The messages a page may send; any other message is ignored. */
  datatype ClientMessage =
    | SkipWaiting
    | GetVersion
    | CacheUrls(urls: Option<seq<string>>)
    | FirebaseMessaging(message: FirebaseMessage)
    | Ignored

  function Classify(data: Option<RawMessage>): (m: ClientMessage)
    ensures m == SkipWaiting <==> data.Some? && data.value.msgType == Some("SKIP_WAITING")
    ensures m == GetVersion <==> data.Some? && data.value.msgType == Some("GET_VERSION")
    ensures m.CacheUrls? <==> data.Some? && data.value.msgType == Some("CACHE_URLS")
    ensures m.CacheUrls? ==> m.urls == data.value.urls
    ensures m.FirebaseMessaging? <==> data.Some? && data.value.msgType == Some("FIREBASE_MESSAGING")
    ensures m.FirebaseMessaging? ==>
              m.message == FirebaseMessage(data.value.action, data.value.title, data.value.body, data.value.url)
  {
    if data.None? then Ignored
    else
      var d := data.value;
      if d.msgType == Some("SKIP_WAITING") then SkipWaiting
      else if d.msgType == Some("GET_VERSION") then GetVersion
      else if d.msgType == Some("CACHE_URLS") then CacheUrls(d.urls)
      else if d.msgType == Some("FIREBASE_MESSAGING") then FirebaseMessaging(FirebaseMessage(d.action, d.title, d.body, d.url))
      else Ignored
  }

  /** What is posted back on the message's first port. */
  datatype Reply = Version(version: string, timestamp: int) | CacheResult(success: bool)

  datatype MessageEffect = RequestSkipWaiting | PostReply(reply: Reply) | Show(notification: Notification)

  /**
   * The message handler. `net` gives the network's response to each URL of
   * a CACHE_URLS request; `now` stands for `Date.now()`.
   */
  method HandleMessage(cs: CacheStorage, data: Option<RawMessage>, net: map<string, Response>, now: int)
    returns (effects: seq<MessageEffect>)
    requires cs.Valid()
    modifies cs
    ensures cs.Valid()
    ensures match Classify(data)
      case SkipWaiting => effects == [RequestSkipWaiting] && cs.View() == old(cs.View())
      case GetVersion => effects == [PostReply(Version(CACHE_NAME, now))] && cs.View() == old(cs.View())
      case CacheUrls(urls) =>
        var b := Seeded(old(cs.View()), urls, net);
        effects == [PostReply(CacheResult(b.ok))] && cs.View() == b.store
      case FirebaseMessaging(m) =>
        effects == (match FirebaseNotification(m, now) case Some(n) => [Show(n)] case None => [])
        && cs.View() == old(cs.View())
      case Ignored => effects == [] && cs.View() == old(cs.View())
  {
    effects := [];
    match Classify(data) {
      case SkipWaiting =>
        effects := [RequestSkipWaiting];
      case GetVersion =>
        effects := [PostReply(Version(CACHE_NAME, now))];
      case CacheUrls(urls) =>
        cs.Open(CACHE_NAME);
        var ok := cs.AddAll(CACHE_NAME, urls, net);
        effects := [PostReply(CacheResult(ok))];
      case FirebaseMessaging(m) =>
        var shown := FirebaseNotification(m, now);
        if shown.Some? {
          effects := [Show(shown.value)];
        }
      case Ignored =>
    }
  }

  /** The background tasks the worker can run. */
  datatype BackgroundTask = UpdatePrayerTimes | UpdateQuranData

  /** The sync tag under which each task is registered. */
  function TaskTag(t: BackgroundTask): string
  {
    match t
    case UpdatePrayerTimes => "update-prayer-times"
    case UpdateQuranData => "update-quran-data"
  }

  /** The `sync` handler: the task a one-shot sync runs, if its tag names one. */
  function SyncTask(tag: string): (r: Option<BackgroundTask>)
    ensures r.Some? ==> TaskTag(r.value) == tag
    ensures r.None? ==> forall t: BackgroundTask :: TaskTag(t) != tag
  {
    if tag == "update-prayer-times" then Some(UpdatePrayerTimes)
    else if tag == "update-quran-data" then Some(UpdateQuranData)
    else None
  }

  /** Every task is reached by its own tag, so the two tables are inverse. */
  lemma SyncTagRoundTrip(t: BackgroundTask)
    ensures SyncTask(TaskTag(t)) == Some(t)
  {
  }

  /** The periodic jobs the worker can run. */
  datatype PeriodicJob = UpdateContent

  /** The `periodicsync` handler: the job a periodic sync runs, if its tag names one. */
  function PeriodicJobFor(tag: string): (r: Option<PeriodicJob>)
    ensures r.Some? <==> tag == "update-content"
  {
    if tag == "update-content" then Some(UpdateContent) else None
  }

  /** `updateAppContent`: the tasks a periodic job starts together: every task, each once. */
  function JobTasks(j: PeriodicJob): (r: seq<BackgroundTask>)
    ensures UpdatePrayerTimes in r && UpdateQuranData in r
    ensures |r| == 2 && r[0] != r[1]
  {
    match j
    case UpdateContent => [UpdatePrayerTimes, UpdateQuranData]
  }

  /** A periodic content update runs exactly the tasks of the two one-shot sync tags, each once. */
  lemma PeriodicCoversSync()
    ensures JobTasks(PeriodicJobFor("update-content").value)
            == [SyncTask("update-prayer-times").value, SyncTask("update-quran-data").value]
  {
  }
}
