/**
 * The notification descriptors the worker builds: one for a push message,
 * one for a Firebase background message. Every property read from a
 * payload uses JavaScript's `||`, so an absent or empty value takes the
 * default.
 */
module Notifications {
  import opened Wrappers
  import opened Text
  import opened Config

  datatype Action = Action(action: string, title: string, icon: string)

  /** The `data` attached to a notification; `primaryKey` is absent for Firebase messages. */
  datatype NotificationData = NotificationData(url: string, timestamp: int, primaryKey: Option<string>)

  /**
   * A title plus the options passed to `showNotification`. An empty
   * `vibrate` or `actions`, and a None `body` or `silent`, stand for an
   * option that is not set.
   */
  datatype Notification = Notification(
    title: string,
    body: Option<string>,
    icon: string,
    badge: string,
    tag: string,
    vibrate: seq<nat>,
    requireInteraction: bool,
    silent: Option<bool>,
    data: NotificationData,
    actions: seq<Action>)

  /** The properties of a parsed push payload that the worker reads. */
  datatype PushFields = PushFields(
    title: Option<string>,
    body: Option<string>,
    icon: Option<string>,
    badge: Option<string>,
    tag: Option<string>,
    url: Option<string>)

  /** A push event: no data, data that parses as a JSON object, or data that does not parse (kept as text). */
  datatype PushInput = NoData | Json(fields: PushFields) | PlainText(raw: string)

  /** The two buttons every push notification carries. */
  const PUSH_ACTIONS: seq<Action> := [Action("open", OPEN_TITLE, ACTION_ICON), Action("dismiss", DISMISS_TITLE, ACTION_ICON)]

  /** The payload object the handler works with: the parsed JSON, or a stand-in wrapping the text. */
  function PushPayload(input: PushInput): (d: Option<PushFields>)
    ensures d.None? <==> input.NoData?
    ensures input.Json? ==> d == Some(input.fields)
    ensures input.PlainText? ==> d.value.body == Some(input.raw) && d.value.title == Some(APP_TITLE)
                                 && d.value.icon == Some(ICON) && d.value.badge == Some(BADGE)
                                 && d.value.tag.None? && d.value.url.None?
  {
    match input
    case NoData => None
    case Json(f) => Some(f)
    case PlainText(t) => Some(PushFields(Some(APP_TITLE), Some(t), Some(ICON), Some(BADGE), None, None))
  }

  /** The options every push notification shares, whatever its payload. */
  predicate FixedPushOptions(n: Notification, now: int)
  {
    && n.body.Some?
    && n.vibrate == VIBRATE
    && n.requireInteraction
    && n.silent == Some(false)
    && n.data.timestamp == now
    && n.data.primaryKey == Some(PRIMARY_KEY)
    && n.actions == PUSH_ACTIONS
  }

  /** The notification a push event shows, if any; `now` stands for `Date.now()`. */
  function PushNotification(input: PushInput, now: int): (r: Option<Notification>)
    ensures r.None? <==> input.NoData?
    ensures r.Some? ==> FixedPushOptions(r.value, now)
    ensures input.Json? ==>
              var f := input.fields;
              && r.value.title == Or(f.title, APP_TITLE)
              && r.value.body == Some(Or(f.body, DEFAULT_BODY))
              && r.value.icon == Or(f.icon, ICON)
              && r.value.badge == Or(f.badge, BADGE)
              && r.value.tag == Or(f.tag, PUSH_TAG)
              && r.value.data.url == Or(f.url, ROOT_URL)
    ensures input.PlainText? ==>
              && r.value.title == APP_TITLE
              && r.value.body == Some(if input.raw == "" then DEFAULT_BODY else input.raw)
              && r.value.icon == ICON && r.value.badge == BADGE
              && r.value.tag == PUSH_TAG && r.value.data.url == ROOT_URL
  {
    match PushPayload(input)
    case None => None
    case Some(d) =>
      Some(Notification(
        Or(d.title, APP_TITLE),
        Some(Or(d.body, DEFAULT_BODY)),
        Or(d.icon, ICON),
        Or(d.badge, BADGE),
        Or(d.tag, PUSH_TAG),
        VIBRATE,
        true,
        Some(false),
        NotificationData(Or(d.url, ROOT_URL), now, Some(PRIMARY_KEY)),
        PUSH_ACTIONS))
  }

  /** The payload fields that the push handler would read back from a notification it built. */
  function FieldsOf(n: Notification): PushFields
  {
    PushFields(Some(n.title), n.body, Some(n.icon), Some(n.badge), Some(n.tag), Some(n.data.url))
  }

  /**
   * Normalisation is idempotent: a payload that already spells out every
   * field of a push notification yields that same notification.
   */
  lemma PushNormalisationIdempotent(input: PushInput, now: int)
    requires !input.NoData?
    ensures PushNotification(Json(FieldsOf(PushNotification(input, now).value)), now) == PushNotification(input, now)
  {
  }

  /** A message forwarded from the page's Firebase client. */
  datatype FirebaseMessage = FirebaseMessage(action: Option<string>, title: Option<string>, body: Option<string>, url: Option<string>)

  /**
   * `handleFirebaseMessage`: only a background message shows a notification.
   * Its body is passed through as given, without a default.
   */
  function FirebaseNotification(m: FirebaseMessage, now: int): (r: Option<Notification>)
    ensures r.Some? <==> m.action == Some("BACKGROUND_MESSAGE")
    ensures r.Some? ==>
              && r.value.title == Or(m.title, APP_TITLE)
              && r.value.body == m.body
              && r.value.icon == ICON && r.value.badge == BADGE && r.value.tag == FIREBASE_TAG
              && r.value.requireInteraction
              && r.value.data == NotificationData(Or(m.url, ROOT_URL), now, None)
              && r.value.vibrate == [] && r.value.silent.None? && r.value.actions == []
  {
    if m.action == Some("BACKGROUND_MESSAGE") then
      Some(Notification(
        Or(m.title, APP_TITLE),
        m.body,
        ICON,
        BADGE,
        FIREBASE_TAG,
        [],
        true,
        None,
        NotificationData(Or(m.url, ROOT_URL), now, None),
        []))
    else None
  }
}
