/**
 * The fixed configuration of the worker: the one cache namespace of this
 * release, the application shell it seeds, and the literals used as defaults
 * in the notifications it shows.
 */
module Config {
  /** The name of the current cache namespace; bumping it invalidates older ones. */
  const CACHE_NAME: string := "ramadan-app-v1.5"

  /** The application shell and icons stored at install, in this order. */
  const URLS_TO_CACHE: seq<string> := [
    "./",
    "./index.html",
    "./manifest.json",
    "./icons/icon-72.png",
    "./icons/icon-96.png",
    "./icons/icon-128.png",
    "./icons/icon-144.png",
    "./icons/icon-152.png",
    "./icons/icon-192.png",
    "./icons/icon-384.png",
    "./icons/icon-512.png"
  ]

  /** The cached document served to a navigation that the network cannot answer. */
  const OFFLINE_DOCUMENT: string := "./index.html"

  /** The window opened when a notification carries no target URL. */
  const ROOT_URL: string := "./"

  const APP_TITLE: string := "Путь к Рамадану"
  const DEFAULT_BODY: string := "Новое уведомление"
  const ICON: string := "./icons/icon-192.png"
  const BADGE: string := "./icons/icon-72.png"
  /** The icon of the `open` and `dismiss` buttons of a push notification. */
  const ACTION_ICON: string := "./icons/icon-72.png"
  const PUSH_TAG: string := "ramadan-notification"
  const FIREBASE_TAG: string := "firebase-notification"
  const PRIMARY_KEY: string := "2"
  const VIBRATE: seq<nat> := [200, 100, 200, 100, 200]
  const OPEN_TITLE: string := "Открыть приложение"
  const DISMISS_TITLE: string := "Закрыть"
}
