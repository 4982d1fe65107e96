/**
 * The `notificationclick` handler: close the notification, then focus an
 * open window of the app or open a new one, depending on the button.
 */
module Click {
  import opened Wrappers
  import opened Text
  import opened Config

  /** A window client: its URL and whether it has a `focus` method. */
  datatype Client = Client(url: string, focusable: bool)

  /** What the handler asks of the platform, in order. */
  datatype ClickEffect = CloseNotification | Focus(index: nat) | OpenWindow(url: string)

  predicate Opens(action: string)
  {
    action == "open" || action == "explore"
  }

  predicate Dismisses(action: string)
  {
    action == "dismiss" || action == "close"
  }

  /** A client the `open` button may focus: one of this app's windows. */
  predicate Focusable(c: Client, origin: string)
  {
    Contains(c.url, origin) && c.focusable
  }

  /**
   * Route a click. `clients` is the window list (uncontrolled ones
   * included), `origin` is `self.location.origin`, `dataUrl` is the
   * notification's `data.url`, and `canOpenWindow` says whether
   * `clients.openWindow` exists.
   */
  method RouteClick(action: string, clients: seq<Client>, origin: string, dataUrl: Option<string>, canOpenWindow: bool)
    returns (effects: seq<ClickEffect>)
    ensures |effects| >= 1 && effects[0] == CloseNotification
    ensures Opens(action) ==>
              forall i :: 0 <= i < |clients| && Focusable(clients[i], origin)
                          && (forall j :: 0 <= j < i ==> !Focusable(clients[j], origin)) ==>
                effects == [CloseNotification, Focus(i)]
    ensures Opens(action) && (forall i :: 0 <= i < |clients| ==> !Focusable(clients[i], origin)) ==>
              effects == if canOpenWindow then [CloseNotification, OpenWindow(Or(dataUrl, ROOT_URL))] else [CloseNotification]
    ensures Dismisses(action) ==> effects == [CloseNotification]
    // A click on the body calls `clients.openWindow` unguarded; without it the call throws and nothing opens.
    ensures !Opens(action) && !Dismisses(action) ==>
              effects == if canOpenWindow then [CloseNotification, OpenWindow(Or(dataUrl, ROOT_URL))] else [CloseNotification]
  {
    effects := [CloseNotification];
    if Opens(action) {
      var i := 0;
      while i < |clients|
        invariant 0 <= i <= |clients|
        invariant forall j :: 0 <= j < i ==> !Focusable(clients[j], origin)
      {
        if Focusable(clients[i], origin) {
          // Every earlier client was passed over, so `i` is the first focusable one.
          assert forall k :: (0 <= k < |clients| && Focusable(clients[k], origin)
                              && forall j :: 0 <= j < k ==> !Focusable(clients[j], origin)) ==> k == i;
          return effects + [Focus(i)];
        }
        i := i + 1;
      }
      if canOpenWindow {
        effects := effects + [OpenWindow(Or(dataUrl, ROOT_URL))];
      }
    } else if Dismisses(action) {
      // Closing the notification is all a dismissal does.
    } else if canOpenWindow {
      effects := effects + [OpenWindow(Or(dataUrl, ROOT_URL))];
    }
  }
}
