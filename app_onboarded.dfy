/**
  The root of the onboarded app: its handlers for Electrum connection events,
  network-reachability events and app-state changes.
*/
module AppOnboarded {
  import opened Common
  import opened Ui

  /** React Native's app states. */
  datatype AppStateStatus = Active | Background | Inactive | Unknown | Extension

  /** `appState.current.match(/inactive|background/)` */
  predicate InactiveOrBackground(s: AppStateStatus) {
    s == Inactive || s == Background
  }

  datatype Notification = BackOnline | ConnectivityIssues

  // ---------------------------------------------------------------------
  // Decisions of the handlers

  /** The update the Electrum handler dispatches: one only on a change of the flag. */
  function ElectrumUpdate(isConnectedToElectrum: bool, isConnected: bool): (u: Option<UiUpdate>)
    ensures u.Some? <==> isConnectedToElectrum != isConnected
    ensures u.Some? ==> u.value == SetElectrumConnected(isConnected)
  {
    if !isConnectedToElectrum && isConnected then Some(SetElectrumConnected(isConnected))
    else if isConnectedToElectrum && !isConnected then Some(SetElectrumConnected(isConnected))
    else None
  }

  /** NetInfo's `isConnected` is `true`, `false` or `null` (`None`); only `true` is truthy. */
  predicate Truthy(isConnected: Option<bool>) {
    isConnected == Some(true)
  }

  /** The notification the NetInfo handler raises: success only when coming back, error on every offline event. */
  function NetInfoNotification(isOnline: bool, isConnected: Option<bool>): (n: Option<Notification>)
    ensures n == Some(BackOnline) <==> Truthy(isConnected) && !isOnline
    ensures n == Some(ConnectivityIssues) <==> !Truthy(isConnected)
    ensures n.None? <==> Truthy(isConnected) && isOnline
  {
    if Truthy(isConnected) then
      if isOnline != true then Some(BackOnline) else None
    else Some(ConnectivityIssues)
  }

  /** Whether an app-state change schedules a clipboard read. */
  function ReadsClipboard(current: AppStateStatus, next: AppStateStatus, enableAutoReadClipboard: bool): (r: bool)
    ensures r <==> enableAutoReadClipboard && next == Active && (current == Inactive || current == Background)
  {
    if InactiveOrBackground(current) && next == Active then enableAutoReadClipboard else false
  }

  /**
    A clipboard read belongs to a return to the foreground: it needs auto-read
    on and a change of state into `active`, so two consecutive app-state
    events never both read.
  */
  lemma ClipboardReadOncePerForeground(current: AppStateStatus, next: AppStateStatus, after: AppStateStatus,
                                       enableAutoReadClipboard: bool)
    ensures ReadsClipboard(current, next, enableAutoReadClipboard) ==>
      enableAutoReadClipboard && current != next && !ReadsClipboard(next, after, enableAutoReadClipboard)
    ensures !ReadsClipboard(current, next, false)
    ensures !ReadsClipboard(Active, next, enableAutoReadClipboard)
  {
  }

  /** Repeated offline events raise the error every time; repeated online events raise the success only once. */
  lemma NotificationEdges(isConnected: Option<bool>)
    ensures !Truthy(isConnected) ==>
      NetInfoNotification(false, isConnected) == NetInfoNotification(true, isConnected) == Some(ConnectivityIssues)
    ensures NetInfoNotification(true, Some(true)).None?
  {
  }

  // ---------------------------------------------------------------------
  // The component's state and handlers

  class AppOnboarded {
    const ui: UiStore
    const enableAutoReadClipboard: bool
    /** `appState.current` */
    var appState: AppStateStatus
    /** Notifications shown so far, oldest first. */
    var notifications: seq<Notification>
    /** Clipboard reads scheduled so far. */
    var clipboardReads: nat

    constructor (ui: UiStore, appState: AppStateStatus, enableAutoReadClipboard: bool)
      ensures this.ui == ui && this.appState == appState
      ensures this.enableAutoReadClipboard == enableAutoReadClipboard
      ensures notifications == []
      ensures clipboardReads == if enableAutoReadClipboard then 1 else 0
    {
      this.ui := ui;
      this.appState := appState;
      this.enableAutoReadClipboard := enableAutoReadClipboard;
      notifications := [];
      // the mount effect reads the clipboard once when auto-read is on
      clipboardReads := if enableAutoReadClipboard then 1 else 0;
    }

    /** The Electrum subscription: reports `isConnected`; the flag ends equal to it. */
    method OnElectrumEvent(isConnected: bool)
      modifies ui
      ensures ui.isConnectedToElectrum == isConnected
      ensures ui.isOnline == old(ui.isOnline)
      ensures ui.updates == old(ui.updates) +
        (match ElectrumUpdate(old(ui.isConnectedToElectrum), isConnected)
         case Some(u) => [u]
         case None => [])
    {
      var isConnectedToElectrum := ui.isConnectedToElectrum;
      if !isConnectedToElectrum && isConnected {
        ui.UpdateUi(SetElectrumConnected(isConnected));
      }
      if isConnectedToElectrum && !isConnected {
        ui.UpdateUi(SetElectrumConnected(isConnected));
      }
    }

    /** The NetInfo listener: sets `isOnline` and raises a notification as `NetInfoNotification` says. */
    method OnNetInfoEvent(isConnected: Option<bool>)
      modifies this, ui
      ensures ui.isOnline == Truthy(isConnected)
      ensures ui.isConnectedToElectrum == old(ui.isConnectedToElectrum)
      ensures ui.updates == old(ui.updates) + [SetOnline(Truthy(isConnected))]
      ensures notifications == old(notifications) +
        (match NetInfoNotification(old(ui.isOnline), isConnected)
         case Some(n) => [n]
         case None => [])
      ensures appState == old(appState) && clipboardReads == old(clipboardReads)
    {
      var isOnline := ui.isOnline;
      if isConnected == Some(true) {
        if isOnline != true {
          notifications := notifications + [BackOnline];
        }
        ui.UpdateUi(SetOnline(true));
      } else {
        notifications := notifications + [ConnectivityIssues];
        ui.UpdateUi(SetOnline(false));
      }
    }

    /** The AppState listener: maybe schedules a clipboard read, then records the new state. */
    method OnAppStateChange(nextAppState: AppStateStatus)
      modifies this
      ensures appState == nextAppState
      ensures clipboardReads == old(clipboardReads) +
        (if ReadsClipboard(old(appState), nextAppState, enableAutoReadClipboard) then 1 else 0)
      ensures notifications == old(notifications)
    {
      if InactiveOrBackground(appState) && nextAppState == Active {
        if enableAutoReadClipboard {
          clipboardReads := clipboardReads + 1;
        }
      }
      appState := nextAppState;
    }
  }
}
