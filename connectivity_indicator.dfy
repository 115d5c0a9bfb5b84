/** The banner shown while the app is offline or not connected to its Electrum server, with its retry button. */
module ConnectivityIndicator {
  import opened Ui
  import AppStatus

  /** The banner renders (as opposed to the empty fragment) unless both online and connected. */
  function IndicatorVisible(isOnline: bool, isConnectedToElectrum: bool): (r: bool)
    ensures !r <==> isOnline && isConnectedToElectrum
    ensures !r <==>
      AppStatus.InternetState(isOnline) == AppStatus.Ready
      && AppStatus.BitcoinNodeState(isOnline, isConnectedToElectrum) == AppStatus.Ready
  {
    if isOnline && isConnectedToElectrum then false else true
  }

  /** The retry button is part of the banner when online but not connected. */
  function RetryOffered(isOnline: bool, isConnectedToElectrum: bool): (r: bool)
    ensures r <==> isOnline && !isConnectedToElectrum
    ensures r <==> IndicatorVisible(isOnline, isConnectedToElectrum) && isOnline
    ensures r <==>
      AppStatus.BitcoinNodeState(isOnline, isConnectedToElectrum) == AppStatus.Pending
  {
    isOnline && !isConnectedToElectrum
  }

  /** A retry is only ever offered on a visible banner; offline, the banner shows without one. */
  lemma RetryOnlyOnVisibleBanner(isOnline: bool, isConnectedToElectrum: bool)
    ensures RetryOffered(isOnline, isConnectedToElectrum) ==> IndicatorVisible(isOnline, isConnectedToElectrum)
    ensures !isOnline ==> IndicatorVisible(isOnline, isConnectedToElectrum) && !RetryOffered(isOnline, isConnectedToElectrum)
  {
  }

  datatype Toast = ConnectionRestored | ConnectionLost

  class ConnectivityIndicator {
    const ui: UiStore
    var isLoading: bool
    /** Toasts shown so far, oldest first. */
    var toasts: seq<Toast>

    constructor (ui: UiStore)
      ensures this.ui == ui && !isLoading && toasts == []
    {
      this.ui := ui;
      isLoading := false;
      toasts := [];
    }

    /** The first step of `onRetry`, before the connection attempt is awaited. */
    method BeginRetry()
      modifies this
      ensures isLoading
      ensures toasts == old(toasts)
    {
      isLoading := true;
    }

    /** The rest of `onRetry`, given whether `connectToElectrum` succeeded. */
    method FinishRetry(connected: bool)
      modifies this, ui
      ensures !isLoading
      ensures connected ==> ui.isConnectedToElectrum && ui.updates == old(ui.updates) + [SetElectrumConnected(true)]
      ensures connected ==> toasts == old(toasts) + [ConnectionRestored]
      ensures !connected ==> ui.updates == old(ui.updates) && toasts == old(toasts) + [ConnectionLost]
      ensures !connected ==> ui.isConnectedToElectrum == old(ui.isConnectedToElectrum)
      ensures ui.isOnline == old(ui.isOnline)
    {
      if connected {
        ui.UpdateUi(SetElectrumConnected(true));
        toasts := toasts + [ConnectionRestored];
      } else {
        toasts := toasts + [ConnectionLost];
      }
      isLoading := false;
    }
  }
}
