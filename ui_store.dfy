/** The connectivity flags of the UI slice of the store, with the log of `updateUi` dispatches. */
module Ui {

  /** One `updateUi` call, setting a single flag. */
  datatype UiUpdate = SetElectrumConnected(isConnectedToElectrum: bool) | SetOnline(isOnline: bool)

  class UiStore {
    var isOnline: bool
    var isConnectedToElectrum: bool
    /** Every update dispatched so far, oldest first. */
    var updates: seq<UiUpdate>

    constructor (isOnline: bool, isConnectedToElectrum: bool)
      ensures this.isOnline == isOnline && this.isConnectedToElectrum == isConnectedToElectrum
      ensures updates == []
    {
      this.isOnline := isOnline;
      this.isConnectedToElectrum := isConnectedToElectrum;
      updates := [];
    }

    /** `updateUi`: set the named flag and leave the other as it was. */
    method UpdateUi(u: UiUpdate)
      modifies this
      ensures updates == old(updates) + [u]
      ensures u.SetElectrumConnected? ==>
        isConnectedToElectrum == u.isConnectedToElectrum && isOnline == old(isOnline)
      ensures u.SetOnline? ==>
        isOnline == u.isOnline && isConnectedToElectrum == old(isConnectedToElectrum)
    {
      match u {
        case SetElectrumConnected(v) => isConnectedToElectrum := v;
        case SetOnline(v) => isOnline := v;
      }
      updates := updates + [u];
    }
  }
}
