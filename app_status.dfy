/**
  The app-status screen: readiness of internet, Bitcoin node, Lightning node
  and Lightning connection, and the verdict on the remote backups.
*/
module AppStatus {
  import opened Common
  import opened LdkTypes
  import opened BackupTypes
  import ChannelsScreen

  datatype ItemState = Ready | Pending | Error

  // ---------------------------------------------------------------------
  // Readiness

  /** `internetState` */
  function InternetState(isOnline: bool): (r: ItemState)
    ensures r == Ready <==> isOnline
    ensures r == Error <==> !isOnline
    ensures r != Pending
  {
    if isOnline then Ready else Error
  }

  /** `bitcoinNodeState`: an Electrum connection is enough for ready, even when offline. */
  function BitcoinNodeState(isOnline: bool, isConnectedToElectrum: bool): (r: ItemState)
    ensures r == Pending <==> isOnline && !isConnectedToElectrum
    ensures r == Ready <==> isConnectedToElectrum
    ensures r == Error <==> !isOnline && !isConnectedToElectrum
  {
    if isOnline && !isConnectedToElectrum then Pending
    else if isConnectedToElectrum then Ready
    else Error
  }

  /** The three states the node passes through as the flags change one at a time. */
  lemma BitcoinNodeExample()
    ensures BitcoinNodeState(true, false) == Pending
    ensures BitcoinNodeState(true, true) == Ready
    ensures BitcoinNodeState(false, true) == Ready
    ensures BitcoinNodeState(false, false) == Error
  {
  }

  /** `lightningNodeState` */
  function LightningNodeState(isLDKReady: bool): (r: ItemState)
    ensures r == Ready <==> isLDKReady
    ensures r == Error <==> !isLDKReady
    ensures r != Pending
  {
    if isLDKReady then Ready else Error
  }

  /** `lightningConnectionState`: open channels win; else pending channels or created paid orders. */
  function LightningConnectionState(openChannels: seq<Channel>, pendingChannels: seq<Channel>,
                                    createdPaidOrders: map<string, ChannelsScreen.Order>): (r: ItemState)
    ensures r == Ready <==> |openChannels| > 0
    ensures r == Pending <==> |openChannels| == 0 && (|pendingChannels| > 0 || |createdPaidOrders.Keys| > 0)
    ensures r == Error <==> |openChannels| == 0 && |pendingChannels| == 0 && createdPaidOrders == map[]
  {
    if |openChannels| > 0 then Ready
    else if |pendingChannels| > 0 || |createdPaidOrders.Keys| > 0 then Pending
    else Error
  }

  // ---------------------------------------------------------------------
  // Backup staleness

  /**
    `isSyncOk`: a sync-required time that is undefined or 0 (falsy) means nothing to
    sync; otherwise it is fine while less than `failedBackupCheckTime` has passed.
  */
  function IsSyncOk(syncRequired: Option<int>, now: int, failedBackupCheckTime: int): (r: bool)
    ensures !r <==> syncRequired.Some? && syncRequired.value != 0 && now - syncRequired.value >= failedBackupCheckTime
  {
    match syncRequired
    case None => true
    case Some(key) => if key != 0 then now - key < failedBackupCheckTime else true
  }

  /** The six sync-required times the screen consults, in the order it consults them. */
  function SyncRequiredTimes(b: BackupState): (r: seq<Option<int>>)
    ensures |r| == 6
  {
    [b.remoteLdkBackupLastSyncRequired, b.remoteLdkActivityBackupSyncRequired,
     b.remoteBlocktankBackupSyncRequired, b.remoteSettingsBackupSyncRequired,
     b.remoteMetadataBackupSyncRequired, b.remoteWidgetsBackupSyncRequired]
  }

  /** The six last-sync times, in the same order. */
  function LastSyncTimes(b: BackupState): (r: seq<Option<int>>)
    ensures |r| == 6
  {
    [b.remoteLdkBackupLastSync, b.remoteLdkActivityBackupLastSync,
     b.remoteBlocktankBackupLastSync, b.remoteSettingsBackupLastSync,
     b.remoteMetadataBackupLastSync, b.remoteWidgetsBackupLastSync]
  }

  /**
    The threshold of one target: a target needing a sync since a non-zero time
    `t` is in sync strictly before `t + failedBackupCheckTime` and stale from then
    on; a target needing no sync (undefined or 0) is in sync at every time.
  */
  lemma SyncOkThreshold(t: int, now: int, failedBackupCheckTime: int)
    ensures t != 0 ==> (IsSyncOk(Some(t), now, failedBackupCheckTime) <==> now < t + failedBackupCheckTime)
    ensures IsSyncOk(None, now, failedBackupCheckTime) && IsSyncOk(Some(0), now, failedBackupCheckTime)
  {
  }

  /** `isBackupSyncOk` */
  function IsBackupSyncOk(b: BackupState, now: int, failedBackupCheckTime: int): (r: bool)
    ensures r <==> forall t :: t in SyncRequiredTimes(b) && t.Some? && t.value != 0 ==>
      now - t.value < failedBackupCheckTime
  {
    && IsSyncOk(b.remoteLdkBackupLastSyncRequired, now, failedBackupCheckTime)
    && IsSyncOk(b.remoteLdkActivityBackupSyncRequired, now, failedBackupCheckTime)
    && IsSyncOk(b.remoteBlocktankBackupSyncRequired, now, failedBackupCheckTime)
    && IsSyncOk(b.remoteSettingsBackupSyncRequired, now, failedBackupCheckTime)
    && IsSyncOk(b.remoteMetadataBackupSyncRequired, now, failedBackupCheckTime)
    && IsSyncOk(b.remoteWidgetsBackupSyncRequired, now, failedBackupCheckTime)
  }

  /** The backups are in sync iff none of the six targets is stale. */
  lemma BackupSyncOkIffNoStaleTarget(b: BackupState, now: int, failedBackupCheckTime: int)
    ensures IsBackupSyncOk(b, now, failedBackupCheckTime) <==>
      forall i :: 0 <= i < 6 ==> IsSyncOk(SyncRequiredTimes(b)[i], now, failedBackupCheckTime)
  {
    var ts := SyncRequiredTimes(b);
    if IsBackupSyncOk(b, now, failedBackupCheckTime) {
      forall i | 0 <= i < 6 ensures IsSyncOk(ts[i], now, failedBackupCheckTime) {
      }
    } else {
      assert !IsSyncOk(ts[0], now, failedBackupCheckTime) || !IsSyncOk(ts[1], now, failedBackupCheckTime)
          || !IsSyncOk(ts[2], now, failedBackupCheckTime) || !IsSyncOk(ts[3], now, failedBackupCheckTime)
          || !IsSyncOk(ts[4], now, failedBackupCheckTime) || !IsSyncOk(ts[5], now, failedBackupCheckTime);
    }
  }

  /** The slashtags target is not consulted. */
  lemma SlashtagsNotConsulted(b: BackupState, t: Option<int>, now: int, failedBackupCheckTime: int)
    ensures IsBackupSyncOk(b.(remoteSlashtagsBackupSyncRequired := t), now, failedBackupCheckTime)
        == IsBackupSyncOk(b, now, failedBackupCheckTime)
  {
  }

  /** Going back in time never makes a healthy backup stale. */
  lemma SyncOkMonotone(b: BackupState, n1: int, n2: int, failedBackupCheckTime: int)
    requires n1 <= n2 && IsBackupSyncOk(b, n2, failedBackupCheckTime)
    ensures IsBackupSyncOk(b, n1, failedBackupCheckTime)
  {
  }

  /**
    With a threshold of 1000 and one target requiring sync since `t0` (not 0): healthy
    999 later, stale 1000 later, healthy again at any time once the requirement clears.
  */
  lemma StalenessExample(b: BackupState, t0: int, now: int)
    requires t0 != 0 && b.remoteLdkBackupLastSyncRequired == Some(t0)
    requires forall i :: 1 <= i < 6 ==> SyncRequiredTimes(b)[i].None?
    ensures IsBackupSyncOk(b, t0 + 999, 1000)
    ensures !IsBackupSyncOk(b, t0 + 1000, 1000)
    ensures IsBackupSyncOk(b.(remoteLdkBackupLastSyncRequired := None), now, 1000)
  {
    var ts := SyncRequiredTimes(b);
    assert ts[1].None? && ts[2].None? && ts[3].None? && ts[4].None? && ts[5].None?;
  }

  /** `Math.max` over the defined times; `None` stands for the `-Infinity` of an empty list. */
  function MaxDefined(ts: seq<Option<int>>): (r: Option<int>)
    ensures r.None? <==> forall i :: 0 <= i < |ts| ==> ts[i].None?
    ensures r.Some? ==> exists i :: 0 <= i < |ts| && ts[i] == r
    ensures r.Some? ==> forall i :: 0 <= i < |ts| && ts[i].Some? ==> ts[i].value <= r.value
  {
    if ts == [] then None
    else
      var rest := MaxDefined(ts[1..]);
      match ts[0]
      case None => rest
      case Some(t) =>
        match rest
        case None => Some(t)
        case Some(m) => if t >= m then Some(t) else Some(m)
  }

  /** The full-backup verdict: error while any target is stale, else ready with the latest sync time. */
  datatype BackupVerdict = BackupError | BackupReady(lastSync: Option<int>)

  /** `fullBackupState`, with the time the subtitle formats instead of the formatted text. */
  function FullBackupState(b: BackupState, now: int, failedBackupCheckTime: int): (r: BackupVerdict)
    ensures r.BackupError? <==> !IsBackupSyncOk(b, now, failedBackupCheckTime)
    ensures r.BackupReady? ==> r.lastSync == MaxDefined(LastSyncTimes(b))
    ensures r.BackupReady? && r.lastSync.Some? ==>
      forall i :: 0 <= i < 6 && LastSyncTimes(b)[i].Some? ==> LastSyncTimes(b)[i].value <= r.lastSync.value
    ensures r.BackupReady? ==> (r.lastSync.None? <==> forall i :: 0 <= i < 6 ==> LastSyncTimes(b)[i].None?)
  {
    if !IsBackupSyncOk(b, now, failedBackupCheckTime) then BackupError
    else BackupReady(MaxDefined(LastSyncTimes(b)))
  }
}
