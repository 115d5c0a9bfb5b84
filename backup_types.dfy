/** The backup slice of the store (`TBackupState`); an optional number is `None` when undefined. */
module BackupTypes {
  import opened Common

  datatype BackupState = BackupState(
    // remote backups
    remoteBackupsEnabled: bool,
    remoteLdkBackupSynced: bool,
    remoteLdkBackupLastSync: Option<int>,
    remoteLdkBackupLastSyncRequired: Option<int>,
    remoteSettingsBackupSynced: bool,
    remoteSettingsBackupLastSync: Option<int>,
    remoteSettingsBackupSyncRequired: Option<int>,
    remoteWidgetsBackupSynced: bool,
    remoteWidgetsBackupLastSync: Option<int>,
    remoteWidgetsBackupSyncRequired: Option<int>,
    remoteMetadataBackupSynced: bool,
    remoteMetadataBackupLastSync: Option<int>,
    remoteMetadataBackupSyncRequired: Option<int>,
    remoteLdkActivityBackupSynced: bool,
    remoteLdkActivityBackupLastSync: Option<int>,
    remoteLdkActivityBackupSyncRequired: Option<int>,
    remoteBlocktankBackupSynced: bool,
    remoteBlocktankBackupLastSync: Option<int>,
    remoteBlocktankBackupSyncRequired: Option<int>,
    remoteSlashtagsBackupSynced: bool,
    remoteSlashtagsBackupLastSync: Option<int>,
    remoteSlashtagsBackupSyncRequired: Option<int>,
    // hyperdrives
    hyperProfileSeedCheckSuccess: Option<int>,
    hyperProfileCheckRequested: Option<int>,
    hyperContactsCheckSuccess: Option<int>,
    hyperContactsCheckRequested: Option<int>,
    // iCloud
    iCloudBackupsEnabled: bool,
    iCloudLdkBackupsSynced: bool,
    iCloudLdkBackupLastSync: Option<int>,
    // Google Drive
    gDriveBackupsEnabled: bool,
    gDriveLdkBackupsSynced: bool,
    gDriveLdkBackupLastSync: Option<int>)
}
