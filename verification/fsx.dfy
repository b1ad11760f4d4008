/** The parts of the Amazon FSx API that the finder, the status probes, the
    waiters and the Windows file system resource read: the records the
    DescribeFileSystems operation returns and the enumeration values the
    provider compares against. */
module Fsx {
  import opened AwsBase

  /** Error code of the FileSystemNotFound exception. */
  const ErrCodeFileSystemNotFound: string := "FileSystemNotFound"

  // FileSystemLifecycle values
  const FileSystemLifecycleAvailable: string := "AVAILABLE"
  const FileSystemLifecycleCreating: string := "CREATING"
  const FileSystemLifecycleDeleting: string := "DELETING"
  const FileSystemLifecycleUpdating: string := "UPDATING"

  // AliasLifecycle values
  const AliasLifecycleAvailable: string := "AVAILABLE"
  const AliasLifecycleCreating: string := "CREATING"
  const AliasLifecycleDeleting: string := "DELETING"

  // Status values of an administrative action
  const StatusCompleted: string := "COMPLETED"
  const StatusInProgress: string := "IN_PROGRESS"
  const StatusPending: string := "PENDING"
  const StatusUpdatedOptimizing: string := "UPDATED_OPTIMIZING"

  // AdministrativeActionType value the status probe looks for
  const AdministrativeActionTypeFileSystemUpdate: string := "FILE_SYSTEM_UPDATE"

  datatype Alias = Alias(name: Option<string>, lifecycle: Option<string>)

  datatype AdministrativeAction =
    AdministrativeAction(administrativeActionType: Option<string>, status: Option<string>)

  /** What the API reports about a self-managed Active Directory; it never
      reports the password. */
  datatype SelfManagedActiveDirectoryAttributes = SelfManagedActiveDirectoryAttributes(
    dnsIps: seq<string>,
    domainName: Option<string>,
    fileSystemAdministratorsGroup: Option<string>,
    organizationalUnitDistinguishedName: Option<string>,
    userName: Option<string>)

  datatype WindowsConfiguration = WindowsConfiguration(
    aliases: Option<seq<Alias>>,
    selfManagedActiveDirectoryConfiguration: Option<SelfManagedActiveDirectoryAttributes>)

  datatype LustreConfiguration = LustreConfiguration(deploymentType: Option<string>)

  datatype FileSystem = FileSystem(
    fileSystemId: Option<string>,
    lifecycle: Option<string>,
    windowsConfiguration: Option<WindowsConfiguration>,
    lustreConfiguration: Option<LustreConfiguration>,
    administrativeActions: seq<Option<AdministrativeAction>>)
}
