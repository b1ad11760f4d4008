/** The FSx status probes (`resource.StateRefreshFunc`s): each turns the
    finder's result into a (result, label, error) triple for the poll loop.
    A probe here takes the finder's result for one poll as its input. */
module FsxStatus {
  import opened AwsBase
  import opened Fsx
  import opened FsxFinder
  import opened StateChange

  const FileSystemStatusNotFound: string := "NotFound"
  const FileSystemStatusUnknown: string := "Unknown"
  const FileSystemWindowsAliasStatusNotFound: string := "NotFound"

  /** The dynamic types a probe's untyped result can hold. The alias probe
      reports the alias id string, never an `*fsx.Alias`; AliasValue is the
      type the alias waiters look for. */
  datatype Raw =
    | FileSystemValue(fileSystem: FileSystem)
    | AliasIdValue(aliasId: string)
    | AliasValue(alias: Alias)

  type Status = RefreshResult<Raw>

  /** The checks all three probes begin with. A FileSystemNotFound error is
      reported as the NotFound label with no error, any other error as the
      Unknown label carrying that same error, and a nil file system as
      NotFound; None means the finder found a file system and the probe goes
      on to read it. */
  function Normalize(f: FinderResult): (r: Option<Status>)
    ensures r.None? <==> f.err.None? && f.fileSystem.Some?
    ensures ErrCodeEquals(f.err, ErrCodeFileSystemNotFound) ==>
      r == Some(RefreshResult(None, FileSystemStatusNotFound, None))
    ensures f.err.Some? && !ErrCodeEquals(f.err, ErrCodeFileSystemNotFound) ==>
      r == Some(RefreshResult(None, FileSystemStatusUnknown, f.err))
    ensures f.err.None? && f.fileSystem.None? ==>
      r == Some(RefreshResult(None, FileSystemStatusNotFound, None))
  {
    if ErrCodeEquals(f.err, ErrCodeFileSystemNotFound) then
      Some(RefreshResult(None, FileSystemStatusNotFound, None))
    else if f.err.Some? then
      Some(RefreshResult(None, FileSystemStatusUnknown, f.err))
    else if f.fileSystem.None? then
      Some(RefreshResult(None, FileSystemStatusNotFound, None))
    else
      None
  }

  /** `FileSystemStatus`: a found file system is reported with its
      Lifecycle as the label. */
  function FileSystemStatus(f: FinderResult): (s: Status)
    ensures Normalize(f).Some? ==> s == Normalize(f).value
    ensures Normalize(f).None? ==>
      s == RefreshResult(Some(FileSystemValue(f.fileSystem.value)), StringValue(f.fileSystem.value.lifecycle), None)
  {
    match Normalize(f)
    case Some(s) => s
    case None =>
      var fs := f.fileSystem.value;
      RefreshResult(Some(FileSystemValue(fs)), StringValue(fs.lifecycle), None)
  }

  /** Index of the first alias named `aliasId`, or |aliases| when none is. */
  function AliasIndex(aliases: seq<Alias>, aliasId: string): (j: nat)
    ensures j <= |aliases|
    ensures j < |aliases| ==> StringValue(aliases[j].name) == aliasId
    ensures forall i :: 0 <= i < j ==> StringValue(aliases[i].name) != aliasId
  {
    if aliases == [] then 0
    else if StringValue(aliases[0].name) == aliasId then 0
    else 1 + AliasIndex(aliases[1..], aliasId)
  }

  /** The label the alias probe reports for a non-empty alias list: the
      Lifecycle of the first alias with that name, or "" when no alias has
      it (not NotFound). */
  function AliasLifecycle(aliases: seq<Alias>, aliasId: string): (lifecycle: string)
    ensures (forall i :: 0 <= i < |aliases| ==> StringValue(aliases[i].name) != aliasId) ==> lifecycle == ""
    ensures forall i :: 0 <= i < |aliases| ==>
      (StringValue(aliases[i].name) == aliasId &&
       (forall k :: 0 <= k < i ==> StringValue(aliases[k].name) != aliasId)) ==>
      lifecycle == StringValue(aliases[i].lifecycle)
  {
    var j := AliasIndex(aliases, aliasId);
    if j < |aliases| then StringValue(aliases[j].lifecycle) else ""
  }

  /** What `FileSystemWindowsAliasStatus` reports, case by case: the common
      checks; Unknown for a file system without a Windows configuration;
      NotFound with a nil result for a nil or empty alias list; otherwise
      the alias id with the Lifecycle of the first alias of that name. */
  function AliasStatus(f: FinderResult, aliasId: string): (s: Status)
    ensures Normalize(f).Some? ==> s == Normalize(f).value
    ensures s.err.None? || s.err == f.err
    ensures s.result.Some? ==> s.result.value == AliasIdValue(aliasId)
    ensures Normalize(f).None? && f.fileSystem.value.windowsConfiguration.None? ==>
      s == RefreshResult(None, FileSystemStatusUnknown, None)
    ensures Normalize(f).None? && f.fileSystem.value.windowsConfiguration.Some? ==>
      var aliases := f.fileSystem.value.windowsConfiguration.value.aliases;
      if aliases.None? || |aliases.value| == 0
      then s == RefreshResult(None, FileSystemWindowsAliasStatusNotFound, None)
      else s == RefreshResult(Some(AliasIdValue(aliasId)), AliasLifecycle(aliases.value, aliasId), None)
  {
    if Normalize(f).Some? then Normalize(f).value
    else
      var fs := f.fileSystem.value;
      match fs.windowsConfiguration
      case None =>
        // the finder's error is necessarily nil here
        RefreshResult(None, FileSystemStatusUnknown, f.err)
      case Some(winConfig) =>
        match winConfig.aliases
        case None => RefreshResult(None, FileSystemWindowsAliasStatusNotFound, None)
        case Some(aliases) =>
          if |aliases| == 0 then RefreshResult(None, FileSystemWindowsAliasStatusNotFound, None)
          else RefreshResult(Some(AliasIdValue(aliasId)), AliasLifecycle(aliases, aliasId), None)
  }

  /** The alias probe as the source runs it: after the common checks, a
      missing Windows configuration is Unknown (with the finder's error,
      which is nil at that point), a nil or empty alias list is NotFound,
      and otherwise a loop looks for the first alias with the requested
      name and stops there. The result is always the alias id string. */
  method FileSystemWindowsAliasStatus(f: FinderResult, aliasId: string) returns (s: Status)
    ensures s == AliasStatus(f, aliasId)
    ensures f.err.None? && f.fileSystem.Some? && f.fileSystem.value.windowsConfiguration.None? ==>
      s == RefreshResult(None, FileSystemStatusUnknown, None)
    ensures s.result.Some? ==>
      var aliases := f.fileSystem.value.windowsConfiguration.value.aliases.value;
      && s.err.None?
      && |aliases| > 0
      && (s.state != "" ==> exists i :: 0 <= i < |aliases| && StringValue(aliases[i].name) == aliasId)
  {
    if ErrCodeEquals(f.err, ErrCodeFileSystemNotFound) {
      return RefreshResult(None, FileSystemStatusNotFound, None);
    }
    if f.err.Some? {
      return RefreshResult(None, FileSystemStatusUnknown, f.err);
    }
    if f.fileSystem.None? {
      return RefreshResult(None, FileSystemStatusNotFound, None);
    }
    var output := f.fileSystem.value;
    if output.windowsConfiguration.None? {
      return RefreshResult(None, FileSystemStatusUnknown, f.err);
    }
    var winConfig := output.windowsConfiguration.value;
    if winConfig.aliases.None? || |winConfig.aliases.value| == 0 {
      return RefreshResult(None, FileSystemWindowsAliasStatusNotFound, None);
    }
    var aliases := winConfig.aliases.value;
    var lifecycle := "";
    var i := 0;
    while i < |aliases|
      invariant i <= |aliases|
      invariant forall k :: 0 <= k < i ==> StringValue(aliases[k].name) != aliasId
    {
      if StringValue(aliases[i].name) == aliasId {
        lifecycle := StringValue(aliases[i].lifecycle);
        break;
      }
      i := i + 1;
    }
    assert AliasIndex(aliases, aliasId) == i;
    return RefreshResult(Some(AliasIdValue(aliasId)), lifecycle, None);
  }

  /** A non-nil administrative action of type FILE_SYSTEM_UPDATE. */
  predicate IsUpdateAction(a: Option<AdministrativeAction>) {
    a.Some? && StringValue(a.value.administrativeActionType) == AdministrativeActionTypeFileSystemUpdate
  }

  /** The first non-nil administrative action of type FILE_SYSTEM_UPDATE,
      nil actions skipped. */
  function FirstUpdateAction(actions: seq<Option<AdministrativeAction>>): (r: Option<AdministrativeAction>)
    ensures r.Some? ==>
      (exists i :: 0 <= i < |actions| && actions[i] == r && IsUpdateAction(actions[i]) &&
        forall k :: 0 <= k < i ==> !IsUpdateAction(actions[k]))
    ensures r.None? ==> forall i :: 0 <= i < |actions| ==> !IsUpdateAction(actions[i])
  {
    if actions == [] then None
    else if IsUpdateAction(actions[0]) then actions[0]
    else
      var r := FirstUpdateAction(actions[1..]);
      assert r.Some? ==>
        (exists i :: 1 <= i < |actions| && actions[i] == r && IsUpdateAction(actions[i]) &&
          forall k :: 1 <= k < i ==> !IsUpdateAction(actions[k]));
      r
  }

  /** `FileSystemAdministrativeActionsStatus`: a found file system is
      reported with the Status of its first FILE_SYSTEM_UPDATE action as the
      label, or with COMPLETED when it has no such action. */
  function AdministrativeActionsStatus(f: FinderResult): (s: Status)
    ensures Normalize(f).Some? ==> s == Normalize(f).value
    ensures Normalize(f).None? ==>
      s.result == Some(FileSystemValue(f.fileSystem.value)) && s.err.None? &&
      s.state == match FirstUpdateAction(f.fileSystem.value.administrativeActions)
                 case Some(a) => StringValue(a.status)
                 case None => StatusCompleted
  {
    match Normalize(f)
    case Some(s) => s
    case None =>
      var fs := f.fileSystem.value;
      match FirstUpdateAction(fs.administrativeActions)
      case Some(a) => RefreshResult(Some(FileSystemValue(fs)), StringValue(a.status), None)
      case None => RefreshResult(Some(FileSystemValue(fs)), StatusCompleted, None)
  }
}
