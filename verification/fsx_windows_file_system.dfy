/** The `aws_fsx_windows_file_system` resource: the update that sends only
    the changed settings and reconciles the alias set, the classification of
    a missing file system in Read and Delete, and the helpers that map the
    `self_managed_active_directory` block to and from the FSx API. */
module FsxWindowsFileSystem {
  import opened AwsBase
  import opened Fsx
  import opened FsxFinder
  import opened StateChange
  import opened FsxStatus
  import opened FsxWaiter

  // ---------------------------------------------------------------------
  // self_managed_active_directory

  /** The `self_managed_active_directory` block as the schema hands it over.
      The two optional keys may be absent from the block's map. */
  datatype AdBlock = AdBlock(
    dnsIps: seq<string>,
    domainName: string,
    fileSystemAdministratorsGroup: Option<string>,
    organizationalUnitDistinguishedName: Option<string>,
    password: string,
    username: string)

  /** The create request's `SelfManagedActiveDirectoryConfiguration`. */
  datatype AdConfiguration = AdConfiguration(
    dnsIps: seq<string>,
    domainName: Option<string>,
    fileSystemAdministratorsGroup: Option<string>,
    organizationalUnitDistinguishedName: Option<string>,
    password: Option<string>,
    userName: Option<string>)

  /** The update request's `SelfManagedActiveDirectoryConfigurationUpdates`. */
  datatype AdConfigurationUpdates = AdConfigurationUpdates(
    dnsIps: seq<string>,
    password: Option<string>,
    userName: Option<string>)

  /** The block written back to Terraform state. */
  datatype AdState = AdState(
    dnsIps: seq<string>,
    domainName: string,
    fileSystemAdministratorsGroup: string,
    organizationalUnitDistinguishedName: string,
    password: string,
    username: string)

  /** An optional key of the block carried into a request: only when the key
      is present and holds a non-empty string. */
  function NonEmptyKey(v: Option<string>): (r: Option<string>)
    ensures r.Some? <==> v.Some? && v.value != ""
    ensures r.Some? ==> r == v
  {
    if v.Some? && v.value != "" then v else None
  }

  /** `expandFsxSelfManagedActiveDirectoryConfigurationCreate`. */
  function ExpandAdCreate(l: seq<Option<AdBlock>>): (r: Option<AdConfiguration>)
    ensures r.None? <==> |l| == 0 || l[0].None?
    ensures r.Some? ==>
      var b := l[0].value;
      && r.value.domainName == Some(b.domainName)
      && r.value.dnsIps == b.dnsIps
      && r.value.password == Some(b.password)
      && r.value.userName == Some(b.username)
      && (r.value.fileSystemAdministratorsGroup.Some? <==>
            b.fileSystemAdministratorsGroup.Some? && b.fileSystemAdministratorsGroup.value != "")
      && (r.value.fileSystemAdministratorsGroup.Some? ==>
            r.value.fileSystemAdministratorsGroup == b.fileSystemAdministratorsGroup)
      && (r.value.organizationalUnitDistinguishedName.Some? <==>
            b.organizationalUnitDistinguishedName.Some? && b.organizationalUnitDistinguishedName.value != "")
      && (r.value.organizationalUnitDistinguishedName.Some? ==>
            r.value.organizationalUnitDistinguishedName == b.organizationalUnitDistinguishedName)
  {
    if |l| == 0 || l[0].None? then None
    else
      var data := l[0].value;
      Some(AdConfiguration(
        data.dnsIps, Some(data.domainName),
        NonEmptyKey(data.fileSystemAdministratorsGroup),
        NonEmptyKey(data.organizationalUnitDistinguishedName),
        Some(data.password), Some(data.username)))
  }

  /** `expandFsxSelfManagedActiveDirectoryConfigurationUpdate`: only the DNS
      addresses and the credentials can be changed. */
  function ExpandAdUpdate(l: seq<Option<AdBlock>>): (r: Option<AdConfigurationUpdates>)
    ensures r.None? <==> |l| == 0 || l[0].None?
    ensures r.Some? ==>
      r.value == AdConfigurationUpdates(l[0].value.dnsIps, Some(l[0].value.password), Some(l[0].value.username))
  {
    if |l| == 0 || l[0].None? then None
    else
      var data := l[0].value;
      Some(AdConfigurationUpdates(data.dnsIps, Some(data.password), Some(data.username)))
  }

  /** `flattenFsxSelfManagedActiveDirectoryConfiguration`: nothing becomes
      the empty list, otherwise exactly one block, whose password is the one
      already in state because the API never returns it. */
  function FlattenAd(priorPassword: string, adopts: Option<SelfManagedActiveDirectoryAttributes>)
    : (r: seq<AdState>)
    ensures adopts.None? <==> r == []
    ensures adopts.Some? ==> |r| == 1 && r[0].password == priorPassword
    ensures adopts.Some? ==>
      && r[0].dnsIps == adopts.value.dnsIps
      && r[0].domainName == StringValue(adopts.value.domainName)
      && r[0].fileSystemAdministratorsGroup == StringValue(adopts.value.fileSystemAdministratorsGroup)
      && r[0].organizationalUnitDistinguishedName ==
           StringValue(adopts.value.organizationalUnitDistinguishedName)
      && r[0].username == StringValue(adopts.value.userName)
  {
    match adopts
    case None => []
    case Some(a) =>
      [AdState(a.dnsIps, StringValue(a.domainName), StringValue(a.fileSystemAdministratorsGroup),
               StringValue(a.organizationalUnitDistinguishedName), priorPassword, StringValue(a.userName))]
  }

  /** What the API reports for a directory it was configured with. */
  function Reported(c: AdConfiguration): SelfManagedActiveDirectoryAttributes {
    SelfManagedActiveDirectoryAttributes(
      c.dnsIps, c.domainName, c.fileSystemAdministratorsGroup,
      c.organizationalUnitDistinguishedName, c.userName)
  }

  /** Round trip: a block sent on create and read back (with its password
      kept from state) is the same block, except that an absent optional
      key reads back as the empty string. */
  lemma AdRoundTrip(b: AdBlock)
    ensures ExpandAdCreate([Some(b)]).Some?
    ensures FlattenAd(b.password, Some(Reported(ExpandAdCreate([Some(b)]).value))) ==
      [AdState(b.dnsIps, b.domainName, StringValue(b.fileSystemAdministratorsGroup),
               StringValue(b.organizationalUnitDistinguishedName), b.password, b.username)]
  {
  }

  // ---------------------------------------------------------------------
  // Update

  /** The resource's arguments the update looks at. An alias set is given
      as the list the set enumerates, without duplicates; equal sets
      enumerate identically. */
  datatype Settings = Settings(
    automaticBackupRetentionDays: int,
    throughputCapacity: int,
    storageCapacity: int,
    dailyAutomaticBackupStartTime: string,
    selfManagedActiveDirectory: seq<Option<AdBlock>>,
    weeklyMaintenanceStartTime: string,
    aliases: seq<string>)

  datatype UpdateWindowsConfiguration = UpdateWindowsConfiguration(
    automaticBackupRetentionDays: Option<int>,
    throughputCapacity: Option<int>,
    dailyAutomaticBackupStartTime: Option<string>,
    selfManagedActiveDirectoryConfiguration: Option<AdConfigurationUpdates>,
    weeklyMaintenanceStartTime: Option<string>)

  datatype UpdateFileSystemInput = UpdateFileSystemInput(
    fileSystemId: string,
    storageCapacity: Option<int>,
    windowsConfiguration: UpdateWindowsConfiguration)

  /** One of the six settings UpdateFileSystem can change differs. */
  predicate TrackedFieldsChanged(o: Settings, n: Settings) {
    || o.automaticBackupRetentionDays != n.automaticBackupRetentionDays
    || o.throughputCapacity != n.throughputCapacity
    || o.storageCapacity != n.storageCapacity
    || o.dailyAutomaticBackupStartTime != n.dailyAutomaticBackupStartTime
    || o.selfManagedActiveDirectory != n.selfManagedActiveDirectory
    || o.weeklyMaintenanceStartTime != n.weeklyMaintenanceStartTime
  }

  /** The new value of a setting when it changed, nothing otherwise. */
  function IfChanged<T(==)>(o: T, n: T): Option<T> {
    if o != n then Some(n) else None
  }

  /** The UpdateFileSystem request: exactly the changed settings. */
  function UpdateInput(id: string, o: Settings, n: Settings): UpdateFileSystemInput {
    UpdateFileSystemInput(
      id,
      IfChanged(o.storageCapacity, n.storageCapacity),
      UpdateWindowsConfiguration(
        IfChanged(o.automaticBackupRetentionDays, n.automaticBackupRetentionDays),
        IfChanged(o.throughputCapacity, n.throughputCapacity),
        IfChanged(o.dailyAutomaticBackupStartTime, n.dailyAutomaticBackupStartTime),
        if o.selfManagedActiveDirectory != n.selfManagedActiveDirectory
        then ExpandAdUpdate(n.selfManagedActiveDirectory) else None,
        IfChanged(o.weeklyMaintenanceStartTime, n.weeklyMaintenanceStartTime)))
  }

  /** The request as the source fills it: one setting after the other, each
      written and flagged only when it changed. */
  method BuildUpdateInput(id: string, o: Settings, n: Settings)
    returns (requestUpdate: bool, input: UpdateFileSystemInput)
    ensures requestUpdate <==> TrackedFieldsChanged(o, n)
    ensures input == UpdateInput(id, o, n)
  {
    requestUpdate := false;
    input := UpdateFileSystemInput(id, None, UpdateWindowsConfiguration(None, None, None, None, None));
    if o.automaticBackupRetentionDays != n.automaticBackupRetentionDays {
      input := input.(windowsConfiguration :=
        input.windowsConfiguration.(automaticBackupRetentionDays := Some(n.automaticBackupRetentionDays)));
      requestUpdate := true;
    }
    if o.throughputCapacity != n.throughputCapacity {
      input := input.(windowsConfiguration :=
        input.windowsConfiguration.(throughputCapacity := Some(n.throughputCapacity)));
      requestUpdate := true;
    }
    if o.storageCapacity != n.storageCapacity {
      input := input.(storageCapacity := Some(n.storageCapacity));
      requestUpdate := true;
    }
    if o.dailyAutomaticBackupStartTime != n.dailyAutomaticBackupStartTime {
      input := input.(windowsConfiguration :=
        input.windowsConfiguration.(dailyAutomaticBackupStartTime := Some(n.dailyAutomaticBackupStartTime)));
      requestUpdate := true;
    }
    if o.selfManagedActiveDirectory != n.selfManagedActiveDirectory {
      input := input.(windowsConfiguration :=
        input.windowsConfiguration.(selfManagedActiveDirectoryConfiguration :=
          ExpandAdUpdate(n.selfManagedActiveDirectory)));
      requestUpdate := true;
    }
    if o.weeklyMaintenanceStartTime != n.weeklyMaintenanceStartTime {
      input := input.(windowsConfiguration :=
        input.windowsConfiguration.(weeklyMaintenanceStartTime := Some(n.weeklyMaintenanceStartTime)));
      requestUpdate := true;
    }
  }

  predicate NoDuplicates(s: seq<string>) {
    forall i, j :: 0 <= i < j < |s| ==> s[i] != s[j]
  }

  /** `a.Difference(b).List()`: the members of a that are not in b, in a's
      enumeration order. */
  function Difference(a: seq<string>, b: seq<string>): (d: seq<string>)
    ensures forall x :: x in d <==> x in a && x !in b
    ensures |d| <= |a|
    ensures NoDuplicates(a) ==> NoDuplicates(d)
    ensures d == [] <==> forall x :: x in a ==> x in b
  {
    if a == [] then []
    else if a[0] in b then Difference(a[1..], b)
    else
      var rest := Difference(a[1..], b);
      assert NoDuplicates(a) ==> a[0] !in rest;
      [a[0]] + rest
  }

  /** Every API call the update can make, in the order made. */
  datatype FsxCall =
    | UpdateFileSystem(input: UpdateFileSystemInput)
    | WaitAdministrativeActions
    | AssociateAliases(aliases: seq<string>)
    | WaitAliasAvailable(aliasId: string)
    | DisassociateAliases(aliases: seq<string>)
    | WaitAliasDeleted(aliasId: string)

  /** What the API answers during one update: the errors of the three
      mutating calls, the error (if any) the administrative action wait ends
      with, and the aliases whose availability or deletion wait fails, with
      the error it fails with. The waits themselves are the waiters of
      FsxWaiter; here only their outcome matters. */
  datatype UpdateResponses = UpdateResponses(
    updateFileSystem: Option<ApiError>,
    administrativeActionWait: Option<WaitError>,
    associate: Option<ApiError>,
    aliasAvailableFailures: map<string, WaitError>,
    disassociate: Option<ApiError>,
    aliasDeletedFailures: map<string, WaitError>)

  /** The error the update stops with. */
  datatype UpdateError =
    | UpdateFileSystemFailed(cause: ApiError)
    | UpdateWaitFailed(wait: WaitError)
    | AssociateFailed(cause: ApiError)
    | AliasAvailableWaitFailed(wait: WaitError)
    | DisassociateFailed(cause: ApiError)
    | AliasDeletedWaitFailed(wait: WaitError)

  /** Index of the first alias whose wait fails, or |aliases|. */
  function FirstFailingWait(aliases: seq<string>, failures: map<string, WaitError>): (k: nat)
    ensures k <= |aliases|
    ensures k < |aliases| ==> aliases[k] in failures
    ensures forall i :: 0 <= i < k ==> aliases[i] !in failures
  {
    if aliases == [] then 0
    else if aliases[0] in failures then 0
    else 1 + FirstFailingWait(aliases[1..], failures)
  }

  function WaitCall(aliasId: string, deleting: bool): FsxCall {
    if deleting then WaitAliasDeleted(aliasId) else WaitAliasAvailable(aliasId)
  }

  /** The waits made for `aliases`: one per alias in list order, up to and
      including the first that fails. */
  function WaitCalls(aliases: seq<string>, failures: map<string, WaitError>, deleting: bool)
    : (calls: seq<FsxCall>)
    ensures var k := FirstFailingWait(aliases, failures);
      |calls| == (if k < |aliases| then k + 1 else k)
    ensures forall i :: 0 <= i < |calls| ==> calls[i] == WaitCall(aliases[i], deleting)
  {
    var k := FirstFailingWait(aliases, failures);
    var n := if k < |aliases| then k + 1 else k;
    seq(n, i requires 0 <= i < n => WaitCall(aliases[i], deleting))
  }

  /** Wait for each alias in turn; the first failure aborts the rest. */
  method WaitForAliases(aliases: seq<string>, failures: map<string, WaitError>, deleting: bool)
    returns (calls: seq<FsxCall>, failed: Option<WaitError>)
    ensures calls == WaitCalls(aliases, failures, deleting)
    ensures var k := FirstFailingWait(aliases, failures);
      failed == if k < |aliases| then Some(failures[aliases[k]]) else None
  {
    calls := [];
    var i := 0;
    while i < |aliases|
      invariant i <= |aliases|
      invariant |calls| == i
      invariant forall j :: 0 <= j < i ==> calls[j] == WaitCall(aliases[j], deleting)
      invariant forall j :: 0 <= j < i ==> aliases[j] !in failures
    {
      calls := calls + [WaitCall(aliases[i], deleting)];
      if aliases[i] in failures {
        assert FirstFailingWait(aliases, failures) == i;
        return calls, Some(failures[aliases[i]]);
      }
      i := i + 1;
    }
    assert FirstFailingWait(aliases, failures) == |aliases|;
    failed := None;
  }

  /** The disassociate request as written: it names the ADDED aliases
      (`additionList`), although it is sent only when some alias was
      removed. */
  function DisassociateRequest(additions: seq<string>, removals: seq<string>): seq<string> {
    additions
  }

  /** The calls of a successful association: none when nothing was added,
      otherwise the associate request and the availability waits. */
  function AssociationCalls(additions: seq<string>, responses: UpdateResponses): seq<FsxCall> {
    if |additions| > 0
    then [AssociateAliases(additions)] + WaitCalls(additions, responses.aliasAvailableFailures, false)
    else []
  }

  /** The calls of a successful disassociation: none when nothing was
      removed, otherwise the disassociate request and the deletion waits. */
  function DisassociationCalls(additions: seq<string>, removals: seq<string>, responses: UpdateResponses)
    : seq<FsxCall>
  {
    if |removals| > 0
    then [DisassociateAliases(DisassociateRequest(additions, removals))]
         + WaitCalls(removals, responses.aliasDeletedFailures, true)
    else []
  }

  /** The alias calls of a successful update whose alias set changed,
      given the added and the removed aliases. */
  function AliasCalls(additions: seq<string>, removals: seq<string>, responses: UpdateResponses)
    : seq<FsxCall>
  {
    AssociationCalls(additions, responses) + DisassociationCalls(additions, removals, responses)
  }

  /** The calls a step of the update made and the error it stopped with. */
  type Stage = (seq<FsxCall>, Option<UpdateError>)

  /** The error a call fails with under `responses`, or none when it
      succeeds. */
  function FailureOf(c: FsxCall, responses: UpdateResponses): Option<UpdateError> {
    match c
    case UpdateFileSystem(_) =>
      if responses.updateFileSystem.Some? then Some(UpdateFileSystemFailed(responses.updateFileSystem.value)) else None
    case WaitAdministrativeActions =>
      if responses.administrativeActionWait.Some? then Some(UpdateWaitFailed(responses.administrativeActionWait.value))
      else None
    case AssociateAliases(_) =>
      if responses.associate.Some? then Some(AssociateFailed(responses.associate.value)) else None
    case WaitAliasAvailable(a) =>
      if a in responses.aliasAvailableFailures
      then Some(AliasAvailableWaitFailed(responses.aliasAvailableFailures[a])) else None
    case DisassociateAliases(_) =>
      if responses.disassociate.Some? then Some(DisassociateFailed(responses.disassociate.value)) else None
    case WaitAliasDeleted(a) =>
      if a in responses.aliasDeletedFailures
      then Some(AliasDeletedWaitFailed(responses.aliasDeletedFailures[a])) else None
  }

  /** A single call, failing as `responses` says. */
  function Call(c: FsxCall, responses: UpdateResponses): Stage {
    ([c], FailureOf(c, responses))
  }

  /** Two steps in sequence: the second runs only when the first succeeded. */
  function Then(a: Stage, b: Stage): Stage {
    if a.1.Some? then a else (a.0 + b.0, b.1)
  }

  /** The waits for `aliases`, stopping at the first that fails. */
  function WaitStage(aliases: seq<string>, deleting: bool, responses: UpdateResponses): Stage {
    var failures := if deleting then responses.aliasDeletedFailures else responses.aliasAvailableFailures;
    var k := FirstFailingWait(aliases, failures);
    (WaitCalls(aliases, failures, deleting),
     if k < |aliases| then FailureOf(WaitCall(aliases[k], deleting), responses) else None)
  }

  /** Associating the added aliases, then waiting for each. */
  function AssociationOutcome(additions: seq<string>, responses: UpdateResponses): Stage {
    if |additions| > 0
    then Then(Call(AssociateAliases(additions), responses), WaitStage(additions, false, responses))
    else ([], None)
  }

  /** Disassociating, then waiting for each removed alias. */
  function DisassociationOutcome(additions: seq<string>, removals: seq<string>, responses: UpdateResponses): Stage {
    if |removals| > 0
    then Then(Call(DisassociateAliases(DisassociateRequest(additions, removals)), responses),
              WaitStage(removals, true, responses))
    else ([], None)
  }

  function ReconcileOutcome(additions: seq<string>, removals: seq<string>, responses: UpdateResponses): Stage {
    Then(AssociationOutcome(additions, responses), DisassociationOutcome(additions, removals, responses))
  }

  /** The calls and the error of the whole update: UpdateFileSystem and the
      administrative-action wait when a tracked setting changed, then the
      alias reconciliation when the alias set changed; each step runs only
      when the ones before it succeeded. */
  function UpdateOutcome(id: string, o: Settings, n: Settings, responses: UpdateResponses): Stage {
    Then(
      if TrackedFieldsChanged(o, n)
      then Then(Call(UpdateFileSystem(UpdateInput(id, o, n)), responses), Call(WaitAdministrativeActions, responses))
      else ([], None),
      if o.aliases != n.aliases
      then ReconcileOutcome(Difference(n.aliases, o.aliases), Difference(o.aliases, n.aliases), responses)
      else ([], None))
  }

  /** The calls an alias reconciliation may make. */
  predicate IsAliasCall(c: FsxCall, additions: seq<string>, removals: seq<string>) {
    match c
    case AssociateAliases(aliases) => aliases == additions && |additions| > 0
    case DisassociateAliases(aliases) => aliases == additions && |removals| > 0
    case WaitAliasAvailable(_) => true
    case WaitAliasDeleted(_) => true
    case _ => false
  }

  predicate AllAliasCalls(calls: seq<FsxCall>, additions: seq<string>, removals: seq<string>) {
    forall i :: 0 <= i < |calls| ==> IsAliasCall(calls[i], additions, removals)
  }

  lemma AppendAliasCalls(a: seq<FsxCall>, b: seq<FsxCall>, additions: seq<string>, removals: seq<string>)
    requires AllAliasCalls(a, additions, removals) && AllAliasCalls(b, additions, removals)
    ensures AllAliasCalls(a + b, additions, removals)
  {
    forall i | 0 <= i < |a + b|
      ensures IsAliasCall((a + b)[i], additions, removals)
    {
      if i >= |a| { assert (a + b)[i] == b[i - |a|]; }
    }
  }

  lemma WaitCallsAreAliasCalls(
    aliases: seq<string>, failures: map<string, WaitError>, deleting: bool,
    additions: seq<string>, removals: seq<string>)
    ensures AllAliasCalls(WaitCalls(aliases, failures, deleting), additions, removals)
  {
  }

  /** Associate the added aliases and wait for each to become available;
      skipped when nothing was added. */
  method AssociateAdded(additionList: seq<string>, removalList: seq<string>, responses: UpdateResponses)
    returns (calls: seq<FsxCall>, err: Option<UpdateError>)
    ensures AllAliasCalls(calls, additionList, removalList)
    ensures err.None? ==> calls == AssociationCalls(additionList, responses)
    ensures (calls, err) == AssociationOutcome(additionList, responses)
  {
    calls := [];
    if |additionList| > 0 {
      calls := [AssociateAliases(additionList)];
      if responses.associate.Some? {
        return calls, Some(AssociateFailed(responses.associate.value));
      }
      var waits, failed := WaitForAliases(additionList, responses.aliasAvailableFailures, false);
      WaitCallsAreAliasCalls(additionList, responses.aliasAvailableFailures, false, additionList, removalList);
      AppendAliasCalls(calls, waits, additionList, removalList);
      calls := calls + waits;
      if failed.Some? {
        return calls, Some(AliasAvailableWaitFailed(failed.value));
      }
    }
    err := None;
  }

  /** Disassociate and wait for each removed alias to be deleted; skipped
      when nothing was removed. */
  method DisassociateRemoved(additionList: seq<string>, removalList: seq<string>, responses: UpdateResponses)
    returns (calls: seq<FsxCall>, err: Option<UpdateError>)
    ensures AllAliasCalls(calls, additionList, removalList)
    ensures err.None? ==> calls == DisassociationCalls(additionList, removalList, responses)
    ensures (calls, err) == DisassociationOutcome(additionList, removalList, responses)
  {
    calls := [];
    if |removalList| > 0 {
      calls := [DisassociateAliases(DisassociateRequest(additionList, removalList))];
      if responses.disassociate.Some? {
        return calls, Some(DisassociateFailed(responses.disassociate.value));
      }
      var waits, failed := WaitForAliases(removalList, responses.aliasDeletedFailures, true);
      WaitCallsAreAliasCalls(removalList, responses.aliasDeletedFailures, true, additionList, removalList);
      AppendAliasCalls(calls, waits, additionList, removalList);
      calls := calls + waits;
      if failed.Some? {
        return calls, Some(AliasDeletedWaitFailed(failed.value));
      }
    }
    err := None;
  }

  /** The alias half of the update: associate the added aliases and wait for
      each to become available, then disassociate and wait for each removed
      alias to be deleted. Each step is skipped when its list is empty and
      the first failure ends the reconciliation. */
  method ReconcileAliases(additionList: seq<string>, removalList: seq<string>, responses: UpdateResponses)
    returns (calls: seq<FsxCall>, err: Option<UpdateError>)
    ensures AllAliasCalls(calls, additionList, removalList)
    ensures err.None? ==> calls == AliasCalls(additionList, removalList, responses)
    ensures (calls, err) == ReconcileOutcome(additionList, removalList, responses)
  {
    calls, err := AssociateAdded(additionList, removalList, responses);
    if err.Some? {
      return;
    }
    var more;
    more, err := DisassociateRemoved(additionList, removalList, responses);
    AppendAliasCalls(calls, more, additionList, removalList);
    calls := calls + more;
  }

  /** The calls made before the alias reconciliation. */
  function UpdateCalls(id: string, o: Settings, n: Settings): seq<FsxCall> {
    if TrackedFieldsChanged(o, n) then [UpdateFileSystem(UpdateInput(id, o, n)), WaitAdministrativeActions]
    else []
  }

  /** `resourceAwsFsxWindowsFileSystemUpdate` after the tags: send the
      changed settings and wait for the administrative action to finish,
      then reconcile the aliases when the alias set changed. Any failure
      ends the update; on success the source goes on to Read. */
  method Update(id: string, o: Settings, n: Settings, responses: UpdateResponses)
    returns (calls: seq<FsxCall>, err: Option<UpdateError>)
    ensures TrackedFieldsChanged(o, n) ==> |calls| > 0 && calls[0] == UpdateFileSystem(UpdateInput(id, o, n))
    ensures TrackedFieldsChanged(o, n) && |calls| > 1 ==> calls[1] == WaitAdministrativeActions
    ensures var k := |UpdateCalls(id, o, n)|;
      |calls| > k ==>
        o.aliases != n.aliases &&
        AllAliasCalls(calls[k..], Difference(n.aliases, o.aliases), Difference(o.aliases, n.aliases))
    ensures err.None? ==>
      calls == UpdateCalls(id, o, n)
               + (if o.aliases != n.aliases
                  then AliasCalls(Difference(n.aliases, o.aliases), Difference(o.aliases, n.aliases), responses)
                  else [])
    ensures (calls, err) == UpdateOutcome(id, o, n, responses)
  {
    calls := [];
    var requestUpdate, input := BuildUpdateInput(id, o, n);
    if requestUpdate {
      calls := [UpdateFileSystem(input)];
      if responses.updateFileSystem.Some? {
        return calls, Some(UpdateFileSystemFailed(responses.updateFileSystem.value));
      }
      calls := calls + [WaitAdministrativeActions];
      if responses.administrativeActionWait.Some? {
        return calls, Some(UpdateWaitFailed(responses.administrativeActionWait.value));
      }
    }
    assert calls == UpdateCalls(id, o, n);
    if o.aliases != n.aliases {
      var aliasCalls, aliasErr := ReconcileAliases(
        Difference(n.aliases, o.aliases), Difference(o.aliases, n.aliases), responses);
      assert (calls + aliasCalls)[|calls|..] == aliasCalls;
      calls := calls + aliasCalls;
      if aliasErr.Some? {
        return calls, aliasErr;
      }
    }
    err := None;
  }

  /** UpdateFileSystem is called exactly when one of the six tracked
      settings changed, and then it is the first call and carries exactly
      the changed settings. */
  lemma {:induction false} UpdateSentIffChanged(
    id: string, o: Settings, n: Settings, calls: seq<FsxCall>)
    requires TrackedFieldsChanged(o, n) ==> |calls| > 0 && calls[0] == UpdateFileSystem(UpdateInput(id, o, n))
    requires var k := |UpdateCalls(id, o, n)|;
      |calls| > k ==>
        AllAliasCalls(calls[k..], Difference(n.aliases, o.aliases), Difference(o.aliases, n.aliases))
    ensures (exists i :: 0 <= i < |calls| && calls[i].UpdateFileSystem?) <==> TrackedFieldsChanged(o, n)
  {
    if !TrackedFieldsChanged(o, n) {
      assert calls[0..] == calls;
      forall i | 0 <= i < |calls| ensures !calls[i].UpdateFileSystem? {
        assert IsAliasCall(calls[0..][i], Difference(n.aliases, o.aliases), Difference(o.aliases, n.aliases));
      }
    }
  }

  /** The request carries exactly the changed settings: each plain field is
      set exactly when it changed, to its new value; the directory updates
      are set when the block changed and the new block is present; a
      request built from unchanged settings is empty. */
  lemma UpdateInputCarriesChangedFields(id: string, o: Settings, n: Settings)
    ensures var input := UpdateInput(id, o, n);
      && input.fileSystemId == id
      && (input.storageCapacity.Some? <==> o.storageCapacity != n.storageCapacity)
      && (input.storageCapacity.Some? ==> input.storageCapacity.value == n.storageCapacity)
      && (input.windowsConfiguration.automaticBackupRetentionDays.Some? <==>
            o.automaticBackupRetentionDays != n.automaticBackupRetentionDays)
      && (input.windowsConfiguration.automaticBackupRetentionDays.Some? ==>
            input.windowsConfiguration.automaticBackupRetentionDays.value == n.automaticBackupRetentionDays)
      && (input.windowsConfiguration.throughputCapacity.Some? <==> o.throughputCapacity != n.throughputCapacity)
      && (input.windowsConfiguration.throughputCapacity.Some? ==>
            input.windowsConfiguration.throughputCapacity.value == n.throughputCapacity)
      && (input.windowsConfiguration.dailyAutomaticBackupStartTime.Some? <==>
            o.dailyAutomaticBackupStartTime != n.dailyAutomaticBackupStartTime)
      && (input.windowsConfiguration.dailyAutomaticBackupStartTime.Some? ==>
            input.windowsConfiguration.dailyAutomaticBackupStartTime.value == n.dailyAutomaticBackupStartTime)
      && (input.windowsConfiguration.weeklyMaintenanceStartTime.Some? <==>
            o.weeklyMaintenanceStartTime != n.weeklyMaintenanceStartTime)
      && (input.windowsConfiguration.weeklyMaintenanceStartTime.Some? ==>
            input.windowsConfiguration.weeklyMaintenanceStartTime.value == n.weeklyMaintenanceStartTime)
      && (input.windowsConfiguration.selfManagedActiveDirectoryConfiguration.Some? <==>
            o.selfManagedActiveDirectory != n.selfManagedActiveDirectory &&
            |n.selfManagedActiveDirectory| > 0 && n.selfManagedActiveDirectory[0].Some?)
    ensures !TrackedFieldsChanged(o, n) ==>
      UpdateInput(id, o, n) == UpdateFileSystemInput(id, None, UpdateWindowsConfiguration(None, None, None, None, None))
  {
  }

  /** Applying the diff to the old alias set gives the new one: removals
      are exactly the old aliases that are gone, additions exactly the new
      aliases that were not there, and the two lists never share an alias. */
  lemma AliasDiffReconciles(o: seq<string>, n: seq<string>)
    ensures forall x :: x in n <==> (x in o && x !in Difference(o, n)) || x in Difference(n, o)
    ensures forall x :: x in Difference(n, o) ==> x !in Difference(o, n)
    ensures o == n ==> Difference(n, o) == [] && Difference(o, n) == []
  {
  }

  /** The disassociate request as written names the added aliases: replacing
      alias a by alias b sends DisassociateAliases([b]) and never names a,
      so a stays associated. */
  lemma DisassociateNamesAddedAliases(a: string, b: string, responses: UpdateResponses)
    requires a != b
    requires responses.associate.None? && responses.aliasAvailableFailures == map[]
    ensures DisassociateAliases([b]) in AliasCalls(Difference([b], [a]), Difference([a], [b]), responses)
    ensures forall c :: c in AliasCalls(Difference([b], [a]), Difference([a], [b]), responses) ==>
      c != DisassociateAliases([a])
  {
    assert Difference([b], [a]) == [b];
    assert Difference([a], [b]) == [a];
    var waits := WaitCalls([b], map[], false);
    assert FirstFailingWait([b], map[]) == 1;
    assert waits == [WaitAliasAvailable(b)];
    var calls := AliasCalls([b], [a], responses);
    var tail := [DisassociateAliases([b])] + WaitCalls([a], responses.aliasDeletedFailures, true);
    assert calls == [AssociateAliases([b])] + waits + tail;
    assert calls[2] == DisassociateAliases([b]);
  }

  /** No call of `calls` fails. */
  predicate NoneFails(calls: seq<FsxCall>, responses: UpdateResponses) {
    forall i :: 0 <= i < |calls| ==> FailureOf(calls[i], responses).None?
  }

  /** A step stops at its first failing call: with no error none of its
      calls failed; with an error the last call is the first that failed and
      the error is that call's. */
  predicate EndsAtFirstFailure(s: Stage, responses: UpdateResponses) {
    if s.1.None? then NoneFails(s.0, responses)
    else
      && |s.0| > 0
      && NoneFails(s.0[..|s.0| - 1], responses)
      && s.1 == FailureOf(s.0[|s.0| - 1], responses)
  }

  lemma ThenEndsAtFirstFailure(a: Stage, b: Stage, responses: UpdateResponses)
    requires EndsAtFirstFailure(a, responses) && EndsAtFirstFailure(b, responses)
    ensures EndsAtFirstFailure(Then(a, b), responses)
  {
    if a.1.None? && b.1.Some? {
      var c := a.0 + b.0;
      assert c[..|c| - 1] == a.0 + b.0[..|b.0| - 1];
      assert c[|c| - 1] == b.0[|b.0| - 1];
    }
  }

  lemma {:induction false} WaitStageEndsAtFirstFailure(aliases: seq<string>, deleting: bool, responses: UpdateResponses)
    ensures EndsAtFirstFailure(WaitStage(aliases, deleting, responses), responses)
  {
    var failures := if deleting then responses.aliasDeletedFailures else responses.aliasAvailableFailures;
    var k := FirstFailingWait(aliases, failures);
    var calls := WaitCalls(aliases, failures, deleting);
    forall i | 0 <= i < k ensures FailureOf(calls[i], responses).None? {
      assert calls[i] == WaitCall(aliases[i], deleting);
    }
    if k < |aliases| {
      assert calls[..|calls| - 1] == calls[..k];
      assert calls[|calls| - 1] == WaitCall(aliases[k], deleting);
    }
  }

  lemma AssociationEndsAtFirstFailure(additions: seq<string>, responses: UpdateResponses)
    ensures EndsAtFirstFailure(AssociationOutcome(additions, responses), responses)
  {
    WaitStageEndsAtFirstFailure(additions, false, responses);
    ThenEndsAtFirstFailure(Call(AssociateAliases(additions), responses), WaitStage(additions, false, responses), responses);
  }

  lemma DisassociationEndsAtFirstFailure(additions: seq<string>, removals: seq<string>, responses: UpdateResponses)
    ensures EndsAtFirstFailure(DisassociationOutcome(additions, removals, responses), responses)
  {
    WaitStageEndsAtFirstFailure(removals, true, responses);
    ThenEndsAtFirstFailure(Call(DisassociateAliases(DisassociateRequest(additions, removals)), responses),
                           WaitStage(removals, true, responses), responses);
  }

  lemma UpdateOutcomeEndsAtFirstFailure(id: string, o: Settings, n: Settings, responses: UpdateResponses)
    ensures EndsAtFirstFailure(UpdateOutcome(id, o, n, responses), responses)
  {
    var additions := Difference(n.aliases, o.aliases);
    var removals := Difference(o.aliases, n.aliases);
    var none: Stage := ([], None);
    var first := Then(Call(UpdateFileSystem(UpdateInput(id, o, n)), responses), Call(WaitAdministrativeActions, responses));
    ThenEndsAtFirstFailure(Call(UpdateFileSystem(UpdateInput(id, o, n)), responses),
                           Call(WaitAdministrativeActions, responses), responses);
    AssociationEndsAtFirstFailure(additions, responses);
    DisassociationEndsAtFirstFailure(additions, removals, responses);
    ThenEndsAtFirstFailure(AssociationOutcome(additions, responses),
                           DisassociationOutcome(additions, removals, responses), responses);
    ThenEndsAtFirstFailure(if TrackedFieldsChanged(o, n) then first else none,
                           if o.aliases != n.aliases then ReconcileOutcome(additions, removals, responses) else none,
                           responses);
  }

  /** The update stops at the first call that fails: it succeeds exactly
      when none of the calls it made failed, and otherwise the last call
      made is the first failing one and the error is that call's
      (UpdateFileSystem, the administrative-action wait, the associate
      request, an availability wait, the disassociate request or a
      deletion wait). */
  lemma UpdateStopsAtFirstFailure(id: string, o: Settings, n: Settings, responses: UpdateResponses)
    ensures var (calls, err) := UpdateOutcome(id, o, n, responses);
      && (err.None? <==> NoneFails(calls, responses))
      && (err.Some? ==>
            && |calls| > 0
            && NoneFails(calls[..|calls| - 1], responses)
            && err == FailureOf(calls[|calls| - 1], responses))
  {
    UpdateOutcomeEndsAtFirstFailure(id, o, n, responses);
    var (calls, err) := UpdateOutcome(id, o, n, responses);
    if err.Some? {
      assert FailureOf(calls[|calls| - 1], responses).Some?;
    }
  }

  // ---------------------------------------------------------------------
  // Read and Delete

  datatype ReadFailure =
    | ReadApiError(cause: ApiError)
    | LustreFileSystem
    | EmptyWindowsConfiguration

  /** What Read does with the finder's result: drop the resource from state,
      fail, or refresh the state (shown here: the directory block and the
      alias names, which are set only when the API returns an alias list). */
  datatype ReadOutcome =
    | RemovedFromState
    | ReadFailed(failure: ReadFailure)
    | Refreshed(selfManagedActiveDirectory: seq<AdState>, aliases: Option<set<string>>)

  /** `resourceAwsFsxWindowsFileSystemRead`: a FileSystemNotFound error and a
      nil file system both clear the id without error; any other error
      fails; a Lustre file system or a missing Windows configuration fails. */
  function Read(f: FinderResult, priorPassword: string): (r: ReadOutcome)
    ensures r.RemovedFromState? <==>
      ErrCodeEquals(f.err, ErrCodeFileSystemNotFound) || (f.err.None? && f.fileSystem.None?)
    ensures r == ReadFailed(LustreFileSystem) <==>
      f.err.None? && f.fileSystem.Some? && f.fileSystem.value.lustreConfiguration.Some?
    ensures r == ReadFailed(EmptyWindowsConfiguration) <==>
      && f.err.None? && f.fileSystem.Some?
      && f.fileSystem.value.lustreConfiguration.None?
      && f.fileSystem.value.windowsConfiguration.None?
    ensures (r.ReadFailed? && r.failure.ReadApiError?) <==>
      f.err.Some? && !ErrCodeEquals(f.err, ErrCodeFileSystemNotFound)
    ensures r.ReadFailed? && r.failure.ReadApiError? ==> r.failure.cause == f.err.value
    ensures r.Refreshed? ==>
      var win := f.fileSystem.value.windowsConfiguration.value;
      && r.selfManagedActiveDirectory == FlattenAd(priorPassword, win.selfManagedActiveDirectoryConfiguration)
      && (r.aliases.Some? <==> win.aliases.Some?)
      && (r.aliases.Some? ==> forall x :: x in r.aliases.value <==>
            exists i :: 0 <= i < |win.aliases.value| && StringValue(win.aliases.value[i].name) == x)
  {
    if ErrCodeEquals(f.err, ErrCodeFileSystemNotFound) then RemovedFromState
    else if f.err.Some? then ReadFailed(ReadApiError(f.err.value))
    else if f.fileSystem.None? then RemovedFromState
    else
      var filesystem := f.fileSystem.value;
      if filesystem.lustreConfiguration.Some? then ReadFailed(LustreFileSystem)
      else if filesystem.windowsConfiguration.None? then ReadFailed(EmptyWindowsConfiguration)
      else
        var winConfig := filesystem.windowsConfiguration.value;
        var aliases :=
          if winConfig.aliases.None? then None
          else Some(set a | a in winConfig.aliases.value :: StringValue(a.name));
        Refreshed(FlattenAd(priorPassword, winConfig.selfManagedActiveDirectoryConfiguration), aliases)
  }

  datatype DeleteError =
    | DeleteFailed(cause: ApiError)
    | DeleteWaitFailed(wait: WaitError)

  /** `resourceAwsFsxWindowsFileSystemDelete`: a FileSystemNotFound error is
      success without waiting; any other error fails; otherwise the deletion
      waiter runs over the listings `polls` and its error is returned. The
      second component says whether the waiter ran. */
  function Delete(id: string, timeout: nat, deleteErr: Option<ApiError>, polls: seq<Listing>)
    : (r: (Option<DeleteError>, bool))
    ensures ErrCodeEquals(deleteErr, ErrCodeFileSystemNotFound) ==> r == (None, false)
    ensures deleteErr.Some? && !ErrCodeEquals(deleteErr, ErrCodeFileSystemNotFound) ==>
      r == (Some(DeleteFailed(deleteErr.value)), false)
    ensures deleteErr.None? ==> r.1 && (r.0.None? <==> FileSystemDeleted(id, timeout, polls).1.None?)
    ensures deleteErr.None? && r.0.Some? ==>
      r.0.value == DeleteWaitFailed(FileSystemDeleted(id, timeout, polls).1.value)
  {
    if ErrCodeEquals(deleteErr, ErrCodeFileSystemNotFound) then (None, false)
    else if deleteErr.Some? then (Some(DeleteFailed(deleteErr.value)), false)
    else
      match FileSystemDeleted(id, timeout, polls).1
      case Some(e) => (Some(DeleteWaitFailed(e)), true)
      case None => (None, true)
  }

  /** A delete whose request succeeds and whose first refresh already finds
      no file system succeeds after that one refresh. */
  lemma DeleteSucceedsWhenGone(id: string, timeout: nat, more: seq<Listing>)
    ensures Delete(id, timeout, None, [Listing([], None)] + more) == (None, true)
  {
    var polls := [Listing([], None)] + more;
    var o := FileSystemObservations(id, polls);
    assert o[0] == RefreshResult(None, FileSystemStatusNotFound, None);
    FirstRefreshReached(FileSystemDeletedConf(timeout), o);
  }
}
