/** The five FSx waiters: each fixes the pending and target labels, the
    delay and the timeout of one lifecycle wait, runs the poll loop over its
    status probe, and recovers a typed result from the untyped one. A waiter
    here takes, for each refresh the loop makes before its deadline, the
    DescribeFileSystems listing that refresh sees. */
module FsxWaiter {
  import opened AwsBase
  import opened Fsx
  import opened FsxFinder
  import opened StateChange
  import opened FsxStatus

  // Delays and timeouts, in seconds.
  const FileSystemAvailableDelay: nat := 30
  const FileSystemDeletedDelay: nat := 30
  const FileSystemWindowsAliasAvailableTimeout: nat := 5 * 60
  const FileSystemWindowsAliasDeletedTimeout: nat := 5 * 60
  /** Declared for the administrative-actions waiter, which uses
      FileSystemAvailableDelay instead. */
  const FileSystemAdministrativeActionsCompletedOrOptimizingDelay: nat := 30

  function FileSystemAvailableConf(timeout: nat): (c: StateChangeConf)
    ensures Disjoint(c.pending, c.target)
    ensures c.pending == [FileSystemLifecycleUpdating, FileSystemLifecycleCreating]
    ensures c.target == [FileSystemLifecycleAvailable]
    ensures c.timeoutSeconds == timeout && c.delaySeconds == 30
  {
    StateChangeConf([FileSystemLifecycleUpdating, FileSystemLifecycleCreating],
                    [FileSystemLifecycleAvailable], timeout, FileSystemAvailableDelay)
  }

  function FileSystemDeletedConf(timeout: nat): (c: StateChangeConf)
    ensures Disjoint(c.pending, c.target)
    ensures c.pending == [FileSystemLifecycleAvailable, FileSystemLifecycleDeleting]
    ensures c.target == []
    ensures c.timeoutSeconds == timeout && c.delaySeconds == 30
  {
    StateChangeConf([FileSystemLifecycleAvailable, FileSystemLifecycleDeleting], [],
                    timeout, FileSystemDeletedDelay)
  }

  function FileSystemWindowsAliasAvailableConf(): (c: StateChangeConf)
    ensures Disjoint(c.pending, c.target)
    ensures c.pending == [AliasLifecycleCreating] && c.target == [AliasLifecycleAvailable]
    ensures c.timeoutSeconds == 300 && c.delaySeconds == 0
  {
    StateChangeConf([AliasLifecycleCreating], [AliasLifecycleAvailable],
                    FileSystemWindowsAliasAvailableTimeout, 0)
  }

  function FileSystemWindowsAliasDeletedConf(): (c: StateChangeConf)
    ensures Disjoint(c.pending, c.target)
    ensures c.pending == [AliasLifecycleDeleting] && c.target == []
    ensures c.timeoutSeconds == 300 && c.delaySeconds == 0
  {
    StateChangeConf([AliasLifecycleDeleting], [], FileSystemWindowsAliasDeletedTimeout, 0)
  }

  function AdministrativeActionsConf(timeout: nat): (c: StateChangeConf)
    ensures Disjoint(c.pending, c.target)
    ensures c.pending == [StatusInProgress, StatusPending]
    ensures c.target == [StatusCompleted, StatusUpdatedOptimizing]
    ensures c.timeoutSeconds == timeout && c.delaySeconds == FileSystemAvailableDelay
  {
    StateChangeConf([StatusInProgress, StatusPending], [StatusCompleted, StatusUpdatedOptimizing],
                    timeout, FileSystemAvailableDelay)
  }

  /** `outputRaw.(*fsx.FileSystem)`: the typed file system when the untyped
      result holds one, nil otherwise; the error passes through unchanged. */
  function AsFileSystem(w: WaitResult<Raw>): (r: (Option<FileSystem>, Option<WaitError>))
    ensures r.1 == w.err
    ensures r.0.Some? <==> w.result.Some? && w.result.value.FileSystemValue?
    ensures r.0.Some? ==> r.0.value == w.result.value.fileSystem
  {
    match w.result
    case Some(FileSystemValue(fs)) => (Some(fs), w.err)
    case _ => (None, w.err)
  }

  /** `outputRaw.(*fsx.Alias)`: the typed alias when the untyped result
      holds one, nil otherwise; the error passes through unchanged. */
  function AsAlias(w: WaitResult<Raw>): (r: (Option<Alias>, Option<WaitError>))
    ensures r.1 == w.err
    ensures r.0.Some? <==> w.result.Some? && w.result.value.AliasValue?
    ensures r.0.Some? ==> r.0.value == w.result.value.alias
  {
    match w.result
    case Some(AliasValue(a)) => (Some(a), w.err)
    case _ => (None, w.err)
  }

  /** What each refresh of `FileSystemStatus(conn, id)` reports. */
  function FileSystemObservations(id: string, polls: seq<Listing>): seq<Status> {
    seq(|polls|, i requires 0 <= i < |polls| => FileSystemStatus(Lookup(polls[i], id)))
  }

  /** What each refresh of `FileSystemWindowsAliasStatus(conn, id, aliasID)` reports. */
  function AliasObservations(id: string, aliasId: string, polls: seq<Listing>): seq<Status> {
    seq(|polls|, i requires 0 <= i < |polls| => AliasStatus(Lookup(polls[i], id), aliasId))
  }

  /** What each refresh of `FileSystemAdministrativeActionsStatus(conn, id)` reports. */
  function AdministrativeActionsObservations(id: string, polls: seq<Listing>): seq<Status> {
    seq(|polls|, i requires 0 <= i < |polls| => AdministrativeActionsStatus(Lookup(polls[i], id)))
  }

  function FileSystemAvailable(id: string, timeout: nat, polls: seq<Listing>)
    : (Option<FileSystem>, Option<WaitError>)
  {
    AsFileSystem(WaitForState(FileSystemAvailableConf(timeout), FileSystemObservations(id, polls)))
  }

  function FileSystemDeleted(id: string, timeout: nat, polls: seq<Listing>)
    : (Option<FileSystem>, Option<WaitError>)
  {
    AsFileSystem(WaitForState(FileSystemDeletedConf(timeout), FileSystemObservations(id, polls)))
  }

  function FileSystemWindowsAliasAvailable(id: string, aliasId: string, polls: seq<Listing>)
    : (Option<Alias>, Option<WaitError>)
  {
    AsAlias(WaitForState(FileSystemWindowsAliasAvailableConf(), AliasObservations(id, aliasId, polls)))
  }

  function FileSystemWindowsAliasDeleted(id: string, aliasId: string, polls: seq<Listing>)
    : (Option<Alias>, Option<WaitError>)
  {
    AsAlias(WaitForState(FileSystemWindowsAliasDeletedConf(), AliasObservations(id, aliasId, polls)))
  }

  function FileSystemAdministrativeActionsCompletedOrOptimizing(id: string, timeout: nat, polls: seq<Listing>)
    : (Option<FileSystem>, Option<WaitError>)
  {
    AsFileSystem(WaitForState(AdministrativeActionsConf(timeout), AdministrativeActionsObservations(id, polls)))
  }

  /** The alias probe's result is the alias id string, never an
      `*fsx.Alias`, so both alias waiters always return a nil alias; only
      their error says how the wait ended. */
  lemma {:induction false} AliasWaitersReturnNil(id: string, aliasId: string, polls: seq<Listing>)
    ensures FileSystemWindowsAliasAvailable(id, aliasId, polls).0.None?
    ensures FileSystemWindowsAliasDeleted(id, aliasId, polls).0.None?
  {
    var o := AliasObservations(id, aliasId, polls);
    WaitResultWasObserved(FileSystemWindowsAliasAvailableConf(), o);
    WaitResultWasObserved(FileSystemWindowsAliasDeletedConf(), o);
  }

  /** A listing of one page holding just `fs`. */
  function Only(fs: FileSystem): Listing {
    Listing([[fs]], None)
  }

  /** Waiting for availability: CREATING, CREATING, AVAILABLE succeeds on the
      third refresh and returns the file system seen then. */
  lemma CreatingThenAvailable(id: string, timeout: nat, fs1: FileSystem, fs2: FileSystem, fs3: FileSystem)
    requires fs1.fileSystemId == Some(id) && fs1.lifecycle == Some(FileSystemLifecycleCreating)
    requires fs2.fileSystemId == Some(id) && fs2.lifecycle == Some(FileSystemLifecycleCreating)
    requires fs3.fileSystemId == Some(id) && fs3.lifecycle == Some(FileSystemLifecycleAvailable)
    ensures WaitForState(FileSystemAvailableConf(timeout), FileSystemObservations(id, [Only(fs1), Only(fs2), Only(fs3)]))
            .refreshes == 3
    ensures FileSystemAvailable(id, timeout, [Only(fs1), Only(fs2), Only(fs3)]) == (Some(fs3), None)
  {
    LookupReturnsFirstMatch(Only(fs1), id, 0, 0);
    LookupReturnsFirstMatch(Only(fs2), id, 0, 0);
    LookupReturnsFirstMatch(Only(fs3), id, 0, 0);
    var c := FileSystemAvailableConf(timeout);
    var o := FileSystemObservations(id, [Only(fs1), Only(fs2), Only(fs3)]);
    assert StepOf(c, o[0], 0) == Continue(0);
    assert StepOf(c, o[1], 0) == Continue(0);
    assert Run(c, o[2..], 0, FileSystemLifecycleCreating) == WaitResult(Some(FileSystemValue(fs3)), None, 1);
    assert Run(c, o[1..], 0, FileSystemLifecycleCreating) == WaitResult(Some(FileSystemValue(fs3)), None, 2) by {
      assert o[1..][1..] == o[2..];
    }
  }

  /** Waiting for deletion: AVAILABLE, DELETING, then FileSystemNotFound
      succeeds on the third refresh with a nil file system and no error:
      absence is success because the target is empty. */
  lemma AvailableDeletingThenGone(id: string, timeout: nat, fs1: FileSystem, fs2: FileSystem, message: string)
    requires fs1.fileSystemId == Some(id) && fs1.lifecycle == Some(FileSystemLifecycleAvailable)
    requires fs2.fileSystemId == Some(id) && fs2.lifecycle == Some(FileSystemLifecycleDeleting)
    ensures FileSystemDeleted(id, timeout,
              [Only(fs1), Only(fs2), Listing([], Some(AwsError(ErrCodeFileSystemNotFound, message)))])
            == (None, None)
  {
    LookupReturnsFirstMatch(Only(fs1), id, 0, 0);
    LookupReturnsFirstMatch(Only(fs2), id, 0, 0);
    var c := FileSystemDeletedConf(timeout);
    var o := FileSystemObservations(id,
      [Only(fs1), Only(fs2), Listing([], Some(AwsError(ErrCodeFileSystemNotFound, message)))]);
    assert StepOf(c, o[0], 0) == Continue(0);
    assert StepOf(c, o[1], 0) == Continue(0);
    assert o[2] == RefreshResult(None, FileSystemStatusNotFound, None);
    assert Run(c, o[2..], 0, FileSystemLifecycleDeleting) == WaitResult(None, None, 1);
    assert Run(c, o[1..], 0, FileSystemLifecycleAvailable) == WaitResult(None, None, 2) by {
      assert o[1..][1..] == o[2..];
    }
  }

  /** A lifecycle outside both sets (FAILED, say) ends the availability wait
      at once with an unexpected-state error, and the file system seen is
      still returned beside the error. */
  lemma AvailableFailsOnUnexpectedLifecycle(id: string, timeout: nat, fs: FileSystem, more: seq<Listing>)
    requires fs.fileSystemId == Some(id)
    requires StringValue(fs.lifecycle) !in [FileSystemLifecycleUpdating, FileSystemLifecycleCreating,
                                            FileSystemLifecycleAvailable]
    ensures FileSystemAvailable(id, timeout, [Only(fs)] + more) ==
            (Some(fs), Some(UnexpectedStateError(StringValue(fs.lifecycle))))
  {
    LookupReturnsFirstMatch(Only(fs), id, 0, 0);
  }

  /** No FILE_SYSTEM_UPDATE action means COMPLETED, a target label: the
      administrative-actions wait succeeds on its first refresh. */
  lemma NoUpdateActionMeansCompleted(id: string, timeout: nat, fs: FileSystem, more: seq<Listing>)
    requires fs.fileSystemId == Some(id)
    requires forall i :: 0 <= i < |fs.administrativeActions| ==> !IsUpdateAction(fs.administrativeActions[i])
    ensures FileSystemAdministrativeActionsCompletedOrOptimizing(id, timeout, [Only(fs)] + more) == (Some(fs), None)
  {
    LookupReturnsFirstMatch(Only(fs), id, 0, 0);
  }

  /** Once the alias being removed has disappeared while other aliases
      remain on the file system, the alias probe reports the empty label,
      which is in neither set: the deletion wait fails with an
      unexpected-state error instead of succeeding. It succeeds only when
      the whole alias list is empty (NotFound, a nil result). */
  lemma AliasDeletedFailsWhileOtherAliasesRemain(
    id: string, aliasId: string, fs: FileSystem, aliases: seq<Alias>, more: seq<Listing>)
    requires fs.fileSystemId == Some(id)
    requires fs.windowsConfiguration.Some? && fs.windowsConfiguration.value.aliases == Some(aliases)
    requires |aliases| > 0
    requires forall i :: 0 <= i < |aliases| ==> StringValue(aliases[i].name) != aliasId
    ensures FileSystemWindowsAliasDeleted(id, aliasId, [Only(fs)] + more) ==
            (None, Some(UnexpectedStateError("")))
  {
    LookupReturnsFirstMatch(Only(fs), id, 0, 0);
  }

  // ---------------------------------------------------------------------
  // What a successful wait means, for every sequence of listings

  /** A refresh of the availability wait that keeps polling: the finder
      reported FileSystemNotFound or no file system, or a file system still
      UPDATING or CREATING. */
  predicate NotYetAvailable(f: FinderResult) {
    if f.err.Some? then ErrCodeEquals(f.err, ErrCodeFileSystemNotFound)
    else
      || f.fileSystem.None?
      || StringValue(f.fileSystem.value.lifecycle) in [FileSystemLifecycleUpdating, FileSystemLifecycleCreating]
  }

  /** The availability wait succeeds only on an AVAILABLE file system: the
      one returned is the one the last refresh found, with the requested id,
      and every earlier refresh saw it missing or still being created or
      updated. */
  lemma {:induction false} FileSystemAvailableReturnsAvailable(id: string, timeout: nat, polls: seq<Listing>)
    ensures var w := WaitForState(FileSystemAvailableConf(timeout), FileSystemObservations(id, polls));
      var r := FileSystemAvailable(id, timeout, polls);
      r.1.None? ==>
        && 0 < w.refreshes <= |polls|
        && r.0.Some? && r.0 == Lookup(polls[w.refreshes - 1], id).fileSystem
        && Matches(r.0.value, id)
        && StringValue(r.0.value.lifecycle) == FileSystemLifecycleAvailable
        && forall i :: 0 <= i < w.refreshes - 1 ==> NotYetAvailable(Lookup(polls[i], id))
  {
    var c := FileSystemAvailableConf(timeout);
    var o := FileSystemObservations(id, polls);
    var w := WaitForState(c, o);
    if w.err.None? {
      var k := w.refreshes - 1;
      assert o[k] == FileSystemStatus(Lookup(polls[k], id));
      forall i | 0 <= i < k ensures NotYetAvailable(Lookup(polls[i], id)) {
        assert o[i] == FileSystemStatus(Lookup(polls[i], id));
        assert KeepsPolling(c, o[i]);
      }
    }
  }

  /** The finder saw the file system gone: FileSystemNotFound, or no file
      system and no error. */
  predicate Gone(f: FinderResult) {
    ErrCodeEquals(f.err, ErrCodeFileSystemNotFound) || (f.err.None? && f.fileSystem.None?)
  }

  /** The finder saw the file system still AVAILABLE or DELETING. */
  predicate StillDeleting(f: FinderResult) {
    && f.err.None? && f.fileSystem.Some?
    && StringValue(f.fileSystem.value.lifecycle) in [FileSystemLifecycleAvailable, FileSystemLifecycleDeleting]
  }

  /** The deletion wait succeeds only when the file system is gone: on
      success the last refresh saw it gone, every earlier one saw it
      AVAILABLE or DELETING, and no file system is returned. */
  lemma {:induction false} FileSystemDeletedSucceedsOnlyWhenGone(id: string, timeout: nat, polls: seq<Listing>)
    ensures var w := WaitForState(FileSystemDeletedConf(timeout), FileSystemObservations(id, polls));
      var r := FileSystemDeleted(id, timeout, polls);
      r.1.None? ==>
        && r.0.None?
        && 0 < w.refreshes <= |polls|
        && Gone(Lookup(polls[w.refreshes - 1], id))
        && forall i :: 0 <= i < w.refreshes - 1 ==> StillDeleting(Lookup(polls[i], id))
  {
    var c := FileSystemDeletedConf(timeout);
    var o := FileSystemObservations(id, polls);
    var w := WaitForState(c, o);
    if w.err.None? {
      var k := w.refreshes - 1;
      assert o[k] == FileSystemStatus(Lookup(polls[k], id));
      forall i | 0 <= i < k ensures StillDeleting(Lookup(polls[i], id)) {
        assert o[i] == FileSystemStatus(Lookup(polls[i], id));
        assert KeepsPolling(c, o[i]);
      }
    }
  }

  /** Conversely, the deletion wait succeeds on the first refresh that sees
      the file system gone, when every refresh before it saw it AVAILABLE
      or DELETING. */
  lemma FileSystemDeletedSucceedsOnFirstGone(id: string, timeout: nat, polls: seq<Listing>, k: nat)
    requires k < |polls| && Gone(Lookup(polls[k], id))
    requires forall i :: 0 <= i < k ==> StillDeleting(Lookup(polls[i], id))
    ensures WaitForState(FileSystemDeletedConf(timeout), FileSystemObservations(id, polls)).refreshes == k + 1
    ensures FileSystemDeleted(id, timeout, polls) == (None, None)
  {
    var c := FileSystemDeletedConf(timeout);
    var o := FileSystemObservations(id, polls);
    forall i | 0 <= i < k ensures KeepsPolling(c, o[i]) && o[i].result.Some? {
      assert o[i] == FileSystemStatus(Lookup(polls[i], id));
    }
    assert o[k] == FileSystemStatus(Lookup(polls[k], id));
    RunStopsAtFirstReached(c, o, k, 0, "");
  }

  /** The alias availability wait succeeds only when the last refresh found
      the file system with a non-empty alias list whose first alias of that
      name is AVAILABLE. */
  lemma {:induction false} AliasAvailableSucceedsOnAvailableAlias(id: string, aliasId: string, polls: seq<Listing>)
    ensures var w := WaitForState(FileSystemWindowsAliasAvailableConf(), AliasObservations(id, aliasId, polls));
      FileSystemWindowsAliasAvailable(id, aliasId, polls).1.None? ==>
        && 0 < w.refreshes <= |polls|
        && var f := Lookup(polls[w.refreshes - 1], id);
        && f.err.None? && f.fileSystem.Some?
        && f.fileSystem.value.windowsConfiguration.Some?
        && f.fileSystem.value.windowsConfiguration.value.aliases.Some?
        && var aliases := f.fileSystem.value.windowsConfiguration.value.aliases.value;
        && 0 < |aliases|
        && AliasIndex(aliases, aliasId) < |aliases|
        && StringValue(aliases[AliasIndex(aliases, aliasId)].lifecycle) == AliasLifecycleAvailable
  {
    var c := FileSystemWindowsAliasAvailableConf();
    var o := AliasObservations(id, aliasId, polls);
    var w := WaitForState(c, o);
    if w.err.None? {
      var k := w.refreshes - 1;
      assert o[k] == AliasStatus(Lookup(polls[k], id), aliasId);
    }
  }

  /** The alias deletion wait succeeds only when the last refresh found no
      alias to report: the file system gone, without a Windows
      configuration, or with a nil or empty alias list. */
  lemma {:induction false} AliasDeletedSucceedsOnlyWithoutAliases(id: string, aliasId: string, polls: seq<Listing>)
    ensures var w := WaitForState(FileSystemWindowsAliasDeletedConf(), AliasObservations(id, aliasId, polls));
      FileSystemWindowsAliasDeleted(id, aliasId, polls).1.None? ==>
        && 0 < w.refreshes <= |polls|
        && var f := Lookup(polls[w.refreshes - 1], id);
        || Gone(f)
        || (&& f.err.None? && f.fileSystem.Some?
            && (|| f.fileSystem.value.windowsConfiguration.None?
                || f.fileSystem.value.windowsConfiguration.value.aliases.None?
                || |f.fileSystem.value.windowsConfiguration.value.aliases.value| == 0))
  {
    var c := FileSystemWindowsAliasDeletedConf();
    var o := AliasObservations(id, aliasId, polls);
    var w := WaitForState(c, o);
    if w.err.None? {
      var k := w.refreshes - 1;
      assert o[k] == AliasStatus(Lookup(polls[k], id), aliasId);
    }
  }

  /** The administrative-actions wait succeeds only on a found file system
      whose first FILE_SYSTEM_UPDATE action is COMPLETED or
      UPDATED_OPTIMIZING, or which has no such action; that file system is
      the one returned. */
  lemma {:induction false} AdministrativeActionsSucceedOnlyWhenSettled(id: string, timeout: nat, polls: seq<Listing>)
    ensures var w := WaitForState(AdministrativeActionsConf(timeout), AdministrativeActionsObservations(id, polls));
      var r := FileSystemAdministrativeActionsCompletedOrOptimizing(id, timeout, polls);
      r.1.None? ==>
        && 0 < w.refreshes <= |polls|
        && r.0.Some? && r.0 == Lookup(polls[w.refreshes - 1], id).fileSystem
        && match FirstUpdateAction(r.0.value.administrativeActions)
           case None => true
           case Some(a) => StringValue(a.status) in [StatusCompleted, StatusUpdatedOptimizing]
  {
    var c := AdministrativeActionsConf(timeout);
    var o := AdministrativeActionsObservations(id, polls);
    var w := WaitForState(c, o);
    if w.err.None? {
      var k := w.refreshes - 1;
      assert o[k] == AdministrativeActionsStatus(Lookup(polls[k], id));
    }
  }
}
