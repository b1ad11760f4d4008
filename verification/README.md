# FSx, Client VPN and SES resources of the Terraform AWS provider, modelled in Dafny

This project models a slice of the Terraform AWS provider:

- **FSx lookup and waiting.**
  - `finder.FileSystemByID` looks a file system up by id in the paginated DescribeFileSystems listing.
  - Three status probes turn the finder's answer into a `(result, state, error)` triple.
  - Five waiters poll those probes until a lifecycle or administrative-action state is reached.
- **The `aws_fsx_windows_file_system` resource.**
  - The update sends only the changed settings, waits for the administrative action, and then reconciles the alias set.
  - Read and Delete treat a missing file system as absent.
  - The helpers map the `self_managed_active_directory` block to and from the FSx API.
- **The `aws_ec2_client_vpn_endpoint` resource.**
  - The authentication and connection-log option helpers.
  - The modify request built by Update.
  - The rules by which Read and `deleteClientVpnEndpoint` treat an endpoint that is gone.
- **The `aws_ses_configuration_set` resource.**
  - The delivery and tracking option helpers.
  - The calls Create and Update make, one after the other, each returning on the first error.
  - The not-found rules of Read and Delete.

How the project is laid out:

- **Inputs instead of the network.** Every call to AWS is replaced by its answer, given as an input:
  - a `Listing` of pages and a paging failure;
  - the sequence of listings seen by successive refreshes;
  - an error value;
  - a map from the calls that fail to their errors.
- **The poll loop.** The waiters hand their configuration to `resource.StateChangeConf.WaitForState` That function lives in terraform-plugin-sdk, outside the provider.
  - `state_change.dfy` is an abstract model of its poll loop.
  - The loop runs over the finite sequence of refresh results observed before the deadline. "Timed out" means those observations ran out.
- **Modules.** One module per source file:
  - `AwsBase`: nil pointers, AWS errors and untyped values;
  - `Fsx`: FSx API types and constants;
  - `FsxFinder`, `StateChange`, `FsxStatus`, `FsxWaiter`;
  - `FsxWindowsFileSystem`, `Ec2ClientVpnEndpoint`, `SesConfigurationSet`.
- **Loops become methods.** Code that works by looping and updating variables is a `method` proved equal to a specification function:
  - the finder's page loop;
  - the alias probe's search;
  - the alias waits;
  - `flattenAuthOptsConfig`;
  - the step-by-step request builders.
- **Pure code becomes functions.** Everything else is functions, with lemmas relating them.

## Model

| member | source | states |
|---|---|---|
| FsxFinder.MatchIndex | aws/internal/service/fsx/finder/finder.go:17-21 | the position of the first file system of a page with the requested id, or the page length; no earlier entry matches |
| FsxFinder.MatchingPage | aws/internal/service/fsx/finder/finder.go:16-25 | the first page holding a match, or the number of pages; every earlier page holds none |
| FsxFinder.Lookup | aws/internal/service/fsx/finder/finder.go:9-32 | a returned file system has the requested id; an error comes only with a nil file system; a nil file system comes with exactly the paging failure (none when the listing was exhausted) |
| FsxFinder.LookupReturnsFirstMatch | aws/internal/service/fsx/finder/finder.go:16-25 | first match wins: the earliest match in page order and then in-page order is returned with no error, whatever follows it |
| FsxFinder.LookupAbsence | aws/internal/service/fsx/finder/finder.go:27-31 | the result is nil exactly when no page holds the id, and then the error is the paging failure: absence is not an error |
| FsxFinder.MatchingPageAfter | aws/internal/service/fsx/finder/finder.go:16-25 | after a run of pages without a match, a page with a match is the first matching page |
| FsxFinder.ScanPage | aws/internal/service/fsx/finder/finder.go:17-22 | the callback's scan captures something exactly when the page holds a match, and captures the first match |
| FsxFinder.FileSystemByID | aws/internal/service/fsx/finder/finder.go:9-32 | the paged loop returns exactly `Lookup`; it hands over the pages up to and including the first page with a match and no page after it |
| StateChange.StepOf | aws/internal/service/fsx/waiter/waiter.go:20-28 | library model, one refresh: an error fails the wait with that error; the step succeeds exactly on a target label or on absence while the target is empty; with disjoint sets a pending label keeps polling and any other label is an unexpected state |
| StateChange.Run | aws/internal/service/fsx/waiter/waiter.go:28 | library model, the poll loop: every refresh before the last kept polling; a timeout consumes every refresh, returns a nil result and carries the last label seen; otherwise the last refresh's result is returned; there is no error exactly when the last refresh reached the target; a failure is the refresh's own error, a not-found error beyond the nil-result limit, or an unexpected-state error naming a label in neither set |
| StateChange.WaitResultWasObserved | aws/internal/service/fsx/waiter/waiter.go:28 | library model: the result a wait returns is nil or the result of one of the refreshes |
| StateChange.NeverSucceedsWhilePending | aws/internal/service/fsx/waiter/waiter.go:20-28 | library model: with disjoint label sets, a successful wait ended on a target label that is not pending (or on absence) |
| StateChange.AlwaysPendingTimesOut | aws/internal/service/fsx/waiter/waiter.go:20-28 | library model: a resource that stays pending consumes every refresh and times out with a nil result and the last pending label |
| StateChange.NotFoundAfterConsecutiveNilResults | aws/internal/service/fsx/waiter/waiter.go:28 | library model: a not-found failure carries the count 21 (the limit of 20 plus one), and the refreshes behind that count, the last 21 (fewer only when the count did not start at zero), all returned a nil result with no error |
| StateChange.RunStopsAtFirstReached | aws/internal/service/fsx/waiter/waiter.go:28 | library model: refreshes that keep polling with a result, followed by one that reaches the target, end the wait on that refresh with its result |
| StateChange.FirstRefreshReached | aws/internal/service/fsx/waiter/waiter.go:28 | library model: a first refresh that reaches the target ends the wait at once with its result |
| FsxStatus.Normalize | aws/internal/service/fsx/waiter/status.go:20-31 | the checks common to the three probes: FileSystemNotFound becomes NotFound with no error; any other error becomes Unknown with that error; a nil file system becomes NotFound; the probe reads on exactly when there is a file system and no error |
| FsxStatus.FileSystemStatus | aws/internal/service/fsx/waiter/status.go:18-35 | a found file system is reported with its Lifecycle as the label |
| FsxStatus.AliasIndex | aws/internal/service/fsx/waiter/status.go:63-69 | the position of the first alias with the requested name, or the list length |
| FsxStatus.AliasLifecycle | aws/internal/service/fsx/waiter/status.go:63-69 | the label is the Lifecycle of the first alias with that name, and "" when no alias has it |
| FsxStatus.AliasStatus | aws/internal/service/fsx/waiter/status.go:38-73 | the common checks; Unknown with no error for a file system without a Windows configuration; NotFound with a nil result for a nil or empty alias list; otherwise the alias id as result and the Lifecycle of the first alias of that name as label ("" when none); the error is always none or the finder's |
| FsxStatus.FileSystemWindowsAliasStatus | aws/internal/service/fsx/waiter/status.go:38-73 | the probe's loop computes exactly `AliasStatus`, case by case; a missing Windows configuration is Unknown with no error; a non-nil result comes with no error from a non-empty alias list, and a non-empty label only when an alias with that name exists |
| FsxStatus.FirstUpdateAction | aws/internal/service/fsx/waiter/status.go:91-99 | the first non-nil FILE_SYSTEM_UPDATE action, nil ones skipped; none exactly when no action is of that type |
| FsxStatus.AdministrativeActionsStatus | aws/internal/service/fsx/waiter/status.go:76-103 | a found file system is reported with the Status of its first FILE_SYSTEM_UPDATE action, or COMPLETED when it has none |
| FsxWaiter.FileSystemAvailableConf | aws/internal/service/fsx/waiter/waiter.go:20-26 | pending exactly UPDATING and CREATING, target exactly AVAILABLE (disjoint), the caller's timeout and a 30-second delay |
| FsxWaiter.FileSystemDeletedConf | aws/internal/service/fsx/waiter/waiter.go:39-45 | pending exactly AVAILABLE and DELETING, an empty target (waiting for absence), the caller's timeout and a 30-second delay |
| FsxWaiter.FileSystemWindowsAliasAvailableConf | aws/internal/service/fsx/waiter/waiter.go:58-63 | pending exactly CREATING, target exactly AVAILABLE, a five-minute timeout and no delay |
| FsxWaiter.FileSystemWindowsAliasDeletedConf | aws/internal/service/fsx/waiter/waiter.go:76-81 | pending exactly DELETING, an empty target (waiting for absence), a five-minute timeout and no delay |
| FsxWaiter.AdministrativeActionsConf | aws/internal/service/fsx/waiter/waiter.go:94-106 | pending exactly IN_PROGRESS and PENDING, target exactly COMPLETED and UPDATED_OPTIMIZING (disjoint), the caller's timeout and the file-system-available delay |
| FsxWaiter.AsFileSystem | aws/internal/service/fsx/waiter/waiter.go:30-34 | a typed file system exactly when the untyped result holds one; the error passes through unchanged |
| FsxWaiter.AsAlias | aws/internal/service/fsx/waiter/waiter.go:67-71 | a typed alias exactly when the untyped result holds one, and then that alias; the error passes through unchanged |
| FsxWaiter.AliasWaitersReturnNil | aws/internal/service/fsx/waiter/waiter.go:65-71 | the probe reports a string, never an `*fsx.Alias`, so both alias waiters always return a nil alias |
| FsxWaiter.CreatingThenAvailable | aws/internal/service/fsx/waiter/waiter.go:19-35 | CREATING, CREATING, AVAILABLE succeeds on the third refresh and returns the file system seen then |
| FsxWaiter.AvailableDeletingThenGone | aws/internal/service/fsx/waiter/waiter.go:38-54 | AVAILABLE, DELETING, then FileSystemNotFound succeeds with a nil file system and no error |
| FsxWaiter.AvailableFailsOnUnexpectedLifecycle | aws/internal/service/fsx/waiter/waiter.go:19-35 | a lifecycle outside both sets fails at once with an unexpected-state error, and the file system is still returned |
| FsxWaiter.NoUpdateActionMeansCompleted | aws/internal/service/fsx/waiter/waiter.go:93-115 | with no FILE_SYSTEM_UPDATE action the administrative-actions wait succeeds on its first refresh |
| FsxWaiter.AliasDeletedFailsWhileOtherAliasesRemain | aws/internal/service/fsx/waiter/waiter.go:75-90 | once the removed alias is gone while other aliases remain, the probe's "" label fails the deletion wait with an unexpected state |
| FsxWaiter.FileSystemAvailableReturnsAvailable | aws/internal/service/fsx/waiter/waiter.go:19-35 | `FileSystemAvailable`, for every sequence of listings: success returns the file system the last refresh found, with the requested id and lifecycle AVAILABLE, and every earlier refresh saw it missing, UPDATING or CREATING |
| FsxWaiter.FileSystemDeletedSucceedsOnlyWhenGone | aws/internal/service/fsx/waiter/waiter.go:38-54 | `FileSystemDeleted`, for every sequence of listings: success returns no file system, the last refresh saw it gone (FileSystemNotFound, or none found), and every earlier refresh saw it AVAILABLE or DELETING |
| FsxWaiter.FileSystemDeletedSucceedsOnFirstGone | aws/internal/service/fsx/waiter/waiter.go:38-54 | `FileSystemDeleted`, conversely: when the file system is AVAILABLE or DELETING until some refresh sees it gone, the wait succeeds on that refresh with no file system and no error |
| FsxWaiter.AliasAvailableSucceedsOnAvailableAlias | aws/internal/service/fsx/waiter/waiter.go:56-72 | `FileSystemWindowsAliasAvailable`: success means the last refresh found the file system with a non-empty alias list in which the first alias of that name is AVAILABLE |
| FsxWaiter.AliasDeletedSucceedsOnlyWithoutAliases | aws/internal/service/fsx/waiter/waiter.go:74-90 | `FileSystemWindowsAliasDeleted`: success means the last refresh found nothing to report: the file system gone, without a Windows configuration, or with a nil or empty alias list |
| FsxWaiter.AdministrativeActionsSucceedOnlyWhenSettled | aws/internal/service/fsx/waiter/waiter.go:92-115 | `FileSystemAdministrativeActionsCompletedOrOptimizing`: success returns the file system the last refresh found, whose first FILE_SYSTEM_UPDATE action is COMPLETED or UPDATED_OPTIMIZING, or which has none |
| FsxWindowsFileSystem.NonEmptyKey | aws/resource_aws_fsx_windows_file_system.go:534-540 | an optional key is carried exactly when present and non-empty, with its value |
| FsxWindowsFileSystem.ExpandAdCreate | aws/resource_aws_fsx_windows_file_system.go:521-543 | nil exactly for an empty list or a nil first block; otherwise the domain, the DNS addresses and the credentials of the block, and each optional key exactly when it is non-empty |
| FsxWindowsFileSystem.ExpandAdUpdate | aws/resource_aws_fsx_windows_file_system.go:545-558 | nil exactly for an empty list or a nil first block; otherwise only the DNS addresses and the credentials |
| FsxWindowsFileSystem.FlattenAd | aws/resource_aws_fsx_windows_file_system.go:560-581 | nil attributes become the empty list; otherwise one block with the reported fields (nil as "") and the password already in state |
| FsxWindowsFileSystem.AdRoundTrip | aws/resource_aws_fsx_windows_file_system.go:521-581 | a block sent on create and read back is the same block, except that an absent optional key reads back as "" |
| FsxWindowsFileSystem.BuildUpdateInput | aws/resource_aws_fsx_windows_file_system.go:309-345 | the update is requested exactly when one of the six tracked settings changed, and the request is `UpdateInput` |
| FsxWindowsFileSystem.UpdateInputCarriesChangedFields | aws/resource_aws_fsx_windows_file_system.go:316-345 | each field of the request is set exactly when its setting changed, to the new value; the directory update is set when the block changed and is present; unchanged settings give an empty request |
| FsxWindowsFileSystem.Difference | aws/resource_aws_fsx_windows_file_system.go:364 | the set difference: exactly the members of the first set missing from the second, duplicate-free; empty exactly when the first is included in the second |
| FsxWindowsFileSystem.AliasDiffReconciles | aws/resource_aws_fsx_windows_file_system.go:364-385 | the old aliases minus the removals plus the additions are exactly the new aliases; the two lists are disjoint and empty when nothing changed |
| FsxWindowsFileSystem.FirstFailingWait | aws/resource_aws_fsx_windows_file_system.go:377-381 | the position of the first alias whose wait fails, or the list length |
| FsxWindowsFileSystem.WaitCalls | aws/resource_aws_fsx_windows_file_system.go:377-381 | one wait per alias in list order, up to and including the first that fails |
| FsxWindowsFileSystem.WaitForAliases | aws/resource_aws_fsx_windows_file_system.go:397-401 | the loop makes exactly `WaitCalls` and returns the first failure's error, or none |
| FsxWindowsFileSystem.AssociateAdded | aws/resource_aws_fsx_windows_file_system.go:364-382 | calls and error are exactly `AssociationOutcome`: nothing when nothing was added; otherwise the associate request, failing with AssociateFailed, then the availability waits up to the first that fails, whose error is returned; only alias calls |
| FsxWindowsFileSystem.DisassociateRemoved | aws/resource_aws_fsx_windows_file_system.go:384-402 | calls and error are exactly `DisassociationOutcome`: nothing when nothing was removed; otherwise the disassociate request, failing with DisassociateFailed, then the deletion waits up to the first that fails, whose error is returned; only alias calls |
| FsxWindowsFileSystem.ReconcileAliases | aws/resource_aws_fsx_windows_file_system.go:358-403 | calls and error are exactly `ReconcileOutcome`: the association, then the disassociation only if the association succeeded; only alias calls |
| FsxWindowsFileSystem.Update | aws/resource_aws_fsx_windows_file_system.go:309-403 | calls and error are exactly `UpdateOutcome`: UpdateFileSystem with the changed settings and the administrative-action wait when a tracked setting changed, then the alias reconciliation when the alias set changed, each step only after the earlier ones succeeded; any call after the first two is an alias call |
| FsxWindowsFileSystem.UpdateSentIffChanged | aws/resource_aws_fsx_windows_file_system.go:346-356 | for the calls `Update` makes, UpdateFileSystem is among them exactly when a tracked setting changed |
| FsxWindowsFileSystem.DisassociateNamesAddedAliases | aws/resource_aws_fsx_windows_file_system.go:386-389 | as written, the disassociate request names the added aliases: replacing a by b disassociates b and never a |
| FsxWindowsFileSystem.ThenEndsAtFirstFailure | aws/resource_aws_fsx_windows_file_system.go:346-403 | two steps in sequence, each stopping at its first failing call, stop at their first failing call |
| FsxWindowsFileSystem.WaitStageEndsAtFirstFailure | aws/resource_aws_fsx_windows_file_system.go:377-381 | the alias waits stop at the first failing wait, and the error is that wait's |
| FsxWindowsFileSystem.AssociationEndsAtFirstFailure | aws/resource_aws_fsx_windows_file_system.go:364-382 | the association stops at its first failing call with that call's error |
| FsxWindowsFileSystem.DisassociationEndsAtFirstFailure | aws/resource_aws_fsx_windows_file_system.go:384-402 | the disassociation stops at its first failing call with that call's error |
| FsxWindowsFileSystem.UpdateOutcomeEndsAtFirstFailure | aws/resource_aws_fsx_windows_file_system.go:346-403 | the whole update stops at its first failing call with that call's error |
| FsxWindowsFileSystem.UpdateStopsAtFirstFailure | aws/resource_aws_fsx_windows_file_system.go:346-403 | the update succeeds exactly when none of its calls failed; otherwise the last call made is the first failing one and the error is that call's (UpdateFileSystem at 350, the administrative wait at 354, associate at 374, an availability wait at 379, disassociate at 394, a deletion wait at 399) |
| FsxWindowsFileSystem.Read | aws/resource_aws_fsx_windows_file_system.go:408-489 | FileSystemNotFound or a nil file system removes the resource from state; any other error fails with that error; a Lustre file system or a missing Windows configuration fails; otherwise the directory block is flattened, and the alias names are set exactly when the API returns an alias list |
| FsxWindowsFileSystem.Delete | aws/resource_aws_fsx_windows_file_system.go:491-519 | FileSystemNotFound is success without waiting; any other error fails without waiting; otherwise the deletion waiter runs, the delete fails exactly when the wait does, and then returns the wait's own error, wrapped |
| FsxWindowsFileSystem.DeleteSucceedsWhenGone | aws/resource_aws_fsx_windows_file_system.go:502-518 | when the request succeeds and the first refresh finds no file system, the delete succeeds after that refresh |
| Ec2ClientVpnEndpoint.FlattenAuthOpt | aws/resource_aws_ec2_client_vpn_endpoint.go:356-367 | "type" always, and the key of each sub-structure exactly when the API reported it, with its identifier (nil as ""); no other key |
| Ec2ClientVpnEndpoint.FlattenAuthOptsConfig | aws/resource_aws_ec2_client_vpn_endpoint.go:353-371 | one entry per option, prepended as it goes, so the state lists the options in reverse API order |
| Ec2ClientVpnEndpoint.ExpandAuthenticationRequest | aws/resource_aws_ec2_client_vpn_endpoint.go:395-419 | the type is always sent; each sub-request is present exactly when the type names it, with the matching identifier; so at most one is present |
| Ec2ClientVpnEndpoint.AuthOptionRoundTrip | aws/resource_aws_ec2_client_vpn_endpoint.go:353-419 | a block sent and read back gives its type and the one identifier its type uses, and nothing else |
| Ec2ClientVpnEndpoint.ConnLoggingState | aws/resource_aws_ec2_client_vpn_endpoint.go:341-351 | "enabled" always (false when nil); the group and the stream exactly when reported; no other key |
| Ec2ClientVpnEndpoint.FlattenConnLoggingConfig | aws/resource_aws_ec2_client_vpn_endpoint.go:341-351 | the map filled in place is returned as the one-element list `[ConnLoggingState]` |
| Ec2ClientVpnEndpoint.ExpandConnectionLogOptions | aws/resource_aws_ec2_client_vpn_endpoint.go:373-393 | empty options for an empty list or a nil block; otherwise "enabled", and the group and the stream exactly when logging is enabled and they are non-empty |
| Ec2ClientVpnEndpoint.ConnectionLogRoundTrip | aws/resource_aws_ec2_client_vpn_endpoint.go:341-393 | options read and sent back reach the API unchanged when logging is enabled with a group and a stream; when logging is disabled only "enabled: false" is sent |
| Ec2ClientVpnEndpoint.BuildModifyRequest | aws/resource_aws_ec2_client_vpn_endpoint.go:284-325 | each field is set exactly when its argument changed, to the new value; custom DNS is enabled exactly when the new list is non-empty; the log options are sent exactly when they changed and the new list is non-empty |
| Ec2ClientVpnEndpoint.ReadEndpoint | aws/resource_aws_ec2_client_vpn_endpoint.go:195-222 | gone (either not-found code, no endpoint, a nil endpoint, or status "deleted") exactly when `EndpointGone`; any other error fails with that error; otherwise the first endpoint is read |
| Ec2ClientVpnEndpoint.DeleteClientVpnEndpoint | aws/resource_aws_ec2_client_vpn_endpoint.go:421-435 | a missing endpoint is success without waiting; any other error is returned without waiting; otherwise the waiter runs and its error is returned |
| SesConfigurationSet.ExpandDeliveryOptionsReadsFirstBlock | internal/service/ses/configuration_set.go:293-310 | nil exactly for an empty list, a nil first element or a non-map; otherwise the options carry the block's TLS policy |
| SesConfigurationSet.FlattenDeliveryOptions | internal/service/ses/configuration_set.go:312-322 | nil becomes the empty list; otherwise one block holding the TLS policy |
| SesConfigurationSet.DeliveryOptionsRoundTrip | internal/service/ses/configuration_set.go:293-322 | the two delivery helpers are inverse to each other in both directions |
| SesConfigurationSet.ExpandTrackingOptionsReadsFirstBlock | internal/service/ses/configuration_set.go:324-341 | nil exactly for an empty list, a nil first element or a non-map; otherwise the redirect domain is present exactly when the block holds a non-empty string |
| SesConfigurationSet.FlattenTrackingOptions | internal/service/ses/configuration_set.go:343-353 | nil becomes the empty list; otherwise one block whose domain is "" when none is reported |
| SesConfigurationSet.TrackingOptionsRoundTrip | internal/service/ses/configuration_set.go:324-353 | a block survives a send and a read whatever its domain; what the API reports survives, except that a reported empty domain comes back nil |
| SesConfigurationSet.ExecuteStopsAtFirstFailure | internal/service/ses/configuration_set.go:108-161 | the calls made are a prefix of the plan ending at the first failing call, which is reported with its error; the whole plan when none fails |
| SesConfigurationSet.ExecuteAppend | internal/service/ses/configuration_set.go:224-270 | running two plans in sequence runs the second only when the first ran to the end |
| SesConfigurationSet.CallIf | internal/service/ses/configuration_set.go:115-125 | one guarded call: made exactly when its condition holds; fails exactly when made and failing, ending the run; otherwise the run goes on |
| SesConfigurationSet.Create | internal/service/ses/configuration_set.go:96-162 | the calls and the error are those of running `CreatePlan` in order until the first failure; the id is set exactly when the set was created |
| SesConfigurationSet.InCreatePlan | internal/service/ses/configuration_set.go:108-161 | a call is planned exactly when it is the create call or one of the four optional calls whose condition holds |
| SesConfigurationSet.CreateSendsOnlyNonDefaultFlags | internal/service/ses/configuration_set.go:127-149 | the reputation call is planned exactly when metrics are enabled and sends true; the sending call is planned exactly when sending is disabled and sends false; every call names the set; the create call comes first |
| SesConfigurationSet.Update | internal/service/ses/configuration_set.go:220-271 | the calls and the error are those of running `UpdatePlan` (one call per changed argument, with its new value) until the first failure |
| SesConfigurationSet.UnchangedUpdateMakesNoCall | internal/service/ses/configuration_set.go:220-271 | an update with nothing changed makes no call and cannot fail |
| SesConfigurationSet.Read | internal/service/ses/configuration_set.go:166-197 | a missing set is dropped from state only when the resource is not new; any other error, or a missing set right after creation, fails; otherwise both option blocks are flattened into state |
| SesConfigurationSet.Delete | internal/service/ses/configuration_set.go:275-291 | succeeds exactly when there is no error or the set does not exist; otherwise returns the error |

## Left out

- **The poll loop.** `resource.StateChangeConf.WaitForState` lives in terraform-plugin-sdk, outside the provider. `StateChange` models it abstractly, and the following are not modelled:
  - clocks, delays, back-off, the minimum timeout and the goroutine;
  - the consecutive-target count. It is taken as one, the library's default.
  - Timeouts are "the observed refreshes ran out". The snapshot returned on timeout is nil.
- **Network I/O.** All of it is replaced by inputs:
  - each refresh's DescribeFileSystems listing;
  - the outcomes of the FSx update's mutating calls and waits;
  - the SES call failures;
  - the Client VPN deletion waiter's error (`waiter.ClientVpnEndpointDeleted` is not part of this model).
- FsxWindowsFileSystem.Update: takes the outcomes of the administrative-action wait and of each alias wait as inputs rather than running the FSx waiters, because the waiters' own behaviour is modelled separately in `FsxWaiter`.
- **The administrative-actions probe's signature.** In the source files, the waiter passes the probe three arguments and the update passes the waiter three. The model follows the two-argument probe in `status.go` and a timeout-taking waiter.
- **The final Read after Create and Update.** The Create and Update models stop where the source goes on to Read; Read is modelled on its own.
- **Resource plumbing.**
  - tags and ARNs;
  - the fields Read copies to state one by one without logic;
  - schema definitions, `d.Set` errors, import and timeouts;
  - the Client VPN Create and the FSx Create;
  - the `ModifyClientVpnEndpoint` call itself.
- **KMS and rbin.** The KMS key policy and rbin rule files are not part of this model.
- **Error codes from the EC2 API.** The constants of the provider's tfec2 package are not part of this model. Their values are taken from the EC2 API's error codes.
- **Go panics are not modelled.** For example, `flattenConnLoggingConfig` on nil options, or a type assertion on a value that is not a map (the Client VPN and AD helpers). The model takes the typed block.
- **Nil and empty lists are one value, with one exception.** A nil slice and an empty slice are both the empty sequence. The exception is the FSx alias list (`aliases: Option<seq<Alias>>` in `Fsx`): `FsxWindowsFileSystem.Read` tells a nil list from an empty one, because the code sets `aliases` only when the reported list is not nil.
- **Sets.** `schema.Set` values are modelled as duplicate-free sequences in enumeration order.
- **Request tokens.** The random `ClientRequestToken` is not modelled: not on the Client VPN endpoint, and not on the FSx UpdateFileSystem and DeleteFileSystem requests. The FSx delete's final-backup settings are not modelled either.
- FsxFinder.FileSystemByID: the case of a paging error after a match was captured is not modelled as an input. With the SDK's pager, a callback that returns false stops the fetching, so it cannot arise. The code path that discards the capture is modelled.
- **Two behaviours of the code that may look surprising are modelled as the code has them:**
  - the finder returns a nil file system and no error for an unknown id, not a not-found error;
  - the alias probe reports "" for an alias that is missing from a non-empty list.
