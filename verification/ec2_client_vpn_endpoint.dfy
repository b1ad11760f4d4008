/** The `aws_ec2_client_vpn_endpoint` resource: the helpers that map the
    authentication and connection-log options to and from the EC2 API, the
    modify request of Update, and the rules by which Read and Delete treat an
    endpoint that is gone. */
module Ec2ClientVpnEndpoint {
  import opened AwsBase

  // ClientVpnAuthenticationType values
  const ClientVpnAuthenticationTypeCertificateAuthentication: string := "certificate-authentication"
  const ClientVpnAuthenticationTypeDirectoryServiceAuthentication: string := "directory-service-authentication"
  const ClientVpnAuthenticationTypeFederatedAuthentication: string := "federated-authentication"

  /** ClientVpnEndpointStatusCode value of an endpoint that has been deleted. */
  const ClientVpnEndpointStatusCodeDeleted: string := "deleted"

  /** The EC2 error codes the provider's tfec2 package names for a missing
      association and a missing endpoint. */
  const ErrCodeClientVpnAssociationIdNotFound: string := "InvalidClientVpnAssociationId.NotFound"
  const ErrCodeClientVpnEndpointIdNotFound: string := "InvalidClientVpnEndpointId.NotFound"

  // Keys of the Terraform blocks
  const KeyType: string := "type"
  const KeyRootCertificateChainArn: string := "root_certificate_chain_arn"
  const KeySamlProviderArn: string := "saml_provider_arn"
  const KeyActiveDirectoryId: string := "active_directory_id"
  const KeyCloudwatchLogGroup: string := "cloudwatch_log_group"
  const KeyCloudwatchLogStream: string := "cloudwatch_log_stream"
  const KeyEnabled: string := "enabled"

  // ---------------------------------------------------------------------
  // Authentication options

  datatype CertificateAuthentication = CertificateAuthentication(clientRootCertificateChain: Option<string>)
  datatype FederatedAuthentication = FederatedAuthentication(samlProviderArn: Option<string>)
  datatype DirectoryServiceAuthentication = DirectoryServiceAuthentication(directoryId: Option<string>)

  /** A `ClientVpnAuthentication` as DescribeClientVpnEndpoints reports it. */
  datatype ClientVpnAuthentication = ClientVpnAuthentication(
    authType: Option<string>,
    mutualAuthentication: Option<CertificateAuthentication>,
    federatedAuthentication: Option<FederatedAuthentication>,
    activeDirectory: Option<DirectoryServiceAuthentication>)

  /** One `authentication_options` entry as it is written to state: "type"
      always, and the key of each sub-structure the API reported. */
  function FlattenAuthOpt(aopt: ClientVpnAuthentication): (r: map<string, Value>)
    ensures KeyType in r && r[KeyType] == Str(StringValue(aopt.authType))
    ensures KeyRootCertificateChainArn in r <==> aopt.mutualAuthentication.Some?
    ensures KeySamlProviderArn in r <==> aopt.federatedAuthentication.Some?
    ensures KeyActiveDirectoryId in r <==> aopt.activeDirectory.Some?
    ensures aopt.mutualAuthentication.Some? ==>
      r[KeyRootCertificateChainArn] == Str(StringValue(aopt.mutualAuthentication.value.clientRootCertificateChain))
    ensures aopt.federatedAuthentication.Some? ==>
      r[KeySamlProviderArn] == Str(StringValue(aopt.federatedAuthentication.value.samlProviderArn))
    ensures aopt.activeDirectory.Some? ==>
      r[KeyActiveDirectoryId] == Str(StringValue(aopt.activeDirectory.value.directoryId))
    ensures r.Keys <= {KeyType, KeyRootCertificateChainArn, KeySamlProviderArn, KeyActiveDirectoryId}
  {
    var r0 := map[KeyType := Str(StringValue(aopt.authType))];
    var r1 := if aopt.mutualAuthentication.Some?
      then r0[KeyRootCertificateChainArn := Str(StringValue(aopt.mutualAuthentication.value.clientRootCertificateChain))]
      else r0;
    var r2 := if aopt.federatedAuthentication.Some?
      then r1[KeySamlProviderArn := Str(StringValue(aopt.federatedAuthentication.value.samlProviderArn))]
      else r1;
    if aopt.activeDirectory.Some?
    then r2[KeyActiveDirectoryId := Str(StringValue(aopt.activeDirectory.value.directoryId))]
    else r2
  }

  /** `flattenAuthOptsConfig`: each entry is prepended to the result, so the
      state lists the options in the reverse of the API's order. */
  method FlattenAuthOptsConfig(aopts: seq<ClientVpnAuthentication>) returns (result: seq<map<string, Value>>)
    ensures |result| == |aopts|
    ensures forall i :: 0 <= i < |aopts| ==> result[i] == FlattenAuthOpt(aopts[|aopts| - 1 - i])
  {
    result := [];
    var k := 0;
    while k < |aopts|
      invariant k <= |aopts|
      invariant |result| == k
      invariant forall i :: 0 <= i < k ==> result[i] == FlattenAuthOpt(aopts[k - 1 - i])
    {
      var r := FlattenAuthOpt(aopts[k]);
      result := [r] + result;
      k := k + 1;
    }
  }

  /** One `authentication_options` block from the configuration. */
  datatype AuthOptionBlock = AuthOptionBlock(
    authType: string,
    rootCertificateChainArn: string,
    activeDirectoryId: string,
    samlProviderArn: string)

  datatype CertificateAuthenticationRequest =
    CertificateAuthenticationRequest(clientRootCertificateChainArn: Option<string>)
  datatype DirectoryServiceAuthenticationRequest =
    DirectoryServiceAuthenticationRequest(directoryId: Option<string>)
  datatype FederatedAuthenticationRequest =
    FederatedAuthenticationRequest(samlProviderArn: Option<string>)

  datatype ClientVpnAuthenticationRequest = ClientVpnAuthenticationRequest(
    authType: Option<string>,
    mutualAuthentication: Option<CertificateAuthenticationRequest>,
    activeDirectory: Option<DirectoryServiceAuthenticationRequest>,
    federatedAuthentication: Option<FederatedAuthenticationRequest>)

  /** Number of sub-requests a request carries. */
  function SubRequests(r: ClientVpnAuthenticationRequest): nat {
    (if r.mutualAuthentication.Some? then 1 else 0)
    + (if r.activeDirectory.Some? then 1 else 0)
    + (if r.federatedAuthentication.Some? then 1 else 0)
  }

  /** `expandEc2ClientVpnAuthenticationRequest`: the type is always sent,
      together with the one sub-request the type names (none for an unknown
      type), filled from the matching key of the block. */
  function ExpandAuthenticationRequest(data: AuthOptionBlock): (r: ClientVpnAuthenticationRequest)
    ensures r.authType == Some(data.authType)
    ensures SubRequests(r) <= 1
    ensures r.mutualAuthentication.Some? <==>
      data.authType == ClientVpnAuthenticationTypeCertificateAuthentication
    ensures r.activeDirectory.Some? <==>
      data.authType == ClientVpnAuthenticationTypeDirectoryServiceAuthentication
    ensures r.federatedAuthentication.Some? <==>
      data.authType == ClientVpnAuthenticationTypeFederatedAuthentication
    ensures r.mutualAuthentication.Some? ==>
      r.mutualAuthentication.value.clientRootCertificateChainArn == Some(data.rootCertificateChainArn)
    ensures r.activeDirectory.Some? ==>
      r.activeDirectory.value.directoryId == Some(data.activeDirectoryId)
    ensures r.federatedAuthentication.Some? ==>
      r.federatedAuthentication.value.samlProviderArn == Some(data.samlProviderArn)
  {
    var req := ClientVpnAuthenticationRequest(Some(data.authType), None, None, None);
    var req1 := if data.authType == ClientVpnAuthenticationTypeCertificateAuthentication
      then req.(mutualAuthentication := Some(CertificateAuthenticationRequest(Some(data.rootCertificateChainArn))))
      else req;
    var req2 := if data.authType == ClientVpnAuthenticationTypeDirectoryServiceAuthentication
      then req1.(activeDirectory := Some(DirectoryServiceAuthenticationRequest(Some(data.activeDirectoryId))))
      else req1;
    if data.authType == ClientVpnAuthenticationTypeFederatedAuthentication
    then req2.(federatedAuthentication := Some(FederatedAuthenticationRequest(Some(data.samlProviderArn))))
    else req2
  }

  /** What DescribeClientVpnEndpoints reports for an endpoint created with
      the request: the same type and the same identifiers. */
  function Reported(r: ClientVpnAuthenticationRequest): ClientVpnAuthentication {
    ClientVpnAuthentication(
      r.authType,
      match r.mutualAuthentication
      case Some(m) => Some(CertificateAuthentication(m.clientRootCertificateChainArn))
      case None => None,
      match r.federatedAuthentication
      case Some(f) => Some(FederatedAuthentication(f.samlProviderArn))
      case None => None,
      match r.activeDirectory
      case Some(a) => Some(DirectoryServiceAuthentication(a.directoryId))
      case None => None)
  }

  /** The keys of a block of a known type that are written back. */
  function AuthBlockState(data: AuthOptionBlock): map<string, Value> {
    if data.authType == ClientVpnAuthenticationTypeCertificateAuthentication then
      map[KeyType := Str(data.authType), KeyRootCertificateChainArn := Str(data.rootCertificateChainArn)]
    else if data.authType == ClientVpnAuthenticationTypeDirectoryServiceAuthentication then
      map[KeyType := Str(data.authType), KeyActiveDirectoryId := Str(data.activeDirectoryId)]
    else if data.authType == ClientVpnAuthenticationTypeFederatedAuthentication then
      map[KeyType := Str(data.authType), KeySamlProviderArn := Str(data.samlProviderArn)]
    else
      map[KeyType := Str(data.authType)]
  }

  /** Round trip: a block sent on create and read back gives its type and the
      one identifier its type uses, and nothing else. */
  lemma AuthOptionRoundTrip(data: AuthOptionBlock)
    ensures FlattenAuthOpt(Reported(ExpandAuthenticationRequest(data))) == AuthBlockState(data)
  {
  }

  // ---------------------------------------------------------------------
  // Connection log options

  /** `ConnectionLogResponseOptions` as DescribeClientVpnEndpoints reports it. */
  datatype ConnectionLogResponseOptions = ConnectionLogResponseOptions(
    cloudwatchLogGroup: Option<string>,
    cloudwatchLogStream: Option<string>,
    enabled: Option<bool>)

  /** The single `connection_log_options` entry written to state: the group
      and stream only when reported, "enabled" always (false when nil). */
  function ConnLoggingState(lopts: ConnectionLogResponseOptions): (m: map<string, Value>)
    ensures KeyEnabled in m && m[KeyEnabled] == Bool(BoolValue(lopts.enabled))
    ensures KeyCloudwatchLogGroup in m <==> lopts.cloudwatchLogGroup.Some?
    ensures KeyCloudwatchLogStream in m <==> lopts.cloudwatchLogStream.Some?
    ensures lopts.cloudwatchLogGroup.Some? ==> m[KeyCloudwatchLogGroup] == Str(lopts.cloudwatchLogGroup.value)
    ensures lopts.cloudwatchLogStream.Some? ==> m[KeyCloudwatchLogStream] == Str(lopts.cloudwatchLogStream.value)
    ensures m.Keys <= {KeyEnabled, KeyCloudwatchLogGroup, KeyCloudwatchLogStream}
  {
    var m0: map<string, Value> := map[];
    var m1 := if lopts.cloudwatchLogGroup.Some? then m0[KeyCloudwatchLogGroup := Str(lopts.cloudwatchLogGroup.value)] else m0;
    var m2 := if lopts.cloudwatchLogStream.Some? then m1[KeyCloudwatchLogStream := Str(lopts.cloudwatchLogStream.value)] else m1;
    m2[KeyEnabled := Bool(BoolValue(lopts.enabled))]
  }

  /** `flattenConnLoggingConfig` as the source runs it: one map filled key
      by key in place and returned as a one-element list. ConnLoggingState
      is its specification, the entry as a whole, which the round-trip
      lemma below reasons about. */
  method FlattenConnLoggingConfig(lopts: ConnectionLogResponseOptions) returns (r: seq<map<string, Value>>)
    ensures r == [ConnLoggingState(lopts)]
  {
    var m: map<string, Value> := map[];
    if lopts.cloudwatchLogGroup.Some? {
      m := m[KeyCloudwatchLogGroup := Str(StringValue(lopts.cloudwatchLogGroup))];
    }
    if lopts.cloudwatchLogStream.Some? {
      m := m[KeyCloudwatchLogStream := Str(StringValue(lopts.cloudwatchLogStream))];
    }
    m := m[KeyEnabled := Bool(BoolValue(lopts.enabled))];
    r := [m];
  }

  /** One `connection_log_options` block from the configuration; the schema
      gives absent strings as "". */
  datatype LogOptionsBlock = LogOptionsBlock(enabled: bool, cloudwatchLogGroup: string, cloudwatchLogStream: string)

  /** The request's `ConnectionLogOptions`. */
  datatype ConnectionLogOptions = ConnectionLogOptions(
    enabled: Option<bool>,
    cloudwatchLogGroup: Option<string>,
    cloudwatchLogStream: Option<string>)

  /** `expandEc2ClientVpnEndpointConnectionLogOptions`: empty options for an
      empty list or a nil first block; otherwise "enabled", and the group and
      stream only when logging is enabled and they are non-empty. */
  function ExpandConnectionLogOptions(l: seq<Option<LogOptionsBlock>>): (r: ConnectionLogOptions)
    ensures |l| == 0 || l[0].None? ==> r == ConnectionLogOptions(None, None, None)
    ensures |l| > 0 && l[0].Some? ==>
      var m := l[0].value;
      && r.enabled == Some(m.enabled)
      && (r.cloudwatchLogGroup.Some? <==> m.enabled && m.cloudwatchLogGroup != "")
      && (r.cloudwatchLogStream.Some? <==> m.enabled && m.cloudwatchLogStream != "")
      && (r.cloudwatchLogGroup.Some? ==> r.cloudwatchLogGroup.value == m.cloudwatchLogGroup)
      && (r.cloudwatchLogStream.Some? ==> r.cloudwatchLogStream.value == m.cloudwatchLogStream)
  {
    if |l| == 0 || l[0].None? then ConnectionLogOptions(None, None, None)
    else
      var m := l[0].value;
      ConnectionLogOptions(
        Some(m.enabled),
        if m.enabled && m.cloudwatchLogGroup != "" then Some(m.cloudwatchLogGroup) else None,
        if m.enabled && m.cloudwatchLogStream != "" then Some(m.cloudwatchLogStream) else None)
  }

  /** A string key of a state map as the schema reads it back ("" when
      absent). */
  function StateString(m: map<string, Value>, k: string): string {
    if k in m && m[k].Str? then m[k].s else ""
  }

  /** A state map read back as a configuration block. */
  function BlockOf(m: map<string, Value>): LogOptionsBlock {
    LogOptionsBlock(
      KeyEnabled in m && m[KeyEnabled] == Bool(true),
      StateString(m, KeyCloudwatchLogGroup),
      StateString(m, KeyCloudwatchLogStream))
  }

  /** Round trip: sending back the options just read gives the API the
      options it reported, when logging is enabled with a non-empty group
      and stream; with logging disabled, only "enabled: false" is sent. */
  lemma ConnectionLogRoundTrip(lopts: ConnectionLogResponseOptions)
    ensures lopts.enabled == Some(true) && StringValue(lopts.cloudwatchLogGroup) != "" &&
            StringValue(lopts.cloudwatchLogStream) != "" ==>
      ExpandConnectionLogOptions([Some(BlockOf(ConnLoggingState(lopts)))]) ==
        ConnectionLogOptions(Some(true), lopts.cloudwatchLogGroup, lopts.cloudwatchLogStream)
    ensures !BoolValue(lopts.enabled) ==>
      ExpandConnectionLogOptions([Some(BlockOf(ConnLoggingState(lopts)))]) ==
        ConnectionLogOptions(Some(false), None, None)
  {
  }

  // ---------------------------------------------------------------------
  // Update

  /** The arguments the modify request looks at. `dnsServers` is the list
      the set enumerates. */
  datatype EndpointSettings = EndpointSettings(
    description: string,
    dnsServers: seq<string>,
    serverCertificateArn: string,
    splitTunnel: bool,
    vpcId: string,
    connectionLogOptions: seq<Option<LogOptionsBlock>>)

  datatype DnsServersOptionsModifyStructure =
    DnsServersOptionsModifyStructure(customDnsServers: seq<string>, enabled: Option<bool>)

  datatype ModifyClientVpnEndpointInput = ModifyClientVpnEndpointInput(
    clientVpnEndpointId: string,
    description: Option<string>,
    dnsServers: Option<DnsServersOptionsModifyStructure>,
    serverCertificateArn: Option<string>,
    splitTunnel: Option<bool>,
    vpcId: Option<string>,
    connectionLogOptions: Option<ConnectionLogOptions>)

  /** The modify request of `resourceAwsEc2ClientVpnEndpointUpdate`, filled
      one changed argument at a time. Custom DNS is enabled exactly when the
      new server list is non-empty; the log options are sent only when they
      changed and the new list is not empty. The request is sent even when
      nothing changed. */
  method BuildModifyRequest(id: string, o: EndpointSettings, n: EndpointSettings)
    returns (req: ModifyClientVpnEndpointInput)
    ensures req.clientVpnEndpointId == id
    ensures req.description == (if o.description != n.description then Some(n.description) else None)
    ensures req.dnsServers.Some? <==> o.dnsServers != n.dnsServers
    ensures req.dnsServers.Some? ==>
      req.dnsServers.value.customDnsServers == n.dnsServers &&
      req.dnsServers.value.enabled == Some(|n.dnsServers| > 0)
    ensures req.serverCertificateArn ==
      (if o.serverCertificateArn != n.serverCertificateArn then Some(n.serverCertificateArn) else None)
    ensures req.splitTunnel == (if o.splitTunnel != n.splitTunnel then Some(n.splitTunnel) else None)
    ensures req.vpcId == (if o.vpcId != n.vpcId then Some(n.vpcId) else None)
    ensures req.connectionLogOptions.Some? <==>
      o.connectionLogOptions != n.connectionLogOptions && |n.connectionLogOptions| > 0
    ensures req.connectionLogOptions.Some? ==>
      req.connectionLogOptions.value == ExpandConnectionLogOptions(n.connectionLogOptions)
  {
    var description: Option<string> := None;
    if o.description != n.description {
      description := Some(n.description);
    }
    var dnsServers: Option<DnsServersOptionsModifyStructure> := None;
    if o.dnsServers != n.dnsServers {
      var dnsValue := n.dnsServers;
      var enabledValue: Option<bool>;
      if |dnsValue| > 0 {
        enabledValue := Some(true);
      } else {
        enabledValue := Some(false);
      }
      dnsServers := Some(DnsServersOptionsModifyStructure(dnsValue, enabledValue));
    }
    var serverCertificateArn: Option<string> := None;
    if o.serverCertificateArn != n.serverCertificateArn {
      serverCertificateArn := Some(n.serverCertificateArn);
    }
    var splitTunnel: Option<bool> := None;
    if o.splitTunnel != n.splitTunnel {
      splitTunnel := Some(n.splitTunnel);
    }
    var vpcId: Option<string> := None;
    if o.vpcId != n.vpcId {
      vpcId := Some(n.vpcId);
    }
    var connectionLogOptions: Option<ConnectionLogOptions> := None;
    if o.connectionLogOptions != n.connectionLogOptions {
      if |n.connectionLogOptions| > 0 {
        connectionLogOptions := Some(ExpandConnectionLogOptions(n.connectionLogOptions));
      }
    }
    req := ModifyClientVpnEndpointInput(
      id, description, dnsServers, serverCertificateArn, splitTunnel, vpcId, connectionLogOptions);
  }

  // ---------------------------------------------------------------------
  // Read and Delete

  datatype ClientVpnEndpointStatus = ClientVpnEndpointStatus(code: Option<string>)

  /** The parts of a `ClientVpnEndpoint` Read classifies and flattens. */
  datatype ClientVpnEndpoint = ClientVpnEndpoint(
    status: Option<ClientVpnEndpointStatus>,
    authenticationOptions: seq<ClientVpnAuthentication>,
    connectionLogOptions: ConnectionLogResponseOptions)

  /** What Read does with the DescribeClientVpnEndpoints answer. */
  datatype EndpointRead =
    | Gone
    | ReadFailed(cause: ApiError)
    | Present(endpoint: ClientVpnEndpoint)

  /** The endpoint is gone: either not-found code, no endpoint or a nil
      first endpoint, or the status code "deleted". */
  predicate EndpointGone(err: Option<ApiError>, endpoints: seq<Option<ClientVpnEndpoint>>) {
    || ErrCodeEquals(err, ErrCodeClientVpnAssociationIdNotFound)
    || ErrCodeEquals(err, ErrCodeClientVpnEndpointIdNotFound)
    || (err.None? && (|endpoints| == 0 || endpoints[0].None?))
    || (err.None? && endpoints[0].value.status.Some? &&
        StringValue(endpoints[0].value.status.value.code) == ClientVpnEndpointStatusCodeDeleted)
  }

  /** The classification at the head of `resourceAwsEc2ClientVpnEndpointRead`:
      gone clears the id without error, any other error fails, and
      otherwise the first endpoint is read into state. */
  function ReadEndpoint(err: Option<ApiError>, endpoints: seq<Option<ClientVpnEndpoint>>): (r: EndpointRead)
    ensures r.Gone? <==> EndpointGone(err, endpoints)
    ensures r.ReadFailed? <==> !EndpointGone(err, endpoints) && err.Some?
    ensures r.ReadFailed? ==> r.cause == err.value
    ensures r.Present? ==> err.None? && |endpoints| > 0 && endpoints[0] == Some(r.endpoint)
  {
    if ErrCodeEquals(err, ErrCodeClientVpnAssociationIdNotFound)
       || ErrCodeEquals(err, ErrCodeClientVpnEndpointIdNotFound) then Gone
    else if err.Some? then ReadFailed(err.value)
    else if |endpoints| == 0 || endpoints[0].None? then Gone
    else
      var vpnEndpoint := endpoints[0].value;
      if vpnEndpoint.status.Some? &&
         StringValue(vpnEndpoint.status.value.code) == ClientVpnEndpointStatusCodeDeleted then Gone
      else Present(vpnEndpoint)
  }

  /** `deleteClientVpnEndpoint`: a missing endpoint is success without
      waiting; any other error is returned; otherwise the deletion waiter
      runs and its error (`waitErr`) is returned. The second component says
      whether the waiter ran. */
  function DeleteClientVpnEndpoint(deleteErr: Option<ApiError>, waitErr: Option<ApiError>)
    : (r: (Option<ApiError>, bool))
    ensures ErrCodeEquals(deleteErr, ErrCodeClientVpnEndpointIdNotFound) ==> r == (None, false)
    ensures deleteErr.Some? && !ErrCodeEquals(deleteErr, ErrCodeClientVpnEndpointIdNotFound) ==>
      r == (deleteErr, false)
    ensures deleteErr.None? ==> r == (waitErr, true)
  {
    if ErrCodeEquals(deleteErr, ErrCodeClientVpnEndpointIdNotFound) then (None, false)
    else if deleteErr.Some? then (deleteErr, false)
    else (waitErr, true)
  }
}
