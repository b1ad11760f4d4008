/** The `aws_ses_configuration_set` resource: the delivery and tracking
    option helpers, the calls Create and Update make one after the other
    (each returning on the first error), and the not-found rules of Read and
    Delete. */
module SesConfigurationSet {
  import opened AwsBase

  /** Error code of the ConfigurationSetDoesNotExist exception. */
  const ErrCodeConfigurationSetDoesNotExist: string := "ConfigurationSetDoesNotExist"

  const KeyTlsPolicy: string := "tls_policy"
  const KeyCustomRedirectDomain: string := "custom_redirect_domain"

  // ---------------------------------------------------------------------
  // Delivery and tracking options

  /** `DeliveryOptions`; the TLS policy is a string enumeration whose zero
      value is "". */
  datatype DeliveryOptions = DeliveryOptions(tlsPolicy: string)

  datatype TrackingOptions = TrackingOptions(customRedirectDomain: Option<string>)

  /** `tfMap[k].(string)` with its ok flag folded in: the string under k, or
      "" when k is absent or holds something else. */
  function StringAt(fields: map<string, Value>, k: string): string {
    if k in fields && fields[k].Str? then fields[k].s else ""
  }

  /** `expandConfigurationSetDeliveryOptions`. */
  function ExpandDeliveryOptions(l: seq<Value>): Option<DeliveryOptions> {
    if |l| == 0 || l[0].Null? then None
    else if !l[0].Object? then None
    else
      var tfMap := l[0].fields;
      var options := DeliveryOptions("");
      if KeyTlsPolicy in tfMap && tfMap[KeyTlsPolicy].Str? && tfMap[KeyTlsPolicy].s != ""
      then Some(options.(tlsPolicy := tfMap[KeyTlsPolicy].s))
      else Some(options)
  }

  /** Expanding delivery options gives nil for an empty list, a nil first
      element or a first element that is not a map; otherwise the options,
      carrying the block's TLS policy when it is a non-empty string (and
      the empty policy otherwise). */
  lemma ExpandDeliveryOptionsReadsFirstBlock(l: seq<Value>)
    ensures ExpandDeliveryOptions(l).None? <==> |l| == 0 || !l[0].Object?
    ensures ExpandDeliveryOptions(l).Some? ==>
      ExpandDeliveryOptions(l).value.tlsPolicy == StringAt(l[0].fields, KeyTlsPolicy)
  {
  }

  /** `flattenConfigurationSetDeliveryOptions`: nil becomes the empty list,
      otherwise one block holding the TLS policy. */
  function FlattenDeliveryOptions(options: Option<DeliveryOptions>): (r: seq<Value>)
    ensures options.None? <==> r == []
    ensures options.Some? ==> r == [Object(map[KeyTlsPolicy := Str(options.value.tlsPolicy)])]
  {
    match options
    case None => []
    case Some(o) => [Object(map[KeyTlsPolicy := Str(o.tlsPolicy)])]
  }

  /** The delivery helpers are inverse to each other: a block with a TLS
      policy survives a write and a read, and so does whatever the API
      reports. */
  lemma DeliveryOptionsRoundTrip(p: string, options: Option<DeliveryOptions>)
    ensures FlattenDeliveryOptions(ExpandDeliveryOptions([Object(map[KeyTlsPolicy := Str(p)])])) ==
      [Object(map[KeyTlsPolicy := Str(p)])]
    ensures ExpandDeliveryOptions(FlattenDeliveryOptions(options)) == options
  {
  }

  /** `expandConfigurationSetTrackingOptions`. */
  function ExpandTrackingOptions(l: seq<Value>): Option<TrackingOptions> {
    if |l| == 0 || l[0].Null? then None
    else if !l[0].Object? then None
    else
      var tfMap := l[0].fields;
      var options := TrackingOptions(None);
      if KeyCustomRedirectDomain in tfMap && tfMap[KeyCustomRedirectDomain].Str? &&
         tfMap[KeyCustomRedirectDomain].s != ""
      then Some(options.(customRedirectDomain := Some(tfMap[KeyCustomRedirectDomain].s)))
      else Some(options)
  }

  /** Expanding tracking options gives nil for an empty list, a nil first
      element or a first element that is not a map; otherwise the options,
      with the redirect domain exactly when the block holds a non-empty
      string under that key. */
  lemma ExpandTrackingOptionsReadsFirstBlock(l: seq<Value>)
    ensures ExpandTrackingOptions(l).None? <==> |l| == 0 || !l[0].Object?
    ensures ExpandTrackingOptions(l).Some? ==>
      (ExpandTrackingOptions(l).value.customRedirectDomain.Some? <==>
         StringAt(l[0].fields, KeyCustomRedirectDomain) != "")
    ensures ExpandTrackingOptions(l).Some? && ExpandTrackingOptions(l).value.customRedirectDomain.Some? ==>
      ExpandTrackingOptions(l).value.customRedirectDomain.value == StringAt(l[0].fields, KeyCustomRedirectDomain)
  {
  }

  /** `flattenConfigurationSetTrackingOptions`: nil becomes the empty list,
      otherwise one block whose domain is "" when the API reports none. */
  function FlattenTrackingOptions(options: Option<TrackingOptions>): (r: seq<Value>)
    ensures options.None? <==> r == []
    ensures options.Some? ==>
      r == [Object(map[KeyCustomRedirectDomain := Str(StringValue(options.value.customRedirectDomain))])]
  {
    match options
    case None => []
    case Some(o) => [Object(map[KeyCustomRedirectDomain := Str(StringValue(o.customRedirectDomain))])]
  }

  /** The tracking helpers round-trip a block whatever its domain (an empty
      domain is sent as nil and read back as ""), and they round-trip what
      the API reports except that a reported empty domain comes back as
      nil. */
  lemma TrackingOptionsRoundTrip(d: string, options: Option<TrackingOptions>)
    ensures var block := [Object(map[KeyCustomRedirectDomain := Str(d)])];
      && ExpandTrackingOptions(block) == Some(TrackingOptions(if d == "" then None else Some(d)))
      && FlattenTrackingOptions(ExpandTrackingOptions(block)) == block
    ensures options.Some? && options.value.customRedirectDomain != Some("") ==>
      ExpandTrackingOptions(FlattenTrackingOptions(options)) == options
    ensures options == Some(TrackingOptions(Some(""))) ==>
      ExpandTrackingOptions(FlattenTrackingOptions(options)) == Some(TrackingOptions(None))
    ensures options.None? ==> ExpandTrackingOptions(FlattenTrackingOptions(options)) == None
  {
  }

  // ---------------------------------------------------------------------
  // Calls made one after the other

  /** The SES calls Create and Update make. */
  datatype SesCall =
    | CreateConfigurationSet(name: string)
    | PutConfigurationSetDeliveryOptions(name: string, deliveryOptions: Option<DeliveryOptions>)
    | UpdateConfigurationSetReputationMetricsEnabled(name: string, enabled: bool)
    | UpdateConfigurationSetSendingEnabled(name: string, enabled: bool)
    | CreateConfigurationSetTrackingOptions(name: string, trackingOptions: Option<TrackingOptions>)
    | UpdateConfigurationSetTrackingOptions(name: string, trackingOptions: Option<TrackingOptions>)

  /** The calls made and, when one failed, that call and its error. */
  datatype Outcome = Outcome(calls: seq<SesCall>, err: Option<(SesCall, ApiError)>)

  /** Making the planned calls in order, where a call in `failures` fails
      with the error it maps to and ends the run. */
  function Execute(plan: seq<SesCall>, failures: map<SesCall, ApiError>): Outcome {
    if plan == [] then Outcome([], None)
    else if plan[0] in failures then Outcome([plan[0]], Some((plan[0], failures[plan[0]])))
    else
      var rest := Execute(plan[1..], failures);
      Outcome([plan[0]] + rest.calls, rest.err)
  }

  /** The calls made are a prefix of the plan that ends at the first failing
      call, reported with its error, or the whole plan when no call fails. */
  lemma {:induction false} ExecuteStopsAtFirstFailure(plan: seq<SesCall>, failures: map<SesCall, ApiError>)
    ensures var r := Execute(plan, failures);
      && |r.calls| <= |plan| && r.calls == plan[..|r.calls|]
      && (forall i :: 0 <= i < |r.calls| - 1 ==> r.calls[i] !in failures)
      && (r.err.None? <==> r.calls == plan && forall i :: 0 <= i < |plan| ==> plan[i] !in failures)
      && (r.err.Some? ==>
            |r.calls| > 0 && r.calls[|r.calls| - 1] in failures &&
            r.err.value == (r.calls[|r.calls| - 1], failures[r.calls[|r.calls| - 1]]))
    decreases |plan|
  {
    if plan != [] && plan[0] !in failures {
      ExecuteStopsAtFirstFailure(plan[1..], failures);
      var rest := Execute(plan[1..], failures);
      assert Execute(plan, failures).calls == [plan[0]] + rest.calls;
      if rest.err.None? {
        assert plan == [plan[0]] + plan[1..];
      }
    }
  }

  /** Executing two plans one after the other: the second runs only when
      the first ran to the end. */
  lemma {:induction false} ExecuteAppend(p: seq<SesCall>, q: seq<SesCall>, failures: map<SesCall, ApiError>)
    ensures Execute(p + q, failures) ==
      if Execute(p, failures).err.Some? then Execute(p, failures)
      else Outcome(Execute(p, failures).calls + Execute(q, failures).calls, Execute(q, failures).err)
    decreases |p|
  {
    if p == [] {
      assert p + q == q;
    } else {
      assert (p + q)[0] == p[0];
      assert (p + q)[1..] == p[1..] + q;
      if p[0] !in failures {
        ExecuteAppend(p[1..], q, failures);
      }
    }
  }

  /** The outcome of a run that has already made `calls` without failure
      and goes on with the outcome `r` of the rest of the plan. */
  function After(calls: seq<SesCall>, r: Outcome): Outcome {
    Outcome(calls + r.calls, r.err)
  }

  /** A plan step that is made only when its condition holds. */
  function When(b: bool, c: SesCall): seq<SesCall> {
    if b then [c] else []
  }

  /** A run starts with no call made. */
  lemma Begin(plan: seq<SesCall>, failures: map<SesCall, ApiError>)
    ensures Execute(plan, failures) == After([], Execute(plan, failures))
  {
    assert [] + Execute(plan, failures).calls == Execute(plan, failures).calls;
  }

  /** Executing a plan whose first call succeeds. */
  lemma ExecuteFirstSucceeds(c: SesCall, rest: seq<SesCall>, failures: map<SesCall, ApiError>)
    requires c !in failures
    ensures Execute([c] + rest, failures) == After([c], Execute(rest, failures))
  {
    assert ([c] + rest)[0] == c;
    assert ([c] + rest)[1..] == rest;
  }

  // In the three step lemmas, `outcome` is the outcome of the whole plan
  // and `calls` the calls made so far, none of which failed.

  /** A skipped step changes nothing. */
  lemma Skip(outcome: Outcome, calls: seq<SesCall>, c: SesCall, rest: seq<SesCall>,
             failures: map<SesCall, ApiError>)
    requires outcome == After(calls, Execute(When(false, c) + rest, failures))
    ensures outcome == After(calls, Execute(rest, failures))
  {
    assert When(false, c) + rest == rest;
  }

  /** A call that succeeds is added and the run goes on. */
  lemma Advance(outcome: Outcome, calls: seq<SesCall>, c: SesCall, rest: seq<SesCall>,
                failures: map<SesCall, ApiError>)
    requires outcome == After(calls, Execute(When(true, c) + rest, failures))
    requires c !in failures
    ensures outcome == After(calls + [c], Execute(rest, failures))
  {
    ExecuteFirstSucceeds(c, rest, failures);
    var r := Execute(rest, failures);
    assert calls + ([c] + r.calls) == (calls + [c]) + r.calls;
  }

  /** A call that fails is added and ends the run with its error. */
  lemma Stop(outcome: Outcome, calls: seq<SesCall>, c: SesCall, rest: seq<SesCall>,
             failures: map<SesCall, ApiError>)
    requires outcome == After(calls, Execute(When(true, c) + rest, failures))
    requires c in failures
    ensures outcome == Outcome(calls + [c], Some((c, failures[c])))
  {
    assert ([c] + rest)[0] == c;
  }

  /** Make call `c` when `b` holds, as one step of a run whose whole
      outcome is `outcome` and which has made `calls` so far without
      failure: on an error the run ends there with that call and its error;
      otherwise it goes on with the rest of the plan. */
  method CallIf(b: bool, c: SesCall, ghost outcome: Outcome, calls: seq<SesCall>, ghost rest: seq<SesCall>,
                failures: map<SesCall, ApiError>)
    returns (made: seq<SesCall>, err: Option<(SesCall, ApiError)>)
    requires outcome == After(calls, Execute(When(b, c) + rest, failures))
    ensures made == calls + When(b, c)
    ensures err.Some? <==> b && c in failures
    ensures err.Some? ==> err == Some((c, failures[c])) && outcome == Outcome(made, err)
    ensures err.None? ==> outcome == After(made, Execute(rest, failures))
  {
    made := calls;
    err := None;
    if b {
      if c in failures {
        Stop(outcome, calls, c, rest, failures);
        return calls + [c], Some((c, failures[c]));
      }
      Advance(outcome, calls, c, rest, failures);
      made := calls + [c];
    } else {
      Skip(outcome, calls, c, rest, failures);
    }
  }

  // ---------------------------------------------------------------------
  // Create

  /** The resource's arguments. The two option lists hold the values the
      schema hands over (a block is an Object). */
  datatype ConfigurationSetArgs = ConfigurationSetArgs(
    name: string,
    deliveryOptions: seq<Value>,
    reputationMetricsEnabled: bool,
    sendingEnabled: bool,
    trackingOptions: seq<Value>)

  /** A block list that `d.GetOk` reports as set with a non-nil first
      element. */
  predicate BlockGiven(l: seq<Value>) {
    |l| > 0 && !l[0].Null?
  }

  /** The calls Create plans: create the set, then the delivery options if
      given, then the two flags only where they differ from the API's
      defaults (reputation metrics off, sending on), then the tracking
      options if given. */
  function CreatePlan(args: ConfigurationSetArgs): seq<SesCall> {
    var name := args.name;
    When(true, CreateConfigurationSet(name))
    + (When(BlockGiven(args.deliveryOptions),
            PutConfigurationSetDeliveryOptions(name, ExpandDeliveryOptions(args.deliveryOptions)))
    + (When(args.reputationMetricsEnabled, UpdateConfigurationSetReputationMetricsEnabled(name, true))
    + (When(!args.sendingEnabled, UpdateConfigurationSetSendingEnabled(name, false))
    + (When(BlockGiven(args.trackingOptions),
            CreateConfigurationSetTrackingOptions(name, ExpandTrackingOptions(args.trackingOptions)))
    + []))))
  }

  /** `resourceConfigurationSetCreate` up to the final Read: each call is
      made in turn and the first error ends Create. The id is set once the
      set exists. */
  method Create(args: ConfigurationSetArgs, failures: map<SesCall, ApiError>)
    returns (calls: seq<SesCall>, err: Option<(SesCall, ApiError)>, id: string)
    ensures Outcome(calls, err) == Execute(CreatePlan(args), failures)
    ensures id == if CreateConfigurationSet(args.name) in failures then "" else args.name
  {
    var name := args.name;
    ghost var s2 := When(BlockGiven(args.deliveryOptions),
      PutConfigurationSetDeliveryOptions(name, ExpandDeliveryOptions(args.deliveryOptions)));
    ghost var s3 := When(args.reputationMetricsEnabled, UpdateConfigurationSetReputationMetricsEnabled(name, true));
    ghost var s4 := When(!args.sendingEnabled, UpdateConfigurationSetSendingEnabled(name, false));
    ghost var s5 := When(BlockGiven(args.trackingOptions),
      CreateConfigurationSetTrackingOptions(name, ExpandTrackingOptions(args.trackingOptions)));
    ghost var outcome := Execute(CreatePlan(args), failures);
    Begin(CreatePlan(args), failures);

    id := "";
    calls, err := CallIf(true, CreateConfigurationSet(name), outcome, [], s2 + (s3 + (s4 + (s5 + []))), failures);
    if err.Some? {
      return;
    }
    id := name;
    calls, err := CallIf(BlockGiven(args.deliveryOptions),
      PutConfigurationSetDeliveryOptions(name, ExpandDeliveryOptions(args.deliveryOptions)),
      outcome, calls, s3 + (s4 + (s5 + [])), failures);
    if err.Some? {
      return;
    }
    calls, err := CallIf(args.reputationMetricsEnabled,
      UpdateConfigurationSetReputationMetricsEnabled(name, args.reputationMetricsEnabled),
      outcome, calls, s4 + (s5 + []), failures);
    if err.Some? {
      return;
    }
    calls, err := CallIf(!args.sendingEnabled,
      UpdateConfigurationSetSendingEnabled(name, args.sendingEnabled),
      outcome, calls, s5 + [], failures);
    if err.Some? {
      return;
    }
    calls, err := CallIf(BlockGiven(args.trackingOptions),
      CreateConfigurationSetTrackingOptions(name, ExpandTrackingOptions(args.trackingOptions)),
      outcome, calls, [], failures);
  }

  /** Where a call can sit in Create's plan: in the first step or in one of
      the four optional steps. */
  lemma InCreatePlan(args: ConfigurationSetArgs, x: SesCall)
    ensures x in CreatePlan(args) <==>
      || x == CreateConfigurationSet(args.name)
      || (BlockGiven(args.deliveryOptions) &&
          x == PutConfigurationSetDeliveryOptions(args.name, ExpandDeliveryOptions(args.deliveryOptions)))
      || (args.reputationMetricsEnabled && x == UpdateConfigurationSetReputationMetricsEnabled(args.name, true))
      || (!args.sendingEnabled && x == UpdateConfigurationSetSendingEnabled(args.name, false))
      || (BlockGiven(args.trackingOptions) &&
          x == CreateConfigurationSetTrackingOptions(args.name, ExpandTrackingOptions(args.trackingOptions)))
  {
  }

  /** Create sets a flag only to its non-default value: the reputation call
      is planned exactly when metrics are enabled and then sends true; the
      sending call exactly when sending is disabled and then sends false.
      Every planned call is about the set being created, which comes
      first. */
  lemma CreateSendsOnlyNonDefaultFlags(args: ConfigurationSetArgs)
    ensures UpdateConfigurationSetReputationMetricsEnabled(args.name, true) in CreatePlan(args) <==>
      args.reputationMetricsEnabled
    ensures UpdateConfigurationSetReputationMetricsEnabled(args.name, false) !in CreatePlan(args)
    ensures UpdateConfigurationSetSendingEnabled(args.name, false) in CreatePlan(args) <==>
      !args.sendingEnabled
    ensures UpdateConfigurationSetSendingEnabled(args.name, true) !in CreatePlan(args)
    ensures forall c :: c in CreatePlan(args) ==> c.name == args.name
    ensures CreatePlan(args)[0] == CreateConfigurationSet(args.name)
  {
    InCreatePlan(args, UpdateConfigurationSetReputationMetricsEnabled(args.name, true));
    InCreatePlan(args, UpdateConfigurationSetReputationMetricsEnabled(args.name, false));
    InCreatePlan(args, UpdateConfigurationSetSendingEnabled(args.name, false));
    InCreatePlan(args, UpdateConfigurationSetSendingEnabled(args.name, true));
    forall c | c in CreatePlan(args)
      ensures c.name == args.name
    {
      InCreatePlan(args, c);
    }
  }

  // ---------------------------------------------------------------------
  // Update

  /** The calls Update plans: one per changed argument, in the order
      delivery options, reputation metrics, sending, tracking options, each
      carrying the new value. */
  function UpdatePlan(id: string, o: ConfigurationSetArgs, n: ConfigurationSetArgs): seq<SesCall> {
    When(o.deliveryOptions != n.deliveryOptions,
         PutConfigurationSetDeliveryOptions(id, ExpandDeliveryOptions(n.deliveryOptions)))
    + (When(o.reputationMetricsEnabled != n.reputationMetricsEnabled,
            UpdateConfigurationSetReputationMetricsEnabled(id, n.reputationMetricsEnabled))
    + (When(o.sendingEnabled != n.sendingEnabled,
            UpdateConfigurationSetSendingEnabled(id, n.sendingEnabled))
    + (When(o.trackingOptions != n.trackingOptions,
            UpdateConfigurationSetTrackingOptions(id, ExpandTrackingOptions(n.trackingOptions)))
    + [])))
  }

  /** `resourceConfigurationSetUpdate` up to the final Read. */
  method Update(id: string, o: ConfigurationSetArgs, n: ConfigurationSetArgs, failures: map<SesCall, ApiError>)
    returns (calls: seq<SesCall>, err: Option<(SesCall, ApiError)>)
    ensures Outcome(calls, err) == Execute(UpdatePlan(id, o, n), failures)
  {
    ghost var s2 := When(o.reputationMetricsEnabled != n.reputationMetricsEnabled,
      UpdateConfigurationSetReputationMetricsEnabled(id, n.reputationMetricsEnabled));
    ghost var s3 := When(o.sendingEnabled != n.sendingEnabled, UpdateConfigurationSetSendingEnabled(id, n.sendingEnabled));
    ghost var s4 := When(o.trackingOptions != n.trackingOptions,
      UpdateConfigurationSetTrackingOptions(id, ExpandTrackingOptions(n.trackingOptions)));
    ghost var outcome := Execute(UpdatePlan(id, o, n), failures);
    Begin(UpdatePlan(id, o, n), failures);

    calls, err := CallIf(o.deliveryOptions != n.deliveryOptions,
      PutConfigurationSetDeliveryOptions(id, ExpandDeliveryOptions(n.deliveryOptions)),
      outcome, [], s2 + (s3 + (s4 + [])), failures);
    if err.Some? {
      return;
    }
    calls, err := CallIf(o.reputationMetricsEnabled != n.reputationMetricsEnabled,
      UpdateConfigurationSetReputationMetricsEnabled(id, n.reputationMetricsEnabled),
      outcome, calls, s3 + (s4 + []), failures);
    if err.Some? {
      return;
    }
    calls, err := CallIf(o.sendingEnabled != n.sendingEnabled,
      UpdateConfigurationSetSendingEnabled(id, n.sendingEnabled),
      outcome, calls, s4 + [], failures);
    if err.Some? {
      return;
    }
    calls, err := CallIf(o.trackingOptions != n.trackingOptions,
      UpdateConfigurationSetTrackingOptions(id, ExpandTrackingOptions(n.trackingOptions)),
      outcome, calls, [], failures);
  }

  /** An update that changes none of the four arguments makes no call and
      cannot fail. */
  lemma UnchangedUpdateMakesNoCall(id: string, a: ConfigurationSetArgs, failures: map<SesCall, ApiError>)
    ensures Execute(UpdatePlan(id, a, a), failures) == Outcome([], None)
  {
    assert UpdatePlan(id, a, a) == [];
  }

  // ---------------------------------------------------------------------
  // Read and Delete

  /** The options DescribeConfigurationSet reports. */
  datatype ConfigurationSetDescription = ConfigurationSetDescription(
    deliveryOptions: Option<DeliveryOptions>,
    trackingOptions: Option<TrackingOptions>)

  datatype ConfigurationSetRead =
    | RemovedFromState
    | ReadFailed(cause: ApiError)
    | Refreshed(deliveryOptions: seq<Value>, trackingOptions: seq<Value>)

  /** `resourceConfigurationSetRead`: a missing set is dropped from state
      only when the resource was not just created (right after Create the
      error is reported instead); any other error fails; otherwise the two
      option blocks are written to state. */
  function Read(isNewResource: bool, err: Option<ApiError>, response: ConfigurationSetDescription)
    : (r: ConfigurationSetRead)
    ensures r.RemovedFromState? <==> !isNewResource && ErrCodeEquals(err, ErrCodeConfigurationSetDoesNotExist)
    ensures r.ReadFailed? <==> err.Some? && (isNewResource || !ErrCodeEquals(err, ErrCodeConfigurationSetDoesNotExist))
    ensures r.ReadFailed? ==> r.cause == err.value
    ensures r.Refreshed? <==> err.None?
    ensures r.Refreshed? ==>
      r.deliveryOptions == FlattenDeliveryOptions(response.deliveryOptions) &&
      r.trackingOptions == FlattenTrackingOptions(response.trackingOptions)
  {
    if !isNewResource && ErrCodeEquals(err, ErrCodeConfigurationSetDoesNotExist) then RemovedFromState
    else if err.Some? then ReadFailed(err.value)
    else Refreshed(FlattenDeliveryOptions(response.deliveryOptions), FlattenTrackingOptions(response.trackingOptions))
  }

  /** `resourceConfigurationSetDelete`: a set that does not exist counts as
      deleted; any other error is returned. */
  function Delete(err: Option<ApiError>): (r: Option<ApiError>)
    ensures r.None? <==> err.None? || ErrCodeEquals(err, ErrCodeConfigurationSetDoesNotExist)
    ensures r.Some? ==> r == err
  {
    if err.Some? && !ErrCodeEquals(err, ErrCodeConfigurationSetDoesNotExist) then err else None
  }
}
