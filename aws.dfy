/** The `mondoo_integration_aws_serverless` resource
    (internal/provider/integration_aws_serverless_resource.go): its model,
    schema defaults, configuration validator, the request it sends for a
    model, the model it reads back from a fetched integration, and its
    lifecycle handlers. */
module AwsServerlessResource {
  import opened Values
  import opened Diagnostics
  import opened Conversions
  import opened Wire
  import opened Remote
  import opened Lifecycle

  // ----- resource model -----

  datatype VpcConfigurationModel = VpcConfigurationModel(useMondooVpc: Value<bool>, cidr: Value<string>)

  datatype EbsScanModel = EbsScanModel(targetInstancesPerScanner: Value<int>, maxAsgInstances: Value<int>)

  datatype Ec2ScanModel = Ec2ScanModel(
    ssm: Value<bool>,
    instanceIdsFilter: Value<seq<string>>,
    regionsFilter: Value<seq<string>>,
    tagsFilter: Value<map<string, string>>,
    excludeInstanceIdsFilter: Value<seq<string>>,
    excludeRegionsFilter: Value<seq<string>>,
    excludeTagsFilter: Value<map<string, string>>,
    ebsVolumeScan: Value<bool>,
    ebsScanOptions: Option<EbsScanModel>,
    instanceConnect: Value<bool>)

  /** The nested objects are Go pointers: `None` is nil. */
  datatype ScanConfigurationModel = ScanConfigurationModel(
    ec2Scan: Value<bool>,
    ecrScan: Value<bool>,
    ecsScan: Value<bool>,
    cronScanInHours: Value<int>,
    ec2ScanOptions: Option<Ec2ScanModel>,
    vpcConfiguration: Option<VpcConfigurationModel>)

  datatype Model = Model(
    spaceId: Value<string>,
    mrn: Value<string>,
    name: Value<string>,
    token: Value<string>,
    region: Value<string>,
    scanConfiguration: ScanConfigurationModel,
    accountIds: Value<seq<string>>,
    isOrganization: Value<bool>,
    consoleSignInTrigger: Value<bool>,
    instanceStateChangeTrigger: Value<bool>)

  /** The zero value of the Go model: every attribute null, every pointer nil. */
  const NullModel := Model(Null, Null, Null, Null, Null,
    ScanConfigurationModel(Null, Null, Null, Null, None, None), Null, Null, Null, Null)

  // ----- constants -----

  const ScanTypeAll := "ALL"
  const SignInSource := "aws.signin"
  const SignInDetailType := "AWS Console Sign In via CloudTrail"
  const InstanceStateSource := "aws.ec2"
  const InstanceStateDetailType := "EC2 Instance State-change Notification"

  const SignInPattern := AwsEventPatternInput(ScanTypeAll, SignInSource, SignInDetailType)
  const InstanceStatePattern := AwsEventPatternInput(ScanTypeAll, InstanceStateSource, InstanceStateDetailType)

  const DefaultCidrBlock := "10.0.0.0/24"

  const CidrRequiredSummary := "MissingAttributeError"
  const CidrRequiredDetail := "Attribute cidr_block must not be empty when use_mondoo_vpc is set to true."
  const ConflictSummary := "ConflictingAttributesError"
  const ConflictDetail := "Cannot install CloudFormation Stack to both AWS organization and accounts."

  // ----- schema defaults -----

  /** Default of `vpc_configuration`. */
  const DefaultVpcConfiguration := VpcConfigurationModel(Known(false), Known(DefaultCidrBlock))

  /** Default of `ec2_scan_options.ebs_scan_options`. */
  const DefaultEbsScanOptions := EbsScanModel(Known(0), Known(0))

  /** Default of `ec2_scan_options`: empty filters, every switch off. */
  const DefaultEc2ScanOptions := Ec2ScanModel(Known(false), Known([]), Known([]), Known(map[]),
    Known([]), Known([]), Known(map[]), Known(false), Some(DefaultEbsScanOptions), Known(false))

  /** Default of the scalar attributes of `scan_configuration`. */
  const DefaultScanConfiguration := ScanConfigurationModel(Known(false), Known(false), Known(false), Known(0),
    Some(DefaultEc2ScanOptions), Some(DefaultVpcConfiguration))

  // ----- desired state to request -----

  /** The event patterns requested for the two trigger switches: the sign-in
      pattern exactly when console sign-in is on, the EC2 state-change pattern
      exactly when instance state change is on, sign-in first, no repeats. */
  function EventScanTriggers(consoleSignIn: bool, instanceStateChange: bool): (triggers: seq<AwsEventPatternInput>)
    ensures SignInPattern in triggers <==> consoleSignIn
    ensures InstanceStatePattern in triggers <==> instanceStateChange
    ensures forall i :: 0 <= i < |triggers| ==> triggers[i] == SignInPattern || triggers[i] == InstanceStatePattern
    ensures forall i, j :: 0 <= i < j < |triggers| ==> triggers[i] != triggers[j]
    ensures consoleSignIn && instanceStateChange ==> triggers == [SignInPattern, InstanceStatePattern]
  {
    if instanceStateChange && consoleSignIn then [SignInPattern, InstanceStatePattern]
    else if consoleSignIn && !instanceStateChange then [SignInPattern]
    else if instanceStateChange && !consoleSignIn then [InstanceStatePattern]
    else []
  }

  /** The options builder dereferences `ec2_scan_options` and its
      `ebs_scan_options`; both carry object defaults, so a plan always has them. */
  predicate HasScanOptions(m: Model) {
    m.scanConfiguration.ec2ScanOptions.Some? && m.scanConfiguration.ec2ScanOptions.value.ebsScanOptions.Some?
  }

  /** `GetConfigurationOptions`: the AWS options sent on create and update. */
  function GetConfigurationOptions(m: Model): (opts: AwsConfigurationOptionsInput)
    requires HasScanOptions(m)
    ensures opts.region == ValueString(m.region) && opts.isOrganization == ValueBool(m.isOrganization)
    ensures opts.accountIds == ConvertSliceStrings(m.accountIds)
    ensures var sc := m.scanConfiguration;
      opts.scanConfiguration.ec2Scan == ValueBool(sc.ec2Scan) &&
      opts.scanConfiguration.ecrScan == ValueBool(sc.ecrScan) &&
      opts.scanConfiguration.ecsScan == ValueBool(sc.ecsScan) &&
      opts.scanConfiguration.cronScanInHours == ValueInt64(sc.cronScanInHours)
    ensures var given := m.scanConfiguration.ec2ScanOptions.value;
      var ec2 := opts.scanConfiguration.ec2ScanOptions;
      ec2.ssm == ValueBool(given.ssm) &&
      ec2.ebsVolumeScan == ValueBool(given.ebsVolumeScan) &&
      ec2.instanceConnect == ValueBool(given.instanceConnect) &&
      ec2.instanceIdsFilter == ConvertSliceStrings(given.instanceIdsFilter) &&
      ec2.regionsFilter == ConvertSliceStrings(given.regionsFilter) &&
      ec2.excludedInstanceIdsFilter == ConvertSliceStrings(given.excludeInstanceIdsFilter) &&
      ec2.excludedRegionsFilter == ConvertSliceStrings(given.excludeRegionsFilter) &&
      ec2.tagsFilter == MapElements(given.tagsFilter) &&
      ec2.excludedTagsFilter == MapElements(given.excludeTagsFilter)
    ensures var given := m.scanConfiguration.ec2ScanOptions.value.ebsScanOptions.value;
      var ebs := opts.scanConfiguration.ec2ScanOptions.ebsScanOptions;
      ebs.targetInstancesPerScanner == ValueInt64(given.targetInstancesPerScanner) &&
      ebs.maxAsgInstances == ValueInt64(given.maxAsgInstances)
    ensures opts.scanConfiguration.eventScanTriggers
      == EventScanTriggers(ValueBool(m.consoleSignInTrigger), ValueBool(m.instanceStateChangeTrigger))
    ensures opts.scanConfiguration.vpcConfiguration.Some? <==> m.scanConfiguration.vpcConfiguration.Some?
    ensures opts.scanConfiguration.vpcConfiguration.Some? ==>
      var vpc := opts.scanConfiguration.vpcConfiguration.value;
      var given := m.scanConfiguration.vpcConfiguration.value;
      vpc.useDefaultVpc == !vpc.useMondooVpc &&
      vpc.useMondooVpc == ValueBool(given.useMondooVpc) &&
      vpc.cidr == ValueString(given.cidr)
  {
    var sc := m.scanConfiguration;
    var ec2 := sc.ec2ScanOptions.value;
    var ebs := ec2.ebsScanOptions.value;
    var vpc := if sc.vpcConfiguration.Some? then
        var useMondooVpc := ValueBool(sc.vpcConfiguration.value.useMondooVpc);
        Some(VpcConfigurationInput(useMondooVpc, !useMondooVpc, ValueString(sc.vpcConfiguration.value.cidr)))
      else None;
    AwsConfigurationOptionsInput(
      ValueString(m.region),
      ValueBool(m.isOrganization),
      ConvertSliceStrings(m.accountIds),
      ScanConfigurationInput(
        ValueBool(sc.ec2Scan),
        ValueBool(sc.ecrScan),
        ValueBool(sc.ecsScan),
        ValueInt64(sc.cronScanInHours),
        EventScanTriggers(ValueBool(m.consoleSignInTrigger), ValueBool(m.instanceStateChangeTrigger)),
        Ec2ScanOptionsInput(
          ValueBool(ec2.ssm),
          ConvertSliceStrings(ec2.instanceIdsFilter),
          ConvertSliceStrings(ec2.regionsFilter),
          MapElements(ec2.tagsFilter),
          ConvertSliceStrings(ec2.excludeInstanceIdsFilter),
          ConvertSliceStrings(ec2.excludeRegionsFilter),
          MapElements(ec2.excludeTagsFilter),
          EbsScanOptionsInput(ValueInt64(ebs.targetInstancesPerScanner), ValueInt64(ebs.maxAsgInstances)),
          ValueBool(ec2.ebsVolumeScan),
          ValueBool(ec2.instanceConnect)),
        vpc))
  }

  // ----- validation -----

  /** `ValidateConfig`: with the Mondoo VPC chosen, the CIDR block must not be
      empty; nothing else is checked. */
  function ValidateConfig(config: Model): (diags: seq<Diagnostic>)
    ensures diags == [] || diags == [NewError(CidrRequiredSummary, CidrRequiredDetail)]
    ensures diags != [] <==>
      config.scanConfiguration.vpcConfiguration.Some? &&
      ValueBool(config.scanConfiguration.vpcConfiguration.value.useMondooVpc) &&
      ValueString(config.scanConfiguration.vpcConfiguration.value.cidr) == ""
  {
    var vpc := config.scanConfiguration.vpcConfiguration;
    if vpc.Some? && ValueBool(vpc.value.useMondooVpc) && ValueString(vpc.value.cidr) == "" then
      [NewError(CidrRequiredSummary, CidrRequiredDetail)]
    else []
  }

  /** The default VPC object passes validation. */
  lemma DefaultVpcPassesValidation(config: Model)
    requires config.scanConfiguration.vpcConfiguration == Some(DefaultVpcConfiguration)
    ensures ValidateConfig(config) == []
  {
  }

  /** Validation reads the configuration, where an omitted `cidr_block` is
      still null (its default is applied to the plan only): choosing the Mondoo
      VPC without writing a CIDR block is rejected. */
  lemma MondooVpcNeedsExplicitCidr(config: Model)
    requires config.scanConfiguration.vpcConfiguration == Some(VpcConfigurationModel(Known(true), Null))
    ensures ValidateConfig(config) == [NewError(CidrRequiredSummary, CidrRequiredDetail)]
  {
  }

  /** Accounts and organization together: the check of `Create` and `Update`. */
  predicate AccountsConflict(m: Model) {
    |ConvertSliceStrings(m.accountIds)| > 0 && ValueBool(m.isOrganization)
  }

  // ----- fetched integration to state -----

  /** Some trigger of the fetched integration has the given event source. */
  predicate HasEventSource(triggers: seq<AwsEventPattern>, source: string) {
    exists i | 0 <= i < |triggers| :: triggers[i].eventSource == source
  }

  /** The state `Read` saves for a fetched integration: everything comes from
      the integration except the token, which is carried over from the prior
      state; a trigger switch is on exactly when some fetched trigger has its
      event source; the nested objects are always present. */
  function ReadModel(integration: Integration, prior: Model): (m: Model)
    ensures m.token == Known(ValueString(prior.token))
    ensures m.mrn == Known(integration.mrn) && m.name == Known(integration.name)
      && m.spaceId == Known(integration.spaceId)
    ensures var triggers := integration.configurationOptions.aws.scanConfiguration.eventScanTriggers;
      m.consoleSignInTrigger == Known(HasEventSource(triggers, SignInSource)) &&
      m.instanceStateChangeTrigger == Known(HasEventSource(triggers, InstanceStateSource))
    ensures HasScanOptions(m) && m.scanConfiguration.vpcConfiguration.Some?
    ensures var aws := integration.configurationOptions.aws;
      m.region == Known(aws.region) && m.accountIds == Known(aws.accountIds) &&
      m.isOrganization == Known(aws.isOrganization)
    ensures var fetched := integration.configurationOptions.aws.scanConfiguration;
      var sc := m.scanConfiguration;
      sc.ec2Scan == Known(fetched.ec2Scan) && sc.ecrScan == Known(fetched.ecrScan) &&
      sc.ecsScan == Known(fetched.ecsScan) && sc.cronScanInHours == Known(fetched.cronScanInHours) &&
      sc.vpcConfiguration.value.useMondooVpc == Known(fetched.vpcConfiguration.useMondooVpc) &&
      sc.vpcConfiguration.value.cidr == Known(fetched.vpcConfiguration.cidr)
    ensures var fetched := integration.configurationOptions.aws.scanConfiguration.ec2ScanOptions;
      var ec2 := m.scanConfiguration.ec2ScanOptions.value;
      ec2.ssm == Known(fetched.ssm) && ec2.ebsVolumeScan == Known(fetched.ebsVolumeScan) &&
      ec2.instanceConnect == Known(fetched.instanceConnect) &&
      ec2.instanceIdsFilter == Known(fetched.instanceIdsFilter) &&
      ec2.regionsFilter == Known(fetched.regionsFilter) &&
      ec2.excludeInstanceIdsFilter == Known(fetched.excludedInstanceIdsFilter) &&
      ec2.excludeRegionsFilter == Known(fetched.excludedRegionsFilter) &&
      ec2.tagsFilter == Known(StringValues(fetched.tagsFilter)) &&
      ec2.excludeTagsFilter == Known(StringValues(fetched.excludedTagsFilter)) &&
      ec2.ebsScanOptions.value.targetInstancesPerScanner == Known(fetched.ebsScanOptions.targetInstancesPerScanner) &&
      ec2.ebsScanOptions.value.maxAsgInstances == Known(fetched.ebsScanOptions.maxAsgInstances)
  {
    var aws := integration.configurationOptions.aws;
    var sc := aws.scanConfiguration;
    var ec2 := sc.ec2ScanOptions;
    Model(
      Known(integration.spaceId),
      Known(integration.mrn),
      Known(integration.name),
      Known(ValueString(prior.token)),
      Known(aws.region),
      ScanConfigurationModel(
        Known(sc.ec2Scan),
        Known(sc.ecrScan),
        Known(sc.ecsScan),
        Known(sc.cronScanInHours),
        Some(Ec2ScanModel(
          Known(ec2.ssm),
          Known(ec2.instanceIdsFilter),
          Known(ec2.regionsFilter),
          Known(StringValues(ec2.tagsFilter)),
          Known(ec2.excludedInstanceIdsFilter),
          Known(ec2.excludedRegionsFilter),
          Known(StringValues(ec2.excludedTagsFilter)),
          Known(ec2.ebsVolumeScan),
          Some(EbsScanModel(Known(ec2.ebsScanOptions.targetInstancesPerScanner),
            Known(ec2.ebsScanOptions.maxAsgInstances))),
          Known(ec2.instanceConnect))),
        Some(VpcConfigurationModel(Known(sc.vpcConfiguration.useMondooVpc), Known(sc.vpcConfiguration.cidr)))),
      Known(aws.accountIds),
      Known(aws.isOrganization),
      Known(HasEventSource(sc.eventScanTriggers, SignInSource)),
      Known(HasEventSource(sc.eventScanTriggers, InstanceStateSource)))
  }

  // ----- an idealised service -----

  function EchoPattern(p: AwsEventPatternInput): AwsEventPattern {
    AwsEventPattern(p.scanType, p.eventSource, p.eventDetailType)
  }

  function EchoPatterns(ps: seq<AwsEventPatternInput>): (r: seq<AwsEventPattern>)
    ensures |r| == |ps|
    ensures forall i :: 0 <= i < |ps| ==> r[i] == EchoPattern(ps[i])
  {
    seq(|ps|, i requires 0 <= i < |ps| => EchoPattern(ps[i]))
  }

  function EchoTags(tags: map<string, string>): map<string, Dynamic> {
    map k | k in tags :: DString(tags[k])
  }

  /** The options of an integration created from `opts` by a service that
      stores the request as sent. Without a VPC input it reports the zero VPC. */
  function EchoOptions(opts: AwsConfigurationOptionsInput): AwsConfigurationOptions {
    var sc := opts.scanConfiguration;
    var ec2 := sc.ec2ScanOptions;
    AwsConfigurationOptions(
      opts.region,
      opts.accountIds,
      opts.isOrganization,
      ScanConfiguration(
        sc.ec2Scan, sc.ecrScan, sc.ecsScan, sc.cronScanInHours,
        EchoPatterns(sc.eventScanTriggers),
        Ec2ScanOptions(
          ec2.ssm,
          ec2.instanceIdsFilter,
          ec2.regionsFilter,
          EchoTags(ec2.tagsFilter),
          ec2.excludedInstanceIdsFilter,
          ec2.excludedRegionsFilter,
          EchoTags(ec2.excludedTagsFilter),
          ec2.ebsVolumeScan,
          EbsScanOptions(ec2.ebsScanOptions.targetInstancesPerScanner, ec2.ebsScanOptions.maxAsgInstances),
          ec2.instanceConnect),
        if sc.vpcConfiguration.Some? then
          VpcConfiguration(sc.vpcConfiguration.value.useMondooVpc, sc.vpcConfiguration.value.cidr)
        else VpcConfiguration(false, "")))
  }

  /** Decoding the encoded trigger switches gives the switches back. */
  lemma {:induction false} TriggersRoundTrip(consoleSignIn: bool, instanceStateChange: bool)
    ensures var sent := EventScanTriggers(consoleSignIn, instanceStateChange);
      var stored := EchoPatterns(sent);
      HasEventSource(stored, SignInSource) == consoleSignIn &&
      HasEventSource(stored, InstanceStateSource) == instanceStateChange
  {
    var sent := EventScanTriggers(consoleSignIn, instanceStateChange);
    var stored := EchoPatterns(sent);
    if consoleSignIn {
      var i :| 0 <= i < |sent| && sent[i] == SignInPattern;
      assert stored[i].eventSource == SignInSource;
    }
    if instanceStateChange {
      var i :| 0 <= i < |sent| && sent[i] == InstanceStatePattern;
      assert stored[i].eventSource == InstanceStateSource;
    }
    assert forall i :: 0 <= i < |stored| ==>
      (stored[i].eventSource == SignInSource ==> sent[i] == SignInPattern) &&
      (stored[i].eventSource == InstanceStateSource ==> sent[i] == InstanceStatePattern);
  }

  /** A plan whose every attribute the options builder reads is known, with
      all nested objects present. */
  predicate FullyKnown(m: Model) {
    var sc := m.scanConfiguration;
    HasScanOptions(m) && sc.vpcConfiguration.Some? &&
    var ec2 := sc.ec2ScanOptions.value;
    var ebs := ec2.ebsScanOptions.value;
    var vpc := sc.vpcConfiguration.value;
    m.region.Known? && m.accountIds.Known? && m.isOrganization.Known? &&
    m.consoleSignInTrigger.Known? && m.instanceStateChangeTrigger.Known? &&
    sc.ec2Scan.Known? && sc.ecrScan.Known? && sc.ecsScan.Known? && sc.cronScanInHours.Known? &&
    ec2.ssm.Known? && ec2.instanceIdsFilter.Known? && ec2.regionsFilter.Known? && ec2.tagsFilter.Known? &&
    ec2.excludeInstanceIdsFilter.Known? && ec2.excludeRegionsFilter.Known? && ec2.excludeTagsFilter.Known? &&
    ec2.ebsVolumeScan.Known? && ec2.instanceConnect.Known? &&
    ebs.targetInstancesPerScanner.Known? && ebs.maxAsgInstances.Known? &&
    vpc.useMondooVpc.Known? && vpc.cidr.Known?
  }

  lemma EchoTagsRoundTrip(tags: map<string, string>)
    ensures StringValues(EchoTags(tags)) == tags
  {
  }

  /** No drift: when the service stores the request as sent and reports the
      integration in the space `Create` resolved (`Create` saves `space.id`,
      `Read` the integration's own space), reading the integration back gives
      exactly the state `Create` saved. */
  lemma {:induction false} ReadAfterCreateIsStable(plan: Model, space: Space, integration: Integration)
    requires integration.spaceId == space.id
    requires FullyKnown(plan)
    requires integration.configurationOptions.aws == EchoOptions(GetConfigurationOptions(plan))
    ensures var saved := plan.(mrn := Known(integration.mrn), name := Known(integration.name),
        token := Known(integration.token), spaceId := Known(space.id));
      ReadModel(integration, saved) == saved
  {
    var saved := plan.(mrn := Known(integration.mrn), name := Known(integration.name),
      token := Known(integration.token), spaceId := Known(space.id));
    var sc := plan.scanConfiguration;
    var ec2 := sc.ec2ScanOptions.value;
    var read := ReadModel(integration, saved);
    TriggersRoundTrip(ValueBool(plan.consoleSignInTrigger), ValueBool(plan.instanceStateChangeTrigger));
    EchoTagsRoundTrip(ec2.tagsFilter.v);
    EchoTagsRoundTrip(ec2.excludeTagsFilter.v);
    assert read.scanConfiguration.ec2ScanOptions == sc.ec2ScanOptions;
    assert read.scanConfiguration.vpcConfiguration == sc.vpcConfiguration;
    assert read.scanConfiguration == sc;
    assert read.consoleSignInTrigger == plan.consoleSignInTrigger;
    assert read.instanceStateChangeTrigger == plan.instanceStateChangeTrigger;
    assert read.accountIds == plan.accountIds;
  }

  // ----- lifecycle -----

  function CreateRequest(space: Space, plan: Model): Call
    requires HasScanOptions(plan)
  {
    CreateIntegration(space.mrn, ValueString(plan.name), Aws, AwsInput(GetConfigurationOptions(plan)))
  }

  function UpdateRequest(plan: Model): Call
    requires HasScanOptions(plan)
  {
    UpdateIntegration(ValueString(plan.mrn), ValueString(plan.name), Aws, AwsInput(GetConfigurationOptions(plan)))
  }

  /** `Create`: resolve the space, refuse accounts together with an
      organization, create the integration, and save the plan with the
      integration's MRN, name and token and the space's id. */
  method Create(client: Client, plan: Model) returns (resp: Response<Model>)
    requires HasScanOptions(plan)
    ensures var space := client.computeSpace(plan.spaceId);
      space.Err? ==> Aborted(resp, [ComputeSpace(plan.spaceId)], "Invalid Configuration", space.msg)
    ensures var space := client.computeSpace(plan.spaceId);
      space.Ok? && AccountsConflict(plan) ==> Aborted(resp, [ComputeSpace(plan.spaceId)], ConflictSummary, ConflictDetail)
    ensures var space := client.computeSpace(plan.spaceId);
      space.Ok? && !AccountsConflict(plan) ==> resp.calls == [ComputeSpace(plan.spaceId), CreateRequest(space.value, plan)]
    ensures var space := client.computeSpace(plan.spaceId);
      space.Ok? && !AccountsConflict(plan) ==>
      var created := client.createIntegration(space.value.mrn, ValueString(plan.name), Aws, AwsInput(GetConfigurationOptions(plan)));
      (created.Err? ==> resp.diags == [NewError("Client Error", "Unable to create AWS integration, got error: " + created.msg)]) &&
      (created.Ok? ==> resp.diags == [] && resp.state == Saved(plan.(mrn := Known(created.value.mrn),
        name := Known(created.value.name), token := Known(created.value.token), spaceId := Known(space.value.id))))
    ensures resp.state.Saved? <==> !HasError(resp.diags)
    ensures !resp.state.Removed?
  {
    var space := client.computeSpace(plan.spaceId);
    resp := Response([], Untouched, [ComputeSpace(plan.spaceId)]);
    if space.Err? {
      resp := resp.(diags := [NewError("Invalid Configuration", space.msg)]);
      assert resp.diags[0].severity == Error;
      return;
    }
    if AccountsConflict(plan) {
      resp := resp.(diags := [NewError(ConflictSummary, ConflictDetail)]);
      assert resp.diags[0].severity == Error;
      return;
    }
    var opts := GetConfigurationOptions(plan);
    resp := resp.(calls := resp.calls + [CreateIntegration(space.value.mrn, ValueString(plan.name), Aws, AwsInput(opts))]);
    var created := client.createIntegration(space.value.mrn, ValueString(plan.name), Aws, AwsInput(opts));
    if created.Err? {
      resp := resp.(diags := [NewError("Client Error", "Unable to create AWS integration, got error: " + created.msg)]);
      assert resp.diags[0].severity == Error;
      return;
    }
    var data := plan;
    data := data.(mrn := Known(created.value.mrn));
    data := data.(name := Known(created.value.name));
    data := data.(token := Known(created.value.token));
    data := data.(spaceId := Known(space.value.id));
    resp := resp.(state := Saved(data));
  }

  /** `Read`: fetch the integration; when that fails, drop the resource from
      state without an error; otherwise save `ReadModel`, computing the two
      trigger switches by a scan over the fetched triggers. */
  method Read(client: Client, prior: Model) returns (resp: Response<Model>)
    ensures resp.calls == [GetClientIntegration(ValueString(prior.mrn))]
    ensures resp.diags == []
    ensures var fetched := client.getClientIntegration(ValueString(prior.mrn));
      (fetched.Err? ==> resp.state == Removed) &&
      (fetched.Ok? ==> resp.state == Saved(ReadModel(fetched.value, prior)))
  {
    var mrn := ValueString(prior.mrn);
    resp := Response([], Untouched, [GetClientIntegration(mrn)]);
    var fetched := client.getClientIntegration(mrn);
    if fetched.Err? {
      resp := resp.(state := Removed);
      return;
    }
    var integration := fetched.value;
    var aws := integration.configurationOptions.aws;
    var sc := aws.scanConfiguration;
    var ec2 := sc.ec2ScanOptions;
    var accountIds := ConvertListValue(aws.accountIds);
    var instanceIds := ConvertListValue(ec2.instanceIdsFilter);
    var regions := ConvertListValue(ec2.regionsFilter);
    var tags := ConvertMapValue(ec2.tagsFilter);
    var excludedInstanceIds := ConvertListValue(ec2.excludedInstanceIdsFilter);
    var excludedRegions := ConvertListValue(ec2.excludedRegionsFilter);
    var excludedTags := ConvertMapValue(ec2.excludedTagsFilter);
    assert accountIds.v == aws.accountIds && instanceIds.v == ec2.instanceIdsFilter && regions.v == ec2.regionsFilter;
    assert excludedInstanceIds.v == ec2.excludedInstanceIdsFilter && excludedRegions.v == ec2.excludedRegionsFilter;
    assert tags.v == StringValues(ec2.tagsFilter);
    assert excludedTags.v == StringValues(ec2.excludedTagsFilter);
    var model := Model(
      Known(integration.spaceId),
      Known(integration.mrn),
      Known(integration.name),
      Known(ValueString(prior.token)),
      Known(aws.region),
      ScanConfigurationModel(
        Known(sc.ec2Scan),
        Known(sc.ecrScan),
        Known(sc.ecsScan),
        Known(sc.cronScanInHours),
        Some(Ec2ScanModel(
          Known(ec2.ssm),
          instanceIds,
          regions,
          tags,
          excludedInstanceIds,
          excludedRegions,
          excludedTags,
          Known(ec2.ebsVolumeScan),
          Some(EbsScanModel(Known(ec2.ebsScanOptions.targetInstancesPerScanner),
            Known(ec2.ebsScanOptions.maxAsgInstances))),
          Known(ec2.instanceConnect))),
        Some(VpcConfigurationModel(Known(sc.vpcConfiguration.useMondooVpc), Known(sc.vpcConfiguration.cidr)))),
      accountIds,
      Known(aws.isOrganization),
      Known(false),
      Known(false));
    ghost var target := ReadModel(integration, prior);
    var triggers := sc.eventScanTriggers;
    for i := 0 to |triggers|
      invariant model == target.(consoleSignInTrigger := Known(HasEventSource(triggers[..i], SignInSource)),
        instanceStateChangeTrigger := Known(HasEventSource(triggers[..i], InstanceStateSource)))
    {
      assert triggers[..i + 1] == triggers[..i] + [triggers[i]];
      if triggers[i].eventSource == SignInSource {
        model := model.(consoleSignInTrigger := Known(true));
      }
      if triggers[i].eventSource == InstanceStateSource {
        model := model.(instanceStateChangeTrigger := Known(true));
      }
    }
    assert triggers[..|triggers|] == triggers;
    resp := resp.(state := Saved(model));
  }

  /** `Update`: refuse accounts together with an organization before any
      call, send the update, and save the plan as it is. */
  method Update(client: Client, plan: Model) returns (resp: Response<Model>)
    requires HasScanOptions(plan)
    ensures AccountsConflict(plan) ==> Aborted(resp, [], ConflictSummary, ConflictDetail)
    ensures !AccountsConflict(plan) ==> resp.calls == [UpdateRequest(plan)]
    ensures !AccountsConflict(plan) ==>
      var updated := client.updateIntegration(ValueString(plan.mrn), ValueString(plan.name), Aws, AwsInput(GetConfigurationOptions(plan)));
      (updated.Err? ==> Aborted(resp, [UpdateRequest(plan)], "Client Error", "Unable to update AWS integration, got error: " + updated.msg)) &&
      (updated.Ok? ==> resp.diags == [] && resp.state == Saved(plan))
  {
    resp := Response([], Untouched, []);
    if AccountsConflict(plan) {
      resp := resp.(diags := [NewError(ConflictSummary, ConflictDetail)]);
      return;
    }
    var opts := AwsInput(GetConfigurationOptions(plan));
    resp := resp.(calls := [UpdateIntegration(ValueString(plan.mrn), ValueString(plan.name), Aws, opts)]);
    var updated := client.updateIntegration(ValueString(plan.mrn), ValueString(plan.name), Aws, opts);
    if updated.Err? {
      resp := resp.(diags := [NewError("Client Error", "Unable to update AWS integration, got error: " + updated.msg)]);
      return;
    }
    resp := resp.(state := Saved(plan));
  }

  /** `Delete`: delete the integration named by the prior state's MRN; an
      error names that MRN. */
  method Delete(client: Client, prior: Model) returns (resp: Response<Model>)
    ensures resp.calls == [DeleteIntegration(ValueString(prior.mrn))]
    ensures resp.state.Untouched?
    ensures var deleted := client.deleteIntegration(ValueString(prior.mrn));
      (deleted.Err? ==> resp.diags == [NewError("Client Error",
        "Unable to delete AWS serverless integration '" + ValueString(prior.mrn) + "', got error: " + deleted.msg)]) &&
      (deleted.Ok? ==> resp.diags == [])
  {
    var mrn := ValueString(prior.mrn);
    resp := Response([], Untouched, [DeleteIntegration(mrn)]);
    var deleted := client.deleteIntegration(mrn);
    if deleted.Err? {
      resp := resp.(diags := [NewError("Client Error",
        "Unable to delete AWS serverless integration '" + mrn + "', got error: " + deleted.msg)]);
    }
  }

  /** `ImportState`: only the MRN, name and space id are set; every other
      attribute stays null and both nested objects nil. */
  method ImportState(client: Client, id: string) returns (resp: Response<Model>)
    ensures resp.calls == [ImportIntegration(id)]
    ensures var outcome := client.importIntegration(id);
      (outcome.NotImported? ==> resp.diags == outcome.diags && resp.state.Untouched?) &&
      (outcome.Imported? ==>
        resp.diags == [] && resp.state.Saved? &&
        resp.state.model.mrn == Known(outcome.integration.mrn) &&
        resp.state.model.name == Known(outcome.integration.name) &&
        resp.state.model.spaceId == Known(outcome.integration.spaceId) &&
        resp.state.model == NullModel.(mrn := resp.state.model.mrn, name := resp.state.model.name,
          spaceId := resp.state.model.spaceId))
  {
    resp := Response([], Untouched, [ImportIntegration(id)]);
    var outcome := client.importIntegration(id);
    if outcome.NotImported? {
      resp := resp.(diags := outcome.diags);
      return;
    }
    var integration := outcome.integration;
    var model := NullModel.(mrn := Known(integration.mrn), name := Known(integration.name),
      spaceId := Known(integration.spaceId));
    resp := resp.(state := Saved(model));
  }
}
