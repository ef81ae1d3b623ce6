/** The wire types of the Mondoo GraphQL API that the provider fills in and
    reads back (they live in the mondoo-go client library): the per-kind
    configuration inputs sent on create and update, and the per-kind
    configuration options of an integration the service returns. Input
    pointers that are always set are plain fields; those the provider sets
    only sometimes are `Option`s. */
module Wire {
  import opened Values
  import opened Conversions

  datatype IntegrationType = Aws | Azure | Gcp | SentinelOne | CrowdstrikeFalcon | Ms365

  datatype ActionType = RunScan | RunImport

  // ----- AWS serverless input -----

  datatype AwsEventPatternInput = AwsEventPatternInput(scanType: string, eventSource: string, eventDetailType: string)

  datatype EbsScanOptionsInput = EbsScanOptionsInput(targetInstancesPerScanner: int, maxAsgInstances: int)

  datatype Ec2ScanOptionsInput = Ec2ScanOptionsInput(
    ssm: bool,
    instanceIdsFilter: seq<string>,
    regionsFilter: seq<string>,
    tagsFilter: map<string, string>,
    excludedInstanceIdsFilter: seq<string>,
    excludedRegionsFilter: seq<string>,
    excludedTagsFilter: map<string, string>,
    ebsScanOptions: EbsScanOptionsInput,
    ebsVolumeScan: bool,
    instanceConnect: bool)

  datatype VpcConfigurationInput = VpcConfigurationInput(useMondooVpc: bool, useDefaultVpc: bool, cidr: string)

  datatype ScanConfigurationInput = ScanConfigurationInput(
    ec2Scan: bool,
    ecrScan: bool,
    ecsScan: bool,
    cronScanInHours: int,
    eventScanTriggers: seq<AwsEventPatternInput>,
    ec2ScanOptions: Ec2ScanOptionsInput,
    vpcConfiguration: Option<VpcConfigurationInput>)

  datatype AwsConfigurationOptionsInput = AwsConfigurationOptionsInput(
    region: string,
    isOrganization: bool,
    accountIds: seq<string>,
    scanConfiguration: ScanConfigurationInput)

  // ----- other integration inputs -----

  datatype AzureConfigurationOptionsInput = AzureConfigurationOptionsInput(
    tenantId: string,
    clientId: string,
    subscriptionsAllowlist: seq<string>,
    subscriptionsDenylist: seq<string>,
    scanVms: bool,
    certificate: string)

  datatype GcpConfigurationOptionsInput = GcpConfigurationOptionsInput(
    projectId: string,
    organizationId: string,
    serviceAccount: string,
    discoverAll: bool)

  datatype SentinelOneConfigurationOptionsInput = SentinelOneConfigurationOptionsInput(
    host: string,
    account: string,
    certificate: Option<string>,
    clientSecret: Option<string>)

  datatype CrowdstrikeFalconConfigurationOptionsInput = CrowdstrikeFalconConfigurationOptionsInput(
    clientId: string,
    clientSecret: string,
    cloud: string,
    memberCid: string,
    createAssets: bool)

  datatype Ms365ConfigurationOptionsInput = Ms365ConfigurationOptionsInput(
    tenantId: string,
    clientId: string,
    certificate: string)

  /** `ClientIntegrationConfigurationInput`: exactly one kind's options are set. */
  datatype ConfigurationInput =
    | AwsInput(aws: AwsConfigurationOptionsInput)
    | AzureInput(azure: AzureConfigurationOptionsInput)
    | GcpInput(gcp: GcpConfigurationOptionsInput)
    | SentinelOneInput(sentinelOne: SentinelOneConfigurationOptionsInput)
    | CrowdstrikeInput(crowdstrike: CrowdstrikeFalconConfigurationOptionsInput)
    | Ms365Input(ms365: Ms365ConfigurationOptionsInput)

  // ----- configuration options of a fetched integration -----

  datatype AwsEventPattern = AwsEventPattern(scanType: string, eventSource: string, eventDetailType: string)

  datatype EbsScanOptions = EbsScanOptions(targetInstancesPerScanner: int, maxAsgInstances: int)

  datatype Ec2ScanOptions = Ec2ScanOptions(
    ssm: bool,
    instanceIdsFilter: seq<string>,
    regionsFilter: seq<string>,
    tagsFilter: map<string, Dynamic>,
    excludedInstanceIdsFilter: seq<string>,
    excludedRegionsFilter: seq<string>,
    excludedTagsFilter: map<string, Dynamic>,
    ebsVolumeScan: bool,
    ebsScanOptions: EbsScanOptions,
    instanceConnect: bool)

  datatype VpcConfiguration = VpcConfiguration(useMondooVpc: bool, cidr: string)

  datatype ScanConfiguration = ScanConfiguration(
    ec2Scan: bool,
    ecrScan: bool,
    ecsScan: bool,
    cronScanInHours: int,
    eventScanTriggers: seq<AwsEventPattern>,
    ec2ScanOptions: Ec2ScanOptions,
    vpcConfiguration: VpcConfiguration)

  datatype AwsConfigurationOptions = AwsConfigurationOptions(
    region: string,
    accountIds: seq<string>,
    isOrganization: bool,
    scanConfiguration: ScanConfiguration)

  datatype AzureConfigurationOptions = AzureConfigurationOptions(
    clientId: string,
    tenantId: string,
    subscriptionsWhitelist: seq<string>,
    subscriptionsBlacklist: seq<string>,
    scanVms: bool)

  datatype GcpConfigurationOptions = GcpConfigurationOptions(projectId: string, organizationId: string)

  datatype SentinelOneConfigurationOptions = SentinelOneConfigurationOptions(host: string, account: string)

  datatype CrowdstrikeFalconConfigurationOptions = CrowdstrikeFalconConfigurationOptions(
    clientId: string,
    cloud: string,
    memberCid: string,
    createAssets: bool)

  datatype Ms365ConfigurationOptions = Ms365ConfigurationOptions(tenantId: string, clientId: string)

  /** The configuration of a fetched integration: one fragment per kind, as
      in the GraphQL response struct; the fragments of the other kinds hold
      zero values. No fragment carries a secret. */
  datatype ConfigurationOptions = ConfigurationOptions(
    aws: AwsConfigurationOptions,
    azure: AzureConfigurationOptions,
    gcp: GcpConfigurationOptions,
    sentinelOne: SentinelOneConfigurationOptions,
    crowdstrike: CrowdstrikeFalconConfigurationOptions,
    ms365: Ms365ConfigurationOptions)

  /** A client integration as the service returns it. `spaceId` is what
      `SpaceID()` derives from it; `token` is only meaningful for AWS. */
  datatype Integration = Integration(
    mrn: string,
    name: string,
    spaceId: string,
    token: string,
    configurationOptions: ConfigurationOptions)

  /** A policy or query pack assigned to a space. */
  datatype Policy = Policy(
    mrn: string,
    name: string,
    isAssigned: bool,
    action: string,
    version: string,
    isPublic: bool,
    createdAt: string,
    updatedAt: string)

  datatype CreateSpaceInput = CreateSpaceInput(name: string, orgMrn: string)

  datatype UpdateSpaceInput = UpdateSpaceInput(mrn: string, name: string)

  /** The `createSpace` mutation's result. */
  datatype CreatedSpace = CreatedSpace(id: string, mrn: string, name: string)

  /** A compliance framework as `GetFramework` returns it. */
  datatype FrameworkRef = FrameworkRef(mrn: string)
}
