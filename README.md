# A Dafny model of the Mondoo Terraform provider's resource layer

This project models the Terraform provider for Mondoo (`terraform-provider-mondoo`). It covers the layer between the Terraform plugin framework and the Mondoo GraphQL client:

- the `mondoo_space` resource;
- the six cloud integration resources: AWS serverless, Azure, GCP, SentinelOne, CrowdStrike Falcon and Microsoft 365;
- the `mondoo_custom_framework` resource;
- the `mondoo_policy` data source;
- the list and map converters they share.

For each of these the model states:

- how the desired state becomes the integration's configuration input;
- how a fetched integration becomes Terraform state in `Read` and `ImportState`;
- what the cross-field and attribute validators accept;
- how MRNs and import identifiers are built and taken apart;
- in what order every lifecycle handler calls the service, what it reports and what it saves.

The Dafny terms behind these statements:

- **Framework values.** An attribute holds `Value<T> = Null | Unknown | Known(v)`. `ValueString`, `ValueBool` and `ValueInt64` read null and unknown values as "", false and 0, as the framework does.
- **The client.** It is a datatype of total functions (`Remote.Client`), one per GraphQL call, each returning `Ok(value)` or `Err(msg)`.
- **Handlers.** Each handler is a method that returns a `Lifecycle.Response`:
  - the diagnostics it appended;
  - what it did to the state: `Untouched`, `Saved(model)` or `Removed`;
  - the calls it issued, in order.

  Its postcondition gives that response for every possible answer of the service.
- **Round trips.** These are stated against an idealised service that stores a request as sent (`EchoOptions` in each module):
  - reading back what `Create` saved gives the same state;
  - importing gives back the plan, less its secrets;
  - splitting a joined identifier gives its pieces back.

One module per source file: `Conversions`, `AwsServerlessResource`, `SentinelOneResource`, `AzureResource`, `GcpResource`, `CrowdStrikeResource`, `Ms365Resource`, `CustomFrameworkResource`, `SpaceResource` and `PolicyDataSource`. Beside them:

- `Values`, `Diagnostics`, `Wire`, `Remote` and `Lifecycle` hold the framework's values, the diagnostics, the GraphQL input and output types, the client and the handler response;
- `Segments` models Go's `strings.Split` with one separator, together with `strings.Join`;
- `Validators` models the attribute validators of terraform-plugin-framework-validators that the schemas attach.

Two places where the code decides against a plain reading of the resource descriptions:

- AWS `Create` resolves the space (`ComputeSpace`) before it checks `account_ids` against `is_organization`. The conflict check therefore comes after that one call, and before any call that changes anything; `Update` checks before any call.
- The validators run on the configuration, where schema defaults are not yet applied. So an omitted AWS `cidr_block` is null when `ValidateConfig` runs, and `use_mondoo_vpc = true` without a CIDR block is refused (`MondooVpcNeedsExplicitCidr`). The GCP "" defaults likewise do not satisfy `ExactlyOneOf`.

## Model

| member | source | states |
|---|---|---|
| Conversions.ConvertListValue | internal/provider/conversions.go:15-22 | the result is a known (never null) list with the input's length whose i-th element is the i-th input string; an empty slice gives an empty known list |
| Conversions.ConvertMapValue | internal/provider/conversions.go:25-35 | the result is a known map with exactly the input's keys; string values are kept and every other value becomes "" |
| Conversions.ConvertSliceStrings | internal/provider/conversions.go:41-46 | a known list gives its elements in order; a null or unknown list gives an empty slice |
| Conversions.MapElements | internal/provider/integration_aws_serverless_resource.go:143-145 | a known map gives its entries, a null or unknown one the empty map |
| Conversions.StringValues | internal/provider/conversions.go:25-35 | the string map of a fetched map has the same keys |
| Conversions.ListRoundTrip | internal/provider/conversions.go:15-46 | a list that holds exactly the elements of a slice converts back to that slice |
| Segments.Split | internal/provider/custom_framework_resource.go:222 | `strings.Split` gives at least one piece, and no piece contains the separator |
| Segments.LastSegment | internal/provider/custom_framework_resource.go:225 | the last piece |
| Segments.ThirdFromLast | internal/provider/custom_framework_resource.go:223-224 | the third piece from the end exists exactly when there are at least three pieces |
| Segments.JoinSplit | internal/provider/custom_framework_resource.go:222 | joining the pieces of a split with the separator gives back the string |
| Segments.SplitWithoutSeparator | internal/provider/custom_framework_resource.go:222 | a string without the separator splits into itself alone |
| Segments.SplitAtSeparator | internal/provider/custom_framework_resource.go:222 | splitting `a + sep + b` gives the pieces of `a` followed by those of `b` |
| Segments.SplitJoin | internal/provider/custom_framework_resource.go:222 | splitting the join of separator-free pieces gives back the pieces |
| Segments.ScopeAndUidOfPath | internal/provider/custom_framework_resource.go:222-225 | in `<prefix>/<scope>/<kind>/<uid>` with separator-free last pieces, the scope is third from the end and the uid last |
| Validators.NatToString | internal/provider/integration_azure_resource.go:147 | the decimal rendering of a number has at least one digit |
| Validators.LengthAtMost | internal/provider/integration_azure_resource.go:147 | no diagnostic exactly when the value is null, unknown, or at most `max` characters long; otherwise one error at the attribute's path |
| Validators.GuidOfGroups | internal/provider/integration_azure_resource.go:154 | five lower-case hex groups of 8, 4, 4, 4 and 12 digits joined by hyphens match the GUID pattern |
| Validators.HexGroupHasNoHyphen | internal/provider/integration_azure_resource.go:154 | a hex group contains no hyphen |
| Validators.GroupsOfGuid | internal/provider/integration_azure_resource.go:154 | conversely, a string that matches the GUID pattern splits at its hyphens into exactly such five groups |
| Validators.HttpUrlHasOnlyUrlChars | internal/provider/integration_crowdstrike_resource.go:99-102 | every character of a string matching the URL pattern is in the pattern's character class |
| Validators.SchemeAndHostIsHttpUrl | internal/provider/integration_crowdstrike_resource.go:99-102 | `http://` or `https://` followed by at least one URL character matches the pattern |
| Validators.RegexMatches | internal/provider/integration_azure_resource.go:153-163 | no diagnostic exactly when the value is null, unknown, or matches; otherwise one error at the attribute's path |
| Validators.ConflictsWith | internal/provider/integration_azure_resource.go:178-196 | no diagnostic exactly when one of the two lists is null; an unknown list counts as present |
| Validators.CountNonNull | internal/provider/integration_gcp_resource.go:97-107 | the count of non-null values is at most the number of values, and zero exactly when every value is null |
| Validators.CountNonNullIsOne | internal/provider/integration_gcp_resource.go:97-107 | the count is one exactly when some value is non-null and every other value is null, the case `ExactlyOneOf` accepts |
| Validators.ExactlyOneOf | internal/provider/integration_gcp_resource.go:97-107 | no diagnostic exactly when a value is unknown or exactly one of them is non-null; otherwise one error at the attribute's path |
| AwsServerlessResource.EventScanTriggers | internal/provider/integration_aws_serverless_resource.go:109-134 | the sign-in pattern is requested exactly when `console_sign_in_trigger` is true, the EC2 pattern exactly when `instance_state_change_trigger` is true; nothing else, no repeats; sign-in first when both are set, empty when neither is |
| AwsServerlessResource.GetConfigurationOptions | internal/provider/integration_aws_serverless_resource.go:107-201 | the triggers are `EventScanTriggers` of the two switches; a VPC input is present exactly when `vpc_configuration` is, with `UseDefaultVPC = !UseMondooVPC` and the CIDR copied; region, `is_organization`, the EC2/ECR/ECS switches and `cron_scan_in_hours` are copied; `account_ids` and the four list filters go through `ConvertSliceStrings`, the two tag filters through `MapElements`, the EBS numbers through `ValueInt64` |
| AwsServerlessResource.ValidateConfig | internal/provider/integration_aws_serverless_resource.go:452-468 | one error ("MissingAttributeError") exactly when a VPC object is present, `use_mondoo_vpc` is true and `cidr_block` reads as ""; otherwise no diagnostic |
| AwsServerlessResource.DefaultVpcPassesValidation | internal/provider/integration_aws_serverless_resource.go:280-303 | the schema's default VPC object (`false`, "10.0.0.0/24") passes validation |
| AwsServerlessResource.MondooVpcNeedsExplicitCidr | internal/provider/integration_aws_serverless_resource.go:452-468 | `use_mondoo_vpc = true` with an omitted (null) `cidr_block` is refused |
| AwsServerlessResource.ReadModel | internal/provider/integration_aws_serverless_resource.go:566-613 | the token is carried from the prior state; mrn, name and space id come from the integration; region, accounts, organization switch, scan switches, cron, list filters, EBS numbers and VPC values are the fetched ones, the tag filters through `StringValues`; each trigger switch is true exactly when some fetched trigger has its event source; both nested objects are present |
| AwsServerlessResource.EchoPatterns | internal/provider/integration_aws_serverless_resource.go:109-134 | the stored patterns of a request correspond one to one, in order, to the requested ones |
| AwsServerlessResource.TriggersRoundTrip | internal/provider/integration_aws_serverless_resource.go:603-613 | decoding stored encoded switches gives both switches back |
| AwsServerlessResource.EchoTagsRoundTrip | internal/provider/integration_aws_serverless_resource.go:584-590 | a tag map that is stored and read back through `ConvertMapValue` is unchanged |
| AwsServerlessResource.ReadAfterCreateIsStable | internal/provider/integration_aws_serverless_resource.go:549-617 | when the service stores the request as sent and reports the integration in the space `Create` resolved, `Read` after `Create` of a fully known plan saves exactly the state `Create` saved, with the space id `Create` took from that space |
| AwsServerlessResource.Create | internal/provider/integration_aws_serverless_resource.go:491-547 | the handler resolves the space, then refuses accounts together with an organization, then creates; on success it saves the plan with the integration's MRN, name and token and the space's id; state is saved exactly when no error is reported |
| AwsServerlessResource.Read | internal/provider/integration_aws_serverless_resource.go:549-617 | the handler fetches by the prior MRN; a fetch error removes the resource without a diagnostic; otherwise it saves `ReadModel`, with the switches computed by the loop over the fetched triggers |
| AwsServerlessResource.Update | internal/provider/integration_aws_serverless_resource.go:619-663 | the conflict is refused before any call; otherwise the handler sends the update and saves the plan unchanged, or reports the error |
| AwsServerlessResource.Delete | internal/provider/integration_aws_serverless_resource.go:665-686 | the handler deletes by the prior MRN; the error text names that MRN |
| AwsServerlessResource.ImportState | internal/provider/integration_aws_serverless_resource.go:688-701 | only `mrn`, `name` and `space_id` are set; every other attribute stays null |
| SentinelOneResource.GetConfigurationOptions | internal/provider/integration_sentinelone_resource.go:48-66 | host and account are copied; exactly one credential is sent, the certificate when `pem_file` is non-empty and otherwise the client secret |
| SentinelOneResource.ExclusiveAttributes | internal/provider/integration_sentinelone_resource.go:83-112 | "Conflicting Attributes" when both credentials are non-null; "Missing Required Attribute" when both are null; no diagnostic exactly when exactly one is non-null |
| SentinelOneResource.ValidateConfig | internal/provider/integration_sentinelone_resource.go:150-170 | accepted exactly when the name is at most 250 characters and exactly one credential is non-null |
| SentinelOneResource.AcceptedCredentialIsSent | internal/provider/integration_sentinelone_resource.go:48-110 | a validated configuration sends the credential it configured, when that one is known and non-empty |
| SentinelOneResource.EmptyPemFileSendsEmptySecret | internal/provider/integration_sentinelone_resource.go:50-63 | presence is judged by non-null and priority by non-empty: `pem_file = ""` with no secret passes validation and sends an empty client secret |
| SentinelOneResource.CarriedCredential | internal/provider/integration_sentinelone_resource.go:288-296 | a prior credential is kept when non-empty and becomes null otherwise |
| SentinelOneResource.ReadModel | internal/provider/integration_sentinelone_resource.go:279-296 | identity, host and account come from the integration; each credential is carried from the prior state by `CarriedCredential` |
| SentinelOneResource.ReadAfterCreateIsStable | internal/provider/integration_sentinelone_resource.go:262-300 | when each credential is null or non-empty, the service stores the request as sent and reports the integration in the space `Create` resolved, `Read` after `Create` saves the same state, space id included |
| SentinelOneResource.EmptyCredentialIsDropped | internal/provider/integration_sentinelone_resource.go:292-296 | a credential written as "" is null after `Read` |
| SentinelOneResource.Create | internal/provider/integration_sentinelone_resource.go:208-260 | the handler resolves the space and creates; a failure of the import trigger only adds a warning; it saves the plan with the MRN and name from the integration and the space's id |
| SentinelOneResource.Read | internal/provider/integration_sentinelone_resource.go:262-300 | a fetch error removes the resource; otherwise the handler saves `ReadModel` by building the state and then overwriting each non-empty credential |
| SentinelOneResource.Update | internal/provider/integration_sentinelone_resource.go:302-333 | the handler sends the update and saves the plan, or reports the error |
| SentinelOneResource.Delete | internal/provider/integration_sentinelone_resource.go:335-354 | the handler deletes by the prior MRN |
| SentinelOneResource.ImportState | internal/provider/integration_sentinelone_resource.go:356-375 | the non-secret attributes come from the integration; both credentials are null |
| AzureResource.GetConfigurationOptions | internal/provider/integration_azure_resource.go:55-76 | tenant id, client id and `scan_vms` are copied; both subscription lists are converted element by element, null giving empty; `pem_file` is the certificate |
| AzureResource.NotEqual | internal/provider/integration_azure_resource.go:88-106 | an error exactly when the other attribute is known and equal to this one; nothing when it is null or unknown |
| AzureResource.NotEqualSymmetricWhenKnown | internal/provider/integration_azure_resource.go:155-163 | between two known ids both checks agree |
| AzureResource.NotEqualAsymmetricWhenUnknown | internal/provider/integration_azure_resource.go:88-106 | with one id unknown only one of the two checks fires |
| AzureResource.ValidateConfig | internal/provider/integration_azure_resource.go:146-196 | accepted exactly when the name is at most 250 characters, both known ids are lower-case GUIDs that differ, and at most one subscription list is non-null |
| AzureResource.AcceptedIdsAreDistinctGuids | internal/provider/integration_azure_resource.go:146-196 | a validated configuration with known ids sends two distinct GUIDs |
| AzureResource.ReadModel | internal/provider/integration_azure_resource.go:303-315 | every non-secret attribute comes from the integration; `pem_file` is carried from the prior state |
| AzureResource.ReadAfterCreateIsStable | internal/provider/integration_azure_resource.go:286-319 | when the service stores the request as sent and reports the integration in the space `Create` resolved, `Read` after `Create` of a known plan saves the same state, space id included |
| AzureResource.Create | internal/provider/integration_azure_resource.go:232-284 | the handler resolves the space and creates; a failure of the scan trigger is only a warning; it saves the plan with the integration's MRN and name and the space's id |
| AzureResource.Read | internal/provider/integration_azure_resource.go:286-319 | a fetch error removes the resource; otherwise the handler saves `ReadModel` |
| AzureResource.Update | internal/provider/integration_azure_resource.go:321-352 | the handler sends the update and saves the plan, or reports the error |
| AzureResource.Delete | internal/provider/integration_azure_resource.go:354-373 | the handler deletes by the prior MRN |
| AzureResource.ImportState | internal/provider/integration_azure_resource.go:375-399 | the attributes come from the integration; `pem_file` is null |
| GcpResource.GetConfigurationOptions | internal/provider/integration_gcp_resource.go:51-60 | `DiscoverAll` is always true and the service account is the private key; both ids are copied |
| GcpResource.ValidateConfig | internal/provider/integration_gcp_resource.go:86-110 | accepted exactly when the name is at most 250 characters and, once both ids are known, exactly one of `project_id` and `organization_id` is configured |
| GcpResource.NeitherOrBothScopesRefused | internal/provider/integration_gcp_resource.go:97-107 | configuring neither id or both is an error |
| GcpResource.ReadModel | internal/provider/integration_gcp_resource.go:214-223 | the ids come from the integration; the private key is carried from the prior state |
| GcpResource.ReadAfterCreateIsStable | internal/provider/integration_gcp_resource.go:197-227 | when the service stores the request as sent and reports the integration in the space `Create` resolved, `Read` after `Create` saves the same state, space id included |
| GcpResource.Create | internal/provider/integration_gcp_resource.go:143-195 | the handler saves the integration's MRN and name and the space's id; a failure of the scan trigger is only a warning |
| GcpResource.Read | internal/provider/integration_gcp_resource.go:197-227 | a fetch error removes the resource; otherwise the handler saves `ReadModel` |
| GcpResource.Update | internal/provider/integration_gcp_resource.go:229-260 | the handler sends the update and saves the plan, or reports the error |
| GcpResource.Delete | internal/provider/integration_gcp_resource.go:262-281 | the handler deletes by the prior MRN |
| GcpResource.ImportState | internal/provider/integration_gcp_resource.go:283-302 | the ids come from the integration; the private key is null |
| CrowdStrikeResource.GetConfigurationOptions | internal/provider/integration_crowdstrike_resource.go:49-59 | `base_url` becomes Cloud, `customer_id` MemberCID, the credential's secret ClientSecret; `client_id` and `create_assets` are copied |
| CrowdStrikeResource.ValidateConfig | internal/provider/integration_crowdstrike_resource.go:85-103 | accepted exactly when the name is at most 250 characters and a known `base_url` matches the URL pattern |
| CrowdStrikeResource.LowerCaseHostIsUrlChars | internal/provider/integration_crowdstrike_resource.go:99-102 | a host of lower-case letters and dots is made of URL characters |
| CrowdStrikeResource.BaseUrlNeedsScheme | internal/provider/integration_crowdstrike_resource.go:99-102 | `https://<host>` passes and a bare host name is refused |
| CrowdStrikeResource.ImportModel | internal/provider/integration_crowdstrike_resource.go:276-287 | the non-secret attributes come from the integration; the client secret is null |
| CrowdStrikeResource.ImportAfterCreateRestoresPlan | internal/provider/integration_crowdstrike_resource.go:276-287 | importing an integration created from a known plan gives that plan back, with its secret null |
| CrowdStrikeResource.Create | internal/provider/integration_crowdstrike_resource.go:147-199 | the MRN comes from the integration but the name is kept from the plan; a failure of the import trigger is only a warning |
| CrowdStrikeResource.Read | internal/provider/integration_crowdstrike_resource.go:201-215 | no call; the prior state is saved again unchanged |
| CrowdStrikeResource.Update | internal/provider/integration_crowdstrike_resource.go:217-247 | the handler sends the update and saves the plan, or reports the error |
| CrowdStrikeResource.Delete | internal/provider/integration_crowdstrike_resource.go:249-268 | the handler deletes by the prior MRN |
| CrowdStrikeResource.ImportState | internal/provider/integration_crowdstrike_resource.go:270-290 | the handler saves `ImportModel` of the imported integration |
| Ms365Resource.GetConfigurationOptions | internal/provider/integration_ms365_resource.go:135-140 | tenant id and client id are copied and `pem_file` is the certificate |
| Ms365Resource.ValidateConfig | internal/provider/integration_ms365_resource.go:66-72 | accepted exactly when the name is at most 250 characters |
| Ms365Resource.ImportedSpaceIdAsWritten | internal/provider/integration_ms365_resource.go:238 | as written: the third `/`-piece from the end, defined only for MRNs of at least three pieces |
| Ms365Resource.ShortMrnHasNoSpaceId | internal/provider/integration_ms365_resource.go:238 | an MRN without `/` is outside that domain |
| Ms365Resource.ImportedSpaceId | internal/provider/integration_ms365_resource.go:238 | corrected: present exactly when there are three pieces, and then equal to the as-written value |
| Ms365Resource.SpaceIdOfIntegrationMrn | internal/provider/integration_ms365_resource.go:238 | the MRN `<space MRN>/integrations/<id>` yields the space's identifier |
| Ms365Resource.ImportModel | internal/provider/integration_ms365_resource.go:235-244 | mrn, name, tenant and client id come from the integration, the space from its MRN; `pem_file` is null |
| Ms365Resource.ImportAfterCreateRestoresPlan | internal/provider/integration_ms365_resource.go:227-252 | importing an integration the resource created gives back the saved state, with `pem_file` null |
| Ms365Resource.Create | internal/provider/integration_ms365_resource.go:115-162 | the space MRN is "" for an empty `space_id` and otherwise `spacePrefix + space_id`; there is no space lookup; a failed scan trigger adds a warning and saves nothing |
| Ms365Resource.Read | internal/provider/integration_ms365_resource.go:164-178 | no call; the prior state is saved again unchanged |
| Ms365Resource.Update | internal/provider/integration_ms365_resource.go:180-207 | the handler sends the same options as `Create` and saves the plan, or reports the error |
| Ms365Resource.Delete | internal/provider/integration_ms365_resource.go:209-225 | the handler deletes by the prior MRN |
| Ms365Resource.ImportState | internal/provider/integration_ms365_resource.go:227-252 | the handler fetches by the import ID; a fetch error is reported and sets nothing; otherwise it saves `ImportModel` |
| CustomFrameworkResource.FrameworkContentAsWritten | internal/provider/custom_framework_resource.go:50-68 | as written: the read error, the wrapped parse error, or the file's bytes with the first framework's uid; defined only where `Frameworks[0]` exists |
| CustomFrameworkResource.EmptyFrameworkListIsOutOfRange | internal/provider/custom_framework_resource.go:67 | a file with an empty framework list, and a null `data_url`, are outside that domain |
| CustomFrameworkResource.FrameworkContent | internal/provider/custom_framework_resource.go:50-68 | corrected: the same result wherever the source is defined, and an error instead of a panic elsewhere; success exactly when the file reads, parses and lists a framework |
| CustomFrameworkResource.ImportTargetAsWritten | internal/provider/custom_framework_resource.go:221-225 | as written: the space identifier is third from the end, the uid is last, and the space MRN is `spacePrefix + space_id`; defined only for three or more pieces |
| CustomFrameworkResource.BareUidIsOutOfRange | internal/provider/custom_framework_resource.go:221-225 | an identifier without `/` is outside that domain |
| CustomFrameworkResource.ParseImportId | internal/provider/custom_framework_resource.go:221-225 | corrected: present exactly when there are three pieces, and then equal to the as-written value |
| CustomFrameworkResource.ParseFrameworkMrn | internal/provider/custom_framework_resource.go:221-225 | a framework MRN `<prefix>/<space>/frameworks/<uid>` gives back its space, its uid and the space's MRN |
| CustomFrameworkResource.Create | internal/provider/custom_framework_resource.go:113-151 | the handler loads the content, uploads it into the optional space MRN and looks the framework up by its first uid; any failure aborts without saving; success saves the framework's MRN |
| CustomFrameworkResource.Read | internal/provider/custom_framework_resource.go:153-167 | no call; the prior state is saved again unchanged |
| CustomFrameworkResource.Update | internal/provider/custom_framework_resource.go:169-199 | the handler loads and uploads again, then saves the plan; any failure aborts |
| CustomFrameworkResource.Delete | internal/provider/custom_framework_resource.go:201-217 | the handler deletes by the prior MRN |
| CustomFrameworkResource.ImportState | internal/provider/custom_framework_resource.go:219-240 | the handler looks up the framework named by the identifier and saves its MRN and the space id, with `data_url` null; a malformed identifier is an error before any call |
| SpaceResource.OrgMrn | internal/provider/space_resource.go:21 | the organization MRN is `orgPrefix` followed by the organization id |
| SpaceResource.SpaceMrn | internal/provider/space_resource.go:22 | the space MRN is `spacePrefix` followed by the space id |
| SpaceResource.MrnsAreInjective | internal/provider/space_resource.go:20-23 | different ids give different MRNs |
| SpaceResource.SpaceIdIsLastSegment | internal/provider/space_resource.go:22 | the space id is the last `/`-piece of its MRN |
| SpaceResource.SpaceOfObjectMrn | internal/provider/space_resource.go:22 | in `<space MRN>/<kind>/<uid>` the space id is third from the end |
| SpaceResource.OptionalSpaceMrn | internal/provider/integration_ms365_resource.go:126-129 | "" exactly when the id is empty, and otherwise the space MRN |
| SpaceResource.OptionalSpaceMrnIsInjective | internal/provider/custom_framework_resource.go:124-127 | the optional space MRN determines the id |
| SpaceResource.Create | internal/provider/space_resource.go:92-134 | the handler sends `OrgMrn = orgPrefix + org_id` and saves the id and name the mutation returned |
| SpaceResource.Read | internal/provider/space_resource.go:136-157 | no call; the prior state is saved again unchanged |
| SpaceResource.Update | internal/provider/space_resource.go:159-193 | the handler sends `Mrn = spacePrefix + id` and saves the plan |
| SpaceResource.Delete | internal/provider/space_resource.go:195-222 | the handler deletes `spacePrefix + id` |
| SpaceResource.ImportModel | internal/provider/space_resource.go:224-226 | the import ID is `id`; the other attributes are null |
| SpaceResource.ImportState | internal/provider/space_resource.go:224-226 | no call; the handler saves `ImportModel` |
| PolicyDataSource.ScopeMrn | internal/provider/policy_data_source.go:133-142 | the scope is `space_mrn` when only it is set and `spacePrefix + space_id` when only the id is set; there is none when both or neither are set |
| PolicyDataSource.BothNamingsAgree | internal/provider/policy_data_source.go:135-138 | naming a space by its id or by its MRN selects the same scope |
| PolicyDataSource.PolicyOf | internal/provider/policy_data_source.go:154-163 | every field of the fetched policy is copied into the list element |
| PolicyDataSource.PolicyModels | internal/provider/policy_data_source.go:152-164 | the list has the fetched length and element i describes policy i |
| PolicyDataSource.PolicyModelsRoundTrip | internal/provider/policy_data_source.go:152-164 | mapping each element back gives the fetched policies, in order |
| PolicyDataSource.ConvertPolicies | internal/provider/policy_data_source.go:152-164 | the array made with the fetched length and filled by index is `PolicyModels` |
| PolicyDataSource.Read | internal/provider/policy_data_source.go:123-168 | an invalid scope is "Invalid Configuration" and nothing is fetched; a fetch error is "Failed to fetch policies"; otherwise the handler saves the configuration with the converted list |

## Left out

- Terraform's plan, diff and default machinery is not modelled: decoding of `Plan`, `State` and `Config`, `UseStateForUnknown`, how defaults are applied, and diagnostics from `State.Set`. Handlers start from an already decoded model.
- `Metadata`, `Schema` (apart from its validators and defaults), `Configure` and the `ProviderData` type assertions are left out. They are framework wiring.
- The GraphQL client and `mondoo-go` are not part of this model. Each call is an abstract total function, and `ComputeSpace`, `ImportIntegration` and `SpaceID()` are taken as given.
- `tflog` logging is not modelled.
- `os.ReadFile` and `yaml.Unmarshal` in `getFrameworkContent` are file I/O and a foreign parser. They are the two functions of `CustomFrameworkResource.Loader`.
- The regular-expression engine is not modelled. The GUID and URL patterns are written as character predicates.
- The library validators are stated by their documented rules, because their code is not among the sources. Their diagnostic detail texts are close to the library's wording but not taken from it.
- `mondoov1.Int` and `types.Int64` are unbounded integers here, because their width is defined in code that is not part of this model.
- AwsServerlessResource.GetConfigurationOptions: requires both nested scan-option objects to be present. The source dereferences them unconditionally, and the schema's object defaults put them in every plan.
- AwsServerlessResource.ReadAfterCreateIsStable: stated only for fully known plans with a VPC object. Without a VPC object the service reports the zero VPC and the state drifts. It also assumes the service reports the integration in the space `Create` resolved: `Create` saves the resolved space's id, `Read` the fetched integration's own, and the lemma takes their agreement as a premise.
- SentinelOneResource.ReadAfterCreateIsStable: stated only for credentials that are null or non-empty. An empty credential is dropped by `Read` (`EmptyCredentialIsDropped`). It also assumes the service reports the integration in the space `Create` resolved: `Create` saves the resolved space's id, `Read` the fetched integration's own, and the lemma takes their agreement as a premise.
- AzureResource.ReadAfterCreateIsStable: stated only for a known plan. It also assumes the service reports the integration in the space `Create` resolved: `Create` saves the resolved space's id, `Read` the fetched integration's own, and the lemma takes their agreement as a premise.
- GcpResource.ReadAfterCreateIsStable: stated only for known ids and key. It also assumes the service reports the integration in the space `Create` resolved: `Create` saves the resolved space's id, `Read` the fetched integration's own, and the lemma takes their agreement as a premise.
- There is no concurrency in the source.

## Findings

| source | as written | input that shows it | evidently intended | confidence | as-written member | corrected member |
|---|---|---|---|---|---|---|
| internal/provider/custom_framework_resource.go:221-225 | `ImportState` indexes `splitMrn[len(splitMrn)-3]` without checking the length | `terraform import` with an identifier holding fewer than two `/`, such as a bare framework uid: `Split` gives one piece and the index panics | report a malformed identifier as an error diagnostic ("Invalid Import ID") and make no call | high, not executed | CustomFrameworkResource.ImportTargetAsWritten, CustomFrameworkResource.BareUidIsOutOfRange | CustomFrameworkResource.ParseImportId, CustomFrameworkResource.ImportState |
| internal/provider/custom_framework_resource.go:67 | `getFrameworkContent` returns `config.Frameworks[0].UID` without checking that the YAML file lists a framework | a `data_url` file that parses but has no `frameworks` entries (or a null `data_url`): the index panics | return an error, which `Create` reports as "Unable to get Compliance Framework Content" | high, not executed | CustomFrameworkResource.FrameworkContentAsWritten, CustomFrameworkResource.EmptyFrameworkListIsOutOfRange | CustomFrameworkResource.FrameworkContent, CustomFrameworkResource.Create |
| internal/provider/integration_ms365_resource.go:238 | `ImportState` indexes `strings.Split(integration.Mrn, "/")[len-3]` without checking the length | a fetched integration whose MRN holds fewer than two `/` | report the malformed MRN as an error and set no attribute | low (the service's MRNs normally have the full form), not executed | Ms365Resource.ImportedSpaceIdAsWritten, Ms365Resource.ShortMrnHasNoSpaceId | Ms365Resource.ImportedSpaceId, Ms365Resource.ImportState |
