/** The `mondoo_integration_azure` resource
    (internal/provider/integration_azure_resource.go), with the provider's own
    `NotEqualValidator` that keeps the client id and the tenant id apart. */
module AzureResource {
  import opened Values
  import opened Diagnostics
  import opened Conversions
  import opened Wire
  import opened Remote
  import opened Lifecycle
  import opened Validators

  datatype CredentialsModel = CredentialsModel(pemFile: Value<string>)

  datatype Model = Model(
    spaceId: Value<string>,
    mrn: Value<string>,
    name: Value<string>,
    clientId: Value<string>,
    tenantId: Value<string>,
    subscriptionAllowList: Value<seq<string>>,
    subscriptionDenyList: Value<seq<string>>,
    scanVms: Value<bool>,
    credentials: CredentialsModel)

  const NameMaxLength := 250
  const ClientIdMessage := "Client ID must be a valid GUID."
  const TenantIdMessage := "Tenant ID must be a valid GUID."

  // ----- desired state to request -----

  /** `GetConfigurationOptions`: ids and the scan switch copied, both
      subscription lists element by element, the PEM file as certificate. */
  function GetConfigurationOptions(m: Model): (opts: AzureConfigurationOptionsInput)
    ensures opts.tenantId == ValueString(m.tenantId) && opts.clientId == ValueString(m.clientId)
    ensures opts.scanVms == ValueBool(m.scanVms)
    ensures opts.certificate == ValueString(m.credentials.pemFile)
    ensures !m.subscriptionAllowList.Known? ==> opts.subscriptionsAllowlist == []
    ensures !m.subscriptionDenyList.Known? ==> opts.subscriptionsDenylist == []
    ensures m.subscriptionAllowList.Known? ==> opts.subscriptionsAllowlist == m.subscriptionAllowList.v
    ensures m.subscriptionDenyList.Known? ==> opts.subscriptionsDenylist == m.subscriptionDenyList.v
  {
    AzureConfigurationOptionsInput(
      ValueString(m.tenantId),
      ValueString(m.clientId),
      ConvertSliceStrings(m.subscriptionAllowList),
      ConvertSliceStrings(m.subscriptionDenyList),
      ValueBool(m.scanVms),
      ValueString(m.credentials.pemFile))
  }

  // ----- validation -----

  /** `NotEqualValidator.ValidateString` on `path` naming `other`: skipped
      unless the other value is known; an error when this value, read with
      `ValueString`, equals it. */
  function NotEqual(path: string, other: string, value: Value<string>, otherValue: Value<string>): (diags: seq<Diagnostic>)
    ensures diags != [] <==> otherValue.Known? && ValueString(value) == otherValue.v
    ensures diags != [] ==> diags == [AttributeError([path], "Attributes Cannot Be Equal",
      "The value of '" + path + "' cannot be the same as '" + other + "'.")]
  {
    if otherValue.Null? || otherValue.Unknown? then []
    else if ValueString(value) == ValueString(otherValue) then
      [AttributeError([path], "Attributes Cannot Be Equal",
        "The value of '" + path + "' cannot be the same as '" + other + "'.")]
    else []
  }

  /** Between two known values the check is symmetric. */
  lemma NotEqualSymmetricWhenKnown(a: string, b: string)
    ensures NotEqual("client_id", "tenant_id", Known(a), Known(b)) == [] <==>
      NotEqual("tenant_id", "client_id", Known(b), Known(a)) == []
  {
  }

  /** With one side unknown it is not: an unknown client id against an empty
      tenant id is refused by the client id's check only. */
  lemma NotEqualAsymmetricWhenUnknown()
    ensures NotEqual("client_id", "tenant_id", Unknown, Known("")) != []
    ensures NotEqual("tenant_id", "client_id", Known(""), Unknown) == []
  {
  }

  /** The schema's validators: the name's length; each id a GUID and unequal
      to the other; the two subscription lists never both given. */
  function ValidateConfig(config: Model): (diags: seq<Diagnostic>)
    ensures diags == [] <==>
      (!config.name.Known? || |config.name.v| <= NameMaxLength) &&
      (!config.clientId.Known? || IsGuid(config.clientId.v)) &&
      (!config.tenantId.Known? || IsGuid(config.tenantId.v)) &&
      !(config.tenantId.Known? && ValueString(config.clientId) == config.tenantId.v) &&
      !(config.clientId.Known? && ValueString(config.tenantId) == config.clientId.v) &&
      (config.subscriptionAllowList.Null? || config.subscriptionDenyList.Null?)
  {
    LengthAtMost("name", NameMaxLength, config.name) +
    RegexMatches("client_id", IsGuid, ClientIdMessage, config.clientId) +
    NotEqual("client_id", "tenant_id", config.clientId, config.tenantId) +
    RegexMatches("tenant_id", IsGuid, TenantIdMessage, config.tenantId) +
    NotEqual("tenant_id", "client_id", config.tenantId, config.clientId) +
    ConflictsWith("subscription_allow_list", "subscription_deny_list",
      config.subscriptionAllowList, config.subscriptionDenyList) +
    ConflictsWith("subscription_deny_list", "subscription_allow_list",
      config.subscriptionDenyList, config.subscriptionAllowList)
  }

  /** A configuration that passes with both ids known sends two distinct GUIDs. */
  lemma AcceptedIdsAreDistinctGuids(config: Model)
    requires ValidateConfig(config) == []
    requires config.clientId.Known? && config.tenantId.Known?
    ensures var opts := GetConfigurationOptions(config);
      IsGuid(opts.clientId) && IsGuid(opts.tenantId) && opts.clientId != opts.tenantId
  {
  }

  // ----- fetched integration to state -----

  /** The state `Read` saves: everything from the service except the PEM
      file, which is carried over from the prior state (as a known value). */
  function ReadModel(integration: Integration, prior: Model): (m: Model)
    ensures m.credentials.pemFile == Known(ValueString(prior.credentials.pemFile))
    ensures m.mrn == Known(integration.mrn) && m.name == Known(integration.name)
      && m.spaceId == Known(integration.spaceId)
    ensures var azure := integration.configurationOptions.azure;
      m.clientId == Known(azure.clientId) && m.tenantId == Known(azure.tenantId) &&
      m.subscriptionAllowList == Known(azure.subscriptionsWhitelist) &&
      m.subscriptionDenyList == Known(azure.subscriptionsBlacklist) && m.scanVms == Known(azure.scanVms)
  {
    var azure := integration.configurationOptions.azure;
    Model(Known(integration.spaceId), Known(integration.mrn), Known(integration.name),
      Known(azure.clientId), Known(azure.tenantId),
      Known(azure.subscriptionsWhitelist), Known(azure.subscriptionsBlacklist),
      Known(azure.scanVms), CredentialsModel(Known(ValueString(prior.credentials.pemFile))))
  }

  /** The options of an integration created from `opts` by a service that
      stores the request as sent. */
  function EchoOptions(opts: AzureConfigurationOptionsInput): AzureConfigurationOptions {
    AzureConfigurationOptions(opts.clientId, opts.tenantId, opts.subscriptionsAllowlist,
      opts.subscriptionsDenylist, opts.scanVms)
  }

  /** No drift: with every attribute the request carries known, the request
      stored as sent and the integration reported in the space `Create`
      resolved, reading back what `Create` saved gives the same state. */
  lemma ReadAfterCreateIsStable(plan: Model, space: Space, integration: Integration)
    requires integration.spaceId == space.id
    requires plan.clientId.Known? && plan.tenantId.Known? && plan.scanVms.Known?
    requires plan.subscriptionAllowList.Known? && plan.subscriptionDenyList.Known?
    requires plan.credentials.pemFile.Known?
    requires integration.configurationOptions.azure == EchoOptions(GetConfigurationOptions(plan))
    ensures var saved := plan.(mrn := Known(integration.mrn), name := Known(integration.name),
        spaceId := Known(space.id));
      ReadModel(integration, saved) == saved
  {
  }

  // ----- lifecycle -----

  function CreateRequest(space: Space, plan: Model): Call {
    CreateIntegration(space.mrn, ValueString(plan.name), Azure, AzureInput(GetConfigurationOptions(plan)))
  }

  function UpdateRequest(plan: Model): Call {
    UpdateIntegration(ValueString(plan.mrn), ValueString(plan.name), Azure, AzureInput(GetConfigurationOptions(plan)))
  }

  /** `Create`: resolve the space, create the integration, ask for a scan (a
      failure there is only a warning), and save the plan with the
      integration's MRN and name and the space's id. */
  method Create(client: Client, plan: Model) returns (resp: Response<Model>)
    ensures var space := client.computeSpace(plan.spaceId);
      space.Err? ==> Aborted(resp, [ComputeSpace(plan.spaceId)], "Invalid Configuration", space.msg)
    ensures var space := client.computeSpace(plan.spaceId);
      space.Ok? ==>
      var created := client.createIntegration(space.value.mrn, ValueString(plan.name), Azure,
        AzureInput(GetConfigurationOptions(plan)));
      (created.Err? ==> Aborted(resp, [ComputeSpace(plan.spaceId), CreateRequest(space.value, plan)], "Client Error",
        "Unable to create Azure integration, got error: " + created.msg)) &&
      (created.Ok? ==>
        var triggered := client.triggerAction(created.value.mrn, RunScan);
        resp.calls == [ComputeSpace(plan.spaceId), CreateRequest(space.value, plan), TriggerAction(created.value.mrn, RunScan)] &&
        resp.diags == (if triggered.Err? then [NewWarning("Client Error", "Unable to trigger integration, got error: " + triggered.msg)] else []) &&
        resp.state == Saved(plan.(mrn := Known(created.value.mrn), name := Known(created.value.name),
          spaceId := Known(space.value.id))))
    ensures resp.state.Saved? <==> !HasError(resp.diags)
  {
    resp := Response([], Untouched, [ComputeSpace(plan.spaceId)]);
    var space := client.computeSpace(plan.spaceId);
    if space.Err? {
      resp := resp.(diags := [NewError("Invalid Configuration", space.msg)]);
      assert resp.diags[0].severity == Error;
      return;
    }
    var opts := AzureInput(GetConfigurationOptions(plan));
    resp := resp.(calls := resp.calls + [CreateIntegration(space.value.mrn, ValueString(plan.name), Azure, opts)]);
    var created := client.createIntegration(space.value.mrn, ValueString(plan.name), Azure, opts);
    if created.Err? {
      resp := resp.(diags := [NewError("Client Error", "Unable to create Azure integration, got error: " + created.msg)]);
      assert resp.diags[0].severity == Error;
      return;
    }
    var integration := created.value;
    resp := resp.(calls := resp.calls + [TriggerAction(integration.mrn, RunScan)]);
    var triggered := client.triggerAction(integration.mrn, RunScan);
    if triggered.Err? {
      resp := resp.(diags := resp.diags + [NewWarning("Client Error", "Unable to trigger integration, got error: " + triggered.msg)]);
    }
    var data := plan;
    data := data.(mrn := Known(integration.mrn));
    data := data.(name := Known(integration.name));
    data := data.(spaceId := Known(space.value.id));
    resp := resp.(state := Saved(data));
  }

  /** `Read`: fetch the integration; on failure drop the resource from state;
      otherwise save `ReadModel`, converting the two subscription lists. */
  method Read(client: Client, prior: Model) returns (resp: Response<Model>)
    ensures resp.calls == [GetClientIntegration(ValueString(prior.mrn))]
    ensures resp.diags == []
    ensures var fetched := client.getClientIntegration(ValueString(prior.mrn));
      (fetched.Err? ==> resp.state == Removed) &&
      (fetched.Ok? ==> resp.state == Saved(ReadModel(fetched.value, prior)))
  {
    var mrn := ValueString(prior.mrn);
    resp := Response([], Untouched, [GetClientIntegration(mrn)]);
    var fetched := client.getClientIntegration(mrn);
    if fetched.Err? {
      resp := resp.(state := Removed);
      return;
    }
    var integration := fetched.value;
    var azure := integration.configurationOptions.azure;
    var allowList := ConvertListValue(azure.subscriptionsWhitelist);
    var denyList := ConvertListValue(azure.subscriptionsBlacklist);
    assert allowList.v == azure.subscriptionsWhitelist && denyList.v == azure.subscriptionsBlacklist;
    var model := Model(Known(integration.spaceId), Known(integration.mrn), Known(integration.name),
      Known(azure.clientId), Known(azure.tenantId), allowList, denyList, Known(azure.scanVms),
      CredentialsModel(Known(ValueString(prior.credentials.pemFile))));
    resp := resp.(state := Saved(model));
  }

  /** `Update`: send the update and save the plan as it is. */
  method Update(client: Client, plan: Model) returns (resp: Response<Model>)
    ensures resp.calls == [UpdateRequest(plan)]
    ensures var updated := client.updateIntegration(ValueString(plan.mrn), ValueString(plan.name), Azure,
        AzureInput(GetConfigurationOptions(plan)));
      (updated.Err? ==> Aborted(resp, [UpdateRequest(plan)], "Client Error",
        "Unable to update Azure integration, got error: " + updated.msg)) &&
      (updated.Ok? ==> resp.diags == [] && resp.state == Saved(plan))
  {
    var opts := AzureInput(GetConfigurationOptions(plan));
    resp := Response([], Untouched, [UpdateIntegration(ValueString(plan.mrn), ValueString(plan.name), Azure, opts)]);
    var updated := client.updateIntegration(ValueString(plan.mrn), ValueString(plan.name), Azure, opts);
    if updated.Err? {
      resp := resp.(diags := [NewError("Client Error", "Unable to update Azure integration, got error: " + updated.msg)]);
      return;
    }
    resp := resp.(state := Saved(plan));
  }

  /** `Delete`: delete the integration named by the prior state's MRN. */
  method Delete(client: Client, prior: Model) returns (resp: Response<Model>)
    ensures resp.calls == [DeleteIntegration(ValueString(prior.mrn))]
    ensures resp.state.Untouched?
    ensures var deleted := client.deleteIntegration(ValueString(prior.mrn));
      (deleted.Err? ==> resp.diags == [NewError("Client Error",
        "Unable to delete Azure integration, got error: " + deleted.msg)]) &&
      (deleted.Ok? ==> resp.diags == [])
  {
    var mrn := ValueString(prior.mrn);
    resp := Response([], Untouched, [DeleteIntegration(mrn)]);
    var deleted := client.deleteIntegration(mrn);
    if deleted.Err? {
      resp := resp.(diags := [NewError("Client Error", "Unable to delete Azure integration, got error: " + deleted.msg)]);
    }
  }

  /** `ImportState`: everything from the integration, with the PEM file,
      which the service never returns, null. */
  method ImportState(client: Client, id: string) returns (resp: Response<Model>)
    ensures resp.calls == [ImportIntegration(id)]
    ensures var outcome := client.importIntegration(id);
      (outcome.NotImported? ==> resp.diags == outcome.diags && resp.state.Untouched?) &&
      (outcome.Imported? ==>
        resp.diags == [] &&
        resp.state == Saved(ReadModel(outcome.integration, NullModel).(credentials := CredentialsModel(Null))))
  {
    resp := Response([], Untouched, [ImportIntegration(id)]);
    var outcome := client.importIntegration(id);
    if outcome.NotImported? {
      resp := resp.(diags := outcome.diags);
      return;
    }
    var integration := outcome.integration;
    var azure := integration.configurationOptions.azure;
    var allowList := ConvertListValue(azure.subscriptionsWhitelist);
    var denyList := ConvertListValue(azure.subscriptionsBlacklist);
    assert allowList.v == azure.subscriptionsWhitelist && denyList.v == azure.subscriptionsBlacklist;
    var model := Model(Known(integration.spaceId), Known(integration.mrn), Known(integration.name),
      Known(azure.clientId), Known(azure.tenantId), allowList, denyList, Known(azure.scanVms),
      CredentialsModel(Null));
    resp := resp.(state := Saved(model));
  }

  /** The zero value of the Go model. */
  const NullModel := Model(Null, Null, Null, Null, Null, Null, Null, Null, CredentialsModel(Null))
}
