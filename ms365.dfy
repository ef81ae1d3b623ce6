/** The `mondoo_integration_ms365` resource
    (internal/provider/integration_ms365_resource.go): a Microsoft 365 tenant
    scanned through an Azure application's certificate. Unlike the other
    integrations it builds the space MRN itself and, when the scan trigger
    fails, returns without saving state. */
module Ms365Resource {
  import opened Values
  import opened Diagnostics
  import opened Segments
  import opened Wire
  import opened Remote
  import opened Lifecycle
  import opened Validators
  import SpaceResource

  datatype CredentialsModel = CredentialsModel(pemFile: Value<string>)

  datatype Model = Model(
    spaceId: Value<string>,
    mrn: Value<string>,
    name: Value<string>,
    clientId: Value<string>,
    tenantId: Value<string>,
    credentials: CredentialsModel)

  const NameMaxLength := 250

  /** The options literal of `Create` and `Update`: tenant and client id
      copied, the PEM file sent as the certificate. */
  function GetConfigurationOptions(m: Model): (opts: Ms365ConfigurationOptionsInput)
    ensures opts.tenantId == ValueString(m.tenantId) && opts.clientId == ValueString(m.clientId)
    ensures opts.certificate == ValueString(m.credentials.pemFile)
  {
    Ms365ConfigurationOptionsInput(ValueString(m.tenantId), ValueString(m.clientId), ValueString(m.credentials.pemFile))
  }

  /** The schema's one validator: the name's length. */
  function ValidateConfig(config: Model): (diags: seq<Diagnostic>)
    ensures diags == [] <==> !config.name.Known? || |config.name.v| <= NameMaxLength
  {
    LengthAtMost("name", NameMaxLength, config.name)
  }

  // ----- the space identifier of an integration MRN -----

  /** `strings.Split(mrn, "/")[len-3]` as written: Go's index is defined only
      when the MRN has at least three pieces and panics otherwise. */
  function ImportedSpaceIdAsWritten(mrn: string): (spaceId: string)
    requires |Split(mrn, '/')| >= 3
    ensures var parts := Split(mrn, '/'); spaceId == parts[|parts| - 3]
  {
    var parts := Split(mrn, '/');
    parts[|parts| - 3]
  }

  /** An MRN without a `/` is a single piece, outside the expression's domain. */
  lemma {:induction false} ShortMrnHasNoSpaceId(mrn: string)
    requires '/' !in mrn
    ensures |Split(mrn, '/')| < 3
  {
    SplitWithoutSeparator(mrn, '/');
  }

  /** The corrected extraction: the third piece from the end, or nothing when
      there are fewer than three pieces. */
  function ImportedSpaceId(mrn: string): (spaceId: Option<string>)
    ensures spaceId.Some? <==> |Split(mrn, '/')| >= 3
    ensures spaceId.Some? ==> spaceId.value == ImportedSpaceIdAsWritten(mrn)
  {
    ThirdFromLast(Split(mrn, '/'))
  }

  /** The MRN of an integration in a space, `<space MRN>/integrations/<id>`,
      yields that space's identifier. */
  lemma SpaceIdOfIntegrationMrn(space: string, id: string)
    requires '/' !in space && '/' !in id
    ensures ImportedSpaceId(SpaceResource.SpaceMrn(space) + "/integrations/" + id) == Some(space)
  {
    SpaceResource.SpaceOfObjectMrn(space, "integrations", id);
    assert SpaceResource.SpaceMrn(space) + "/integrations/" + id == SpaceResource.SpaceMrn(space) + "/" + "integrations" + "/" + id;
  }

  const MalformedMrnSummary := "Invalid Integration MRN"

  /** The state `ImportState` sets: mrn, name, tenant and client id from the
      integration, the space from its MRN, and a null PEM file. */
  function ImportModel(integration: Integration, spaceId: string): (m: Model)
    ensures m.mrn == Known(integration.mrn) && m.name == Known(integration.name) && m.spaceId == Known(spaceId)
    ensures m.tenantId == Known(integration.configurationOptions.ms365.tenantId)
    ensures m.clientId == Known(integration.configurationOptions.ms365.clientId)
    ensures m.credentials.pemFile.Null?
  {
    Model(Known(spaceId), Known(integration.mrn), Known(integration.name),
      Known(integration.configurationOptions.ms365.clientId), Known(integration.configurationOptions.ms365.tenantId),
      CredentialsModel(Null))
  }

  /** The options of an integration created from `opts` by a service that
      stores the request as sent. */
  function EchoOptions(opts: Ms365ConfigurationOptionsInput): Ms365ConfigurationOptions {
    Ms365ConfigurationOptions(opts.tenantId, opts.clientId)
  }

  /** Importing an integration the resource created, in the space of its
      MRN, gives back the saved state less the PEM file. */
  lemma ImportAfterCreateRestoresPlan(plan: Model, integration: Integration, space: string, id: string)
    requires plan.tenantId.Known? && plan.clientId.Known? && plan.spaceId == Known(space)
    requires '/' !in space && '/' !in id
    requires integration.mrn == SpaceResource.SpaceMrn(space) + "/integrations/" + id
    requires integration.configurationOptions.ms365 == EchoOptions(GetConfigurationOptions(plan))
    ensures ImportedSpaceId(integration.mrn) == Some(space)
    ensures ImportModel(integration, space) ==
      plan.(mrn := Known(integration.mrn), name := Known(integration.name), credentials := CredentialsModel(Null))
  {
    SpaceIdOfIntegrationMrn(space, id);
  }

  // ----- lifecycle -----

  function CreateRequest(plan: Model): Call {
    CreateIntegration(SpaceResource.OptionalSpaceMrn(ValueString(plan.spaceId)), ValueString(plan.name), Ms365, Ms365Input(GetConfigurationOptions(plan)))
  }

  function UpdateRequest(plan: Model): Call {
    UpdateIntegration(ValueString(plan.mrn), ValueString(plan.name), Ms365, Ms365Input(GetConfigurationOptions(plan)))
  }

  /** `Create`: create the integration in `SpaceResource.OptionalSpaceMrn(space_id)`, ask
      for a scan, and save the plan with the integration's MRN and name. A
      failed scan request adds a warning and saves nothing. */
  method Create(client: Client, plan: Model) returns (resp: Response<Model>)
    ensures var spaceMrn := if ValueString(plan.spaceId) == "" then "" else SpaceResource.SpacePrefix + ValueString(plan.spaceId);
      |resp.calls| >= 1 && resp.calls[0] == CreateIntegration(spaceMrn, ValueString(plan.name), Ms365, Ms365Input(GetConfigurationOptions(plan)))
    ensures var created := client.createIntegration(SpaceResource.OptionalSpaceMrn(ValueString(plan.spaceId)), ValueString(plan.name), Ms365,
        Ms365Input(GetConfigurationOptions(plan)));
      (created.Err? ==> Aborted(resp, [CreateRequest(plan)], "Client Error",
        "Unable to create MS365 integration, got error: " + created.msg)) &&
      (created.Ok? ==>
        var triggered := client.triggerAction(created.value.mrn, RunScan);
        resp.calls == [CreateRequest(plan), TriggerAction(created.value.mrn, RunScan)] &&
        (triggered.Err? ==>
          resp.diags == [NewWarning("Client Error", "Unable to trigger integration, got error: " + triggered.msg)] &&
          resp.state.Untouched?) &&
        (triggered.Ok? ==>
          resp.diags == [] &&
          resp.state == Saved(plan.(mrn := Known(created.value.mrn), name := Known(created.value.name),
            spaceId := Known(ValueString(plan.spaceId))))))
    ensures resp.state.Saved? ==> resp.diags == []
  {
    var spaceMrn := "";
    if ValueString(plan.spaceId) != "" {
      spaceMrn := SpaceResource.SpacePrefix + ValueString(plan.spaceId);
    }
    var opts := Ms365Input(GetConfigurationOptions(plan));
    resp := Response([], Untouched, [CreateIntegration(spaceMrn, ValueString(plan.name), Ms365, opts)]);
    var created := client.createIntegration(spaceMrn, ValueString(plan.name), Ms365, opts);
    if created.Err? {
      resp := resp.(diags := [NewError("Client Error", "Unable to create MS365 integration, got error: " + created.msg)]);
      return;
    }
    var integration := created.value;
    resp := resp.(calls := resp.calls + [TriggerAction(integration.mrn, RunScan)]);
    var triggered := client.triggerAction(integration.mrn, RunScan);
    if triggered.Err? {
      resp := resp.(diags := [NewWarning("Client Error", "Unable to trigger integration, got error: " + triggered.msg)]);
      return;
    }
    var data := plan;
    data := data.(mrn := Known(integration.mrn));
    data := data.(name := Known(integration.name));
    data := data.(spaceId := Known(ValueString(plan.spaceId)));
    resp := resp.(state := Saved(data));
  }

  /** `Read`: no call; the prior state is saved again unchanged. */
  method Read(prior: Model) returns (resp: Response<Model>)
    ensures resp == Response([], Saved(prior), [])
  {
    resp := Response([], Saved(prior), []);
  }

  /** `Update`: send the same options as `Create` and save the plan. */
  method Update(client: Client, plan: Model) returns (resp: Response<Model>)
    ensures resp.calls == [UpdateRequest(plan)]
    ensures resp.calls[0].input == CreateRequest(plan).input
    ensures var updated := client.updateIntegration(ValueString(plan.mrn), ValueString(plan.name), Ms365,
        Ms365Input(GetConfigurationOptions(plan)));
      (updated.Err? ==> Aborted(resp, [UpdateRequest(plan)], "Client Error",
        "Unable to update Ms365 integration, got error: " + updated.msg)) &&
      (updated.Ok? ==> resp.diags == [] && resp.state == Saved(plan))
  {
    var opts := Ms365Input(GetConfigurationOptions(plan));
    resp := Response([], Untouched, [UpdateIntegration(ValueString(plan.mrn), ValueString(plan.name), Ms365, opts)]);
    var updated := client.updateIntegration(ValueString(plan.mrn), ValueString(plan.name), Ms365, opts);
    if updated.Err? {
      resp := resp.(diags := [NewError("Client Error", "Unable to update Ms365 integration, got error: " + updated.msg)]);
      return;
    }
    resp := resp.(state := Saved(plan));
  }

  /** `Delete`: delete the integration named by the prior state's MRN. */
  method Delete(client: Client, prior: Model) returns (resp: Response<Model>)
    ensures resp.calls == [DeleteIntegration(ValueString(prior.mrn))]
    ensures resp.state.Untouched?
    ensures var deleted := client.deleteIntegration(ValueString(prior.mrn));
      (deleted.Err? ==> resp.diags == [NewError("Client Error",
        "Unable to delete Ms365 integration, got error: " + deleted.msg)]) &&
      (deleted.Ok? ==> resp.diags == [])
  {
    var mrn := ValueString(prior.mrn);
    resp := Response([], Untouched, [DeleteIntegration(mrn)]);
    var deleted := client.deleteIntegration(mrn);
    if deleted.Err? {
      resp := resp.(diags := [NewError("Client Error", "Unable to delete Ms365 integration, got error: " + deleted.msg)]);
    }
  }

  /** `ImportState`: fetch the integration named by the import identifier and
      set every attribute from it, the space from its MRN. An MRN with fewer
      than three pieces, where the source's index panics, is reported as an
      error and sets nothing. */
  method ImportState(client: Client, id: string) returns (resp: Response<Model>)
    ensures resp.calls == [GetClientIntegration(id)]
    ensures var fetched := client.getClientIntegration(id);
      (fetched.Err? ==> Aborted(resp, [GetClientIntegration(id)], "Client Error",
        "Unable to get Ms365 integration, got error: " + fetched.msg)) &&
      (fetched.Ok? && ImportedSpaceId(fetched.value.mrn).None? ==>
        Aborted(resp, [GetClientIntegration(id)], MalformedMrnSummary,
          "Expected an MRN of the form <space MRN>/integrations/<id>, got: " + fetched.value.mrn)) &&
      (fetched.Ok? && ImportedSpaceId(fetched.value.mrn).Some? ==>
        resp.diags == [] &&
        resp.state == Saved(ImportModel(fetched.value, ImportedSpaceIdAsWritten(fetched.value.mrn))))
  {
    resp := Response([], Untouched, [GetClientIntegration(id)]);
    var fetched := client.getClientIntegration(id);
    if fetched.Err? {
      resp := resp.(diags := [NewError("Client Error", "Unable to get Ms365 integration, got error: " + fetched.msg)]);
      return;
    }
    var integration := fetched.value;
    var parts := Split(integration.mrn, '/');
    if |parts| < 3 {
      resp := resp.(diags := [NewError(MalformedMrnSummary,
        "Expected an MRN of the form <space MRN>/integrations/<id>, got: " + integration.mrn)]);
      return;
    }
    var model := Model(Known(parts[|parts| - 3]), Known(integration.mrn), Known(integration.name),
      Known(integration.configurationOptions.ms365.clientId), Known(integration.configurationOptions.ms365.tenantId),
      CredentialsModel(Null));
    resp := resp.(state := Saved(model));
  }
}
