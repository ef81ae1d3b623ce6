/** The `mondoo_integration_gcp` resource
    (internal/provider/integration_gcp_resource.go): a project or an
    organization, scanned with a service-account key, always with discovery
    of everything in it. */
module GcpResource {
  import opened Values
  import opened Diagnostics
  import opened Wire
  import opened Remote
  import opened Lifecycle
  import opened Validators

  datatype CredentialsModel = CredentialsModel(privateKey: Value<string>)

  datatype Model = Model(
    spaceId: Value<string>,
    mrn: Value<string>,
    name: Value<string>,
    projectId: Value<string>,
    organizationId: Value<string>,
    credentials: CredentialsModel)

  const NameMaxLength := 250
  const ScopeAttributes := "[project_id,organization_id]"

  /** `GetConfigurationOptions`: the project and organization ids as given,
      the private key as the service account, and discovery always on. */
  function GetConfigurationOptions(m: Model): (opts: GcpConfigurationOptionsInput)
    ensures opts.discoverAll
    ensures opts.serviceAccount == ValueString(m.credentials.privateKey)
    ensures opts.projectId == ValueString(m.projectId) && opts.organizationId == ValueString(m.organizationId)
  {
    GcpConfigurationOptionsInput(ValueString(m.projectId), ValueString(m.organizationId),
      ValueString(m.credentials.privateKey), true)
  }

  /** The schema's validators: the name's length, and `ExactlyOneOf` on both
      `project_id` and `organization_id`. The "" defaults of the two are
      applied to the plan, not the configuration, so an omitted id is null
      here. */
  function ValidateConfig(config: Model): (diags: seq<Diagnostic>)
    ensures diags == [] <==>
      (!config.name.Known? || |config.name.v| <= NameMaxLength) &&
      (config.projectId.Unknown? || config.organizationId.Unknown? ||
       config.projectId.Null? != config.organizationId.Null?)
  {
    var project := ExactlyOneOf("project_id", ScopeAttributes, config.projectId, [config.organizationId]);
    var organization := ExactlyOneOf("organization_id", ScopeAttributes, config.organizationId, [config.projectId]);
    assert CountNonNull([config.projectId] + [config.organizationId])
      == (if config.projectId.Null? then 0 else 1) + (if config.organizationId.Null? then 0 else 1);
    assert CountNonNull([config.organizationId] + [config.projectId])
      == (if config.organizationId.Null? then 0 else 1) + (if config.projectId.Null? then 0 else 1);
    LengthAtMost("name", NameMaxLength, config.name) + project + organization
  }

  /** Configuring neither id, or both, is refused, once both are known. */
  lemma NeitherOrBothScopesRefused(config: Model)
    requires !config.projectId.Unknown? && !config.organizationId.Unknown?
    requires config.projectId.Null? == config.organizationId.Null?
    ensures HasError(ValidateConfig(config))
  {
    var diags := ValidateConfig(config);
    assert diags != [];
    var i :| 0 <= i < |diags|;
    assert diags[i].severity == Error by {
      var name := LengthAtMost("name", NameMaxLength, config.name);
      var project := ExactlyOneOf("project_id", ScopeAttributes, config.projectId, [config.organizationId]);
      var organization := ExactlyOneOf("organization_id", ScopeAttributes, config.organizationId, [config.projectId]);
      assert diags == name + project + organization;
      if i < |name| { assert diags[i] == name[i]; }
      else if i < |name| + |project| { assert diags[i] == project[i - |name|]; }
      else { assert diags[i] == organization[i - |name| - |project|]; }
    }
  }

  /** The state `Read` saves: everything from the service except the private
      key, which is carried over from the prior state (as a known value). */
  function ReadModel(integration: Integration, prior: Model): (m: Model)
    ensures m.credentials.privateKey == Known(ValueString(prior.credentials.privateKey))
    ensures m.mrn == Known(integration.mrn) && m.name == Known(integration.name)
      && m.spaceId == Known(integration.spaceId)
    ensures m.projectId == Known(integration.configurationOptions.gcp.projectId)
      && m.organizationId == Known(integration.configurationOptions.gcp.organizationId)
  {
    Model(Known(integration.spaceId), Known(integration.mrn), Known(integration.name),
      Known(integration.configurationOptions.gcp.projectId),
      Known(integration.configurationOptions.gcp.organizationId),
      CredentialsModel(Known(ValueString(prior.credentials.privateKey))))
  }

  /** The options of an integration created from `opts` by a service that
      stores the request as sent. */
  function EchoOptions(opts: GcpConfigurationOptionsInput): GcpConfigurationOptions {
    GcpConfigurationOptions(opts.projectId, opts.organizationId)
  }

  /** No drift for plans whose ids and key are known (the schema's ""
      defaults make the ids known in every plan), when the service stores the
      request as sent and reports the integration in the space `Create`
      resolved. */
  lemma ReadAfterCreateIsStable(plan: Model, space: Space, integration: Integration)
    requires integration.spaceId == space.id
    requires plan.projectId.Known? && plan.organizationId.Known? && plan.credentials.privateKey.Known?
    requires integration.configurationOptions.gcp == EchoOptions(GetConfigurationOptions(plan))
    ensures var saved := plan.(mrn := Known(integration.mrn), name := Known(integration.name),
        spaceId := Known(space.id));
      ReadModel(integration, saved) == saved
  {
  }

  // ----- lifecycle -----

  function CreateRequest(space: Space, plan: Model): Call {
    CreateIntegration(space.mrn, ValueString(plan.name), Gcp, GcpInput(GetConfigurationOptions(plan)))
  }

  function UpdateRequest(plan: Model): Call {
    UpdateIntegration(ValueString(plan.mrn), ValueString(plan.name), Gcp, GcpInput(GetConfigurationOptions(plan)))
  }

  /** `Create`: resolve the space, create the integration, ask for a scan (a
      failure there is only a warning), and save the plan with the
      integration's MRN and name and the space's id. */
  method Create(client: Client, plan: Model) returns (resp: Response<Model>)
    ensures var space := client.computeSpace(plan.spaceId);
      space.Err? ==> Aborted(resp, [ComputeSpace(plan.spaceId)], "Invalid Configuration", space.msg)
    ensures var space := client.computeSpace(plan.spaceId);
      space.Ok? ==>
      var created := client.createIntegration(space.value.mrn, ValueString(plan.name), Gcp,
        GcpInput(GetConfigurationOptions(plan)));
      (created.Err? ==> Aborted(resp, [ComputeSpace(plan.spaceId), CreateRequest(space.value, plan)], "Client Error",
        "Unable to create GCP integration, got error: " + created.msg)) &&
      (created.Ok? ==>
        var triggered := client.triggerAction(created.value.mrn, RunScan);
        resp.calls == [ComputeSpace(plan.spaceId), CreateRequest(space.value, plan), TriggerAction(created.value.mrn, RunScan)] &&
        resp.diags == (if triggered.Err? then [NewWarning("Client Error", "Unable to trigger integration, got error: " + triggered.msg)] else []) &&
        resp.state == Saved(plan.(mrn := Known(created.value.mrn), name := Known(created.value.name),
          spaceId := Known(space.value.id))))
    ensures resp.state.Saved? <==> !HasError(resp.diags)
  {
    resp := Response([], Untouched, [ComputeSpace(plan.spaceId)]);
    var space := client.computeSpace(plan.spaceId);
    if space.Err? {
      resp := resp.(diags := [NewError("Invalid Configuration", space.msg)]);
      assert resp.diags[0].severity == Error;
      return;
    }
    var opts := GcpInput(GetConfigurationOptions(plan));
    resp := resp.(calls := resp.calls + [CreateIntegration(space.value.mrn, ValueString(plan.name), Gcp, opts)]);
    var created := client.createIntegration(space.value.mrn, ValueString(plan.name), Gcp, opts);
    if created.Err? {
      resp := resp.(diags := [NewError("Client Error", "Unable to create GCP integration, got error: " + created.msg)]);
      assert resp.diags[0].severity == Error;
      return;
    }
    var integration := created.value;
    resp := resp.(calls := resp.calls + [TriggerAction(integration.mrn, RunScan)]);
    var triggered := client.triggerAction(integration.mrn, RunScan);
    if triggered.Err? {
      resp := resp.(diags := resp.diags + [NewWarning("Client Error", "Unable to trigger integration, got error: " + triggered.msg)]);
    }
    var data := plan;
    data := data.(mrn := Known(integration.mrn));
    data := data.(name := Known(integration.name));
    data := data.(spaceId := Known(space.value.id));
    resp := resp.(state := Saved(data));
  }

  /** `Read`: fetch the integration; on failure drop the resource from state,
      otherwise save `ReadModel`. */
  method Read(client: Client, prior: Model) returns (resp: Response<Model>)
    ensures resp.calls == [GetClientIntegration(ValueString(prior.mrn))]
    ensures resp.diags == []
    ensures var fetched := client.getClientIntegration(ValueString(prior.mrn));
      (fetched.Err? ==> resp.state == Removed) &&
      (fetched.Ok? ==> resp.state == Saved(ReadModel(fetched.value, prior)))
  {
    var mrn := ValueString(prior.mrn);
    resp := Response([], Untouched, [GetClientIntegration(mrn)]);
    var fetched := client.getClientIntegration(mrn);
    if fetched.Err? {
      resp := resp.(state := Removed);
      return;
    }
    var integration := fetched.value;
    var model := Model(Known(integration.spaceId), Known(integration.mrn), Known(integration.name),
      Known(integration.configurationOptions.gcp.projectId),
      Known(integration.configurationOptions.gcp.organizationId),
      CredentialsModel(Known(ValueString(prior.credentials.privateKey))));
    resp := resp.(state := Saved(model));
  }

  /** `Update`: send the update and save the plan as it is. */
  method Update(client: Client, plan: Model) returns (resp: Response<Model>)
    ensures resp.calls == [UpdateRequest(plan)]
    ensures var updated := client.updateIntegration(ValueString(plan.mrn), ValueString(plan.name), Gcp,
        GcpInput(GetConfigurationOptions(plan)));
      (updated.Err? ==> Aborted(resp, [UpdateRequest(plan)], "Client Error",
        "Unable to update Gcp integration, got error: " + updated.msg)) &&
      (updated.Ok? ==> resp.diags == [] && resp.state == Saved(plan))
  {
    var opts := GcpInput(GetConfigurationOptions(plan));
    resp := Response([], Untouched, [UpdateIntegration(ValueString(plan.mrn), ValueString(plan.name), Gcp, opts)]);
    var updated := client.updateIntegration(ValueString(plan.mrn), ValueString(plan.name), Gcp, opts);
    if updated.Err? {
      resp := resp.(diags := [NewError("Client Error", "Unable to update Gcp integration, got error: " + updated.msg)]);
      return;
    }
    resp := resp.(state := Saved(plan));
  }

  /** `Delete`: delete the integration named by the prior state's MRN. */
  method Delete(client: Client, prior: Model) returns (resp: Response<Model>)
    ensures resp.calls == [DeleteIntegration(ValueString(prior.mrn))]
    ensures resp.state.Untouched?
    ensures var deleted := client.deleteIntegration(ValueString(prior.mrn));
      (deleted.Err? ==> resp.diags == [NewError("Client Error",
        "Unable to delete Gcp integration, got error: " + deleted.msg)]) &&
      (deleted.Ok? ==> resp.diags == [])
  {
    var mrn := ValueString(prior.mrn);
    resp := Response([], Untouched, [DeleteIntegration(mrn)]);
    var deleted := client.deleteIntegration(mrn);
    if deleted.Err? {
      resp := resp.(diags := [NewError("Client Error", "Unable to delete Gcp integration, got error: " + deleted.msg)]);
    }
  }

  /** `ImportState`: everything from the integration, with the private key,
      which the service never returns, null. */
  method ImportState(client: Client, id: string) returns (resp: Response<Model>)
    ensures resp.calls == [ImportIntegration(id)]
    ensures var outcome := client.importIntegration(id);
      (outcome.NotImported? ==> resp.diags == outcome.diags && resp.state.Untouched?) &&
      (outcome.Imported? ==>
        var i := outcome.integration;
        resp.diags == [] &&
        resp.state == Saved(Model(Known(i.spaceId), Known(i.mrn), Known(i.name),
          Known(i.configurationOptions.gcp.projectId), Known(i.configurationOptions.gcp.organizationId),
          CredentialsModel(Null))))
  {
    resp := Response([], Untouched, [ImportIntegration(id)]);
    var outcome := client.importIntegration(id);
    if outcome.NotImported? {
      resp := resp.(diags := outcome.diags);
      return;
    }
    var integration := outcome.integration;
    var model := Model(Known(integration.spaceId), Known(integration.mrn), Known(integration.name),
      Known(integration.configurationOptions.gcp.projectId),
      Known(integration.configurationOptions.gcp.organizationId),
      CredentialsModel(Null));
    resp := resp.(state := Saved(model));
  }
}
