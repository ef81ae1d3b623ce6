/** The `mondoo_integration_crowdstrike` resource
    (internal/provider/integration_crowdstrike_resource.go): a CrowdStrike
    Falcon API client whose findings are imported. Its `Read` never asks the
    service. */
module CrowdStrikeResource {
  import opened Values
  import opened Diagnostics
  import opened Wire
  import opened Remote
  import opened Lifecycle
  import opened Validators

  datatype CredentialsModel = CredentialsModel(clientSecret: Value<string>)

  datatype Model = Model(
    spaceId: Value<string>,
    mrn: Value<string>,
    name: Value<string>,
    clientId: Value<string>,
    baseUrl: Value<string>,
    customerId: Value<string>,
    createAssets: Value<bool>,
    credentials: CredentialsModel)

  const NameMaxLength := 250
  const BaseUrlMessage := "must be a valid URL"

  /** `GetConfigurationOptions`: `base_url` becomes the cloud, `customer_id`
      the member CID, the credential's secret the client secret; the client id
      and the asset switch are copied. */
  function GetConfigurationOptions(m: Model): (opts: CrowdstrikeFalconConfigurationOptionsInput)
    ensures opts.cloud == ValueString(m.baseUrl) && opts.memberCid == ValueString(m.customerId)
    ensures opts.clientSecret == ValueString(m.credentials.clientSecret)
    ensures opts.clientId == ValueString(m.clientId) && opts.createAssets == ValueBool(m.createAssets)
  {
    CrowdstrikeFalconConfigurationOptionsInput(ValueString(m.clientId), ValueString(m.credentials.clientSecret),
      ValueString(m.baseUrl), ValueString(m.customerId), ValueBool(m.createAssets))
  }

  /** The schema's validators: the name's length and the URL form of `base_url`. */
  function ValidateConfig(config: Model): (diags: seq<Diagnostic>)
    ensures diags == [] <==>
      (!config.name.Known? || |config.name.v| <= NameMaxLength) &&
      (!config.baseUrl.Known? || IsHttpUrl(config.baseUrl.v))
  {
    LengthAtMost("name", NameMaxLength, config.name) +
    RegexMatches("base_url", IsHttpUrl, BaseUrlMessage, config.baseUrl)
  }

  /** A host name of lower-case letters and dots is made of URL characters. */
  lemma {:induction false} LowerCaseHostIsUrlChars(host: string)
    requires forall i :: 0 <= i < |host| ==> 'a' <= host[i] <= 'z' || host[i] == '.'
    ensures AllUrlChars(host)
  {
    forall i | 0 <= i < |host| ensures IsUrlChar(host[i]) {
      assert 'a' <= host[i] <= 'z' || host[i] == '.';
    }
  }

  /** A base URL with a scheme passes; a bare host name, whose first
      character cannot start a scheme, does not. */
  lemma BaseUrlNeedsScheme(config: Model, host: string)
    requires !config.name.Known?
    requires |host| >= 1 && host[0] != 'h'
    requires forall i :: 0 <= i < |host| ==> 'a' <= host[i] <= 'z' || host[i] == '.'
    ensures config.baseUrl == Known("https://" + host) ==> ValidateConfig(config) == []
    ensures config.baseUrl == Known(host) ==> ValidateConfig(config) != []
  {
    if config.baseUrl == Known("https://" + host) {
      LowerCaseHostIsUrlChars(host);
      SchemeAndHostIsHttpUrl(true, host);
    }
    if config.baseUrl == Known(host) {
      assert |host| > 7 ==> host[..7] != "http://" by {
        if |host| > 7 { assert host[..7][0] == host[0]; }
      }
      assert |host| > 8 ==> host[..8] != "https://" by {
        if |host| > 8 { assert host[..8][0] == host[0]; }
      }
    }
  }

  /** The state `ImportState` saves: everything from the service, with the
      client secret, which the service never returns, null. */
  function ImportModel(integration: Integration): (m: Model)
    ensures m.credentials.clientSecret.Null?
    ensures var cs := integration.configurationOptions.crowdstrike;
      m.clientId == Known(cs.clientId) && m.baseUrl == Known(cs.cloud) &&
      m.customerId == Known(cs.memberCid) && m.createAssets == Known(cs.createAssets)
    ensures m.mrn == Known(integration.mrn) && m.name == Known(integration.name)
      && m.spaceId == Known(integration.spaceId)
  {
    var cs := integration.configurationOptions.crowdstrike;
    Model(Known(integration.spaceId), Known(integration.mrn), Known(integration.name),
      Known(cs.clientId), Known(cs.cloud), Known(cs.memberCid), Known(cs.createAssets), CredentialsModel(Null))
  }

  /** The options of an integration created from `opts` by a service that
      stores the request as sent. */
  function EchoOptions(opts: CrowdstrikeFalconConfigurationOptionsInput): CrowdstrikeFalconConfigurationOptions {
    CrowdstrikeFalconConfigurationOptions(opts.clientId, opts.cloud, opts.memberCid, opts.createAssets)
  }

  /** Importing an integration created from a known plan gives back that
      plan, less its secret. */
  lemma ImportAfterCreateRestoresPlan(plan: Model, integration: Integration)
    requires plan.clientId.Known? && plan.baseUrl.Known? && plan.customerId.Known? && plan.createAssets.Known?
    requires integration.configurationOptions.crowdstrike == EchoOptions(GetConfigurationOptions(plan))
    ensures ImportModel(integration) == plan.(mrn := Known(integration.mrn), name := Known(integration.name),
      spaceId := Known(integration.spaceId), credentials := CredentialsModel(Null))
  {
  }

  // ----- lifecycle -----

  function CreateRequest(space: Space, plan: Model): Call {
    CreateIntegration(space.mrn, ValueString(plan.name), CrowdstrikeFalcon, CrowdstrikeInput(GetConfigurationOptions(plan)))
  }

  function UpdateRequest(plan: Model): Call {
    UpdateIntegration(ValueString(plan.mrn), ValueString(plan.name), CrowdstrikeFalcon, CrowdstrikeInput(GetConfigurationOptions(plan)))
  }

  /** `Create`: resolve the space, create the integration, ask for an import
      run (a failure there is only a warning), and save the plan with the
      integration's MRN, the space's id, and the name the plan gave. */
  method Create(client: Client, plan: Model) returns (resp: Response<Model>)
    ensures var space := client.computeSpace(plan.spaceId);
      space.Err? ==> Aborted(resp, [ComputeSpace(plan.spaceId)], "Invalid Configuration", space.msg)
    ensures var space := client.computeSpace(plan.spaceId);
      space.Ok? ==>
      var created := client.createIntegration(space.value.mrn, ValueString(plan.name), CrowdstrikeFalcon,
        CrowdstrikeInput(GetConfigurationOptions(plan)));
      (created.Err? ==> Aborted(resp, [ComputeSpace(plan.spaceId), CreateRequest(space.value, plan)], "Client Error",
        "Unable to create CrowdStrike integration. Got error: " + created.msg)) &&
      (created.Ok? ==>
        var triggered := client.triggerAction(created.value.mrn, RunImport);
        resp.calls == [ComputeSpace(plan.spaceId), CreateRequest(space.value, plan), TriggerAction(created.value.mrn, RunImport)] &&
        resp.diags == (if triggered.Err? then [NewWarning("Client Error", "Unable to trigger integration. Got error: " + triggered.msg)] else []) &&
        resp.state == Saved(plan.(mrn := Known(created.value.mrn), name := Known(ValueString(plan.name)),
          spaceId := Known(space.value.id))))
    ensures resp.state.Saved? <==> !HasError(resp.diags)
  {
    resp := Response([], Untouched, [ComputeSpace(plan.spaceId)]);
    var space := client.computeSpace(plan.spaceId);
    if space.Err? {
      resp := resp.(diags := [NewError("Invalid Configuration", space.msg)]);
      assert resp.diags[0].severity == Error;
      return;
    }
    var opts := CrowdstrikeInput(GetConfigurationOptions(plan));
    resp := resp.(calls := resp.calls + [CreateIntegration(space.value.mrn, ValueString(plan.name), CrowdstrikeFalcon, opts)]);
    var created := client.createIntegration(space.value.mrn, ValueString(plan.name), CrowdstrikeFalcon, opts);
    if created.Err? {
      resp := resp.(diags := [NewError("Client Error", "Unable to create CrowdStrike integration. Got error: " + created.msg)]);
      assert resp.diags[0].severity == Error;
      return;
    }
    var integration := created.value;
    resp := resp.(calls := resp.calls + [TriggerAction(integration.mrn, RunImport)]);
    var triggered := client.triggerAction(integration.mrn, RunImport);
    if triggered.Err? {
      resp := resp.(diags := resp.diags + [NewWarning("Client Error", "Unable to trigger integration. Got error: " + triggered.msg)]);
    }
    var data := plan;
    data := data.(mrn := Known(integration.mrn));
    data := data.(name := Known(ValueString(plan.name)));
    data := data.(spaceId := Known(space.value.id));
    resp := resp.(state := Saved(data));
  }

  /** `Read`: no call; the prior state is saved again unchanged. */
  method Read(prior: Model) returns (resp: Response<Model>)
    ensures resp == Response([], Saved(prior), [])
  {
    resp := Response([], Saved(prior), []);
  }

  /** `Update`: send the update and save the plan as it is. */
  method Update(client: Client, plan: Model) returns (resp: Response<Model>)
    ensures resp.calls == [UpdateRequest(plan)]
    ensures var updated := client.updateIntegration(ValueString(plan.mrn), ValueString(plan.name), CrowdstrikeFalcon,
        CrowdstrikeInput(GetConfigurationOptions(plan)));
      (updated.Err? ==> Aborted(resp, [UpdateRequest(plan)], "Client Error",
        "Unable to update CrowdStrike integration. Got error: " + updated.msg)) &&
      (updated.Ok? ==> resp.diags == [] && resp.state == Saved(plan))
  {
    var opts := CrowdstrikeInput(GetConfigurationOptions(plan));
    resp := Response([], Untouched, [UpdateIntegration(ValueString(plan.mrn), ValueString(plan.name), CrowdstrikeFalcon, opts)]);
    var updated := client.updateIntegration(ValueString(plan.mrn), ValueString(plan.name), CrowdstrikeFalcon, opts);
    if updated.Err? {
      resp := resp.(diags := [NewError("Client Error", "Unable to update CrowdStrike integration. Got error: " + updated.msg)]);
      return;
    }
    resp := resp.(state := Saved(plan));
  }

  /** `Delete`: delete the integration named by the prior state's MRN. */
  method Delete(client: Client, prior: Model) returns (resp: Response<Model>)
    ensures resp.calls == [DeleteIntegration(ValueString(prior.mrn))]
    ensures resp.state.Untouched?
    ensures var deleted := client.deleteIntegration(ValueString(prior.mrn));
      (deleted.Err? ==> resp.diags == [NewError("Client Error",
        "Unable to delete CrowdStrike integration. Got error: " + deleted.msg)]) &&
      (deleted.Ok? ==> resp.diags == [])
  {
    var mrn := ValueString(prior.mrn);
    resp := Response([], Untouched, [DeleteIntegration(mrn)]);
    var deleted := client.deleteIntegration(mrn);
    if deleted.Err? {
      resp := resp.(diags := [NewError("Client Error", "Unable to delete CrowdStrike integration. Got error: " + deleted.msg)]);
    }
  }

  /** `ImportState`: save `ImportModel` of the imported integration. */
  method ImportState(client: Client, id: string) returns (resp: Response<Model>)
    ensures resp.calls == [ImportIntegration(id)]
    ensures var outcome := client.importIntegration(id);
      (outcome.NotImported? ==> resp.diags == outcome.diags && resp.state.Untouched?) &&
      (outcome.Imported? ==> resp.diags == [] && resp.state == Saved(ImportModel(outcome.integration)))
  {
    resp := Response([], Untouched, [ImportIntegration(id)]);
    var outcome := client.importIntegration(id);
    if outcome.NotImported? {
      resp := resp.(diags := outcome.diags);
      return;
    }
    var integration := outcome.integration;
    var cs := integration.configurationOptions.crowdstrike;
    var model := Model(Known(integration.spaceId), Known(integration.mrn), Known(integration.name),
      Known(cs.clientId), Known(cs.cloud), Known(cs.memberCid), Known(cs.createAssets), CredentialsModel(Null));
    resp := resp.(state := Saved(model));
  }
}
