/** The `mondoo_integration_sentinelone` resource
    (internal/provider/integration_sentinelone_resource.go): two alternative
    credentials, a PEM certificate or a client secret, of which the
    configuration must name exactly one and the request carries exactly one. */
module SentinelOneResource {
  import opened Values
  import opened Diagnostics
  import opened Wire
  import opened Remote
  import opened Lifecycle
  import opened Validators

  datatype CredentialsModel = CredentialsModel(pemFile: Value<string>, clientSecret: Value<string>)

  datatype Model = Model(
    spaceId: Value<string>,
    mrn: Value<string>,
    name: Value<string>,
    host: Value<string>,
    account: Value<string>,
    credentials: CredentialsModel)

  const NameMaxLength := 250

  // ----- desired state to request -----

  /** `GetConfigurationOptions`: host and account always; the certificate
      alone when the PEM file is non-empty, otherwise the client secret alone. */
  function GetConfigurationOptions(m: Model): (opts: SentinelOneConfigurationOptionsInput)
    ensures opts.host == ValueString(m.host) && opts.account == ValueString(m.account)
    ensures opts.certificate.Some? != opts.clientSecret.Some?
    ensures ValueString(m.credentials.pemFile) != "" ==> opts.certificate == Some(ValueString(m.credentials.pemFile))
    ensures ValueString(m.credentials.pemFile) == "" ==> opts.clientSecret == Some(ValueString(m.credentials.clientSecret))
  {
    if ValueString(m.credentials.pemFile) != "" then
      SentinelOneConfigurationOptionsInput(ValueString(m.host), ValueString(m.account),
        Some(ValueString(m.credentials.pemFile)), None)
    else
      SentinelOneConfigurationOptionsInput(ValueString(m.host), ValueString(m.account),
        None, Some(ValueString(m.credentials.clientSecret)))
  }

  // ----- validation -----

  /** `ExclusiveAttributesValidator.Validate` on the `credentials` object:
      presence means non-null, so an unknown or empty value is present. Both
      present is a conflict reported at `credentials.<attr1>`; neither present
      is reported at the root path `<attr1>`. */
  function ExclusiveAttributes(attr1: string, attr2: string, value1: Value<string>, value2: Value<string>): (diags: seq<Diagnostic>)
    ensures !IsNull(value1) && !IsNull(value2) ==>
      diags == [AttributeError(["credentials", attr1], "Conflicting Attributes",
        "Only one of '" + attr1 + "' or '" + attr2 + "' can be provided.")]
    ensures IsNull(value1) && IsNull(value2) ==>
      diags == [AttributeError([attr1], "Missing Required Attribute",
        "One of '" + attr1 + "' or '" + attr2 + "' must be provided.")]
    ensures diags == [] <==> IsNull(value1) != IsNull(value2)
  {
    var exists1 := !IsNull(value1);
    var exists2 := !IsNull(value2);
    if exists1 && !IsNull(value1) && exists2 && !IsNull(value2) then
      [AttributeError(["credentials", attr1], "Conflicting Attributes",
        "Only one of '" + attr1 + "' or '" + attr2 + "' can be provided.")]
    else if !exists1 && !exists2 then
      [AttributeError([attr1], "Missing Required Attribute",
        "One of '" + attr1 + "' or '" + attr2 + "' must be provided.")]
    else []
  }

  /** The validators of the configuration: the name's length and the
      credential exclusivity. */
  function ValidateConfig(config: Model): (diags: seq<Diagnostic>)
    ensures diags == [] <==>
      (!config.name.Known? || |config.name.v| <= NameMaxLength) &&
      IsNull(config.credentials.pemFile) != IsNull(config.credentials.clientSecret)
  {
    LengthAtMost("name", NameMaxLength, config.name) +
    ExclusiveAttributes("pem_file", "client_secret", config.credentials.pemFile, config.credentials.clientSecret)
  }

  /** A credential configuration the validator accepts sends the credential
      that was configured, when that one is known and non-empty. */
  lemma AcceptedCredentialIsSent(m: Model)
    requires ExclusiveAttributes("pem_file", "client_secret", m.credentials.pemFile, m.credentials.clientSecret) == []
    ensures m.credentials.pemFile.Known? && m.credentials.pemFile.v != "" ==>
      GetConfigurationOptions(m).certificate == Some(m.credentials.pemFile.v) &&
      GetConfigurationOptions(m).clientSecret == None
    ensures m.credentials.clientSecret.Known? ==>
      GetConfigurationOptions(m).clientSecret == Some(m.credentials.clientSecret.v) &&
      GetConfigurationOptions(m).certificate == None
  {
  }

  /** Presence is judged by non-null, priority by non-empty: an empty PEM file
      and no client secret pass validation, and the request then carries an
      empty client secret and no certificate. */
  lemma EmptyPemFileSendsEmptySecret(m: Model)
    requires m.credentials == CredentialsModel(Known(""), Null)
    ensures ExclusiveAttributes("pem_file", "client_secret", m.credentials.pemFile, m.credentials.clientSecret) == []
    ensures GetConfigurationOptions(m).certificate == None && GetConfigurationOptions(m).clientSecret == Some("")
  {
  }

  // ----- fetched integration to state -----

  /** A credential as `Read` carries it over from the prior state: kept when
      non-empty, null otherwise. */
  function CarriedCredential(prior: Value<string>): (v: Value<string>)
    ensures ValueString(prior) != "" ==> v == Known(ValueString(prior))
    ensures ValueString(prior) == "" ==> v == Null
  {
    if ValueString(prior) != "" then Known(ValueString(prior)) else Null
  }

  /** The state `Read` saves: identity, host and account from the service,
      each credential carried over from the prior state when it is non-empty. */
  function ReadModel(integration: Integration, prior: Model): (m: Model)
    ensures m.mrn == Known(integration.mrn) && m.name == Known(integration.name)
      && m.spaceId == Known(integration.spaceId)
    ensures m.host == Known(integration.configurationOptions.sentinelOne.host)
      && m.account == Known(integration.configurationOptions.sentinelOne.account)
    ensures m.credentials == CredentialsModel(CarriedCredential(prior.credentials.pemFile),
      CarriedCredential(prior.credentials.clientSecret))
  {
    Model(Known(integration.spaceId), Known(integration.mrn), Known(integration.name),
      Known(integration.configurationOptions.sentinelOne.host),
      Known(integration.configurationOptions.sentinelOne.account),
      CredentialsModel(CarriedCredential(prior.credentials.pemFile), CarriedCredential(prior.credentials.clientSecret)))
  }

  /** The options of an integration created from `opts` by a service that
      stores the request as sent. */
  function EchoOptions(opts: SentinelOneConfigurationOptionsInput): SentinelOneConfigurationOptions {
    SentinelOneConfigurationOptions(opts.host, opts.account)
  }

  /** A credential that survives `Read`: null, or known and non-empty. */
  predicate StableCredential(v: Value<string>) {
    v.Null? || (v.Known? && v.v != "")
  }

  /** No drift: reading back what `Create` saved gives the same state, when
      the service stores the request as sent and reports the integration in
      the space `Create` resolved, and each credential is null or known and
      non-empty. */
  lemma ReadAfterCreateIsStable(plan: Model, space: Space, integration: Integration)
    requires integration.spaceId == space.id
    requires plan.host.Known? && plan.account.Known?
    requires StableCredential(plan.credentials.pemFile) && StableCredential(plan.credentials.clientSecret)
    requires integration.configurationOptions.sentinelOne == EchoOptions(GetConfigurationOptions(plan))
    ensures var saved := plan.(mrn := Known(integration.mrn), name := Known(integration.name),
        spaceId := Known(space.id));
      ReadModel(integration, saved) == saved
  {
  }

  /** A credential written as the empty string does not survive `Read`: the
      next plan shows a change from null back to "". */
  lemma EmptyCredentialIsDropped(integration: Integration, prior: Model)
    requires prior.credentials.clientSecret == Known("")
    ensures ReadModel(integration, prior).credentials.clientSecret == Null
  {
  }

  // ----- lifecycle -----

  function CreateRequest(space: Space, plan: Model): Call {
    CreateIntegration(space.mrn, ValueString(plan.name), SentinelOne, SentinelOneInput(GetConfigurationOptions(plan)))
  }

  function UpdateRequest(plan: Model): Call {
    UpdateIntegration(ValueString(plan.mrn), ValueString(plan.name), SentinelOne, SentinelOneInput(GetConfigurationOptions(plan)))
  }

  /** `Create`: resolve the space, create the integration, ask for an import
      run (a failure there is only a warning), and save the plan with the
      integration's MRN and name and the space's id. */
  method Create(client: Client, plan: Model) returns (resp: Response<Model>)
    ensures var space := client.computeSpace(plan.spaceId);
      space.Err? ==> Aborted(resp, [ComputeSpace(plan.spaceId)], "Invalid Configuration", space.msg)
    ensures var space := client.computeSpace(plan.spaceId);
      space.Ok? ==>
      var created := client.createIntegration(space.value.mrn, ValueString(plan.name), SentinelOne,
        SentinelOneInput(GetConfigurationOptions(plan)));
      (created.Err? ==> Aborted(resp, [ComputeSpace(plan.spaceId), CreateRequest(space.value, plan)], "Client Error",
        "Unable to create SentinelOne integration. Got error: " + created.msg)) &&
      (created.Ok? ==>
        var triggered := client.triggerAction(created.value.mrn, RunImport);
        resp.calls == [ComputeSpace(plan.spaceId), CreateRequest(space.value, plan), TriggerAction(created.value.mrn, RunImport)] &&
        resp.diags == (if triggered.Err? then [NewWarning("Client Error", "Unable to trigger integration, got error: " + triggered.msg)] else []) &&
        resp.state == Saved(plan.(mrn := Known(created.value.mrn), name := Known(created.value.name),
          spaceId := Known(space.value.id))))
    ensures resp.state.Saved? <==> !HasError(resp.diags)
  {
    resp := Response([], Untouched, [ComputeSpace(plan.spaceId)]);
    var space := client.computeSpace(plan.spaceId);
    if space.Err? {
      resp := resp.(diags := [NewError("Invalid Configuration", space.msg)]);
      assert resp.diags[0].severity == Error;
      return;
    }
    var opts := SentinelOneInput(GetConfigurationOptions(plan));
    resp := resp.(calls := resp.calls + [CreateIntegration(space.value.mrn, ValueString(plan.name), SentinelOne, opts)]);
    var created := client.createIntegration(space.value.mrn, ValueString(plan.name), SentinelOne, opts);
    if created.Err? {
      resp := resp.(diags := [NewError("Client Error", "Unable to create SentinelOne integration. Got error: " + created.msg)]);
      assert resp.diags[0].severity == Error;
      return;
    }
    var integration := created.value;
    resp := resp.(calls := resp.calls + [TriggerAction(integration.mrn, RunImport)]);
    var triggered := client.triggerAction(integration.mrn, RunImport);
    if triggered.Err? {
      resp := resp.(diags := resp.diags + [NewWarning("Client Error", "Unable to trigger integration, got error: " + triggered.msg)]);
    }
    var data := plan;
    data := data.(mrn := Known(integration.mrn));
    data := data.(name := Known(integration.name));
    data := data.(spaceId := Known(space.value.id));
    resp := resp.(state := Saved(data));
  }

  /** `Read`: fetch the integration; on failure drop the resource from state;
      otherwise rebuild the state from the integration, then put back each
      non-empty credential of the prior state. */
  method Read(client: Client, prior: Model) returns (resp: Response<Model>)
    ensures resp.calls == [GetClientIntegration(ValueString(prior.mrn))]
    ensures resp.diags == []
    ensures var fetched := client.getClientIntegration(ValueString(prior.mrn));
      (fetched.Err? ==> resp.state == Removed) &&
      (fetched.Ok? ==> resp.state == Saved(ReadModel(fetched.value, prior)))
  {
    var mrn := ValueString(prior.mrn);
    resp := Response([], Untouched, [GetClientIntegration(mrn)]);
    var fetched := client.getClientIntegration(mrn);
    if fetched.Err? {
      resp := resp.(state := Removed);
      return;
    }
    var integration := fetched.value;
    var model := Model(Known(integration.spaceId), Known(integration.mrn), Known(integration.name),
      Known(integration.configurationOptions.sentinelOne.host),
      Known(integration.configurationOptions.sentinelOne.account),
      CredentialsModel(Null, Null));
    if ValueString(prior.credentials.pemFile) != "" {
      model := model.(credentials := model.credentials.(pemFile := Known(ValueString(prior.credentials.pemFile))));
    }
    if ValueString(prior.credentials.clientSecret) != "" {
      model := model.(credentials := model.credentials.(clientSecret := Known(ValueString(prior.credentials.clientSecret))));
    }
    resp := resp.(state := Saved(model));
  }

  /** `Update`: send the update and save the plan as it is. */
  method Update(client: Client, plan: Model) returns (resp: Response<Model>)
    ensures resp.calls == [UpdateRequest(plan)]
    ensures var updated := client.updateIntegration(ValueString(plan.mrn), ValueString(plan.name), SentinelOne,
        SentinelOneInput(GetConfigurationOptions(plan)));
      (updated.Err? ==> Aborted(resp, [UpdateRequest(plan)], "Client Error",
        "Unable to update SentinelOne integration, got error: " + updated.msg)) &&
      (updated.Ok? ==> resp.diags == [] && resp.state == Saved(plan))
  {
    var opts := SentinelOneInput(GetConfigurationOptions(plan));
    resp := Response([], Untouched, [UpdateIntegration(ValueString(plan.mrn), ValueString(plan.name), SentinelOne, opts)]);
    var updated := client.updateIntegration(ValueString(plan.mrn), ValueString(plan.name), SentinelOne, opts);
    if updated.Err? {
      resp := resp.(diags := [NewError("Client Error", "Unable to update SentinelOne integration, got error: " + updated.msg)]);
      return;
    }
    resp := resp.(state := Saved(plan));
  }

  /** `Delete`: delete the integration named by the prior state's MRN. */
  method Delete(client: Client, prior: Model) returns (resp: Response<Model>)
    ensures resp.calls == [DeleteIntegration(ValueString(prior.mrn))]
    ensures resp.state.Untouched?
    ensures var deleted := client.deleteIntegration(ValueString(prior.mrn));
      (deleted.Err? ==> resp.diags == [NewError("Client Error",
        "Unable to delete SentinelOne integration, got error: " + deleted.msg)]) &&
      (deleted.Ok? ==> resp.diags == [])
  {
    var mrn := ValueString(prior.mrn);
    resp := Response([], Untouched, [DeleteIntegration(mrn)]);
    var deleted := client.deleteIntegration(mrn);
    if deleted.Err? {
      resp := resp.(diags := [NewError("Client Error", "Unable to delete SentinelOne integration, got error: " + deleted.msg)]);
    }
  }

  /** `ImportState`: the non-secret attributes come from the integration;
      neither credential is known, so both are null. */
  method ImportState(client: Client, id: string) returns (resp: Response<Model>)
    ensures resp.calls == [ImportIntegration(id)]
    ensures var outcome := client.importIntegration(id);
      (outcome.NotImported? ==> resp.diags == outcome.diags && resp.state.Untouched?) &&
      (outcome.Imported? ==>
        var i := outcome.integration;
        resp.diags == [] &&
        resp.state == Saved(Model(Known(i.spaceId), Known(i.mrn), Known(i.name),
          Known(i.configurationOptions.sentinelOne.host), Known(i.configurationOptions.sentinelOne.account),
          CredentialsModel(Null, Null))))
  {
    resp := Response([], Untouched, [ImportIntegration(id)]);
    var outcome := client.importIntegration(id);
    if outcome.NotImported? {
      resp := resp.(diags := outcome.diags);
      return;
    }
    var integration := outcome.integration;
    var model := Model(Known(integration.spaceId), Known(integration.mrn), Known(integration.name),
      Known(integration.configurationOptions.sentinelOne.host),
      Known(integration.configurationOptions.sentinelOne.account),
      CredentialsModel(Null, Null));
    resp := resp.(state := Saved(model));
  }
}
