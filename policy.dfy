/** The `mondoo_policy` data source (internal/provider/policy_data_source.go):
    the policies and query packs of one space, named either by its
    identifier or by its MRN. */
module PolicyDataSource {
  import opened Values
  import opened Diagnostics
  import opened Wire
  import opened Remote
  import opened Lifecycle
  import SpaceResource

  /** `policyModel`: one element of the `policies` list. */
  datatype PolicyModel = PolicyModel(
    policyMrn: Value<string>,
    policyName: Value<string>,
    isAssigned: Value<bool>,
    action: Value<string>,
    version: Value<string>,
    isPublic: Value<bool>,
    createdAt: Value<string>,
    updatedAt: Value<string>)

  /** `policyDataSourceModel`. */
  datatype Model = Model(
    spaceId: Value<string>,
    spaceMrn: Value<string>,
    catalogType: Value<string>,
    assignedOnly: Value<bool>,
    policies: seq<PolicyModel>)

  // ----- the scope -----

  /** The scope the policies are fetched for: the given MRN when only the MRN
      is set, the space's MRN when only the identifier is set, and nothing
      (an error) when both or neither are. */
  function ScopeMrn(spaceId: string, spaceMrn: string): (scope: Option<string>)
    ensures scope.Some? <==> (spaceId == "" <==> spaceMrn != "")
    ensures spaceMrn != "" && spaceId == "" ==> scope == Some(spaceMrn)
    ensures spaceId != "" && spaceMrn == "" ==> scope == Some(SpaceResource.SpacePrefix + spaceId)
  {
    if spaceMrn != "" && spaceId == "" then Some(spaceMrn)
    else if spaceId != "" && spaceMrn == "" then Some(SpaceResource.SpaceMrn(spaceId))
    else None
  }

  /** Naming a space by its identifier or by its MRN selects the same scope. */
  lemma BothNamingsAgree(id: string)
    requires id != ""
    ensures ScopeMrn(id, "") == ScopeMrn("", SpaceResource.SpaceMrn(id))
    ensures ScopeMrn(id, "").Some?
  {
  }

  // ----- the policy list -----

  /** One fetched policy as a list element: every field copied. */
  function PolicyOf(p: Policy): (m: PolicyModel)
    ensures m.policyMrn == Known(p.mrn) && m.policyName == Known(p.name) && m.isAssigned == Known(p.isAssigned)
    ensures m.action == Known(p.action) && m.version == Known(p.version) && m.isPublic == Known(p.isPublic)
    ensures m.createdAt == Known(p.createdAt) && m.updatedAt == Known(p.updatedAt)
  {
    PolicyModel(Known(p.mrn), Known(p.name), Known(p.isAssigned), Known(p.action), Known(p.version),
      Known(p.isPublic), Known(p.createdAt), Known(p.updatedAt))
  }

  /** The policy a list element describes; the inverse of `PolicyOf`. */
  function PolicyOfModel(m: PolicyModel): Policy {
    Policy(ValueString(m.policyMrn), ValueString(m.policyName), ValueBool(m.isAssigned), ValueString(m.action),
      ValueString(m.version), ValueBool(m.isPublic), ValueString(m.createdAt), ValueString(m.updatedAt))
  }

  /** The list the data source reports: element `i` describes policy `i`. */
  function PolicyModels(policies: seq<Policy>): (models: seq<PolicyModel>)
    ensures |models| == |policies|
    ensures forall i :: 0 <= i < |policies| ==> models[i] == PolicyOf(policies[i])
  {
    if policies == [] then [] else [PolicyOf(policies[0])] + PolicyModels(policies[1..])
  }

  /** The list loses nothing: mapping each element back gives the fetched
      policies, in order. */
  lemma {:induction false} PolicyModelsRoundTrip(policies: seq<Policy>)
    ensures var models := PolicyModels(policies);
      forall i :: 0 <= i < |models| ==> PolicyOfModel(models[i]) == policies[i]
  {
    var models := PolicyModels(policies);
    forall i | 0 <= i < |models| ensures PolicyOfModel(models[i]) == policies[i] {
      assert models[i] == PolicyOf(policies[i]);
    }
  }

  /** `make([]policyModel, n)` followed by the loop that fills it by index. */
  method ConvertPolicies(policies: seq<Policy>) returns (models: seq<PolicyModel>)
    ensures models == PolicyModels(policies)
  {
    var list := new PolicyModel[|policies|];
    var i := 0;
    while i < |policies|
      invariant 0 <= i <= |policies|
      invariant forall j :: 0 <= j < i ==> list[j] == PolicyOf(policies[j])
    {
      var policy := policies[i];
      list[i] := PolicyModel(Known(policy.mrn), Known(policy.name), Known(policy.isAssigned), Known(policy.action),
        Known(policy.version), Known(policy.isPublic), Known(policy.createdAt), Known(policy.updatedAt));
      i := i + 1;
    }
    models := list[..];
    assert |models| == |PolicyModels(policies)|;
    assert forall j :: 0 <= j < |models| ==> models[j] == PolicyModels(policies)[j];
  }

  // ----- Read -----

  const ScopeDetail := "Either `id` or `mrn` must be set"

  /** `Read`: resolve the scope, fetch the policies and save the
      configuration with the converted list. */
  method Read(client: Client, config: Model) returns (resp: Response<Model>)
    ensures var scope := ScopeMrn(ValueString(config.spaceId), ValueString(config.spaceMrn));
      (scope.None? ==> Aborted(resp, [], "Invalid Configuration", ScopeDetail)) &&
      (scope.Some? ==>
        var request := GetPolicies(scope.value, ValueString(config.catalogType), ValueBool(config.assignedOnly));
        var fetched := client.getPolicies(scope.value, ValueString(config.catalogType), ValueBool(config.assignedOnly));
        (fetched.Err? ==> Aborted(resp, [request], "Failed to fetch policies", fetched.msg)) &&
        (fetched.Ok? ==> resp == Response([], Saved(config.(policies := PolicyModels(fetched.value))), [request])))
    ensures resp.state.Saved? <==> !HasError(resp.diags)
  {
    resp := Response([], Untouched, []);
    var scopeMrn := "";
    if ValueString(config.spaceMrn) != "" && ValueString(config.spaceId) == "" {
      scopeMrn := ValueString(config.spaceMrn);
    } else if ValueString(config.spaceId) != "" && ValueString(config.spaceMrn) == "" {
      scopeMrn := SpaceResource.SpacePrefix + ValueString(config.spaceId);
    } else {
      resp := resp.(diags := [NewError("Invalid Configuration", ScopeDetail)]);
      assert resp.diags[0].severity == Error;
      return;
    }
    resp := resp.(calls := [GetPolicies(scopeMrn, ValueString(config.catalogType), ValueBool(config.assignedOnly))]);
    var fetched := client.getPolicies(scopeMrn, ValueString(config.catalogType), ValueBool(config.assignedOnly));
    if fetched.Err? {
      resp := resp.(diags := [NewError("Failed to fetch policies", fetched.msg)]);
      assert resp.diags[0].severity == Error;
      return;
    }
    var policies := ConvertPolicies(fetched.value);
    var data := config.(policies := policies);
    resp := resp.(state := Saved(data));
  }
}
