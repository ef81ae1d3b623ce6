/** The `mondoo_space` resource (internal/provider/space_resource.go) and the
    MRN prefixes for organizations and spaces that the other resources share.
    A space is named in the service by `spacePrefix + id`; its organization
    by `orgPrefix + org_id`. */
module SpaceResource {
  import opened Values
  import opened Diagnostics
  import opened Segments
  import opened Wire
  import opened Remote
  import opened Lifecycle

  /** The path of the service's spaces, without the final separator. */
  const SpacesPath := "//captain.api.mondoo.app/spaces"

  /** `orgPrefix` and `spacePrefix`. */
  const OrgPrefix := "//captain.api.mondoo.app/organizations/"
  const SpacePrefix := SpacesPath + "/"

  /** The MRN of the organization with identifier `orgId`. */
  function OrgMrn(orgId: string): (mrn: string)
    ensures |mrn| == |OrgPrefix| + |orgId|
    ensures mrn[..|OrgPrefix|] == OrgPrefix && mrn[|OrgPrefix|..] == orgId
  {
    OrgPrefix + orgId
  }

  /** The MRN of the space with identifier `id`. */
  function SpaceMrn(id: string): (mrn: string)
    ensures |mrn| == |SpacePrefix| + |id|
    ensures mrn[..|SpacePrefix|] == SpacePrefix && mrn[|SpacePrefix|..] == id
  {
    SpacePrefix + id
  }

  /** Different spaces have different MRNs, and so do different organizations. */
  lemma MrnsAreInjective(a: string, b: string)
    ensures SpaceMrn(a) == SpaceMrn(b) ==> a == b
    ensures OrgMrn(a) == OrgMrn(b) ==> a == b
  {
    if SpaceMrn(a) == SpaceMrn(b) {
      assert a == SpaceMrn(a)[|SpacePrefix|..];
    }
    if OrgMrn(a) == OrgMrn(b) {
      assert a == OrgMrn(a)[|OrgPrefix|..];
    }
  }

  /** The space identifier is the last `/`-piece of the space MRN. */
  lemma {:induction false} SpaceIdIsLastSegment(id: string)
    requires '/' !in id
    ensures LastSegment(Split(SpaceMrn(id), '/')) == id
  {
    assert SpaceMrn(id) == SpacesPath + ['/'] + id;
    SplitAtSeparator(SpacesPath, id, '/');
    SplitWithoutSeparator(id, '/');
  }

  /** An object MRN `<space MRN>/<kind>/<uid>` has the space identifier third
      from the end and the uid last. */
  lemma {:induction false} SpaceOfObjectMrn(space: string, kind: string, uid: string)
    requires '/' !in space && '/' !in kind && '/' !in uid
    ensures var parts := Split(SpaceMrn(space) + "/" + kind + "/" + uid, '/');
      ThirdFromLast(parts) == Some(space) && LastSegment(parts) == uid
  {
    assert SpaceMrn(space) + "/" + kind + "/" + uid == SpacesPath + ['/'] + space + ['/'] + kind + ['/'] + uid;
    ScopeAndUidOfPath(SpacesPath, space, kind, uid, '/');
  }

  /** The space MRN the MS365 and custom-framework resources send: "" when no
      space identifier is given, the space's MRN otherwise. */
  function OptionalSpaceMrn(id: string): (mrn: string)
    ensures mrn == "" <==> id == ""
    ensures id != "" ==> mrn == SpaceMrn(id)
  {
    if id == "" then "" else SpaceMrn(id)
  }

  /** `OptionalSpaceMrn` loses nothing: its result determines the identifier. */
  lemma OptionalSpaceMrnIsInjective(a: string, b: string)
    requires OptionalSpaceMrn(a) == OptionalSpaceMrn(b)
    ensures a == b
  {
    if a != "" && b != "" {
      MrnsAreInjective(a, b);
    }
  }

  // ----- the resource -----

  /** `ProjectResourceModel`: the `name`, `id` and `org_id` attributes. */
  datatype Model = Model(name: Value<string>, spaceId: Value<string>, orgId: Value<string>)

  function CreateRequest(plan: Model): Call {
    CreateSpace(CreateSpaceInput(ValueString(plan.name), OrgMrn(ValueString(plan.orgId))))
  }

  function UpdateRequest(plan: Model): Call {
    UpdateSpace(UpdateSpaceInput(SpaceMrn(ValueString(plan.spaceId)), ValueString(plan.name)))
  }

  function DeleteRequest(prior: Model): Call {
    DeleteSpace(SpaceMrn(ValueString(prior.spaceId)))
  }

  /** `Create`: create the space in the organization's MRN and save the plan
      with the identifier and name the service returned. */
  method Create(client: Client, plan: Model) returns (resp: Response<Model>)
    ensures resp.calls == [CreateSpace(CreateSpaceInput(ValueString(plan.name), OrgPrefix + ValueString(plan.orgId)))]
    ensures var created := client.createSpace(CreateSpaceInput(ValueString(plan.name), OrgMrn(ValueString(plan.orgId))));
      (created.Err? ==> Aborted(resp, [CreateRequest(plan)], "Client Error", "Unable to create space, got error: " + created.msg)) &&
      (created.Ok? ==>
        resp.diags == [] &&
        resp.state == Saved(plan.(name := Known(created.value.name), spaceId := Known(created.value.id))))
  {
    var createInput := CreateSpaceInput(ValueString(plan.name), OrgMrn(ValueString(plan.orgId)));
    resp := Response([], Untouched, [CreateSpace(createInput)]);
    var created := client.createSpace(createInput);
    if created.Err? {
      resp := resp.(diags := [NewError("Client Error", "Unable to create space, got error: " + created.msg)]);
      return;
    }
    var data := plan;
    data := data.(name := Known(created.value.name));
    data := data.(spaceId := Known(created.value.id));
    resp := resp.(state := Saved(data));
  }

  /** `Read`: no call; the prior state is saved again unchanged. */
  method Read(prior: Model) returns (resp: Response<Model>)
    ensures resp == Response([], Saved(prior), [])
  {
    resp := Response([], Saved(prior), []);
  }

  /** `Update`: rename the space named by `spacePrefix + id` and save the plan. */
  method Update(client: Client, plan: Model) returns (resp: Response<Model>)
    ensures resp.calls == [UpdateSpace(UpdateSpaceInput(SpacePrefix + ValueString(plan.spaceId), ValueString(plan.name)))]
    ensures var updated := client.updateSpace(UpdateSpaceInput(SpaceMrn(ValueString(plan.spaceId)), ValueString(plan.name)));
      (updated.Err? ==> Aborted(resp, [UpdateRequest(plan)], "Client Error", "Unable to update space, got error: " + updated.msg)) &&
      (updated.Ok? ==> resp.diags == [] && resp.state == Saved(plan))
  {
    var updateInput := UpdateSpaceInput(SpaceMrn(ValueString(plan.spaceId)), ValueString(plan.name));
    resp := Response([], Untouched, [UpdateSpace(updateInput)]);
    var updated := client.updateSpace(updateInput);
    if updated.Err? {
      resp := resp.(diags := [NewError("Client Error", "Unable to update space, got error: " + updated.msg)]);
      return;
    }
    resp := resp.(state := Saved(plan));
  }

  /** `Delete`: delete the space named by `spacePrefix + id`. */
  method Delete(client: Client, prior: Model) returns (resp: Response<Model>)
    ensures resp.calls == [DeleteSpace(SpacePrefix + ValueString(prior.spaceId))]
    ensures resp.state.Untouched?
    ensures var deleted := client.deleteSpace(SpaceMrn(ValueString(prior.spaceId)));
      (deleted.Err? ==> resp.diags == [NewError("Client Error", "Unable to delete space, got error: " + deleted.msg)]) &&
      (deleted.Ok? ==> resp.diags == [])
  {
    var spaceMrn := SpaceMrn(ValueString(prior.spaceId));
    resp := Response([], Untouched, [DeleteSpace(spaceMrn)]);
    var deleted := client.deleteSpace(spaceMrn);
    if deleted.Err? {
      resp := resp.(diags := [NewError("Client Error", "Unable to delete space, got error: " + deleted.msg)]);
    }
  }

  /** The state `ImportStatePassthroughID` leaves: the import identifier as
      `id`, every other attribute null. */
  function ImportModel(id: string): (m: Model)
    ensures m.spaceId == Known(id) && m.name.Null? && m.orgId.Null?
  {
    Model(Null, Known(id), Null)
  }

  /** `ImportState`: no call; the identifier is copied verbatim. */
  method ImportState(id: string) returns (resp: Response<Model>)
    ensures resp == Response([], Saved(ImportModel(id)), [])
  {
    resp := Response([], Saved(Model(Null, Known(id), Null)), []);
  }
}
