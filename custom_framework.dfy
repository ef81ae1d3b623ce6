/** The `mondoo_custom_framework` resource
    (internal/provider/custom_framework_resource.go): a compliance framework,
    given as a YAML file, uploaded into a space. Reading the file and parsing
    its YAML are not part of this model: a `Loader` stands for both, and
    `getFrameworkContent` is modelled on what they return. */
module CustomFrameworkResource {
  import opened Values
  import opened Diagnostics
  import opened Segments
  import opened Wire
  import opened Remote
  import opened Lifecycle
  import SpaceResource

  /** `customFrameworkResourceModel`. */
  datatype Model = Model(spaceId: Value<string>, mrn: Value<string>, dataUrl: Value<string>)

  /** One entry of the YAML file's `frameworks` list, and the file itself. */
  datatype Framework = Framework(uid: string, name: string)
  datatype Config = Config(frameworks: seq<Framework>)

  /** `os.ReadFile` and `yaml.Unmarshal`, as total functions. */
  datatype Loader = Loader(readFile: string -> Result<seq<bv8>>, unmarshal: seq<bv8> -> Result<Config>)

  /** What `getFrameworkContent` returns on success: the file's bytes and the
      uid of its first framework. */
  datatype Content = Content(data: seq<bv8>, uid: string)

  // ----- getFrameworkContent -----

  /** The inputs on which `Frameworks[0]` is in range as written: the
      function returns early on a read or parse error; otherwise the file,
      or the empty configuration of a null `data_url`, must list a framework. */
  predicate FrameworkIndexInRange(loader: Loader, dataUrl: Value<string>) {
    !dataUrl.Null? &&
    var read := loader.readFile(ValueString(dataUrl));
    read.Ok? && loader.unmarshal(read.value).Ok? ==> |loader.unmarshal(read.value).value.frameworks| >= 1
  }

  /** `getFrameworkContent` as written, on the inputs where its index is in range. */
  function FrameworkContentAsWritten(loader: Loader, dataUrl: Value<string>): (r: Result<Content>)
    requires FrameworkIndexInRange(loader, dataUrl)
    ensures var read := loader.readFile(ValueString(dataUrl));
      (read.Err? ==> r == Err(read.msg)) &&
      (read.Ok? && loader.unmarshal(read.value).Err? ==> r == Err("unable to unmarshal YAML: " + loader.unmarshal(read.value).msg)) &&
      (read.Ok? && loader.unmarshal(read.value).Ok? ==>
        r == Ok(Content(read.value, loader.unmarshal(read.value).value.frameworks[0].uid)))
  {
    var read := loader.readFile(ValueString(dataUrl));
    if read.Err? then Err(read.msg)
    else
      var parsed := loader.unmarshal(read.value);
      if parsed.Err? then Err("unable to unmarshal YAML: " + parsed.msg)
      else Ok(Content(read.value, parsed.value.frameworks[0].uid))
  }

  /** A file that parses to an empty framework list, and a null `data_url`,
      are outside that domain: there `Frameworks[0]` panics. */
  lemma EmptyFrameworkListIsOutOfRange(loader: Loader, url: string)
    requires loader.readFile(url).Ok? && loader.unmarshal(loader.readFile(url).value) == Ok(Config([]))
    ensures !FrameworkIndexInRange(loader, Known(url))
    ensures !FrameworkIndexInRange(loader, Null)
  {
  }

  const NoFrameworkMessage := "no framework listed in data_url"

  /** The corrected `getFrameworkContent`: the same results where the source
      is defined, and an error where it panics. */
  function FrameworkContent(loader: Loader, dataUrl: Value<string>): (r: Result<Content>)
    ensures FrameworkIndexInRange(loader, dataUrl) ==> r == FrameworkContentAsWritten(loader, dataUrl)
    ensures r.Ok? <==>
      !dataUrl.Null? && loader.readFile(ValueString(dataUrl)).Ok? &&
      loader.unmarshal(loader.readFile(ValueString(dataUrl)).value).Ok? &&
      |loader.unmarshal(loader.readFile(ValueString(dataUrl)).value).value.frameworks| >= 1
    ensures r.Ok? ==>
      var read := loader.readFile(ValueString(dataUrl));
      r.value == Content(read.value, loader.unmarshal(read.value).value.frameworks[0].uid)
  {
    if dataUrl.Null? then Err(NoFrameworkMessage)
    else
      var read := loader.readFile(ValueString(dataUrl));
      if read.Err? then Err(read.msg)
      else
        var parsed := loader.unmarshal(read.value);
        if parsed.Err? then Err("unable to unmarshal YAML: " + parsed.msg)
        else if |parsed.value.frameworks| == 0 then Err(NoFrameworkMessage)
        else Ok(Content(read.value, parsed.value.frameworks[0].uid))
  }

  // ----- the import identifier -----

  /** The space MRN, space identifier and framework uid `ImportState` reads
      off its identifier. */
  datatype ImportTarget = ImportTarget(spaceMrn: string, spaceId: string, uid: string)

  /** `ImportState`'s parsing as written: defined only when the identifier
      has at least three `/`-pieces. */
  function ImportTargetAsWritten(id: string): (t: ImportTarget)
    requires |Split(id, '/')| >= 3
    ensures var parts := Split(id, '/');
      t.spaceId == parts[|parts| - 3] && t.uid == parts[|parts| - 1] &&
      t.spaceMrn == SpaceResource.SpacePrefix + t.spaceId
  {
    var splitMrn := Split(id, '/');
    var spaceId := splitMrn[|splitMrn| - 3];
    ImportTarget(SpaceResource.SpacePrefix + spaceId, spaceId, splitMrn[|splitMrn| - 1])
  }

  /** A bare framework uid, the natural thing to type after
      `terraform import`, has one piece, outside that domain. */
  lemma {:induction false} BareUidIsOutOfRange(uid: string)
    requires '/' !in uid
    ensures |Split(uid, '/')| < 3
  {
    SplitWithoutSeparator(uid, '/');
  }

  /** The corrected parsing: nothing when there are fewer than three pieces,
      the as-written result otherwise. */
  function ParseImportId(id: string): (t: Option<ImportTarget>)
    ensures t.Some? <==> |Split(id, '/')| >= 3
    ensures t.Some? ==> t.value == ImportTargetAsWritten(id)
  {
    var parts := Split(id, '/');
    match ThirdFromLast(parts)
    case None => None
    case Some(spaceId) => Some(ImportTarget(SpaceResource.SpaceMrn(spaceId), spaceId, LastSegment(parts)))
  }

  /** A framework MRN `<prefix>/spaces/<space>/frameworks/<uid>` names its
      space and uid, and the space MRN is rebuilt from the identifier. */
  lemma ParseFrameworkMrn(prefix: string, space: string, uid: string)
    requires '/' !in space && '/' !in uid
    ensures ParseImportId(prefix + "/" + space + "/frameworks/" + uid) ==
      Some(ImportTarget(SpaceResource.SpaceMrn(space), space, uid))
  {
    assert prefix + "/" + space + "/frameworks/" + uid == prefix + ['/'] + space + ['/'] + "frameworks" + ['/'] + uid;
    ScopeAndUidOfPath(prefix, space, "frameworks", uid, '/');
  }

  const MalformedIdSummary := "Invalid Import ID"

  // ----- lifecycle -----

  /** `Create`: load the framework file, upload it into
      `OptionalSpaceMrn(space_id)`, look it up by its first uid and save the
      plan with the framework's MRN; any failure aborts without saving. */
  method Create(client: Client, loader: Loader, plan: Model) returns (resp: Response<Model>)
    ensures var spaceMrn := SpaceResource.OptionalSpaceMrn(ValueString(plan.spaceId));
      var content := FrameworkContent(loader, plan.dataUrl);
      (content.Err? ==> Aborted(resp, [], "Client Error",
        "Unable to get Compliance Framework Content, got error: " + content.msg)) &&
      (content.Ok? ==>
        var uploaded := client.uploadFramework(spaceMrn, content.value.data);
        var upload := UploadFramework(spaceMrn, content.value.data);
        var lookup := GetFramework(spaceMrn, ValueString(plan.spaceId), content.value.uid);
        (uploaded.Err? ==> Aborted(resp, [upload], "Client Error",
          "Unable to upload Compliance Framework, got error: " + uploaded.msg)) &&
        (uploaded.Ok? ==>
          var found := client.getFramework(spaceMrn, ValueString(plan.spaceId), content.value.uid);
          (found.Err? ==> Aborted(resp, [upload, lookup], "Client Error",
            "Unable to get Compliance Framework, got error: " + found.msg)) &&
          (found.Ok? ==> resp == Response([], Saved(plan.(mrn := Known(found.value.mrn))), [upload, lookup]))))
    ensures resp.state.Saved? <==> !HasError(resp.diags)
  {
    resp := Response([], Untouched, []);
    var spaceMrn := "";
    if ValueString(plan.spaceId) != "" {
      spaceMrn := SpaceResource.SpacePrefix + ValueString(plan.spaceId);
    }
    var content := FrameworkContent(loader, plan.dataUrl);
    if content.Err? {
      resp := resp.(diags := [NewError("Client Error", "Unable to get Compliance Framework Content, got error: " + content.msg)]);
      assert resp.diags[0].severity == Error;
      return;
    }
    resp := resp.(calls := resp.calls + [UploadFramework(spaceMrn, content.value.data)]);
    var uploaded := client.uploadFramework(spaceMrn, content.value.data);
    if uploaded.Err? {
      resp := resp.(diags := [NewError("Client Error", "Unable to upload Compliance Framework, got error: " + uploaded.msg)]);
      assert resp.diags[0].severity == Error;
      return;
    }
    resp := resp.(calls := resp.calls + [GetFramework(spaceMrn, ValueString(plan.spaceId), content.value.uid)]);
    var found := client.getFramework(spaceMrn, ValueString(plan.spaceId), content.value.uid);
    if found.Err? {
      resp := resp.(diags := [NewError("Client Error", "Unable to get Compliance Framework, got error: " + found.msg)]);
      assert resp.diags[0].severity == Error;
      return;
    }
    var data := plan;
    data := data.(mrn := Known(found.value.mrn));
    resp := resp.(state := Saved(data));
  }

  /** `Read`: no call; the prior state is saved again unchanged. */
  method Read(prior: Model) returns (resp: Response<Model>)
    ensures resp == Response([], Saved(prior), [])
  {
    resp := Response([], Saved(prior), []);
  }

  /** `Update`: load the file again, upload it, and save the plan. */
  method Update(client: Client, loader: Loader, plan: Model) returns (resp: Response<Model>)
    ensures var spaceMrn := SpaceResource.OptionalSpaceMrn(ValueString(plan.spaceId));
      var content := FrameworkContent(loader, plan.dataUrl);
      (content.Err? ==> Aborted(resp, [], "Client Error",
        "Unable to get Compliance Framework Content, got error: " + content.msg)) &&
      (content.Ok? ==>
        var uploaded := client.uploadFramework(spaceMrn, content.value.data);
        var upload := UploadFramework(spaceMrn, content.value.data);
        (uploaded.Err? ==> Aborted(resp, [upload], "Client Error",
          "Unable to upload Compliance Framework, got error: " + uploaded.msg)) &&
        (uploaded.Ok? ==> resp == Response([], Saved(plan), [upload])))
  {
    resp := Response([], Untouched, []);
    var spaceMrn := "";
    if ValueString(plan.spaceId) != "" {
      spaceMrn := SpaceResource.SpacePrefix + ValueString(plan.spaceId);
    }
    var content := FrameworkContent(loader, plan.dataUrl);
    if content.Err? {
      resp := resp.(diags := [NewError("Client Error", "Unable to get Compliance Framework Content, got error: " + content.msg)]);
      return;
    }
    resp := resp.(calls := resp.calls + [UploadFramework(spaceMrn, content.value.data)]);
    var uploaded := client.uploadFramework(spaceMrn, content.value.data);
    if uploaded.Err? {
      resp := resp.(diags := [NewError("Client Error", "Unable to upload Compliance Framework, got error: " + uploaded.msg)]);
      return;
    }
    resp := resp.(state := Saved(plan));
  }

  /** `Delete`: delete the framework named by the prior state's MRN. */
  method Delete(client: Client, prior: Model) returns (resp: Response<Model>)
    ensures resp.calls == [DeleteFramework(ValueString(prior.mrn))]
    ensures resp.state.Untouched?
    ensures var deleted := client.deleteFramework(ValueString(prior.mrn));
      (deleted.Err? ==> resp.diags == [NewError("Client Error",
        "Unable to delete Compliance Framework, got error: " + deleted.msg)]) &&
      (deleted.Ok? ==> resp.diags == [])
  {
    var mrn := ValueString(prior.mrn);
    resp := Response([], Untouched, [DeleteFramework(mrn)]);
    var deleted := client.deleteFramework(mrn);
    if deleted.Err? {
      resp := resp.(diags := [NewError("Client Error", "Unable to delete Compliance Framework, got error: " + deleted.msg)]);
    }
  }

  /** `ImportState`: read space and uid off the identifier, look the
      framework up, and save its MRN, the space identifier and a null
      `data_url`. An identifier with fewer than three pieces, where the
      source's index panics, is reported as an error before any call. */
  method ImportState(client: Client, id: string) returns (resp: Response<Model>)
    ensures ParseImportId(id).None? ==>
      Aborted(resp, [], MalformedIdSummary,
        "Expected an identifier of the form <prefix>/<space-id>/<kind>/<uid>, got: " + id)
    ensures ParseImportId(id).Some? ==>
      var t := ImportTargetAsWritten(id);
      var found := client.getFramework(t.spaceMrn, t.spaceId, t.uid);
      resp.calls == [GetFramework(t.spaceMrn, t.spaceId, t.uid)] &&
      (found.Err? ==> resp.diags == [NewError("Client Error",
        "Unable to get Compliance Framework, got error: " + found.msg)] && resp.state.Untouched?) &&
      (found.Ok? ==> resp.diags == [] && resp.state == Saved(Model(Known(t.spaceId), Known(found.value.mrn), Null)))
  {
    resp := Response([], Untouched, []);
    var splitMrn := Split(id, '/');
    if |splitMrn| < 3 {
      resp := resp.(diags := [NewError(MalformedIdSummary,
        "Expected an identifier of the form <prefix>/<space-id>/<kind>/<uid>, got: " + id)]);
      return;
    }
    var spaceMrn := SpaceResource.SpacePrefix + splitMrn[|splitMrn| - 3];
    var spaceId := splitMrn[|splitMrn| - 3];
    var uid := splitMrn[|splitMrn| - 1];
    resp := resp.(calls := [GetFramework(spaceMrn, spaceId, uid)]);
    var found := client.getFramework(spaceMrn, spaceId, uid);
    if found.Err? {
      resp := resp.(diags := [NewError("Client Error", "Unable to get Compliance Framework, got error: " + found.msg)]);
      return;
    }
    resp := resp.(state := Saved(Model(Known(spaceId), Known(found.value.mrn), Null)));
  }
}
