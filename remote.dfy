/** The Mondoo API client (`ExtendedGqlClient` and `mondoov1.Client`) as the
    handlers see it: each call is a total function from its arguments to an
    outcome, so a handler's behaviour is stated for every possible answer of
    the service. Handlers also report, in order, the calls they issued. */
module Remote {
  import opened Values
  import opened Diagnostics
  import opened Wire

  /** The space `ComputeSpace` resolves: its id and its MRN. */
  datatype Space = Space(id: string, mrn: string)

  /** `ImportIntegration` fetches the integration named by the import ID, or
      adds its own diagnostics to the response and reports failure. */
  datatype ImportOutcome = Imported(integration: Integration) | NotImported(diags: seq<Diagnostic>)

  datatype Call =
    | ComputeSpace(spaceIdValue: Value<string>)
    | CreateIntegration(spaceMrn: string, name: string, kind: IntegrationType, input: ConfigurationInput)
    | UpdateIntegration(mrn: string, name: string, kind: IntegrationType, input: ConfigurationInput)
    | GetClientIntegration(mrn: string)
    | ImportIntegration(id: string)
    | DeleteIntegration(mrn: string)
    | TriggerAction(mrn: string, action: ActionType)
    | UploadFramework(spaceMrn: string, content: seq<bv8>)
    | GetFramework(spaceMrn: string, spaceId: string, uid: string)
    | DeleteFramework(mrn: string)
    | CreateSpace(createInput: CreateSpaceInput)
    | UpdateSpace(updateInput: UpdateSpaceInput)
    | DeleteSpace(spaceMrn: string)
    | GetPolicies(scopeMrn: string, catalogType: string, assignedOnly: bool)

  datatype Client = Client(
    computeSpace: Value<string> -> Result<Space>,
    createIntegration: (string, string, IntegrationType, ConfigurationInput) -> Result<Integration>,
    updateIntegration: (string, string, IntegrationType, ConfigurationInput) -> Result<()>,
    getClientIntegration: string -> Result<Integration>,
    importIntegration: string -> ImportOutcome,
    deleteIntegration: string -> Result<()>,
    triggerAction: (string, ActionType) -> Result<()>,
    uploadFramework: (string, seq<bv8>) -> Result<()>,
    getFramework: (string, string, string) -> Result<FrameworkRef>,
    deleteFramework: string -> Result<()>,
    createSpace: CreateSpaceInput -> Result<CreatedSpace>,
    updateSpace: UpdateSpaceInput -> Result<()>,
    deleteSpace: string -> Result<()>,
    getPolicies: (string, string, bool) -> Result<seq<Policy>>)
}
