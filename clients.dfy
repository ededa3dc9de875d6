/**
 * The tenant registry: a fixed table from client id to display name,
 * theme and the ordered list of capture steps that client walks through.
 */
module Clients {

  /** The closed set of steps a flow can contain. */
  datatype StepId = VinCapture | VehicleDetails | PhotoCapture | ReviewSubmit

  datatype ThemeConfig = ThemeConfig(primaryColor: string, accentColor: string, logoIcon: string)

  datatype ClientConfig = ClientConfig(id: string, name: string, theme: ThemeConfig, flow: seq<StepId>)

  const ART := ClientConfig(
    "art", "ART-WEBAPP",
    ThemeConfig("#8b5cf6", "#06b6d4", "\U{1F680}"),
    [VinCapture, VehicleDetails, PhotoCapture, ReviewSubmit])

  /** No VIN screen. */
  const LINCOLN := ClientConfig(
    "lincoln", "Lincoln",
    ThemeConfig("#ef4444", "#f59e0b", "\U{1F525}"),
    [VehicleDetails, PhotoCapture, ReviewSubmit])

  /** Vehicle details before the VIN. */
  const NIA := ClientConfig(
    "nia", "NIA",
    ThemeConfig("#10b981", "#3b82f6", "\U{1F6E1}\U{FE0F}"),
    [VehicleDetails, VinCapture, PhotoCapture, ReviewSubmit])

  const CLIENT_CONFIGS: map<string, ClientConfig> := map["art" := ART, "lincoln" := LINCOLN, "nia" := NIA]

  const DEFAULT_CLIENT_ID := "art"

  /** No step occurs twice. */
  predicate NoDuplicates(flow: seq<StepId>) {
    forall i, j :: 0 <= i < j < |flow| ==> flow[i] != flow[j]
  }

  /** A usable flow: at least one step, each step once, and the review step last. */
  predicate WellFormedFlow(flow: seq<StepId>) {
    |flow| > 0 && NoDuplicates(flow) && flow[|flow| - 1] == ReviewSubmit
  }

  /** `a` occurs strictly before `b` in `flow`. */
  ghost predicate Before(flow: seq<StepId>, a: StepId, b: StepId) {
    exists i, j :: 0 <= i < j < |flow| && flow[i] == a && flow[j] == b
  }

  /** The registry holds exactly the three configurations above. */
  lemma RegisteredConfigs()
    ensures CLIENT_CONFIGS.Keys == {"art", "lincoln", "nia"}
    ensures forall c :: c in CLIENT_CONFIGS.Values ==> c == ART || c == LINCOLN || c == NIA
  {
  }

  lemma DefaultIsRegistered()
    ensures DEFAULT_CLIENT_ID in CLIENT_CONFIGS
    ensures CLIENT_CONFIGS[DEFAULT_CLIENT_ID] == ART
  {
  }

  /** Every entry's `id` is the key it is stored under. */
  lemma RegistryIdsMatchKeys()
    ensures forall id :: id in CLIENT_CONFIGS ==> CLIENT_CONFIGS[id].id == id
  {
  }

  /** Every registered flow is non-empty, duplicate-free and ends with the review step. */
  lemma RegistryFlowsWellFormed()
    ensures forall c :: c in CLIENT_CONFIGS.Values ==> WellFormedFlow(c.flow)
  {
  }

  /** Every registered client has a non-empty display name. */
  lemma RegistryNamesNonEmpty()
    ensures forall c :: c in CLIENT_CONFIGS.Values ==> c.name != ""
  {
  }

  /** The Lincoln flow has three steps, starts with vehicle details and skips the VIN. */
  lemma LincolnSkipsVin()
    ensures "lincoln" in CLIENT_CONFIGS
    ensures var flow := CLIENT_CONFIGS["lincoln"].flow;
      |flow| == 3 && flow[0] == VehicleDetails && VinCapture !in flow
  {
  }

  /** NIA asks for vehicle details before the VIN; ART asks for them the other way round. */
  lemma NiaReversesArtOrder()
    ensures "nia" in CLIENT_CONFIGS && "art" in CLIENT_CONFIGS
    ensures Before(CLIENT_CONFIGS["nia"].flow, VehicleDetails, VinCapture)
    ensures !Before(CLIENT_CONFIGS["nia"].flow, VinCapture, VehicleDetails)
    ensures Before(CLIENT_CONFIGS["art"].flow, VinCapture, VehicleDetails)
    ensures !Before(CLIENT_CONFIGS["art"].flow, VehicleDetails, VinCapture)
  {
    assert NIA.flow[0] == VehicleDetails && NIA.flow[1] == VinCapture;
    assert ART.flow[0] == VinCapture && ART.flow[1] == VehicleDetails;
  }
}
