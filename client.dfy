/**
 * The client store: which tenant configuration is active, and the getters
 * that fall back to the default tenant while none is.
 */
module Client {
  import opened Wrappers
  import opened Clients

  /** Shown as the client name while no client is active. */
  const FALLBACK_NAME := "Nexus PWA"

  /**
   * The configuration `initializeClient` activates for `clientId`:
   * a null or empty id becomes the default id, and an id with no entry
   * in the registry falls back to the default entry.
   */
  function Resolve(clientId: Option<string>): (c: ClientConfig)
    ensures c in CLIENT_CONFIGS.Values
    ensures clientId.Some? && clientId.value in CLIENT_CONFIGS ==> c == CLIENT_CONFIGS[clientId.value]
    ensures clientId.None? || clientId.value !in CLIENT_CONFIGS ==> c == CLIENT_CONFIGS[DEFAULT_CLIENT_ID]
  {
    var id := if clientId.None? || clientId.value == "" then DEFAULT_CLIENT_ID else clientId.value;
    if id in CLIENT_CONFIGS then CLIENT_CONFIGS[id] else CLIENT_CONFIGS[DEFAULT_CLIENT_ID]
  }

  /** Null, the empty id and every unregistered id all resolve to the ART configuration. */
  lemma ResolveFallsBackToArt(unknown: string)
    requires unknown !in CLIENT_CONFIGS
    ensures Resolve(None) == ART
    ensures Resolve(Some("")) == ART
    ensures Resolve(Some(unknown)) == ART
  {
  }

  class ClientStore {
    var activeClient: Option<ClientConfig>
    var loading: bool

    /** The active client, if any, is one of the registered configurations. */
    ghost predicate Valid()
      reads this
    {
      activeClient.Some? ==> activeClient.value in CLIENT_CONFIGS.Values
    }

    constructor ()
      ensures activeClient == None && loading
      ensures Valid()
    {
      activeClient := None;
      loading := true;
    }

    /** The configuration the getters read: the active one, else the default one. */
    function Effective(): (c: ClientConfig)
      reads this
      ensures Valid() ==> c in CLIENT_CONFIGS.Values
      ensures activeClient.None? ==> c == CLIENT_CONFIGS[DEFAULT_CLIENT_ID]
      ensures activeClient.Some? ==> c == activeClient.value
    {
      if activeClient.Some? then activeClient.value else CLIENT_CONFIGS[DEFAULT_CLIENT_ID]
    }

    function Theme(): (t: ThemeConfig)
      reads this
      ensures activeClient.None? ==> t == ART.theme
      ensures activeClient.Some? ==> t == activeClient.value.theme
    {
      Effective().theme
    }

    /** `activeClient?.name || 'Nexus PWA'`: an empty name also falls back. */
    function ClientName(): (n: string)
      reads this
      ensures n != ""
      ensures activeClient.None? ==> n == FALLBACK_NAME
      ensures activeClient.Some? && activeClient.value.name != "" ==> n == activeClient.value.name
    {
      if activeClient.Some? && activeClient.value.name != "" then activeClient.value.name else FALLBACK_NAME
    }

    function FlowSteps(): (s: seq<StepId>)
      reads this
      ensures Valid() ==> WellFormedFlow(s)
      ensures activeClient.None? ==> s == ART.flow
      ensures activeClient.Some? ==> s == activeClient.value.flow
    {
      RegistryFlowsWellFormed();
      Effective().flow
    }

    /** Activates the configuration `clientId` resolves to and clears `loading`. */
    method InitializeClient(clientId: Option<string>)
      modifies this
      ensures activeClient == Some(Resolve(clientId))
      ensures !loading
      ensures Valid()
    {
      loading := true;
      activeClient := Some(Resolve(clientId));
      loading := false;
    }
  }

  /** Once a registered client is active, the name shown is that client's own name. */
  lemma ActiveClientNameShown(store: ClientStore)
    requires store.Valid() && store.activeClient.Some?
    ensures store.ClientName() == store.activeClient.value.name
  {
  }
}
