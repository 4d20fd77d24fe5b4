/**
 * Capability and deployment-name lookups of the chat service. The deprecated edition
 * reads the user store, the current edition reads the provider-and-model store; both
 * stores are parameters here.
 */
module ChatHelper {
  import opened Wrappers

  /** What the deprecated edition's user store knows about a model. */
  datatype UserStoreLookups = UserStoreLookups(
    functionCall: string -> bool,
    vision: string -> bool,
    fetchOnClient: string -> bool,
    azureCards: seq<AzureCard>)

  /** What the current edition's provider-and-model store knows; `None` is an undefined answer. */
  datatype InfraStoreLookups = InfraStoreLookups(
    supportToolUse: (string, string) -> Option<bool>,
    supportVision: (string, string) -> Option<bool>,
    fetchOnClient: string -> bool,
    enabledAiModels: Option<seq<EnabledModel>>)

  datatype AzureCard = AzureCard(id: string, deploymentName: Option<string>)

  datatype EnabledModel = EnabledModel(id: string, providerId: string, deploymentName: Option<string>)

  predicate Truthy(s: Option<string>) {
    s.Some? && s.value != ""
  }

  /** `isCanUseFC`: an undefined answer of the store counts as false. */
  function IsCanUseFC(deprecated: bool, user: UserStoreLookups, infra: InfraStoreLookups, model: string, provider: string): bool {
    if deprecated then user.functionCall(model) else infra.supportToolUse(model, provider) == Some(true)
  }

  /** `isCanUseVision`: the store's answer as it is, undefined included. */
  function IsCanUseVision(deprecated: bool, user: UserStoreLookups, infra: InfraStoreLookups, model: string, provider: string): Option<bool> {
    if deprecated then Some(user.vision(model)) else infra.supportVision(model, provider)
  }

  function IsEnableFetchOnClient(deprecated: bool, user: UserStoreLookups, infra: InfraStoreLookups, provider: string): bool {
    if deprecated then user.fetchOnClient(provider) else infra.fetchOnClient(provider)
  }

  /** Each lookup reads the deprecated store in the deprecated edition and the current store otherwise. */
  lemma SourceSelection(user: UserStoreLookups, infra: InfraStoreLookups, model: string, provider: string)
    ensures IsCanUseFC(true, user, infra, model, provider) == user.functionCall(model)
    ensures IsCanUseFC(false, user, infra, model, provider) <==> infra.supportToolUse(model, provider) == Some(true)
    ensures infra.supportToolUse(model, provider).None? ==> !IsCanUseFC(false, user, infra, model, provider)
    ensures infra.supportVision(model, provider).None? ==> IsCanUseVision(false, user, infra, model, provider).None?
    ensures IsCanUseVision(false, user, infra, model, provider) == infra.supportVision(model, provider)
    ensures IsEnableFetchOnClient(true, user, infra, provider) == user.fetchOnClient(provider)
    ensures IsEnableFetchOnClient(false, user, infra, provider) == infra.fetchOnClient(provider)
  {
  }

  /** `cards.find(i => i.id === model)`: the first card with that id. */
  function FindAzureCard(cards: seq<AzureCard>, model: string): (r: Option<AzureCard>)
    ensures r.Some? ==> r.value in cards && r.value.id == model
    ensures r.Some? ==> exists i :: 0 <= i < |cards| && cards[i] == r.value && forall j :: 0 <= j < i ==> cards[j].id != model
    ensures r.None? ==> forall c :: c in cards ==> c.id != model
  {
    if |cards| == 0 then None
    else if cards[0].id == model then Some(cards[0])
    else
      var r := FindAzureCard(cards[1..], model);
      if r.Some? then
        var i :| 0 <= i < |cards| - 1 && cards[1..][i] == r.value && forall j :: 0 <= j < i ==> cards[1..][j].id != model;
        assert cards[i + 1] == r.value && forall j :: 0 <= j < i + 1 ==> cards[j].id != model;
        r
      else r
  }

  /** `enabledAiModels.find(i => i.id === model && i.providerId === provider)`: the first such model. */
  function FindEnabledModel(models: seq<EnabledModel>, model: string, provider: string): (r: Option<EnabledModel>)
    ensures r.Some? ==> r.value in models && r.value.id == model && r.value.providerId == provider
    ensures r.Some? ==> exists i :: 0 <= i < |models| && models[i] == r.value
                          && forall j :: 0 <= j < i ==> !(models[j].id == model && models[j].providerId == provider)
    ensures r.None? ==> forall m :: m in models ==> !(m.id == model && m.providerId == provider)
  {
    if |models| == 0 then None
    else if models[0].id == model && models[0].providerId == provider then Some(models[0])
    else
      var r := FindEnabledModel(models[1..], model, provider);
      if r.Some? then
        var i :| 0 <= i < |models| - 1 && models[1..][i] == r.value
                 && forall j :: 0 <= j < i ==> !(models[1..][j].id == model && models[1..][j].providerId == provider);
        assert models[i + 1] == r.value
               && forall j :: 0 <= j < i + 1 ==> !(models[j].id == model && models[j].providerId == provider);
        r
      else r
  }

  /** `findDeploymentName`: the deployment name found for the model, else the model id. */
  function FindDeploymentName(deprecated: bool, user: UserStoreLookups, infra: InfraStoreLookups,
                              model: string, provider: string): string
  {
    if deprecated then
      var card := FindAzureCard(user.azureCards, model);
      if card.Some? && Truthy(card.value.deploymentName) then card.value.deploymentName.value else model
    else if infra.enabledAiModels.None? then model
    else
      var item := FindEnabledModel(infra.enabledAiModels.value, model, provider);
      if item.Some? && Truthy(item.value.deploymentName) then item.value.deploymentName.value else model
  }

  /**
   * In the current edition the id is replaced exactly when the first enabled model with
   * that id and provider has a non-empty deployment name, and then by that name.
   */
  lemma CurrentEditionDeployment(user: UserStoreLookups, infra: InfraStoreLookups, model: string, provider: string)
    ensures var r := FindDeploymentName(false, user, infra, model, provider);
      var item := if infra.enabledAiModels.Some? then FindEnabledModel(infra.enabledAiModels.value, model, provider) else None;
      (r != model ==> item.Some? && Truthy(item.value.deploymentName) && r == item.value.deploymentName.value)
      && (item.Some? && Truthy(item.value.deploymentName) ==> r == item.value.deploymentName.value)
      && (item.None? ==> r == model)
  {
  }

  /** Without a matching enabled model (or any list at all), the id is returned unchanged. */
  lemma NoMatchKeepsId(user: UserStoreLookups, infra: InfraStoreLookups, model: string, provider: string)
    requires infra.enabledAiModels.Some? ==>
               forall m :: m in infra.enabledAiModels.value ==> !(m.id == model && m.providerId == provider && Truthy(m.deploymentName))
    ensures FindDeploymentName(false, user, infra, model, provider) == model
  {
  }

  /** The deprecated edition searches the Azure cards by id only: the provider does not matter. */
  lemma DeprecatedIgnoresProvider(user: UserStoreLookups, infra: InfraStoreLookups, model: string, p1: string, p2: string)
    ensures FindDeploymentName(true, user, infra, model, p1) == FindDeploymentName(true, user, infra, model, p2)
    ensures var card := FindAzureCard(user.azureCards, model);
      FindDeploymentName(true, user, infra, model, p1)
        == if card.Some? && Truthy(card.value.deploymentName) then card.value.deploymentName.value else model
  {
  }
}
