/** The model (role) registry: loading the model list, resolving the
    selected model, and the dropdown used to pick one. */
module ModelRegistry {
  import opened Wrappers
  import opened ChatState

  /** Used when `/roles` cannot be read. These entries carry no provider. */
  const FallbackModels: seq<Model> := [
    Model("gpt-3.5", "Deepseek-chat", "🤖", None),
    Model("gpt-4", "Deepseek-reasoner", "🧠", None),
    Model("claude", "Qianwen-VL", "✨", None)
  ]

  /** The position of the first model whose id is `id`, as
      `Array.prototype.find` would stop at it. */
  function FindIndex(models: seq<Model>, id: Option<string>): (r: Option<nat>)
    ensures r.Some? ==> r.value < |models| && Some(models[r.value].id) == id
    ensures r.Some? ==> forall k :: 0 <= k < r.value ==> Some(models[k].id) != id
    ensures r.None? ==> forall k :: 0 <= k < |models| ==> Some(models[k].id) != id
  {
    if models == [] then None
    else if Some(models[0].id) == id then Some(0)
    else match FindIndex(models[1..], id)
      case Some(k) => Some(k + 1)
      case None => None
  }

  /** The computed `selectedModel`: the first registered model whose id is
      the selected id, if any. */
  function SelectedModel(st: State): (r: Option<Model>)
    ensures r.Some? ==> r.value in st.models && st.selectedModelId == Some(r.value.id)
    ensures r.None? ==> forall k :: 0 <= k < |st.models| ==> st.selectedModelId != Some(st.models[k].id)
  {
    match FindIndex(st.models, st.selectedModelId)
    case Some(k) => Some(st.models[k])
    case None => None
  }

  /** The avatar put on assistant entries: the selected model's icon, or
      the robot glyph when there is no selected model or its icon is
      blank. */
  function AssistantAvatar(st: State): (r: string)
    ensures r != ""
    ensures SelectedModel(st).Some? && SelectedModel(st).value.icon != "" ==> r == SelectedModel(st).value.icon
    ensures SelectedModel(st).Some? && SelectedModel(st).value.icon == "" ==> r == RobotIcon
    ensures SelectedModel(st).None? ==> r == RobotIcon
  {
    match SelectedModel(st)
    case Some(m) => OrElse(Some(m.icon), RobotIcon)
    case None => RobotIcon
  }

  /** The provider a chat request names: the selected model's provider,
      or "default" when there is no selected model or it has no provider. */
  function ProviderName(st: State): (r: string)
    ensures r != ""
    ensures SelectedModel(st).None? ==> r == DefaultProvider
    ensures SelectedModel(st).Some? && Truthy(SelectedModel(st).value.provider) ==> r == SelectedModel(st).value.provider.value
    ensures SelectedModel(st).Some? && !Truthy(SelectedModel(st).value.provider) ==> r == DefaultProvider
  {
    match SelectedModel(st)
    case Some(m) => OrElse(m.provider, DefaultProvider)
    case None => DefaultProvider
  }

  /** The models built from the `/roles` entries, position by position,
      with the robot glyph and "default" filled in for blank fields. */
  function ToModels(roles: seq<RoleInfo>): (ms: seq<Model>)
    ensures |ms| == |roles|
    ensures forall k :: 0 <= k < |ms| ==>
      && ms[k].id == roles[k].key
      && ms[k].name == roles[k].name
      && ms[k].icon == OrElse(roles[k].icon, RobotIcon)
      && ms[k].provider == Some(OrElse(roles[k].provider, DefaultProvider))
  {
    if roles == [] then []
    else
      var r := roles[0];
      [Model(r.key, r.name, OrElse(r.icon, RobotIcon), Some(OrElse(r.provider, DefaultProvider)))]
        + ToModels(roles[1..])
  }

  /** `fetchModels` once `/roles` has answered (or failed). A reply
      replaces the list and, when non-empty, selects its first entry; a
      failure installs the fallback list and keeps the selection. Nothing
      but the list and the selection changes, and every model ends up
      with a visible icon. */
  function FetchModels(st: State, reply: Result<seq<RoleInfo>>): (r: State)
    ensures r == st.(models := r.models, selectedModelId := r.selectedModelId)
    ensures reply.Ok? ==> r.models == ToModels(reply.value)
    ensures reply.Ok? && |reply.value| > 0 ==> r.selectedModelId == Some(reply.value[0].key)
    ensures reply.Ok? && |reply.value| == 0 ==> r.selectedModelId == st.selectedModelId
    ensures reply.Err? ==> r.models == FallbackModels && r.selectedModelId == st.selectedModelId
    ensures forall k :: 0 <= k < |r.models| ==> r.models[k].icon != ""
  {
    match reply
    case Ok(roles) =>
      var models := ToModels(roles);
      if |models| > 0 then st.(models := models, selectedModelId := Some(models[0].id))
      else st.(models := models)
    case Err(_) =>
      st.(models := FallbackModels)
  }

  /** `selectModel`: adopts `id` whether or not a model has it, and closes
      the dropdown. */
  function SelectModel(st: State, id: string): (r: State)
    ensures r.selectedModelId == Some(id) && !r.dropdownOpen
    ensures r == st.(selectedModelId := r.selectedModelId, dropdownOpen := r.dropdownOpen)
  {
    st.(selectedModelId := Some(id), dropdownOpen := false)
  }

  /** `toggleDropdown`: flips the dropdown and nothing else. */
  function ToggleDropdown(st: State): (r: State)
    ensures r.dropdownOpen == !st.dropdownOpen
    ensures r == st.(dropdownOpen := r.dropdownOpen)
  {
    st.(dropdownOpen := !st.dropdownOpen)
  }

  /** Toggling the dropdown twice restores the state. */
  lemma ToggleTwice(st: State)
    ensures ToggleDropdown(ToggleDropdown(st)) == st
  {
  }

  /** After a non-empty `/roles` reply the default selection resolves to
      the first model, and requests name that model's provider. */
  lemma FetchedSelectionResolves(st: State, roles: seq<RoleInfo>)
    requires |roles| > 0
    ensures SelectedModel(FetchModels(st, Ok(roles))) == Some(ToModels(roles)[0])
    ensures ProviderName(FetchModels(st, Ok(roles))) == OrElse(roles[0].provider, DefaultProvider)
  {
  }

  /** After `/roles` failed, every request names the "default" provider,
      whatever is selected: no fallback model has a provider. */
  lemma FallbackProviderIsDefault(st: State, msg: string)
    ensures ProviderName(FetchModels(st, Err(msg))) == DefaultProvider
  {
    var r := FetchModels(st, Err(msg));
    match SelectedModel(r)
    case Some(m) =>
      assert m in FallbackModels;
    case None =>
  }

  /** Selecting an id no model has leaves no resolved model: the robot
      glyph and the "default" provider are used from then on. */
  lemma SelectUnknownModel(st: State, id: string)
    requires forall k :: 0 <= k < |st.models| ==> st.models[k].id != id
    ensures SelectedModel(SelectModel(st, id)).None?
    ensures AssistantAvatar(SelectModel(st, id)) == RobotIcon
    ensures ProviderName(SelectModel(st, id)) == DefaultProvider
  {
  }

  /** Selecting a registered id resolves to the first model with that id. */
  lemma SelectKnownModel(st: State, k: nat)
    requires k < |st.models|
    requires forall j :: 0 <= j < k ==> st.models[j].id != st.models[k].id
    ensures SelectedModel(SelectModel(st, st.models[k].id)) == Some(st.models[k])
  {
  }
}
