/**
 * The prompt area's provider state: the fetched model list, the selected model id, the web-search
 * toggle and the agent id, with the effect that keeps the selection consistent with the list.
 */
module ModelSelection {
  import opened Wrappers
  import opened ChatTypes

  /** `models.some(m => m.id === id)`. */
  function HasModelId(models: seq<AiModel>, id: string): (r: bool)
    ensures r <==> exists i :: 0 <= i < |models| && models[i].id == id
  {
    if models == [] then false
    else if models[0].id == id then true
    else
      var r := HasModelId(models[1..], id);
      assert forall i :: 1 <= i < |models| ==> models[i] == models[1..][i - 1];
      r
  }

  /**
   * The selection the reconciliation effect leaves: "" for an empty list, the current selection when
   * it names a model, and the first model's id otherwise.
   */
  function Reconciled(models: seq<AiModel>, selected: string): (r: string)
    ensures |models| == 0 ==> r == ""
    ensures |models| > 0 && (exists i :: 0 <= i < |models| && models[i].id == selected) ==> r == selected
    ensures |models| > 0 && (forall i :: 0 <= i < |models| ==> models[i].id != selected) ==> r == models[0].id
  {
    if |models| == 0 then ""
    else if HasModelId(models, selected) then selected
    else models[0].id
  }

  /** After reconciliation the selection names a model of the list, or is "" when the list is empty. */
  lemma ReconciledIsValid(models: seq<AiModel>, selected: string)
    ensures Reconciled(models, selected) == "" || HasModelId(models, Reconciled(models, selected))
    ensures |models| > 0 ==> HasModelId(models, Reconciled(models, selected))
  {
  }

  /** Reconciling twice is reconciling once, so the effect settles after at most one change. */
  lemma ReconcileIdempotent(models: seq<AiModel>, selected: string)
    ensures Reconciled(models, Reconciled(models, selected)) == Reconciled(models, selected)
  {
    if |models| > 0 {
      ReconciledIsValid(models, selected);
    }
  }

  /** The update made when the model fetch succeeds: `prev || models[0].id || ""` for a non-empty list. */
  function SelectionAfterFetch(models: seq<AiModel>, prev: string): (r: string)
    ensures |models| == 0 ==> r == prev
    ensures |models| > 0 && prev != "" ==> r == prev
    ensures |models| > 0 && prev == "" ==> r == models[0].id
  {
    if |models| > 0 then (if prev != "" then prev else models[0].id) else prev
  }

  /**
   * The first pick followed by the reconciliation effect: a previous selection survives only when it
   * names a fetched model; otherwise the first model is selected.
   */
  lemma FetchThenReconcile(models: seq<AiModel>, prev: string)
    requires |models| > 0
    ensures Reconciled(models, SelectionAfterFetch(models, prev))
            == if prev != "" && HasModelId(models, prev) then prev else models[0].id
  {
    assert HasModelId(models, models[0].id);
  }

  /** The first pick does not repair a stale non-empty selection; only the reconciliation effect does. */
  lemma StaleSelectionSurvivesPick(models: seq<AiModel>, prev: string)
    requires prev != "" && !HasModelId(models, prev)
    ensures !HasModelId(models, SelectionAfterFetch(models, prev))
    ensures Reconciled(models, SelectionAfterFetch(models, prev)) != SelectionAfterFetch(models, prev)
  {
    if |models| > 0 {
      FetchThenReconcile(models, prev);
    }
  }

  class PromptAreaProvider {
    var availableModels: seq<AiModel>
    var selectedModel: string
    var isSearchEnabled: bool
    var agentId: Option<string>

    /** On mount: no models, nothing selected, search off; the agent id comes from the URL query. */
    constructor (agentId: Option<string>)
      ensures availableModels == [] && selectedModel == "" && !isSearchEnabled && this.agentId == agentId
    {
      availableModels := [];
      selectedModel := "";
      isSearchEnabled := false;
      this.agentId := agentId;
    }

    /** The model fetch completed while mounted: `None` is a failed fetch, which changes nothing. */
    method ModelsFetched(outcome: Option<seq<AiModel>>)
      modifies this
      ensures outcome.None? ==> availableModels == old(availableModels) && selectedModel == old(selectedModel)
      ensures outcome.Some? ==> availableModels == outcome.value
      ensures outcome.Some? ==> selectedModel == SelectionAfterFetch(outcome.value, old(selectedModel))
      ensures isSearchEnabled == old(isSearchEnabled) && agentId == old(agentId)
    {
      if outcome.Some? {
        availableModels := outcome.value;
        selectedModel := SelectionAfterFetch(outcome.value, selectedModel);
      }
    }

    /** The effect on [availableModels, selectedModel]. */
    method Reconcile()
      modifies this`selectedModel
      ensures selectedModel == Reconciled(availableModels, old(selectedModel))
      ensures selectedModel == "" || HasModelId(availableModels, selectedModel)
    {
      if |availableModels| == 0 {
        if selectedModel != "" {
          selectedModel := "";
        }
        return;
      }
      var found := HasModelId(availableModels, selectedModel);
      if !found {
        selectedModel := availableModels[0].id;
      }
      ReconciledIsValid(availableModels, old(selectedModel));
    }

    /** The model selector's `onValueChange`. */
    method SelectModel(id: string)
      modifies this`selectedModel
      ensures selectedModel == id
    {
      selectedModel := id;
    }

    /** The search button's `setIsSearchEnabled(prev => !prev)`. */
    method ToggleSearch()
      modifies this`isSearchEnabled
      ensures isSearchEnabled == !old(isSearchEnabled)
    {
      isSearchEnabled := !isSearchEnabled;
    }
  }
}
