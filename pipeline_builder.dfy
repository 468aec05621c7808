/**
 * The pipeline builder page of frontend/src/pages/PipelineAgent.js: the
 * wizard's step navigation, the editing of the list of selected actions,
 * the catalog update after a custom action is created, and the steps the
 * page sends when it saves the pipeline. Each handler computes a new value
 * from the old one and hands it to a state setter.
 */
module PipelineBuilder {
  import opened Wrappers
  import opened JsText
  import opened ActionRegistry
  import opened PipelineRoutes
  import opened Pipelines

  /** The wizard's labels, from 'Define Input' to 'Review & Deploy'. */
  const WizardSteps := 5

  /** `handleNext`: one step forward, unclamped. */
  function HandleNext(activeStep: int): (r: int)
    ensures r == activeStep + 1
  {
    activeStep + 1
  }

  /** `handleBack`: one step back, unclamped. */
  function HandleBack(activeStep: int): (r: int)
    ensures r == activeStep - 1
  {
    activeStep - 1
  }

  /** The wizard's two buttons (lines 808-836). */
  datatype Button = Back | Forward

  /**
   * A click as the buttons allow it: Back is disabled on the first step and
   * while loading; Forward is disabled while loading and on the last step
   * saves the pipeline instead of moving.
   */
  function Press(activeStep: int, loading: bool, button: Button): int
  {
    match button
    case Back => if activeStep == 0 || loading then activeStep else HandleBack(activeStep)
    case Forward => if loading || activeStep == WizardSteps - 1 then activeStep else HandleNext(activeStep)
  }

  /** A sequence of clicks from `activeStep`. */
  function Presses(activeStep: int, loading: bool, buttons: seq<Button>): int
    decreases |buttons|
  {
    if buttons == [] then activeStep else Presses(Press(activeStep, loading, buttons[0]), loading, buttons[1..])
  }

  /** Neither handler clamps, but the guards keep every reachable step within the wizard. */
  lemma {:induction false} GuardsKeepStepInRange(activeStep: int, loading: bool, buttons: seq<Button>)
    requires 0 <= activeStep < WizardSteps
    ensures 0 <= Presses(activeStep, loading, buttons) < WizardSteps
    decreases |buttons|
  {
    if buttons != [] {
      GuardsKeepStepInRange(Press(activeStep, loading, buttons[0]), loading, buttons[1..]);
    }
  }

  /** Back undoes Forward and Forward undoes Back wherever both are enabled. */
  lemma BackUndoesForward(activeStep: int)
    requires 0 <= activeStep < WizardSteps - 1
    ensures Press(Press(activeStep, false, Forward), false, Back) == activeStep
    ensures Press(Press(activeStep + 1, false, Back), false, Forward) == activeStep + 1
  {
  }

  /** An entry of `actionRegistry` on the page. */
  datatype RegistryEntry = RegistryEntry(name: string, description: string, category: string, requiredInputs: seq<string>)

  /** An element of `selectedActions`. */
  datatype SelectedAction = SelectedAction(name: string, inputs: Value, description: string)

  /**
   * `addAction(actionName)` (lines 80-90): an unknown name leaves the list
   * as it is; a known one appends exactly one entry with empty inputs and the
   * registry's description.
   */
  function AddAction(selected: seq<SelectedAction>, registry: map<string, RegistryEntry>, actionName: string): (r: seq<SelectedAction>)
    ensures actionName !in registry ==> r == selected
    ensures actionName in registry ==>
      r == selected + [SelectedAction(actionName, Obj(map[]), registry[actionName].description)]
  {
    if actionName !in registry then selected
    else selected + [SelectedAction(actionName, Obj(map[]), registry[actionName].description)]
  }

  /** `s.filter((_, i) => i !== index)`. */
  function Without<T>(s: seq<T>, index: int): (r: seq<T>)
    ensures 0 <= index < |s| ==> r == s[..index] + s[index + 1..]
    ensures (index < 0 || index >= |s|) ==> r == s
    decreases |s|
  {
    if s == [] then []
    else (if index == 0 then [] else [s[0]]) + Without(s[1..], index - 1)
  }

  /**
   * `removeAction(index)` (lines 92-94): exactly the element at `index` goes,
   * the others keep their order; an index outside the list changes nothing.
   */
  function RemoveAction(selected: seq<SelectedAction>, index: int): (r: seq<SelectedAction>)
    ensures 0 <= index < |selected| ==> |r| == |selected| - 1
    ensures (index < 0 || index >= |selected|) ==> r == selected
    ensures forall i :: 0 <= i < |r| ==> r[i] == selected[if 0 <= index <= i then i + 1 else i]
  {
    Without(selected, index)
  }

  /** Removing the action just added restores the list. */
  lemma RemoveUndoesAdd(selected: seq<SelectedAction>, registry: map<string, RegistryEntry>, actionName: string)
    requires actionName in registry
    ensures RemoveAction(AddAction(selected, registry, actionName), |selected|) == selected
  {
    assert AddAction(selected, registry, actionName)[..|selected|] == selected;
  }

  /**
   * `updateActionInputs(index, inputs)` (lines 96-103) for an index of the
   * list: only that entry's inputs change.
   */
  function UpdateActionInputs(selected: seq<SelectedAction>, index: int, inputs: Value): (r: seq<SelectedAction>)
    requires index < |selected|
    ensures |r| == |selected|
    ensures 0 <= index ==>
      r[index] == SelectedAction(selected[index].name, inputs, selected[index].description)
    ensures forall i :: 0 <= i < |r| && i != index ==> r[i] == selected[i]
  {
    if index < 0 then selected else selected[index := selected[index].(inputs := inputs)]
  }

  /** Updating an entry twice keeps only the second inputs. */
  lemma UpdateLastWins(selected: seq<SelectedAction>, index: int, first: Value, second: Value)
    requires 0 <= index < |selected|
    ensures UpdateActionInputs(UpdateActionInputs(selected, index, first), index, second) ==
      UpdateActionInputs(selected, index, second)
  {
  }

  /** `selectedActions.map(action => ({ action: action.name, inputs: action.inputs }))` (lines 114-117). */
  function SavedSteps(selected: seq<SelectedAction>): (r: seq<Step>)
    decreases |selected|
  {
    if selected == [] then [] else [Step(selected[0].name, selected[0].inputs)] + SavedSteps(selected[1..])
  }

  /** The saved steps are the selected actions in the same order, with the same length. */
  lemma {:induction false} SavedStepsFollowSelection(selected: seq<SelectedAction>)
    ensures |SavedSteps(selected)| == |selected|
    ensures forall i :: 0 <= i < |selected| ==> SavedSteps(selected)[i] == Step(selected[i].name, selected[i].inputs)
    decreases |selected|
  {
    if selected != [] {
      SavedStepsFollowSelection(selected[1..]);
      var r := SavedSteps(selected);
      assert r == [Step(selected[0].name, selected[0].inputs)] + SavedSteps(selected[1..]);
      forall i | 0 <= i < |selected| ensures r[i] == Step(selected[i].name, selected[i].inputs) {
        if i > 0 {
          assert r[i] == SavedSteps(selected[1..])[i - 1];
        }
      }
    }
  }

  /**
   * The page POSTs the saved steps to the create route, which stores them as
   * they are; the run route then works through them in the page's order: its
   * records name the selected actions from the first on, one per step taken
   * (at most one per selected action), and a non-empty selection gives at
   * least one record.
   */
  lemma SavedPipelineRunsInOrder(toolId: ToolId, userId: string, selected: seq<SelectedAction>, input: Value, actions: Actions)
    ensures var t := Execute(toolId, userId, SavedSteps(selected), input, Null, actions);
      && |t.records| <= |selected|
      && (selected != [] <==> t.records != [])
      && forall i :: 0 <= i < |t.records| ==> t.records[i].step == selected[i].name
  {
    SavedStepsFollowSelection(selected);
    RecordsNameSteps(toolId, userId, SavedSteps(selected), input, Null, actions);
  }

  /** The three pieces of page state the custom-action handler updates. */
  datatype Catalog = Catalog(registry: map<string, RegistryEntry>, byCategory: map<string, seq<ActionSummary>>, categories: seq<string>)

  /** The created custom action as the server returns it; `inputKeys` is `Object.keys(inputSchema.properties)`. */
  datatype CustomAction = CustomAction(name: string, description: string, inputKeys: seq<string>)

  const CustomCategory := "custom"

  /** The categories updater (lines 175-181): 'custom' is appended only when it is absent. */
  function WithCustomCategory(categories: seq<string>): (r: seq<string>)
    ensures CustomCategory in r
    ensures CustomCategory in categories ==> r == categories
    ensures CustomCategory !in categories ==> r == categories + [CustomCategory]
  {
    if CustomCategory in categories then categories else categories + [CustomCategory]
  }

  /** Adding the category is idempotent and never introduces a duplicate. */
  lemma WithCustomCategoryIdempotent(categories: seq<string>)
    ensures WithCustomCategory(WithCustomCategory(categories)) == WithCustomCategory(categories)
    ensures NoDuplicates(categories) ==> NoDuplicates(WithCustomCategory(categories))
  {
  }

  /** The three updaters of lines 160-181 applied to the catalog. */
  function AddCustomAction(c: Catalog, a: CustomAction): (r: Catalog)
    ensures r.registry == c.registry[a.name := RegistryEntry(a.name, a.description, CustomCategory, a.inputKeys)]
    ensures r.categories == WithCustomCategory(c.categories)
    ensures r.byCategory.Keys == c.byCategory.Keys + {CustomCategory}
    ensures r.byCategory[CustomCategory] ==
      (if CustomCategory in c.byCategory then c.byCategory[CustomCategory] else []) + [ActionSummary(a.name, a.description)]
    ensures forall k :: k in c.byCategory && k != CustomCategory ==> k in r.byCategory && r.byCategory[k] == c.byCategory[k]
  {
    var previous := if CustomCategory in c.byCategory then c.byCategory[CustomCategory] else [];
    Catalog(
      c.registry[a.name := RegistryEntry(a.name, a.description, CustomCategory, a.inputKeys)],
      c.byCategory[CustomCategory := previous + [ActionSummary(a.name, a.description)]],
      WithCustomCategory(c.categories))
  }

  /**
   * Two custom actions in a row: 'custom' is listed once, the registry knows
   * both, and both are listed under 'custom' in creation order after the
   * earlier ones.
   */
  lemma {:induction false} TwoCustomActions(c: Catalog, a: CustomAction, b: CustomAction)
    requires NoDuplicates(c.categories)
    ensures var r := AddCustomAction(AddCustomAction(c, a), b);
      && r.categories == WithCustomCategory(c.categories)
      && NoDuplicates(r.categories)
      && b.name in r.registry && a.name in r.registry
      && r.byCategory[CustomCategory] ==
           (if CustomCategory in c.byCategory then c.byCategory[CustomCategory] else [])
           + [ActionSummary(a.name, a.description), ActionSummary(b.name, b.description)]
  {
    var c1 := AddCustomAction(c, a);
    WithCustomCategoryIdempotent(c.categories);
    var previous := if CustomCategory in c.byCategory then c.byCategory[CustomCategory] else [];
    assert c1.byCategory[CustomCategory] == previous + [ActionSummary(a.name, a.description)];
    assert previous + [ActionSummary(a.name, a.description)] + [ActionSummary(b.name, b.description)] ==
      previous + [ActionSummary(a.name, a.description), ActionSummary(b.name, b.description)];
  }

  /** What the POST to /api/custom-actions gave: the created action, or a failure with the server's `error` if any. */
  datatype PostOutcome = Created(action: CustomAction) | Rejected(serverError: Option<string>)

  /** The page state the handler touches. */
  datatype Page = Page(catalog: Catalog, showCustomActionForm: bool, success: Option<string>, error: Option<string>)

  const CustomActionCreated := "Custom action created successfully!"
  const CustomActionFailed := "Failed to create custom action"

  /**
   * `handleSaveCustomAction` (lines 156-188): on success the catalog is
   * extended, the form closes and the success text is set; on failure only
   * the error is set, to the server's non-empty error or the fixed text.
   */
  function HandleSaveCustomAction(p: Page, outcome: PostOutcome): (r: Page)
    ensures outcome.Created? ==>
      r == p.(catalog := AddCustomAction(p.catalog, outcome.action), showCustomActionForm := false,
               success := Some(CustomActionCreated))
    ensures outcome.Rejected? ==>
      r.catalog == p.catalog && r.showCustomActionForm == p.showCustomActionForm && r.success == p.success && r.error.Some?
    ensures outcome.Rejected? && outcome.serverError.Some? && outcome.serverError.value != "" ==>
      r.error == outcome.serverError
    ensures outcome.Rejected? && (outcome.serverError.None? || outcome.serverError.value == "") ==>
      r.error == Some(CustomActionFailed)
  {
    match outcome
    case Created(a) =>
      p.(catalog := AddCustomAction(p.catalog, a), showCustomActionForm := false, success := Some(CustomActionCreated))
    case Rejected(e) =>
      p.(error := Some(if e.Some? && e.value != "" then e.value else CustomActionFailed))
  }
}
