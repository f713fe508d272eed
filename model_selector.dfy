/** `ModelSelector` of static/scripts/modelSelector.js: the stored model
    choice (`localStorage["selected_model"]`), the thinking toggle that
    saves and restores it, the dropdown, and the `data-selected` marks on
    the model buttons. The DOM is reduced to the values the handlers read
    and write. */
module ModelSelector {
  import opened Outcomes
  import opened ChatTypes

  const ThinkingModel := "gemini-2.0-flash-thinking-exp-01-21"

  /** A dropdown entry: its `data-model-id` and the text of its label. */
  datatype ModelButton = ModelButton(modelId: string, caption: string)

  /** The label of the last button whose id is `modelId`, or `current` when
      there is none: the name `updateSelectedModel` leaves displayed. */
  function LastMatchLabel(buttons: seq<ModelButton>, modelId: string, current: string): (name: string)
    ensures (forall i :: 0 <= i < |buttons| ==> buttons[i].modelId != modelId) ==> name == current
    ensures (exists i :: 0 <= i < |buttons| && buttons[i].modelId == modelId) ==>
      exists i :: 0 <= i < |buttons| && buttons[i].modelId == modelId && name == buttons[i].caption
        && forall j :: i < j < |buttons| ==> buttons[j].modelId != modelId
  {
    if buttons == [] then current
    else
      var last := buttons[|buttons| - 1];
      if last.modelId == modelId then last.caption
      else LastMatchLabel(buttons[..|buttons| - 1], modelId, current)
  }

  /** The `data-selected` mark of every button for a given model id. */
  function Marks(buttons: seq<ModelButton>, modelId: string): (marks: seq<bool>)
    ensures |marks| == |buttons|
    ensures forall i :: 0 <= i < |buttons| ==> (marks[i] <==> buttons[i].modelId == modelId)
  {
    seq(|buttons|, i requires 0 <= i < |buttons| => buttons[i].modelId == modelId)
  }

  class Selector {
    /** `localStorage.getItem("selected_model")`. */
    var stored: Option<string>
    var previousModel: Option<string>
    /** The think toggle has the `active` class. */
    var thinking: bool
    /** The dropdown has the `hidden` class. */
    var dropdownHidden: bool
    const buttons: seq<ModelButton>
    /** `button.dataset.selected` of each button, in document order. */
    var selected: seq<bool>
    /** The text of the selected-model-name element. */
    var selectedName: string

    ghost predicate Valid()
      reads this
    {
      |selected| == |buttons|
    }

    /** `getCurrentModel`: the stored choice, or the default model when none
        (or an empty one) is stored. */
    function GetCurrentModel(): (m: string)
      reads this
      ensures m != ""
      ensures stored.Some? && stored.value != "" ==> m == stored.value
      ensures stored.None? || stored.value == "" ==> m == DefaultModel
    {
      OrElse(stored, DefaultModel)
    }

    /** The constructor and `init`: marks the buttons for the current model. */
    constructor (buttons: seq<ModelButton>, stored: Option<string>, name: string, dropdownHidden: bool)
      ensures Valid()
      ensures this.buttons == buttons && this.stored == stored && previousModel.None? && !thinking
      ensures this.dropdownHidden == dropdownHidden
      ensures selected == Marks(buttons, OrElse(stored, DefaultModel))
      ensures selectedName == LastMatchLabel(buttons, OrElse(stored, DefaultModel), name)
    {
      this.buttons := buttons;
      this.stored := stored;
      previousModel := None;
      thinking := false;
      this.dropdownHidden := dropdownHidden;
      selected := seq(|buttons|, i => false);
      selectedName := name;
      new;
      UpdateSelectedModel(GetCurrentModel());
    }

    /** `setCurrentModel`: stores the choice. */
    method SetCurrentModel(modelId: string)
      modifies this
      ensures stored == Some(modelId)
      ensures GetCurrentModel() == (if modelId != "" then modelId else DefaultModel)
      ensures previousModel == old(previousModel) && thinking == old(thinking)
      ensures dropdownHidden == old(dropdownHidden) && selected == old(selected) && selectedName == old(selectedName)
    {
      stored := Some(modelId);
    }

    /** `updateSelectedModel`: walks the buttons in order, marking exactly
        those whose id is `modelId`; each marked one puts its label in the
        name element, so the last such label stays. */
    method UpdateSelectedModel(modelId: string)
      requires |selected| == |buttons|
      modifies this
      ensures selected == Marks(buttons, modelId)
      ensures selectedName == LastMatchLabel(buttons, modelId, old(selectedName))
      ensures stored == old(stored) && previousModel == old(previousModel)
      ensures thinking == old(thinking) && dropdownHidden == old(dropdownHidden)
    {
      var i := 0;
      while i < |buttons|
        invariant 0 <= i <= |buttons| && |selected| == |buttons|
        invariant forall j :: 0 <= j < i ==> (selected[j] <==> buttons[j].modelId == modelId)
        invariant forall j :: i <= j < |buttons| ==> selected[j] == old(selected)[j]
        invariant selectedName == LastMatchLabel(buttons[..i], modelId, old(selectedName))
        invariant stored == old(stored) && previousModel == old(previousModel)
        invariant thinking == old(thinking) && dropdownHidden == old(dropdownHidden)
      {
        var isSelected := buttons[i].modelId == modelId;
        selected := selected[i := isSelected];
        assert buttons[..i + 1][..i] == buttons[..i];
        if isSelected {
          selectedName := buttons[i].caption;
        }
        i := i + 1;
      }
      assert buttons[..i] == buttons;
    }

    /** A click on the think toggle: flips `active`; switching on saves the
        current model and selects the thinking model, switching off restores
        the saved model, or the default one when none was saved. */
    method ToggleThink()
      requires Valid()
      modifies this
      ensures Valid()
      ensures thinking == !old(thinking)
      ensures thinking ==> previousModel == Some(old(GetCurrentModel())) && stored == Some(ThinkingModel)
      ensures !thinking ==> previousModel == old(previousModel) && stored == Some(OrElse(old(previousModel), DefaultModel))
      ensures selected == Marks(buttons, stored.value)
      ensures selectedName == LastMatchLabel(buttons, stored.value, old(selectedName))
      ensures dropdownHidden == old(dropdownHidden)
    {
      thinking := !thinking;
      if thinking {
        previousModel := Some(GetCurrentModel());
        UpdateSelectedModel(ThinkingModel);
        SetCurrentModel(ThinkingModel);
      } else {
        var modelToRestore := OrElse(previousModel, DefaultModel);
        UpdateSelectedModel(modelToRestore);
        SetCurrentModel(modelToRestore);
      }
    }

    /** A click on the selector button: shows or hides the dropdown. */
    method ToggleDropdown()
      modifies this
      ensures dropdownHidden == !old(dropdownHidden)
      ensures stored == old(stored) && previousModel == old(previousModel) && thinking == old(thinking)
      ensures selected == old(selected) && selectedName == old(selectedName)
    {
      dropdownHidden := !dropdownHidden;
    }

    /** A click in the dropdown: on an entry (`target` is the id of the
        nearest element with `data-model-id`), that model is marked, stored,
        and the dropdown is hidden; elsewhere nothing changes. */
    method SelectFromDropdown(target: Option<string>)
      requires Valid()
      modifies this
      ensures Valid()
      ensures target.None? ==>
        stored == old(stored) && dropdownHidden == old(dropdownHidden)
        && selected == old(selected) && selectedName == old(selectedName)
      ensures target.Some? ==>
        stored == Some(target.value) && dropdownHidden && selected == Marks(buttons, target.value)
        && selectedName == LastMatchLabel(buttons, target.value, old(selectedName))
      ensures previousModel == old(previousModel) && thinking == old(thinking)
    {
      if target.Some? {
        UpdateSelectedModel(target.value);
        SetCurrentModel(target.value);
        dropdownHidden := true;
      }
    }

    /** Switching thinking on and then off again gives back the model chosen
        before, and marks its buttons again. */
    method ThinkOnThenOff()
      requires Valid() && !thinking
      modifies this
      ensures Valid() && !thinking
      ensures GetCurrentModel() == old(GetCurrentModel())
      ensures selected == Marks(buttons, old(GetCurrentModel()))
    {
      ToggleThink();
      ToggleThink();
    }
  }
}
