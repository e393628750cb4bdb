/**
 * The inline label editor of every node (src/components/Editor/nodes/BaseNode.tsx):
 * a two-field machine, `isEditing` and `editedLabel`, driven by click, typing,
 * blur and Enter. `onLabelChange` is recorded as the list of texts it was called with.
 */
module BaseNode {
  import opened Wrappers
  import opened Text

  /** The props the machine reads. */
  datatype LabelProps = LabelProps(labelText: string, isPlaybackMode: bool, hasLabelChange: bool)

  datatype LabelState = LabelState(isEditing: bool, editedLabel: string)

  datatype LabelEvent = LabelClick | IconClick | Typed(text: string) | Blur | KeyPress(key: string)

  /** The state after an event, and the text `onLabelChange` is called with, if any. */
  datatype Outcome = Outcome(state: LabelState, call: Option<string>)

  /** Mounting: not editing, the edit text equal to the label. */
  function Initial(props: LabelProps): LabelState {
    LabelState(false, props.labelText)
  }

  /** `!isPlaybackMode && onLabelChange`: the condition for both the label click and the edit icon. */
  predicate CanEdit(props: LabelProps) {
    !props.isPlaybackMode && props.hasLabelChange
  }

  /**
   * `handleLabelBlur`: editing ends; the callback gets the untrimmed text when it
   * exists and the text is not blank, and otherwise the text reverts to the label.
   */
  function BlurOutcome(s: LabelState, props: LabelProps): (r: Outcome)
    ensures !r.state.isEditing
    ensures r.call.Some? <==> props.hasLabelChange && !IsBlank(s.editedLabel)
    ensures r.call.Some? ==> r.call.value == s.editedLabel && r.state.editedLabel == s.editedLabel
    ensures r.call.None? ==> r.state.editedLabel == props.labelText
  {
    TrimEmptyIffBlank(s.editedLabel);
    if props.hasLabelChange && Trim(s.editedLabel) != "" then Outcome(LabelState(false, s.editedLabel), Some(s.editedLabel))
    else Outcome(LabelState(false, props.labelText), None)
  }

  /** An event reaches the element it is aimed at only while that element is rendered: the label and its icon when not editing, the input when editing. */
  predicate Delivered(s: LabelState, e: LabelEvent) {
    if e.LabelClick? || e.IconClick? then !s.isEditing else s.isEditing
  }

  function LabelStep(s: LabelState, props: LabelProps, e: LabelEvent): Outcome {
    if !Delivered(s, e) then Outcome(s, None)
    else
      match e
      case LabelClick => Outcome(if CanEdit(props) then s.(isEditing := true) else s, None)
      case IconClick => Outcome(if CanEdit(props) then s.(isEditing := true) else s, None)
      case Typed(text) => Outcome(s.(editedLabel := text), None)
      case Blur => BlurOutcome(s, props)
      case KeyPress(key) => if key == "Enter" then BlurOutcome(s, props) else Outcome(s, None)
  }

  /** An event aimed at an element that is not rendered changes nothing and calls nothing; so no call is ever made outside editing. */
  lemma UndeliveredIgnored(s: LabelState, props: LabelProps, e: LabelEvent)
    ensures !Delivered(s, e) ==> LabelStep(s, props, e) == Outcome(s, None)
    ensures LabelStep(s, props, e).call.Some? ==> s.isEditing && (e.Blur? || e == KeyPress("Enter"))
  {
  }

  /** Clicking starts editing exactly when editing is allowed; typing while editing changes only the edit text and never commits. */
  lemma ClickAndTyping(s: LabelState, props: LabelProps, text: string)
    requires !s.isEditing
    ensures LabelStep(s, props, LabelClick).state.isEditing <==> CanEdit(props)
    ensures LabelStep(s, props, IconClick) == LabelStep(s, props, LabelClick)
    ensures LabelStep(s, props, LabelClick).state.editedLabel == s.editedLabel
    ensures LabelStep(s.(isEditing := true), props, Typed(text)) == Outcome(LabelState(true, text), None)
  {
  }

  /** Enter in the input is a blur; any other key does nothing. */
  lemma EnterIsBlur(s: LabelState, props: LabelProps, key: string)
    requires s.isEditing
    ensures LabelStep(s, props, KeyPress(key)) == (if key == "Enter" then LabelStep(s, props, Blur) else Outcome(s, None))
  {
  }

  /** Editing then leaving the field commits the typed text exactly when it is not blank and a callback exists. */
  lemma EditThenBlur(props: LabelProps, text: string)
    requires CanEdit(props)
    ensures var s1 := LabelStep(Initial(props), props, LabelClick).state;
      var s2 := LabelStep(s1, props, Typed(text)).state;
      var r := LabelStep(s2, props, Blur);
      && s1.isEditing
      && (r.call == Some(text) <==> !IsBlank(text))
      && (IsBlank(text) ==> r.state == Initial(props))
  {
  }

  /** The label field of one node. */
  class LabelField {
    var props: LabelProps
    var isEditing: bool
    var editedLabel: string
    var calls: seq<string>

    function State(): LabelState
      reads this
    {
      LabelState(isEditing, editedLabel)
    }

    constructor (props: LabelProps)
      ensures this.props == props && State() == Initial(props) && calls == []
    {
      this.props := props;
      isEditing := false;
      editedLabel := props.labelText;
      calls := [];
    }

    /** New props on a re-render: the edit text is not reset from the new label. */
    method Rerender(props: LabelProps)
      modifies this
      ensures this.props == props && State() == old(State()) && calls == old(calls)
    {
      this.props := props;
    }

    method Handle(e: LabelEvent)
      modifies this
      ensures var r := LabelStep(old(State()), old(props), e);
        State() == r.state && calls == old(calls) + (if r.call.Some? then [r.call.value] else [])
      ensures props == old(props)
    {
      match e {
        case LabelClick =>
          if !isEditing && !props.isPlaybackMode && props.hasLabelChange {
            isEditing := true;
          }
        case IconClick =>
          if !isEditing && !props.isPlaybackMode && props.hasLabelChange {
            isEditing := true;
          }
        case Typed(text) =>
          if isEditing {
            editedLabel := text;
          }
        case Blur =>
          if isEditing {
            HandleBlur();
          }
        case KeyPress(key) =>
          if isEditing && key == "Enter" {
            HandleBlur();
          }
      }
    }

    /** `handleLabelBlur`. */
    method HandleBlur()
      modifies this
      ensures var r := BlurOutcome(old(State()), old(props));
        State() == r.state && calls == old(calls) + (if r.call.Some? then [r.call.value] else [])
      ensures props == old(props)
    {
      isEditing := false;
      if props.hasLabelChange && Trim(editedLabel) != "" {
        calls := calls + [editedLabel];
      } else {
        editedLabel := props.labelText;
      }
    }
  }
}
