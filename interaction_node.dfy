/**
 * The interaction node's button list and its button editor dialog
 * (src/components/Editor/nodes/InteractionNode.tsx).
 *
 * The node's handlers assign `data.buttons` in place; the dialog keeps its own
 * copy of one button and changes it field by field until Save hands it back.
 */
module InteractionNode {
  import opened Wrappers
  import opened Text
  import opened Seqs
  import opened NodeTypes

  const DefaultLabel := "Nouveau bouton"
  const DefaultStyle := ButtonStyle(Some("#ffffff"), Some("#000000"), Some("4px"), Some("14px"))
  const NoStyle := ButtonStyle(None, None, None, None)

  /** The button `handleAddButton` creates at time `now` (`Date.now()`). */
  function NewButton(now: nat): InteractionButton {
    InteractionButton("button-" + NatToString(now), DefaultLabel, None, Some(DefaultStyle),
      Some(ButtonPosition(50, 50)), Some(Alignment(Some(HCenter), Some(VCenter))))
  }

  // ------------------------------------------------------------------
  // The list operations
  // ------------------------------------------------------------------

  /** `[...(buttons || []), b]`: one button more, at the end; a missing list counts as empty. */
  function AppendButton(buttons: Option<seq<InteractionButton>>, b: InteractionButton): (r: seq<InteractionButton>)
    ensures |r| == |buttons.GetOr([])| + 1
    ensures r[..|r| - 1] == buttons.GetOr([]) && r[|r| - 1] == b
  {
    buttons.GetOr([]) + [b]
  }

  /** `buttons.map(b => b.id === edited.id ? edited : b)`. */
  function ReplaceById(buttons: seq<InteractionButton>, edited: InteractionButton): (r: seq<InteractionButton>)
    ensures |r| == |buttons|
    ensures forall i :: 0 <= i < |buttons| && buttons[i].id == edited.id ==> r[i] == edited
    ensures forall i :: 0 <= i < |buttons| && buttons[i].id != edited.id ==> r[i] == buttons[i]
    decreases |buttons|
  {
    if buttons == [] then []
    else [if buttons[0].id == edited.id then edited else buttons[0]] + ReplaceById(buttons[1..], edited)
  }

  /** Replacing keeps the id sequence, and with no matching id it changes nothing. */
  lemma ReplaceByIdKeepsIds(buttons: seq<InteractionButton>, edited: InteractionButton)
    ensures var r := ReplaceById(buttons, edited);
      (forall i :: 0 <= i < |r| ==> r[i].id == buttons[i].id)
      && ((forall i :: 0 <= i < |buttons| ==> buttons[i].id != edited.id) ==> r == buttons)
      && ((exists i :: 0 <= i < |buttons| && buttons[i].id == edited.id) ==> edited in r)
  {
  }

  /** Saving the same button twice is saving it once. */
  lemma ReplaceByIdIdempotent(buttons: seq<InteractionButton>, edited: InteractionButton)
    ensures ReplaceById(ReplaceById(buttons, edited), edited) == ReplaceById(buttons, edited)
  {
  }

  /** `buttons.filter(b => b.id !== id)`. */
  function RemoveById(buttons: seq<InteractionButton>, id: string): seq<InteractionButton> {
    Filter((b: InteractionButton) => b.id != id, buttons)
  }

  /** Deleting removes every button with the id, keeps every other one in order, and with an absent id changes nothing. */
  lemma RemoveByIdSpec(buttons: seq<InteractionButton>, id: string)
    ensures var r := RemoveById(buttons, id);
      && (forall i :: 0 <= i < |r| ==> r[i].id != id && r[i] in buttons)
      && (forall i :: 0 <= i < |buttons| && buttons[i].id != id ==> buttons[i] in r)
      && (forall i :: 0 <= i < |buttons| ==>
            multiset(r)[buttons[i]] == if buttons[i].id != id then multiset(buttons)[buttons[i]] else 0)
      && Subsequence(r, buttons)
      && ((forall i :: 0 <= i < |buttons| ==> buttons[i].id != id) ==> r == buttons)
  {
    if forall i :: 0 <= i < |buttons| ==> buttons[i].id != id {
      FilterAll((b: InteractionButton) => b.id != id, buttons);
    }
  }

  // ------------------------------------------------------------------
  // The button editor's field updates and shown values
  // ------------------------------------------------------------------

  /** One change made in the dialog: the text field, a slider, a select or a colour picker. */
  datatype ButtonEdit =
    | SetLabel(text: string)
    | SetX(x: int)
    | SetY(y: int)
    | SetHorizontal(horizontal: HorizontalAlign)
    | SetVertical(vertical: VerticalAlign)
    | SetFontSize(fontPx: int)
    | SetBorderRadius(radiusPx: int)
    | SetBackground(backgroundHex: string)
    | SetTextColor(textHex: string)

  /** The values the sliders can produce: position 0 to 100, font size 12 to 32, radius 0 to 20. */
  predicate SliderRange(e: ButtonEdit) {
    match e
    case SetX(x) => 0 <= x <= 100
    case SetY(y) => 0 <= y <= 100
    case SetFontSize(v) => 12 <= v <= 32
    case SetBorderRadius(v) => 0 <= v <= 20
    case _ => true
  }

  /** `"<v>px"`, as a slider writes a size back. */
  function Px(v: int): string {
    IntToString(v) + "px"
  }

  /** A size written back by a slider reads back as the slider's value. */
  lemma PxParses(v: int)
    ensures Px(v) != "" && ParseInt(Px(v)) == Some(v)
  {
    ParseIntOfRenderedInt(v, "px");
  }

  /** `{ ...(position || { y: 50 }), x }`. */
  function WithX(p: Option<ButtonPosition>, x: int): ButtonPosition {
    ButtonPosition(x, if p.Some? then p.value.y else 50)
  }

  /** `{ ...(position || { x: 50 }), y }`. */
  function WithY(p: Option<ButtonPosition>, y: int): ButtonPosition {
    ButtonPosition(if p.Some? then p.value.x else 50, y)
  }

  /** `{ ...(alignment || { vertical: 'center' }), horizontal }`. */
  function WithHorizontal(a: Option<Alignment>, h: HorizontalAlign): Alignment {
    Alignment(Some(h), if a.Some? then a.value.vertical else Some(VCenter))
  }

  /** `{ ...(alignment || { horizontal: 'center' }), vertical }`. */
  function WithVertical(a: Option<Alignment>, v: VerticalAlign): Alignment {
    Alignment(if a.Some? then a.value.horizontal else Some(HCenter), Some(v))
  }

  /** `{ ...style }`, an absent style spreading as `{}`. */
  function StyleOf(b: InteractionButton): ButtonStyle {
    b.style.GetOr(NoStyle)
  }

  /** The edited copy after one change. */
  function ApplyEdit(b: InteractionButton, e: ButtonEdit): InteractionButton {
    match e
    case SetLabel(text) => b.(labelText := text)
    case SetX(x) => b.(position := Some(WithX(b.position, x)))
    case SetY(y) => b.(position := Some(WithY(b.position, y)))
    case SetHorizontal(h) => b.(alignment := Some(WithHorizontal(b.alignment, h)))
    case SetVertical(v) => b.(alignment := Some(WithVertical(b.alignment, v)))
    case SetFontSize(v) => b.(style := Some(StyleOf(b).(fontSize := Some(Px(v)))))
    case SetBorderRadius(v) => b.(style := Some(StyleOf(b).(borderRadius := Some(Px(v)))))
    case SetBackground(hex) => b.(style := Some(StyleOf(b).(backgroundColor := Some(hex))))
    case SetTextColor(hex) => b.(style := Some(StyleOf(b).(textColor := Some(hex))))
  }

  /** `position?.x || 50`: an absent or zero x shows as 50. */
  function ShownX(b: InteractionButton): int {
    if b.position.Some? && b.position.value.x != 0 then b.position.value.x else 50
  }

  /** `position?.y || 50`. */
  function ShownY(b: InteractionButton): int {
    if b.position.Some? && b.position.value.y != 0 then b.position.value.y else 50
  }

  /** `alignment?.horizontal || 'center'`. */
  function ShownHorizontal(b: InteractionButton): HorizontalAlign {
    if b.alignment.Some? && b.alignment.value.horizontal.Some? then b.alignment.value.horizontal.value else HCenter
  }

  /** `alignment?.vertical || 'center'`. */
  function ShownVertical(b: InteractionButton): VerticalAlign {
    if b.alignment.Some? && b.alignment.value.vertical.Some? then b.alignment.value.vertical.value else VCenter
  }

  /** `style?.fontSize || '14'`: the text the font size slider reads. */
  function FontSizeText(b: InteractionButton): string {
    if Truthy(StyleOf(b).fontSize) then StyleOf(b).fontSize.value else "14"
  }

  /** `parseInt(style?.fontSize || '14')`; `None` is `NaN`. */
  function ShownFontSize(b: InteractionButton): Option<int> {
    ParseInt(FontSizeText(b))
  }

  /** `style?.borderRadius || '4'`: the text the radius slider reads. */
  function BorderRadiusText(b: InteractionButton): string {
    if Truthy(StyleOf(b).borderRadius) then StyleOf(b).borderRadius.value else "4"
  }

  /** `parseInt(style?.borderRadius || '4')`. */
  function ShownBorderRadius(b: InteractionButton): Option<int> {
    ParseInt(BorderRadiusText(b))
  }

  /** `style?.backgroundColor || '#ffffff'`. */
  function ShownBackground(b: InteractionButton): string {
    if Truthy(StyleOf(b).backgroundColor) then StyleOf(b).backgroundColor.value else "#ffffff"
  }

  /** `style?.textColor || '#000000'`. */
  function ShownTextColor(b: InteractionButton): string {
    if Truthy(StyleOf(b).textColor) then StyleOf(b).textColor.value else "#000000"
  }

  /**
   * What the dialog's controls read for a button, together, to state what one
   * edit leaves alone; the two sliders read the texts their `parseInt` parses.
   */
  datatype Shown = Shown(x: int, y: int, horizontal: HorizontalAlign, vertical: VerticalAlign,
                         fontSizeText: string, borderRadiusText: string, background: string, textColor: string)

  function ShownOf(b: InteractionButton): Shown {
    Shown(ShownX(b), ShownY(b), ShownHorizontal(b), ShownVertical(b),
          FontSizeText(b), BorderRadiusText(b), ShownBackground(b), ShownTextColor(b))
  }

  /**
   * A new button shows the same values the dialog shows for a button with no
   * settings: position 50/50, centred, font 14, radius 4, white on black.
   */
  lemma NewButtonShowsDefaults(now: nat)
    ensures ShownOf(NewButton(now)) == Shown(50, 50, HCenter, VCenter, "14px", "4px", "#ffffff", "#000000")
    ensures var bare := NewButton(now).(style := None, position := None, alignment := None);
      && ShownOf(bare) == Shown(50, 50, HCenter, VCenter, "14", "4", "#ffffff", "#000000")
      && ShownFontSize(NewButton(now)) == ShownFontSize(bare) == Some(14)
      && ShownBorderRadius(NewButton(now)) == ShownBorderRadius(bare) == Some(4)
  {
    DefaultFontSizeParses();
    DefaultRadiusParses();
  }

  /** The default font size, with or without its unit, reads back as 14. */
  lemma DefaultFontSizeParses()
    ensures ParseInt("14px") == Some(14) && ParseInt("14") == Some(14)
  {
    var text := NatToString(14);
    assert text == "14";
    ParseIntOfRendered(14, "px");
    ParseIntOfRendered(14, "");
    assert text + "px" == "14px";
    assert text + "" == "14";
  }

  /** The default border radius, with or without its unit, reads back as 4. */
  lemma DefaultRadiusParses()
    ensures ParseInt("4px") == Some(4) && ParseInt("4") == Some(4)
  {
    var text := NatToString(4);
    assert text == "4";
    ParseIntOfRendered(4, "px");
    ParseIntOfRendered(4, "");
    assert text + "px" == "4px";
    assert text + "" == "4";
  }

  /** No edit changes the id, so Save replaces the button the dialog was opened on. */
  lemma EditKeepsId(b: InteractionButton, e: ButtonEdit)
    ensures ApplyEdit(b, e).id == b.id
    ensures ApplyEdit(b, e).targetNodeId == b.targetNodeId
  {
  }

  /**
   * Each edit is read back by its own control (a zero position reads as 50, a
   * size written as `<v>px` parses back to `v`) and leaves every other shown
   * value as it was.
   */
  lemma EditShowsValue(b: InteractionButton, e: ButtonEdit)
    ensures var before := ShownOf(b);
      var after := ShownOf(ApplyEdit(b, e));
      match e
      case SetLabel(text) => after == before && ApplyEdit(b, e).labelText == text
      case SetX(x) => after == before.(x := if x == 0 then 50 else x)
      case SetY(y) => after == before.(y := if y == 0 then 50 else y)
      case SetHorizontal(h) => after == before.(horizontal := h)
      case SetVertical(v) => after == before.(vertical := v)
      case SetFontSize(v) => after == before.(fontSizeText := Px(v)) && ShownFontSize(ApplyEdit(b, e)) == Some(v)
      case SetBorderRadius(v) => after == before.(borderRadiusText := Px(v)) && ShownBorderRadius(ApplyEdit(b, e)) == Some(v)
      case SetBackground(hex) => after == before.(background := if hex == "" then "#ffffff" else hex)
      case SetTextColor(hex) => after == before.(textColor := if hex == "" then "#000000" else hex)
  {
    match e {
      case SetFontSize(v) => FontSizeParses(b, v);
      case SetBorderRadius(v) => BorderRadiusParses(b, v);
      case _ =>
    }
  }

  /** After the font slider writes `v`, the slider reads `v`. */
  lemma FontSizeParses(b: InteractionButton, v: int)
    ensures ShownFontSize(ApplyEdit(b, SetFontSize(v))) == Some(v)
  {
    PxParses(v);
    assert FontSizeText(ApplyEdit(b, SetFontSize(v))) == Px(v);
  }

  /** After the radius slider writes `v`, the slider reads `v`. */
  lemma BorderRadiusParses(b: InteractionButton, v: int)
    ensures ShownBorderRadius(ApplyEdit(b, SetBorderRadius(v))) == Some(v)
  {
    PxParses(v);
    assert BorderRadiusText(ApplyEdit(b, SetBorderRadius(v))) == Px(v);
  }

  /** A value a slider produces is shown within that slider's range (a zero position showing as 50). */
  lemma SlidersShowInRange(b: InteractionButton, e: ButtonEdit)
    requires SliderRange(e)
    ensures var edited := ApplyEdit(b, e);
      match e
      case SetX(_) => 1 <= ShownX(edited) <= 100
      case SetY(_) => 1 <= ShownY(edited) <= 100
      case SetFontSize(_) => ShownFontSize(edited).Some? && 12 <= ShownFontSize(edited).value <= 32
      case SetBorderRadius(_) => ShownBorderRadius(edited).Some? && 0 <= ShownBorderRadius(edited).value <= 20
      case _ => true
  {
    EditShowsValue(b, e);
  }

  // ------------------------------------------------------------------
  // The timing caption
  // ------------------------------------------------------------------

  const AtEndText := "Fin de la vidéo"
  const DurationPrefix := "Durée: "

  /** `${n}` for an optional number: a missing one renders as `undefined`. */
  function OptionalNumberText(n: Option<int>): string {
    if n.Some? then IntToString(n.value) else "undefined"
  }

  /**
   * The timing line. Reading `data.timing.showAtEnd` throws when the node has
   * no timing; otherwise 'Fin de la vidéo' or the start time followed by 's'.
   */
  function TimingText(timing: Option<Timing>): (r: Result<string>)
    ensures r.Err? <==> timing.None?
    ensures r.Ok? ==> (timing.value.showAtEnd <==> r.value == AtEndText)
    ensures r.Ok? && !timing.value.showAtEnd ==>
      |r.value| > 0 && r.value[|r.value| - 1] == 's' && ParseInt(r.value) == timing.value.showAtTime
  {
    if timing.None? then Err("TypeError: Cannot read properties of undefined (reading 'showAtEnd')")
    else if timing.value.showAtEnd then Ok(AtEndText)
    else
      var text := OptionalNumberText(timing.value.showAtTime) + "s";
      assert text[|text| - 1] == 's';
      if timing.value.showAtTime.Some? then
        ParseIntOfRenderedInt(timing.value.showAtTime.value, "s");
        Ok(text)
      else
        assert text == "undefineds";
        assert LeadingDigits(text) == [];
        Ok(text)
  }

  /** The duration line, shown only when `duration` is truthy (present and non-zero) and then carrying that number. */
  function DurationText(timing: Timing): (r: Option<string>)
    ensures r.Some? <==> timing.duration.Some? && timing.duration.value != 0
    ensures r.Some? ==> DurationPrefix <= r.value && ParseInt(r.value[|DurationPrefix|..]) == timing.duration
  {
    if timing.duration.Some? && timing.duration.value != 0 then
      var text := DurationPrefix + IntToString(timing.duration.value) + "s";
      assert text[|DurationPrefix|..] == IntToString(timing.duration.value) + "s";
      ParseIntOfRenderedInt(timing.duration.value, "s");
      Some(text)
    else None
  }

  // ------------------------------------------------------------------
  // The components
  // ------------------------------------------------------------------

  /** The node: `data.buttons` (changed in place) and the button being edited, if any. */
  class InteractionNodeView {
    var buttons: Option<seq<InteractionButton>>
    var editingButton: Option<InteractionButton>

    constructor (buttons: Option<seq<InteractionButton>>)
      ensures this.buttons == buttons && editingButton == None
    {
      this.buttons := buttons;
      editingButton := None;
    }

    /** `handleAddButton`, at time `now`. */
    method HandleAddButton(now: nat)
      modifies this
      ensures buttons == Some(AppendButton(old(buttons), NewButton(now)))
      ensures editingButton == old(editingButton)
    {
      buttons := Some(AppendButton(buttons, NewButton(now)));
    }

    /** The edit icon of a button: opens the dialog on it. */
    method StartEditing(button: InteractionButton)
      modifies this
      ensures editingButton == Some(button) && buttons == old(buttons)
    {
      editingButton := Some(button);
    }

    /**
     * `handleSaveButton`: replaces by id and closes the dialog. With no list
     * `data.buttons.map` throws, and then nothing changes.
     */
    method HandleSaveButton(edited: InteractionButton) returns (thrown: bool)
      modifies this
      ensures thrown <==> old(buttons).None?
      ensures thrown ==> buttons == old(buttons) && editingButton == old(editingButton)
      ensures !thrown ==> buttons == Some(ReplaceById(old(buttons).value, edited)) && editingButton == None
    {
      if buttons.None? {
        return true;
      }
      buttons := Some(ReplaceById(buttons.value, edited));
      editingButton := None;
      return false;
    }

    /** The dialog's Cancel (and its close): the list is not touched. */
    method CloseEditor()
      modifies this
      ensures editingButton == None && buttons == old(buttons)
    {
      editingButton := None;
    }

    /** `handleDeleteButton`; with no list `data.buttons.filter` throws, and then nothing changes. */
    method HandleDeleteButton(id: string) returns (thrown: bool)
      modifies this
      ensures thrown <==> old(buttons).None?
      ensures thrown ==> buttons == old(buttons)
      ensures !thrown ==> buttons == Some(RemoveById(old(buttons).value, id))
      ensures editingButton == old(editingButton)
    {
      if buttons.None? {
        return true;
      }
      buttons := Some(RemoveById(buttons.value, id));
      return false;
    }
  }

  /** The dialog: a copy of the button, changed field by field. */
  class ButtonEditor {
    var editedButton: InteractionButton

    constructor (button: InteractionButton)
      ensures editedButton == button
    {
      editedButton := button;
    }

    /** One control's `onChange`. */
    method Edit(e: ButtonEdit)
      modifies this
      ensures editedButton == ApplyEdit(old(editedButton), e)
    {
      editedButton := ApplyEdit(editedButton, e);
    }

    /** What Save hands to `onSave`: the copy, with the id of the button it was opened on. */
    method Save() returns (saved: InteractionButton)
      ensures saved == editedButton
    {
      saved := editedButton;
    }
  }

  /** Any sequence of dialog edits keeps the id, so saving the result replaces the original button and no other. */
  lemma {:induction false} EditsKeepId(b: InteractionButton, edits: seq<ButtonEdit>)
    ensures ApplyEdits(b, edits).id == b.id
    decreases |edits|
  {
    if edits != [] {
      EditKeepsId(b, edits[0]);
      EditsKeepId(ApplyEdit(b, edits[0]), edits[1..]);
    }
  }

  function ApplyEdits(b: InteractionButton, edits: seq<ButtonEdit>): InteractionButton
    decreases |edits|
  {
    if edits == [] then b else ApplyEdits(ApplyEdit(b, edits[0]), edits[1..])
  }

  /** Opening the dialog on a listed button, editing it and saving changes that button alone and keeps the list's ids. */
  lemma EditAndSave(buttons: seq<InteractionButton>, index: nat, edits: seq<ButtonEdit>)
    requires index < |buttons|
    requires forall j :: 0 <= j < |buttons| && j != index ==> buttons[j].id != buttons[index].id
    ensures var r := ReplaceById(buttons, ApplyEdits(buttons[index], edits));
      |r| == |buttons| && r[index] == ApplyEdits(buttons[index], edits)
      && forall j :: 0 <= j < |buttons| && j != index ==> r[j] == buttons[j]
  {
    EditsKeepId(buttons[index], edits);
  }
}
