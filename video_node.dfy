/**
 * The video node (src/components/Editor/nodes/VideoNode.tsx): no state of its
 * own, only forwarding to the callbacks in its data and conditional rendering
 * on `isPlaybackMode` and `videoUrl`.
 */
module VideoNode {
  import opened Wrappers
  import opened Text
  import opened NodeTypes
  import BaseNode
  import ScenarioEditor

  /**
   * `handleDataChange(updates)`: the call made on `onDataChange` (the node id it
   * is bound to, and the argument), or none without a callback. The argument is
   * the updates with `id` set to this node's id, whatever the updates held.
   */
  function HandleDataChange(data: NodeData, nodeId: string, updates: NodeData): (r: Option<(string, NodeData)>)
    ensures r.Some? <==> data.onDataChange.Some?
    ensures r.Some? ==> r.value.0 == data.onDataChange.value
    ensures r.Some? ==> r.value.1.id == Some(nodeId) && r.value.1.(id := updates.id) == updates
  {
    if data.onDataChange.Some? then Some((data.onDataChange.value, updates.(id := Some(nodeId)))) else None
  }

  /** `handleCreateInteraction`: the node id goes to `onCreateInteraction` exactly when that callback exists. */
  function HandleCreateInteraction(hasCreateInteraction: bool, nodeId: string): (r: Option<string>)
    ensures r.Some? <==> hasCreateInteraction
    ensures r.Some? ==> r.value == nodeId
  {
    if hasCreateInteraction then Some(nodeId) else None
  }

  /** `{ label: newLabel }`. */
  function LabelUpdate(newLabel: string): NodeData {
    EmptyData.(labelText := Some(newLabel))
  }

  /** The props the node gives its `BaseNode`: `onLabelChange` only outside playback. */
  function LabelProps(data: NodeData): (p: BaseNode.LabelProps)
    ensures p.hasLabelChange <==> !IsSet(data.isPlaybackMode)
    ensures BaseNode.CanEdit(p) <==> !IsSet(data.isPlaybackMode)
  {
    BaseNode.LabelProps(data.labelText.GetOr(""), IsSet(data.isPlaybackMode), !IsSet(data.isPlaybackMode))
  }

  /** What a render shows. */
  datatype VideoView = VideoView(
    player: bool,
    playerControls: bool,
    videoClickHandler: bool,
    placeholder: bool,
    addInteraction: bool)

  function View(data: NodeData): (v: VideoView)
    ensures v.player <==> Truthy(data.videoUrl)
    ensures v.placeholder <==> !Truthy(data.videoUrl) && !IsSet(data.isPlaybackMode)
    ensures !(v.player && v.placeholder)
    ensures v.playerControls <==> v.player && IsSet(data.isPlaybackMode)
    ensures v.videoClickHandler <==> v.player && !IsSet(data.isPlaybackMode)
    ensures v.addInteraction <==> !IsSet(data.isPlaybackMode)
  {
    var playback := IsSet(data.isPlaybackMode);
    var player := Truthy(data.videoUrl);
    VideoView(player, player && playback, player && !playback, !player && !playback, !playback)
  }

  /** `button.targetNodeId || ''`. */
  function ButtonClickTarget(b: InteractionButton): (target: string)
    ensures Truthy(b.targetNodeId) ==> target == b.targetNodeId.value
    ensures !Truthy(b.targetNodeId) ==> target == ""
  {
    b.targetNodeId.GetOr("")
  }

  /**
   * An overlay button can be clicked: the player is shown, it was handed a
   * button list holding `b`, and the node is not in playback, where every
   * icon button of the node takes no pointer events.
   */
  predicate OverlayClickable(data: NodeData, b: InteractionButton) {
    Truthy(data.videoUrl) && data.buttons.Some? && b in data.buttons.value && !IsSet(data.isPlaybackMode)
  }

  /** A click on an overlay button: `onNavigate?.(target)`, the player being handed `data.onNavigate`; none when the button cannot be clicked. */
  function ButtonClick(data: NodeData, b: InteractionButton): (call: Option<string>)
    ensures call.Some? <==> data.onNavigate.Some? && View(data).player && !IsSet(data.isPlaybackMode)
                            && data.buttons.Some? && b in data.buttons.value
    ensures call.Some? ==> call.value == ButtonClickTarget(b)
    ensures IsSet(data.isPlaybackMode) ==> call.None?
  {
    if OverlayClickable(data, b) && data.onNavigate.Some? then Some(ButtonClickTarget(b)) else None
  }

  /**
   * Renaming a video node end to end: the label field commits the text, the node
   * forwards it with its id, and the editor stores it in that node and no other.
   */
  lemma RenameReachesEditor(s: ScenarioEditor.EditorState, index: nat, text: string)
    requires index < |s.nodes|
    requires s.nodes[index].data.onDataChange == Some(s.nodes[index].id)
    requires !IsSet(s.nodes[index].data.isPlaybackMode) && !IsBlank(text)
    ensures var node := s.nodes[index];
      var props := LabelProps(node.data);
      var editing := BaseNode.LabelStep(BaseNode.Initial(props), props, BaseNode.LabelClick).state;
      var typed := BaseNode.LabelStep(editing, props, BaseNode.Typed(text)).state;
      var committed := BaseNode.LabelStep(typed, props, BaseNode.Blur).call;
      && committed == Some(text)
      && var call := HandleDataChange(node.data, node.id, LabelUpdate(text));
      && call.Some?
      && var t := ScenarioEditor.Step(s, ScenarioEditor.DataChange(call.value.0, call.value.1));
      && t.nodes[index].data.labelText == Some(text)
      && t.nodes[index].data.id == Some(node.id)
      && forall j :: 0 <= j < |s.nodes| && s.nodes[j].id != node.id ==> t.nodes[j] == s.nodes[j]
  {
    BaseNode.EditThenBlur(LabelProps(s.nodes[index].data), text);
  }
}
