/**
 * The scenario-graph data: the declared node types and node-data variants of
 * src/types/nodes.ts, and the runtime node record that the editor components
 * actually read and write (`data.buttons`, `data.timing`, `data.onNavigate`,
 * the injected callbacks), which the declared interfaces do not list.
 */
module NodeTypes {
  import opened Wrappers

  /** `NodeType`: exactly one of five kinds. */
  datatype NodeType = TextNode | VideoNode | InteractionNode | VoucherNode | RewardNode

  function NodeTypeName(t: NodeType): string {
    match t
    case TextNode => "text"
    case VideoNode => "video"
    case InteractionNode => "interaction"
    case VoucherNode => "voucher"
    case RewardNode => "reward"
  }

  /** The kind a type string names, if any: the inverse of `NodeTypeName`. */
  function ParseNodeType(s: string): (r: Option<NodeType>)
    ensures r.Some? <==> s in {"text", "video", "interaction", "voucher", "reward"}
    ensures r.Some? ==> NodeTypeName(r.value) == s
  {
    if s == "text" then Some(TextNode)
    else if s == "video" then Some(VideoNode)
    else if s == "interaction" then Some(InteractionNode)
    else if s == "voucher" then Some(VoucherNode)
    else if s == "reward" then Some(RewardNode)
    else None
  }

  lemma ParseNodeTypeName(t: NodeType)
    ensures ParseNodeType(NodeTypeName(t)) == Some(t)
  {
  }

  datatype HorizontalAlign = Left | HCenter | Right
  datatype VerticalAlign = Top | VCenter | Bottom

  /** Button alignment; either half may be missing in stored data. */
  datatype Alignment = Alignment(horizontal: Option<HorizontalAlign>, vertical: Option<VerticalAlign>)

  /** The four optional CSS strings of a button. */
  datatype ButtonStyle = ButtonStyle(
    backgroundColor: Option<string>,
    textColor: Option<string>,
    borderRadius: Option<string>,
    fontSize: Option<string>)

  /** Percentage offsets of a button inside its node. */
  datatype ButtonPosition = ButtonPosition(x: int, y: int)

  /**
   * `InteractionButton`: `id` and `label` (`labelText`, since `label` is a Dafny keyword) always present; style and position
   * optional; `targetNodeId` and `alignment` as the components use them.
   */
  datatype InteractionButton = InteractionButton(
    id: string,
    labelText: string,
    targetNodeId: Option<string>,
    style: Option<ButtonStyle>,
    position: Option<ButtonPosition>,
    alignment: Option<Alignment>)

  /**
   * `CustomNode` data as declared: one of five variants, each extending
   * `BaseNodeData` and so carrying a `label`. Dates are millisecond timestamps.
   */
  datatype CustomNodeData =
    | TextNodeData(labelText: string, content: string, interactionButtons: seq<InteractionButton>)
    | VideoNodeData(labelText: string, videoUrl: string, interactionButtons: seq<InteractionButton>)
    | InteractionNodeData(labelText: string, action: string, parameters: map<string, string>)
    | VoucherNodeData(labelText: string, qrCodeData: string, expirationDate: Option<nat>)
    | RewardNodeData(labelText: string, rewardType: string, value: real)

  /** When an interaction overlay is announced, in seconds. */
  datatype Timing = Timing(showAtEnd: bool, showAtTime: Option<int>, duration: Option<int>)

  /** A canvas position (the layout engine's coordinates, taken as integers). */
  datatype Position = Position(x: int, y: int)

  /** A recorded call of the canvas's `setCenter(x, y, { duration })`. */
  datatype CenterCall = CenterCall(x: int, y: int, duration: nat)

  /**
   * The `onButtonClick` closure the editor attaches to a button node: the
   * target id it reads when clicked, the node list it searches (as id and
   * position pairs), and whether a canvas instance was captured with it.
   */
  datatype ClickHandler = ClickHandler(target: Option<string>, lookup: seq<(string, Position)>, hasInstance: bool)

  /** A callback whose effect lies outside the model; only its presence matters. */
  datatype Listener = Listener

  /**
   * The runtime `data` object of a canvas node. Every field may be absent, as
   * in the JavaScript object; `onDataChange` is represented by the node id the
   * closure dispatches to; `extra` holds any other keys a stored document has.
   */
  datatype NodeData = NodeData(
    id: Option<string>,
    labelText: Option<string>,
    videoUrl: Option<string>,
    text: Option<string>,
    buttons: Option<seq<InteractionButton>>,
    targetNodeId: Option<string>,
    timing: Option<Timing>,
    isPlaybackMode: Option<bool>,
    onDataChange: Option<string>,
    onButtonClick: Option<ClickHandler>,
    onNavigate: Option<Listener>,
    extra: map<string, string>)

  /** The object `{}`. */
  const EmptyData := NodeData(None, None, None, None, None, None, None, None, None, None, None, map[])

  /** A canvas node: `id`, `type`, `position`, the per-node interaction flags and `data`. */
  datatype FlowNode = FlowNode(
    id: string,
    nodeType: string,
    position: Position,
    draggable: Option<bool>,
    selectable: Option<bool>,
    data: NodeData)

  /** A canvas edge, passed around but never interpreted by the core. */
  datatype FlowEdge = FlowEdge(id: string, source: string, target: string, sourceHandle: Option<string>, edgeType: Option<string>)

  /** JavaScript truthiness of an optional flag. */
  predicate IsSet(b: Option<bool>) { b == Some(true) }
}
