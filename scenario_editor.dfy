/**
 * The scenario editor (src/components/Editor/ScenarioEditor.tsx): the node and
 * edge collections, the playback and preview flags, the module-level id
 * counter, and the handlers the canvas calls.
 *
 * The meaning of every handler is the pure function `Step` on an
 * `EditorState`; the class `Editor` holds the same state in fields and each
 * of its methods ends in `Step` of the old state. The canvas library itself
 * (change application, coordinate conversion, camera animation) is outside
 * the model: its results are event parameters and `setCenter` is recorded.
 */
module ScenarioEditor {
  import opened Wrappers
  import opened Text
  import opened Seqs
  import opened NodeTypes

  const VideoNodeKind := "videoNode"
  const ButtonNodeKind := "buttonNode"

  /** The duration of the camera transition a button navigation asks for, in ms. */
  const CenterDuration: nat := 800

  /** `node_<n>`: the id `getId` returns when the counter stands at `n`. */
  function NodeId(n: nat): string {
    "node_" + NatToString(n)
  }

  /** Different counter values give different ids. */
  lemma NodeIdInjective(a: nat, b: nat)
    ensures NodeId(a) == NodeId(b) <==> a == b
  {
    if NodeId(a) == NodeId(b) {
      assert NodeId(a)[5..] == NatToString(a);
      assert NodeId(b)[5..] == NatToString(b);
      NatToStringInjective(a, b);
    }
  }

  /** The module-level counter behind `getId`: shared by every editor of the page and never reseeded. */
  class IdCounter {
    var next: nat

    constructor ()
      ensures next == 0
    {
      next := 0;
    }

    /** `getId()`: `node_<id>`, then `id++`. */
    method GetId() returns (id: string)
      modifies this
      ensures id == NodeId(old(next)) && next == old(next) + 1
    {
      id := NodeId(next);
      next := next + 1;
    }
  }

  // ------------------------------------------------------------------
  // Button navigation
  // ------------------------------------------------------------------

  /** The `(id, position)` pairs a navigation closure searches. */
  function Placements(nodes: seq<FlowNode>): seq<(string, Position)> {
    seq(|nodes|, i requires 0 <= i < |nodes| => (nodes[i].id, nodes[i].position))
  }

  /**
   * Running an `onButtonClick` closure: when the target id is truthy and some
   * node in the searched list has it, exactly one `setCenter` at the first such
   * node's position with duration 800; otherwise nothing.
   */
  function Navigate(h: ClickHandler): (r: Option<CenterCall>)
    ensures r.Some? <==>
      h.hasInstance && Truthy(h.target) && exists i :: 0 <= i < |h.lookup| && h.lookup[i].0 == h.target.value
    ensures r.Some? ==>
      r.value.duration == CenterDuration &&
      exists i :: 0 <= i < |h.lookup| && h.lookup[i] == (h.target.value, Position(r.value.x, r.value.y)) &&
        forall j :: 0 <= j < i ==> h.lookup[j].0 != h.target.value
  {
    if !Truthy(h.target) then None
    else
      match Find((p: (string, Position)) => p.0 == h.target.value, h.lookup)
      case None => None
      case Some(p) => if h.hasInstance then Some(CenterCall(p.1.x, p.1.y, CenterDuration)) else None
  }

  // ------------------------------------------------------------------
  // Node creation on drop
  // ------------------------------------------------------------------

  /** The node a `videoNode` drop creates. */
  function NewVideoNode(id: string, position: Position, playback: bool): FlowNode {
    FlowNode(id, VideoNodeKind, position, None, None,
      EmptyData.(id := Some(id), labelText := Some("Nouvelle vidéo"), videoUrl := Some(""), buttons := Some([]),
                 isPlaybackMode := Some(playback), onDataChange := Some(id)))
  }

  /**
   * The node a `buttonNode` drop creates. Its click closure reads the target
   * of the object literal built here, which has none, and searches the nodes
   * present at drop time.
   */
  function NewButtonNode(id: string, position: Position, playback: bool, lookup: seq<(string, Position)>): FlowNode {
    FlowNode(id, ButtonNodeKind, position, None, None,
      EmptyData.(id := Some(id), labelText := Some("Nouveau bouton"), text := Some("Cliquez ici"),
                 isPlaybackMode := Some(playback), onDataChange := Some(id),
                 onButtonClick := Some(ClickHandler(None, lookup, true))))
  }

  // ------------------------------------------------------------------
  // Per-node data merge
  // ------------------------------------------------------------------

  function Pick<T>(patch: Option<T>, base: Option<T>): Option<T> {
    if patch.Some? then patch else base
  }

  /** `{ ...base, ...patch }`: every key the patch has wins. */
  function Overlay(base: NodeData, patch: NodeData): NodeData {
    NodeData(
      Pick(patch.id, base.id),
      Pick(patch.labelText, base.labelText),
      Pick(patch.videoUrl, base.videoUrl),
      Pick(patch.text, base.text),
      Pick(patch.buttons, base.buttons),
      Pick(patch.targetNodeId, base.targetNodeId),
      Pick(patch.timing, base.timing),
      Pick(patch.isPlaybackMode, base.isPlaybackMode),
      Pick(patch.onDataChange, base.onDataChange),
      Pick(patch.onButtonClick, base.onButtonClick),
      Pick(patch.onNavigate, base.onNavigate),
      base.extra + patch.extra)
  }

  /** The data a matching node ends with: the overlay, with the flag and both callbacks taken from the editor. */
  function MergedData(base: NodeData, patch: NodeData, nodeId: string, playback: bool): NodeData {
    Overlay(base, patch).(isPlaybackMode := Some(playback), onDataChange := Some(nodeId), onButtonClick := base.onButtonClick)
  }

  /** `handleNodeDataChange`'s `nds.map(...)`: only nodes with the id change, and only in their data. */
  function MergeData(nodes: seq<FlowNode>, nodeId: string, patch: NodeData, playback: bool): (r: seq<FlowNode>)
    ensures |r| == |nodes|
    ensures forall i :: 0 <= i < |nodes| && nodes[i].id != nodeId ==> r[i] == nodes[i]
    ensures forall i :: 0 <= i < |nodes| && nodes[i].id == nodeId ==>
      r[i] == nodes[i].(data := MergedData(nodes[i].data, patch, nodeId, playback))
    decreases |nodes|
  {
    if nodes == [] then []
    else
      var head := if nodes[0].id == nodeId then nodes[0].(data := MergedData(nodes[0].data, patch, nodeId, playback)) else nodes[0];
      [head] + MergeData(nodes[1..], nodeId, patch, playback)
  }

  /** Every field a patch sets is in the merged data; every field it leaves out keeps its old value. */
  lemma MergedDataFields(base: NodeData, patch: NodeData, nodeId: string, playback: bool)
    ensures var d := MergedData(base, patch, nodeId, playback);
      && (patch.labelText.Some? ==> d.labelText == patch.labelText) && (patch.labelText.None? ==> d.labelText == base.labelText)
      && (patch.videoUrl.Some? ==> d.videoUrl == patch.videoUrl) && (patch.videoUrl.None? ==> d.videoUrl == base.videoUrl)
      && (patch.buttons.Some? ==> d.buttons == patch.buttons) && (patch.buttons.None? ==> d.buttons == base.buttons)
      && (patch.targetNodeId.Some? ==> d.targetNodeId == patch.targetNodeId) && (patch.targetNodeId.None? ==> d.targetNodeId == base.targetNodeId)
      && d.isPlaybackMode == Some(playback) && d.onDataChange == Some(nodeId) && d.onButtonClick == base.onButtonClick
      && d.extra.Keys == base.extra.Keys + patch.extra.Keys
      && (forall k :: k in patch.extra ==> d.extra[k] == patch.extra[k])
      && (forall k :: k in base.extra && k !in patch.extra ==> d.extra[k] == base.extra[k])
  {
  }

  /** Applying the same change twice is applying it once. */
  lemma {:induction false} MergeDataIdempotent(nodes: seq<FlowNode>, nodeId: string, patch: NodeData, playback: bool)
    ensures MergeData(MergeData(nodes, nodeId, patch, playback), nodeId, patch, playback) == MergeData(nodes, nodeId, patch, playback)
    decreases |nodes|
  {
    if nodes != [] {
      MergeDataIdempotent(nodes[1..], nodeId, patch, playback);
      var once := MergeData(nodes, nodeId, patch, playback);
      assert once[1..] == MergeData(nodes[1..], nodeId, patch, playback);
      if nodes[0].id == nodeId {
        var d := nodes[0].data;
        assert (d.extra + patch.extra) + patch.extra == d.extra + patch.extra;
      }
    }
  }

  // ------------------------------------------------------------------
  // Loading a stored project
  // ------------------------------------------------------------------

  /** What the project gateway returned; either collection may be missing. */
  datatype LoadedProject = LoadedProject(nodes: Option<seq<FlowNode>>, edges: Option<seq<FlowEdge>>)

  /** A load either throws (caught and logged) or returns a project. */
  datatype LoadOutcome = LoadFailed | Loaded(project: LoadedProject)

  /**
   * `nodesWithCallbacks`: each stored node with the editor's flag, a data
   * callback bound to its own id, and a click closure for button nodes only
   * (capturing the node's stored target and the whole stored list). Any
   * stored `onButtonClick` is dropped.
   */
  function AttachCallbacks(nodes: seq<FlowNode>, playback: bool, lookup: seq<(string, Position)>, hasInstance: bool): (r: seq<FlowNode>)
    ensures |r| == |nodes|
    ensures forall i :: 0 <= i < |nodes| ==>
      && r[i] == nodes[i].(data := r[i].data)
      && r[i].data == nodes[i].data.(isPlaybackMode := Some(playback), onDataChange := Some(nodes[i].id), onButtonClick := r[i].data.onButtonClick)
      && (r[i].data.onButtonClick.Some? <==> nodes[i].nodeType == ButtonNodeKind)
      && (r[i].data.onButtonClick.Some? ==>
            r[i].data.onButtonClick.value == ClickHandler(nodes[i].data.targetNodeId, lookup, hasInstance))
    decreases |nodes|
  {
    if nodes == [] then []
    else
      var n := nodes[0];
      var click := if n.nodeType == ButtonNodeKind then Some(ClickHandler(n.data.targetNodeId, lookup, hasInstance)) else None;
      [n.(data := n.data.(isPlaybackMode := Some(playback), onDataChange := Some(n.id), onButtonClick := click))]
        + AttachCallbacks(nodes[1..], playback, lookup, hasInstance)
  }

  // ------------------------------------------------------------------
  // Mode gating
  // ------------------------------------------------------------------

  /** Which handlers and key bindings the editor hands to the canvas. */
  datatype CanvasBindings = CanvasBindings(
    onNodesChange: bool,
    onEdgesChange: bool,
    onConnect: bool,
    onDragOver: bool,
    onDrop: bool,
    deleteKeyCode: Option<string>,
    selectionKeyCode: Option<string>,
    multiSelectionKeyCode: Option<string>,
    nodesDraggable: bool,
    nodesConnectable: bool,
    elementsSelectable: bool)

  /** Some mutation entry point is open. */
  predicate AnyMutationEnabled(b: CanvasBindings) {
    b.onNodesChange || b.onEdgesChange || b.onConnect || b.onDragOver || b.onDrop
    || b.deleteKeyCode.Some? || b.selectionKeyCode.Some? || b.multiSelectionKeyCode.Some?
    || b.nodesDraggable || b.nodesConnectable || b.elementsSelectable
  }

  /** Every mutation entry point is open, with the usual keys. */
  predicate AllMutationsEnabled(b: CanvasBindings) {
    b.onNodesChange && b.onEdgesChange && b.onConnect && b.onDragOver && b.onDrop
    && b.deleteKeyCode == Some("Delete") && b.selectionKeyCode == Some("Shift") && b.multiSelectionKeyCode == Some("Control")
    && b.nodesDraggable && b.nodesConnectable && b.elementsSelectable
  }

  /** In playback mode every mutation entry point is switched off; in edit mode all are on. */
  function Bindings(playback: bool): (b: CanvasBindings)
    ensures playback <==> !AnyMutationEnabled(b)
    ensures !playback <==> AllMutationsEnabled(b)
  {
    var edit := !playback;
    CanvasBindings(edit, edit, edit, edit, edit,
      if playback then None else Some("Delete"),
      if playback then None else Some("Shift"),
      if playback then None else Some("Control"),
      edit, edit, edit)
  }

  // ------------------------------------------------------------------
  // The editor state machine
  // ------------------------------------------------------------------

  datatype EditorState = EditorState(
    nodes: seq<FlowNode>,
    edges: seq<FlowEdge>,
    isPlaybackMode: bool,
    isPreviewMode: bool,
    hasInstance: bool,
    nextId: nat,
    camera: seq<CenterCall>,
    projectId: string)

  /** A freshly mounted editor with its `projectId` prop; the id counter keeps whatever value it had. */
  function Initial(nextId: nat, projectId: string): EditorState {
    EditorState([], [], false, false, false, nextId, [], projectId)
  }

  /**
   * What can happen to the editor. Canvas-computed values arrive as parameters.
   * The load effect depends on the project id, the playback flag and the canvas
   * instance, so the events that change one of them carry what the project
   * gateway returned for the run of the effect they trigger.
   */
  datatype EditorEvent =
    | CanvasInit(outcome: LoadOutcome)
    | DragOver
    | Drop(payload: string, position: Position, wrapperAttached: bool)
    | DataChange(nodeId: string, patch: NodeData)
    | Connect(edge: FlowEdge)
    | NodesChange(nextNodes: seq<FlowNode>)
    | EdgesChange(nextEdges: seq<FlowEdge>)
    | Load(projectId: string, outcome: LoadOutcome)
    | TogglePlayback(outcome: LoadOutcome)
    | OpenPreview
    | ClosePreview
    | ButtonClick(index: nat)

  /** `onDrop` once the canvas has called it. */
  function DropStep(s: EditorState, payload: string, position: Position, wrapperAttached: bool): EditorState {
    if !wrapperAttached || !s.hasInstance || payload == "" then s
    else
      var id := NodeId(s.nextId);
      var added :=
        if payload == VideoNodeKind then [NewVideoNode(id, position, s.isPlaybackMode)]
        else if payload == ButtonNodeKind then [NewButtonNode(id, position, s.isPlaybackMode, Placements(s.nodes))]
        else [];
      s.(nodes := s.nodes + added, nextId := s.nextId + 1)
  }

  /** One run of the load effect: nothing for an empty project id or a failed load; otherwise each present part replaces its collection. */
  function LoadStep(s: EditorState, outcome: LoadOutcome): EditorState {
    if s.projectId == "" || outcome.LoadFailed? then s
    else
      var p := outcome.project;
      var withNodes :=
        if p.nodes.Some? then s.(nodes := AttachCallbacks(p.nodes.value, s.isPlaybackMode, Placements(p.nodes.value), s.hasInstance))
        else s;
      if p.edges.Some? then withNodes.(edges := p.edges.value) else withNodes
  }

  /** The camera calls a click on the node at `index` makes. */
  function ClickCalls(nodes: seq<FlowNode>, index: nat): seq<CenterCall> {
    if index < |nodes| && nodes[index].data.onButtonClick.Some? then
      match Navigate(nodes[index].data.onButtonClick.value)
      case Some(c) => [c]
      case None => []
    else []
  }

  function Step(s: EditorState, e: EditorEvent): EditorState {
    var b := Bindings(s.isPlaybackMode);
    match e
    case CanvasInit(outcome) => LoadStep(s.(hasInstance := true), outcome)
    case DragOver => s
    case Drop(payload, position, wrapperAttached) =>
      if b.onDrop then DropStep(s, payload, position, wrapperAttached) else s
    case DataChange(nodeId, patch) => s.(nodes := MergeData(s.nodes, nodeId, patch, s.isPlaybackMode))
    case Connect(edge) => if b.onConnect then s.(edges := s.edges + [edge]) else s
    case NodesChange(nextNodes) => if b.onNodesChange then s.(nodes := nextNodes) else s
    case EdgesChange(nextEdges) => if b.onEdgesChange then s.(edges := nextEdges) else s
    case Load(projectId, outcome) => LoadStep(s.(projectId := projectId), outcome)
    case TogglePlayback(outcome) => LoadStep(s.(isPlaybackMode := !s.isPlaybackMode), outcome)
    case OpenPreview => if s.isPlaybackMode then s.(isPreviewMode := true) else s
    case ClosePreview => s.(isPreviewMode := false)
    case ButtonClick(index) => s.(camera := s.camera + ClickCalls(s.nodes, index))
  }

  function Run(s: EditorState, events: seq<EditorEvent>): EditorState
    decreases |events|
  {
    if events == [] then s else Run(Step(s, events[0]), events[1..])
  }

  /** Events that reach the editor only through the canvas or the toolbar and do not re-run the load effect. */
  predicate IsCanvasEvent(e: EditorEvent) {
    !e.DataChange? && !e.Load? && !e.TogglePlayback? && !e.CanvasInit?
  }

  /** Edits of the graph: they change nodes or edges and nothing else. */
  predicate IsGraphEdit(e: EditorEvent) {
    e.DataChange? || e.NodesChange? || e.EdgesChange? || e.Connect?
  }

  /**
   * After a run of the load effect that returned `p`: each part the project
   * has is on the canvas (every stored node in order, with its id, type and
   * position, carrying the editor's current flag); a missing part keeps what
   * was there before.
   */
  predicate ShowsStored(t: EditorState, p: LoadedProject, oldNodes: seq<FlowNode>, oldEdges: seq<FlowEdge>) {
    && (p.nodes.Some? ==>
          |t.nodes| == |p.nodes.value| &&
          forall i :: 0 <= i < |t.nodes| ==>
            && t.nodes[i].id == p.nodes.value[i].id
            && t.nodes[i].nodeType == p.nodes.value[i].nodeType
            && t.nodes[i].position == p.nodes.value[i].position
            && t.nodes[i].data.isPlaybackMode == Some(t.isPlaybackMode)
            && (t.nodes[i].data.onButtonClick.Some? <==> p.nodes.value[i].nodeType == ButtonNodeKind))
    && (p.nodes.None? ==> t.nodes == oldNodes)
    && (p.edges.Some? ==> t.edges == p.edges.value)
    && (p.edges.None? ==> t.edges == oldEdges)
  }

  // ------------------------------------------------------------------
  // Properties of the state machine
  // ------------------------------------------------------------------

  /** A drop is a no-op without the wrapper, the canvas instance or a payload type; any other type uses up one id. */
  lemma DropConsumesId(s: EditorState, payload: string, position: Position, wrapperAttached: bool)
    requires !s.isPlaybackMode
    ensures var t := Step(s, Drop(payload, position, wrapperAttached));
      && (!wrapperAttached || !s.hasInstance || payload == "" ==> t == s)
      && (wrapperAttached && s.hasInstance && payload != "" ==>
            t.nextId == s.nextId + 1 && t.edges == s.edges && t.nodes[..|s.nodes|] == s.nodes
            && (|t.nodes| == |s.nodes| + 1 <==> payload in {VideoNodeKind, ButtonNodeKind})
            && (payload !in {VideoNodeKind, ButtonNodeKind} ==> t.nodes == s.nodes))
  {
  }

  /** A dropped video node is appended with `data.id` equal to its fresh node id and the documented defaults. */
  lemma DroppedVideoNode(s: EditorState, position: Position)
    requires !s.isPlaybackMode && s.hasInstance
    ensures var t := Step(s, Drop(VideoNodeKind, position, true));
      var n := t.nodes[|t.nodes| - 1];
      && t.nodes == s.nodes + [n]
      && n.id == NodeId(s.nextId) && n.data.id == Some(n.id) && n.nodeType == VideoNodeKind && n.position == position
      && n.data.labelText == Some("Nouvelle vidéo") && n.data.videoUrl == Some("") && n.data.buttons == Some([])
      && n.data.onDataChange == Some(n.id)
  {
  }

  /** The counter only grows along any run of events. */
  lemma {:induction false} CounterMonotone(s: EditorState, events: seq<EditorEvent>)
    ensures Run(s, events).nextId >= s.nextId
    decreases |events|
  {
    if events != [] {
      CounterMonotone(Step(s, events[0]), events[1..]);
    }
  }

  /** Two node-adding drops of one session, the second after the first, give their nodes different ids. */
  lemma SuccessiveDropsDistinct(s: EditorState, first: EditorEvent, between: seq<EditorEvent>, second: EditorEvent)
    requires first.Drop? && second.Drop?
    requires |Step(s, first).nodes| == |s.nodes| + 1
    requires var u := Run(Step(s, first), between); |Step(u, second).nodes| == |u.nodes| + 1
    ensures var t := Step(s, first);
      var u := Run(t, between);
      var v := Step(u, second);
      t.nodes[|t.nodes| - 1].id != v.nodes[|v.nodes| - 1].id
  {
    var t := Step(s, first);
    var u := Run(t, between);
    CounterMonotone(t, between);
    NodeIdInjective(s.nextId, u.nextId);
  }

  /** Loading never touches the counter, so ids of loaded nodes can come back from `getId`. */
  lemma LoadKeepsCounter(s: EditorState, projectId: string, outcome: LoadOutcome)
    ensures Step(s, Load(projectId, outcome)).nextId == s.nextId
  {
  }

  /** On a fresh page (counter 0), loading a project holding `node_0` and dropping a video node yields two nodes with id `node_0`. */
  lemma ReloadedIdsCollide(stored: FlowNode, position: Position)
    requires stored.id == "node_0"
    ensures var s := Run(Initial(0, "p"), [CanvasInit(Loaded(LoadedProject(Some([stored]), None))), Drop(VideoNodeKind, position, true)]);
      |s.nodes| == 2 && s.nodes[0].id == s.nodes[1].id
  {
    var project := Loaded(LoadedProject(Some([stored]), None));
    var s0 := Initial(0, "p");
    var s1 := Step(s0, CanvasInit(project));
    var s2 := Step(s1, Drop(VideoNodeKind, position, true));
    assert Run(s2, []) == s2;
    assert Run(s1, [Drop(VideoNodeKind, position, true)]) == s2;
    assert |s1.nodes| == 1 && s1.nodes[0].id == "node_0" && s1.nextId == 0;
    assert NodeId(0) == "node_0";
  }

  /** Load replaces exactly the parts the project has; a failure or an empty project id changes nothing but the recorded id. */
  lemma LoadReplacesPresentParts(s: EditorState, projectId: string, outcome: LoadOutcome)
    ensures var t := Step(s, Load(projectId, outcome));
      && t.projectId == projectId
      && (projectId == "" || outcome.LoadFailed? ==> t == s.(projectId := projectId))
      && t.isPlaybackMode == s.isPlaybackMode && t.isPreviewMode == s.isPreviewMode && t.camera == s.camera
      && t.hasInstance == s.hasInstance && t.nextId == s.nextId
      && (projectId != "" && outcome.Loaded? ==> ShowsStored(t, outcome.project, s.nodes, s.edges))
  {
    LoadStepFrame(s.(projectId := projectId), outcome);
  }

  /** One run of the load effect changes the graph only, and with a stored project shows it. */
  lemma LoadStepFrame(s: EditorState, outcome: LoadOutcome)
    ensures var t := LoadStep(s, outcome);
      && t == s.(nodes := t.nodes, edges := t.edges)
      && (s.projectId == "" || outcome.LoadFailed? ==> t == s)
      && (s.projectId != "" && outcome.Loaded? ==> ShowsStored(t, outcome.project, s.nodes, s.edges))
  {
    if s.projectId != "" && outcome.Loaded? {
      var t := LoadStep(s, outcome);
      var p := outcome.project;
      if p.nodes.Some? {
        var stored := p.nodes.value;
        assert t.nodes == AttachCallbacks(stored, s.isPlaybackMode, Placements(stored), s.hasInstance);
        forall i | 0 <= i < |t.nodes|
          ensures && t.nodes[i].id == stored[i].id
                  && t.nodes[i].nodeType == stored[i].nodeType
                  && t.nodes[i].position == stored[i].position
                  && t.nodes[i].data.isPlaybackMode == Some(t.isPlaybackMode)
                  && (t.nodes[i].data.onButtonClick.Some? <==> stored[i].nodeType == ButtonNodeKind)
        {
        }
      }
    }
  }

  /**
   * The play toggle flips the flag and re-runs the load effect: with a stored
   * project the canvas becomes the stored graph, every node carrying the new
   * flag; without one (or when the load fails) the graph stays, its nodes
   * keeping the flag they had.
   */
  lemma ToggleReloads(s: EditorState, outcome: LoadOutcome)
    ensures var t := Step(s, TogglePlayback(outcome));
      && t.isPlaybackMode == !s.isPlaybackMode
      && t.isPreviewMode == s.isPreviewMode && t.hasInstance == s.hasInstance && t.nextId == s.nextId
      && t.camera == s.camera && t.projectId == s.projectId
      && (s.projectId == "" || outcome.LoadFailed? ==> t.nodes == s.nodes && t.edges == s.edges)
      && (s.projectId != "" && outcome.Loaded? ==> ShowsStored(t, outcome.project, s.nodes, s.edges))
  {
    LoadStepFrame(s.(isPlaybackMode := !s.isPlaybackMode), outcome);
  }

  /** A run of graph edits keeps every field but the nodes and the edges. */
  lemma {:induction false} EditsKeepModes(s: EditorState, edits: seq<EditorEvent>)
    requires forall i :: 0 <= i < |edits| ==> IsGraphEdit(edits[i])
    ensures var t := Run(s, edits);
      t == s.(nodes := t.nodes, edges := t.edges)
    decreases |edits|
  {
    if edits != [] {
      EditsKeepModes(Step(s, edits[0]), edits[1..]);
    }
  }

  /** With a stored project holding both parts, toggling playback throws away every unsaved graph edit. */
  lemma ToggleDiscardsEdits(s: EditorState, edits: seq<EditorEvent>, outcome: LoadOutcome)
    requires forall i :: 0 <= i < |edits| ==> IsGraphEdit(edits[i])
    requires s.projectId != "" && outcome.Loaded? && outcome.project.nodes.Some? && outcome.project.edges.Some?
    ensures Step(Run(s, edits), TogglePlayback(outcome)) == Step(s, TogglePlayback(outcome))
  {
    EditsKeepModes(s, edits);
  }

  /** Before the canvas instance exists, the click closures a load attaches can never centre the camera. */
  lemma LoadBeforeInitNeverNavigates(s: EditorState, projectId: string, outcome: LoadOutcome)
    requires !s.hasInstance && projectId != "" && outcome.Loaded? && outcome.project.nodes.Some?
    ensures var t := Step(s, Load(projectId, outcome));
      forall i :: 0 <= i < |t.nodes| && t.nodes[i].data.onButtonClick.Some? ==>
        Navigate(t.nodes[i].data.onButtonClick.value).None?
  {
  }

  /**
   * The canvas instance arriving re-runs the load effect, so with a stored
   * project every button node gets a closure that holds the instance, and it
   * centres on its stored target whenever that target is a stored node.
   */
  lemma InitReloadsWithInstance(s: EditorState, outcome: LoadOutcome)
    requires s.projectId != "" && outcome.Loaded? && outcome.project.nodes.Some?
    ensures var t := Step(s, CanvasInit(outcome));
      var stored := outcome.project.nodes.value;
      && t.hasInstance
      && ShowsStored(t, outcome.project, s.nodes, s.edges)
      && forall i :: 0 <= i < |t.nodes| && t.nodes[i].data.onButtonClick.Some? ==>
           var h := t.nodes[i].data.onButtonClick.value;
           && h.hasInstance
           && h.target == stored[i].data.targetNodeId
           && (Navigate(h).Some? <==> Truthy(h.target) && exists j :: 0 <= j < |stored| && stored[j].id == h.target.value)
  {
    var t := Step(s, CanvasInit(outcome));
    var stored := outcome.project.nodes.value;
    forall i | 0 <= i < |t.nodes| && t.nodes[i].data.onButtonClick.Some?
      ensures var h := t.nodes[i].data.onButtonClick.value;
        Navigate(h).Some? <==> Truthy(h.target) && exists j :: 0 <= j < |stored| && stored[j].id == h.target.value
    {
      var h := t.nodes[i].data.onButtonClick.value;
      assert h.lookup == Placements(stored);
      if Truthy(h.target) && exists j :: 0 <= j < |stored| && stored[j].id == h.target.value {
        var j :| 0 <= j < |stored| && stored[j].id == h.target.value;
        assert h.lookup[j].0 == h.target.value;
      }
    }
  }

  /** A data change touches only the nodes with that id, and in them only the data. */
  lemma DataChangeOnlyMatching(s: EditorState, nodeId: string, patch: NodeData)
    ensures var t := Step(s, DataChange(nodeId, patch));
      && t.edges == s.edges && t.nextId == s.nextId && t.isPlaybackMode == s.isPlaybackMode
      && |t.nodes| == |s.nodes|
      && (forall i :: 0 <= i < |s.nodes| && s.nodes[i].id != nodeId ==> t.nodes[i] == s.nodes[i])
      && (forall i :: 0 <= i < |s.nodes| ==>
            t.nodes[i].id == s.nodes[i].id && t.nodes[i].nodeType == s.nodes[i].nodeType && t.nodes[i].position == s.nodes[i].position)
  {
  }

  /** In playback mode no canvas or toolbar event changes the graph or the counter. */
  lemma {:induction false} PlaybackFreezesGraph(s: EditorState, events: seq<EditorEvent>)
    requires s.isPlaybackMode
    requires forall i :: 0 <= i < |events| ==> IsCanvasEvent(events[i])
    ensures var t := Run(s, events);
      t.nodes == s.nodes && t.edges == s.edges && t.nextId == s.nextId && t.isPlaybackMode
    decreases |events|
  {
    if events != [] {
      var t := Step(s, events[0]);
      assert t.nodes == s.nodes && t.edges == s.edges && t.nextId == s.nextId && t.isPlaybackMode;
      PlaybackFreezesGraph(t, events[1..]);
    }
  }

  /** The preview flag is raised only by the fullscreen button, which exists only in playback mode. */
  lemma PreviewOnlyFromPlayback(s: EditorState, e: EditorEvent)
    requires !s.isPreviewMode && Step(s, e).isPreviewMode
    ensures s.isPlaybackMode && e.OpenPreview?
  {
  }

  /** Closing the preview lowers the preview flag and keeps the graph, the playback flag, the instance, the counter and the camera. */
  lemma ClosePreviewKeepsGraph(s: EditorState)
    ensures var t := Step(s, ClosePreview);
      && !t.isPreviewMode
      && t.nodes == s.nodes && t.edges == s.edges && t.isPlaybackMode == s.isPlaybackMode
      && t.hasInstance == s.hasInstance && t.nextId == s.nextId && t.camera == s.camera && t.projectId == s.projectId
  {
  }

  /** A click on a button node records at most one camera call, which centres on the resolved target for 800 ms. */
  lemma ClickCentresOnce(s: EditorState, index: nat)
    ensures var t := Step(s, ButtonClick(index));
      && t.nodes == s.nodes && t.edges == s.edges
      && |s.camera| <= |t.camera| <= |s.camera| + 1 && t.camera[..|s.camera|] == s.camera
      && (|t.camera| == |s.camera| + 1 <==>
            index < |s.nodes| && s.nodes[index].data.onButtonClick.Some? && Navigate(s.nodes[index].data.onButtonClick.value).Some?)
      && (|t.camera| == |s.camera| + 1 ==> t.camera[|s.camera|].duration == CenterDuration)
  {
  }

  /** A button node created by a drop never navigates: its closure has no target to read. */
  lemma DroppedButtonNeverNavigates(s: EditorState, position: Position)
    requires !s.isPlaybackMode && s.hasInstance
    ensures var t := Step(s, Drop(ButtonNodeKind, position, true));
      var n := t.nodes[|t.nodes| - 1];
      n.data.onButtonClick.Some? && Navigate(n.data.onButtonClick.value).None?
  {
  }

  // ------------------------------------------------------------------
  // The editor component
  // ------------------------------------------------------------------

  class Editor {
    var nodes: seq<FlowNode>
    var edges: seq<FlowEdge>
    var isPlaybackMode: bool
    var isPreviewMode: bool
    var hasInstance: bool
    var camera: seq<CenterCall>
    var projectId: string
    const ids: IdCounter

    function State(): EditorState
      reads this, ids
    {
      EditorState(nodes, edges, isPlaybackMode, isPreviewMode, hasInstance, ids.next, camera, projectId)
    }

    constructor (ids: IdCounter, projectId: string)
      ensures this.ids == ids
      ensures State() == Initial(ids.next, projectId)
    {
      nodes, edges := [], [];
      isPlaybackMode, isPreviewMode := false, false;
      hasInstance := false;
      camera := [];
      this.projectId := projectId;
      this.ids := ids;
    }

    /** One run of the load effect with the current project id, flag and instance, given what the project gateway produced. */
    method RunLoadEffect(outcome: LoadOutcome)
      modifies this
      ensures State() == LoadStep(old(State()), outcome)
    {
      if projectId == "" {
        return;
      }
      match outcome {
        case LoadFailed =>
        case Loaded(project) =>
          if project.nodes.Some? {
            var stored := project.nodes.value;
            nodes := AttachCallbacks(stored, isPlaybackMode, Placements(stored), hasInstance);
          }
          if project.edges.Some? {
            edges := project.edges.value;
          }
      }
    }

    /** `onInit`: the canvas instance becomes available, which re-runs the load effect. */
    method OnInit(outcome: LoadOutcome)
      modifies this
      ensures State() == Step(old(State()), CanvasInit(outcome))
    {
      hasInstance := true;
      RunLoadEffect(outcome);
    }

    /** `onDragOver`: the drop effect it sets, or `None` when the handler is not attached. */
    method OnDragOver() returns (dropEffect: Option<string>)
      ensures dropEffect.Some? <==> !isPlaybackMode
      ensures dropEffect.Some? ==> dropEffect.value == "move"
    {
      if Bindings(isPlaybackMode).onDragOver {
        dropEffect := Some("move");
      } else {
        dropEffect := None;
      }
    }

    /** `onDrop` with the payload type and the converted drop position. */
    method OnDrop(payload: string, position: Position, wrapperAttached: bool)
      modifies this, ids
      ensures State() == Step(old(State()), Drop(payload, position, wrapperAttached))
    {
      if !Bindings(isPlaybackMode).onDrop {
        return;
      }
      if !wrapperAttached || !hasInstance {
        return;
      }
      if payload == "" {
        return;
      }
      var newNodeId := ids.GetId();
      if payload == VideoNodeKind {
        nodes := nodes + [NewVideoNode(newNodeId, position, isPlaybackMode)];
      } else if payload == ButtonNodeKind {
        nodes := nodes + [NewButtonNode(newNodeId, position, isPlaybackMode, Placements(nodes))];
      }
    }

    /** `handleNodeDataChange(nodeId, newData)`. */
    method HandleNodeDataChange(nodeId: string, patch: NodeData)
      modifies this
      ensures State() == Step(old(State()), DataChange(nodeId, patch))
    {
      nodes := MergeData(nodes, nodeId, patch, isPlaybackMode);
    }

    /** `onConnect`: the canvas's `addEdge`, taken as an append. */
    method OnConnect(edge: FlowEdge)
      modifies this
      ensures State() == Step(old(State()), Connect(edge))
    {
      if Bindings(isPlaybackMode).onConnect {
        edges := edges + [edge];
      }
    }

    /** `onNodesChange`, with the node list the canvas computed. */
    method OnNodesChange(nextNodes: seq<FlowNode>)
      modifies this
      ensures State() == Step(old(State()), NodesChange(nextNodes))
    {
      if Bindings(isPlaybackMode).onNodesChange {
        nodes := nextNodes;
      }
    }

    /** `onEdgesChange`, with the edge list the canvas computed. */
    method OnEdgesChange(nextEdges: seq<FlowEdge>)
      modifies this
      ensures State() == Step(old(State()), EdgesChange(nextEdges))
    {
      if Bindings(isPlaybackMode).onEdgesChange {
        edges := nextEdges;
      }
    }

    /** The load effect run on mount or for a new `projectId` prop, with what the project gateway produced. */
    method LoadProject(projectId: string, outcome: LoadOutcome)
      modifies this
      ensures State() == Step(old(State()), Load(projectId, outcome))
    {
      this.projectId := projectId;
      RunLoadEffect(outcome);
    }

    /** The play toggle, which re-runs the load effect with the new flag. */
    method TogglePlayback(outcome: LoadOutcome)
      modifies this
      ensures State() == Step(old(State()), EditorEvent.TogglePlayback(outcome))
    {
      isPlaybackMode := !isPlaybackMode;
      RunLoadEffect(outcome);
    }

    /** The fullscreen button; it is rendered only in playback mode. */
    method OpenPreview()
      modifies this
      ensures State() == Step(old(State()), EditorEvent.OpenPreview)
    {
      if isPlaybackMode {
        isPreviewMode := true;
      }
    }

    /** The preview's `onClose`. */
    method ClosePreview()
      modifies this
      ensures State() == Step(old(State()), EditorEvent.ClosePreview)
    {
      isPreviewMode := false;
    }

    /** A click on the button node at `index`, running its `onButtonClick` if it has one. */
    method ClickButtonNode(index: nat)
      modifies this
      ensures State() == Step(old(State()), ButtonClick(index))
    {
      if index < |nodes| && nodes[index].data.onButtonClick.Some? {
        var call := Navigate(nodes[index].data.onButtonClick.value);
        if call.Some? {
          camera := camera + [call.value];
        }
      }
    }

    /** `handleSave`: the document handed to the project gateway is the current graph. */
    method Save() returns (savedNodes: seq<FlowNode>, savedEdges: seq<FlowEdge>)
      ensures savedNodes == nodes && savedEdges == edges
    {
      savedNodes, savedEdges := nodes, edges;
    }
  }
}
