/**
 * The fullscreen preview (src/components/Preview/ScenarioPreview.tsx): the
 * editor's graph shown read-only, Escape or the close button to leave, and the
 * controls latch of `HideTimer` fed by window mouse moves.
 */
module ScenarioPreview {
  import opened Wrappers
  import opened NodeTypes
  import opened HideTimer

  /** `{ ...node, draggable: false, selectable: false, data: { ...node.data, isPlaybackMode: true } }`. */
  function ReadOnly(n: FlowNode): FlowNode {
    n.(draggable := Some(false), selectable := Some(false), data := n.data.(isPlaybackMode := Some(true)))
  }

  /** The node list given to the canvas: same count and order, every node fixed and in playback, nothing else changed. */
  function ReadOnlyNodes(nodes: seq<FlowNode>): (r: seq<FlowNode>)
    ensures |r| == |nodes|
    ensures forall i :: 0 <= i < |nodes| ==>
      && r[i].draggable == Some(false) && r[i].selectable == Some(false) && r[i].data.isPlaybackMode == Some(true)
      && r[i].id == nodes[i].id && r[i].nodeType == nodes[i].nodeType && r[i].position == nodes[i].position
      && r[i].data == nodes[i].data.(isPlaybackMode := Some(true))
    decreases |nodes|
  {
    if nodes == [] then [] else [ReadOnly(nodes[0])] + ReadOnlyNodes(nodes[1..])
  }

  /** Showing an already read-only list changes nothing. */
  lemma {:induction false} ReadOnlyNodesIdempotent(nodes: seq<FlowNode>)
    ensures ReadOnlyNodes(ReadOnlyNodes(nodes)) == ReadOnlyNodes(nodes)
    decreases |nodes|
  {
    if nodes != [] {
      var once := ReadOnlyNodes(nodes);
      assert once[1..] == ReadOnlyNodes(nodes[1..]);
      ReadOnlyNodesIdempotent(nodes[1..]);
    }
  }

  /** Only Escape closes. */
  predicate ClosesOn(key: string) {
    key == "Escape"
  }

  /** The mounted preview; `closeRequests` counts the calls of `onClose`. */
  class Preview {
    var controls: Controls
    var listening: bool
    var closeRequests: nat

    /** Mounting: controls hidden, no timer, both window listeners registered. */
    constructor ()
      ensures controls == HideTimer.Initial && !controls.visible
      ensures listening && closeRequests == 0
    {
      controls := HideTimer.Initial;
      listening := true;
      closeRequests := 0;
    }

    /** What the canvas receives: the read-only nodes and the edges as they are. */
    method Render(nodes: seq<FlowNode>, edges: seq<FlowEdge>) returns (shownNodes: seq<FlowNode>, shownEdges: seq<FlowEdge>)
      ensures shownNodes == ReadOnlyNodes(nodes) && shownEdges == edges
    {
      shownNodes := ReadOnlyNodes(nodes);
      shownEdges := edges;
    }

    /** A window `keydown`. */
    method KeyDown(key: string)
      modifies this
      ensures closeRequests == old(closeRequests) + (if listening && ClosesOn(key) then 1 else 0)
      ensures controls == old(controls) && listening == old(listening)
    {
      if listening && ClosesOn(key) {
        closeRequests := closeRequests + 1;
      }
    }

    /** The close button. */
    method CloseClick()
      modifies this
      ensures closeRequests == old(closeRequests) + 1
      ensures controls == old(controls) && listening == old(listening)
    {
      closeRequests := closeRequests + 1;
    }

    /** A window `mousemove`; once the listener is removed it has no effect. */
    method MouseMove()
      modifies this
      ensures controls == (if listening then StepControls(old(controls), Move) else old(controls))
      ensures listening == old(listening) && closeRequests == old(closeRequests)
    {
      if listening {
        controls := StepControls(controls, Move);
      }
    }

    /** The timer with token `t` elapsing. */
    method TimerElapsed(t: nat)
      modifies this
      ensures controls == StepControls(old(controls), Fire(t))
      ensures listening == old(listening) && closeRequests == old(closeRequests)
    {
      controls := StepControls(controls, Fire(t));
    }

    /** Unmounting: both listeners removed, the pending timer cleared. */
    method Unmount()
      modifies this
      ensures !listening && controls == StepControls(old(controls), Cleanup)
      ensures closeRequests == old(closeRequests)
    {
      listening := false;
      controls := StepControls(controls, Cleanup);
    }
  }
}
