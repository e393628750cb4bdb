/**
 * The linear autoplay playlist (src/components/FullscreenPlaylist/FullscreenPlaylist.tsx):
 * the video nodes that have a URL, played in node order, wrapping to the
 * first after the last. Advancing is driven only by the end of each video; the
 * component takes no edges and reads no button targets.
 */
module FullscreenPlaylist {
  import opened Wrappers
  import opened Seqs
  import opened NodeTypes
  import opened HideTimer
  import ScenarioEditor

  /** `node.type === 'video' && node.data?.videoUrl`. */
  predicate InPlaylist(n: FlowNode) {
    n.nodeType == "video" && Truthy(n.data.videoUrl)
  }

  /** `videoNodes`, recomputed from the `nodes` prop on every render. */
  function VideoNodes(nodes: seq<FlowNode>): seq<FlowNode> {
    Filter(InPlaylist, nodes)
  }

  /** The playlist is exactly the playable video nodes, in their original order. */
  lemma VideoNodesSpec(nodes: seq<FlowNode>)
    ensures var v := VideoNodes(nodes);
      && (forall i :: 0 <= i < |v| ==> v[i].nodeType == "video" && Truthy(v[i].data.videoUrl) && v[i] in nodes)
      && (forall i :: 0 <= i < |nodes| && InPlaylist(nodes[i]) ==> nodes[i] in v)
      && (forall i :: 0 <= i < |nodes| ==> multiset(v)[nodes[i]] == if InPlaylist(nodes[i]) then multiset(nodes)[nodes[i]] else 0)
      && Subsequence(v, nodes)
  {
  }

  /** `handleVideoEnd`: the next index, or 0 after the last (or from any index past it). */
  function NextIndex(index: nat, len: nat): (r: nat)
    ensures len > 0 ==> r < len
    ensures index + 1 < len ==> r == index + 1
    ensures index + 1 >= len ==> r == 0
  {
    if index < len - 1 then index + 1 else 0
  }

  function Advance(index: nat, len: nat, times: nat): nat
    decreases times
  {
    if times == 0 then index else Advance(NextIndex(index, len), len, times - 1)
  }

  /** Advancing `a` then `b` times is advancing `a + b` times. */
  lemma {:induction false} AdvanceAdd(index: nat, len: nat, a: nat, b: nat)
    ensures Advance(index, len, a + b) == Advance(Advance(index, len, a), len, b)
    decreases a
  {
    if a > 0 {
      AdvanceAdd(NextIndex(index, len), len, a - 1, b);
    }
  }

  /** Below the end, each ending moves one video on. */
  lemma {:induction false} AdvanceWithin(index: nat, len: nat, k: nat)
    requires index + k < len
    ensures Advance(index, len, k) == index + k
    decreases k
  {
    if k > 0 {
      AdvanceWithin(index + 1, len, k - 1);
    }
  }

  /** `len` endings from the first video return to it. */
  lemma FullCycle(len: nat)
    requires len > 0
    ensures Advance(0, len, len) == 0
  {
    AdvanceWithin(0, len, len - 1);
    AdvanceAdd(0, len, len - 1, 1);
  }

  /** From the first video, `q * len + r` endings (with `r < len`) lead to video `r`: A, B, C, A, ... */
  lemma {:induction false} AdvanceWraps(len: nat, q: nat, r: nat)
    requires r < len
    ensures Advance(0, len, q * len + r) == r
    decreases q
  {
    if q == 0 {
      AdvanceWithin(0, len, r);
    } else {
      assert q * len + r == len + ((q - 1) * len + r);
      AdvanceAdd(0, len, len, (q - 1) * len + r);
      FullCycle(len);
      AdvanceWraps(len, q - 1, r);
    }
  }

  /** `videoNodes[currentNodeIndex]`; `None` renders nothing. */
  function CurrentNode(nodes: seq<FlowNode>, index: nat): (r: Option<FlowNode>)
    ensures r.None? <==> index >= |VideoNodes(nodes)|
    ensures r.Some? ==> r.value == VideoNodes(nodes)[index]
    ensures r.Some? ==> InPlaylist(r.value) && r.value in nodes && r.value.data.videoUrl.value != ""
  {
    var v := VideoNodes(nodes);
    if index < |v| then Some(v[index]) else None
  }

  /**
   * From the first video, after `q * len + r` videos have ended (`r < len`)
   * the one playing is playlist entry `r`: for A, B, C the order is A, B, C, A, B, ...
   */
  lemma PlayedAfter(nodes: seq<FlowNode>, len: nat, q: nat, r: nat)
    requires len == |VideoNodes(nodes)| && r < len
    ensures CurrentNode(nodes, Advance(0, len, q * len + r)) == Some(VideoNodes(nodes)[r])
  {
    AdvanceWraps(len, q, r);
  }

  /** The nodes the editor creates have type `videoNode`, so none of them is ever in the playlist. */
  lemma EditorNodesNotPlayable(s: ScenarioEditor.EditorState, payload: string, position: Position, wrapperAttached: bool)
    requires forall i :: 0 <= i < |s.nodes| ==> !InPlaylist(s.nodes[i])
    ensures var t := ScenarioEditor.Step(s, ScenarioEditor.Drop(payload, position, wrapperAttached));
      VideoNodes(t.nodes) == []
  {
    var t := ScenarioEditor.Step(s, ScenarioEditor.Drop(payload, position, wrapperAttached));
    assert forall i :: 0 <= i < |t.nodes| ==> !InPlaylist(t.nodes[i]) by {
      forall i | 0 <= i < |t.nodes|
        ensures !InPlaylist(t.nodes[i])
      {
        if i >= |s.nodes| {
          assert t.nodes[i].nodeType in {ScenarioEditor.VideoNodeKind, ScenarioEditor.ButtonNodeKind};
        }
      }
    }
    NoneKept(t.nodes);
  }

  lemma NoneKept(nodes: seq<FlowNode>)
    requires forall i :: 0 <= i < |nodes| ==> !InPlaylist(nodes[i])
    ensures VideoNodes(nodes) == []
  {
  }

  /** The playlist component: its index, its `open` prop and the controls latch. */
  class Playlist {
    var isOpen: bool
    var currentNodeIndex: nat
    var controls: Controls

    constructor (isOpen: bool)
      ensures this.isOpen == isOpen && currentNodeIndex == 0 && controls == HideTimer.Initial
    {
      this.isOpen := isOpen;
      currentNodeIndex := 0;
      controls := HideTimer.Initial;
    }

    /** `onEnded` of the current video, with the `nodes` prop of this render. */
    method HandleVideoEnd(nodes: seq<FlowNode>)
      modifies this
      ensures currentNodeIndex == NextIndex(old(currentNodeIndex), |VideoNodes(nodes)|)
      ensures isOpen == old(isOpen) && controls == old(controls)
    {
      var len := |VideoNodes(nodes)|;
      if currentNodeIndex < len - 1 {
        currentNodeIndex := currentNodeIndex + 1;
      } else {
        currentNodeIndex := 0;
      }
    }

    /** A new `open` prop; the effect runs when the value changes and resets the index when it is true. */
    method SetOpen(isOpen: bool)
      modifies this
      ensures this.isOpen == isOpen && controls == old(controls)
      ensures isOpen && !old(this.isOpen) ==> currentNodeIndex == 0
      ensures !(isOpen && !old(this.isOpen)) ==> currentNodeIndex == old(currentNodeIndex)
    {
      if isOpen && !this.isOpen {
        currentNodeIndex := 0;
      }
      this.isOpen := isOpen;
    }

    /** A mouse move, a timer elapsing, or the timer effect's cleanup. */
    method ControlsEvent(e: ControlsEvent)
      modifies this
      ensures controls == StepControls(old(controls), e)
      ensures isOpen == old(isOpen) && currentNodeIndex == old(currentNodeIndex)
    {
      controls := StepControls(controls, e);
    }

    /** What renders: nothing without a current node; else its URL and the progress `index+1 / len`. */
    method Render(nodes: seq<FlowNode>) returns (url: Option<string>, shown: nat, total: nat)
      ensures url.Some? <==> currentNodeIndex < |VideoNodes(nodes)|
      ensures url.Some? ==> url.value != "" && 1 <= shown <= total
      ensures url.Some? ==> url.value == VideoNodes(nodes)[currentNodeIndex].data.videoUrl.value
      ensures shown == currentNodeIndex + 1 && total == |VideoNodes(nodes)|
    {
      var current := CurrentNode(nodes, currentNodeIndex);
      url := if current.Some? then Some(current.value.data.videoUrl.value) else None;
      shown := currentNodeIndex + 1;
      total := |VideoNodes(nodes)|;
    }
  }
}
