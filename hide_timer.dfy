/**
 * The show-on-move, hide-when-idle controls shared by the fullscreen playlist
 * (src/components/FullscreenPlaylist/FullscreenPlaylist.tsx) and the preview
 * (src/components/Preview/ScenarioPreview.tsx).
 *
 * Time is not modelled: a mouse move schedules a 2000 ms timer, named by a
 * token; `Fire(t)` is that timer elapsing; `Cleanup` is the effect cleanup.
 * A cleared timer never fires, so firing its token does nothing.
 */
module HideTimer {
  import opened Wrappers

  const HideDelayMs: nat := 2000

  /**
   * `visible`: the controls flag; `pending`: the `mouseTimer` state (never
   * reset to null, even after its timer elapsed); `live`: timers scheduled and
   * neither cleared nor elapsed; `issued`: the next fresh token.
   */
  datatype Controls = Controls(visible: bool, pending: Option<nat>, live: set<nat>, issued: nat)

  datatype ControlsEvent = Move | Fire(token: nat) | Cleanup

  /** Hidden, no timer. */
  const Initial := Controls(false, None, {}, 0)

  /** At most the pending timer is live, and every token in use was issued. */
  ghost predicate Valid(c: Controls) {
    && (forall t :: t in c.live ==> c.pending == Some(t))
    && (c.pending.Some? ==> c.pending.value < c.issued)
  }

  /** `clearTimeout(mouseTimer)` when there is one. */
  function ClearPending(c: Controls): set<nat> {
    if c.pending.Some? then c.live - {c.pending.value} else c.live
  }

  function StepControls(c: Controls, e: ControlsEvent): Controls {
    match e
    case Move => Controls(true, Some(c.issued), ClearPending(c) + {c.issued}, c.issued + 1)
    case Fire(t) => if t in c.live then c.(visible := false, live := c.live - {t}) else c
    case Cleanup => c.(live := ClearPending(c))
  }

  function RunControls(c: Controls, events: seq<ControlsEvent>): Controls
    decreases |events|
  {
    if events == [] then c else RunControls(StepControls(c, events[0]), events[1..])
  }

  /** Every event keeps the latch consistent. */
  lemma StepValid(c: Controls, e: ControlsEvent)
    requires Valid(c)
    ensures Valid(StepControls(c, e))
  {
  }

  lemma {:induction false} RunValid(c: Controls, events: seq<ControlsEvent>)
    requires Valid(c)
    ensures Valid(RunControls(c, events))
    decreases |events|
  {
    if events != [] {
      StepValid(c, events[0]);
      RunValid(StepControls(c, events[0]), events[1..]);
    }
  }

  /** A move shows the controls, cancels the earlier timer and leaves exactly one live timer, its own. */
  lemma MoveRestartsTimer(c: Controls)
    requires Valid(c)
    ensures var d := StepControls(c, Move);
      d.visible && d.pending == Some(c.issued) && d.live == {c.issued} && c.issued !in c.live
  {
  }

  /** Only the newest timer hides: after a move, a timer from before it elapsing changes nothing. */
  lemma OnlyNewestHides(c: Controls, t: nat)
    requires Valid(c) && t != c.issued
    ensures var d := StepControls(c, Move);
      StepControls(d, Fire(t)) == d
  {
  }

  /** Elapses of stale timers keep the controls visible; the last move's timer then hides them. */
  lemma {:induction false} VisibleUntilLastTimer(c: Controls, stale: seq<nat>)
    requires Valid(c)
    requires forall i :: 0 <= i < |stale| ==> stale[i] != c.issued
    ensures var d := RunControls(StepControls(c, Move), FireAll(stale));
      d.visible && !StepControls(d, Fire(c.issued)).visible
  {
    StaleFiresNoOp(StepControls(c, Move), stale);
  }

  function FireAll(tokens: seq<nat>): (r: seq<ControlsEvent>)
    ensures |r| == |tokens| && forall i :: 0 <= i < |r| ==> r[i] == Fire(tokens[i])
    decreases |tokens|
  {
    if tokens == [] then [] else [Fire(tokens[0])] + FireAll(tokens[1..])
  }

  lemma {:induction false} StaleFiresNoOp(d: Controls, stale: seq<nat>)
    requires d.pending.Some? && d.live == {d.pending.value}
    requires forall i :: 0 <= i < |stale| ==> stale[i] != d.pending.value
    ensures RunControls(d, FireAll(stale)) == d
    decreases |stale|
  {
    if stale != [] {
      var es := FireAll(stale);
      assert es[1..] == FireAll(stale[1..]);
      StaleFiresNoOp(d, stale[1..]);
    }
  }

  /** After cleanup no timer is live, so no elapse changes anything. */
  lemma CleanupSilences(c: Controls, t: nat)
    requires Valid(c)
    ensures var d := StepControls(c, Cleanup);
      d.live == {} && d.visible == c.visible && StepControls(d, Fire(t)) == d
  {
  }
}
