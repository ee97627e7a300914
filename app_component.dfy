/**
 * App.tsx: the presentation state machine. The five useState fields, the
 * pending timers, and one method per handler or timer callback. After every
 * event React re-renders when a field changed and re-runs the effects whose
 * dependencies changed; `Settle` models that step: the countdown effect
 * (App.tsx) arms or clears its timers, and the target-selection effect of
 * Experience schedules the TREE_ASSEMBLE callback while in TRANSITION_TO_2026.
 */
module AppComponent {
  import opened Types

  /**
   * Everything the state machine holds: the five state fields, whether the
   * cleared countdown timer is armed, and how many callbacks of each
   * uncleared timer are outstanding.
   */
  datatype Snapshot = Snapshot(
    appState: AppState,
    treeMode: TreeDisplayMode,
    countdownIndex: int,
    userPhotos: seq<UserPhoto>,
    focusedPhotoId: Option<string>,
    /** The countdown effect's cleared timer (App.tsx, the increment branch). */
    tickArmed: bool,
    /** The uncleared end-of-countdown timer that sets TRANSITION_TO_2026. */
    announcePending: nat,
    /** Experience's uncleared timer that calls onTransitionComplete(TREE_ASSEMBLE). */
    completePending: nat,
    /** handleTransitionComplete's uncleared timer that sets INTERACTIVE_TREE. */
    interactivePending: nat)

  /** The handlers the overlay and the photo planes call, and the timer callbacks. */
  datatype Event =
    | Start
    | Tick
    | Announce
    | TransitionComplete
    | DelayElapsed
    | Toggle
    | AddPhoto(id: string, url: string)
    | SelectPhoto(photoId: string)
    | ClosePhoto

  /** The first render: INTRO, COMPACT, index -1, no photos, no focus, no timers. */
  function Initial(): (s: Snapshot)
    ensures s.appState == INTRO && s.treeMode == COMPACT && s.countdownIndex == -1
    ensures s.userPhotos == [] && s.focusedPhotoId == None
    ensures !s.tickArmed && s.announcePending == 0 && s.completePending == 0 && s.interactivePending == 0
  {
    Snapshot(INTRO, COMPACT, -1, [], None, false, 0, 0, 0)
  }

  /** The countdownValue prop: the label at the index, or '' when out of range. */
  function CountdownValue(labels: seq<string>, index: int): (v: string)
    ensures 0 <= index < |labels| ==> v == labels[index]
    ensures !(0 <= index < |labels|) ==> v == ""
  {
    if 0 <= index < |labels| then labels[index] else ""
  }

  /** toggleTreeMode's new mode. */
  function Toggled(mode: TreeDisplayMode): (r: TreeDisplayMode)
    ensures mode == COMPACT ==> r == SCATTERED
    ensures mode == SCATTERED ==> r == COMPACT
    ensures mode == PHOTO_FOCUS ==> r == COMPACT
  {
    if mode == COMPACT then SCATTERED else COMPACT
  }

  /** What the event's own callback writes, before React re-renders. */
  function Apply(s: Snapshot, e: Event): (t: Snapshot)
    ensures t.userPhotos == if e.AddPhoto? then s.userPhotos + [UserPhoto(e.id, e.url)] else s.userPhotos
    ensures t.countdownIndex ==
      if e.Start? then 0 else if e.Tick? && s.tickArmed then s.countdownIndex + 1 else s.countdownIndex
    ensures !(e.Toggle? || e.SelectPhoto? || e.ClosePhoto?) ==>
      t.treeMode == s.treeMode && t.focusedPhotoId == s.focusedPhotoId
    ensures (e.Tick? && !s.tickArmed) || (e.Announce? && s.announcePending == 0)
      || (e.TransitionComplete? && s.completePending == 0) || (e.DelayElapsed? && s.interactivePending == 0)
      ==> t == s
  {
    match e
    case Start => s.(appState := COUNTDOWN, countdownIndex := 0)
    case Tick =>
      if s.tickArmed then s.(tickArmed := false, countdownIndex := s.countdownIndex + 1) else s
    case Announce =>
      if s.announcePending > 0 then s.(announcePending := s.announcePending - 1, appState := TRANSITION_TO_2026)
      else s
    case TransitionComplete =>
      if s.completePending > 0 then
        s.(completePending := s.completePending - 1, appState := TREE_ASSEMBLE,
           interactivePending := s.interactivePending + 1)
      else s
    case DelayElapsed =>
      if s.interactivePending > 0 then s.(interactivePending := s.interactivePending - 1, appState := INTERACTIVE_TREE)
      else s
    case Toggle => s.(treeMode := Toggled(s.treeMode), focusedPhotoId := None)
    case AddPhoto(id, url) => s.(userPhotos := s.userPhotos + [UserPhoto(id, url)])
    case SelectPhoto(id) => s.(focusedPhotoId := Some(id), treeMode := PHOTO_FOCUS)
    case ClosePhoto => s.(focusedPhotoId := None, treeMode := SCATTERED)
  }

  /** React re-renders only when one of the five state fields changed. */
  predicate Rendered(before: Snapshot, after: Snapshot)
  {
    || before.appState != after.appState
    || before.treeMode != after.treeMode
    || before.countdownIndex != after.countdownIndex
    || before.userPhotos != after.userPhotos
    || before.focusedPhotoId != after.focusedPhotoId
  }

  /**
   * The countdown effect, after its cleanup cleared the armed timer: in
   * COUNTDOWN it arms the increment timer below the last index and otherwise
   * schedules the transition.
   */
  function CountdownEffect(s: Snapshot, len: nat): (t: Snapshot)
  {
    if s.appState != COUNTDOWN then s
    else if s.countdownIndex < len - 1 then s.(tickArmed := true)
    else s.(announcePending := s.announcePending + 1)
  }

  /** The effects that run after the render that follows an event. */
  function Settle(before: Snapshot, after: Snapshot, len: nat): (t: Snapshot)
    ensures t.appState == after.appState && t.treeMode == after.treeMode
    ensures t.countdownIndex == after.countdownIndex && t.userPhotos == after.userPhotos
    ensures t.focusedPhotoId == after.focusedPhotoId
    ensures t.interactivePending == after.interactivePending
    ensures t.announcePending >= after.announcePending && t.completePending >= after.completePending
    ensures !Rendered(before, after) ==> t == after
  {
    if !Rendered(before, after) then after
    else
      var c := if before.appState != after.appState || before.countdownIndex != after.countdownIndex
               then CountdownEffect(after.(tickArmed := false), len)
               else after;
      if c.appState == TRANSITION_TO_2026 then c.(completePending := c.completePending + 1) else c
  }

  /** The state after event e, with a COUNTDOWN_SEQUENCE of length len. */
  function Next(s: Snapshot, e: Event, len: nat): (t: Snapshot)
    ensures var a := Apply(s, e);
      && t.appState == a.appState && t.treeMode == a.treeMode && t.countdownIndex == a.countdownIndex
      && t.userPhotos == a.userPhotos && t.focusedPhotoId == a.focusedPhotoId
  {
    Settle(s, Apply(s, e), len)
  }

  /** The state after a sequence of events. */
  function Run(s: Snapshot, es: seq<Event>, len: nat): (t: Snapshot)
    decreases |es|
  {
    if es == [] then s else Run(Next(s, es[0], len), es[1..], len)
  }

  /**
   * When the interface can deliver an event: start in INTRO, toggle and
   * upload in the interactive tree, close in photo focus, select for an id
   * of an uploaded photo, and a timer callback only while it is scheduled.
   */
  predicate Issued(s: Snapshot, e: Event)
  {
    match e
    case Start => s.appState == INTRO
    case Tick => s.tickArmed
    case Announce => s.announcePending > 0
    case TransitionComplete => s.completePending > 0
    case DelayElapsed => s.interactivePending > 0
    case Toggle => s.appState == INTERACTIVE_TREE
    case AddPhoto(_, _) => s.appState == INTERACTIVE_TREE
    case SelectPhoto(id) => exists p :: p in s.userPhotos && p.id == id
    case ClosePhoto => s.treeMode == PHOTO_FOCUS
  }

  /**
   * The reachable states: focus is set exactly in photo focus; modes other
   * than COMPACT and photos exist only in the interactive tree; each phase
   * with a timed exit has exactly one timer pending for it; and the index
   * is -1 before the countdown, within the labels during it, and the last
   * label after it.
   */
  ghost predicate Inv(s: Snapshot, len: nat)
  {
    && (s.focusedPhotoId.Some? <==> s.treeMode == PHOTO_FOCUS)
    && (s.treeMode != COMPACT ==> s.appState == INTERACTIVE_TREE)
    && (s.userPhotos != [] ==> s.appState == INTERACTIVE_TREE)
    && (s.appState == INTRO ==> s.countdownIndex == -1)
    && (s.appState == COUNTDOWN ==> 0 <= s.countdownIndex <= len - 1)
    && (s.appState != INTRO && s.appState != COUNTDOWN ==> s.countdownIndex == len - 1)
    && (s.tickArmed <==> s.appState == COUNTDOWN && s.countdownIndex < len - 1)
    && s.announcePending == (if s.appState == COUNTDOWN && s.countdownIndex == len - 1 then 1 else 0)
    && s.completePending == (if s.appState == TRANSITION_TO_2026 then 1 else 0)
    && s.interactivePending == (if s.appState == TREE_ASSEMBLE then 1 else 0)
  }

  /** The position of a phase in the presentation order. */
  function Rank(a: AppState): (k: nat)
  {
    match a
    case INTRO => 0
    case COUNTDOWN => 1
    case TRANSITION_TO_2026 => 2
    case TREE_ASSEMBLE => 3
    case INTERACTIVE_TREE => 4
  }

  lemma InitialInv(len: nat)
    requires len >= 1
    ensures Inv(Initial(), len)
  {
  }

  /** Every event the interface can deliver keeps the state reachable. */
  lemma NextInv(s: Snapshot, e: Event, len: nat)
    requires len >= 1 && Inv(s, len) && Issued(s, e)
    ensures Inv(Next(s, e, len), len)
  {
    if e.SelectPhoto? {
      var p :| p in s.userPhotos && p.id == e.photoId;
      assert s.userPhotos != [];
    }
  }

  /**
   * The phase only moves forward, one step at a time, and only the timer
   * callbacks and start move it.
   */
  lemma PhaseMonotone(s: Snapshot, e: Event, len: nat)
    requires len >= 1 && Inv(s, len) && Issued(s, e)
    ensures var r := Rank(Next(s, e, len).appState);
      Rank(s.appState) <= r <= Rank(s.appState) + 1
    ensures Next(s, e, len).appState != s.appState ==>
      e == Start || e == Announce || e == TransitionComplete || e == DelayElapsed
  {
  }

  /** start sets COUNTDOWN at index 0 from any state; handleStart does not check the prior phase. */
  lemma StartFromAnywhere(s: Snapshot, len: nat)
    ensures Next(s, Start, len).appState == COUNTDOWN
    ensures Next(s, Start, len).countdownIndex == 0
    ensures Next(s, Start, len).treeMode == s.treeMode
  {
  }

  /**
   * Toggle, select and close set (mode, focus) to (toggled, null),
   * (PHOTO_FOCUS, id) and (SCATTERED, null), whatever the prior mode, and
   * touch nothing else the user sees.
   */
  lemma ModeCommands(s: Snapshot, id: string, len: nat)
    ensures var t := Next(s, Toggle, len);
      t.treeMode == Toggled(s.treeMode) && t.focusedPhotoId == None
      && t.appState == s.appState && t.userPhotos == s.userPhotos && t.countdownIndex == s.countdownIndex
    ensures var t := Next(s, SelectPhoto(id), len);
      t.treeMode == PHOTO_FOCUS && t.focusedPhotoId == Some(id)
      && t.appState == s.appState && t.userPhotos == s.userPhotos && t.countdownIndex == s.countdownIndex
    ensures var t := Next(s, ClosePhoto, len);
      t.treeMode == SCATTERED && t.focusedPhotoId == None
      && t.appState == s.appState && t.userPhotos == s.userPhotos && t.countdownIndex == s.countdownIndex
  {
  }

  /** addPhoto appends exactly the photo (id, url); earlier photos and everything else shown are unchanged. */
  lemma AddPhotoAppends(s: Snapshot, id: string, url: string, len: nat)
    ensures var t := Next(s, AddPhoto(id, url), len);
      && |t.userPhotos| == |s.userPhotos| + 1
      && t.userPhotos[..|s.userPhotos|] == s.userPhotos
      && t.userPhotos[|s.userPhotos|] == UserPhoto(id, url)
      && t.appState == s.appState && t.treeMode == s.treeMode && t.focusedPhotoId == s.focusedPhotoId
      && t.countdownIndex == s.countdownIndex
  {
  }

  /** Only toggle, select and close change the display mode. */
  lemma ModeOnlyByCommands(s: Snapshot, e: Event, len: nat)
    requires !e.Toggle? && !e.SelectPhoto? && !e.ClosePhoto?
    ensures Next(s, e, len).treeMode == s.treeMode
    ensures Next(s, e, len).focusedPhotoId == s.focusedPhotoId
  {
  }

  /** During the countdown the label shown is the label at the index. */
  lemma CountdownLabel(s: Snapshot, labels: seq<string>)
    requires |labels| >= 1 && Inv(s, |labels|) && s.appState == COUNTDOWN
    ensures CountdownValue(labels, s.countdownIndex) == labels[s.countdownIndex]
  {
  }

  // ---------------------------------------------------------------------
  // The scripted run from INTRO to the interactive tree

  /** The countdown at index k, with its timer armed or the transition scheduled. */
  function Counting(k: int, len: nat): (t: Snapshot)
  {
    Snapshot(COUNTDOWN, COMPACT, k, [], None, k < len - 1, if k == len - 1 then 1 else 0, 0, 0)
  }

  /** TRANSITION_TO_2026 with the completion callback scheduled. */
  function Transitioning(len: nat): (t: Snapshot)
  {
    Snapshot(TRANSITION_TO_2026, COMPACT, len - 1, [], None, false, 0, 1, 0)
  }

  /** The interactive tree reached with no timers left. */
  function Arrived(len: nat): (t: Snapshot)
  {
    Snapshot(INTERACTIVE_TREE, COMPACT, len - 1, [], None, false, 0, 0, 0)
  }

  function Ticks(k: nat): (es: seq<Event>)
  {
    seq(k, _ => Tick)
  }

  lemma StartCounts(len: nat)
    requires len >= 1
    ensures Next(Initial(), Start, len) == Counting(0, len)
  {
  }

  /** Below the last label the tick is the only event that can happen; at the last, the transition. */
  lemma CountdownIssued(k: int, e: Event, len: nat)
    requires len >= 1 && 0 <= k <= len - 1
    ensures Issued(Counting(k, len), e) <==> (if k < len - 1 then e == Tick else e == Announce)
  {
  }

  lemma TickAdvances(k: int, len: nat)
    requires 0 <= k < len - 1
    ensures Next(Counting(k, len), Tick, len) == Counting(k + 1, len)
  {
  }

  lemma {:induction false} RunConcat(s: Snapshot, a: seq<Event>, b: seq<Event>, len: nat)
    ensures Run(s, a + b, len) == Run(Run(s, a, len), b, len)
    decreases |a|
  {
    if a == [] {
      assert a + b == b;
    } else {
      assert (a + b)[1..] == a[1..] + b;
      RunConcat(Next(s, a[0], len), a[1..], b, len);
    }
  }

  /** k ticks from index j reach index j + k. */
  lemma {:induction false} TicksRun(j: int, k: nat, len: nat)
    requires 0 <= j && j + k <= len - 1
    ensures Run(Counting(j, len), Ticks(k), len) == Counting(j + k, len)
    decreases k
  {
    if k > 0 {
      TickAdvances(j, len);
      assert Ticks(k)[0] == Tick;
      assert Ticks(k)[1..] == Ticks(k - 1);
      TicksRun(j + 1, k - 1, len);
    }
  }

  /** TREE_ASSEMBLE with the delay to the interactive tree pending. */
  function Assembling(len: nat): (t: Snapshot)
  {
    Snapshot(TREE_ASSEMBLE, COMPACT, len - 1, [], None, false, 0, 0, 1)
  }

  lemma RunOne(s: Snapshot, e: Event, len: nat)
    ensures Run(s, [e], len) == Next(s, e, len)
  {
    assert [e][1..] == [];
  }

  /** The last label's announcement, the completion and the delay. */
  lemma PhaseSteps(len: nat)
    requires len >= 1
    ensures Next(Counting(len - 1, len), Announce, len) == Transitioning(len)
    ensures Next(Transitioning(len), TransitionComplete, len) == Assembling(len)
    ensures Next(Assembling(len), DelayElapsed, len) == Arrived(len)
  {
  }

  /** Start, then len - 1 increments, reach the last label. */
  lemma {:induction false} CountdownRun(len: nat)
    requires len >= 1
    ensures Run(Initial(), [Start] + Ticks(len - 1), len) == Counting(len - 1, len)
  {
    StartCounts(len);
    RunOne(Initial(), Start, len);
    RunConcat(Initial(), [Start], Ticks(len - 1), len);
    TicksRun(0, len - 1, len);
  }

  /**
   * From INTRO, start, then len - 1 increments and the end-of-countdown
   * callback (len countdown timer callbacks in all) reach TRANSITION_TO_2026;
   * the completion and the delay then reach INTERACTIVE_TREE with the mode
   * still COMPACT and no timer left.
   */
  lemma {:induction false} FullRun(len: nat)
    requires len >= 1
    ensures Run(Initial(), [Start] + Ticks(len - 1) + [Announce], len) == Transitioning(len)
    ensures Run(Initial(), [Start] + Ticks(len - 1) + [Announce] + [TransitionComplete] + [DelayElapsed], len)
            == Arrived(len)
    ensures Arrived(len).treeMode == COMPACT
  {
    var counted := [Start] + Ticks(len - 1);
    CountdownRun(len);
    PhaseSteps(len);
    RunConcat(Initial(), counted, [Announce], len);
    RunOne(Counting(len - 1, len), Announce, len);
    var announced := counted + [Announce];
    RunConcat(Initial(), announced, [TransitionComplete], len);
    RunOne(Transitioning(len), TransitionComplete, len);
    RunConcat(Initial(), announced + [TransitionComplete], [DelayElapsed], len);
    RunOne(Assembling(len), DelayElapsed, len);
  }

  // ---------------------------------------------------------------------
  // The component

  /** The App component: its useState fields and its pending timers. */
  class App {
    /** COUNTDOWN_SEQUENCE. */
    const labels: seq<string>
    var appState: AppState
    var treeMode: TreeDisplayMode
    var countdownIndex: int
    var userPhotos: seq<UserPhoto>
    var focusedPhotoId: Option<string>
    var tickArmed: bool
    var announcePending: nat
    var completePending: nat
    var interactivePending: nat

    function Snap(): (s: Snapshot)
      reads this
    {
      Snapshot(appState, treeMode, countdownIndex, userPhotos, focusedPhotoId,
               tickArmed, announcePending, completePending, interactivePending)
    }

    constructor(labels: seq<string>)
      ensures this.labels == labels && Snap() == Initial()
    {
      this.labels := labels;
      appState, treeMode, countdownIndex := INTRO, COMPACT, -1;
      userPhotos, focusedPhotoId := [], None;
      tickArmed, announcePending, completePending, interactivePending := false, 0, 0, 0;
    }

    /** The re-render after an event: re-runs the effects whose dependencies changed. */
    method Rerender(before: Snapshot)
      modifies this
      ensures Snap() == Settle(before, old(Snap()), |labels|)
    {
      if !Rendered(before, Snap()) {
        return;
      }
      if appState != before.appState || countdownIndex != before.countdownIndex {
        tickArmed := false;
        if appState == COUNTDOWN {
          if countdownIndex < |labels| - 1 {
            tickArmed := true;
          } else {
            announcePending := announcePending + 1;
          }
        }
      }
      if appState == TRANSITION_TO_2026 {
        completePending := completePending + 1;
      }
    }

    method HandleStart()
      modifies this
      ensures Snap() == Next(old(Snap()), Start, |labels|)
    {
      var before := Snap();
      appState := COUNTDOWN;
      countdownIndex := 0;
      Rerender(before);
    }

    /** The cleared countdown timer fires: prev => prev + 1. */
    method Tick()
      requires tickArmed
      modifies this
      ensures Snap() == Next(old(Snap()), Event.Tick, |labels|)
    {
      var before := Snap();
      tickArmed := false;
      countdownIndex := countdownIndex + 1;
      Rerender(before);
    }

    /** The end-of-countdown timer fires. */
    method Announce()
      requires announcePending > 0
      modifies this
      ensures Snap() == Next(old(Snap()), Event.Announce, |labels|)
    {
      var before := Snap();
      announcePending := announcePending - 1;
      appState := TRANSITION_TO_2026;
      Rerender(before);
    }

    /** Experience's timer fires and calls handleTransitionComplete(TREE_ASSEMBLE). */
    method HandleTransitionComplete()
      requires completePending > 0
      modifies this
      ensures Snap() == Next(old(Snap()), TransitionComplete, |labels|)
    {
      var before := Snap();
      completePending := completePending - 1;
      appState := TREE_ASSEMBLE;
      interactivePending := interactivePending + 1;
      Rerender(before);
    }

    /** handleTransitionComplete's delayed setAppState(INTERACTIVE_TREE). */
    method DelayElapsed()
      requires interactivePending > 0
      modifies this
      ensures Snap() == Next(old(Snap()), Event.DelayElapsed, |labels|)
    {
      var before := Snap();
      interactivePending := interactivePending - 1;
      appState := INTERACTIVE_TREE;
      Rerender(before);
    }

    method ToggleTreeMode()
      modifies this
      ensures Snap() == Next(old(Snap()), Toggle, |labels|)
    {
      var before := Snap();
      if treeMode == COMPACT {
        treeMode := SCATTERED;
        focusedPhotoId := None;
      } else if treeMode == SCATTERED {
        treeMode := COMPACT;
        focusedPhotoId := None;
      } else {
        treeMode := COMPACT;
        focusedPhotoId := None;
      }
      Rerender(before);
    }

    /** addPhoto, with the generated id passed in. */
    method AddPhoto(id: string, url: string)
      modifies this
      ensures Snap() == Next(old(Snap()), Event.AddPhoto(id, url), |labels|)
    {
      var before := Snap();
      userPhotos := userPhotos + [UserPhoto(id, url)];
      Rerender(before);
    }

    method SelectPhoto(id: string)
      modifies this
      ensures Snap() == Next(old(Snap()), Event.SelectPhoto(id), |labels|)
    {
      var before := Snap();
      focusedPhotoId := Some(id);
      treeMode := PHOTO_FOCUS;
      Rerender(before);
    }

    /** The overlay's close handler. */
    method ClosePhoto()
      modifies this
      ensures Snap() == Next(old(Snap()), Event.ClosePhoto, |labels|)
    {
      var before := Snap();
      focusedPhotoId := None;
      treeMode := SCATTERED;
      Rerender(before);
    }
  }
}
