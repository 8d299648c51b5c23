/**
 * Properties of the gesture machine that span several handlers: the mirror symmetry
 * between pulling down and pulling up, and what whole sequences of events do.
 */
module GestureTraces {
  import opened PullOptions
  import opened Gesture

  /** `_setContainerClass` is idempotent: a second call with the same threshold changes nothing. */
  lemma SetContainerClassIdempotent(s: State, threshold: real)
    ensures SetContainerClass(SetContainerClass(s, threshold), threshold) == SetContainerClass(s, threshold)
  {
    var once := SetContainerClass(s, threshold);
    var twice := SetContainerClass(once, threshold);
    assert twice.classes == once.classes;
  }

  // ---------------------------------------------------------------------------
  // Mirror symmetry: top and bottom exchanged.
  // ---------------------------------------------------------------------------

  /** The class name of the opposite edge; names this module does not own are fixed. */
  function MirrorName(c: string): string {
    if c == TOP_REFRESH then BOTTOM_REFRESH
    else if c == BOTTOM_REFRESH then TOP_REFRESH
    else if c == TOP_LOADING then BOTTOM_LOADING
    else if c == BOTTOM_LOADING then TOP_LOADING
    else if c == TOP_RESET then BOTTOM_RESET
    else if c == BOTTOM_RESET then TOP_RESET
    else c
  }

  function MirrorClasses(cs: set<string>): set<string> {
    set c | c in cs :: MirrorName(c)
  }

  function MirrorTransform(t: Transform): Transform {
    match t
    case Untransformed => Untransformed
    case Translated(dy) => Translated(-dy)
  }

  /** The same screen seen upside down: axes, edge classes, listeners and callbacks exchanged. */
  function Mirror(s: State): State {
    State(s.loading, s.refresh, MirrorClasses(s.classes), MirrorTransform(s.transform),
          s.bottomResetListeners, s.topResetListeners, s.pendingLoading, s.pendingRefresh)
  }

  lemma MirrorNameInvolutive(c: string)
    ensures MirrorName(MirrorName(c)) == c
  {
  }

  /** A name is in the mirrored list exactly when its mirror image is in the original. */
  lemma MirrorClassesMember(cs: set<string>, c: string)
    ensures c in MirrorClasses(cs) <==> MirrorName(c) in cs
  {
    MirrorNameInvolutive(c);
    if MirrorName(c) in cs {
      assert MirrorName(MirrorName(c)) in MirrorClasses(cs);
    }
    if c in MirrorClasses(cs) {
      var m :| m in cs && c == MirrorName(m);
      MirrorNameInvolutive(m);
    }
  }

  /** Mirroring twice gives back the original state. */
  lemma MirrorInvolutive(s: State)
    ensures Mirror(Mirror(s)) == s
  {
    forall c ensures c in MirrorClasses(MirrorClasses(s.classes)) <==> c in s.classes {
      MirrorClassesMember(MirrorClasses(s.classes), c);
      MirrorClassesMember(s.classes, MirrorName(c));
      MirrorNameInvolutive(c);
    }
    assert MirrorClasses(MirrorClasses(s.classes)) == s.classes;
    match s.transform
    case Untransformed =>
    case Translated(dy) =>
  }

  /** Updating the threshold classes commutes with mirroring. */
  lemma SetContainerClassMirrors(s: State, threshold: real)
    ensures SetContainerClass(Mirror(s), threshold) == Mirror(SetContainerClass(s, threshold))
  {
    var lhs := SetContainerClass(Mirror(s), threshold).classes;
    var rhs := Mirror(SetContainerClass(s, threshold)).classes;
    forall c ensures c in lhs <==> c in rhs {
      MirrorClassesMember(s.classes, c);
      MirrorClassesMember(SetContainerClass(s, threshold).classes, c);
    }
    assert lhs == rhs;
  }

  /** Setting the transform commutes with mirroring while the axes are not armed together. */
  lemma SetContentPanMirrors(s: State)
    requires !(s.refresh.enabled && s.loading.enabled)
    ensures SetContentPan(Mirror(s)) == Mirror(SetContentPan(s))
  {
  }

  /**
   * `_panUp` is `_panDown` turned upside down, whenever the two axes are not armed
   * together. (When both are armed, both handlers let the loading axis set the transform,
   * so the symmetry breaks there and only there.)
   */
  lemma PanUpMirrorsPanDown(s: State, o: Options, d: real)
    requires o.resistance != 0.0
    requires !(s.refresh.enabled && s.loading.enabled)
    ensures PanUp(s, o, d) == Mirror(PanDown(Mirror(s), o, d))
  {
    MirrorInvolutive(s);
    if Engaged(s) {
      var (loading, refresh) := Pulled(s.loading, s.refresh, d / o.resistance);
      var moved := s.(refresh := refresh, loading := loading);
      assert Mirror(moved) == Mirror(s).(refresh := loading, loading := refresh);
      SetContentPanMirrors(moved);
      SetContainerClassMirrors(SetContentPan(moved), o.distanceToRefresh);
      calc {
        Mirror(PanDown(Mirror(s), o, d));
        Mirror(SetContainerClass(SetContentPan(Mirror(moved)), o.distanceToRefresh));
        Mirror(SetContainerClass(Mirror(SetContentPan(moved)), o.distanceToRefresh));
        Mirror(Mirror(SetContainerClass(SetContentPan(moved), o.distanceToRefresh)));
        { MirrorInvolutive(SetContainerClass(SetContentPan(moved), o.distanceToRefresh)); }
        PanUp(s, o, d);
      }
    }
  }

  /** `_doResetLoading` is `_doResetRefresh` turned upside down. */
  lemma ResetLoadingMirrorsResetRefresh(s: State)
    ensures DoResetLoading(s) == Mirror(DoResetRefresh(Mirror(s)))
  {
    MirrorInvolutive(s);
    var lhs := DoResetLoading(s).classes;
    var rhs := Mirror(DoResetRefresh(Mirror(s))).classes;
    forall c ensures c in lhs <==> c in rhs {
      MirrorClassesMember(DoResetRefresh(Mirror(s)).classes, c);
      MirrorClassesMember(s.classes, MirrorName(c));
      MirrorNameInvolutive(c);
    }
    assert lhs == rhs;
  }

  // ---------------------------------------------------------------------------
  // Sequences of events.
  // ---------------------------------------------------------------------------

  /**
   * What the environment delivers: Hammer's four pan phases (with the body's scroll
   * readings at the start, and the cumulative distance on each move), a refresh or
   * loading callback that has settled after the 200 ms timer, and a `transitionend`.
   */
  datatype Event =
    | Start(scrollTop: real, scrollHeight: real, clientHeight: real)
    | Down(distance: real)
    | Up(distance: real)
    | End
    | RefreshDone(fulfilled: bool)
    | LoadingDone(fulfilled: bool)
    | TransitionDone

  predicate IsMove(e: Event) {
    e.Down? || e.Up?
  }

  /** A settling event arrives only for a callback that was actually invoked. */
  function Step(s: State, o: Options, e: Event): State
    requires o.resistance != 0.0
  {
    match e
    case Start(top, height, client) => PanStart(s, top, height, client)
    case Down(d) => PanDown(s, o, d)
    case Up(d) => PanUp(s, o, d)
    case End => PanEnd(s, o)
    case RefreshDone(ok) => if s.pendingRefresh > 0 then RefreshSettled(s, ok) else s
    case LoadingDone(ok) => if s.pendingLoading > 0 then LoadingSettled(s, ok) else s
    case TransitionDone => TransitionEnd(s)
  }

  function Run(s: State, o: Options, events: seq<Event>): State
    requires o.resistance != 0.0
    decreases |events|
  {
    if events == [] then s else Run(Step(s, o, events[0]), o, events[1..])
  }

  lemma {:induction false} RunAppend(s: State, o: Options, events: seq<Event>, e: Event)
    requires o.resistance != 0.0
    ensures Run(s, o, events + [e]) == Step(Run(s, o, events), o, e)
    decreases |events|
  {
    if events == [] {
      assert [e][1..] == [];
    } else {
      assert (events + [e])[1..] == events[1..] + [e];
      RunAppend(Step(s, o, events[0]), o, events[1..], e);
    }
  }

  /** Moves while neither axis is armed change nothing at all. */
  lemma {:induction false} MovesIgnoredWhenDisengaged(s: State, o: Options, moves: seq<Event>)
    requires o.resistance != 0.0
    requires !Engaged(s)
    requires forall i :: 0 <= i < |moves| ==> IsMove(moves[i])
    ensures Run(s, o, moves) == s
    decreases |moves|
  {
    if moves != [] {
      assert IsMove(moves[0]);
      MovesIgnoredWhenDisengaged(s, o, moves[1..]);
    }
  }

  /**
   * A gesture that starts neither at the top nor at the bottom of the page, from a state
   * whose axes are at rest, is ignored by every move that follows.
   */
  lemma GestureAwayFromEdgesIgnored(s: State, o: Options, top: real, height: real, client: real,
                                    moves: seq<Event>)
    requires o.resistance != 0.0
    requires AxesAtRest(s)
    requires top != 0.0 && height != client + top
    requires forall i :: 0 <= i < |moves| ==> IsMove(moves[i])
    ensures Run(s, o, [Start(top, height, client)] + moves) == s
  {
    var events := [Start(top, height, client)] + moves;
    assert events[0] == Start(top, height, client) && events[1..] == moves;
    MovesIgnoredWhenDisengaged(PanStart(s, top, height, client), o, moves);
  }

  /**
   * Once an axis is armed, after any non-empty run of moves the threshold classes
   * reflect the last pull, and the armed flags are those the gesture started with.
   */
  lemma {:induction false} MovesKeepClassesCoherent(s: State, o: Options, moves: seq<Event>)
    requires o.resistance != 0.0
    requires Engaged(s)
    requires |moves| > 0
    requires forall i :: 0 <= i < |moves| ==> IsMove(moves[i])
    ensures Coherent(Run(s, o, moves), o.distanceToRefresh)
    ensures Run(s, o, moves).refresh.enabled == s.refresh.enabled
    ensures Run(s, o, moves).loading.enabled == s.loading.enabled
    decreases |moves|
  {
    assert IsMove(moves[0]);
    var next := Step(s, o, moves[0]);
    if |moves| > 1 {
      MovesKeepClassesCoherent(next, o, moves[1..]);
    } else {
      assert moves[1..] == [];
    }
  }

  /** Every step keeps both pulls non-negative when Hammer's distances are and resistance is positive. */
  lemma StepKeepsNonNegative(s: State, o: Options, e: Event)
    requires o.resistance > 0.0
    requires NonNegative(s)
    requires IsMove(e) ==> e.distance >= 0.0
    ensures NonNegative(Step(s, o, e))
  {
    if IsMove(e) {
      var scaled := e.distance / o.resistance;
      assert scaled >= 0.0;
    }
  }

  lemma {:induction false} RunKeepsNonNegative(s: State, o: Options, events: seq<Event>)
    requires o.resistance > 0.0
    requires NonNegative(s)
    requires forall i :: 0 <= i < |events| ==> IsMove(events[i]) ==> events[i].distance >= 0.0
    ensures NonNegative(Run(s, o, events))
    decreases |events|
  {
    if events != [] {
      StepKeepsNonNegative(s, o, events[0]);
      RunKeepsNonNegative(Step(s, o, events[0]), o, events[1..]);
    }
  }

  /** Whatever happened before, a gesture's end leaves both axes at rest and the content untransformed. */
  lemma EveryGestureEndsAtRest(s: State, o: Options, events: seq<Event>)
    requires o.resistance != 0.0
    ensures AxesAtRest(Run(s, o, events + [End]))
    ensures Run(s, o, events + [End]).transform == Untransformed
  {
    RunAppend(s, o, events, End);
  }

  /**
   * A pull that starts at the top of a page taller than the viewport commits to a refresh
   * exactly when the last move left the refresh pull beyond the threshold, and never
   * commits to loading more.
   */
  lemma TopPullCommitsIffPastThreshold(s: State, o: Options, height: real, client: real,
                                       moves: seq<Event>)
    requires o.resistance != 0.0
    requires AxesAtRest(s)
    requires height != client
    requires |moves| > 0
    requires forall i :: 0 <= i < |moves| ==> IsMove(moves[i])
    ensures var last := Run(s, o, [Start(0.0, height, client)] + moves);
      (EndBranch(last) == RefreshBranch <==> last.refresh.distance > o.distanceToRefresh) &&
      EndBranch(last) != LoadMoreBranch
  {
    var events := [Start(0.0, height, client)] + moves;
    assert events[0] == Start(0.0, height, client) && events[1..] == moves;
    var started := PanStart(s, 0.0, height, client);
    MovesKeepClassesCoherent(started, o, moves);
  }

  /** The defaults, with a refresh callback configured. */
  const WITH_REFRESH := Resolve(NO_PARAMS.(refreshFunction := true), Lookup(Some(1), Some(2), Some(3)))

  const FRESH := State(AT_REST, AT_REST, {}, Untransformed, 0, 0, 0, 0)

  /**
   * Threshold 60 and resistance 2.5: a 160 px pull from the top moves the content by 64
   * and sets `top-refresh`, and releasing it invokes the refresh callback once.
   */
  lemma PullOf160Refreshes()
    ensures var pulled := Run(FRESH, WITH_REFRESH, [Start(0.0, 1000.0, 500.0), Down(160.0)]);
      pulled.refresh.distance == 64.0 && TOP_REFRESH in pulled.classes &&
      pulled.transform == Translated(64.0)
    ensures var released := Run(FRESH, WITH_REFRESH, [Start(0.0, 1000.0, 500.0), Down(160.0), End]);
      released.pendingRefresh == 1 && TOP_LOADING in released.classes && AxesAtRest(released)
  {
    var started := PanStart(FRESH, 0.0, 1000.0, 500.0);
    var pulled := PanDown(started, WITH_REFRESH, 160.0);
    assert 160.0 / 2.5 == 64.0;
    assert Run(FRESH, WITH_REFRESH, [Start(0.0, 1000.0, 500.0), Down(160.0)]) == pulled;
    assert Run(FRESH, WITH_REFRESH, [Start(0.0, 1000.0, 500.0), Down(160.0), End]) == PanEnd(pulled, WITH_REFRESH);
  }

  /** A 100 px pull moves the content by only 40: no class, and releasing it resets both edges. */
  lemma PullOf100Resets()
    ensures var pulled := Run(FRESH, WITH_REFRESH, [Start(0.0, 1000.0, 500.0), Down(100.0)]);
      pulled.refresh.distance == 40.0 && TOP_REFRESH !in pulled.classes
    ensures var released := Run(FRESH, WITH_REFRESH, [Start(0.0, 1000.0, 500.0), Down(100.0), End]);
      released.pendingRefresh == 0 && TOP_RESET in released.classes && BOTTOM_RESET in released.classes
  {
    var started := PanStart(FRESH, 0.0, 1000.0, 500.0);
    var pulled := PanDown(started, WITH_REFRESH, 100.0);
    assert 100.0 / 2.5 == 40.0;
    assert Run(FRESH, WITH_REFRESH, [Start(0.0, 1000.0, 500.0), Down(100.0)]) == pulled;
    assert Run(FRESH, WITH_REFRESH, [Start(0.0, 1000.0, 500.0), Down(100.0), End]) == PanEnd(pulled, WITH_REFRESH);
  }
}
