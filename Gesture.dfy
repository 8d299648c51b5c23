/**
 * The pull-to-refresh state machine of lib/wptr.1.1.js as values: the two axis records,
 * the container's class list, the content element's transform, and the work the
 * handlers leave for later (one-shot `transitionend` listeners, outstanding callbacks).
 * Each handler of the source is one function from the old state to the new one.
 */
module Gesture {
  import opened PullOptions

  /** One of the `refresh` / `loading` records: is the axis armed, and how far it is pulled. */
  datatype Axis = Axis(enabled: bool, distance: real)

  const AT_REST := Axis(false, 0.0)

  /** The content element's `style.transform`: empty, or a vertical translation. */
  datatype Transform = Untransformed | Translated(dy: real)

  const TOP_REFRESH := "top-refresh"
  const BOTTOM_REFRESH := "bottom-refresh"
  const TOP_LOADING := "top-loading"
  const BOTTOM_LOADING := "bottom-loading"
  const TOP_RESET := "top-reset"
  const BOTTOM_RESET := "bottom-reset"

  /** The six class names this widget owns; every other class of the container is the page's. */
  const EDGE_CLASSES := {TOP_REFRESH, BOTTOM_REFRESH, TOP_LOADING, BOTTOM_LOADING, TOP_RESET, BOTTOM_RESET}

  /**
   * Everything the handlers read or write. `topResetListeners` counts the one-shot
   * listeners registered by `_doResetRefresh` that have not fired yet (likewise for the
   * bottom); `pendingRefresh` counts refresh callbacks invoked whose reset has not run.
   */
  datatype State = State(
    refresh: Axis,
    loading: Axis,
    classes: set<string>,
    transform: Transform,
    topResetListeners: nat,
    bottomResetListeners: nat,
    pendingRefresh: nat,
    pendingLoading: nat)

  /** The early-return test of `_panDown` and `_panUp`: is either axis armed? */
  predicate Engaged(s: State) {
    s.refresh.enabled || s.loading.enabled
  }

  /** Both axes at `{enabled: false, distance: 0}`. */
  predicate AxesAtRest(s: State) {
    s.refresh == AT_REST && s.loading == AT_REST
  }

  /** The threshold classes agree with the distances, as `_setContainerClass` leaves them. */
  predicate Coherent(s: State, threshold: real) {
    (TOP_REFRESH in s.classes <==> s.refresh.distance > threshold) &&
    (BOTTOM_REFRESH in s.classes <==> s.loading.distance > threshold)
  }

  predicate NonNegative(s: State) {
    s.refresh.distance >= 0.0 && s.loading.distance >= 0.0
  }

  /** `classList.add` when `on`, `classList.remove` otherwise. */
  function Toggle(cs: set<string>, name: string, on: bool): (r: set<string>)
    ensures name in r <==> on
    ensures forall c :: c != name ==> (c in r <==> c in cs)
  {
    if on then cs + {name} else cs - {name}
  }

  /**
   * `_panStart`: arm the refresh axis at the top of the page and the loading axis at
   * the bottom. Nothing is ever disarmed here and no distance changes.
   */
  function PanStart(s: State, scrollTop: real, scrollHeight: real, clientHeight: real): (r: State)
    ensures r.refresh.enabled <==> s.refresh.enabled || scrollTop == 0.0
    ensures r.loading.enabled <==> s.loading.enabled || scrollHeight == clientHeight + scrollTop
    ensures s.refresh.enabled ==> r.refresh.enabled
    ensures s.loading.enabled ==> r.loading.enabled
    ensures r.refresh.distance == s.refresh.distance && r.loading.distance == s.loading.distance
    ensures r == s.(refresh := r.refresh, loading := r.loading)
  {
    var armedTop := if scrollTop == 0.0 then s.(refresh := s.refresh.(enabled := true)) else s;
    if scrollHeight == clientHeight + scrollTop then
      armedTop.(loading := armedTop.loading.(enabled := true))
    else
      armedTop
  }

  /**
   * `_setContentPan`: follow the armed axis; when both are armed the loading axis is
   * written last and wins; when neither is, the transform is left alone.
   */
  function SetContentPan(s: State): (r: State)
    ensures s.loading.enabled ==> r.transform == Translated(-s.loading.distance)
    ensures s.refresh.enabled && !s.loading.enabled ==> r.transform == Translated(s.refresh.distance)
    ensures !Engaged(s) ==> r == s
    ensures r == s.(transform := r.transform)
  {
    var t := if s.refresh.enabled then Translated(s.refresh.distance) else s.transform;
    s.(transform := if s.loading.enabled then Translated(-s.loading.distance) else t)
  }

  /**
   * `_setContainerClass`: `top-refresh` present iff the refresh pull exceeds the
   * threshold, `bottom-refresh` likewise for the loading pull; no other class changes.
   */
  function SetContainerClass(s: State, threshold: real): (r: State)
    ensures Coherent(r, threshold)
    ensures forall c :: c != TOP_REFRESH && c != BOTTOM_REFRESH ==> (c in r.classes <==> c in s.classes)
    ensures r == s.(classes := r.classes)
  {
    var withTop := Toggle(s.classes, TOP_REFRESH, s.refresh.distance > threshold);
    s.(classes := Toggle(withTop, BOTTOM_REFRESH, s.loading.distance > threshold))
  }

  /** The pull written into both axes by `_panDown`: the active axis always, the other one conditionally. */
  function Pulled(active: Axis, opposite: Axis, scaled: real): (Axis, Axis) {
    (active.(distance := scaled),
     opposite.(distance := if opposite.distance < scaled then 0.0 else scaled))
  }

  /**
   * `_panDown` with Hammer's cumulative distance `d`. A no-op when neither axis is armed;
   * otherwise the refresh axis takes `d / resistance`, the loading axis is zeroed when its
   * previous pull is below that and takes it otherwise, then transform and classes follow.
   */
  function PanDown(s: State, o: Options, d: real): (r: State)
    requires o.resistance != 0.0
    ensures !Engaged(s) ==> r == s
    ensures Engaged(s) ==> r.refresh.distance == d / o.resistance
    ensures Engaged(s) && s.loading.distance < d / o.resistance ==> r.loading.distance == 0.0
    ensures Engaged(s) && s.loading.distance >= d / o.resistance ==> r.loading.distance == d / o.resistance
    ensures r.refresh.enabled == s.refresh.enabled && r.loading.enabled == s.loading.enabled
    ensures Engaged(s) ==> Coherent(r, o.distanceToRefresh)
    ensures Engaged(s) ==>
      r.transform == if s.loading.enabled then Translated(-r.loading.distance) else Translated(r.refresh.distance)
    ensures forall c :: c != TOP_REFRESH && c != BOTTOM_REFRESH ==> (c in r.classes <==> c in s.classes)
    ensures r == s.(refresh := r.refresh, loading := r.loading, classes := r.classes, transform := r.transform)
  {
    if !Engaged(s) then s
    else
      var (refresh, loading) := Pulled(s.refresh, s.loading, d / o.resistance);
      SetContainerClass(SetContentPan(s.(refresh := refresh, loading := loading)), o.distanceToRefresh)
  }

  /** `_panUp`: `_panDown` with the roles of the two axes exchanged. */
  function PanUp(s: State, o: Options, d: real): (r: State)
    requires o.resistance != 0.0
    ensures !Engaged(s) ==> r == s
    ensures Engaged(s) ==> r.loading.distance == d / o.resistance
    ensures Engaged(s) && s.refresh.distance < d / o.resistance ==> r.refresh.distance == 0.0
    ensures Engaged(s) && s.refresh.distance >= d / o.resistance ==> r.refresh.distance == d / o.resistance
    ensures r.refresh.enabled == s.refresh.enabled && r.loading.enabled == s.loading.enabled
    ensures Engaged(s) ==> Coherent(r, o.distanceToRefresh)
    ensures Engaged(s) ==>
      r.transform == if s.loading.enabled then Translated(-r.loading.distance) else Translated(r.refresh.distance)
    ensures forall c :: c != TOP_REFRESH && c != BOTTOM_REFRESH ==> (c in r.classes <==> c in s.classes)
    ensures r == s.(refresh := r.refresh, loading := r.loading, classes := r.classes, transform := r.transform)
  {
    if !Engaged(s) then s
    else
      var (loading, refresh) := Pulled(s.loading, s.refresh, d / o.resistance);
      SetContainerClass(SetContentPan(s.(refresh := refresh, loading := loading)), o.distanceToRefresh)
  }

  /**
   * `_doResetRefresh`: clear the transform, drop `top-loading` and `top-refresh`, add
   * `top-reset`, and register one more one-shot `transitionend` listener.
   */
  function DoResetRefresh(s: State): (r: State)
    ensures r.transform == Untransformed
    ensures TOP_LOADING !in r.classes && TOP_REFRESH !in r.classes && TOP_RESET in r.classes
    ensures forall c :: c != TOP_LOADING && c != TOP_REFRESH && c != TOP_RESET ==> (c in r.classes <==> c in s.classes)
    ensures r.topResetListeners == s.topResetListeners + 1
    ensures r == s.(transform := r.transform, classes := r.classes, topResetListeners := r.topResetListeners)
  {
    s.(transform := Untransformed,
       classes := s.classes - {TOP_LOADING} - {TOP_REFRESH} + {TOP_RESET},
       topResetListeners := s.topResetListeners + 1)
  }

  /** `_doResetLoading`: the bottom mirror of `DoResetRefresh`. */
  function DoResetLoading(s: State): (r: State)
    ensures r.transform == Untransformed
    ensures BOTTOM_LOADING !in r.classes && BOTTOM_REFRESH !in r.classes && BOTTOM_RESET in r.classes
    ensures forall c :: c != BOTTOM_LOADING && c != BOTTOM_REFRESH && c != BOTTOM_RESET ==> (c in r.classes <==> c in s.classes)
    ensures r.bottomResetListeners == s.bottomResetListeners + 1
    ensures r == s.(transform := r.transform, classes := r.classes, bottomResetListeners := r.bottomResetListeners)
  {
    s.(transform := Untransformed,
       classes := s.classes - {BOTTOM_LOADING} - {BOTTOM_REFRESH} + {BOTTOM_RESET},
       bottomResetListeners := s.bottomResetListeners + 1)
  }

  /**
   * The synchronous part of `_doRefreshLoading`: show `top-loading`; without a refresh
   * callback reset at once, otherwise invoke it (one more outstanding refresh).
   */
  function DoRefreshLoading(s: State, o: Options): (r: State)
    ensures !o.refreshFunction ==> TOP_LOADING !in r.classes && TOP_RESET in r.classes && r == DoResetRefresh(s)
    ensures o.refreshFunction ==> r == s.(classes := s.classes + {TOP_LOADING}, pendingRefresh := s.pendingRefresh + 1)
    ensures forall c :: c != TOP_LOADING && c != TOP_REFRESH && c != TOP_RESET ==> (c in r.classes <==> c in s.classes)
  {
    var shown := s.(classes := s.classes + {TOP_LOADING});
    if !o.refreshFunction then DoResetRefresh(shown)
    else shown.(pendingRefresh := shown.pendingRefresh + 1)
  }

  /**
   * The synchronous part of `_doMoreLoading`: show `bottom-loading` and invoke the loading
   * callback if there is one. Without one, nothing resets the indicator.
   */
  function DoMoreLoading(s: State, o: Options): (r: State)
    ensures BOTTOM_LOADING in r.classes
    ensures r.classes == s.classes + {BOTTOM_LOADING}
    ensures r.pendingLoading == s.pendingLoading + (if o.loadingFunction then 1 else 0)
    ensures r == s.(classes := r.classes, pendingLoading := r.pendingLoading)
  {
    var shown := s.(classes := s.classes + {BOTTOM_LOADING});
    if !o.loadingFunction then shown
    else shown.(pendingLoading := shown.pendingLoading + 1)
  }

  /** Which way `_panEnd` goes, decided on the classes set during the drag. */
  datatype Branch = RefreshBranch | LoadMoreBranch | ResetBranch

  function EndBranch(s: State): Branch {
    if s.refresh.enabled && TOP_REFRESH in s.classes then RefreshBranch
    else if s.loading.enabled && BOTTOM_REFRESH in s.classes then LoadMoreBranch
    else ResetBranch
  }

  /**
   * `_panEnd`: snap the content back, take the refresh branch, else the load-more branch,
   * else reset both edges; in every case finish with both axes at rest. A callback is
   * invoked exactly when its branch is taken and it is configured.
   */
  function PanEnd(s: State, o: Options): (r: State)
    ensures AxesAtRest(r)
    ensures r.transform == Untransformed
    ensures r.pendingRefresh == s.pendingRefresh +
      (if EndBranch(s) == RefreshBranch && o.refreshFunction then 1 else 0)
    ensures r.pendingLoading == s.pendingLoading +
      (if EndBranch(s) == LoadMoreBranch && o.loadingFunction then 1 else 0)
    ensures EndBranch(s) == RefreshBranch <==> s.refresh.enabled && TOP_REFRESH in s.classes
    ensures EndBranch(s) == LoadMoreBranch <==>
      !(s.refresh.enabled && TOP_REFRESH in s.classes) && s.loading.enabled && BOTTOM_REFRESH in s.classes
    ensures forall c :: c !in EDGE_CLASSES ==> (c in r.classes <==> c in s.classes)
    ensures EndBranch(s) == RefreshBranch ==>
      r == DoRefreshLoading(s.(transform := Untransformed), o).(refresh := AT_REST, loading := AT_REST)
    ensures EndBranch(s) == RefreshBranch && o.refreshFunction ==> r.classes == s.classes + {TOP_LOADING}
    ensures EndBranch(s) == RefreshBranch && !o.refreshFunction ==>
      TOP_LOADING !in r.classes && TOP_REFRESH !in r.classes && TOP_RESET in r.classes &&
      r.topResetListeners == s.topResetListeners + 1
    ensures EndBranch(s) == LoadMoreBranch ==>
      r == DoMoreLoading(s.(transform := Untransformed), o).(refresh := AT_REST, loading := AT_REST)
    ensures EndBranch(s) == LoadMoreBranch ==> r.classes == s.classes + {BOTTOM_LOADING}
    ensures EndBranch(s) == ResetBranch ==>
      r == DoResetLoading(DoResetRefresh(s.(transform := Untransformed))).(refresh := AT_REST, loading := AT_REST)
    ensures EndBranch(s) == ResetBranch ==>
      TOP_RESET in r.classes && BOTTOM_RESET in r.classes &&
      TOP_REFRESH !in r.classes && BOTTOM_REFRESH !in r.classes &&
      TOP_LOADING !in r.classes && BOTTOM_LOADING !in r.classes &&
      r.topResetListeners == s.topResetListeners + 1 && r.bottomResetListeners == s.bottomResetListeners + 1
    ensures EndBranch(s) != ResetBranch ==> r.bottomResetListeners == s.bottomResetListeners
  {
    var snapped := s.(transform := Untransformed);
    var acted := match EndBranch(s)
      case RefreshBranch => DoRefreshLoading(snapped, o)
      case LoadMoreBranch => DoMoreLoading(snapped, o)
      case ResetBranch => DoResetLoading(DoResetRefresh(snapped));
    acted.(refresh := AT_REST, loading := AT_REST)
  }

  /**
   * The refresh callback's promise has settled and the 200 ms timer has fired. Only a
   * fulfilled promise runs `_doResetRefresh`: a rejected one has no handler attached.
   */
  function RefreshSettled(s: State, fulfilled: bool): (r: State)
    requires s.pendingRefresh > 0
    ensures r.pendingRefresh == s.pendingRefresh - 1
    ensures fulfilled ==> r == DoResetRefresh(s.(pendingRefresh := s.pendingRefresh - 1))
    ensures fulfilled ==>
      TOP_LOADING !in r.classes && TOP_REFRESH !in r.classes && TOP_RESET in r.classes &&
      r.transform == Untransformed && r.topResetListeners == s.topResetListeners + 1
    ensures forall c :: c != TOP_LOADING && c != TOP_REFRESH && c != TOP_RESET ==> (c in r.classes <==> c in s.classes)
    ensures r.refresh == s.refresh && r.loading == s.loading && r.pendingLoading == s.pendingLoading
    ensures r.bottomResetListeners == s.bottomResetListeners
    ensures !fulfilled ==> r == s.(pendingRefresh := r.pendingRefresh)
  {
    var settled := s.(pendingRefresh := s.pendingRefresh - 1);
    if fulfilled then DoResetRefresh(settled) else settled
  }

  /** The loading callback's counterpart of `RefreshSettled`, running `_doResetLoading`. */
  function LoadingSettled(s: State, fulfilled: bool): (r: State)
    requires s.pendingLoading > 0
    ensures r.pendingLoading == s.pendingLoading - 1
    ensures fulfilled ==> r == DoResetLoading(s.(pendingLoading := s.pendingLoading - 1))
    ensures fulfilled ==>
      BOTTOM_LOADING !in r.classes && BOTTOM_REFRESH !in r.classes && BOTTOM_RESET in r.classes &&
      r.transform == Untransformed && r.bottomResetListeners == s.bottomResetListeners + 1
    ensures forall c :: c != BOTTOM_LOADING && c != BOTTOM_REFRESH && c != BOTTOM_RESET ==> (c in r.classes <==> c in s.classes)
    ensures r.refresh == s.refresh && r.loading == s.loading && r.pendingRefresh == s.pendingRefresh
    ensures r.topResetListeners == s.topResetListeners
    ensures !fulfilled ==> r == s.(pendingLoading := r.pendingLoading)
  {
    var settled := s.(pendingLoading := s.pendingLoading - 1);
    if fulfilled then DoResetLoading(settled) else settled
  }

  /**
   * A `transitionend` reaches the body: every registered one-shot listener runs once and
   * unregisters itself, so `top-reset` goes iff a top listener was waiting (same for bottom).
   */
  function TransitionEnd(s: State): (r: State)
    ensures TOP_RESET in r.classes <==> TOP_RESET in s.classes && s.topResetListeners == 0
    ensures BOTTOM_RESET in r.classes <==> BOTTOM_RESET in s.classes && s.bottomResetListeners == 0
    ensures forall c :: c != TOP_RESET && c != BOTTOM_RESET ==> (c in r.classes <==> c in s.classes)
    ensures r.topResetListeners == 0 && r.bottomResetListeners == 0
    ensures r == s.(classes := r.classes, topResetListeners := 0, bottomResetListeners := 0)
  {
    var top := if s.topResetListeners > 0 then s.classes - {TOP_RESET} else s.classes;
    var both := if s.bottomResetListeners > 0 then top - {BOTTOM_RESET} else top;
    s.(classes := both, topResetListeners := 0, bottomResetListeners := 0)
  }
}
