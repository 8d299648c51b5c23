# Pull-to-refresh gesture controller

A Dafny model of `PullToRefresh` (lib/wptr.1.1.js), a small browser widget. It listens to
vertical pan gestures on a content panel. It translates the panel by the drag distance
divided by a resistance factor. It marks the container with `top-refresh` /
`bottom-refresh` once the pull passes a threshold (default 60 px, resistance default 2.5).
When the finger is released past the threshold, it invokes a caller-supplied refresh or
load-more callback; otherwise it resets both edges.

The project has three modules:

- `PullOptions` (Options.dfy) covers the option merge of `init`. Each option is the
  caller's value when that is truthy and the default otherwise. So `0` for the threshold
  or the resistance falls back to the default, and the resolved resistance is never 0.
- `Gesture` (Gesture.dfy) is the state machine as values. A `State` holds:
  - the `refresh` and `loading` axis records;
  - the container's class list, as a `set<string>`;
  - the content element's transform, which is either empty or a vertical translation;
  - the work left for later: one-shot `transitionend` listeners not yet fired, and
    callbacks invoked whose reset has not yet run.

  Each handler of the source is one function on `State`. `GestureTraces` (Traces.dfy)
  adds an event type and `Run` over event sequences. It proves properties that span
  handlers: pulling up mirrors pulling down, moves are ignored away from the edges, the
  threshold classes follow the last move, distances stay non-negative, and every gesture
  ends at rest. It also checks the worked example of a 160 px against a 100 px pull.
- `PullToRefresh` (Controller.dfy) holds the `Controller` class. Its fields are the
  module-level records of the source. Each handler is a method that updates those fields
  as the source does. Each method's postcondition equates the new state with the
  matching `Gesture` function applied to the old state.

Asynchrony becomes explicit steps that the environment calls:

- `RefreshSettled` / `LoadingSettled` mean "the callback's promise has settled and the
  200 ms timer has fired". Only a fulfilled promise runs the reset, because the source
  attaches no rejection handler.
- `TransitionEnd` runs every registered one-shot listener once.

The source behaves as follows in places a reader might not expect, and the model does
the same:

- `init` returns `false` on failure but `undefined` (also falsy) on success
  (lib/wptr.1.1.js:82-106). The model returns `attached: bool`, which is true exactly
  when the handlers were attached.
- Both axes can be armed in the same gesture: `_panStart` arms both when `scrollTop == 0`
  and the page is no taller than the viewport. In that case the loading axis decides the
  transform, and `PanUpMirrorsPanDown` excludes exactly that case.
- `_panStart` never disarms an axis or clears a distance. Only `_panEnd` (and a
  successful `init`) puts the axes back at rest.
- Options are overwritten even when `init` then fails (line 72 runs before the check at
  line 82).
- The opposing axis is zeroed only when its previous pull is below the new scaled
  distance (lines 148 and 180). Without a loading callback, `bottom-loading` stays set
  (lines 276-280). Both behaviours are modelled as written.

## Model

| member | source | states |
|---|---|---|
| PullOptions.Resolve | lib/wptr.1.1.js:70-80 | each option is the explicit parameter when it is truthy, else the default. A threshold or resistance of 0 falls back to 60 / 2.5. Element parameters win over the selector lookups. The resolved resistance is never 0 |
| PullOptions.DefaultsWhenNoParams | lib/wptr.1.1.js:71-84 | with no parameters, the threshold is 60, the resistance 2.5 and no callbacks are set. `init` goes on iff all three default selectors find an element |
| PullToRefresh.Controller.constructor | lib/wptr.1.1.js:40-63 | before `init`: no options, no handlers, both axes `{enabled: false, distance: 0}`, scroll readings 0 |
| PullToRefresh.Controller.Init | lib/wptr.1.1.js:70-106 | options are replaced by the merge in every case. It returns true iff container, content and top all resolved. On failure the axes, classes and transform are untouched and no handler is attached. On success it binds the container's classes, disarms both axes and attaches the handlers |
| Gesture.PanStart | lib/wptr.1.1.js:113-128 | refresh is armed iff it already was or `scrollTop == 0`. Loading is armed iff it already was or `scrollHeight == clientHeight + scrollTop`. It never disarms and never changes a distance or anything else |
| PullToRefresh.Controller.PanStart | lib/wptr.1.1.js:113-128 | records the scroll readings and updates the axes exactly as `Gesture.PanStart` |
| Gesture.SetContentPan | lib/wptr.1.1.js:194-201 | armed loading gives translate(−loading distance), and it wins when both are armed. Only refresh armed gives translate(+refresh distance). Neither armed leaves the state unchanged. Only the transform changes |
| PullToRefresh.Controller.SetContentPan | lib/wptr.1.1.js:194-201 | the in-place transform update equals `Gesture.SetContentPan` |
| Gesture.Toggle | lib/wptr.1.1.js:207-216 | `classList.add`/`remove`: the name is present iff requested, and every other name keeps its membership |
| Gesture.SetContainerClass | lib/wptr.1.1.js:206-217 | afterwards `top-refresh` is present iff refresh distance > threshold, and `bottom-refresh` iff loading distance > threshold. No other class and no other field changes |
| PullToRefresh.Controller.SetContainerClass | lib/wptr.1.1.js:206-217 | the in-place class updates equal `Gesture.SetContainerClass` at the configured threshold |
| GestureTraces.SetContainerClassIdempotent | lib/wptr.1.1.js:206-217 | calling `_setContainerClass` twice equals calling it once |
| Gesture.PanDown | lib/wptr.1.1.js:135-156 | a no-op when neither axis is armed. Otherwise refresh distance = d / resistance. Loading distance becomes 0 if its previous value < d / resistance, else d / resistance. Armed flags are kept. Threshold classes match the new distances. The transform follows the armed axis. Only `*-refresh` classes change |
| PullToRefresh.Controller.PanDown | lib/wptr.1.1.js:135-156 | `preventDefault` is called iff an axis is armed. The new state equals `Gesture.PanDown` of the old one |
| Gesture.PanUp | lib/wptr.1.1.js:163-188 | the same as `PanDown` with refresh and loading exchanged in the distance update |
| PullToRefresh.Controller.PanUp | lib/wptr.1.1.js:163-188 | `preventDefault` is called iff an axis is armed. The new state equals `Gesture.PanUp` of the old one |
| GestureTraces.PanUpMirrorsPanDown | lib/wptr.1.1.js:135-188 | unless both axes are armed, `_panUp` equals `_panDown` on the top/bottom-mirrored state, mirrored back: axes, classes, transform and all |
| Gesture.DoResetRefresh | lib/wptr.1.1.js:295-312 | clears the transform, removes `top-loading` and `top-refresh`, adds `top-reset` and registers one more one-shot listener. Every other class, including all bottom-* classes, is untouched |
| PullToRefresh.Controller.DoResetRefresh | lib/wptr.1.1.js:295-312 | the in-place updates equal `Gesture.DoResetRefresh` |
| Gesture.DoResetLoading | lib/wptr.1.1.js:314-331 | the bottom counterpart: removes `bottom-loading` and `bottom-refresh`, adds `bottom-reset`, clears the transform and touches no other class |
| PullToRefresh.Controller.DoResetLoading | lib/wptr.1.1.js:314-331 | the in-place updates equal `Gesture.DoResetLoading` |
| GestureTraces.ResetLoadingMirrorsResetRefresh | lib/wptr.1.1.js:295-331 | `_doResetLoading` is exactly `_doResetRefresh` on the mirrored state |
| Gesture.DoRefreshLoading | lib/wptr.1.1.js:254-263 | without a refresh callback it ends with `top-loading` absent and `top-reset` present (an immediate reset). With one, `top-loading` is added and exactly one callback invocation is pending. No class outside the top-* trio changes |
| PullToRefresh.Controller.DoRefreshLoading | lib/wptr.1.1.js:254-263 | the in-place updates equal `Gesture.DoRefreshLoading` |
| Gesture.DoMoreLoading | lib/wptr.1.1.js:275-283 | `bottom-loading` is present afterwards, with or without a callback. Nothing is reset. A loading invocation is pending iff a loading callback is configured |
| PullToRefresh.Controller.DoMoreLoading | lib/wptr.1.1.js:275-283 | the in-place updates equal `Gesture.DoMoreLoading` |
| Gesture.PanEnd | lib/wptr.1.1.js:224-249 | it always ends with both axes `{enabled: false, distance: 0}` and the transform cleared. The refresh branch is taken iff refresh is armed and `top-refresh` is present. Otherwise the load branch is taken iff loading is armed and `bottom-refresh` is present. Otherwise both edges are reset, leaving both `*-reset` classes and none of the four others. Each callback is invoked exactly once on its branch when configured, and never otherwise. Per branch, the result is the matching `_doRefreshLoading`, `_doMoreLoading` or double reset applied to the snapped state: the refresh branch adds `top-loading` (or, with no callback, resets the top edge); the load branch adds `bottom-loading` and nothing else; the reset branch registers one listener per edge. Classes outside the six edge names are kept in every branch |
| PullToRefresh.Controller.PanEnd | lib/wptr.1.1.js:224-249 | the in-place updates equal `Gesture.PanEnd` under the configured callbacks |
| Gesture.RefreshSettled | lib/wptr.1.1.js:266-269 | once the timer has fired and the promise has settled, one pending refresh is gone. If fulfilled, the result is exactly `_doResetRefresh` of the settled state: `top-loading` and `top-refresh` removed, `top-reset` added, the transform cleared and one more top listener registered. Bottom-* classes, the axes and the other counters never change. If rejected, nothing else changes |
| PullToRefresh.Controller.RefreshSettled | lib/wptr.1.1.js:266-269 | the in-place updates equal `Gesture.RefreshSettled` |
| Gesture.LoadingSettled | lib/wptr.1.1.js:286-289 | the loading counterpart of `RefreshSettled`: when fulfilled, exactly `_doResetLoading` of the settled state (`bottom-loading` and `bottom-refresh` removed, `bottom-reset` added, one more bottom listener). Top-* classes, the axes and the other counters never change |
| PullToRefresh.Controller.LoadingSettled | lib/wptr.1.1.js:286-289 | the in-place updates equal `Gesture.LoadingSettled` |
| Gesture.TransitionEnd | lib/wptr.1.1.js:306-330 | every waiting one-shot listener fires and unregisters. `top-reset` is removed iff a top listener was registered, and the same holds for the bottom. No other class changes |
| PullToRefresh.Controller.TransitionEnd | lib/wptr.1.1.js:306-330 | the in-place updates equal `Gesture.TransitionEnd` |
| GestureTraces.MovesIgnoredWhenDisengaged | lib/wptr.1.1.js:135-188 | any sequence of moves while neither axis is armed leaves the whole state unchanged |
| GestureTraces.GestureAwayFromEdgesIgnored | lib/wptr.1.1.js:113-188 | take a gesture that starts from rest with `scrollTop > 0` and the page not scrolled to the bottom. The start and every move after it change nothing |
| GestureTraces.MovesKeepClassesCoherent | lib/wptr.1.1.js:135-217 | after any non-empty run of moves with an armed axis, `top-refresh` / `bottom-refresh` reflect the last pull against the threshold, and the armed flags are unchanged |
| GestureTraces.RunKeepsNonNegative | lib/wptr.1.1.js:146-184 | with non-negative drag distances and a positive resistance, both pull distances stay ≥ 0 through any event sequence |
| GestureTraces.EveryGestureEndsAtRest | lib/wptr.1.1.js:245-248 | whatever came before, a `panend` leaves both axes at rest and the content untransformed |
| GestureTraces.TopPullCommitsIffPastThreshold | lib/wptr.1.1.js:224-243 | take a pull that starts at the top of a page taller than the viewport. Releasing it takes the refresh branch iff the last move left refresh distance > threshold, and it never takes the load-more branch |
| GestureTraces.PullOf160Refreshes | lib/wptr.1.1.js:146-155 | with the defaults, a 160 px pull gives distance 64 > 60, sets `top-refresh` and translates by 64. Releasing it invokes the refresh callback once and shows `top-loading` |
| GestureTraces.PullOf100Resets | lib/wptr.1.1.js:236-243 | with the defaults, a 100 px pull gives 40: no `top-refresh`. Releasing it invokes nothing and resets both edges |

## Left out

- Hammer construction and event wiring (lib/wptr.1.1.js:88-94, 102-105) are left out; the handlers are called directly. A second successful `init` attaches a second recognizer, so the source would then run every handler twice per event. The model runs it once.
- `document.querySelector` and the `document.body` scroll readings are parameters of `Init` and `PanStart`. The current class list and transform of a newly bound element are parameters of `Init` too.
- `console.log` calls have no behaviour and are not modelled.
- The `translate3d(...)` string and the duplicate `webkitTransform` assignment become the `Transform` datatype. With a negative resistance (a truthy option) the loading pull can be negative. The source would then write an invalid `--N px` string, which the browser ignores. The model records `Translated(N)`.
- `setTimeout(..., 200)` and the promise chain are collapsed into one step, `RefreshSettled` / `LoadingSettled`, that the environment calls once both have completed. The 200 ms minimum is not modelled. A callback that throws, or that returns something other than a promise, is not modelled either.
- The `transitionend` listeners are counted, not stored as closures. Which element's transition triggered the event is not modelled.
- Numbers are unbounded reals, not IEEE doubles. Nothing is claimed about the rounding of `e.distance / resistance`. A `NaN` threshold or resistance is falsy in JavaScript and falls back to the default exactly as a missing one does, so it is represented by `None`.
- `topEl` is resolved and checked by `init` but never used afterwards, so the model keeps it only in `Options`.
- `_panEnd` always calls `preventDefault`. `Controller.PanEnd` does not report it.
- A failed `init` after a successful one leaves the old handlers attached, and they now read the new options. If the content element is missing there, the source throws a `TypeError` in `_setContentPan`. If a different content element was resolved, the source's handlers write that new element's transform (lines 196, 199, 232), while the model keeps updating the `transform` of the element bound by the last successful `Init`. Neither case is captured.
