/**
 * The controller of lib/wptr.1.1.js as an object: the module-level `options`, `container`,
 * `refresh` and `loading` records become fields, the container's class list and the
 * content element's transform become fields the handlers update in place, and each
 * handler is a method proved against the matching function of `Gesture`.
 *
 * Hammer, the DOM and the timers are outside: the handlers are called directly with the
 * values they would read (`e.distance`, `document.body.scrollTop`, ...), and the later
 * completions (a callback settling after the 200 ms timer, a `transitionend`) are
 * methods the environment calls.
 */
module PullToRefresh {
  import opened PullOptions
  import Gesture

  class Controller {
    /** The merged options; `None` until `init` has run once. */
    var options: Option<Options>
    /** Whether a successful `init` has attached the four pan handlers. */
    var handlersAttached: bool

    /** The `container` record: the scroll readings taken at the last pan start. */
    var scrollTop: real
    var scrollHeight: real

    var refresh: Gesture.Axis
    var loading: Gesture.Axis

    /** The class list of the bound container element. */
    var classes: set<string>
    /** The bound content element's `style.transform`. */
    var transform: Gesture.Transform

    /** One-shot `transitionend` listeners registered and not yet fired. */
    var topResetListeners: nat
    var bottomResetListeners: nat
    /** Callbacks invoked whose promise has not yet been followed by a reset. */
    var pendingRefresh: nat
    var pendingLoading: nat

    ghost predicate Valid()
      reads this
    {
      (options.Some? ==> options.value.resistance != 0.0) &&
      (handlersAttached ==> options.Some?)
    }

    /** The part of the object the handlers work on, as a `Gesture.State`. */
    function View(): Gesture.State
      reads this
    {
      Gesture.State(refresh, loading, classes, transform,
                    topResetListeners, bottomResetListeners, pendingRefresh, pendingLoading)
    }

    /** The module's state before `init`: both axes disarmed and nothing bound. */
    constructor ()
      ensures Valid()
      ensures options == None && !handlersAttached
      ensures scrollTop == 0.0 && scrollHeight == 0.0
      ensures View() == Gesture.State(Gesture.AT_REST, Gesture.AT_REST, {}, Gesture.Untransformed, 0, 0, 0, 0)
    {
      options := None;
      handlersAttached := false;
      scrollTop, scrollHeight := 0.0, 0.0;
      refresh := Gesture.AT_REST;
      loading := Gesture.AT_REST;
      classes := {};
      transform := Gesture.Untransformed;
      topResetListeners, bottomResetListeners := 0, 0;
      pendingRefresh, pendingLoading := 0, 0;
    }

    /**
     * `init`: merge the options (this happens even when it then fails), and give up when
     * an element is missing. Otherwise bind the container's class list and the content
     * element (their current class list and transform are passed in), disarm both axes
     * and attach the handlers.
     */
    method Init(p: Params, found: Lookup, containerClasses: set<string>, contentTransform: Gesture.Transform)
      returns (attached: bool)
      requires Valid()
      modifies this
      ensures Valid()
      ensures options == Some(Resolve(p, found))
      ensures attached <==> Complete(Resolve(p, found))
      ensures !attached ==> View() == old(View()) && handlersAttached == old(handlersAttached)
      ensures attached ==> handlersAttached && Gesture.AxesAtRest(View())
      ensures attached ==>
        View() == old(View()).(refresh := Gesture.AT_REST, loading := Gesture.AT_REST,
                               classes := containerClasses, transform := contentTransform)
      ensures scrollTop == old(scrollTop) && scrollHeight == old(scrollHeight)
    {
      var merged := Resolve(p, found);
      options := Some(merged);
      if !Complete(merged) {
        return false;
      }
      classes := containerClasses;
      transform := contentTransform;
      refresh := refresh.(enabled := false);
      refresh := refresh.(distance := 0.0);
      loading := loading.(enabled := false);
      loading := loading.(distance := 0.0);
      handlersAttached := true;
      attached := true;
    }

    /** `_panStart`, given the body's scroll offset, scroll height and client height. */
    method PanStart(bodyScrollTop: real, bodyScrollHeight: real, bodyClientHeight: real)
      requires Valid() && handlersAttached
      modifies this`scrollTop, this`scrollHeight, this`refresh, this`loading
      ensures Valid()
      ensures View() == Gesture.PanStart(old(View()), bodyScrollTop, bodyScrollHeight, bodyClientHeight)
      ensures scrollTop == bodyScrollTop && scrollHeight == bodyScrollHeight
    {
      scrollTop := bodyScrollTop;
      scrollHeight := bodyScrollHeight;
      if scrollTop == 0.0 {
        refresh := refresh.(enabled := true);
      }
      if scrollHeight == bodyClientHeight + bodyScrollTop {
        loading := loading.(enabled := true);
      }
    }

    /** `_panDown` with Hammer's distance `d`; `prevented` says whether `preventDefault` was called. */
    method PanDown(d: real) returns (prevented: bool)
      requires Valid() && handlersAttached
      modifies this`refresh, this`loading, this`transform, this`classes
      ensures Valid()
      ensures View() == Gesture.PanDown(old(View()), options.value, d)
      ensures prevented <==> Gesture.Engaged(old(View()))
    {
      if !refresh.enabled && !loading.enabled {
        return false;
      }
      prevented := true;
      var resistance := options.value.resistance;
      refresh := refresh.(distance := d / resistance);
      if loading.distance < d / resistance {
        loading := loading.(distance := 0.0);
      } else {
        loading := loading.(distance := d / resistance);
      }
      SetContentPan();
      SetContainerClass();
    }

    /** `_panUp` with Hammer's distance `d`; `prevented` says whether `preventDefault` was called. */
    method PanUp(d: real) returns (prevented: bool)
      requires Valid() && handlersAttached
      modifies this`refresh, this`loading, this`transform, this`classes
      ensures Valid()
      ensures View() == Gesture.PanUp(old(View()), options.value, d)
      ensures prevented <==> Gesture.Engaged(old(View()))
    {
      if !refresh.enabled && !loading.enabled {
        return false;
      }
      prevented := true;
      var resistance := options.value.resistance;
      loading := loading.(distance := d / resistance);
      if refresh.distance < d / resistance {
        refresh := refresh.(distance := 0.0);
      } else {
        refresh := refresh.(distance := d / resistance);
      }
      SetContentPan();
      SetContainerClass();
    }

    /** `_setContentPan`. */
    method SetContentPan()
      modifies this`transform
      ensures View() == Gesture.SetContentPan(old(View()))
    {
      if refresh.enabled {
        transform := Gesture.Translated(refresh.distance);
      }
      if loading.enabled {
        transform := Gesture.Translated(-loading.distance);
      }
    }

    /** `_setContainerClass`, against the configured threshold. */
    method SetContainerClass()
      requires options.Some?
      modifies this`classes
      ensures View() == Gesture.SetContainerClass(old(View()), options.value.distanceToRefresh)
    {
      if refresh.distance > options.value.distanceToRefresh {
        classes := classes + {Gesture.TOP_REFRESH};
      } else {
        classes := classes - {Gesture.TOP_REFRESH};
      }
      if loading.distance > options.value.distanceToRefresh {
        classes := classes + {Gesture.BOTTOM_REFRESH};
      } else {
        classes := classes - {Gesture.BOTTOM_REFRESH};
      }
    }

    /** `_panEnd`. */
    method PanEnd()
      requires Valid() && handlersAttached
      modifies this`refresh, this`loading, this`transform, this`classes,
               this`topResetListeners, this`bottomResetListeners, this`pendingRefresh, this`pendingLoading
      ensures Valid()
      ensures View() == Gesture.PanEnd(old(View()), options.value)
    {
      transform := Gesture.Untransformed;
      if refresh.enabled && Gesture.TOP_REFRESH in classes {
        DoRefreshLoading();
      } else if loading.enabled && Gesture.BOTTOM_REFRESH in classes {
        DoMoreLoading();
      } else {
        DoResetRefresh();
        DoResetLoading();
      }
      refresh := refresh.(enabled := false);
      refresh := refresh.(distance := 0.0);
      loading := loading.(enabled := false);
      loading := loading.(distance := 0.0);
    }

    /** The synchronous part of `_doRefreshLoading`: invoking the callback is counted as pending. */
    method DoRefreshLoading()
      requires options.Some?
      modifies this`transform, this`classes, this`topResetListeners, this`pendingRefresh
      ensures View() == Gesture.DoRefreshLoading(old(View()), options.value)
    {
      classes := classes + {Gesture.TOP_LOADING};
      if !options.value.refreshFunction {
        DoResetRefresh();
        return;
      }
      pendingRefresh := pendingRefresh + 1;
    }

    /** The synchronous part of `_doMoreLoading`. */
    method DoMoreLoading()
      requires options.Some?
      modifies this`classes, this`pendingLoading
      ensures View() == Gesture.DoMoreLoading(old(View()), options.value)
    {
      classes := classes + {Gesture.BOTTOM_LOADING};
      if !options.value.loadingFunction {
        return;
      }
      pendingLoading := pendingLoading + 1;
    }

    /** `_doResetRefresh`, including the registration of its one-shot listener. */
    method DoResetRefresh()
      modifies this`transform, this`classes, this`topResetListeners
      ensures View() == Gesture.DoResetRefresh(old(View()))
    {
      transform := Gesture.Untransformed;
      classes := classes - {Gesture.TOP_LOADING};
      classes := classes - {Gesture.TOP_REFRESH};
      classes := classes + {Gesture.TOP_RESET};
      topResetListeners := topResetListeners + 1;
    }

    /** `_doResetLoading`, including the registration of its one-shot listener. */
    method DoResetLoading()
      modifies this`transform, this`classes, this`bottomResetListeners
      ensures View() == Gesture.DoResetLoading(old(View()))
    {
      transform := Gesture.Untransformed;
      classes := classes - {Gesture.BOTTOM_LOADING};
      classes := classes - {Gesture.BOTTOM_REFRESH};
      classes := classes + {Gesture.BOTTOM_RESET};
      bottomResetListeners := bottomResetListeners + 1;
    }

    /** A refresh promise has settled and its 200 ms timer has fired: `.then(_doResetRefresh)`. */
    method RefreshSettled(fulfilled: bool)
      requires pendingRefresh > 0
      modifies this`transform, this`classes, this`topResetListeners, this`pendingRefresh
      ensures View() == Gesture.RefreshSettled(old(View()), fulfilled)
    {
      pendingRefresh := pendingRefresh - 1;
      if fulfilled {
        DoResetRefresh();
      }
    }

    /** A loading promise has settled and its 200 ms timer has fired: `.then(_doResetLoading)`. */
    method LoadingSettled(fulfilled: bool)
      requires pendingLoading > 0
      modifies this`transform, this`classes, this`bottomResetListeners, this`pendingLoading
      ensures View() == Gesture.LoadingSettled(old(View()), fulfilled)
    {
      pendingLoading := pendingLoading - 1;
      if fulfilled {
        DoResetLoading();
      }
    }

    /** A `transitionend` reaches the body: each waiting one-shot listener runs and unregisters. */
    method TransitionEnd()
      modifies this`classes, this`topResetListeners, this`bottomResetListeners
      ensures View() == Gesture.TransitionEnd(old(View()))
    {
      if topResetListeners > 0 {
        classes := classes - {Gesture.TOP_RESET};
      }
      if bottomResetListeners > 0 {
        classes := classes - {Gesture.BOTTOM_RESET};
      }
      topResetListeners, bottomResetListeners := 0, 0;
    }
  }

  /**
   * A client of the controller: a 160 px pull from the top with the default options and a
   * refresh callback, through to the callback settling and the reset transition ending.
   */
  method RefreshCycle() {
    var c := new Controller();
    var attached := c.Init(NO_PARAMS.(refreshFunction := true), Lookup(Some(1), Some(2), Some(3)), {"panel"},
                           Gesture.Untransformed);
    assert attached;
    c.PanStart(0.0, 1000.0, 500.0);
    var prevented := c.PanDown(160.0);
    assert 160.0 / 2.5 == 64.0;
    assert prevented && c.transform == Gesture.Translated(64.0) && Gesture.TOP_REFRESH in c.classes;
    c.PanEnd();
    assert c.pendingRefresh == 1 && Gesture.TOP_LOADING in c.classes && c.transform == Gesture.Untransformed;
    c.RefreshSettled(true);
    assert Gesture.TOP_LOADING !in c.classes && Gesture.TOP_RESET in c.classes;
    c.TransitionEnd();
    assert Gesture.TOP_RESET !in c.classes && "panel" in c.classes;
  }
}
