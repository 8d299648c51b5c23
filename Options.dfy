/**
 * The option merge performed by `init` in lib/wptr.1.1.js: every option takes the
 * caller's value when that value is truthy and the module default otherwise.
 * Elements are abstract identities; a selector lookup that finds nothing is `None`.
 */
module PullOptions {

  datatype Option<T> = None | Some(value: T)

  /** An element of the page, known only by its identity. */
  type Element = nat

  const DEFAULT_DISTANCE_TO_REFRESH: real := 60.0
  const DEFAULT_RESISTANCE: real := 2.5

  /**
   * What the caller passed to `init`. A missing or falsy element or number is `None`;
   * a number that is present may still be 0, which JavaScript treats as falsy.
   * A callback is only present or absent.
   */
  datatype Params = Params(
    containerEl: Option<Element>,
    contentEl: Option<Element>,
    topEl: Option<Element>,
    distanceToRefresh: Option<real>,
    refreshFunction: bool,
    loadingFunction: bool,
    resistance: Option<real>)

  const NO_PARAMS := Params(None, None, None, None, false, false, None)

  /** What `document.querySelector` returns for the three default selectors. */
  datatype Lookup = Lookup(container: Option<Element>, content: Option<Element>, top: Option<Element>)

  /** The merged options the handlers read. */
  datatype Options = Options(
    containerEl: Option<Element>,
    contentEl: Option<Element>,
    topEl: Option<Element>,
    distanceToRefresh: real,
    refreshFunction: bool,
    loadingFunction: bool,
    resistance: real)

  /** JavaScript's `x || fallback` for an element that may be missing. */
  function ElementOr(x: Option<Element>, fallback: Option<Element>): Option<Element> {
    match x
    case Some(_) => x
    case None => fallback
  }

  /** JavaScript's `x || fallback` for a number: a missing number and 0 are both falsy. */
  function NumberOr(x: Option<real>, fallback: real): real {
    match x
    case Some(v) => if v != 0.0 then v else fallback
    case None => fallback
  }

  /** The merge of lines 72-80: an explicit truthy value wins, otherwise the default. */
  function Resolve(p: Params, found: Lookup): (o: Options)
    ensures o.containerEl == (if p.containerEl.Some? then p.containerEl else found.container)
    ensures o.contentEl == (if p.contentEl.Some? then p.contentEl else found.content)
    ensures o.topEl == (if p.topEl.Some? then p.topEl else found.top)
    ensures p.distanceToRefresh.Some? && p.distanceToRefresh.value != 0.0 ==>
              o.distanceToRefresh == p.distanceToRefresh.value
    ensures (p.distanceToRefresh.None? || p.distanceToRefresh.value == 0.0) ==>
              o.distanceToRefresh == DEFAULT_DISTANCE_TO_REFRESH
    ensures p.resistance.Some? && p.resistance.value != 0.0 ==> o.resistance == p.resistance.value
    ensures (p.resistance.None? || p.resistance.value == 0.0) ==> o.resistance == DEFAULT_RESISTANCE
    ensures o.refreshFunction == p.refreshFunction && o.loadingFunction == p.loadingFunction
    ensures o.resistance != 0.0 && o.distanceToRefresh != 0.0
  {
    Options(
      ElementOr(p.containerEl, found.container),
      ElementOr(p.contentEl, found.content),
      ElementOr(p.topEl, found.top),
      NumberOr(p.distanceToRefresh, DEFAULT_DISTANCE_TO_REFRESH),
      p.refreshFunction || false,
      p.loadingFunction || false,
      NumberOr(p.resistance, DEFAULT_RESISTANCE))
  }

  /** The guard of line 82: `init` goes on only when all three elements were resolved. */
  predicate Complete(o: Options) {
    o.containerEl.Some? && o.contentEl.Some? && o.topEl.Some?
  }

  /**
   * With no parameters at all, the defaults are used and `init` succeeds exactly when
   * the three default selectors each find an element.
   */
  lemma DefaultsWhenNoParams(found: Lookup)
    ensures var o := Resolve(NO_PARAMS, found);
      o.distanceToRefresh == 60.0 && o.resistance == 2.5 &&
      !o.refreshFunction && !o.loadingFunction &&
      (Complete(o) <==> found.container.Some? && found.content.Some? && found.top.Some?)
  {
  }
}
