/**
 * The engine controller: the `Stickier` instance with its tracked elements,
 * viewport, scroll offset and the listeners it has attached to the window,
 * and the record it keeps on each tracked element.
 */
module Engine {
  import opened Wrappers
  import opened Dom
  import opened Geometry
  import opened Container
  import opened Style
  import opened Config
  import opened Activation
  import opened Position

  datatype Viewport = Viewport(width: int, height: int)

  /**
   * A listener this engine has attached to the window. Each per-element
   * handler is a distinct closure, told apart by its identity `id`.
   */
  datatype Listener =
    | ScrollTopOnLoad                                // `load` -> updateScrollTopPosition
    | ScrollTopOnScroll                              // `scroll` -> updateScrollTopPosition
    | ResizeHandler(element: StickyElement, id: nat) // `resize` -> onResizeEvents(element)
    | ScrollHandler(element: StickyElement, id: nat) // `scroll` -> onScrollEvents(element)
  {
    predicate PerElement()
    {
      ResizeHandler? || ScrollHandler?
    }
  }

  /** `l` is the handler that the element's record `s` currently points to. */
  predicate IsCurrent(l: Listener, s: StickyState)
  {
    match l
    case ResizeHandler(_, id) => s.onResize == Some(id)
    case ScrollHandler(_, id) => s.onScroll == Some(id)
    case _ => false
  }

  /**
   * A page element the engine may render. `state` holds what the engine
   * mutates on it: its `sticky` record, its inline style, its class list and
   * its wrapper's inline style. `container` is the record's sticky container,
   * set each time the element is rendered.
   */
  class StickyElement {
    const node: NodeId
    var container: NodeId
    var state: StickyState

    /** The element and its sticky container are nodes of the document. */
    predicate AttachedTo(doc: Document)
      reads `container
    {
      node in doc.nodes && container in doc.nodes
    }

    /**
     * An element not rendered yet: it carries its own inline style and class
     * list, no handlers, and no container other than itself.
     */
    constructor(node: NodeId, style: Style, classes: set<string>)
      ensures this.node == node && container == node
      ensures state.style == style && state.classes == classes
      ensures state.onResize.None? && state.onScroll.None? && !state.active
    {
      this.node := node;
      container := node;
      state := StickyState(false, 0, 0, 0, None, false, "", Rectangle(0, 0, 0, 0), Rectangle(0, 0, 0, 0),
                           None, None, style, classes, None);
    }
  }

  /**
   * The record `renderElement` builds before activation: inactive, no
   * handlers yet, and, when wrapping, a fresh wrapper with no inline style.
   * The element's own style and class list carry over.
   */
  function Rendered(config: ElementConfig, rect: Rectangle, containerRect: Rectangle,
                    style: Style, classes: set<string>): StickyState
  {
    StickyState(false, config.marginTop, config.marginBottom, config.stickyFor, config.stickyClass,
                config.wrap, config.stickyContainer, rect, containerRect, None, None, style, classes,
                if config.wrap then Some(map[]) else None)
  }

  /** A handler already set stays; a missing one becomes the new closure `id`. */
  function Attach(handler: Option<nat>, id: nat): Option<nat>
  {
    if handler.Some? then handler else Some(id)
  }

  /**
   * `activate` before its call to `setPosition`: the flag can only be
   * raised, and missing handlers become the closures `next` and `next + 1`.
   */
  function Activated(s: StickyState, viewportWidth: int, next: nat): StickyState
  {
    s.(active := s.active || ShouldBeActive(s.rect, s.containerRect, s.stickyFor, viewportWidth),
       onResize := Attach(s.onResize, next), onScroll := Attach(s.onScroll, next + 1))
  }

  /**
   * `onResizeEvents` before its call to `setPosition`: the cached rectangle
   * follows the wrapper (the element's parent) when wrapping, the container
   * is re-measured, and the flag becomes the activation test itself.
   */
  function Resized(s: StickyState, doc: Document, node: NodeId, container: NodeId, viewportWidth: int): StickyState
    requires doc.Valid() && node in doc.nodes && container in doc.nodes
    requires s.wrap ==> node in doc.parentElement
  {
    var rect := if s.wrap then Measure(doc, doc.parentElement[node]) else s.rect;
    var containerRect := Measure(doc, container);
    s.(rect := rect, containerRect := containerRect,
       active := ShouldBeActive(rect, containerRect, s.stickyFor, viewportWidth))
  }

  /**
   * What `update` leaves on one tracked element, whose handlers are already
   * set: its record after re-measuring both rectangles, raising the flag
   * under the activation test and positioning in `env`.
   */
  function Refreshed(s: StickyState, rect: Rectangle, containerRect: Rectangle, viewportWidth: int,
                     env: Surroundings): StickyState
  {
    Positioned(s.(rect := rect, containerRect := containerRect,
                  active := s.active || ShouldBeActive(rect, containerRect, s.stickyFor, viewportWidth)), env)
  }

  /**
   * Activating twice is activating once: the flag, once raised, stays, and
   * handlers already set are kept, so the second call creates none.
   */
  lemma ActivatedIdempotent(s: StickyState, viewportWidth: int, next: nat, later: nat)
    ensures Activated(Activated(s, viewportWidth, next), viewportWidth, later) == Activated(s, viewportWidth, next)
    ensures Activated(s, viewportWidth, next).onResize.Some? && Activated(s, viewportWidth, next).onScroll.Some?
  {
  }

  /**
   * The resize handler decides the flag afresh: whatever it was before, the
   * record after the resize is the same, and it is raised exactly when the
   * activation test holds on the re-measured rectangles.
   */
  lemma ResizedForgetsFlag(s: StickyState, doc: Document, node: NodeId, container: NodeId, viewportWidth: int)
    requires doc.Valid() && node in doc.nodes && container in doc.nodes
    requires s.wrap ==> node in doc.parentElement
    ensures Resized(s.(active := true), doc, node, container, viewportWidth)
         == Resized(s.(active := false), doc, node, container, viewportWidth)
    ensures var r := Resized(s, doc, node, container, viewportWidth);
      r.active <==> ShouldBeActive(r.rect, r.containerRect, s.stickyFor, viewportWidth)
  {
  }

  class Stickier {
    var finalElements: seq<StickyElement>
    var vp: Viewport
    var body: Option<NodeId>
    var options: Options
    var scrollTop: int
    var listeners: set<Listener>
    /** How many handler closures this engine has created: the next one is `closures`. */
    var closures: nat

    /**
     * Tracked elements are distinct, each outside `pending` has both handlers,
     * and every per-element listener belongs to a tracked element and was
     * created before `closures`.
     */
    ghost predicate Tracking(pending: set<StickyElement>)
      reads this, finalElements
    {
      && (forall i, j :: 0 <= i < j < |finalElements| ==> finalElements[i] != finalElements[j])
      && (forall e :: e in finalElements && e !in pending ==> e.state.onResize.Some? && e.state.onScroll.Some?)
      && (forall l :: l in listeners && l.PerElement() ==> l.element in finalElements && l.id < closures)
    }

    ghost predicate Valid()
      reads this, finalElements
    {
      Tracking({})
    }

    /**
     * The constructor, after the target lookup: options resolved with their
     * defaults, nothing tracked yet, the scroll offset tracked on load and scroll.
     */
    constructor(options: PartialOptions, viewport: Viewport, scrollTop: int, body: Option<NodeId>)
      ensures Valid()
      ensures finalElements == [] && listeners == {ScrollTopOnLoad, ScrollTopOnScroll}
      ensures this.options == ResolveOptions(options) && this.options.wrap
      ensures vp == viewport && this.scrollTop == scrollTop && this.body == body && closures == 0
    {
      finalElements := [];
      vp := viewport;
      this.body := body;
      this.options := ResolveOptions(options);
      this.scrollTop := scrollTop;
      listeners := {ScrollTopOnLoad, ScrollTopOnScroll};
      closures := 0;
    }

    /** What `setPosition` reads for element `e` besides its own record. */
    function SurroundingsOf(e: StickyElement, doc: Document): Surroundings
      reads `vp, `scrollTop, `body, e`container
      requires doc.Valid() && e.AttachedTo(doc)
    {
      Surroundings(vp.height, scrollTop, body == Some(e.container),
                   doc.nodes[e.container].offsetHeight, Measure(doc, e.node))
    }

    /** `e` was re-measured, activated and positioned from the record `before`. */
    ghost predicate RefreshedFrom(e: StickyElement, before: StickyState, doc: Document)
      reads `vp, `scrollTop, `body, e`container, e`state
      requires doc.Valid()
    {
      && e.AttachedTo(doc)
      && e.state == Refreshed(before, Measure(doc, e.node), Measure(doc, e.container), vp.width, SurroundingsOf(e, doc))
    }

    /** `updateScrollTopPosition`, with the offset read from the window as the argument. */
    method UpdateScrollTopPosition(offset: int)
      requires Valid()
      modifies this
      ensures Valid()
      ensures scrollTop == offset
      ensures finalElements == old(finalElements) && listeners == old(listeners) && closures == old(closures)
      ensures vp == old(vp) && body == old(body) && options == old(options)
    {
      scrollTop := offset;
    }

    /** `setPosition`: the step-by-step writes whose result is `Positioned`. */
    method SetPosition(e: StickyElement, doc: Document)
      requires doc.Valid() && e.AttachedTo(doc)
      modifies e`state
      ensures e.state == Positioned(old(e.state), SurroundingsOf(e, doc))
    {
      ghost var s0 := e.state;
      ghost var env := SurroundingsOf(e, doc);
      var cleared := Css(Some(e.state.style), ClearPlacement);
      e.state := e.state.(style := cleared.value);

      if vp.height < e.state.rect.height || !e.state.active {
        assert RegimeOf(s0, env) == Skipped;
        return;
      }

      if e.state.rect.width == 0 {
        var measured := GetRectangle(doc, Some(e.node));
        e.state := e.state.(rect := measured.value);
      }

      if e.state.wrap {
        var boxed := Css(e.state.wrapperStyle, WrapperBox(e.state.rect));
        e.state := e.state.(wrapperStyle := boxed);
      }
      assert e.state == Prepared(s0, env);
      Place(e, doc, s0, env);
    }

    /** The regime branch of `setPosition`, once the rectangle is current and the wrapper boxed. */
    method Place(e: StickyElement, doc: Document, ghost s0: StickyState, ghost env: Surroundings)
      requires doc.Valid() && e.AttachedTo(doc)
      requires env == SurroundingsOf(e, doc) && RegimeOf(s0, env) != Skipped
      requires e.state == Prepared(s0, env)
      modifies e`state
      ensures e.state == Positioned(s0, env)
    {
      var s := e.state;
      if s.rect.top == 0 && body == Some(e.container) {
        assert RegimeOf(s0, env) == TopPinned;
        var pinned := Css(Some(s.style), [(Position, Fixed), (Top, Px(s.rect.top)), (Left, Px(s.rect.left))]);
        e.state := s.(style := pinned.value, classes := AddClass(s.classes, s.stickyClass));
      } else if scrollTop > s.rect.top - s.marginTop {
        assert RegimeOf(s0, env) == Stuck || RegimeOf(s0, env) == Exiting;
        PlaceScrolled(e, doc, s0, env);
      } else {
        assert RegimeOf(s0, env) == Released;
        var released := Css(Some(s.style), [(Position, Empty), (Top, Empty)]);
        e.state := s.(style := released.value, classes := RemoveClass(s.classes, s.stickyClass));
        if s.wrap {
          var unboxed := Css(s.wrapperStyle, ClearWrapper);
          e.state := e.state.(wrapperStyle := unboxed);
        }
      }
    }

    /** The scrolled-through branch: stuck at the top margin, or exiting at the container's bottom. */
    method PlaceScrolled(e: StickyElement, doc: Document, ghost s0: StickyState, ghost env: Surroundings)
      requires doc.Valid() && e.AttachedTo(doc)
      requires env == SurroundingsOf(e, doc) && (RegimeOf(s0, env) == Stuck || RegimeOf(s0, env) == Exiting)
      requires e.state == Prepared(s0, env)
      modifies e`state
      ensures e.state == Positioned(s0, env)
    {
      ghost var target := Positioned(s0, env);
      var s := e.state;
      var fixed := Css(Some(s.style), [(Position, Fixed), (Left, Px(s.rect.left))]);
      var offsetHeight := doc.nodes[e.container].offsetHeight;
      if scrollTop + s.rect.height + s.marginTop > s.containerRect.top + offsetHeight - s.marginBottom {
        assert RegimeOf(s0, env) == Exiting;
        var top := s.containerRect.top + offsetHeight - (scrollTop + s.rect.height + s.marginBottom);
        assert top == ExitTop(s0, s.rect, env);
        var exit := Css(fixed, [(Top, Px(top))]);
        assert exit.value == target.style;
        e.state := s.(style := exit.value, classes := RemoveClass(s.classes, s.stickyClass));
      } else {
        assert RegimeOf(s0, env) == Stuck;
        var stuck := Css(fixed, [(Top, Px(s.marginTop))]);
        assert stuck.value == target.style;
        e.state := s.(style := stuck.value, classes := AddClass(s.classes, s.stickyClass));
      }
    }

    /**
     * `activate`: raise the flag when the element fits in its container and
     * the viewport is wide enough (never lower it), track the element once,
     * attach each handler only when the record has none, then position it.
     */
    method Activate(e: StickyElement, doc: Document)
      requires Tracking({e}) && doc.Valid() && e.AttachedTo(doc)
      modifies `finalElements, `listeners, `closures, e`state
      ensures Valid()
      ensures finalElements == if e in old(finalElements) then old(finalElements) else old(finalElements) + [e]
      ensures listeners == old(listeners) + (if old(e.state.onResize).Some? then {} else {ResizeHandler(e, old(closures))})
                                          + (if old(e.state.onScroll).Some? then {} else {ScrollHandler(e, old(closures) + 1)})
      ensures closures == if old(e.state.onResize).Some? && old(e.state.onScroll).Some? then old(closures) else old(closures) + 2
      ensures vp == old(vp) && scrollTop == old(scrollTop) && body == old(body) && options == old(options)
      ensures e.state == Positioned(Activated(old(e.state), vp.width, old(closures)), SurroundingsOf(e, doc))
      ensures e.state.active == (old(e.state.active) || ShouldBeActive(old(e.state.rect), old(e.state.containerRect), e.state.stickyFor, vp.width))
      ensures e.state.onResize.Some? && e.state.onScroll.Some?
    {
      Arm(e);
      SetPosition(e, doc);
    }

    /** The part of `activate` before `setPosition`. */
    method Arm(e: StickyElement)
      requires Tracking({e})
      modifies `finalElements, `listeners, `closures, e`state
      ensures Valid()
      ensures finalElements == if e in old(finalElements) then old(finalElements) else old(finalElements) + [e]
      ensures listeners == old(listeners) + (if old(e.state.onResize).Some? then {} else {ResizeHandler(e, old(closures))})
                                          + (if old(e.state.onScroll).Some? then {} else {ScrollHandler(e, old(closures) + 1)})
      ensures closures == if old(e.state.onResize).Some? && old(e.state.onScroll).Some? then old(closures) else old(closures) + 2
      ensures vp == old(vp) && scrollTop == old(scrollTop) && body == old(body) && options == old(options)
      ensures e.state == Activated(old(e.state), vp.width, old(closures))
    {
      if !e.state.active && ShouldBeActive(e.state.rect, e.state.containerRect, e.state.stickyFor, vp.width) {
        e.state := e.state.(active := true);
      }
      if e !in finalElements {
        finalElements := finalElements + [e];
      }
      AttachHandlers(e);
    }

    /** `initResizeEvents` and `initScrollEvents`, each run only when the record has no such handler. */
    method AttachHandlers(e: StickyElement)
      requires Tracking({e}) && e in finalElements
      modifies this`listeners, this`closures, e`state
      ensures Valid()
      ensures listeners == old(listeners) + (if old(e.state.onResize).Some? then {} else {ResizeHandler(e, old(closures))})
                                          + (if old(e.state.onScroll).Some? then {} else {ScrollHandler(e, old(closures) + 1)})
      ensures closures == if old(e.state.onResize).Some? && old(e.state.onScroll).Some? then old(closures) else old(closures) + 2
      ensures e.state == old(e.state).(onResize := Attach(old(e.state.onResize), old(closures)),
                                       onScroll := Attach(old(e.state.onScroll), old(closures) + 1))
    {
      var next := closures;
      var created := e.state.onResize.None? || e.state.onScroll.None?;
      if e.state.onResize.None? {
        listeners := listeners + {ResizeHandler(e, next)};
        e.state := e.state.(onResize := Some(next));
      }
      if e.state.onScroll.None? {
        listeners := listeners + {ScrollHandler(e, next + 1)};
        e.state := e.state.(onScroll := Some(next + 1));
      }
      if created {
        closures := next + 2;
      }
    }

    /**
     * `onResizeEvents`: record the new viewport, re-measure the wrapper (when
     * wrapping) and the container, recompute the flag, then position.
     */
    method OnResizeEvents(e: StickyElement, doc: Document, viewport: Viewport)
      requires Valid() && doc.Valid() && e.AttachedTo(doc)
      requires e.state.wrap ==> e.node in doc.parentElement
      modifies this, e`state
      ensures Valid()
      ensures vp == viewport
      ensures finalElements == old(finalElements) && listeners == old(listeners) && closures == old(closures)
      ensures scrollTop == old(scrollTop) && body == old(body) && options == old(options)
      ensures e.state == Positioned(Resized(old(e.state), doc, e.node, e.container, viewport.width), SurroundingsOf(e, doc))
      ensures e.state.containerRect == Measure(doc, e.container)
      ensures e.state.active == ShouldBeActive(
        if e.state.wrap then Measure(doc, doc.parentElement[e.node]) else old(e.state.rect),
        e.state.containerRect, e.state.stickyFor, viewport.width)
    {
      vp := viewport;
      Refit(e, doc, viewport.width);
      SetPosition(e, doc);
    }

    /** The part of `onResizeEvents` before `setPosition`. */
    method Refit(e: StickyElement, doc: Document, viewportWidth: int)
      requires doc.Valid() && e.AttachedTo(doc)
      requires e.state.wrap ==> e.node in doc.parentElement
      modifies e`state
      ensures e.state == Resized(old(e.state), doc, e.node, e.container, viewportWidth)
    {
      if e.state.wrap {
        var wrapper := GetRectangle(doc, Some(doc.parentElement[e.node]));
        e.state := e.state.(rect := wrapper.value);
      }
      var containerRect := GetRectangle(doc, Some(e.container));
      e.state := e.state.(containerRect := containerRect.value);

      var s := e.state;
      if !s.active && Contained(s.rect, s.containerRect) && s.stickyFor < viewportWidth {
        e.state := s.(active := true);
      } else if !Contained(s.rect, s.containerRect) || (s.stickyFor >= viewportWidth && s.active) {
        e.state := s.(active := false);
      }
    }

    /** `onScrollEvents`: an active element is positioned again; an inactive one is left alone. */
    method OnScrollEvents(e: StickyElement, doc: Document)
      requires doc.Valid() && e.AttachedTo(doc)
      modifies e`state
      ensures e.state == if old(e.state.active) then Positioned(old(e.state), SurroundingsOf(e, doc)) else old(e.state)
      ensures e.state.active == old(e.state.active)
    {
      if e.state.active {
        SetPosition(e, doc);
      }
    }

    /**
     * `update`: every tracked element is re-measured, activated and
     * positioned again.
     */
    method Update(doc: Document)
      requires Valid() && doc.Valid()
      requires forall e :: e in finalElements ==> e.AttachedTo(doc)
      modifies `finalElements, `listeners, `closures, finalElements`state
      ensures Valid()
      ensures finalElements == old(finalElements) && listeners == old(listeners) && closures == old(closures)
      ensures vp == old(vp) && scrollTop == old(scrollTop) && body == old(body) && options == old(options)
      ensures forall e :: e in finalElements ==> RefreshedFrom(e, old(e.state), doc)
    {
      var elements := finalElements;
      ghost var before, after := ExpectedRecords(doc);
      RefreshEach(doc, elements, before, after);
      Completed(doc, elements, before, after);
    }

    /** The `forEach` of `update`: each element in turn is re-measured, activated and positioned. */
    method RefreshEach(doc: Document, elements: seq<StickyElement>, ghost before: map<StickyElement, StickyState>,
                       ghost after: map<StickyElement, StickyState>)
      requires Valid() && doc.Valid() && finalElements == elements
      requires Planned(doc, elements, before, after) && Progress(elements, 0, before, after)
      modifies `finalElements, `listeners, `closures, elements`state
      ensures Valid()
      ensures finalElements == old(finalElements) && listeners == old(listeners) && closures == old(closures)
      ensures Planned(doc, elements, before, after) && Progress(elements, |elements|, before, after)
    {
      for i := 0 to |elements|
        invariant Valid()
        invariant finalElements == elements && listeners == old(listeners) && closures == old(closures)
        invariant Progress(elements, i, before, after)
      {
        Advance(doc, elements, i, before, after);
      }
    }

    /** Once every element holds its `after` record, each was refreshed from its `before` record. */
    lemma Completed(doc: Document, elements: seq<StickyElement>, before: map<StickyElement, StickyState>,
                    after: map<StickyElement, StickyState>)
      requires doc.Valid() && Planned(doc, elements, before, after) && Progress(elements, |elements|, before, after)
      ensures forall e :: e in elements ==> e in before && RefreshedFrom(e, before[e], doc)
    {
    }

    /** Each element of `elements` is attached, and `after` is its record refreshed from `before`. */
    ghost predicate Planned(doc: Document, elements: seq<StickyElement>, before: map<StickyElement, StickyState>,
                            after: map<StickyElement, StickyState>)
      reads `vp, `scrollTop, `body, elements`container
      requires doc.Valid()
    {
      && (forall e :: e in elements ==> e.AttachedTo(doc) && e in before && e in after)
      && (forall e {:trigger Measure(doc, e.node)} :: e in elements && e.AttachedTo(doc) && e in before && e in after ==>
            after[e] == Refreshed(before[e], Measure(doc, e.node), Measure(doc, e.container), vp.width, SurroundingsOf(e, doc)))
    }

    /** The first `i` elements hold their `after` records, the rest their `before` records. */
    ghost predicate Progress(elements: seq<StickyElement>, i: nat, before: map<StickyElement, StickyState>,
                             after: map<StickyElement, StickyState>)
      reads elements`state
    {
      && i <= |elements|
      && (forall j :: 0 <= j < i ==> elements[j] in after && elements[j].state == after[elements[j]])
      && (forall j :: i <= j < |elements| ==> elements[j] in before && elements[j].state == before[elements[j]])
    }

    /** The records `update` starts from and will leave, taken before the loop. */
    lemma ExpectedRecords(doc: Document) returns (before: map<StickyElement, StickyState>, after: map<StickyElement, StickyState>)
      requires doc.Valid()
      requires forall e :: e in finalElements ==> e.AttachedTo(doc)
      ensures Planned(doc, finalElements, before, after) && Progress(finalElements, 0, before, after)
      ensures forall e :: e in finalElements ==> e in before && before[e] == e.state
    {
      before := map e | e in finalElements :: e.state;
      after := map e | e in finalElements :: Refreshed(e.state, Measure(doc, e.node), Measure(doc, e.container), vp.width, SurroundingsOf(e, doc));
    }

    /** One pass of `update`'s loop: the element at `i` is refreshed. */
    method Advance(doc: Document, elements: seq<StickyElement>, i: nat, ghost before: map<StickyElement, StickyState>,
                   ghost after: map<StickyElement, StickyState>)
      requires Valid() && doc.Valid() && finalElements == elements && i < |elements|
      requires Planned(doc, elements, before, after) && Progress(elements, i, before, after)
      modifies `finalElements, `listeners, `closures, elements`state
      ensures Valid()
      ensures finalElements == old(finalElements) && listeners == old(listeners) && closures == old(closures)
      ensures Progress(elements, i + 1, before, after)
    {
      var e := elements[i];
      Refresh(e, doc, after[e]);
    }

    /**
     * One iteration of `update`. The trailing `setPosition` changes nothing,
     * since the rectangle it sees was just measured.
     */
    method Refresh(e: StickyElement, doc: Document, ghost expected: StickyState)
      requires Valid() && doc.Valid() && e in finalElements && e.AttachedTo(doc)
      requires expected == Refreshed(e.state, Measure(doc, e.node), Measure(doc, e.container), vp.width, SurroundingsOf(e, doc))
      modifies `finalElements, `listeners, `closures, e`state
      ensures Valid()
      ensures finalElements == old(finalElements) && listeners == old(listeners) && closures == old(closures)
      ensures e.state == expected
    {
      var rect := GetRectangle(doc, Some(e.node));
      var containerRect := GetRectangle(doc, Some(e.container));
      e.state := e.state.(rect := rect.value, containerRect := containerRect.value);
      ghost var armed := Activated(e.state, vp.width, closures);
      Activate(e, doc);
      SetPosition(e, doc);
      PositionedIdempotent(armed, SurroundingsOf(e, doc));
    }

    /**
     * `destroy`: detach the two scroll-offset listeners, then the handlers
     * each tracked element's record points to. A handler its record no
     * longer points to (one left by an earlier rendering of the same element)
     * stays attached. The elements and their records are untouched.
     */
    method Destroy()
      requires Valid()
      modifies this
      ensures forall l :: l in listeners <==> l in old(listeners) && l.PerElement() && !IsCurrent(l, l.element.state)
      ensures (forall l :: l in old(listeners) && l.PerElement() ==> IsCurrent(l, l.element.state)) ==> listeners == {}
      ensures finalElements == old(finalElements) && closures == old(closures)
      ensures vp == old(vp) && scrollTop == old(scrollTop) && body == old(body) && options == old(options)
      ensures Valid()
    {
      listeners := listeners - {ScrollTopOnLoad, ScrollTopOnScroll};
      for i := 0 to |finalElements|
        invariant finalElements == old(finalElements) && closures == old(closures)
        invariant vp == old(vp) && scrollTop == old(scrollTop) && body == old(body) && options == old(options)
        invariant forall l :: l in listeners <==>
          l in old(listeners) && l.PerElement() && !(l.element in finalElements[..i] && IsCurrent(l, l.element.state))
      {
        var e := finalElements[i];
        assert finalElements[..i+1] == finalElements[..i] + [e];
        listeners := listeners - {ResizeHandler(e, e.state.onResize.value), ScrollHandler(e, e.state.onScroll.value)};
      }
      assert finalElements[..|finalElements|] == finalElements;
    }

    /**
     * `renderElement` once the element's attributes are read: merge them over
     * the options, find the sticky container (failing as the source does when
     * there is no parent or the climb finds no stop), measure both
     * rectangles, replace the element's record and activate it. Rendering a
     * tracked element again keeps it tracked once, gives it two new handlers,
     * and leaves its earlier handlers attached.
     */
    method RenderElement(doc: Document, e: StickyElement, attrs: Attributes) returns (r: Result<NodeId, ContainerError>)
      requires Valid() && doc.Valid() && e.node in doc.nodes
      modifies this, e
      ensures Valid()
      ensures vp == old(vp) && scrollTop == old(scrollTop) && body == old(body) && options == old(options)
      ensures r.Ok? <==> HasStop(doc, body, MergeConfig(attrs, options).stickyContainer, e.node)
      ensures r.Err? ==> r.error == if e.node in doc.parentElement then DetachedAncestor else NoParent
      ensures r.Err? ==>
        && finalElements == old(finalElements) && listeners == old(listeners) && closures == old(closures)
        && e.container == old(e.container) && e.state == old(e.state)
      ensures r.Ok? ==>
        var config := MergeConfig(attrs, options);
        && e.container == r.value && e.AttachedTo(doc)
        && FirstStop(doc, body, config.stickyContainer, e.node, e.container)
        && finalElements == (if e in old(finalElements) then old(finalElements) else old(finalElements) + [e])
        && listeners == old(listeners) + {ResizeHandler(e, old(closures)), ScrollHandler(e, old(closures) + 1)}
        && closures == old(closures) + 2
        && e.state == Positioned(
             Activated(Rendered(config, Measure(doc, e.node), Measure(doc, e.container), old(e.state.style), old(e.state.classes)),
                       vp.width, old(closures)),
             SurroundingsOf(e, doc))
      ensures r.Ok? ==> forall l :: l in old(listeners) && l.PerElement() && l.element == e ==> l in listeners && !IsCurrent(l, e.state)
    {
      var config := MergeConfig(attrs, options);
      var found := GetStickyContainer(doc, body, config.stickyContainer, e.node);
      if found.Err? {
        return Err(found.error);
      }
      var container := found.value;
      var containerRect := GetRectangle(doc, Some(container));
      var rect := GetRectangle(doc, Some(e.node));
      e.container := container;
      e.state := Rendered(config, rect.value, containerRect.value, e.state.style, e.state.classes);
      Activate(e, doc);
      r := Ok(container);
    }
  }
}
