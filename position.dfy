/**
 * The position updater as a function of the element's record and what it
 * reads around it. `setPosition` first clears the inline placement, returns
 * early when the element is inactive or taller than the viewport, re-measures
 * a rectangle of zero width, boxes the wrapper, and then applies exactly one
 * of three regimes: pinned to the top of the body, fixed while scrolling
 * through the container (stuck at the top margin, or exiting with its
 * trailing edge on the container's bottom), or released.
 */
module Position {
  import opened Wrappers
  import opened Dom
  import opened Geometry
  import opened Style

  /**
   * One tracked element: its `sticky` record, its inline style, its class
   * list and the inline style of its parent element (the wrapper).
   * `onResize` and `onScroll` are the identities of the handlers the record
   * points to; a fresh record has none.
   */
  datatype StickyState = StickyState(
    active: bool,
    marginTop: int,
    marginBottom: int,
    stickyFor: int,
    stickyClass: Option<string>,
    wrap: bool,
    stickyContainer: string,
    rect: Rectangle,
    containerRect: Rectangle,
    onResize: Option<nat>,
    onScroll: Option<nat>,
    style: Style,
    classes: set<string>,
    wrapperStyle: Option<Style>)

  /**
   * What `setPosition` reads besides the element's record: the viewport
   * height, the engine's scroll offset, whether the container is the body,
   * the container's current `offsetHeight`, and the element's rectangle as
   * it would be measured now.
   */
  datatype Surroundings = Surroundings(
    viewportHeight: int,
    scrollTop: int,
    containerIsBody: bool,
    containerOffsetHeight: int,
    measured: Rectangle)

  datatype Regime = Skipped | TopPinned | Stuck | Exiting | Released

  const ClearPlacement: Declarations := [(Position, Empty), (Top, Empty), (Left, Empty)]
  const ClearWrapper: Declarations := [(Display, Empty), (Height, Empty)]

  function WrapperBox(rect: Rectangle): Declarations
  {
    [(Display, Block), (Width, Px(rect.width)), (Height, Px(rect.height))]
  }

  /** The rectangle the regimes use: re-measured when the cached width is zero. */
  function EffectiveRect(s: StickyState, env: Surroundings): Rectangle
  {
    if s.rect.width == 0 then env.measured else s.rect
  }

  /** The container's bottom edge less the bottom margin. */
  function ContainerLimit(s: StickyState, env: Surroundings): int
  {
    s.containerRect.top + env.containerOffsetHeight - s.marginBottom
  }

  /** The exit formula: the `top` that puts the trailing edge on the container's bottom. */
  function ExitTop(s: StickyState, rect: Rectangle, env: Surroundings): int
  {
    s.containerRect.top + env.containerOffsetHeight - (env.scrollTop + rect.height + s.marginBottom)
  }

  function RegimeOf(s: StickyState, env: Surroundings): Regime
  {
    if env.viewportHeight < s.rect.height || !s.active then Skipped
    else
      var rect := EffectiveRect(s, env);
      if rect.top == 0 && env.containerIsBody then TopPinned
      else if env.scrollTop > rect.top - s.marginTop then
        if env.scrollTop + rect.height + s.marginTop > ContainerLimit(s, env) then Exiting else Stuck
      else Released
  }

  /** The element's inline style after the regime's writes, starting from the cleared style. */
  function PlacementAfter(cleared: Style, regime: Regime, rect: Rectangle, marginTop: int, exitTop: int): Style
  {
    match regime
    case Skipped => cleared
    case TopPinned => WithProps(cleared, [(Position, Fixed), (Top, Px(rect.top)), (Left, Px(rect.left))])
    case Stuck => WithProps(WithProps(cleared, [(Position, Fixed), (Left, Px(rect.left))]), [(Top, Px(marginTop))])
    case Exiting =>
      WithProps(WithProps(cleared, [(Position, Fixed), (Left, Px(rect.left))]), [(Top, Px(exitTop))])
    case Released => WithProps(cleared, [(Position, Empty), (Top, Empty)])
  }

  /** The class list after the regime: the sticky class is added while stuck or pinned and removed otherwise. */
  function ClassesAfter(classes: set<string>, stickyClass: Option<string>, regime: Regime): set<string>
  {
    match regime
    case Skipped => classes
    case TopPinned => AddClass(classes, stickyClass)
    case Stuck => AddClass(classes, stickyClass)
    case Exiting => RemoveClass(classes, stickyClass)
    case Released => RemoveClass(classes, stickyClass)
  }

  /** The wrapper's style: boxed to the rectangle unless skipped, then unboxed again when released. */
  function WrapperAfter(wrapperStyle: Option<Style>, wrap: bool, regime: Regime, rect: Rectangle): Option<Style>
  {
    if !wrap || regime == Skipped then wrapperStyle
    else if regime == Released then CssOn(CssOn(wrapperStyle, WrapperBox(rect)), ClearWrapper)
    else CssOn(wrapperStyle, WrapperBox(rect))
  }

  /**
   * The record once `setPosition` has cleared the placement, re-measured a
   * zero-width rectangle and boxed the wrapper, before the regime's writes.
   */
  function Prepared(s: StickyState, env: Surroundings): StickyState
  {
    var rect := EffectiveRect(s, env);
    s.(style := WithProps(s.style, ClearPlacement), rect := rect,
       wrapperStyle := if s.wrap then CssOn(s.wrapperStyle, WrapperBox(rect)) else s.wrapperStyle)
  }

  /**
   * The element's record after `setPosition`. Only the inline style, the class
   * list, the wrapper's style and the cached rectangle can change; in
   * particular the `active` flag never does.
   */
  function Positioned(s: StickyState, env: Surroundings): (r: StickyState)
    ensures r.(style := s.style, classes := s.classes, wrapperStyle := s.wrapperStyle, rect := s.rect) == s
  {
    var regime := RegimeOf(s, env);
    var rect := if regime == Skipped then s.rect else EffectiveRect(s, env);
    s.(style := PlacementAfter(WithProps(s.style, ClearPlacement), regime, rect, s.marginTop, ExitTop(s, rect, env)),
       classes := ClassesAfter(s.classes, s.stickyClass, regime),
       wrapperStyle := WrapperAfter(s.wrapperStyle, s.wrap, regime, rect),
       rect := rect)
  }

  /** The properties each fixed declaration list writes. */
  lemma DeclarationKeys(rect: Rectangle, t: int)
    ensures KeysOf(ClearPlacement) == {Position, Top, Left}
    ensures KeysOf(ClearWrapper) == {Display, Height}
    ensures KeysOf(WrapperBox(rect)) == {Display, Width, Height}
    ensures KeysOf([(Position, Fixed), (Top, Px(t)), (Left, Px(rect.left))]) == {Position, Top, Left}
    ensures KeysOf([(Position, Fixed), (Left, Px(rect.left))]) == {Position, Left}
    ensures KeysOf([(Position, Empty), (Top, Empty)]) == {Position, Top}
    ensures KeysOf([(Top, Px(t))]) == {Top}
    ensures DistinctKeys(ClearPlacement) && DistinctKeys(ClearWrapper) && DistinctKeys(WrapperBox(rect))
    ensures DistinctKeys([(Position, Fixed), (Top, Px(t)), (Left, Px(rect.left))])
    ensures DistinctKeys([(Position, Fixed), (Left, Px(rect.left))])
    ensures DistinctKeys([(Position, Empty), (Top, Empty)])
  {
    KeysOfThree(ClearPlacement);
    KeysOfThree(WrapperBox(rect));
    KeysOfThree([(Position, Fixed), (Top, Px(t)), (Left, Px(rect.left))]);
    KeysOfTwo(ClearWrapper);
    KeysOfTwo([(Position, Fixed), (Left, Px(rect.left))]);
    KeysOfTwo([(Position, Empty), (Top, Empty)]);
    assert [(Top, Px(t))][..0] == [];
  }

  lemma KeysOfTwo(props: Declarations)
    requires |props| == 2
    ensures KeysOf(props) == {props[0].0, props[1].0}
    ensures props[0].0 != props[1].0 ==> DistinctKeys(props)
  {
    assert props[..1][..0] == [];
    assert KeysOf(props[..1]) == {props[0].0};
  }

  lemma KeysOfThree(props: Declarations)
    requires |props| == 3
    ensures KeysOf(props) == {props[0].0, props[1].0, props[2].0}
    ensures props[0].0 != props[1].0 && props[0].0 != props[2].0 && props[1].0 != props[2].0 ==> DistinctKeys(props)
  {
    KeysOfTwo(props[..2]);
    if props[0].0 != props[1].0 && props[0].0 != props[2].0 && props[1].0 != props[2].0 {
      forall i, j | 0 <= i < j < 3 ensures props[i].0 != props[j].0 {
        assert i == 0 || i == 1;
      }
    }
  }

  /** Writes the pinned and mid-scroll regimes make to the wrapper. */
  ghost predicate WrapperBoxed(r: StickyState, s: StickyState)
  {
    s.wrap && s.wrapperStyle.Some? ==>
      && r.wrapperStyle.Some?
      && Read(r.wrapperStyle.value, Display) == Block
      && Read(r.wrapperStyle.value, Width) == Px(r.rect.width)
      && Read(r.wrapperStyle.value, Height) == Px(r.rect.height)
      && AgreeOutside(r.wrapperStyle.value, s.wrapperStyle.value, {Display, Width, Height})
  }

  /**
   * Early return: an inactive element, or one taller than the viewport, keeps
   * only the cleared placement; its classes, wrapper and rectangle are as
   * they were.
   */
  lemma PositionedWhenSkipped(s: StickyState, env: Surroundings)
    requires env.viewportHeight < s.rect.height || !s.active
    ensures RegimeOf(s, env) == Skipped
    ensures var r := Positioned(s, env);
      && Read(r.style, Position) == Empty && Read(r.style, Top) == Empty && Read(r.style, Left) == Empty
      && AgreeOutside(r.style, s.style, {Position, Top, Left})
      && r.classes == s.classes && r.wrapperStyle == s.wrapperStyle && r.rect == s.rect
  {
    DeclarationKeys(s.rect, 0);
  }

  /**
   * Top-pinned (the cached top is 0 and the container is the body): fixed at
   * the cached top and left, sticky class added. It wins over the other two
   * regimes whatever the scroll offset.
   */
  lemma PositionedWhenTopPinned(s: StickyState, env: Surroundings)
    requires !(env.viewportHeight < s.rect.height || !s.active)
    requires EffectiveRect(s, env).top == 0 && env.containerIsBody
    ensures RegimeOf(s, env) == TopPinned
    ensures var r := Positioned(s, env);
      && r.rect == EffectiveRect(s, env)
      && Read(r.style, Position) == Fixed && Read(r.style, Top) == Px(0) && Read(r.style, Left) == Px(r.rect.left)
      && AgreeOutside(r.style, s.style, {Position, Top, Left})
      && r.classes == AddClass(s.classes, s.stickyClass)
      && WrapperBoxed(r, s)
  {
    var rect := EffectiveRect(s, env);
    DeclarationKeys(rect, 0);
    var pinned := [(Position, Fixed), (Top, Px(rect.top)), (Left, Px(rect.left))];
    assert pinned[0].0 == Position && pinned[1].0 == Top && pinned[2].0 == Left;
    WrapperBoxWrites(rect);
  }

  lemma WrapperBoxWrites(rect: Rectangle)
    ensures var box := WrapperBox(rect);
      box[0] == (Display, Block) && box[1] == (Width, Px(rect.width)) && box[2] == (Height, Px(rect.height))
  {
  }

  /**
   * Mid-scroll, not yet at the container's end: fixed at the top margin and
   * the cached left, sticky class added.
   */
  lemma PositionedWhenStuck(s: StickyState, env: Surroundings)
    requires RegimeOf(s, env) == Stuck
    ensures var r := Positioned(s, env);
      && r.rect == EffectiveRect(s, env)
      && env.scrollTop > r.rect.top - s.marginTop
      && Read(r.style, Position) == Fixed && Read(r.style, Top) == Px(s.marginTop) && Read(r.style, Left) == Px(r.rect.left)
      && AgreeOutside(r.style, s.style, {Position, Top, Left})
      && r.classes == AddClass(s.classes, s.stickyClass)
      && WrapperBoxed(r, s)
  {
    var rect := EffectiveRect(s, env);
    DeclarationKeys(rect, s.marginTop);
    WrapperBoxWrites(rect);
  }

  /**
   * Mid-scroll at the container's end: fixed at the cached left, sticky class
   * removed, and `top` chosen so that the element's trailing edge plus the
   * bottom margin lands exactly on the container's bottom edge, which puts
   * it above the top margin.
   */
  lemma PositionedWhenExiting(s: StickyState, env: Surroundings)
    requires RegimeOf(s, env) == Exiting
    ensures var r := Positioned(s, env);
      && r.rect == EffectiveRect(s, env)
      && Read(r.style, Position) == Fixed && Read(r.style, Left) == Px(r.rect.left)
      && Read(r.style, Top).Px?
      && Read(r.style, Top).n + env.scrollTop + r.rect.height + s.marginBottom
         == s.containerRect.top + env.containerOffsetHeight
      && Read(r.style, Top).n < s.marginTop
      && AgreeOutside(r.style, s.style, {Position, Top, Left})
      && r.classes == RemoveClass(s.classes, s.stickyClass)
      && WrapperBoxed(r, s)
  {
    var rect := EffectiveRect(s, env);
    DeclarationKeys(rect, ExitTop(s, rect, env));
    WrapperBoxWrites(rect);
  }

  /**
   * Released: sticky class removed, placement cleared, and the wrapper's
   * forced display and height cleared (its width stays as last written).
   */
  lemma PositionedWhenReleased(s: StickyState, env: Surroundings)
    requires RegimeOf(s, env) == Released
    ensures var r := Positioned(s, env);
      && r.rect == EffectiveRect(s, env)
      && env.scrollTop <= r.rect.top - s.marginTop
      && Read(r.style, Position) == Empty && Read(r.style, Top) == Empty && Read(r.style, Left) == Empty
      && AgreeOutside(r.style, s.style, {Position, Top, Left})
      && r.classes == RemoveClass(s.classes, s.stickyClass)
      && (s.wrap && s.wrapperStyle.Some? ==>
            && r.wrapperStyle.Some?
            && Read(r.wrapperStyle.value, Display) == Empty
            && Read(r.wrapperStyle.value, Height) == Empty
            && Read(r.wrapperStyle.value, Width) == Px(r.rect.width)
            && AgreeOutside(r.wrapperStyle.value, s.wrapperStyle.value, {Display, Width, Height}))
      && (!s.wrap ==> r.wrapperStyle == s.wrapperStyle)
  {
    var rect := EffectiveRect(s, env);
    var r := Positioned(s, env);
    DeclarationKeys(rect, 0);
    var cleared := WithProps(s.style, ClearPlacement);
    AgreeOutsideTrans(r.style, cleared, s.style, {Position, Top}, {Position, Top, Left}, {Position, Top, Left});
    if s.wrap && s.wrapperStyle.Some? {
      var boxed := WithProps(s.wrapperStyle.value, WrapperBox(rect));
      assert boxed[Width] == Px(rect.width);
      AgreeOutsideTrans(r.wrapperStyle.value, boxed, s.wrapperStyle.value,
                        {Display, Height}, {Display, Width, Height}, {Display, Width, Height});
    }
  }

  /**
   * One call rewrites at most the placement properties of the element's style
   * and the box properties of the wrapper's style; the rectangle it leaves is
   * the cached one on an early return and the effective one otherwise.
   */
  lemma PositionedTouches(s: StickyState, env: Surroundings)
    ensures var r := Positioned(s, env);
      && AgreeOutside(r.style, s.style, {Position, Top, Left})
      && AgreeOutsideOpt(r.wrapperStyle, s.wrapperStyle, {Display, Width, Height})
      && r.rect == (if RegimeOf(s, env) == Skipped then s.rect else EffectiveRect(s, env))
  {
    match RegimeOf(s, env)
    case Skipped => PositionedWhenSkipped(s, env);
    case TopPinned => PositionedWhenTopPinned(s, env);
    case Stuck => PositionedWhenStuck(s, env);
    case Exiting => PositionedWhenExiting(s, env);
    case Released => PositionedWhenReleased(s, env);
  }

  /**
   * Two successive calls with unchanged surroundings give the same state as
   * one, provided the call returns early or does not re-measure into a
   * different rectangle.
   */
  lemma PositionedIdempotent(s: StickyState, env: Surroundings)
    requires RegimeOf(s, env) == Skipped || s.rect.width != 0 || s.rect == env.measured
    ensures Positioned(Positioned(s, env), env) == Positioned(s, env)
  {
    var u := Positioned(s, env);
    var regime := RegimeOf(s, env);
    var rect := u.rect;
    assert RegimeOf(u, env) == regime;
    var exitTop := ExitTop(s, rect, env);
    assert ExitTop(u, rect, env) == exitTop;
    PlacementTouches(s.style, regime, rect, s.marginTop, exitTop);
    StyleAfterIdempotent(s.style, u.style);
    ClassesAfterIdempotent(s.classes, s.stickyClass, regime);
    WrapperAfterIdempotent(s.wrapperStyle, s.wrap, regime, rect);
    var v := Positioned(u, env);
    assert v.style == u.style;
    assert v.classes == u.classes;
    assert v.wrapperStyle == u.wrapperStyle;
    assert v.rect == u.rect;
  }

  /** The placement writes touch nothing but the placement properties. */
  lemma PlacementTouches(style: Style, regime: Regime, rect: Rectangle, marginTop: int, exitTop: int)
    ensures AgreeOutside(PlacementAfter(WithProps(style, ClearPlacement), regime, rect, marginTop, exitTop), style, {Position, Top, Left})
  {
    var placement := {Position, Top, Left};
    var t := if regime == Stuck then marginTop else exitTop;
    DeclarationKeys(rect, t);
    var cleared := WithProps(style, ClearPlacement);
    var fixed := WithProps(cleared, [(Position, Fixed), (Left, Px(rect.left))]);
    var after := PlacementAfter(cleared, regime, rect, marginTop, exitTop);
    match regime
    case Skipped =>
    case TopPinned =>
      DeclarationKeys(rect, rect.top);
      AgreeOutsideTrans(after, cleared, style, placement, placement, placement);
    case Released =>
      AgreeOutsideTrans(after, cleared, style, {Position, Top}, placement, placement);
    case Stuck =>
      AgreeOutsideTrans(fixed, cleared, style, {Position, Left}, placement, placement);
      AgreeOutsideTrans(after, fixed, style, {Top}, placement, placement);
    case Exiting =>
      AgreeOutsideTrans(fixed, cleared, style, {Position, Left}, placement, placement);
      AgreeOutsideTrans(after, fixed, style, {Top}, placement, placement);
  }

  /** Clearing the placement again forgets every placement written since the last clear. */
  lemma StyleAfterIdempotent(style: Style, written: Style)
    requires AgreeOutside(written, style, {Position, Top, Left})
    ensures WithProps(written, ClearPlacement) == WithProps(style, ClearPlacement)
  {
    DeclarationKeys(Rectangle(0, 0, 0, 0), 0);
    WithPropsAbsorbs(written, style, ClearPlacement);
  }

  lemma ClassesAfterIdempotent(classes: set<string>, stickyClass: Option<string>, regime: Regime)
    ensures ClassesAfter(ClassesAfter(classes, stickyClass, regime), stickyClass, regime)
         == ClassesAfter(classes, stickyClass, regime)
  {
  }

  lemma WrapperAfterIdempotent(w: Option<Style>, wrap: bool, regime: Regime, rect: Rectangle)
    ensures WrapperAfter(WrapperAfter(w, wrap, regime, rect), wrap, regime, rect) == WrapperAfter(w, wrap, regime, rect)
  {
    if wrap && regime != Skipped {
      var once := WrapperAfter(w, wrap, regime, rect);
      DeclarationKeys(rect, 0);
      if w.Some? {
        var boxed := WithProps(w.value, WrapperBox(rect));
        assert AgreeOutside(boxed, w.value, {Display, Width, Height});
        if regime == Released {
          assert AgreeOutside(WithProps(boxed, ClearWrapper), boxed, {Display, Height});
        }
        assert AgreeOutside(once.value, w.value, {Display, Width, Height});
      }
      CssOnAbsorbs(once, w, WrapperBox(rect));
    }
  }

  /** Whatever the cached rectangle, the state no longer changes from the second call on. */
  lemma PositionedSettles(s: StickyState, env: Surroundings)
    ensures Positioned(Positioned(Positioned(s, env), env), env) == Positioned(Positioned(s, env), env)
  {
    var u := Positioned(s, env);
    PositionedTouches(s, env);
    if RegimeOf(s, env) == Skipped {
      PositionedIdempotent(s, env);
    } else {
      PositionedIdempotent(u, env);
    }
  }

  /**
   * The viewport-height test reads the cached rectangle before a zero-width
   * rectangle is re-measured, so a second call can undo the first: a pinned
   * element whose fresh height exceeds the viewport is released by the next call.
   */
  lemma StaleRectNotIdempotent()
    ensures exists s: StickyState, env: Surroundings :: Positioned(Positioned(s, env), env) != Positioned(s, env)
  {
    var s := StickyState(true, 0, 0, 0, None, false, "body",
                         Rectangle(0, 0, 0, 0), Rectangle(0, 0, 100, 2000), Some(0), Some(1), map[], {}, None);
    var env := Surroundings(500, 0, true, 2000, Rectangle(0, 0, 100, 1000));
    var u := Positioned(s, env);
    PositionedWhenTopPinned(s, env);
    PositionedWhenSkipped(u, env);
    assert Read(u.style, Position) != Read(Positioned(u, env).style, Position);
  }

  /**
   * The early return leaves the sticky look in place: an element that was
   * stuck and is then deactivated (as `onResizeEvents` does when it no
   * longer fits) keeps its sticky class and its boxed wrapper, and only
   * loses its fixed placement.
   */
  lemma DeactivatedKeepsStickyLook(s: StickyState, env: Surroundings, later: Surroundings)
    requires RegimeOf(s, env) == Stuck && IsConfigured(s.stickyClass) && s.wrap && s.wrapperStyle.Some?
    ensures var r := Positioned(Positioned(s, env).(active := false), later);
      && s.stickyClass.value in r.classes
      && r.wrapperStyle.Some? && Read(r.wrapperStyle.value, Display) == Block
      && Read(r.style, Position) == Empty
  {
    PositionedWhenStuck(s, env);
    PositionedWhenSkipped(Positioned(s, env).(active := false), later);
  }

  /**
   * While the element scrolls through its container, it is exiting exactly
   * when the exit formula would place it above its top margin, so the
   * switch from stuck to exiting never makes it jump downwards.
   */
  lemma ExitingIffAboveMargin(s: StickyState, env: Surroundings)
    requires RegimeOf(s, env) in {Stuck, Exiting}
    ensures RegimeOf(s, env) == Exiting <==> ExitTop(s, EffectiveRect(s, env), env) < s.marginTop
  {
  }

  /**
   * While exiting, the element's offset in the document (its fixed `top` plus
   * the scroll offset) does not depend on the scroll offset: it rides on the
   * container's bottom edge.
   */
  lemma ExitTopFollowsScroll(s: StickyState, rect: Rectangle, env: Surroundings, t: int)
    ensures ExitTop(s, rect, env.(scrollTop := t)) + t == ExitTop(s, rect, env) + env.scrollTop
  {
  }

  /**
   * Scrolling further down, with the rest unchanged, moves the element only
   * forward through the regimes: the skip and the top pin ignore the scroll
   * offset, a stuck element stays stuck or starts exiting, an exiting one
   * keeps exiting.
   */
  lemma ScrollingDownAdvances(s: StickyState, env: Surroundings, t: int)
    requires t >= env.scrollTop
    ensures var before, after := RegimeOf(s, env), RegimeOf(s, env.(scrollTop := t));
      && (before == Skipped <==> after == Skipped)
      && (before == TopPinned <==> after == TopPinned)
      && (before == Stuck ==> after in {Stuck, Exiting})
      && (before == Exiting ==> after == Exiting)
  {
  }
}
