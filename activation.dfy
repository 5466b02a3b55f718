/**
 * The activation test shared by `activate` and `onResizeEvents`: the element's
 * bottom edge lies strictly above its container's bottom edge, and the
 * viewport is wider than the element's `stickyFor` threshold.
 */
module Activation {
  import opened Geometry

  predicate Contained(rect: Rectangle, containerRect: Rectangle)
  {
    rect.top + rect.height < containerRect.top + containerRect.height
  }

  predicate ShouldBeActive(rect: Rectangle, containerRect: Rectangle, stickyFor: int, viewportWidth: int)
  {
    Contained(rect, containerRect) && stickyFor < viewportWidth
  }

  /** A bottom edge exactly flush with the container's bottom edge does not activate. */
  lemma FlushBottomIsInactive(rect: Rectangle, containerRect: Rectangle, stickyFor: int, viewportWidth: int)
    requires rect.top + rect.height == containerRect.top + containerRect.height
    ensures !ShouldBeActive(rect, containerRect, stickyFor, viewportWidth)
  {
  }

  /** A viewport no wider than `stickyFor` never activates, whatever the geometry. */
  lemma NarrowViewportIsInactive(rect: Rectangle, containerRect: Rectangle, stickyFor: int, viewportWidth: int)
    requires stickyFor >= viewportWidth
    ensures !ShouldBeActive(rect, containerRect, stickyFor, viewportWidth)
  {
  }

  /**
   * The deactivation guard of `onResizeEvents`, read without its `active`
   * conjunct, is exactly the failed activation test.
   */
  lemma DeactivationGuard(rect: Rectangle, containerRect: Rectangle, stickyFor: int, viewportWidth: int)
    ensures !ShouldBeActive(rect, containerRect, stickyFor, viewportWidth) <==>
      (rect.top + rect.height >= containerRect.top + containerRect.height || stickyFor >= viewportWidth)
  {
  }
}
