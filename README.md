# stickier-js sticky engine, modelled in Dafny

This project models the core of stickier-js: the `Stickier` class that makes page
elements "sticky". A tracked element stays in the normal flow until the page is
scrolled past it. It is then pinned with `position: fixed` at a top margin until its
bottom edge reaches the bottom of its sticky container. From then on it follows the
container out of view.

The model is imperative where the source is:

- `Engine.Stickier` is a class with the instance's fields: the tracked elements, the
  viewport, the scroll offset, the body, the resolved options, and the listeners the
  instance has attached to the window.
- Each tracked element is an `Engine.StickyElement` object. Its mutable part (the
  `sticky` record, inline style, class list and wrapper style) is one
  `Position.StickyState` value that the methods reassign.
- The geometry reader, the container resolver and the `css` helper are methods with
  loops. Each one is proved against a specification function.
- `setPosition` is proved to leave exactly the state that the function
  `Position.Positioned` describes. The regime lemmas about `Positioned` then give the
  closed-form outcome of each branch.

Rendering an element that is already tracked does what the source does. Its record is
replaced in place and the element is not appended a second time. Two new handlers are
attached, because the new record has none. The handlers of the earlier rendering stay
attached to the window. `destroy` removes only the handlers that the records point to
now, so those earlier handlers survive it.

The DOM is an immutable `Dom.Document` value passed to each operation that reads
geometry:

- the nodes' offset and size measures;
- the `parentElement` and `offsetParent` links, with a rank that decreases along every
  link, so climbs terminate;
- the set of (node, selector) pairs for which `node.querySelector(selector)` finds
  something.

The viewport size and the scroll offset are read from the browser in the source. Here
they are inputs:

- the viewport is passed to the constructor and to `OnResizeEvents`;
- the scroll offset is passed to the constructor and to `UpdateScrollTopPosition`.

Modules: `Wrappers` (Option, Result), `Dom`, `Geometry`, `Container`, `Style`,
`Config`, `Activation`, `Position`, `Engine`.

## Model

| member | source | states |
|---|---|---|
| Dom.Document.OffsetChain | src/stickier.ts:553-559 | the `offsetParent` chain starts at the node itself and stays within the document |
| Dom.Document.Ancestry | src/stickier.ts:501-518 | the `parentElement` chain starts at the node itself and stays within the document |
| Geometry.Max3 | src/stickier.ts:539-548 | the size is at least each of offset/client/scroll size and equal to one of them |
| Geometry.Measure | src/stickier.ts:529-565 | width and height are the maximum of the three size measures; top and left are sums over the offsetParent chain |
| Geometry.MeasureFromOffsetParent | src/stickier.ts:553-559 | a node's top/left is its own offsetTop/offsetLeft plus its offsetParent's accumulated top/left |
| Geometry.GetRectangle | src/stickier.ts:529-565 | the do-while accumulation returns nothing exactly for a null element, and otherwise exactly `Measure` |
| Container.ParentStops | src/stickier.ts:501-516 | a parent that carries the container attribute, whose own parent element has a descendant matching the selector, or that is the body, is the container: the climb stops at once |
| Container.FirstStopUnique | src/stickier.ts:510-518 | the nearest stopping ancestor is unique, so the container is a function of the document |
| Container.GetStickyContainer | src/stickier.ts:498-521 | fails with NoParent exactly when there is no parent; otherwise returns the first proper ancestor satisfying a stop condition, every ancestor passed satisfying none; fails with DetachedAncestor exactly when no ancestor stops the climb; never fails when the body is an ancestor |
| Style.WithProps | src/stickier.ts:606-610 | only the listed keys change; with distinct keys each ends up holding its listed value |
| Style.Css | src/stickier.ts:602-611 | a null target stays null; otherwise the target's style becomes the listed writes applied in order |
| Config.ResolveOptions | src/stickier.ts:128-136 | `wrap` is always true; the numbers are the given value or 0; the sticky class is kept only when non-empty; the wrapper markup and container selector fall back to their defaults when missing or empty |
| Config.MergeConfig | src/stickier.ts:184-203 | a present attribute wins over the option, which is the fallback; `wrap` holds iff the wrap attribute is present or the option is set; the container selector is always the option's |
| Config.RenderedConfigUnderDefaults | src/stickier.ts:129-135 | under the constructor's defaults every element is wrapped, its sticky class is never the empty name, and its container selector is not empty |
| Activation.FlushBottomIsInactive | src/stickier.ts:259-264 | a bottom edge exactly flush with the container's bottom fails the strict activation test |
| Activation.NarrowViewportIsInactive | src/stickier.ts:263 | a viewport no wider than `stickyFor` fails the activation test |
| Activation.DeactivationGuard | src/stickier.ts:318-330 | the resize handler's lowering condition, read without its `active` conjunct, holds exactly when the activation test of `activate` fails |
| Position.Positioned | src/stickier.ts:373-460 | positioning changes only the element's style, class list, wrapper style and cached rectangle; the `active` flag and configuration are untouched |
| Position.PositionedWhenSkipped | src/stickier.ts:374-378 | a too-tall or inactive element ends with position/top/left cleared and nothing else changed |
| Position.PositionedWhenTopPinned | src/stickier.ts:399-412 | at cached top 0 in the body: fixed at the cached top and left, sticky class added, wrapper boxed to the rectangle |
| Position.PositionedWhenStuck | src/stickier.ts:413-448 | scrolled past but not at the container's end: fixed at the top margin and cached left, sticky class added, wrapper boxed |
| Position.PositionedWhenExiting | src/stickier.ts:423-441 | at the container's end: fixed with `top + scrollTop + height + marginBottom` equal to the container's bottom, `top` below the top margin, sticky class removed |
| Position.PositionedWhenReleased | src/stickier.ts:449-459 | not scrolled past: position/top/left empty, sticky class removed, wrapper display and height cleared (width kept) |
| Position.PositionedTouches | src/stickier.ts:373-460 | every regime writes only the placement keys of the style and the box keys of the wrapper |
| Position.PositionedIdempotent | src/stickier.ts:373-460 | a second call with unchanged surroundings changes nothing, provided the first call did not re-measure into a different rectangle |
| Position.PositionedSettles | src/stickier.ts:373-460 | from the second call on the state never changes |
| Position.StaleRectNotIdempotent | src/stickier.ts:376-382 | some state and surroundings make the second call differ from the first |
| Position.DeactivatedKeepsStickyLook | src/stickier.ts:376-378 | an element stuck by one call and then deactivated keeps the sticky class, its fixed placement cleared, and its boxed wrapper on every later call |
| Position.ExitingIffAboveMargin | src/stickier.ts:413-440 | while scrolled through the container, the element is exiting exactly when the exit formula puts its `top` above the top margin |
| Position.ExitTopFollowsScroll | src/stickier.ts:433-440 | while exiting, the fixed `top` plus the scroll offset does not depend on the scroll offset: the element rides on the container's bottom |
| Position.ScrollingDownAdvances | src/stickier.ts:376-449 | scrolling further down keeps the skip and the top pin as they were, moves a stuck element to stuck or exiting, and keeps an exiting one exiting |
| Engine.ActivatedIdempotent | src/stickier.ts:259-279 | activating twice is activating once, and after one activation both handlers are set |
| Engine.ResizedForgetsFlag | src/stickier.ts:309-333 | after a resize the record does not depend on the old flag, which is raised exactly when the activation test holds on the re-measured rectangles |
| Engine.Stickier.constructor | src/stickier.ts:119-142 | nothing tracked, options resolved with their defaults, and the two scroll-offset listeners attached |
| Engine.Stickier.UpdateScrollTopPosition | src/stickier.ts:590-594 | only the scroll offset changes, and the engine's invariant is kept |
| Engine.Stickier.SetPosition | src/stickier.ts:373-460 | the element's new state is exactly `Positioned` of its old state in the current surroundings |
| Engine.Stickier.Place | src/stickier.ts:399-460 | the regime branch completes the `Positioned` state from the prepared one |
| Engine.Stickier.PlaceScrolled | src/stickier.ts:413-448 | the scrolled-through branch completes the `Positioned` state for the stuck and exiting regimes |
| Engine.Stickier.Activate | src/stickier.ts:258-282 | the flag is raised exactly when the activation test holds and is never lowered; the element is appended only if absent; each handler is attached only if not already set; then the element is positioned |
| Engine.Stickier.AttachHandlers | src/stickier.ts:273-279 | a handler is created and attached only when the record has none; ids are taken from a counter that advances by two; the other fields of the record are untouched |
| Engine.Stickier.Arm | src/stickier.ts:259-279 | the part of `activate` before positioning keeps the engine's invariant: distinct elements, each with both handlers, and no handler of an untracked element |
| Engine.Stickier.OnResizeEvents | src/stickier.ts:308-336 | the new flag equals the activation test on the re-measured rectangles, whatever the old flag was; the container rectangle is re-measured; the element is then positioned |
| Engine.Stickier.Refit | src/stickier.ts:309-333 | the if/else-if flag update equals the closed-form `Resized` state |
| Engine.Stickier.OnScrollEvents | src/stickier.ts:362-366 | an active element is positioned; an inactive one is unchanged; the flag never changes |
| Engine.Stickier.Update | src/stickier.ts:466-476 | every tracked element ends in the `Refreshed` state computed from its own record before the call: re-measured, activated and positioned; listeners, tracked elements and the handler counter are unchanged |
| Engine.Stickier.RefreshEach | src/stickier.ts:467-475 | after the loop every element holds the record planned for it before the loop, and the engine's invariant still holds |
| Engine.Stickier.Advance | src/stickier.ts:467-475 | one pass moves the element at the current index to its planned record and leaves the others as they were |
| Engine.Stickier.Refresh | src/stickier.ts:467-475 | one iteration of `update` leaves the `Refreshed` state and keeps the engine's invariant; the trailing `setPosition` changes nothing |
| Engine.Stickier.Destroy | src/stickier.ts:482-490 | removes the two scroll-offset listeners and exactly the handlers each tracked element's record points to now; a handler left by an earlier rendering stays; when every handler is current nothing stays attached; tracked elements and their records are untouched |
| Engine.Stickier.RenderElement | src/stickier.ts:169-233 | succeeds exactly when some proper ancestor meets a stop condition, and the container is the nearest one; fails with NoParent without a parent and with DetachedAncestor otherwise; on success the record is replaced in place by the merged configuration with both rectangles measured, then activated with two new handlers and positioned; a re-rendered element stays tracked once, and its earlier handlers stay attached but are no longer its record's |

## Left out

- Event wiring. The listeners an instance attaches are a set of `Listener` values. The window's dispatch of `load`, `scroll` and `resize` is not modelled; callers invoke the handler methods directly.
- The `setInterval` ready-state poll in `run`, and its loop over the targets, are not modelled. In the source an exception from `renderElement` propagates out of that loop, so later targets are not rendered. The comment on `run` (src/stickier.ts:148) says every element found is rendered and activated, but one failure stops the elements after it. The model follows the code: `RenderElement` returns the error and changes nothing, and no caller loop is modelled.
- The image `onload` re-measure is not modelled. It is an asynchronous callback.
- Target resolution in the constructor (`querySelectorAll`, a single element, a list) is not modelled. Neither is the instance's `version` string.
- `wrapElement`'s DOM insertion is not modelled. This covers parsing the wrapper markup, `insertAdjacentHTML`, and the warning when `previousSibling` is missing. A wrapped element is given an empty wrapper style, and the `Document` passed in is taken to be the document as it stands.
- In the source the element's rectangle is measured before it is wrapped. The model measures it in the given `Document`.
- `parseInt` of attribute strings (including `NaN`), fractional pixels and the `"px"` string concatenation are not modelled. Lengths are integers, a length written to a style is `Px(n)`, and a cleared property is `Empty`.
- `console.log` and `console.warn` output is not modelled.
- `classList` token validation is not modelled. The source throws for a class name containing whitespace. The model only adds or removes the configured non-empty name.
- The `getStickyContainer` selector test is not computed from the DOM. It is the set of (node, selector) pairs for which `querySelector` finds a match.
- Position.PositionedIdempotent: the library's intended behaviour is that two successive calls with unchanged inputs give the same style state. The code keeps that promise only when the call returns early, the cached width is non-zero, or the re-measured rectangle equals the cached one. The viewport-height test reads the cached rectangle before a zero-width rectangle is re-measured. `Position.StaleRectNotIdempotent` gives a concrete case: a pinned element whose fresh height exceeds the viewport loses its fixed placement on the next call. `Position.PositionedSettles` proves that the state is stable from the second call on.
- Engine.Stickier.OnResizeEvents: requires a parent element when the element is wrapped. In the source, a wrapped element without a parent produces an undefined rectangle and a later property read throws.
- Container.GetStickyContainer: the doc comment of `getStickyContainer` (src/stickier.ts:492-497) says the element is stuck to the body when no container is specified. In the code, a climb that passes the root without stopping dereferences null. The model returns `DetachedAncestor` for that case.
- Engine.Stickier.Destroy: keeps each element's `onResize`/`onScroll` fields set, as the source does. A later `update` therefore does not re-attach handlers.
- Sharing an element between two instances is not modelled. In the source the second instance overwrites the element's `sticky` record.
- Position.PositionedWhenSkipped: the early return clears only the inline placement. An element that was stuck and is then deactivated, or grows taller than the viewport, keeps the sticky class and its boxed wrapper (src/stickier.ts:374-378). `Position.DeactivatedKeepsStickyLook` states this case. The model does what the code does and does not promise a clean unstuck look.
- Style writes do not feed back into geometry. `Dom.Document` is one fixed value per operation, so a rectangle measured after a style write in the same operation is the one the document held before the write. In the source, `update` re-measures an element that `activate` may have made fixed (src/stickier.ts:374, 380-381, 468), and the browser would report the fixed box. The model measures the document as passed.
- Engine.Stickier.RenderElement: on a container error the source has already replaced the element's `sticky` record with a partial one (src/stickier.ts:173-205). The model returns the error and leaves the record unchanged.
- Handler ids: the engine's counter always reserves two ids, one for each handler, even when only one handler is created. The ids are identities only, and no property depends on their values.
- An element that has not been rendered yet has itself as its container and a default record. The source has no `sticky` record on such an element, so `activate`, `setPosition` and `onResizeEvents` throw a TypeError on it (src/stickier.ts:260, 312, 376): `activate` before changing anything, `onResizeEvents` after recording the viewport, `setPosition` after clearing the inline placement. Engine.Stickier.Activate, Engine.Stickier.SetPosition and Engine.Stickier.OnResizeEvents do not model that throw: called on an unrendered element, they track it, attach its handlers and measure the element itself in place of its container. Only `RenderElement`, `Update` and the handlers of a rendered element reach these methods in the source, and the model does not separate rendered from unrendered elements.
