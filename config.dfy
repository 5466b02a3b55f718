/**
 * Instance options with their defaults, and the per-element configuration in
 * which a truthy `data-*` attribute wins over the instance option.
 */
module Config {
  import opened Wrappers
  import opened Style

  datatype Options = Options(
    wrap: bool,
    wrapWith: string,
    marginTop: int,
    marginBottom: int,
    stickyFor: int,
    stickyClass: Option<string>,
    stickyContainer: string)

  /** The options object handed to the constructor; `None` is a missing (or null) entry. */
  datatype PartialOptions = PartialOptions(
    wrap: Option<bool>,
    wrapWith: Option<string>,
    marginTop: Option<int>,
    marginBottom: Option<int>,
    stickyFor: Option<int>,
    stickyClass: Option<string>,
    stickyContainer: Option<string>)

  const DefaultWrapWith := "<span></span>"
  const DefaultStickyContainer := "body"

  /** JavaScript `x || d` on a boolean: false and a missing value are falsy. */
  function OrBool(x: Option<bool>, d: bool): bool
  {
    if x.Some? && x.value then true else d
  }

  /** JavaScript `x || d` on a number: zero and a missing value are falsy. */
  function OrNumber(x: Option<int>, d: int): int
  {
    if x.Some? && x.value != 0 then x.value else d
  }

  /** JavaScript `x || d` on a string: the empty string and a missing value are falsy. */
  function OrString(x: Option<string>, d: string): string
  {
    if x.Some? && x.value != "" then x.value else d
  }

  /**
   * The constructor's defaults. `options.wrap || true` is always true, so
   * wrapping is on whatever the caller passes; a number that is given always
   * survives (its only falsy value, zero, is also its default).
   */
  function ResolveOptions(p: PartialOptions): (o: Options)
    ensures o.wrap
    ensures o.marginTop == p.marginTop.GetOr(0)
    ensures o.marginBottom == p.marginBottom.GetOr(0)
    ensures o.stickyFor == p.stickyFor.GetOr(0)
    ensures IsConfigured(p.stickyClass) ==> o.stickyClass == p.stickyClass
    ensures !IsConfigured(p.stickyClass) ==> o.stickyClass.None?
    ensures p.wrapWith.Some? && p.wrapWith.value != "" ==> o.wrapWith == p.wrapWith.value
    ensures p.wrapWith.None? || p.wrapWith.value == "" ==> o.wrapWith == DefaultWrapWith
    ensures p.stickyContainer.Some? && p.stickyContainer.value != "" ==> o.stickyContainer == p.stickyContainer.value
    ensures p.stickyContainer.None? || p.stickyContainer.value == "" ==> o.stickyContainer == DefaultStickyContainer
  {
    Options(
      wrap := OrBool(p.wrap, true),
      wrapWith := OrString(p.wrapWith, DefaultWrapWith),
      marginTop := OrNumber(p.marginTop, 0),
      marginBottom := OrNumber(p.marginBottom, 0),
      stickyFor := OrNumber(p.stickyFor, 0),
      stickyClass := if IsConfigured(p.stickyClass) then p.stickyClass else None,
      stickyContainer := OrString(p.stickyContainer, DefaultStickyContainer))
  }

  /**
   * The `data-*` attributes of one element. An integer attribute is `Some`
   * when its string is non-empty (and then holds the parsed value); an absent
   * or empty attribute is `None`.
   */
  datatype Attributes = Attributes(
    marginTop: Option<int>,
    marginBottom: Option<int>,
    stickyFor: Option<int>,
    stickyClass: Option<string>,
    hasWrap: bool)

  datatype ElementConfig = ElementConfig(
    marginTop: int,
    marginBottom: int,
    stickyFor: int,
    stickyClass: Option<string>,
    wrap: bool,
    stickyContainer: string)

  /** The configuration `renderElement` stores on an element. */
  function MergeConfig(a: Attributes, o: Options): (c: ElementConfig)
    ensures a.marginTop.Some? ==> c.marginTop == a.marginTop.value
    ensures a.marginTop.None? ==> c.marginTop == o.marginTop
    ensures a.marginBottom.Some? ==> c.marginBottom == a.marginBottom.value
    ensures a.marginBottom.None? ==> c.marginBottom == o.marginBottom
    ensures a.stickyFor.Some? ==> c.stickyFor == a.stickyFor.value
    ensures a.stickyFor.None? ==> c.stickyFor == o.stickyFor
    ensures IsConfigured(a.stickyClass) ==> c.stickyClass == a.stickyClass
    ensures !IsConfigured(a.stickyClass) ==> c.stickyClass == o.stickyClass
    ensures c.wrap <==> a.hasWrap || o.wrap
    ensures c.stickyContainer == o.stickyContainer
  {
    ElementConfig(
      marginTop := if a.marginTop.Some? then a.marginTop.value else o.marginTop,
      marginBottom := if a.marginBottom.Some? then a.marginBottom.value else o.marginBottom,
      stickyFor := if a.stickyFor.Some? then a.stickyFor.value else o.stickyFor,
      stickyClass := if IsConfigured(a.stickyClass) then a.stickyClass else o.stickyClass,
      wrap := if a.hasWrap then true else o.wrap,
      stickyContainer := o.stickyContainer)
  }

  /**
   * Under the constructor's defaults every rendered element is wrapped, and
   * its sticky class is either absent or a non-empty name.
   */
  lemma RenderedConfigUnderDefaults(a: Attributes, p: PartialOptions)
    ensures MergeConfig(a, ResolveOptions(p)).wrap
    ensures MergeConfig(a, ResolveOptions(p)).stickyClass != Some("")
    ensures MergeConfig(a, ResolveOptions(p)).stickyContainer != ""
  {
  }
}
