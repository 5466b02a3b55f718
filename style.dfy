/**
 * Inline styles and class lists as the engine writes them. A style is a map
 * from the properties the engine touches to their values; writing the empty
 * string to a property is the value `Empty`.
 */
module Style {
  import opened Wrappers

  datatype StyleKey = Position | Top | Left | Display | Width | Height

  datatype CssValue = Empty | Fixed | Block | Px(n: int)

  type Style = map<StyleKey, CssValue>

  /** What `element.style[key]` reads back: an unset property reads as empty. */
  function Read(s: Style, key: StyleKey): CssValue
  {
    if key in s then s[key] else Empty
  }

  /** The property/value pairs of one `css(...)` call, in the order of the object literal. */
  type Declarations = seq<(StyleKey, CssValue)>

  function KeysOf(props: Declarations): (keys: set<StyleKey>)
    ensures forall i :: 0 <= i < |props| ==> props[i].0 in keys
  {
    if props == [] then {} else KeysOf(props[..|props| - 1]) + {props[|props| - 1].0}
  }

  /** An object literal names each property once. */
  predicate DistinctKeys(props: Declarations)
  {
    forall i, j :: 0 <= i < j < |props| ==> props[i].0 != props[j].0
  }

  /** `s` and `t` agree on every property outside `keys`. */
  ghost predicate AgreeOutside(s: Style, t: Style, keys: set<StyleKey>)
  {
    forall k :: k !in keys ==> (k in s <==> k in t) && (k in s ==> s[k] == t[k])
  }

  ghost predicate AgreeOutsideOpt(s: Option<Style>, t: Option<Style>, keys: set<StyleKey>)
  {
    s.Some? == t.Some? && (s.Some? ==> AgreeOutside(s.value, t.value, keys))
  }

  lemma AgreeOutsideTrans(a: Style, b: Style, c: Style, k1: set<StyleKey>, k2: set<StyleKey>, keys: set<StyleKey>)
    requires AgreeOutside(a, b, k1) && AgreeOutside(b, c, k2)
    requires k1 <= keys && k2 <= keys
    ensures AgreeOutside(a, c, keys)
  {
  }

  /** The style after writing `props` into `s` one after the other. */
  function WithProps(s: Style, props: Declarations): (r: Style)
    ensures AgreeOutside(r, s, KeysOf(props))
    ensures KeysOf(props) <= r.Keys
    ensures DistinctKeys(props) ==> forall i :: 0 <= i < |props| ==> r[props[i].0] == props[i].1
  {
    if props == [] then s
    else
      var front := props[..|props| - 1];
      assert DistinctKeys(props) ==> DistinctKeys(front);
      WithProps(s, front)[props[|props| - 1].0 := props[|props| - 1].1]
  }

  /** `css` on a possibly null element: a null target stays null and nothing is written. */
  function CssOn(target: Option<Style>, props: Declarations): Option<Style>
  {
    if target.Some? then Some(WithProps(target.value, props)) else None
  }

  /**
   * `css`: writes each listed property, and only those, and only when the
   * target element is not null.
   */
  method Css(target: Option<Style>, properties: Declarations) returns (r: Option<Style>)
    ensures target.None? ==> r.None?
    ensures target.Some? ==> r == Some(WithProps(target.value, properties))
  {
    r := target;
    for i := 0 to |properties|
      invariant target.None? ==> r.None?
      invariant target.Some? ==> r == Some(WithProps(target.value, properties[..i]))
    {
      assert properties[..i + 1][..i] == properties[..i];
      if r.Some? {
        r := Some(r.value[properties[i].0 := properties[i].1]);
      }
    }
    assert properties[..|properties|] == properties;
  }

  /**
   * Writing the same declarations into two styles that already agree outside
   * `keys` leaves them agreeing outside `keys` minus the written properties.
   */
  lemma {:induction false} WithPropsNarrows(s: Style, t: Style, keys: set<StyleKey>, props: Declarations)
    requires AgreeOutside(s, t, keys)
    ensures AgreeOutside(WithProps(s, props), WithProps(t, props), keys - KeysOf(props))
    decreases |props|
  {
    if props != [] {
      WithPropsNarrows(s, t, keys, props[..|props| - 1]);
    }
  }

  /** What the declarations overwrite does not matter: differences there are absorbed. */
  lemma WithPropsAbsorbs(s: Style, t: Style, props: Declarations)
    requires AgreeOutside(s, t, KeysOf(props))
    ensures WithProps(s, props) == WithProps(t, props)
  {
    WithPropsNarrows(s, t, KeysOf(props), props);
  }

  lemma CssOnAbsorbs(s: Option<Style>, t: Option<Style>, props: Declarations)
    requires AgreeOutsideOpt(s, t, KeysOf(props))
    ensures CssOn(s, props) == CssOn(t, props)
  {
    if s.Some? {
      WithPropsAbsorbs(s.value, t.value, props);
    }
  }

  /** `if (stickyClass)`: a class is configured when it is present and not empty. */
  predicate IsConfigured(stickyClass: Option<string>)
  {
    stickyClass.Some? && stickyClass.value != ""
  }

  /** `classList.add` guarded by `if (stickyClass)`. */
  function AddClass(classes: set<string>, stickyClass: Option<string>): set<string>
  {
    if IsConfigured(stickyClass) then classes + {stickyClass.value} else classes
  }

  /** `classList.remove` guarded by `if (stickyClass)`. */
  function RemoveClass(classes: set<string>, stickyClass: Option<string>): set<string>
  {
    if IsConfigured(stickyClass) then classes - {stickyClass.value} else classes
  }
}
