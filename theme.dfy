/** Dark/light theme: resolving the preference at load and the persisted toggle. */
module Theme {

  /** An absent value: a missing storage entry, or `undefined`. */
  datatype Option<T> = None | Some(value: T)

  /** The theme button's glyph: a sun while dark mode is on, a moon otherwise. */
  datatype Icon = Sun | Moon

  /** What the page shows: whether the body carries the dark-mode class, and the button glyph. */
  datatype View = View(dark: bool, icon: Icon)

  /** The glyph agrees with the class. */
  predicate Consistent(v: View)
  {
    (v.icon == Sun) == v.dark
  }

  /**
   * `applyDark`: toggles the class with a force argument, then sets the glyph.
   * `None` stands for an `undefined` argument, with which the class toggle flips
   * the class and the glyph test sees a falsy value.
   */
  function ApplyDark(v: View, isDark: Option<bool>): (r: View)
    ensures isDark.Some? ==> r.dark == isDark.value && Consistent(r)
    ensures isDark.None? ==> r.dark == !v.dark && r.icon == Moon
  {
    match isDark
    case Some(b) => View(b, if b then Sun else Moon)
    case None => View(!v.dark, Moon)
  }

  /**
   * The preference at load: a stored value wins and means dark exactly when it is
   * "true"; otherwise the system preference (`None` when `matchMedia` is missing).
   */
  function Resolve(saved: Option<string>, media: Option<bool>): (r: Option<bool>)
    ensures saved.Some? ==> r.Some? && (r.value <==> saved.value == "true")
    ensures r.None? ==> saved.None? && media.None?
    ensures saved.None? ==> r == media
  {
    if saved.Some? then Some(saved.value == "true") else media
  }

  /** `initTheme`: resolve the preference and apply it to the page `v`. */
  function InitTheme(v: View, saved: Option<string>, media: Option<bool>): (r: View)
    ensures saved.Some? ==> (r.dark <==> saved.value == "true") && Consistent(r)
    ensures saved.None? && media.Some? ==> r.dark == media.value && Consistent(r)
    ensures saved.None? && media.None? ==> r == View(!v.dark, Moon)
  {
    ApplyDark(v, Resolve(saved, media))
  }

  /** `String(b)` for a boolean. */
  function BoolString(b: bool): (s: string)
    ensures (s == "true") == b
  {
    if b then "true" else "false"
  }

  /** The result of a click on the theme button: the new view and the stored string. */
  datatype ToggleResult = ToggleResult(view: View, stored: string)

  function ToggleDark(v: View): (t: ToggleResult)
    ensures t.view.dark == !v.dark && Consistent(t.view)
    ensures t.stored == BoolString(t.view.dark)
  {
    var next := !v.dark;
    ToggleResult(ApplyDark(v, Some(next)), BoolString(next))
  }

  /** A stored preference decides the theme whatever the system prefers. */
  lemma StoredWins(v: View, saved: string, media1: Option<bool>, media2: Option<bool>)
    ensures InitTheme(v, Some(saved), media1) == InitTheme(v, Some(saved), media2)
    ensures InitTheme(v, Some(saved), media1).dark <==> saved == "true"
    ensures Consistent(InitTheme(v, Some(saved), media1))
  {
  }

  /** Without a stored preference the system preference decides. */
  lemma SystemPreferenceDecides(v: View, prefersDark: bool)
    ensures InitTheme(v, None, Some(prefersDark)) == View(prefersDark, if prefersDark then Sun else Moon)
  {
  }

  /** Reloading after a toggle, whatever the page showed and whatever the system prefers, reproduces the toggled view. */
  lemma ToggleSurvivesReload(v: View, reloaded: View, media: Option<bool>)
    ensures InitTheme(reloaded, Some(ToggleDark(v).stored), media) == ToggleDark(v).view
  {
  }

  /** Two toggles restore the class and the stored preference describes it. */
  lemma ToggleTwice(v: View)
    ensures ToggleDark(ToggleDark(v).view).view.dark == v.dark
    ensures ToggleDark(ToggleDark(v).view).stored == BoolString(v.dark)
  {
  }

  /**
   * With neither a stored preference nor `matchMedia`, the load flips the class the
   * page started with and shows the moon: a page that starts light turns dark
   * while its button still shows the light-mode glyph.
   */
  lemma MissingMediaQueryFlips(v: View)
    ensures InitTheme(v, None, None) == View(!v.dark, Moon)
    ensures !v.dark ==> !Consistent(InitTheme(v, None, None))
  {
  }
}
