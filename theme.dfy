/**
 * The dark-mode preference (scripts/main.js, `setupDarkMode`): the
 * `dark-mode` class on the body, the toggle's icon and the `darkMode`
 * entry of local storage.
 */
module Theme {
  import opened Wrappers

  /** The toggle's text: a sun while dark, a half moon while light. */
  datatype Icon = Sun | HalfMoon

  /** The two values written to the `darkMode` storage key. */
  const Enabled: string := "enabled"
  const Disabled: string := "disabled"

  /** The body's dark flag, the toggle icon and the stored value (`None` when never written). */
  datatype ThemeState = ThemeState(dark: bool, icon: Icon, stored: Option<string>)

  function IconFor(dark: bool): Icon {
    if dark then Sun else HalfMoon
  }

  /** The icon matches the page, and storage says `enabled` exactly when the page is dark. */
  predicate Consistent(t: ThemeState) {
    t.icon == IconFor(t.dark) && (t.dark <==> t.stored == Some(Enabled))
  }

  /**
   * Start-up from a light page showing the half moon: dark exactly when
   * storage holds `enabled`; storage is only read.
   */
  function AtInit(stored: Option<string>): (t: ThemeState)
    ensures t.dark <==> stored == Some(Enabled)
    ensures t.stored == stored
    ensures Consistent(t)
  {
    if stored == Some(Enabled) then ThemeState(true, Sun, stored)
    else ThemeState(false, HalfMoon, stored)
  }

  /** One click on the toggle. */
  function Toggled(t: ThemeState): (r: ThemeState)
    ensures r.dark == !t.dark
    ensures r.stored == Some(if r.dark then Enabled else Disabled)
    ensures Consistent(r)
  {
    var dark := !t.dark;
    ThemeState(dark, if dark then Sun else HalfMoon, Some(if dark then Enabled else Disabled))
  }

  /** Two clicks restore the page and the icon; storage then records the restored state. */
  lemma ToggleTwice(t: ThemeState)
    requires Consistent(t)
    ensures Toggled(Toggled(t)).dark == t.dark && Toggled(Toggled(t)).icon == t.icon
    ensures Toggled(Toggled(t)).stored == Some(if t.dark then Enabled else Disabled)
  {
  }

  /** A reload after toggling starts in the state the toggle left. */
  lemma ReloadAfterToggle(t: ThemeState)
    ensures AtInit(Toggled(t).stored) == Toggled(t)
  {
  }
}
