/**
 * The page-level dark flag: `toggleDark` flips `dark` and, inside the same
 * state updater, sets the document root's "dark" class to the new value.
 */
module DarkMode {

  /** The page's `dark` state and whether the document root carries the "dark" class. */
  datatype Theme = Theme(dark: bool, rootDark: bool)

  /** `setDark(d => { const next = !d; classList.toggle("dark", next); return next; })`. */
  function Toggle(t: Theme): Theme
  {
    var next := !t.dark;
    Theme(next, next)
  }

  /**
   * A toggle always changes the flag and leaves the document class agreeing
   * with it; two toggles restore the flag, and restore the class too when it
   * agreed with the flag to begin with.
   */
  lemma ToggleTwice(t: Theme)
    ensures Toggle(t).dark != t.dark && Toggle(t).rootDark == Toggle(t).dark
    ensures Toggle(Toggle(t)).dark == t.dark
    ensures t.rootDark == t.dark ==> Toggle(Toggle(t)) == t
  {
  }
}
