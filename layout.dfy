/** The theme decision of the root layout's inline script (`setTheme`), run on load and on
    every change of the system colour-scheme preference. */
module Layout {
  import opened Common

  /** `savedTheme === 'dark' || (!savedTheme && prefersDark)`: whether the root element gets
      the `dark` class. `saved` is the stored `theme`, None when nothing is stored. */
  function AppliesDark(saved: Option<string>, systemDark: bool): (dark: bool)
    ensures saved == Some("dark") ==> dark
    ensures TruthyString(saved) && saved.value != "dark" ==> !dark
    ensures !TruthyString(saved) ==> dark == systemDark
  {
    saved == Some("dark") || (!TruthyString(saved) && systemDark)
  }

  /** Re-running the rule after the system preference changes keeps a saved theme: the
      preference decides only when nothing is saved. */
  lemma SavedThemeDominates(saved: Option<string>, before: bool, after: bool)
    ensures TruthyString(saved) ==> AppliesDark(saved, before) == AppliesDark(saved, after)
    ensures !TruthyString(saved) ==> AppliesDark(saved, after) == after
  {
  }
}
