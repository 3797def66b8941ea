/** The theme switch: light and dark, and the label of the button that switches. */
module ThemeSelector {

  /** The theme after a click: "dark" from "light", "light" from anything else. */
  function Toggle(theme: string): (next: string)
    ensures next == "light" || next == "dark"
    ensures next == "dark" <==> theme == "light"
  {
    if theme == "light" then "dark" else "light"
  }

  /** Two clicks return to the starting theme when it is light or dark; any other theme ends at dark. */
  lemma ToggleTwice(theme: string)
    ensures theme == "light" || theme == "dark" ==> Toggle(Toggle(theme)) == theme
    ensures theme != "light" && theme != "dark" ==> Toggle(Toggle(theme)) == "dark"
  {
  }

  /** The button offers the mode it switches to. */
  function ButtonLabel(theme: string): (caption: string)
    ensures caption == "Dark Mode" || caption == "Light Mode"
  {
    if theme == "light" then "Dark Mode" else "Light Mode"
  }

  /** The label names the theme a click produces. */
  lemma LabelNamesNextTheme(theme: string)
    ensures ButtonLabel(theme) == (if Toggle(theme) == "dark" then "Dark Mode" else "Light Mode")
  {
  }
}
