/** The light/dark theme: the table of style classes for each theme, the provider that holds
    the current theme name and toggles it, and the hook that refuses to run outside it. */
module Theme {
  import opened Js

  /** A theme record: its top-level style classes by key, and the editor's own sub-record. */
  datatype Styles = Styles(fields: map<string, string>, editor: map<string, string>)

  const Light: string := "light"
  const Dark: string := "dark"

  const LightStyles: Styles := Styles(
    map[
      "background" := "bg-gradient-to-br from-blue-50 to-indigo-50",
      "nav" := "bg-white",
      "button" := "bg-blue-400 hover:bg-blue-500",
      "button-text" := "text-white",
      "text" := "text-gray-900",
      "secondaryText" := "text-gray-700",
      "toggleButton" := "bg-indigo-100 hover:bg-indigo-200 text-gray-700",
      "error" := "bg-red-50 text-red-900",
      "success" := "bg-green-50 text-green-900"],
    map[
      "background" := "bg-white",
      "text" := "text-gray-900",
      "border" := "border-gray-200",
      "lineNumbers" := "text-gray-400",
      "carat" := "gray",
      "selection" := "bg-blue-200",
      "highlight" := "bg-yellow-100",
      "statusBar" := "bg-gray-100 text-gray-600"])

  const DarkStyles: Styles := Styles(
    map[
      "background" := "bg-slate-900",
      "nav" := "bg-slate-800",
      "button" := "bg-blue-300 hover:bg-blue-400",
      "button-text" := "text-slate-900",
      "text" := "text-white",
      "secondaryText" := "text-gray-200",
      "toggleButton" := "bg-slate-700 hover:bg-slate-600 text-white",
      "error" := "bg-red-900/20 text-red-200",
      "success" := "bg-green-900/20 text-green-200"],
    map[
      "background" := "bg-slate-800",
      "text" := "text-gray-100",
      "border" := "border-slate-600",
      "lineNumbers" := "text-gray-500",
      "carat" := "white",
      "selection" := "bg-blue-500/30",
      "highlight" := "bg-yellow-500/20",
      "statusBar" := "bg-gray-700 text-gray-300"])

  /** The `themes` table. */
  const Themes: map<string, Styles> := map[Light := LightStyles, Dark := DarkStyles]

  /** Both themes define the same keys, at the top level and in the editor record, so a
      component reading a key from one finds it in the other. */
  lemma ThemesAgreeOnKeys()
    ensures Themes.Keys == {Light, Dark}
    ensures Themes[Light].fields.Keys == Themes[Dark].fields.Keys
    ensures Themes[Light].editor.Keys == Themes[Dark].editor.Keys
    ensures "background" in Themes[Light].fields && "background" in Themes[Light].editor
  {
  }

  /** The toggle's update: "light" becomes "dark", and anything else becomes "light". */
  function Toggled(current: string): (next: string)
    ensures next in Themes
    ensures next != current || current !in Themes
    ensures current != Light ==> next == Light
  {
    if current == Light then Dark else Light
  }

  /** On the two theme names the toggle is its own inverse. */
  lemma ToggledTwice(current: string)
    requires current in Themes
    ensures Toggled(Toggled(current)) == current
  {
  }

  /** What the provider hands to its children. */
  datatype Context = Context(theme: Styles, currentTheme: string)

  const OutsideProviderMessage: string := "useTheme must be used within a ThemeProvider"

  /** `useTheme`: the provider's value, or the error thrown when there is no provider. */
  function UseTheme(context: Option<Context>): (r: Completion<Context>)
    ensures r.Returns? <==> context.Some?
    ensures r.Returns? ==> r.value == context.value
    ensures r.Throws? ==> r.message == OutsideProviderMessage
  {
    if context.None? then Throws(OutsideProviderMessage) else Returns(context.value)
  }

  /** The `ThemeProvider` component's state. */
  class Provider {
    var currentTheme: string

    constructor ()
      ensures currentTheme == Light && Valid()
      ensures Value().theme == LightStyles
    {
      currentTheme := Light;
    }

    /** The current name always has an entry in the table. */
    predicate Valid()
      reads this
    {
      currentTheme in Themes
    }

    /** The context value: the record for the current name, and the name. */
    function Value(): (c: Context)
      requires Valid()
      reads this
      ensures c.currentTheme == currentTheme && c.theme == Themes[currentTheme]
      ensures c.theme == LightStyles <==> currentTheme == Light
    {
      assert DarkStyles.fields["nav"] != LightStyles.fields["nav"];
      Context(Themes[currentTheme], currentTheme)
    }

    /** `toggleTheme`. */
    method ToggleTheme()
      modifies this
      ensures currentTheme == Toggled(old(currentTheme))
      ensures Valid()
      ensures old(Valid()) ==> currentTheme != old(currentTheme)
    {
      currentTheme := Toggled(currentTheme);
    }
  }

  /** Toggling twice returns to the theme the provider started from. */
  method ToggleTwice() returns (before: string, after: string)
    ensures before == Light && after == Light
  {
    var p := new Provider();
    before := p.currentTheme;
    p.ToggleTheme();
    assert p.currentTheme == Dark;
    p.ToggleTheme();
    after := p.currentTheme;
  }
}
