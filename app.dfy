/** The application shell: the stored colour scheme, its toggle, the theme chosen from it, and
    the rule that forces the dark scheme at night. The scheme is whatever string local storage
    holds ("light" when nothing is stored), so values other than "light" and "dark" are possible. */
module App {

  const Light := "light"
  const Dark := "dark"

  /** `toggleColorScheme`: "light" becomes "dark", and every other value becomes "light". */
  function ToggleColorScheme(prev: string): (next: string)
    ensures next == Light || next == Dark
    ensures next == Dark <==> prev == Light
  {
    if prev == Light then Dark else Light
  }

  /** From either of the two real schemes, two toggles lead back to where they started. */
  lemma ToggleTwice(s: string)
    requires s == Light || s == Dark
    ensures ToggleColorScheme(ToggleColorScheme(s)) == s
  {
  }

  /** From any other stored value, one toggle gives "light" and a second one "dark". */
  lemma ToggleFromOtherValue(s: string)
    requires s != Light && s != Dark
    ensures ToggleColorScheme(s) == Light
    ensures ToggleColorScheme(ToggleColorScheme(s)) == Dark
  {
  }

  datatype Theme = LightTheme | DarkTheme

  /** The theme object handed to every page. */
  function ThemeFor(scheme: string): (t: Theme)
    ensures t == DarkTheme <==> scheme == Dark
  {
    if scheme == Dark then DarkTheme else LightTheme
  }

  /** 18:00 up to 05:59 counts as night. */
  predicate IsNight(hour: int) {
    hour >= 18 || hour < 6
  }

  /** The scheme after the start-up effect runs at the given hour of the day. */
  function SchemeAtStartup(hour: int, stored: string): (s: string)
    ensures IsNight(hour) ==> s == Dark
    ensures !IsNight(hour) ==> s == stored
  {
    if IsNight(hour) then Dark else stored
  }

  /** Of the 24 hours of the day exactly twelve are night: 0 to 5 and 18 to 23. */
  lemma NightHours(hour: int)
    requires 0 <= hour < 24
    ensures IsNight(hour) <==> hour in {0, 1, 2, 3, 4, 5, 18, 19, 20, 21, 22, 23}
  {
  }

  /** At night the pages are always drawn with the dark theme, whatever was stored. */
  lemma NightGivesDarkTheme(hour: int, stored: string)
    requires IsNight(hour)
    ensures ThemeFor(SchemeAtStartup(hour, stored)) == DarkTheme
  {
  }
}
