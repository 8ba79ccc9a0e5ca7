/** The site header (`Header`): the theme toggle, which writes the stored theme and the
    root element's `dark` class, the mobile menu, and the desktop navigation. */
module HeaderMenu {
  import opened Common
  import Layout

  datatype MenuItem = MenuItem(name: string, href: string)

  const MenuItems: seq<MenuItem> := [
    MenuItem("Home", "/"),
    MenuItem("Resume Analyzer", "/analyzer"),
    MenuItem("Job Matching", "/job-matching"),
    MenuItem("ATS Checker", "/ats-checker"),
    MenuItem("Mock Test", "/mock-test"),
    MenuItem("Contact Us", "/contact"),
    MenuItem("About", "/about")
  ]

  /** `menuItems.slice(0, 5)`: the desktop bar leaves out Contact Us and About. */
  function DesktopItems(): (items: seq<MenuItem>)
    ensures |items| == 5 && |MenuItems| == 7
    ensures forall i :: 0 <= i < 5 ==> items[i] == MenuItems[i]
    ensures MenuItems[5] !in items && MenuItems[6] !in items
  {
    assert |MenuItems[5].name| == 10 && |MenuItems[6].name| == 5;
    MenuItems[..5]
  }

  /** The value `toggleTheme` stores under `theme`. */
  function ThemeName(dark: bool): (name: string)
    ensures dark <==> name == "dark"
  {
    if dark then "dark" else "light"
  }

  /** The theme the header stores is the one the layout applies on the next load, whatever
      the system preference. */
  lemma StoredThemeIsApplied(dark: bool, systemDark: bool)
    ensures Layout.AppliesDark(Some(ThemeName(dark)), systemDark) == dark
  {
  }

  class Header {
    var isMenuOpen: bool
    var isDark: bool
    /** The `theme` entry of the browser's storage. */
    var storedTheme: Option<string>
    /** Whether the root element carries the `dark` class. */
    var darkClass: bool

    /** The theme state the toggle shows agrees with the page's theme. */
    predicate InSync()
      reads this
    {
      isDark == darkClass
    }

    /** The header as written: the flag starts false, whatever the stored theme and the class
        the layout script already set. */
    constructor(stored: Option<string>, documentDark: bool)
      ensures !isMenuOpen && !isDark && storedTheme == stored && darkClass == documentDark
    {
      isMenuOpen := false;
      isDark := false;
      storedTheme := stored;
      darkClass := documentDark;
    }

    /** The header with its flag read from the page's theme, so that it starts in sync. */
    constructor FromDocument(stored: Option<string>, documentDark: bool)
      ensures !isMenuOpen && isDark == documentDark && storedTheme == stored && darkClass == documentDark
      ensures InSync()
    {
      isMenuOpen := false;
      isDark := documentDark;
      storedTheme := stored;
      darkClass := documentDark;
    }

    /** `toggleTheme`: flips the flag, sets the class to match and stores the new theme. */
    method ToggleTheme()
      modifies this`isDark, this`storedTheme, this`darkClass
      ensures isDark == !old(isDark)
      ensures darkClass == isDark && InSync()
      ensures storedTheme == Some(ThemeName(isDark))
    {
      var newTheme := !isDark;
      isDark := newTheme;
      if newTheme {
        darkClass := true;
        storedTheme := Some("dark");
      } else {
        darkClass := false;
        storedTheme := Some("light");
      }
    }

    /** The mobile menu button. */
    method ToggleMenu()
      modifies this`isMenuOpen
      ensures isMenuOpen == !old(isMenuOpen)
    {
      isMenuOpen := !isMenuOpen;
    }

    /** A link of the open mobile menu closes it. */
    method ClickMobileItem()
      requires isMenuOpen
      modifies this`isMenuOpen
      ensures !isMenuOpen
    {
      isMenuOpen := false;
    }
  }

  /** Two toggles give back the original flag, with the stored theme and the class matching it. */
  method ToggleTwice(h: Header)
    modifies h
    ensures h.isDark == old(h.isDark) && h.darkClass == h.isDark
    ensures h.storedTheme == Some(ThemeName(old(h.isDark)))
    ensures h.isMenuOpen == old(h.isMenuOpen)
  {
    h.ToggleTheme();
    h.ToggleTheme();
  }

  /** As written, the first toggle always stores `dark`; after a saved `dark` theme, which the
      layout applied, it changes nothing on the page. Returns the page's theme before and
      after the first toggle and the stored theme after it. */
  method FirstToggleAfterSavedDark(systemDark: bool) returns (before: bool, after: bool, stored: string)
    ensures before && after && stored == "dark"
  {
    var saved := Some("dark");
    var h := new Header(saved, Layout.AppliesDark(saved, systemDark));
    before := h.darkClass;
    h.ToggleTheme();
    after := h.darkClass;
    stored := h.storedTheme.value;
  }

  /** With the flag read from the page, the first toggle always flips the page's theme. */
  method FirstToggleFlipsTheme(saved: Option<string>, systemDark: bool) returns (before: bool, after: bool)
    ensures after == !before
    ensures before == Layout.AppliesDark(saved, systemDark)
  {
    var h := new Header.FromDocument(saved, Layout.AppliesDark(saved, systemDark));
    before := h.darkClass;
    h.ToggleTheme();
    after := h.darkClass;
  }
}
