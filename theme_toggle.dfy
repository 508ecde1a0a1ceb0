/**
 * The light/dark switch: on mount it picks the theme from the stored
 * preference or, when none is stored, from the system's colour scheme; each
 * click flips the theme, stores it and sets the document's "dark" class to
 * match. `localStorage.theme` and the document's class list are fields of
 * the class; the system preference is a parameter.
 */
module ThemeToggle {
  import opened Common

  const DarkClass := "dark"

  /** Everything the switch reads or writes. */
  datatype Theme = Theme(dark: bool, stored: Option<string>, classes: set<string>)

  /** The theme the mount effect chooses. */
  predicate PrefersDark(stored: Option<string>, systemDark: bool) {
    (systemDark && !Truthy(stored)) || stored == Some("dark")
  }

  /** The state after the mount effect. */
  function Mounted(t: Theme, systemDark: bool): (r: Theme)
    ensures r.dark <==> PrefersDark(t.stored, systemDark)
    ensures DarkClass in r.classes <==> r.dark
    ensures r.stored == t.stored
    ensures r.classes - {DarkClass} == t.classes - {DarkClass}
  {
    if PrefersDark(t.stored, systemDark) then Theme(true, t.stored, t.classes + {DarkClass})
    else Theme(false, t.stored, t.classes - {DarkClass})
  }

  /** The state after a click. */
  function Toggled(t: Theme): (r: Theme)
    ensures r.dark == !t.dark
    ensures r.stored == Some(if r.dark then "dark" else "light")
    ensures DarkClass in r.classes <==> r.dark
    ensures r.classes - {DarkClass} == t.classes - {DarkClass}
  {
    if !t.dark then Theme(true, Some("dark"), t.classes + {DarkClass})
    else Theme(false, Some("light"), t.classes - {DarkClass})
  }

  /** `ThemeToggle`'s state together with the browser state it touches. */
  class ThemeToggle {
    var dark: bool
    /** `localStorage.theme`. */
    var stored: Option<string>
    /** `document.documentElement.classList`. */
    var classes: set<string>

    function State(): Theme
      reads this
    {
      Theme(dark, stored, classes)
    }

    /** The component starts light, over the browser's current storage and class list. */
    constructor(stored: Option<string>, classes: set<string>)
      ensures State() == Theme(false, stored, classes)
    {
      this.dark := false;
      this.stored := stored;
      this.classes := classes;
    }

    /** The mount effect. */
    method Mount(systemDark: bool)
      modifies this`dark, this`classes
      ensures State() == Mounted(old(State()), systemDark)
    {
      if (systemDark && !Truthy(stored)) || stored == Some("dark") {
        dark := true;
        classes := classes + {DarkClass};
      } else {
        dark := false;
        classes := classes - {DarkClass};
      }
    }

    /** `toggle`. */
    method Toggle()
      modifies this
      ensures State() == Toggled(old(State()))
    {
      var isDark := !dark;
      dark := isDark;
      if isDark {
        classes := classes + {DarkClass};
        stored := Some("dark");
      } else {
        classes := classes - {DarkClass};
        stored := Some("light");
      }
    }
  }

  /** Two clicks restore the flag and the class; the stored theme then names the flag. */
  lemma ToggleTwice(t: Theme)
    requires DarkClass in t.classes <==> t.dark
    ensures Toggled(Toggled(t)).dark == t.dark
    ensures Toggled(Toggled(t)).classes == t.classes
    ensures Toggled(Toggled(t)).stored == Some(if t.dark then "dark" else "light")
  {
    var r := Toggled(Toggled(t));
    assert r.classes - {DarkClass} == t.classes - {DarkClass};
    assert r.classes == (r.classes - {DarkClass}) + (if r.dark then {DarkClass} else {});
    assert t.classes == (t.classes - {DarkClass}) + (if t.dark then {DarkClass} else {});
  }

  /** A stored "light" wins over a dark system preference. */
  lemma StoredLightStaysLight(t: Theme, systemDark: bool)
    requires t.stored == Some("light")
    ensures !Mounted(t, systemDark).dark
  {
  }

  /** With nothing stored, the mount follows the system preference. */
  lemma NothingStoredFollowsSystem(t: Theme, systemDark: bool)
    requires !Truthy(t.stored)
    ensures Mounted(t, systemDark).dark == systemDark
  {
  }

  /** A click stores a theme, so a later mount keeps the clicked theme whatever the system prefers. */
  lemma MountAfterToggleKeeps(t: Theme, systemDark: bool)
    ensures Mounted(Toggled(t), systemDark) == Toggled(t)
  {
    var r := Toggled(t);
    assert r.classes == (r.classes - {DarkClass}) + (if r.dark then {DarkClass} else {});
  }
}
