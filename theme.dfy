/**
 * The theme engine: a registry of two palettes, `applyTheme`, the choice
 * made at startup from the stored preference, and the floating panel that
 * offers the themes.
 */
module Theme {
  import opened Wrappers

  /** A registry entry. Its style-variable overrides are empty for both shipped themes. */
  datatype ThemeEntry = ThemeEntry(name: string)

  const DefaultTheme: string := "burgundy-noir"

  /** The `THEMES` object: theme key to entry. */
  const Themes: map<string, ThemeEntry> := map[
    "burgundy-noir" := ThemeEntry("Burgundy Noir"),
    "elegant-desert" := ThemeEntry("Elegant Desert")
  ]

  /**
   * Property names every plain object literal inherits from `Object.prototype`.
   * Looking any of them up on `THEMES` gives a truthy value (a function, or the
   * prototype itself for `__proto__`), although none of them is a theme.
   */
  const InheritedKeys: set<string> := {
    "constructor", "hasOwnProperty", "isPrototypeOf", "propertyIsEnumerable",
    "toLocaleString", "toString", "valueOf", "__proto__",
    "__defineGetter__", "__defineSetter__", "__lookupGetter__", "__lookupSetter__"
  }

  /**
   * The guard `THEMES[key]` as written: truthy for an own key and for an
   * inherited one alike. A missing key (`undefined`) looks up `"undefined"`,
   * which is neither.
   */
  function GuardAsWritten(key: Option<string>): (b: bool)
    ensures IsRegistered(key) ==> b
    ensures b && !IsRegistered(key) ==> key.Some? && key.value in InheritedKeys
  {
    key.Some? && (key.value in Themes || key.value in InheritedKeys)
  }

  /** `saved && THEMES[saved] ? saved : "burgundy-noir"`, guard as written. */
  function StartupAsWritten(saved: Option<string>): (k: string)
    ensures k == DefaultTheme || (saved == Some(k) && GuardAsWritten(saved))
    ensures saved.Some? && saved.value != "" && GuardAsWritten(saved) ==> k == saved.value
    ensures !GuardAsWritten(saved) ==> k == DefaultTheme
  {
    if saved.Some? && saved.value != "" && GuardAsWritten(saved) then saved.value else DefaultTheme
  }

  /** A stored preference of "constructor" survives startup although no theme has that key. */
  lemma StartupAcceptsInheritedKey()
    ensures StartupAsWritten(Some("constructor")) == "constructor"
    ensures "constructor" !in Themes
  {
    assert "constructor" in InheritedKeys;
  }

  /** The guard as intended: the key is one of the registry's own keys. */
  function IsRegistered(key: Option<string>): (b: bool)
    ensures b <==> key == Some("burgundy-noir") || key == Some("elegant-desert")
  {
    key.Some? && key.value in Themes
  }

  /**
   * The theme chosen at startup from the stored preference: the saved key
   * when it is registered, the default theme otherwise (absent, empty or unknown).
   */
  function StartupTheme(saved: Option<string>): (k: string)
    ensures IsRegistered(Some(k))
    ensures IsRegistered(saved) ==> k == saved.value
    ensures !IsRegistered(saved) ==> k == DefaultTheme
  {
    if IsRegistered(saved) then saved.value else DefaultTheme
  }

  /** Off the inherited names, the startup choice as written is the corrected one. */
  lemma StartupAgreesOffPrototype(saved: Option<string>)
    requires saved.None? || saved.value !in InheritedKeys
    ensures StartupAsWritten(saved) == StartupTheme(saved)
  {
    GuardsAgreeOffPrototype(saved);
  }

  /** The three things `applyTheme` writes: the root marker, the stored preference and the label text. */
  datatype ThemeState = ThemeState(dataTheme: Option<string>, stored: Option<string>, themeName: string)

  /**
   * `applyTheme(key)` as written. A key that passes `THEMES[key]` is written
   * to the marker and the preference; the label (when `#themeName` exists)
   * gets the entry's `label`, which for an inherited name is `undefined`
   * and so empties the element.
   */
  function ApplyAsWritten(st: ThemeState, key: Option<string>, hasLabel: bool): (t: ThemeState)
    ensures !GuardAsWritten(key) ==> t == st
    ensures GuardAsWritten(key) ==> t.dataTheme == key && t.stored == key
    ensures GuardAsWritten(key) && hasLabel ==>
      t.themeName == (if IsRegistered(key) then Themes[key.value].name else "")
    ensures !hasLabel ==> t.themeName == st.themeName
  {
    if !GuardAsWritten(key) then st
    else
      var name := if !hasLabel then st.themeName
                  else if IsRegistered(key) then Themes[key.value].name
                  else "";
      ThemeState(key, key, name)
  }

  /** A theme item with `data-theme="toString"` leaves a marker that is no theme and an empty label. */
  lemma ApplyAcceptsInheritedKey(st: ThemeState)
    ensures ApplyAsWritten(st, Some("toString"), true) == ThemeState(Some("toString"), Some("toString"), "")
    ensures !IsRegistered(Some("toString"))
  {
    assert "toString" in InheritedKeys;
  }

  /** The corrected guard agrees with the written one on every key except the inherited names. */
  lemma GuardsAgreeOffPrototype(key: Option<string>)
    ensures key.Some? && key.value !in InheritedKeys ==> (GuardAsWritten(key) <==> IsRegistered(key))
    ensures key.Some? && key.value in InheritedKeys ==> GuardAsWritten(key) && !IsRegistered(key)
  {
    assert forall s :: s in InheritedKeys ==> s !in Themes;
  }

  /**
   * The page state the theme engine owns: the root `data-theme` attribute,
   * the stored preference, the `#themeName` label and the panel's `open` class.
   */
  class ThemeEngine {
    var dataTheme: Option<string>
    var stored: Option<string>
    /** Whether a `#themeName` element exists. */
    const hasLabel: bool
    var themeName: string
    /** Whether both `#themeToggle` and `#themePanel` exist, so that the panel handlers are wired. */
    const hasPanel: bool
    var panelOpen: bool

    /** After startup: the marker is a registered key, stored as the preference and shown in the label. */
    ghost predicate Valid()
      reads this
    {
      IsRegistered(dataTheme) &&
      stored == dataTheme &&
      (hasLabel ==> themeName == Themes[dataTheme.value].name)
    }

    /** Page load: read the saved preference and apply the chosen theme. */
    constructor (saved: Option<string>, dataTheme0: Option<string>, hasLabel: bool, themeName0: string,
                 hasPanel: bool, panelOpen0: bool)
      ensures Valid()
      ensures dataTheme == Some(StartupTheme(saved))
      ensures this.hasLabel == hasLabel && this.hasPanel == hasPanel && panelOpen == panelOpen0
    {
      dataTheme := dataTheme0;
      stored := saved;
      this.hasLabel := hasLabel;
      themeName := themeName0;
      this.hasPanel := hasPanel;
      panelOpen := panelOpen0;
      new;
      ApplyTheme(Some(StartupTheme(saved)));
    }

    /** `applyTheme(key)`: an unregistered key changes nothing; a registered one sets marker, preference and label. */
    method ApplyTheme(key: Option<string>)
      modifies this
      ensures !IsRegistered(key) ==>
        dataTheme == old(dataTheme) && stored == old(stored) && themeName == old(themeName)
      ensures IsRegistered(key) ==>
        dataTheme == key && stored == key &&
        themeName == (if hasLabel then Themes[key.value].name else old(themeName))
      ensures panelOpen == old(panelOpen)
      ensures old(Valid()) ==> Valid()
      ensures key.None? || key.value !in InheritedKeys ==>
        ThemeState(dataTheme, stored, themeName) ==
        ApplyAsWritten(old(ThemeState(dataTheme, stored, themeName)), key, hasLabel)
    {
      GuardsAgreeOffPrototype(key);
      if !IsRegistered(key) {
        return;
      }
      dataTheme := key;
      stored := key;
      if hasLabel {
        themeName := Themes[key.value].name;
      }
    }

    /** Click on `#themeToggle`: flip the panel. */
    method ToggleClicked()
      modifies this`panelOpen
      ensures panelOpen == (if hasPanel then !old(panelOpen) else old(panelOpen))
    {
      if hasPanel {
        panelOpen := !panelOpen;
      }
    }

    /** Click on a `.theme-item`: apply its `data-theme` and close the panel. */
    method ItemClicked(key: Option<string>)
      requires Valid()
      modifies this
      ensures Valid()
      ensures hasPanel && IsRegistered(key) ==> dataTheme == key && stored == key
      ensures (!hasPanel || !IsRegistered(key)) ==>
        dataTheme == old(dataTheme) && stored == old(stored) && themeName == old(themeName)
      ensures panelOpen == (if hasPanel then false else old(panelOpen))
    {
      if hasPanel {
        ApplyTheme(key);
        panelOpen := false;
      }
    }

    /** Any click on the document: close the panel unless the target is inside the panel or the toggle. */
    method DocumentClicked(inPanel: bool, inToggle: bool)
      modifies this`panelOpen
      ensures panelOpen == (if hasPanel && !inPanel && !inToggle then false else old(panelOpen))
    {
      if hasPanel && !inPanel && !inToggle {
        panelOpen := false;
      }
    }
  }
}
