/**
 * The theme preference of the `useTheme` composable.
 *
 * The preference is one of three modes; `System` defers to the colour scheme
 * the operating system reports.  Every time the preference is applied, the
 * document root's `data-theme` attribute is set to the mode's name (or removed
 * for `System`) and the mode's name is written under the storage key `theme`.
 *
 * `State` is the composable's observable state as a value, and one function
 * per operation gives the state the operation leaves; `ThemeComposable` is the
 * composable itself, whose methods update its fields step by step and are
 * proved to leave exactly the state those functions describe.
 */
module UseTheme {
  import opened Wrappers

  datatype Theme = Light | Dark | System

  /** A concrete colour scheme: what the OS reports and what is finally shown. */
  type Scheme = t: Theme | t != System witness Light

  /** The literal a mode is written as, in the attribute and in storage. */
  function Name(t: Theme): string {
    match t
    case Light => "light"
    case Dark => "dark"
    case System => "system"
  }

  /**
   * The check the mount-time loader makes on a stored string: only the three
   * literal mode names are accepted, anything else (including "") is not.
   */
  function Parse(s: string): (r: Option<Theme>)
    ensures forall t :: r == Some(t) <==> s == Name(t)
  {
    if s == "light" then Some(Light)
    else if s == "dark" then Some(Dark)
    else if s == "system" then Some(System)
    else None
  }

  /** The `data-theme` attribute that applying a mode leaves on the document root. */
  function AttributeFor(t: Theme): (r: Option<string>)
    ensures r == None <==> t == System
    ensures r != None ==> Parse(r.value) == Some(t)
  {
    if t == System then None else Some(Name(t))
  }

  /**
   * theme: the preference; systemTheme: the last observed OS signal;
   * attr: the root's `data-theme` attribute; stored: the storage key `theme`.
   */
  datatype State = State(theme: Theme, systemTheme: Scheme, attr: Option<string>, stored: Option<string>)

  /** The document and the storage reflect the preference. */
  predicate Synced(s: State) {
    s.attr == AttributeFor(s.theme) && s.stored == Some(Name(s.theme))
  }

  /** A fresh composable: preference `System`, OS signal `Dark`; document and storage as found. */
  function Initial(attr: Option<string>, stored: Option<string>): (r: State)
    ensures r.theme == System && Active(r) == Dark
    ensures r.attr == attr && r.stored == stored
  {
    State(System, Dark, attr, stored)
  }

  /** `getActiveTheme`: the preference, with `System` resolved to the OS signal. */
  function Active(s: State): (r: Scheme)
    ensures r == s.theme || (s.theme == System && r == s.systemTheme)
  {
    if s.theme == System then s.systemTheme else s.theme
  }

  /** The toggle target: light goes to dark, anything else to light. */
  function Opposite(a: Scheme): (b: Scheme)
    ensures b != a
  {
    if a == Light then Dark else Light
  }

  /** `detectSystemTheme`, given whether the light colour-scheme query matches. */
  function Detected(s: State, prefersLight: bool): (r: State)
    ensures (r.systemTheme == Light) == prefersLight
    ensures r.(systemTheme := s.systemTheme) == s
  {
    s.(systemTheme := if prefersLight then Light else Dark)
  }

  /** `applyTheme(t)`: writes the document attribute and the storage key; the preference is untouched. */
  function Applied(s: State, t: Theme): (r: State)
    ensures r.theme == s.theme && r.systemTheme == s.systemTheme
    ensures r.attr == AttributeFor(t) && r.stored == Some(Name(t))
    ensures s.theme == t ==> Synced(r)
  {
    s.(attr := AttributeFor(t), stored := Some(Name(t)))
  }

  /** `setTheme(t)`. */
  function Chosen(s: State, t: Theme): (r: State)
    ensures r.theme == t && r.systemTheme == s.systemTheme && Synced(r)
  {
    Applied(s.(theme := t), t)
  }

  /** `toggleTheme`: the opposite of the active scheme becomes the explicit preference. */
  function Toggled(s: State): (r: State)
    ensures r.theme != System && r.theme != Active(s)
    ensures r.systemTheme == s.systemTheme && Synced(r)
  {
    Chosen(s, Opposite(Active(s)))
  }

  /** The mount-time load: a stored value replaces the preference only when it names a mode. */
  function Loaded(s: State): (r: State)
    ensures r.(theme := s.theme) == s
    ensures s.stored.Some? && Parse(s.stored.value).Some? ==> s.stored == Some(Name(r.theme))
    ensures s.stored.None? || Parse(s.stored.value).None? ==> r.theme == s.theme
  {
    if s.stored.Some? && Parse(s.stored.value).Some? then s.(theme := Parse(s.stored.value).value) else s
  }

  /** Mounting: load the stored preference, detect the OS signal, apply the preference. */
  function Mounted(s: State, prefersLight: bool): (r: State)
    ensures Synced(r) && (r.systemTheme == Light) == prefersLight
    ensures r.theme == Loaded(s).theme
  {
    var loaded := Loaded(s);
    Applied(Detected(loaded, prefersLight), loaded.theme)
  }

  /** The OS colour-scheme change handler. */
  function SystemChanged(s: State, prefersLight: bool): (r: State)
    ensures (r.systemTheme == Light) == prefersLight && r.theme == s.theme
    ensures s.theme != System ==> r.attr == s.attr && r.stored == s.stored
    ensures s.theme == System ==> Synced(r) && Active(r) == r.systemTheme
  {
    var detected := Detected(s, prefersLight);
    if s.theme == System then Applied(detected, System) else detected
  }

  /** What can happen to a mounted composable: a choice, a toggle, an OS change. */
  datatype Event = Choose(t: Theme) | ToggleClicked | OsChanged(prefersLight: bool)

  function Step(s: State, e: Event): State {
    match e
    case Choose(t) => Chosen(s, t)
    case ToggleClicked => Toggled(s)
    case OsChanged(prefersLight) => SystemChanged(s, prefersLight)
  }

  function Run(s: State, events: seq<Event>): State
    decreases |events|
  {
    if events == [] then s else Run(Step(s, events[0]), events[1..])
  }

  /** Every event keeps the document and storage in step with the preference. */
  lemma {:induction false} RunKeepsSynced(s: State, events: seq<Event>)
    requires Synced(s)
    ensures Synced(Run(s, events))
    decreases |events|
  {
    if events != [] {
      RunKeepsSynced(Step(s, events[0]), events[1..]);
    }
  }

  /**
   * From mounting on, whatever was in the document and storage beforehand and
   * whatever happens after: the attribute is absent exactly when the preference
   * is `System`, and storage holds the preference's name.
   */
  lemma SessionInvariant(attr: Option<string>, stored: Option<string>, prefersLight: bool, events: seq<Event>)
    ensures var r := Run(Mounted(Initial(attr, stored), prefersLight), events);
      (r.attr == None <==> r.theme == System) && r.stored == Some(Name(r.theme))
  {
    RunKeepsSynced(Mounted(Initial(attr, stored), prefersLight), events);
  }

  /** Toggling twice brings the active scheme back, as an explicit preference. */
  lemma ToggleTwice(s: State)
    ensures Toggled(Toggled(s)).theme == Active(s)
    ensures Active(Toggled(Toggled(s))) == Active(s)
  {
  }

  /** A stored value that is not a mode name is ignored, and mounting overwrites it with "system". */
  lemma InvalidStoredValueIgnored(attr: Option<string>, saved: string, prefersLight: bool)
    requires Parse(saved) == None
    ensures var r := Mounted(Initial(attr, Some(saved)), prefersLight);
      r.theme == System && r.attr == None && r.stored == Some("system")
  {
  }

  /** A preference written by one session is the preference the next session mounts with. */
  lemma PreferenceSurvivesReload(s: State, t: Theme, attr: Option<string>, prefersLight: bool)
    ensures Mounted(Initial(attr, Chosen(s, t).stored), prefersLight).theme == t
  {
    assert Parse(Name(t)) == Some(t);
  }

  /** The composable instance: its reactive refs, the document attribute and the storage key. */
  class ThemeComposable {
    var theme: Theme
    var systemTheme: Scheme
    var attr: Option<string>
    var stored: Option<string>

    function View(): State
      reads this
    {
      State(theme, systemTheme, attr, stored)
    }

    constructor (documentAttr: Option<string>, storedTheme: Option<string>)
      ensures View() == Initial(documentAttr, storedTheme)
    {
      theme := System;
      systemTheme := Dark;
      attr := documentAttr;
      stored := storedTheme;
    }

    method DetectSystemTheme(prefersLight: bool)
      modifies this
      ensures View() == Detected(old(View()), prefersLight)
    {
      if prefersLight {
        systemTheme := Light;
      } else {
        systemTheme := Dark;
      }
    }

    method ApplyTheme(t: Theme)
      modifies this
      ensures View() == Applied(old(View()), t)
    {
      if t == System {
        attr := None;
      } else {
        attr := Some(Name(t));
      }
      stored := Some(Name(t));
    }

    method SetTheme(t: Theme)
      modifies this
      ensures View() == Chosen(old(View()), t)
    {
      theme := t;
      ApplyTheme(t);
    }

    function GetActiveTheme(): (r: Scheme)
      reads this
      ensures r == Active(View())
    {
      if theme == System then systemTheme else theme
    }

    method ToggleTheme()
      modifies this
      ensures View() == Toggled(old(View()))
    {
      var currentActive := GetActiveTheme();
      SetTheme(if currentActive == Light then Dark else Light);
    }

    method Mount(prefersLight: bool)
      modifies this
      ensures View() == Mounted(old(View()), prefersLight)
    {
      var saved := stored;
      if saved.Some? && Parse(saved.value).Some? {
        theme := Parse(saved.value).value;
      }
      DetectSystemTheme(prefersLight);
      ApplyTheme(theme);
    }

    method OnSystemChange(prefersLight: bool)
      modifies this
      ensures View() == SystemChanged(old(View()), prefersLight)
    {
      DetectSystemTheme(prefersLight);
      if theme == System {
        ApplyTheme(System);
      }
    }
  }
}
