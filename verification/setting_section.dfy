/**
  The settings page: theme, AI model and animation switch, each persisted
  under its own localStorage key, with the document's "dark" class and a
  ripple overlay that the theme switch shows for 700 ms.

  localStorage is a map; the "dark" class is a flag; the ripple timer's
  expiry is the explicit event RippleTimerFired.
 */
module SettingSection {
  import opened Js

  const ThemeKey: string := "vf-theme"
  const ModelKey: string := "vf-model"
  const AnimKey: string := "vf-anim"

  const DefaultTheme: string := "dark"
  const DefaultModel: string := "gpt-5"
  const RippleDuration: nat := 700

  /** String(b). */
  function BoolText(b: bool): (text: string)
    ensures text == "true" <==> b
    ensures text != ""
  {
    if b then "true" else "false"
  }

  /** The value a stored key gives on load: the stored text when it is truthy
      (present and non-empty), else the default. */
  function Loaded(store: Store, key: string, default: string): (v: string)
    ensures Stored(store, key) ==> v == store[key]
    ensures !Stored(store, key) ==> v == default
  {
    if Stored(store, key) then store[key] else default
  }

  function LoadedTheme(store: Store): (theme: string)
    ensures Stored(store, ThemeKey) ==> theme == store[ThemeKey]
    ensures !Stored(store, ThemeKey) ==> theme == DefaultTheme
  {
    Loaded(store, ThemeKey, DefaultTheme)
  }

  function LoadedModel(store: Store): (model: string)
    ensures Stored(store, ModelKey) ==> model == store[ModelKey]
    ensures !Stored(store, ModelKey) ==> model == DefaultModel
  {
    Loaded(store, ModelKey, DefaultModel)
  }

  /** A truthy stored "vf-anim" gives true exactly when it is the text "true";
      otherwise the switch starts on. */
  function LoadedAnimations(store: Store): (on: bool)
    ensures Stored(store, AnimKey) ==> (on <==> store[AnimKey] == "true")
    ensures !Stored(store, AnimKey) ==> on
  {
    if Stored(store, AnimKey) then store[AnimKey] == "true" else true
  }

  /** The load effect's class rule: dark unless the stored theme is exactly
      "light" (an absent theme reads as null, which is not "light"). */
  function LoadedDark(store: Store): (dark: bool)
    ensures !dark <==> ThemeKey in store && store[ThemeKey] == "light"
  {
    !(ThemeKey in store && store[ThemeKey] == "light")
  }

  /** The class set on load agrees with the theme loaded. */
  lemma LoadedDarkMatchesTheme(store: Store)
    ensures LoadedDark(store) <==> LoadedTheme(store) != "light"
  {
  }

  /** saveSettings' writes: model and animation switch; the theme key and
      every other key are kept. */
  function Save(store: Store, aiModel: string, animations: bool): (r: Store)
    ensures ModelKey in r && r[ModelKey] == aiModel
    ensures AnimKey in r && r[AnimKey] == BoolText(animations)
    ensures forall k :: k != ModelKey && k != AnimKey ==>
      (k in r <==> k in store) && (k in r ==> r[k] == store[k])
  {
    store[ModelKey := aiModel][AnimKey := BoolText(animations)]
  }

  /** Saving then loading restores the model and the animation switch, as
      long as the model name is not empty (an empty one would read as falsy). */
  lemma SaveThenLoad(store: Store, aiModel: string, animations: bool)
    requires aiModel != ""
    ensures LoadedModel(Save(store, aiModel, animations)) == aiModel
    ensures LoadedAnimations(Save(store, aiModel, animations)) == animations
    ensures LoadedTheme(Save(store, aiModel, animations)) == LoadedTheme(store)
  {
  }

  /** An empty model name does not survive a save and reload: the default returns. */
  lemma EmptyModelNotRestored(store: Store, animations: bool)
    ensures LoadedModel(Save(store, "", animations)) == DefaultModel
  {
  }

  class Page {
    var theme: string
    var aiModel: string
    var animations: bool
    var ripple: bool
    /** The "dark" class on the document element. */
    var darkClass: bool
    var store: Store

    /** The class follows the theme, and the model name is never empty
        (only a truthy stored value replaces the default). */
    ghost predicate Valid()
      reads this
    {
      darkClass == (theme != "light") && aiModel != ""
    }

    /** Mounting runs the load effect over the current store. */
    constructor (store0: Store)
      ensures Valid()
      ensures theme == LoadedTheme(store0) && aiModel == LoadedModel(store0)
      ensures animations == LoadedAnimations(store0) && darkClass == LoadedDark(store0)
      ensures !ripple && store == store0
    {
      theme := LoadedTheme(store0);
      aiModel := LoadedModel(store0);
      animations := LoadedAnimations(store0);
      ripple := false;
      darkClass := LoadedDark(store0);
      store := store0;
    }

    /** Picking a theme: the ripple shows, the class is removed exactly for
        "light", the theme is set and written to "vf-theme". */
    method ToggleTheme(newTheme: string)
      requires Valid()
      modifies this
      ensures Valid()
      ensures ripple && theme == newTheme && darkClass == (newTheme != "light")
      ensures store == old(store)[ThemeKey := newTheme]
      ensures aiModel == old(aiModel) && animations == old(animations)
    {
      ripple := true;
      darkClass := newTheme != "light";
      theme := newTheme;
      store := store[ThemeKey := newTheme];
    }

    /** The ripple timer (700 ms after a theme change) fires. */
    method RippleTimerFired()
      requires Valid()
      modifies this
      ensures Valid()
      ensures !ripple
      ensures theme == old(theme) && aiModel == old(aiModel) && animations == old(animations)
      ensures darkClass == old(darkClass) && store == old(store)
    {
      ripple := false;
    }

    /** The animation switch; nothing is written until saved. */
    method SetAnimations(on: bool)
      requires Valid()
      modifies this
      ensures Valid()
      ensures animations == on
      ensures theme == old(theme) && aiModel == old(aiModel) && ripple == old(ripple)
      ensures darkClass == old(darkClass) && store == old(store)
    {
      animations := on;
    }

    /** The save button. */
    method SaveSettings()
      requires Valid()
      modifies this
      ensures Valid()
      ensures store == Save(old(store), aiModel, animations)
      ensures theme == old(theme) && aiModel == old(aiModel) && animations == old(animations)
      ensures ripple == old(ripple) && darkClass == old(darkClass)
    {
      store := Save(store, aiModel, animations);
    }
  }

  /** After saving, a remount shows the model and switch that were saved, and
      after a theme pick it shows that theme. */
  method SaveAndRemount(page: Page, newTheme: string) returns (again: Page)
    requires page.Valid() && newTheme != ""
    modifies page
    ensures again.theme == newTheme
    ensures again.aiModel == page.aiModel && again.animations == page.animations
    ensures again.darkClass == page.darkClass
  {
    page.ToggleTheme(newTheme);
    page.SaveSettings();
    SaveThenLoad(old(page.store)[ThemeKey := newTheme], page.aiModel, page.animations);
    again := new Page(page.store);
  }
}
