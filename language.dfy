/**
 * The interface language, kept in two places that follow the same rules: the
 * `language` store, and the `useLanguage` composable, whose current language is one
 * module-level value shared by every caller. Both persist the language under
 * 'language' in `localStorage` and adopt a saved value only when it is supported.
 */
module Languages {
  import opened Common
  import opened WebStorage

  const Supported: seq<string> := ["en", "ua", "es"]
  const DefaultLanguage: string := "en"
  const LanguageKey: string := "language"

  function IsLanguage(l: string): (b: bool)
    ensures b <==> l == "en" || l == "ua" || l == "es"
  {
    l in Supported
  }

  /** The `initLanguage` rule: a non-empty saved value that is a supported language replaces the current one. */
  function Adopt(saved: Option<string>, current: string): (r: string)
    ensures Truthy(saved) && IsLanguage(saved.value) ==> r == saved.value
    ensures !(Truthy(saved) && IsLanguage(saved.value)) ==> r == current
  {
    if Truthy(saved) && IsLanguage(saved.value) then saved.value else current
  }

  /** The language after `initLanguage` is always supported when it was before. */
  lemma AdoptKeepsSupported(saved: Option<string>, current: string)
    requires IsLanguage(current)
    ensures IsLanguage(Adopt(saved, current))
  {
  }

  /** A supported language that was saved is adopted, whatever the current one; so adopting twice is adopting once. */
  lemma AdoptSaved(l: string, current: string)
    requires IsLanguage(l)
    ensures Adopt(Some(l), current) == l
    ensures Adopt(Some(l), Adopt(Some(l), current)) == Adopt(Some(l), current)
  {
  }

  /** An unsupported saved value (such as 'fr' or an empty string) leaves the language alone. */
  lemma AdoptUnsupported(saved: string, current: string)
    requires saved !in {"en", "ua", "es"}
    ensures Adopt(Some(saved), current) == current
  {
  }

  /** The `language` store. */
  class LanguageStore {
    var currentLanguage: string

    ghost predicate Valid()
      reads this
    {
      IsLanguage(currentLanguage)
    }

    constructor ()
      ensures Valid() && currentLanguage == DefaultLanguage
    {
      currentLanguage := DefaultLanguage;
    }

    /** `setLanguage(lang)`: sets the language and saves it under 'language'. */
    method SetLanguage(lang: string, local: Storage)
      requires IsLanguage(lang)
      modifies this, local
      ensures Valid()
      ensures currentLanguage == lang
      ensures local.items == old(local.items)[LanguageKey := lang]
    {
      currentLanguage := lang;
      local.SetItem(LanguageKey, lang);
    }

    /** `initLanguage`: adopts the saved language when it is supported; storage is only read. */
    method InitLanguage(local: Storage)
      requires Valid()
      modifies this
      ensures Valid()
      ensures currentLanguage == Adopt(local.GetItem(LanguageKey), old(currentLanguage))
    {
      var saved := local.GetItem(LanguageKey);
      if Truthy(saved) && IsLanguage(saved.value) {
        currentLanguage := saved.value;
      }
    }
  }

  /** A language that was set survives the next `initLanguage`. */
  method StoreSetThenInit(store: LanguageStore, lang: string, local: Storage)
    requires IsLanguage(lang)
    modifies store, local
    ensures store.Valid() && store.currentLanguage == lang
  {
    store.SetLanguage(lang, local);
    store.InitLanguage(local);
  }

  /** The module-level `currentLanguage` ref of `useLanguage`. */
  class LanguageRef {
    var value: string

    constructor ()
      ensures value == DefaultLanguage
    {
      value := DefaultLanguage;
    }
  }

  /** What one call of `useLanguage()` returns: functions over the one shared ref. */
  class LanguageHandle {
    const currentLanguage: LanguageRef

    constructor (shared: LanguageRef)
      ensures currentLanguage == shared
    {
      currentLanguage := shared;
    }

    /** `setLanguage(lang)`: sets the shared value and saves it under 'language'. */
    method SetLanguage(lang: string, local: Storage)
      requires IsLanguage(lang)
      modifies currentLanguage, local
      ensures currentLanguage.value == lang
      ensures local.items == old(local.items)[LanguageKey := lang]
    {
      currentLanguage.value := lang;
      local.SetItem(LanguageKey, lang);
    }

    /** `initLanguage`: adopts the saved language into the shared value when it is supported. */
    method InitLanguage(local: Storage)
      modifies currentLanguage
      ensures currentLanguage.value == Adopt(local.GetItem(LanguageKey), old(currentLanguage.value))
    {
      var saved := local.GetItem(LanguageKey);
      if Truthy(saved) && IsLanguage(saved.value) {
        currentLanguage.value := saved.value;
      }
    }
  }

  /** `useLanguage()`: every call hands out the same shared ref. */
  method UseLanguage(shared: LanguageRef) returns (h: LanguageHandle)
    ensures fresh(h) && h.currentLanguage == shared
  {
    h := new LanguageHandle(shared);
  }

  /** A language set through one caller's handle is what every other caller sees, also after `initLanguage`. */
  method SharedSetThenInit(shared: LanguageRef, lang: string, local: Storage) returns (first: LanguageHandle, second: LanguageHandle)
    requires IsLanguage(lang)
    modifies shared, local
    ensures first.currentLanguage == second.currentLanguage == shared
    ensures second.currentLanguage.value == lang
  {
    first := UseLanguage(shared);
    second := UseLanguage(shared);
    first.SetLanguage(lang, local);
    second.InitLanguage(local);
  }
}
