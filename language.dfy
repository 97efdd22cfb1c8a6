/**
 * The interface language: English ("en") or Swahili ("sw"). The current language is held in a
 * field and persisted through the store; lookups fall back to the key itself when the current
 * language has no (or an empty) translation for it. The translation tables, one map from key to
 * text per language code, are given to the constructor rather than fetched.
 */
module Language {
  import opened Options
  import Storage

  /** `toggle`'s choice of the next language: Swahili after English, English after anything else. */
  function Toggled(lang: string): (next: string)
    ensures next == "sw" <==> lang == "en"
    ensures next == "en" <==> lang != "en"
  {
    if lang == "en" then "sw" else "en"
  }

  /** Toggling always changes the language. */
  lemma ToggleChanges(lang: string)
    ensures Toggled(lang) != lang
  {
  }

  /** Toggling twice restores English or Swahili, and turns any other language into Swahili. */
  lemma ToggleTwice(lang: string)
    ensures lang == "en" || lang == "sw" ==> Toggled(Toggled(lang)) == lang
    ensures lang != "en" ==> Toggled(Toggled(lang)) == "sw"
  {
  }

  class LanguageState {
    var current: string
    var translations: map<string, map<string, string>>
    const storage: Storage.Store

    /** Starts in the stored language (English when none is stored). */
    constructor (storage: Storage.Store, translations: map<string, map<string, string>>)
      ensures this.storage == storage && this.translations == translations
      ensures current == storage.GetLanguage()
    {
      this.storage := storage;
      this.translations := translations;
      current := storage.GetLanguage();
    }

    /** `t(key)`: the current language's text for the key, or the key itself. */
    function T(key: string): (text: string)
      reads this
      ensures current in translations && key in translations[current] && translations[current][key] != ""
        ==> text == translations[current][key]
      ensures !(current in translations && key in translations[current] && translations[current][key] != "")
        ==> text == key
      ensures text == "" ==> key == ""
    {
      if current in translations && key in translations[current] && translations[current][key] != "" then
        translations[current][key]
      else
        key
    }

    /** Switches the language and persists the choice. */
    method SetLanguage(lang: string)
      modifies this, storage
      ensures current == lang && translations == old(translations)
      ensures storage.languageSlot == Some(lang)
      ensures storage.GetLanguage() == if lang == "" then "en" else lang
      ensures storage.patientsSlot == old(storage.patientsSlot) && storage.settingsSlot == old(storage.settingsSlot)
    {
      current := lang;
      storage.SetLanguage(lang);
    }

    /** Switches between English and Swahili. */
    method Toggle()
      modifies this, storage
      ensures current == Toggled(old(current)) && translations == old(translations)
      ensures storage.languageSlot == Some(current)
      ensures storage.GetLanguage() == current
      ensures storage.patientsSlot == old(storage.patientsSlot) && storage.settingsSlot == old(storage.settingsSlot)
    {
      var newLang := Toggled(current);
      SetLanguage(newLang);
    }

    /** The display name of the current language. */
    function GetCurrentLanguageName(): (name: string)
      reads this
      ensures name == "English" <==> current == "en"
      ensures name == "Kiswahili" <==> current != "en"
    {
      if current == "en" then "English" else "Kiswahili"
    }
  }
}
