/** The language provider (contexts/LanguageContext.js): the current language,
    its translation function, and the button that cycles en → uk → it → en. */
module LanguageContext {
  import opened Translations

  /** The language after `prev` in the cycle; anything unsupported goes back to
      English. */
  function NextLanguage(prev: string): (next: string)
    ensures Supported(next)
    ensures next != prev
  {
    if prev == "en" then "uk"
    else if prev == "uk" then "it"
    else "en"
  }

  /** Three presses of the toggle bring a supported language back. */
  lemma ToggleCycle(lang: string)
    requires Supported(lang)
    ensures NextLanguage(NextLanguage(NextLanguage(lang))) == lang
  {
  }

  /** The toggle visits every supported language: each one is the successor of
      exactly one supported language. */
  lemma ToggleIsPermutation(a: string, b: string)
    requires Supported(a) && Supported(b)
    ensures NextLanguage(a) == NextLanguage(b) <==> a == b
  {
  }

  class LanguageProvider {
    var language: string

    /** `useState('en')` */
    constructor()
      ensures language == "en"
    {
      language := "en";
    }

    method SetLanguage(lang: string)
      modifies this
      ensures language == lang
    {
      language := lang;
    }

    method ToggleLanguage()
      modifies this
      ensures language == NextLanguage(old(language))
    {
      if language == "en" {
        language := "uk";
      } else if language == "uk" {
        language := "it";
      } else {
        language := "en";
      }
    }

    /** The `t` the provider exposes: the translation function of the current language. */
    function T(): (t: string -> string)
      reads this
      ensures forall key :: t(key) == Translate(key, language)
    {
      GetTranslation(language)
    }
  }
}
