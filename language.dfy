/** The language context: the English and Hindi string tables, the current language, and
    the lookup `t(key)` that falls back to the key itself. */
module Language {
  import opened Js

  const TRANSLATIONS: map<string, map<string, string>> := map[
    "en" := map[
      "welcome" := "Welcome",
      "practice" := "Practice Mode",
      "login" := "Login",
      "guest" := "Continue as Guest",
      "offline_mode" := "You are offline. Some features may be limited.",
      "dashboard" := "Dashboard",
      "learn" := "Learn",
      "services" := "Services"
    ],
    "hi" := map[
      "welcome" := "नमस्ते",
      "practice" := "अभ्यास मोड",
      "login" := "लॉग इन करें",
      "guest" := "गेस्ट के रूप में जारी रखें",
      "offline_mode" := "आप ऑफ़लाइन हैं। कुछ सुविधाएँ सीमित हो सकती हैं।",
      "dashboard" := "डैशबोर्ड",
      "learn" := "सीखें",
      "services" := "सेवाएं"
    ]
  ]

  /** The language the provider starts with. */
  const DEFAULT_LANG := "en"

  /** `translations[lang][key] || key`: the language's text for the key when it has a
      non-empty one, otherwise the key. `None` stands for the error thrown when the language
      has no table. */
  function Translate(lang: string, key: string): (r: Option<string>)
    ensures r.None? <==> lang !in TRANSLATIONS
    ensures lang in TRANSLATIONS && key in TRANSLATIONS[lang] && TRANSLATIONS[lang][key] != "" ==>
              r == Some(TRANSLATIONS[lang][key])
    ensures lang in TRANSLATIONS && (key !in TRANSLATIONS[lang] || TRANSLATIONS[lang][key] == "") ==>
              r == Some(key)
  {
    if lang !in TRANSLATIONS then None
    else if key in TRANSLATIONS[lang] && TRANSLATIONS[lang][key] != "" then Some(TRANSLATIONS[lang][key])
    else Some(key)
  }

  /** The lookup falls back to the key. */
  predicate FallsBack(lang: string, key: string)
    requires lang in TRANSLATIONS
  {
    key !in TRANSLATIONS[lang] || TRANSLATIONS[lang][key] == ""
  }

  /** Both languages define the same keys, every text is non-empty, so a key falls back in
      English exactly when it falls back in Hindi: when neither table has it. */
  lemma TablesAgree(key: string)
    ensures TRANSLATIONS["en"].Keys == TRANSLATIONS["hi"].Keys
    ensures forall l, k :: l in TRANSLATIONS && k in TRANSLATIONS[l] ==> TRANSLATIONS[l][k] != ""
    ensures FallsBack("en", key) <==> FallsBack("hi", key)
    ensures FallsBack("en", key) <==> key !in TRANSLATIONS["en"]
  {
    var en := TRANSLATIONS["en"];
    var hi := TRANSLATIONS["hi"];
    assert TRANSLATIONS.Keys == {"en", "hi"};
    assert forall k :: k in en ==> en[k] != "";
    assert forall k :: k in hi ==> hi[k] != "";
  }

  /** The default language translates its keys; an unknown key comes back unchanged. */
  lemma DefaultLookups(key: string)
    ensures Translate(DEFAULT_LANG, "welcome") == Some("Welcome")
    ensures key !in TRANSLATIONS["en"] ==> Translate(DEFAULT_LANG, key) == Some(key)
  {
  }

  class LanguageProvider {
    var lang: string

    constructor ()
      ensures lang == DEFAULT_LANG
    {
      lang := DEFAULT_LANG;
    }

    /** `setLang(next)` */
    method SetLang(next: string)
      modifies this`lang
      ensures lang == next
    {
      lang := next;
    }

    /** `t(key)`, a lookup that reads the current language and changes nothing. */
    function T(key: string): (r: Option<string>)
      reads this`lang
      ensures r.None? <==> lang !in TRANSLATIONS
      ensures r.Some? ==> r.value == key || (key in TRANSLATIONS[lang] && r.value == TRANSLATIONS[lang][key])
    {
      Translate(lang, key)
    }
  }
}
