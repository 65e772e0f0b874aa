/** The two-language toggle button. */
module LanguageSwitcher {
  import opened LanguageContext

  /** The language a click switches to: Turkish goes to English, everything else to Turkish. */
  function Toggle(l: Lang): (r: Lang)
    ensures l == Tr ==> r == En
    ensures l == En ==> r == Tr
  {
    if l == Tr then En else Tr
  }

  /** The button caption. */
  function Label(l: Lang): (r: string)
    ensures r == "TR" <==> l == Tr
    ensures r == "EN" <==> l != Tr
  {
    if l == Tr then "TR" else "EN"
  }

  lemma ToggleInvolution(l: Lang)
    ensures Toggle(Toggle(l)) == l
    ensures Toggle(l) != l
  {
  }

  /** A click switches the language through the context, which persists it. */
  function Click(st: LanguageState): (r: LanguageState)
    ensures r.language != st.language
    ensures r.language == Toggle(st.language)
    ensures LangStorageKey in r.storage && r.storage[LangStorageKey] == LangCode(r.language)
  {
    SetLanguage(st, Toggle(st.language))
  }

  /** Two clicks bring back the language and persist it. */
  lemma ClickTwice(st: LanguageState)
    ensures Click(Click(st)).language == st.language
    ensures LangStorageKey in Click(Click(st)).storage && Click(Click(st)).storage[LangStorageKey] == LangCode(st.language)
  {
    ToggleInvolution(st.language);
  }
}
