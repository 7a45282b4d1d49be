/**
 * The language provider (src/context/LanguageContext.tsx): the language
 * restored from the `NEXT_LOCALE` cookie, `setLanguage`, the translation
 * lookup `t` and the text direction.
 */
module Language {
  import opened Wrappers
  import opened Js
  import opened Actions

  datatype Lang = En | Fr | Ar

  const LocaleCookie := "NEXT_LOCALE"
  const DefaultLang := Fr

  function Code(l: Lang): string
  {
    match l
    case En => "en"
    case Fr => "fr"
    case Ar => "ar"
  }

  /** A stored value is adopted only when it is one of the three codes. */
  function StoredLanguage(jar: Jar): (l: Option<Lang>)
    ensures l.Some? <==>
      (LocaleCookie in jar && jar[LocaleCookie].text.Chars? && jar[LocaleCookie].text.s in {"en", "fr", "ar"})
    ensures l.Some? ==> jar[LocaleCookie].text == Chars(Code(l.value))
  {
    if LocaleCookie in jar && jar[LocaleCookie].text.Chars? then
      var s := jar[LocaleCookie].text.s;
      if s == "en" then Some(En) else if s == "fr" then Some(Fr) else if s == "ar" then Some(Ar) else None
    else None
  }

  /** The translation dictionaries, given from outside. */
  datatype Dictionaries = Dictionaries(en: map<string, string>, fr: map<string, string>, ar: map<string, string>)

  function Dictionary(dicts: Dictionaries, l: Lang): map<string, string>
  {
    match l
    case Ar => dicts.ar
    case Fr => dicts.fr
    case En => dicts.en
  }

  /** `t(key)`: the entry when present and non-empty, otherwise the key itself. */
  function Translate(dicts: Dictionaries, l: Lang, key: string): (text: string)
    ensures key in Dictionary(dicts, l) && Dictionary(dicts, l)[key] != "" ==> text == Dictionary(dicts, l)[key]
    ensures !(key in Dictionary(dicts, l) && Dictionary(dicts, l)[key] != "") ==> text == key
    ensures text == "" ==> key == ""
  {
    var dict := Dictionary(dicts, l);
    if key in dict && dict[key] != "" then dict[key] else key
  }

  datatype Direction = Ltr | Rtl

  function Dir(l: Lang): (d: Direction)
    ensures d == Rtl <==> l == Ar
  {
    if l == Ar then Rtl else Ltr
  }

  class LanguageProvider {
    var language: Lang
    var cookies: Jar
    var docLang: string
    var docDir: Direction

    /** The document attributes follow the language once the effects have run. */
    predicate Synced()
      reads this
    {
      docLang == Code(language) && docDir == Dir(language)
    }

    constructor (stored: Jar)
      ensures language == DefaultLang && cookies == stored && Synced()
    {
      language := DefaultLang;
      cookies := stored;
      docLang := Code(DefaultLang);
      docDir := Dir(DefaultLang);
    }

    /** The mount effect: adopt a valid stored language, then sync the document. */
    method Mount()
      modifies this
      ensures language == (if StoredLanguage(cookies).Some? then StoredLanguage(cookies).value else old(language))
      ensures cookies == old(cookies) && Synced()
    {
      var stored := StoredLanguage(cookies);
      if stored.Some? {
        language := stored.value;
      }
      docLang := Code(language);
      docDir := Dir(language);
    }

    /** `setLanguage`: the state, the cookie and the document all take the new language. */
    method SetLanguage(l: Lang)
      modifies this
      ensures language == l && Synced()
      ensures cookies == old(cookies)[LocaleCookie := Cookie(Chars(Code(l)), None, false)]
    {
      language := l;
      cookies := cookies[LocaleCookie := Cookie(Chars(Code(l)), None, false)];
      docLang := Code(l);
      docDir := Dir(l);
    }
  }

  /** Round trip: the language written by `setLanguage` is the one the next mount adopts. */
  lemma SetThenRestore(jar: Jar, l: Lang)
    ensures StoredLanguage(jar[LocaleCookie := Cookie(Chars(Code(l)), None, false)]) == Some(l)
  {
  }
}
