/**
 * The language context: the current interface language, its persistence under
 * 'agrivision-language', the `t` lookup into per-language translation tables, and the
 * `getLocalizedText` rule the pages use to pick a language-suffixed field of a data item.
 * The translation strings themselves are not modelled: the tables are a parameter.
 */
module LanguageContext {
  import opened Common
  import opened Json
  import opened LocalStorage

  /** English, Hindi and Nagpuri. */
  datatype Language = En | Hi | Np

  /** The language code stored and compared in the source. */
  function Code(l: Language): string {
    match l
    case En => "en"
    case Hi => "hi"
    case Np => "np"
  }

  /** Reading a language code back: only "en", "hi" and "np" name a language. */
  function ParseCode(s: string): (r: Option<Language>)
    ensures r.Some? ==> Code(r.value) == s
    ensures r.None? ==> s != "en" && s != "hi" && s != "np"
  {
    if s == "en" then Some(En)
    else if s == "hi" then Some(Hi)
    else if s == "np" then Some(Np)
    else None
  }

  /** Every language's code reads back as that language. */
  lemma CodeRoundTrip(l: Language)
    ensures ParseCode(Code(l)) == Some(l)
  {
  }

  /** The storage key the chosen language is kept under. */
  const LANGUAGE_KEY := "agrivision-language"

  /** One key-to-text table per language. */
  datatype Translations = Translations(en: map<string, string>, hi: map<string, string>, np: map<string, string>) {
    function Of(l: Language): map<string, string> {
      match l
      case En => en
      case Hi => hi
      case Np => np
      }
  }

  /**
   * `t(key)`: the current language's text for `key` when it is present and non-empty;
   * otherwise the key itself. Other languages are never consulted.
   */
  function Translate(tables: Translations, l: Language, key: string): (r: string)
    ensures key in tables.Of(l) && tables.Of(l)[key] != "" ==> r == tables.Of(l)[key]
    ensures !(key in tables.Of(l) && tables.Of(l)[key] != "") ==> r == key
  {
    if key in tables.Of(l) && tables.Of(l)[key] != "" then tables.Of(l)[key] else key
  }

  /** `t` never turns a non-empty key into an empty text. */
  lemma TranslateNonEmpty(tables: Translations, l: Language, key: string)
    requires key != ""
    ensures Translate(tables, l, key) != ""
  {
  }

  /**
   * There is no fallback to English: a key with no entry in the current language gives the
   * raw key, whatever the English table holds.
   */
  lemma NoEnglishFallback(tables: Translations, l: Language, key: string)
    requires key in tables.en && tables.en[key] != key
    requires key !in tables.Of(l)
    ensures Translate(tables, l, key) == key
    ensures l != En
  {
  }

  /** Keys the shipped tables define in English only. */
  const ENGLISH_ONLY_KEYS: set<string> := {"register.profilePhoto", "register.uploadPhoto", "dashboard.logout"}

  /** The shape of the shipped tables as far as those keys are concerned. */
  predicate EnglishOnly(tables: Translations) {
    forall k :: k in ENGLISH_ONLY_KEYS ==> k in tables.en && k !in tables.hi && k !in tables.np
  }

  /** Under Hindi and Nagpuri those keys are shown raw. */
  lemma EnglishOnlyKeysShownRaw(tables: Translations, key: string)
    requires EnglishOnly(tables) && key in ENGLISH_ONLY_KEYS
    ensures Translate(tables, Hi, key) == key && Translate(tables, Np, key) == key
  {
  }

  /** The suffix a localized field name carries. */
  function Suffix(l: Language): string {
    match l
    case En => ""
    case Hi => "Hi"
    case Np => "Np"
  }

  /**
   * The key `fieldMap[field]` names: the field with the language's suffix when the page's
   * field map lists the field; otherwise `undefined`, which indexes the item as "undefined".
   */
  function LocalizedKey(fields: set<string>, l: Language, field: string): (k: string)
    ensures field in fields ==> k == field + Suffix(l)
    ensures field !in fields ==> k == "undefined"
  {
    if field in fields then field + Suffix(l) else "undefined"
  }

  /** `item[key]` on a plain record. */
  function Lookup(item: map<string, Json>, key: string): (r: Js)
    ensures r != Undefined <==> key in item
    ensures key in item ==> r == Value(item[key])
  {
    if key in item then Value(item[key]) else Undefined
  }

  /**
   * `getLocalizedText(item, field)`: `item[fieldMap[field]] || item[field]`, with `fields`
   * the fields the page's map lists.
   */
  function LocalizedText(fields: set<string>, item: map<string, Json>, l: Language, field: string): Js {
    var localized := Lookup(item, LocalizedKey(fields, l, field));
    if Truthy(localized) then localized else Lookup(item, field)
  }

  /**
   * The localized field is used exactly when it is truthy; otherwise the base field is, and
   * the result is truthy exactly when one of the two is.
   */
  lemma LocalizedTextChoice(fields: set<string>, item: map<string, Json>, l: Language, field: string)
    requires field in fields
    ensures var r := LocalizedText(fields, item, l, field);
            var own := Lookup(item, field + Suffix(l));
            && (Truthy(own) ==> r == own && r == Value(item[field + Suffix(l)]))
            && (!Truthy(own) ==> r == Lookup(item, field))
            && (Truthy(r) <==> Truthy(own) || Truthy(Lookup(item, field)))
  {
  }

  /** In English the base field is read, whatever it holds. */
  lemma LocalizedTextEnglish(fields: set<string>, item: map<string, Json>, field: string)
    requires field in fields
    ensures LocalizedText(fields, item, En, field) == Lookup(item, field)
  {
    assert field + Suffix(En) == field;
  }

  /** The provider's state: the current language and the fixed translation tables. */
  class LanguageProvider {
    const tables: Translations
    var language: Language

    /** The language starts as English. */
    constructor (tables: Translations)
      ensures this.tables == tables && language == En
    {
      this.tables := tables;
      language := En;
    }

    /** The mount effect: a saved value is taken only if it is one of the three codes. */
    method RestoreSaved(store: Store)
      modifies this
      ensures var saved := store.GetItem(LANGUAGE_KEY);
              && (saved.Some? && ParseCode(saved.value).Some? ==> Code(language) == saved.value)
              && (saved.None? || ParseCode(saved.value).None? ==> language == old(language))
    {
      var savedLang := store.GetItem(LANGUAGE_KEY);
      if savedLang.Some? && savedLang.value != "" {
        var parsed := ParseCode(savedLang.value);
        if parsed.Some? {
          language := parsed.value;
        }
      }
    }

    /**
     * `handleSetLanguage`: the language changes, then its code is written under the
     * language key; a refused write leaves the store as it was.
     */
    method SetLanguage(store: Store, lang: Language, accepted: bool)
      modifies this, store
      ensures language == lang
      ensures store.items == if accepted then old(store.items)[LANGUAGE_KEY := Code(lang)] else old(store.items)
    {
      language := lang;
      var _ := store.SetItem(LANGUAGE_KEY, Code(lang), accepted);
    }

    /** `t` against the current language. */
    function T(key: string): (r: string)
      reads this
      ensures key in tables.Of(language) && tables.Of(language)[key] != "" ==> r == tables.Of(language)[key]
      ensures !(key in tables.Of(language) && tables.Of(language)[key] != "") ==> r == key
    {
      Translate(tables, language, key)
    }
  }

  /** A language that was set and written is the one a later mount restores. */
  method SetThenRestore(store: Store, tables: Translations, lang: Language) returns (restored: Language)
    modifies store
    ensures restored == lang
  {
    var p := new LanguageProvider(tables);
    p.SetLanguage(store, lang, true);
    var q := new LanguageProvider(tables);
    CodeRoundTrip(lang);
    q.RestoreSaved(store);
    restored := q.language;
  }
}
