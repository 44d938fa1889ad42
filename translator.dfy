/**
 * String lookup with fallback (`get_string`). The translation tables are
 * read from the locale files at start-up; here they are a given map from
 * language code to that language's key/string table.
 */
module Translator {

  type Translations = map<string, map<string, string>>

  /** `DEFAULT_LANG`. */
  const DefaultLang: string := "ru"

  /** The table for `lang`, or an empty one: `TRANSLATIONS.get(lang, {})`. */
  function Table(tr: Translations, lang: string): map<string, string> {
    if lang in tr then tr[lang] else map[]
  }

  /** The visibly marked placeholder for a key found nowhere: `_key_`. */
  function Placeholder(key: string): string {
    "_" + key + "_"
  }

  /**
   * `get_string(key, lang)`: the requested language's string, else the
   * default language's, else the placeholder.
   */
  function GetString(tr: Translations, key: string, lang: string): (s: string)
    ensures key in Table(tr, lang) ==> s == Table(tr, lang)[key]
    ensures key !in Table(tr, lang) && key in Table(tr, DefaultLang) ==> s == Table(tr, DefaultLang)[key]
    ensures key !in Table(tr, lang) && key !in Table(tr, DefaultLang) ==> s == Placeholder(key)
  {
    var fallback := if key in Table(tr, DefaultLang) then Table(tr, DefaultLang)[key] else Placeholder(key);
    if key in Table(tr, lang) then Table(tr, lang)[key] else fallback
  }

  /** An unknown language code behaves like a known language whose table lacks the key. */
  lemma UnknownLanguageFallsBack(tr: Translations, key: string, unknown: string, known: string)
    requires unknown !in tr
    requires known in tr && key !in tr[known]
    ensures GetString(tr, key, unknown) == GetString(tr, key, known)
  {
  }

  /** Asking for the default language reads nothing but the default language's table. */
  lemma DefaultLanguageReadsOnlyItsTable(tr1: Translations, tr2: Translations, key: string)
    requires Table(tr1, DefaultLang) == Table(tr2, DefaultLang)
    ensures GetString(tr1, key, DefaultLang) == GetString(tr2, key, DefaultLang)
  {
  }

  /** The placeholder always shows, between its underscores, the key that was missing. */
  lemma PlaceholderNamesKey(tr: Translations, key: string, lang: string)
    requires key !in Table(tr, lang) && key !in Table(tr, DefaultLang)
    ensures var s := GetString(tr, key, lang);
      |s| == |key| + 2 && s[0] == '_' && s[|s| - 1] == '_' && s[1..|s| - 1] == key
  {
  }
}
