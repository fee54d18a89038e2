/** The `translate` helper of the templates: pick the user's language
    (French for anonymous users or an empty preference), then its table
    (French when the language has none), then the entry (the text itself
    when the table has none). */
module Translation {
  import opened Common

  /** Language code to a table from text to translated text. */
  type Tables = map<string, map<string, string>>

  const DefaultLanguage := "fr"

  /** The language the page is rendered in. */
  function Language(authenticated: bool, preference: Option<string>): (lang: string)
    ensures !authenticated ==> lang == DefaultLanguage
    ensures authenticated && TruthyString(preference) ==> lang == preference.value
    ensures authenticated && !TruthyString(preference) ==> lang == DefaultLanguage
  {
    if authenticated && TruthyString(preference) then preference.value else DefaultLanguage
  }

  /** The translated text. The French table is the fallback and must exist. */
  function Translate(tables: Tables, authenticated: bool, preference: Option<string>, text: string): (r: string)
    requires DefaultLanguage in tables
    ensures var lang := Language(authenticated, preference);
      var table := if lang in tables then tables[lang] else tables[DefaultLanguage];
      (text in table ==> r == table[text]) && (text !in table ==> r == text)
  {
    var lang := Language(authenticated, preference);
    var table := if lang in tables then tables[lang] else tables[DefaultLanguage];
    if text in table then table[text] else text
  }

  /** The result is always either the text itself or an entry of some table. */
  lemma TranslationComesFromTables(tables: Tables, authenticated: bool, preference: Option<string>, text: string)
    requires DefaultLanguage in tables
    ensures var r := Translate(tables, authenticated, preference, text);
      r == text || exists lang :: lang in tables && text in tables[lang] && tables[lang][text] == r
  {
  }

  /** A user whose language has no table reads French, as an anonymous user does. */
  lemma UnknownLanguageReadsFrench(tables: Tables, preference: Option<string>, text: string)
    requires DefaultLanguage in tables
    requires TruthyString(preference) && preference.value !in tables
    ensures Translate(tables, true, preference, text) == Translate(tables, false, None, text)
  {
  }

  /** A text no table translates is shown as it is. */
  lemma UntranslatedTextShownAsIs(tables: Tables, authenticated: bool, preference: Option<string>, text: string)
    requires DefaultLanguage in tables
    requires forall lang :: lang in tables ==> text !in tables[lang]
    ensures Translate(tables, authenticated, preference, text) == text
  {
  }
}
