/** The language context of the admin platform
    (admin-platform/contexts/language-context.tsx): the current language,
    the saved choice, and the lookup of a translated string. The tables'
    contents are a parameter. */
module Language {
  import opened Common

  datatype Lang = En | Ru | Uz

  /** The code under which a language is saved. */
  function Code(l: Lang): (c: string)
    ensures |c| == 2
  {
    match l
    case En => "en"
    case Ru => "ru"
    case Uz => "uz"
  }

  /** The saved value a language is read back from, if any. */
  function FromCode(s: string): (r: Option<Lang>)
    ensures r.Some? ==> Code(r.value) == s
    ensures r.None? <==> s != "en" && s != "ru" && s != "uz"
  {
    if s == "en" then Some(En)
    else if s == "ru" then Some(Ru)
    else if s == "uz" then Some(Uz)
    else None
  }

  /** Saving a language and reading it back gives the same language. */
  lemma CodeRoundTrip(l: Lang)
    ensures FromCode(Code(l)) == Some(l)
  {
  }

  type Table = map<string, string>

  /** `translations[language] || translations.en`: the current language's
      table, or the English one when the current language has none. */
  function TableFor(tables: map<Lang, Table>, l: Lang): (t: Table)
    requires En in tables
    ensures l in tables ==> t == tables[l]
    ensures l !in tables ==> t == tables[En]
  {
    if l in tables then tables[l] else tables[En]
  }

  /** `t(key)`: the entry of the chosen table, or the key itself when the
      entry is missing or empty (an empty string is falsy). */
  function Translate(tables: map<Lang, Table>, l: Lang, key: string): (r: string)
    requires En in tables
  {
    var t := TableFor(tables, l);
    if key in t && t[key] != "" then t[key] else key
  }

  /** A present, non-empty entry of the current language's table is what
      `t` returns. */
  lemma TranslateFound(tables: map<Lang, Table>, l: Lang, key: string)
    requires En in tables && l in tables && key in tables[l] && tables[l][key] != ""
    ensures Translate(tables, l, key) == tables[l][key]
  {
  }

  /** A missing or empty entry makes `t` return the key; `t` never returns
      the empty string for a non-empty key. */
  lemma TranslateFallsBackToKey(tables: map<Lang, Table>, l: Lang, key: string)
    requires En in tables
    ensures var t := TableFor(tables, l);
      key !in t || t[key] == "" ==> Translate(tables, l, key) == key
    ensures var t := TableFor(tables, l);
      Translate(tables, l, key) == key <==> key !in t || t[key] == "" || t[key] == key
    ensures key != "" ==> Translate(tables, l, key) != ""
  {
  }

  /** A language without a table reads the English one. */
  lemma TranslateFallsBackToEnglish(tables: map<Lang, Table>, l: Lang, key: string)
    requires En in tables && l !in tables
    ensures Translate(tables, l, key) == Translate(tables, En, key)
  {
  }

  /** `LanguageProvider`: the chosen language, whether the page has mounted,
      and the value saved under the `language` key of the browser's
      storage. */
  class LanguageProvider {
    const tables: map<Lang, Table>
    var language: Lang
    var mounted: bool
    var saved: Option<string>

    predicate Valid()
      reads this
    {
      En in tables
    }

    constructor (tables: map<Lang, Table>, saved: Option<string>)
      requires En in tables
      ensures Valid() && this.tables == tables
      ensures language == En && !mounted && this.saved == saved
    {
      this.tables := tables;
      language := En;
      mounted := false;
      this.saved := saved;
    }

    /** The mount effect: a saved value is adopted only when it is the code
        of one of the three languages; anything else leaves the language as
        it was. */
    method Mount()
      requires Valid()
      modifies this
      ensures Valid() && mounted && saved == old(saved)
      ensures old(saved).Some? && FromCode(old(saved).value).Some? ==> language == FromCode(old(saved).value).value
      ensures !(old(saved).Some? && FromCode(old(saved).value).Some?) ==> language == old(language)
      ensures Code(language) == (if old(saved).Some? && FromCode(old(saved).value).Some? then old(saved).value else Code(old(language)))
    {
      mounted := true;
      if saved.Some? {
        var l := FromCode(saved.value);
        if l.Some? {
          language := l.value;
        }
      }
    }

    /** `setLanguage`: the language changes and the choice is saved. */
    method SetLanguage(l: Lang)
      requires Valid()
      modifies this
      ensures Valid() && language == l && saved == Some(Code(l)) && mounted == old(mounted)
      ensures forall key :: T(key) == Translate(tables, l, key)
    {
      language := l;
      saved := Some(Code(l));
    }

    /** `t` of the current language. */
    function T(key: string): (r: string)
      requires Valid()
      reads this
      ensures r == key || r in TableFor(tables, language).Values
    {
      Translate(tables, language, key)
    }
  }

  /** Choosing a language and reloading the page restores that choice. */
  method SetThenReload(tables: map<Lang, Table>, l: Lang, start: Option<string>) returns (after: Lang)
    requires En in tables
    ensures after == l
  {
    var page := new LanguageProvider(tables, start);
    page.Mount();
    page.SetLanguage(l);
    var reloaded := new LanguageProvider(tables, page.saved);
    reloaded.Mount();
    after := reloaded.language;
  }
}
