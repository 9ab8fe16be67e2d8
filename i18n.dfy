/** The website's language support (docs/js/i18n.js): which language the page
    starts in, switching language, the strings written into the page for a
    language, text direction and the language-search predicate. */
module I18n {
  import opened Wrappers
  import opened Strings

  // ---------------------------------------------------------------------
  // The language table
  // ---------------------------------------------------------------------

  /** An entry of the language table: English name, native name and whether
      the script is written right to left (a missing `rtl` is false). */
  datatype Language = Language(name: string, nativeName: string, rtl: bool)

  /** `languages[code]`: the entry of a supported locale code (`en`,
      `pt_BR`, ...); 54 entries. */
  function LanguageOf(code: string): Option<Language> {
    match code
    case "ar" => Some(Language("العربية", "العربية", true))
    case "bg" => Some(Language("Bulgarian", "Български", false))
    case "bn" => Some(Language("Bengali", "বাংলা", false))
    case "ca" => Some(Language("Catalan", "Català", false))
    case "cs" => Some(Language("Czech", "Čeština", false))
    case "da" => Some(Language("Danish", "Dansk", false))
    case "de" => Some(Language("German", "Deutsch", false))
    case "el" => Some(Language("Greek", "Ελληνικά", false))
    case "en" => Some(Language("English", "English", false))
    case "es" => Some(Language("Spanish", "Español", false))
    case "fa" => Some(Language("Persian", "فارسی", true))
    case "fi" => Some(Language("Finnish", "Suomi", false))
    case "fil" => Some(Language("Filipino", "Filipino", false))
    case "fr" => Some(Language("French", "Français", false))
    case "gu" => Some(Language("Gujarati", "ગુજરાતી", false))
    case "he" => Some(Language("Hebrew", "עברית", true))
    case "hi" => Some(Language("Hindi", "हिन्दी", false))
    case "hr" => Some(Language("Croatian", "Hrvatski", false))
    case "hu" => Some(Language("Hungarian", "Magyar", false))
    case "id" => Some(Language("Indonesian", "Bahasa Indonesia", false))
    case "it" => Some(Language("Italian", "Italiano", false))
    case "ja" => Some(Language("Japanese", "日本語", false))
    case "kk" => Some(Language("Kazakh", "Қазақша", false))
    case "kn" => Some(Language("Kannada", "ಕನ್ನಡ", false))
    case "ko" => Some(Language("Korean", "한국어", false))
    case "lt" => Some(Language("Lithuanian", "Lietuvių", false))
    case "lv" => Some(Language("Latvian", "Latviešu", false))
    case "ml" => Some(Language("Malayalam", "മലയാളം", false))
    case "mr" => Some(Language("Marathi", "मराठी", false))
    case "ms" => Some(Language("Malay", "Bahasa Melayu", false))
    case "my" => Some(Language("Burmese", "မြန်မာဘာသာ", false))
    case "nb" => Some(Language("Norwegian", "Norsk Bokmål", false))
    case "ne" => Some(Language("Nepali", "नेपाली", false))
    case "nl" => Some(Language("Dutch", "Nederlands", false))
    case "pa" => Some(Language("Punjabi", "ਪੰਜਾਬੀ", false))
    case "pl" => Some(Language("Polish", "Polski", false))
    case "pt_BR" => Some(Language("Portuguese (Brazil)", "Português (Brasil)", false))
    case "pt_PT" => Some(Language("Portuguese (Portugal)", "Português (Portugal)", false))
    case "ro" => Some(Language("Romanian", "Română", false))
    case "ru" => Some(Language("Russian", "Русский", false))
    case "sk" => Some(Language("Slovak", "Slovenčina", false))
    case "sl" => Some(Language("Slovenian", "Slovenščina", false))
    case "sr" => Some(Language("Serbian", "Српски", false))
    case "sv" => Some(Language("Swedish", "Svenska", false))
    case "sw" => Some(Language("Swahili", "Kiswahili", false))
    case "ta" => Some(Language("Tamil", "தமிழ்", false))
    case "te" => Some(Language("Telugu", "తెలుగు", false))
    case "th" => Some(Language("Thai", "ไทย", false))
    case "tr" => Some(Language("Turkish", "Türkçe", false))
    case "uk" => Some(Language("Ukrainian", "Українська", false))
    case "ur" => Some(Language("Urdu", "اردو", true))
    case "vi" => Some(Language("Vietnamese", "Tiếng Việt", false))
    case "zh_CN" => Some(Language("Chinese (Simplified)", "简体中文", false))
    case "zh_TW" => Some(Language("Chinese (Traditional)", "繁體中文", false))
    case _ => None
  }

  /** The codes whose entry is marked right to left. */
  const RightToLeft: set<string> := {"ar", "fa", "he", "ur"}

  /** `languages[code]` is an entry: `code` is one of the 54 keys of the table. */
  predicate Supported(code: string) {
    code == "ar" || code == "bg" || code == "bn" || code == "ca" || code == "cs" || code == "da" ||
    code == "de" || code == "el" || code == "en" || code == "es" || code == "fa" || code == "fi" ||
    code == "fil" || code == "fr" || code == "gu" || code == "he" || code == "hi" ||
    code == "hr" || code == "hu" || code == "id" || code == "it" || code == "ja" || code == "kk" ||
    code == "kn" || code == "ko" || code == "lt" || code == "lv" || code == "ml" || code == "mr" ||
    code == "ms" || code == "my" || code == "nb" || code == "ne" || code == "nl" || code == "pa" ||
    code == "pl" || code == "pt_BR" || code == "pt_PT" || code == "ro" || code == "ru" ||
    code == "sk" || code == "sl" || code == "sr" || code == "sv" || code == "sw" || code == "ta" ||
    code == "te" || code == "th" || code == "tr" || code == "uk" || code == "ur" || code == "vi" ||
    code == "zh_CN" || code == "zh_TW"
  }

  /** Every key has an entry. */
  lemma SupportedHasEntry(code: string)
    requires Supported(code)
    ensures LanguageOf(code).Some?
  {
  }

  /** Every entry is under one of the keys. */
  lemma EntryIsSupported(code: string)
    requires LanguageOf(code).Some?
    ensures Supported(code)
  {
  }

  /** No locale code contains `-`. */
  lemma CodesHaveNoDash(code: string)
    requires Supported(code)
    ensures '-' !in code
  {
  }

  /** A supported code is a two- or three-letter language code, or a
      language and a region joined by one `_` (`pt_BR`). */
  lemma CodeShape(code: string)
    requires Supported(code)
    ensures ('_' !in code && 2 <= |code| <= 3)
      || (|code| == 5 && code[2] == '_' && code[0] != '_' && code[1] != '_'
          && code[3] != '_' && code[4] != '_')
  {
  }

  // ---------------------------------------------------------------------
  // Choosing the start language
  // ---------------------------------------------------------------------

  /** `navigator.language.replace('-', '_')`: a BCP 47 tag (section 2.1 of
      RFC 5646) in the table's spelling; only the first `-` is replaced. */
  function BrowserLang(navigatorLanguage: string): (r: string)
    ensures |r| == |navigatorLanguage|
    ensures '_' in navigatorLanguage && '-' !in navigatorLanguage ==> r == navigatorLanguage
  {
    ReplaceFirst(navigatorLanguage, '-', '_')
  }

  /** `browserLang.split('_')[0]`: the primary language subtag. */
  function ShortLang(browserLang: string): (r: string)
    ensures r <= browserLang && '_' !in r
  {
    BeforeFirst(browserLang, '_')
  }

  /** A saved preference counts only when it is non-empty and supported. */
  predicate UsableSaved(saved: Option<string>) {
    saved.Some? && saved.value != "" && Supported(saved.value)
  }

  /** The start language: the saved preference if supported, else the exact
      browser tag, else its primary subtag, else English. */
  function ResolveLanguage(saved: Option<string>, navigatorLanguage: string): (r: string)
    ensures Supported(r)
    ensures UsableSaved(saved) ==> r == saved.value
    ensures !UsableSaved(saved) && Supported(BrowserLang(navigatorLanguage)) ==>
      r == BrowserLang(navigatorLanguage)
    ensures (!UsableSaved(saved) && !Supported(BrowserLang(navigatorLanguage))
      && Supported(ShortLang(BrowserLang(navigatorLanguage)))) ==>
      r == ShortLang(BrowserLang(navigatorLanguage))
    ensures r == "en" || r == saved.GetOr("") || r == BrowserLang(navigatorLanguage)
      || r == ShortLang(BrowserLang(navigatorLanguage))
  {
    var browserLang := BrowserLang(navigatorLanguage);
    var shortLang := ShortLang(browserLang);
    if UsableSaved(saved) then saved.value
    else if Supported(browserLang) then browserLang
    else if Supported(shortLang) then shortLang
    else "en"
  }

  /** Writing a code's `_` as `-` and reading it back as a browser tag
      restores the code, when the code has no `-` of its own. */
  lemma DashRoundTrip(code: string)
    requires '-' !in code
    ensures BrowserLang(ReplaceFirst(code, '_', '-')) == code
  {
    if '_' in code {
      var k := IndexOfChar(code, '_');
      var m := ReplaceFirst(code, '_', '-');
      assert m[k] == '-';
      assert IndexOfChar(m, '-') == k;
      var r := BrowserLang(m);
      assert forall i :: 0 <= i < |code| ==> r[i] == code[i];
    }
  }

  /** A browser reporting the page's own `lang` attribute starts the page in
      that language again. */
  lemma LangAttributeResolvesBack(code: string)
    requires Supported(code)
    ensures ResolveLanguage(None, DocumentLang(code)) == code
  {
    CodesHaveNoDash(code);
    DashRoundTrip(code);
  }

  // ---------------------------------------------------------------------
  // Strings written into the page
  // ---------------------------------------------------------------------

  /** `currentLang.split('_')[0].toUpperCase()`: the code shown on the button. */
  function DisplayCode(lang: string): (r: string)
    ensures |r| == |ShortLang(lang)| && '_' !in r
    ensures forall i :: 0 <= i < |r| ==> r[i] == UpperChar(lang[i])
  {
    ToUpper(ShortLang(lang))
  }

  /** `currentLang.replace('_', '-')`: the document's `lang` attribute. */
  function DocumentLang(lang: string): (r: string)
    ensures |r| == |lang|
    ensures '_' !in lang ==> r == lang
    ensures '_' in lang ==> r[IndexOfChar(lang, '_')] == '-'
  {
    ReplaceFirst(lang, '_', '-')
  }

  /** Every supported code's `lang` attribute is free of `_`, since no code
      has more than one. */
  lemma DocumentLangHasNoUnderscore(code: string)
    requires Supported(code)
    ensures '_' !in DocumentLang(code)
  {
    CodeShape(code);
    if '_' in code {
      assert IndexOfChar(code, '_') == 2 by {
        assert code[..2] == [code[0], code[1]];
      }
      var r := DocumentLang(code);
      assert r == [code[0], code[1], '-', code[3], code[4]];
    }
  }

  /** `updateDocumentDirection`: right to left exactly for Arabic, Persian,
      Hebrew and Urdu. */
  function Direction(lang: string): (r: string)
    ensures r == "rtl" <==> lang in RightToLeft
    ensures r == "ltr" <==> lang !in RightToLeft
  {
    if LanguageOf(lang).Some? && LanguageOf(lang).value.rtl then "rtl" else "ltr"
  }

  // ---------------------------------------------------------------------
  // Language search
  // ---------------------------------------------------------------------

  /** An option stays visible when its lower-cased native or English name
      contains the lower-cased query. */
  predicate SearchMatches(query: string, nativeName: string, name: string) {
    var q := ToLower(query);
    Contains(ToLower(nativeName), q) || Contains(ToLower(name), q)
  }

  /** An empty query shows every option. */
  lemma EmptyQueryShowsAll(nativeName: string, name: string)
    ensures SearchMatches("", nativeName, name)
  {
    EmptyIsContained(ToLower(nativeName));
  }

  /** Typing a language's English name in any ASCII case finds it. */
  lemma NameFindsItself(l: Language)
    ensures SearchMatches(ToUpper(l.name), l.nativeName, l.name)
    ensures SearchMatches(l.name, l.nativeName, l.name)
  {
    LowerOfUpper(l.name);
    assert ToLower(l.name) <= ToLower(l.name)[0..];
  }

  // ---------------------------------------------------------------------
  // Applying translations
  // ---------------------------------------------------------------------

  /** An element carrying `data-i18n`: its key, its `data-i18n-attr` (if
      any), its tag name, its text and its attributes. */
  datatype Element = Element(
    key: string,
    attr: Option<string>,
    tagName: string,
    text: string,
    attributes: map<string, string>)

  /** A translation is used only when present and non-empty. */
  predicate HasTranslation(translations: map<string, string>, key: string) {
    key in translations && translations[key] != ""
  }

  predicate SetsAttribute(e: Element) {
    e.attr.Some? && e.attr.value != ""
  }

  /** A `<title>` element's translation goes to `document.title`. */
  predicate SetsTitle(e: Element) {
    !SetsAttribute(e) && e.tagName == "TITLE"
  }

  /** The element after `applyTranslations`. */
  function Translated(e: Element, translations: map<string, string>): (r: Element)
    ensures r.key == e.key && r.attr == e.attr && r.tagName == e.tagName
    ensures !HasTranslation(translations, e.key) || SetsTitle(e) ==> r == e
    ensures HasTranslation(translations, e.key) && SetsAttribute(e) ==>
      r.text == e.text && r.attributes == e.attributes[e.attr.value := translations[e.key]]
    ensures HasTranslation(translations, e.key) && !SetsAttribute(e) && !SetsTitle(e) ==>
      r.text == translations[e.key] && r.attributes == e.attributes
  {
    if !HasTranslation(translations, e.key) then e
    else if SetsAttribute(e) then e.(attributes := e.attributes[e.attr.value := translations[e.key]])
    else if SetsTitle(e) then e
    else e.(text := translations[e.key])
  }

  /** An element whose translation is written to `document.title`. */
  predicate TranslatesTitle(e: Element, translations: map<string, string>) {
    SetsTitle(e) && HasTranslation(translations, e.key)
  }

  /** `document.title` after processing `es` in order: the last translated
      `<title>` element wins, and without one the title is unchanged. */
  function TitleAfter(es: seq<Element>, translations: map<string, string>, title: string): (r: string)
    ensures (forall i :: 0 <= i < |es| ==> !TranslatesTitle(es[i], translations)) ==> r == title
    ensures (exists i :: 0 <= i < |es| && TranslatesTitle(es[i], translations)) ==>
      exists i :: 0 <= i < |es| && TranslatesTitle(es[i], translations) && r == translations[es[i].key]
                  && forall j :: i < j < |es| ==> !TranslatesTitle(es[j], translations)
  {
    if es == [] then title
    else
      var last := es[|es| - 1];
      if TranslatesTitle(last, translations) then translations[last.key]
      else
        var r := TitleAfter(es[..|es| - 1], translations, title);
        assert forall i :: 0 <= i < |es| - 1 ==> es[..|es| - 1][i] == es[i];
        r
  }

  /** One more element changes the title only when it is a translated `<title>`. */
  lemma TitleAfterStep(es: seq<Element>, i: nat, translations: map<string, string>, title: string)
    requires i < |es|
    ensures TitleAfter(es[..i + 1], translations, title)
         == if TranslatesTitle(es[i], translations) then translations[es[i].key]
            else TitleAfter(es[..i], translations, title)
  {
    assert es[..i + 1][..i] == es[..i];
  }

  // ---------------------------------------------------------------------
  // The page state
  // ---------------------------------------------------------------------

  class I18n {
    var currentLang: string
    /** The `preferred-language` entry of local storage. */
    var preferredLanguage: Option<string>
    var translations: map<string, string>
    var documentTitle: string
    /** `document.documentElement.lang` and `.dir`, and the language button's text. */
    var documentLang: string
    var documentDir: string
    var langDisplay: string

    predicate Valid()
      reads this
    {
      Supported(currentLang)
    }

    /** `init`: the start language and its direction; the translations are
        passed in, as the fetch that loads them is not modelled. */
    constructor (saved: Option<string>, navigatorLanguage: string, translations: map<string, string>,
                 documentTitle: string)
      ensures Valid()
      ensures currentLang == ResolveLanguage(saved, navigatorLanguage)
      ensures preferredLanguage == saved && this.translations == translations
      ensures documentDir == Direction(currentLang)
      ensures this.documentTitle == documentTitle
    {
      var lang := ResolveLanguage(saved, navigatorLanguage);
      currentLang := lang;
      preferredLanguage := saved;
      this.translations := translations;
      this.documentTitle := documentTitle;
      documentLang := "";
      langDisplay := "";
      documentDir := Direction(lang);
    }

    /** `updateDocumentDirection` */
    method UpdateDocumentDirection()
      modifies this`documentDir
      ensures documentDir == "rtl" <==> currentLang in RightToLeft
      ensures documentDir == Direction(currentLang)
    {
      if LanguageOf(currentLang).Some? && LanguageOf(currentLang).value.rtl {
        documentDir := "rtl";
      } else {
        documentDir := "ltr";
      }
    }

    /** `applyTranslations` over the page's `data-i18n` elements. */
    method ApplyTranslations(elements: array<Element>)
      modifies elements, this`documentTitle, this`documentLang, this`langDisplay
      ensures forall i :: 0 <= i < elements.Length ==>
        elements[i] == Translated(old(elements[i]), translations)
      ensures forall i :: 0 <= i < elements.Length && !HasTranslation(translations, old(elements[i]).key) ==>
        elements[i] == old(elements[i])
      ensures documentTitle == TitleAfter(old(elements[..]), translations, old(documentTitle))
      ensures langDisplay == DisplayCode(currentLang)
      ensures documentLang == DocumentLang(currentLang)
    {
      ghost var before := elements[..];
      for i := 0 to elements.Length
        invariant forall j :: 0 <= j < i ==> elements[j] == Translated(before[j], translations)
        invariant forall j :: i <= j < elements.Length ==> elements[j] == before[j]
        invariant documentTitle == TitleAfter(before[..i], translations, old(documentTitle))
      {
        TitleAfterStep(before, i, translations, old(documentTitle));
        TranslateElement(elements, i);
      }
      assert before[..elements.Length] == before;
      langDisplay := ToUpper(BeforeFirst(currentLang, '_'));
      documentLang := ReplaceFirst(currentLang, '_', '-');
    }

    /** The loop body of `applyTranslations` for one element. */
    method TranslateElement(elements: array<Element>, i: nat)
      requires i < elements.Length
      modifies elements, this`documentTitle
      ensures elements[i] == Translated(old(elements[i]), translations)
      ensures forall j :: 0 <= j < elements.Length && j != i ==> elements[j] == old(elements[j])
      ensures documentTitle == if TranslatesTitle(old(elements[i]), translations)
                               then translations[old(elements[i]).key] else old(documentTitle)
    {
      var e := elements[i];
      if HasTranslation(translations, e.key) {
        var translation := translations[e.key];
        if e.attr.Some? && e.attr.value != "" {
          elements[i] := e.(attributes := e.attributes[e.attr.value := translation]);
        } else if e.tagName == "TITLE" {
          documentTitle := translation;
        } else {
          elements[i] := e.(text := translation);
        }
      }
    }

    /** `changeLanguage(lang)`: an unsupported code changes nothing; a
        supported one becomes current and saved, with its direction. */
    method ChangeLanguage(lang: string)
      requires Valid()
      modifies this`currentLang, this`preferredLanguage, this`documentDir
      ensures Valid()
      ensures !Supported(lang) ==>
        currentLang == old(currentLang) && preferredLanguage == old(preferredLanguage)
        && documentDir == old(documentDir)
      ensures Supported(lang) ==>
        currentLang == lang && preferredLanguage == Some(lang) && documentDir == Direction(lang)
    {
      if !Supported(lang) {
        return;
      }
      currentLang := lang;
      preferredLanguage := Some(lang);
      UpdateDocumentDirection();
    }
  }
}
