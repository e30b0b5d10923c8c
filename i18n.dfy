/**
 * The locale set-up of the frontend (frontend/src/plugins/i18n.ts, and the
 * same detection in frontend/src/main.ts): the browser language reduced to
 * its primary subtag, kept when it is one of the two supported locales,
 * English otherwise; French messages from the catalogue, English ones
 * derived from them.
 */
module I18n {
  import opened Strings

  /** The locales the application ships. */
  const AvailableLocales: seq<string> := ["en", "fr"]

  /** `navigator.language.split('-')[0]`. */
  function PrimarySubtag(language: string): string {
    Split(language, '-')[0]
  }

  /** `detectBrowserLanguage()`, given `navigator.language`. */
  function DetectBrowserLanguage(language: string): (r: string)
    ensures r == "en" || r == "fr"
    ensures r == "fr" <==> PrimarySubtag(language) == "fr"
  {
    var normalized := PrimarySubtag(language);
    if normalized in AvailableLocales then normalized else "en"
  }

  /** Only the subtag before the first "-" counts: a region or script after it changes nothing. */
  lemma {:induction false} DetectIgnoresRegion(primary: string, rest: string)
    requires '-' !in primary
    ensures DetectBrowserLanguage(primary + "-" + rest) == DetectBrowserLanguage(primary)
  {
    var tail := "-" + rest;
    assert primary + "-" + rest == primary + tail;
    SplitOfFree(primary, '-', tail);
    SplitOfFree(primary, '-', []);
    assert primary + [] == primary;
  }

  /** The primary subtag is compared as is: an upper-case "FR" falls back to English. */
  lemma DetectIsCaseSensitive()
    ensures DetectBrowserLanguage("FR") == "en"
    ensures DetectBrowserLanguage("fr-FR") == "fr"
  {
    SplitOfFree("FR", '-', []);
    assert "FR" + [] == "FR";
    DetectIgnoresRegion("fr", "FR");
    SplitOfFree("fr", '-', []);
    assert "fr" + [] == "fr";
  }

  /** The options given to `createI18n`. */
  datatype I18nOptions = I18nOptions(
    locale: string,
    fallbackLocale: string,
    en: map<string, string>,
    fr: map<string, string>)

  /** frontend/src/plugins/i18n.ts: every French message key is its own English text. */
  function PluginOptions(language: string, frMessages: map<string, string>): (r: I18nOptions)
    ensures r.locale == DetectBrowserLanguage(language) && r.fallbackLocale == "en"
    ensures r.en.Keys == frMessages.Keys
    ensures forall key :: key in r.en ==> r.en[key] == key
    ensures r.fr == frMessages
  {
    I18nOptions(DetectBrowserLanguage(language), "en", map key | key in frMessages :: key, frMessages)
  }

  /** frontend/src/main.ts: the same locale, with no English messages at all. */
  function MainOptions(language: string, frMessages: map<string, string>): (r: I18nOptions)
    ensures r.locale == DetectBrowserLanguage(language) && r.fallbackLocale == "en"
    ensures r.en == map[] && r.fr == frMessages
  {
    I18nOptions(DetectBrowserLanguage(language), "en", map[], frMessages)
  }
}
