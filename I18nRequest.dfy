/**
  The locale configuration of each request (src/i18n/request.ts): the
  supported locales, the default, and the `locale || defaultLocale` fallback
  that also names the messages file to load.
*/
module I18nRequest {
  import opened Wrappers

  const Locales: seq<string> := ["en-GB", "de-DE"]

  const DefaultLocale: string := "en-GB"

  /** `locale || defaultLocale`: `undefined` and "" are falsy; any other string is kept as it is. */
  function ResolveLocale(locale: Option<string>): (r: string)
    ensures locale.Some? && locale.value != "" ==> r == locale.value
    ensures locale.None? || locale.value == "" ==> r == DefaultLocale
  {
    match locale
    case Some(l) => if l != "" then l else DefaultLocale
    case None => DefaultLocale
  }

  /** What the request config yields: the locale and the messages module it imports. */
  datatype RequestConfig = RequestConfig(locale: string, messagesFile: string)

  /**
    The module `import()` loads for a locale: a JSON file in the messages
    directory whose name is the locale, recoverable from the path.
  */
  function MessagesFile(locale: string): (path: string)
    ensures |path| == |locale| + 17
    ensures path[..12] == "../messages/" && path[|path| - 5..] == ".json"
    ensures path[12..|path| - 5] == locale
  {
    "../messages/" + locale + ".json"
  }

  function GetRequestConfig(locale: Option<string>): (c: RequestConfig)
    ensures c.locale == ResolveLocale(locale)
    ensures c.messagesFile == MessagesFile(c.locale)
  {
    var resolved := ResolveLocale(locale);
    RequestConfig(resolved, MessagesFile(resolved))
  }

  /** The default is one of the supported locales, and the supported list has exactly two entries. */
  lemma DefaultIsSupported()
    ensures DefaultLocale in Locales
    ensures |Locales| == 2 && Locales[0] == "en-GB" && Locales[1] == "de-DE"
  {
  }

  /** Resolution never leaves the supported list when given a supported locale or nothing. */
  lemma ResolvesIntoLocales(locale: Option<string>)
    requires locale.None? || locale.value == "" || locale.value in Locales
    ensures ResolveLocale(locale) in Locales
  {
  }

  /** Resolution does no membership check: a non-empty unsupported locale passes through. */
  lemma UnsupportedPassesThrough(l: string)
    requires l != "" && l !in Locales
    ensures GetRequestConfig(Some(l)) == RequestConfig(l, MessagesFile(l))
  {
  }

  /** Two requests that resolve to the same locale load the same messages file, and only then. */
  lemma MessagesFollowLocale(a: Option<string>, b: Option<string>)
    ensures GetRequestConfig(a).messagesFile == GetRequestConfig(b).messagesFile <==>
              GetRequestConfig(a).locale == GetRequestConfig(b).locale
  {
  }
}
