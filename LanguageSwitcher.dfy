/**
  The locale selector (src/components/LanguageSwitcher.tsx): a closed select
  of the two locales; choosing one pushes the current pathname with its first
  occurrence of "/" + locale replaced by "/" + the chosen locale.
*/
module LanguageSwitcher {
  import opened Wrappers
  import I18nRequest

  /** The option values of the select, in order. */
  const Options: seq<string> := ["en-GB", "de-DE"]

  /** `pat` occurs in `s` at position `i`. */
  ghost predicate OccursAt(s: string, pat: string, i: nat)
  {
    i + |pat| <= |s| && s[i..i + |pat|] == pat
  }

  /** The first position at or after `from` where `pat` occurs in `s` (`String.prototype.indexOf`). */
  function IndexOfFrom(s: string, pat: string, from: nat): (r: Option<nat>)
    requires from <= |s|
    ensures r.Some? ==> from <= r.value && OccursAt(s, pat, r.value)
    ensures r.Some? ==> forall j :: from <= j < r.value ==> !OccursAt(s, pat, j)
    ensures r.None? ==> forall j :: from <= j <= |s| ==> !OccursAt(s, pat, j)
    decreases |s| - from
  {
    if from + |pat| > |s| then None
    else if s[from..from + |pat|] == pat then Some(from)
    else if from == |s| then None
    else IndexOfFrom(s, pat, from + 1)
  }

  function IndexOf(s: string, pat: string): Option<nat>
  {
    IndexOfFrom(s, pat, 0)
  }

  /**
    `s.replace(pat, rep)` with a string pattern: only the first occurrence is
    replaced, and a string without one comes back unchanged.
  */
  function ReplaceFirst(s: string, pat: string, rep: string): (r: string)
    ensures (forall j :: 0 <= j <= |s| ==> !OccursAt(s, pat, j)) ==> r == s
    ensures forall i :: 0 <= i && OccursAt(s, pat, i) && (forall j :: 0 <= j < i ==> !OccursAt(s, pat, j)) ==>
              r == s[..i] + rep + s[i + |pat|..]
    ensures (exists i :: 0 <= i && OccursAt(s, pat, i)) ==> exists i :: 0 <= i && OccursAt(r, rep, i)
    ensures rep == pat ==> r == s
  {
    match IndexOf(s, pat)
    case None => s
    case Some(i) =>
      var r := s[..i] + rep + s[i + |pat|..];
      assert OccursAt(r, rep, i) by {
        assert r[i..i + |rep|] == rep;
      }
      assert rep == pat ==> r == s by {
        assert s == s[..i] + s[i..i + |pat|] + s[i + |pat|..];
      }
      r
  }

  /**
    `switchLocale(newLocale)`: the path pushed for the current pathname and
    locale.  A path that mentions "/" + locale mentions "/" + newLocale
    afterwards, and choosing the current locale changes nothing.
  */
  function SwitchPath(pathname: string, locale: string, newLocale: string): (r: string)
    ensures (exists i :: 0 <= i && OccursAt(pathname, "/" + locale, i)) ==> exists i :: 0 <= i && OccursAt(r, "/" + newLocale, i)
    ensures newLocale == locale ==> r == pathname
  {
    ReplaceFirst(pathname, "/" + locale, "/" + newLocale)
  }

  /**
    The new path is the old one with its first "/" + locale replaced: the
    part before it contains no occurrence, and the part after it is kept
    exactly, later occurrences included.
  */
  lemma SwitchReplacesFirstOccurrence(pathname: string, locale: string, newLocale: string, i: nat)
    requires OccursAt(pathname, "/" + locale, i)
    requires forall j :: 0 <= j < i ==> !OccursAt(pathname, "/" + locale, j)
    ensures SwitchPath(pathname, locale, newLocale) ==
              pathname[..i] + "/" + newLocale + pathname[i + |locale| + 1..]
  {
  }

  /** A pathname without "/" + locale is pushed unchanged. */
  lemma SwitchWithoutOccurrence(pathname: string, locale: string, newLocale: string)
    requires forall j :: 0 <= j <= |pathname| ==> !OccursAt(pathname, "/" + locale, j)
    ensures SwitchPath(pathname, locale, newLocale) == pathname
  {
  }

  /** A pathname starting with "/" + locale becomes "/" + newLocale followed by the rest unchanged. */
  lemma SwitchLocalePrefix(pathname: string, locale: string, newLocale: string, rest: string)
    requires pathname == "/" + locale + rest
    ensures SwitchPath(pathname, locale, newLocale) == "/" + newLocale + rest
  {
  }

  /** "/en-GB" becomes "/de-DE". */
  lemma SwitchHomeToGerman()
    ensures SwitchPath("/en-GB", "en-GB", "de-DE") == "/de-DE"
  {
    SwitchLocalePrefix("/en-GB", "en-GB", "de-DE", "");
  }

  /**
    Matching is by substring, not by path segment: a first segment that only
    starts with the locale ("/en-GBx/...") has that part rewritten too.
  */
  lemma SubstringNotSegment(locale: string, newLocale: string, c: char, rest: string)
    requires c != '/'
    ensures SwitchPath("/" + locale + [c] + rest, locale, newLocale) == "/" + newLocale + [c] + rest
  {
  }

  /** The offered options are exactly the supported locales of the request config. */
  lemma OptionsAreSupportedLocales()
    ensures Options == I18nRequest.Locales
    ensures I18nRequest.DefaultLocale in Options
  {
  }

  /** The mounted selector: the current locale and pathname, and the paths pushed so far. */
  class LocaleSelector {
    const locale: string
    const pathname: string
    var pushed: seq<string>

    constructor (locale: string, pathname: string)
      ensures this.locale == locale && this.pathname == pathname && pushed == []
    {
      this.locale := locale;
      this.pathname := pathname;
      pushed := [];
    }

    /** The select's `value`: the option shown is the current locale. */
    function Value(): string
      reads this
    {
      locale
    }

    /**
      An `onChange` of the select: exactly one navigation, to the switched
      path.  A select only fires it for an option other than the one shown.
    */
    method Change(newLocale: string)
      requires newLocale in Options && newLocale != locale
      modifies this
      ensures pushed == old(pushed) + [SwitchPath(pathname, locale, newLocale)]
    {
      pushed := pushed + [SwitchPath(pathname, locale, newLocale)];
    }
  }
}
