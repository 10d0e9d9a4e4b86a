/** `clean_url`, in its two forms, and the LinkedIn company page derived from
    a website. */
module Urls {
  import opened Text

  /** A spreadsheet cell: a string, or anything else (NaN, a number, None). */
  datatype Cell = Str(s: string) | NotStr

  /** `clean_url` of Scraper8.py, 3rd_part_Job.py, Scraper7.py,
      120_Comp_scraper7.py and scraper6.py: a value that already starts with
      "http" is returned as it is; only the other branch strips it. */
  function CleanUrlAsGiven(v: Cell): (r: Option<string>)
    ensures v.NotStr? ==> r.None?
    ensures r.Some? ==> StartsWith(r.value, "http")
  {
    match v
    case NotStr => None
    case Str(s) =>
      if Strip(s) == [] then None
      else if StartsWith(s, "http") then Some(s)
      else Some("https://" + Strip(s))
  }

  /** A cell yields no URL exactly when it is not a string or is blank; a
      value already starting with "http" is kept verbatim, any other one is
      stripped and gets "https://" in front. */
  lemma CleanUrlAsGivenFacts(v: Cell)
    ensures CleanUrlAsGiven(v).None? <==> v.NotStr? || Strip(v.s) == []
    ensures CleanUrlAsGiven(v).Some? && StartsWith(v.s, "http") ==> CleanUrlAsGiven(v).value == v.s
    ensures CleanUrlAsGiven(v).Some? && !StartsWith(v.s, "http") ==> CleanUrlAsGiven(v).value == "https://" + Strip(v.s)
  {
  }

  /** `clean_url` of scraper5.py, scraper2.py, scraper4.py and scraper3.py:
      the value is stripped first, then "https://" is added when it does not
      start with "http". */
  function CleanUrlStripped(v: Cell): (r: Option<string>)
    ensures r.None? <==> v.NotStr? || Strip(v.s) == []
    ensures r.Some? ==> StartsWith(r.value, "http") && Strip(r.value) == r.value
    ensures r.Some? ==> r.value == Strip(v.s) || r.value == "https://" + Strip(v.s)
  {
    match v
    case NotStr => None
    case Str(s) =>
      var t := Strip(s);
      if t == [] then None
      else
        WithSchemeStripped(t);
        Some(WithScheme(t))
  }

  /** The information separators U+001C..U+001F are whitespace to
      `strip()`: a cell holding only one is blank. */
  lemma SeparatorIsBlank()
    ensures CleanUrlStripped(Str("\U{001F}")).None?
  {
    assert IsSpace("\U{001F}"[0]);
  }

  /** A separator in front of a host is stripped before the scheme is
      added: `"\x1cacme.com"` cleans to `"https://acme.com"`. */
  lemma SeparatorDropped(c: char, host: string)
    requires '\U{001C}' <= c <= '\U{001F}'
    requires host != [] && !IsSpace(host[0]) && !IsSpace(host[|host| - 1])
    ensures CleanUrlStripped(Str([c] + host)) == Some(WithScheme(host))
  {
    StripLeadingSpace(c, host);
    StripKeeps(host);
    CleanUrlStrippedValue([c] + host);
  }

  /** A cell that is not blank gets the scheme added to its stripped value. */
  lemma CleanUrlStrippedValue(s: string)
    requires Strip(s) != []
    ensures CleanUrlStripped(Str(s)) == Some(WithScheme(Strip(s)))
  {
  }

  /** `u if u.startswith("http") else "https://" + u` */
  function WithScheme(u: string): string {
    if StartsWith(u, "http") then u else "https://" + u
  }

  /** A stripped value keeps being stripped once the scheme is added. */
  lemma WithSchemeStripped(t: string)
    requires t != [] && !IsSpace(t[0]) && !IsSpace(t[|t| - 1])
    ensures StartsWith(WithScheme(t), "http") && Strip(WithScheme(t)) == WithScheme(t)
  {
    var u := WithScheme(t);
    assert u[|u| - 1] == t[|t| - 1];
    StripKeeps(u);
  }

  /** Without leading whitespace, `strip()` keeps an "http" prefix and
      does not create one. */
  lemma StripKeepsHttp(s: string)
    requires s == [] || !IsSpace(s[0])
    ensures StartsWith(Strip(s), "http") <==> StartsWith(s, "http")
  {
    StripTrailing(s);
    if StartsWith(s, "http") {
      assert !IsSpace(s[3]);
      assert Strip(s)[..4] == s[..4];
    }
  }

  /** A string beginning with "http" has something left after `strip()`. */
  lemma HttpSurvivesStrip(s: string)
    requires StartsWith(s, "http")
    ensures Strip(s) != []
  {
    assert !IsSpace(s[0]);
  }

  /** Cleaning a cleaned URL changes nothing (the "as given" form). */
  lemma CleanUrlAsGivenIdempotent(v: Cell)
    requires CleanUrlAsGiven(v).Some?
    ensures CleanUrlAsGiven(Str(CleanUrlAsGiven(v).value)) == CleanUrlAsGiven(v)
  {
    HttpSurvivesStrip(CleanUrlAsGiven(v).value);
  }

  /** Cleaning a cleaned URL changes nothing (the stripped form). */
  lemma CleanUrlStrippedIdempotent(v: Cell)
    requires CleanUrlStripped(v).Some?
    ensures CleanUrlStripped(Str(CleanUrlStripped(v).value)) == CleanUrlStripped(v)
  {
    HttpSurvivesStrip(CleanUrlStripped(v).value);
  }

  /** The two forms agree except on values that start with "http" and carry
      surrounding whitespace: the stripped form is the "as given" form with
      `strip()` applied, whenever the value does not start with whitespace. */
  lemma CleanUrlFormsAgree(v: Cell)
    requires v.Str? && (v.s == [] || !IsSpace(v.s[0]))
    ensures CleanUrlAsGiven(v).Some? <==> CleanUrlStripped(v).Some?
    ensures CleanUrlAsGiven(v).Some? ==> CleanUrlStripped(v) == Some(Strip(CleanUrlAsGiven(v).value))
  {
    var t := Strip(v.s);
    StripKeepsHttp(v.s);
    if t != [] && !StartsWith(t, "http") {
      WithSchemeStripped(t);
    }
  }

  /** In the "as given" form, a leading space in front of a full URL hides
      its scheme: the URL gets a second one. */
  lemma CleanUrlAsGivenLeadingSpace(s: string)
    requires StartsWith(s, "http") && !IsSpace(s[|s| - 1])
    ensures CleanUrlAsGiven(Str([' '] + s)) == Some("https://" + s)
    ensures CleanUrlStripped(Str([' '] + s)) == Some(s)
  {
    StripLeadingSpace(' ', s);
    StripKeeps(s);
    assert !StartsWith([' '] + s, "http");
  }

  /** `urlparse(site).netloc.replace("www.", "").split(".")[0]` */
  function Slug(netloc: string): (r: string)
    ensures '.' !in r
    ensures r <= RemoveAll(netloc, "www.")
    ensures |r| < |RemoveAll(netloc, "www.")| ==> RemoveAll(netloc, "www.")[|r|] == '.'
  {
    BeforeFirst(RemoveAll(netloc, "www."), '.')
  }

  /** `f"https://www.linkedin.com/company/{slug}/jobs/"` */
  function LinkedInJobsUrl(slug: string): (r: string)
    ensures StartsWith(r, "https://www.linkedin.com/company/")
  {
    "https://www.linkedin.com/company/" + slug + "/jobs/"
  }
}
