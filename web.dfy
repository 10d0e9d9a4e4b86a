/** The scrapers' view of the web. A fetched page is reduced to what the
    scrapers read from it: its hyperlinks (`find_all("a", href=True)`) in
    document order, its visible text (`get_text(" ", strip=True)`), its first
    `<h1>` and the texts of its `<li>`/`<div>` elements. The network is an
    oracle: `get` says what a GET of a URL answers, `resolve` stands for
    `urljoin` and `netloc` for `urlparse(url).netloc` (None when it raises). */
module Web {
  import opened Text

  /** One hyperlink: `get_text(strip=True)`, `get_text(" ", strip=True)` and
      the raw `href` attribute. */
  datatype Anchor = Anchor(text: string, spacedText: string, href: string)

  datatype Document = Document(
    anchors: seq<Anchor>,
    text: string,
    h1: Option<string>,
    blocks: seq<string>)

  /** What `requests.get` produces: a response with a status code, or an
      exception (connection error, timeout, ...). */
  datatype Response = Response(status: int, body: Document) | Raised

  datatype Web = Web(
    get: string -> Response,
    resolve: (string, string) -> string,
    netloc: string -> Option<string>)

  /** Which statuses count as a page: `status_code < 400` in every `fetch`,
      `status_code == 200` in the `fetch_page` of scraper.py. */
  datatype SuccessRule = Below400 | Exactly200

  predicate Succeeds(rule: SuccessRule, status: int) {
    match rule
    case Below400 => status < 400
    case Exactly200 => status == 200
  }

  /** `fetch(url)` / `fetch_page(url)`: the parsed page, or None for every
      failure alike. */
  function Fetch(web: Web, rule: SuccessRule, url: string): Option<Document> {
    match web.get(url)
    case Raised => None
    case Response(status, body) => if Succeeds(rule, status) then Some(body) else None
  }

  /** `fetch_page` accepts a subset of what `fetch` accepts: exactly the
      status 200; a 2xx other than 200 or a 3xx is a page for `fetch` only. */
  lemma FetchPageIsStricter(web: Web, url: string)
    ensures Fetch(web, Exactly200, url).Some? ==> Fetch(web, Below400, url) == Fetch(web, Exactly200, url)
    ensures Fetch(web, Exactly200, url).Some? <==> web.get(url).Response? && web.get(url).status == 200
    ensures Fetch(web, Below400, url).Some? && Fetch(web, Exactly200, url).None? <==>
              web.get(url).Response? && web.get(url).status < 400 && web.get(url).status != 200
    ensures web.get(url).Raised? ==> Fetch(web, Below400, url).None? && Fetch(web, Exactly200, url).None?
  {
  }
}
