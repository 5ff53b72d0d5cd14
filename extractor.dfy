/**
 * The page extractor of `_scrapePageData`: what it computes from the rendered page
 * once the browser has loaded it and the selector queries have run.
 */
module PageExtractor {
  import opened Wrappers
  import opened Json
  import opened JsText
  import opened Url

  /** An `<img>` element: its `src` and `alt` attributes (None when absent). */
  datatype Image = Image(src: Option<string>, alt: Option<string>)

  datatype SocialTags = SocialTags(
    ogTitle: Option<string>,
    ogDescription: Option<string>,
    ogImage: Option<string>,
    ogUrl: Option<string>,
    twitterCard: Option<string>,
    twitterTitle: Option<string>,
    twitterDescription: Option<string>,
    twitterImage: Option<string>)

  /** What loading a page in the browser and querying its DOM gives: the navigation
      response's status (None when `page.goto` yields no response), the measured load
      time, and the raw texts and attributes the selectors return. */
  datatype Rendered = Rendered(
    responseStatus: Option<int>,
    loadTimeMs: int,
    titleText: string,
    metaDescription: Option<string>,
    canonical: Option<string>,
    h1Texts: seq<string>,
    h2Texts: seq<string>,
    h3Texts: seq<string>,
    bodyText: string,
    images: seq<Image>,
    hrefs: seq<string>,
    robots: Option<string>,
    viewport: Option<string>,
    lang: Option<string>,
    favicon: Option<string>,
    social: SocialTags,
    jsonLdBlocks: seq<string>)

  datatype SeoTags = SeoTags(
    title: string,
    titleLength: nat,
    metaDescription: string,
    descriptionLength: nat,
    canonical: string,
    robots: string,
    viewport: Option<string>,
    lang: Option<string>,
    favicon: Option<string>)

  datatype Headings = Headings(h1: seq<string>, h2: seq<string>, h3: seq<string>)

  datatype Content = Content(wordCount: nat, textSample: string)

  datatype Media = Media(totalImages: nat, imagesWithoutAlt: nat, allImages: seq<Image>)

  datatype LinkStats = LinkStats(totalLinks: nat, internalLinks: nat, externalLinks: nat, allLinks: seq<string>)

  /** The record the crawler returns for one page. */
  datatype PageData = PageData(
    url: string,
    statusCode: int,
    loadTimeMs: int,
    seo: SeoTags,
    social: SocialTags,
    schema: seq<Json>,
    structure: Headings,
    content: Content,
    media: Media,
    links: LinkStats)

  /** The value `_scrapePageData` resolves to: `{data, rawLinks}`; `data` is None
      when the scrape failed. */
  datatype Scrape = Scrape(data: Option<PageData>, rawLinks: seq<string>)

  const TextSampleLength := 1000
  const DefaultRobots := "index, follow"

  /** JavaScript truthiness of a string that may be absent. */
  predicate Truthy(a: Option<string>) {
    a.Some? && a.value != ""
  }

  /** `attr || null` */
  function OrNull(a: Option<string>): (r: Option<string>)
    ensures r.Some? <==> Truthy(a)
    ensures r.Some? ==> r == a
  {
    if Truthy(a) then a else None
  }

  /** `attr || fallback` */
  function OrElse(a: Option<string>, fallback: string): (r: string)
    ensures Truthy(a) ==> r == a.value
    ensures !Truthy(a) ==> r == fallback
  {
    if Truthy(a) then a.value else fallback
  }

  function SocialRecord(t: SocialTags): SocialTags {
    SocialTags(OrNull(t.ogTitle), OrNull(t.ogDescription), OrNull(t.ogImage), OrNull(t.ogUrl),
               OrNull(t.twitterCard), OrNull(t.twitterTitle), OrNull(t.twitterDescription), OrNull(t.twitterImage))
  }

  function TrimAll(texts: seq<string>): (r: seq<string>)
    ensures |r| == |texts|
    ensures forall i :: 0 <= i < |r| ==> r[i] == Trim(texts[i])
  {
    if texts == [] then [] else [Trim(texts[0])] + TrimAll(texts[1..])
  }

  /** `{src, alt: alt || null}` for each `<img>`. */
  function ImageRecords(tags: seq<Image>): (r: seq<Image>)
    ensures |r| == |tags|
    ensures forall i :: 0 <= i < |tags| ==> r[i] == Image(tags[i].src, OrNull(tags[i].alt))
  {
    if tags == [] then [] else [Image(tags[0].src, OrNull(tags[0].alt))] + ImageRecords(tags[1..])
  }

  /** `images.filter((img) => !img.alt).length` */
  function CountWithoutAlt(images: seq<Image>): nat {
    if images == [] then 0 else (if Truthy(images[0].alt) then 0 else 1) + CountWithoutAlt(images[1..])
  }

  /** The number of `<img>` elements whose `alt` attribute is absent or empty. */
  function CountRawAltMissing(tags: seq<Image>): nat {
    if tags == [] then 0 else (if tags[0].alt.None? || tags[0].alt == Some("") then 1 else 0) + CountRawAltMissing(tags[1..])
  }

  /** An image counts as missing alt text exactly when its `alt` attribute is absent
      or empty (`"" || null` is null), and never more images than there are. */
  lemma {:induction false} ImagesWithoutAltCount(tags: seq<Image>)
    ensures CountWithoutAlt(ImageRecords(tags)) == CountRawAltMissing(tags)
    ensures CountWithoutAlt(ImageRecords(tags)) <= |ImageRecords(tags)|
  {
    if tags != [] {
      ImagesWithoutAltCount(tags[1..]);
      assert ImageRecords(tags)[1..] == ImageRecords(tags[1..]);
    }
  }

  /** `l.startsWith("/") || l.includes(hostname)` */
  predicate IsInternal(link: string, hostname: string) {
    StartsWith(link, "/") || Contains(link, hostname)
  }

  /** `l.startsWith("http") && !l.includes(hostname)` */
  predicate IsExternal(link: string, hostname: string) {
    StartsWith(link, "http") && !Contains(link, hostname)
  }

  function CountInternal(links: seq<string>, hostname: string): nat {
    if links == [] then 0 else (if IsInternal(links[0], hostname) then 1 else 0) + CountInternal(links[1..], hostname)
  }

  function CountExternal(links: seq<string>, hostname: string): nat {
    if links == [] then 0 else (if IsExternal(links[0], hostname) then 1 else 0) + CountExternal(links[1..], hostname)
  }

  /** No link is both internal and external, so the two counts together never
      exceed the number of links; links of other shapes are in neither. */
  lemma {:induction false} LinkClassesDisjoint(links: seq<string>, hostname: string)
    ensures forall l :: !(IsInternal(l, hostname) && IsExternal(l, hostname))
    ensures CountInternal(links, hostname) + CountExternal(links, hostname) <= |links|
  {
    forall l ensures !(IsInternal(l, hostname) && IsExternal(l, hostname)) {
      assert StartsWith(l, "http") ==> l[0] == 'h';
    }
    if links != [] {
      LinkClassesDisjoint(links[1..], hostname);
    }
  }

  /** When every link starts with "/", every link is internal and none is external,
      whatever the hostname. */
  lemma {:induction false} RootLinksCount(links: seq<string>, hostname: string)
    requires forall l :: l in links ==> StartsWith(l, "/")
    ensures CountInternal(links, hostname) == |links|
    ensures CountExternal(links, hostname) == 0
  {
    if links != [] {
      assert links[0] in links;
      assert forall l :: l in links[1..] ==> l in links;
      assert links[0][0] == '/';
      RootLinksCount(links[1..], hostname);
    }
  }

  /** The JSON-LD blocks that `JSON.parse` accepts, in page order; the others are dropped. */
  function ParsedBlocks(blocks: seq<string>, parseJson: string -> Option<Json>): seq<Json> {
    if blocks == [] then []
    else
      var last := blocks[|blocks| - 1];
      ParsedBlocks(blocks[..|blocks| - 1], parseJson) + (match parseJson(last) case Some(v) => [v] case None => [])
  }

  function CountParsable(blocks: seq<string>, parseJson: string -> Option<Json>): nat {
    if blocks == [] then 0 else (if parseJson(blocks[0]).Some? then 1 else 0) + CountParsable(blocks[1..], parseJson)
  }

  lemma {:induction false} CountParsableSnoc(blocks: seq<string>, b: string, parseJson: string -> Option<Json>)
    ensures CountParsable(blocks + [b], parseJson) == CountParsable(blocks, parseJson) + (if parseJson(b).Some? then 1 else 0)
  {
    if blocks != [] {
      assert (blocks + [b])[1..] == blocks[1..] + [b];
      CountParsableSnoc(blocks[1..], b, parseJson);
    } else {
      assert [b][1..] == [];
    }
  }

  /** One schema entry per block that parses, each the parse of some block. */
  lemma {:induction false} ParsedBlocksFacts(blocks: seq<string>, parseJson: string -> Option<Json>)
    ensures |ParsedBlocks(blocks, parseJson)| == CountParsable(blocks, parseJson)
    ensures forall v :: v in ParsedBlocks(blocks, parseJson) ==> exists b :: b in blocks && parseJson(b) == Some(v)
  {
    if blocks != [] {
      var init := blocks[..|blocks| - 1];
      var last := blocks[|blocks| - 1];
      ParsedBlocksFacts(init, parseJson);
      assert blocks == init + [last];
      CountParsableSnoc(init, last, parseJson);
      forall v | v in ParsedBlocks(blocks, parseJson) ensures exists b :: b in blocks && parseJson(b) == Some(v) {
        if v in ParsedBlocks(init, parseJson) {
          var b :| b in init && parseJson(b) == Some(v);
          assert b in blocks;
        } else {
          assert parseJson(last) == Some(v);
        }
      }
    }
  }

  /** The JSON-LD loop of `_scrapePageData`: try to parse each block, push what parses. */
  method CollectJsonLd(blocks: seq<string>, parseJson: string -> Option<Json>) returns (jsonLd: seq<Json>)
    ensures jsonLd == ParsedBlocks(blocks, parseJson)
  {
    jsonLd := [];
    for i := 0 to |blocks|
      invariant jsonLd == ParsedBlocks(blocks[..i], parseJson)
    {
      assert blocks[..i + 1][..i] == blocks[..i];
      match parseJson(blocks[i]) {
        case Some(data) => jsonLd := jsonLd + [data];
        case None =>
      }
    }
    assert blocks[..|blocks|] == blocks;
  }

  /** `bodyText.slice(0, 1000)` */
  function TextSample(text: string): (r: string)
    ensures |r| <= TextSampleLength
    ensures r <= text
    ensures |text| <= TextSampleLength ==> r == text
    ensures |text| > TextSampleLength ==> r == text[..TextSampleLength]
  {
    if |text| <= TextSampleLength then text else text[..TextSampleLength]
  }

  /** `$("body").text().replace(/\s+/g, " ").trim().split(" ").length`: the number of
      words of the body text, and 1 for a body without words (`"".split(" ")` is `[""]`). */
  function WordCount(bodyText: string): (n: nat)
    ensures n >= 1
    ensures n == if Words(bodyText) == [] then 1 else |Words(bodyText)|
  {
    NormalizedSplitIsWords(bodyText);
    |SplitOnSpace(NormalizeSpaces(bodyText))|
  }

  /** The pieces counted are the words of the body text, in order, whenever it has a
      word; the count is one more than the number of separators in the normalised
      text; and an empty normalised text counts as one word. */
  lemma WordCountFacts(bodyText: string)
    ensures var text := NormalizeSpaces(bodyText);
      && (Words(bodyText) != [] ==> SplitOnSpace(text) == Words(bodyText))
      && WordCount(bodyText) == CountSpaces(text) + 1
      && (text != [] ==> forall w :: w in SplitOnSpace(text) ==> w != "" && ' ' !in w)
      && (text == [] ==> WordCount(bodyText) == 1)
  {
    var text := NormalizeSpaces(bodyText);
    NormalizedSplitIsWords(bodyText);
    SplitOnSpaceFacts(text);
    NormalizeSpacesIsNormalized(bodyText);
    if text != [] {
      SplitNormalizedIntoWords(text);
    }
  }

  /** The `data` record of `_scrapePageData`, given the page's hostname and its parsed JSON-LD. */
  function BuildPageData(url: string, page: Rendered, hostname: string, jsonLd: seq<Json>): PageData {
    var title := Trim(page.titleText);
    var metaDescription := OrElse(page.metaDescription, "");
    var bodyText := NormalizeSpaces(page.bodyText);
    var images := ImageRecords(page.images);
    PageData(
      url,
      page.responseStatus.GetOr(0),
      page.loadTimeMs,
      SeoTags(title, |title|, metaDescription, |metaDescription|, OrElse(page.canonical, ""),
              OrElse(page.robots, DefaultRobots), OrNull(page.viewport), OrNull(page.lang), OrNull(page.favicon)),
      SocialRecord(page.social),
      jsonLd,
      Headings(TrimAll(page.h1Texts), TrimAll(page.h2Texts), TrimAll(page.h3Texts)),
      Content(|SplitOnSpace(bodyText)|, TextSample(bodyText)),
      Media(|images|, CountWithoutAlt(images), images),
      LinkStats(|page.hrefs|, CountInternal(page.hrefs, hostname), CountExternal(page.hrefs, hostname), page.hrefs))
  }

  /** Some link does not start with "/". */
  predicate HasNonRootLink(links: seq<string>) {
    exists l :: l in links && !StartsWith(l, "/")
  }

  /** `new URL(url).hostname` */
  function Hostname(url: string, resolve: Resolver): Option<string> {
    match resolve(url, None)
    case Some(u) => Some(u.host)
    case None => None
  }

  /** `_scrapePageData(page, url)` once the browser step has produced `fetched`
      (None: navigation failed). `new URL(url)` is evaluated inside the link filters,
      and only for a link that does not start with "/" (the internal filter tests
      `startsWith("/")` first, and the external filter reaches it only for links
      starting with "http", which the internal filter has already tried). So an
      unparsable `url` fails the scrape only when some link does not start with "/";
      otherwise every link counts as internal and none as external. */
  function ScrapePageData(url: string, fetched: Option<Rendered>, resolve: Resolver, parseJson: string -> Option<Json>): Scrape {
    match fetched
    case None => Scrape(None, [])
    case Some(page) =>
      var hostname := Hostname(url, resolve);
      if hostname.None? && HasNonRootLink(page.hrefs) then Scrape(None, [])
      else Scrape(Some(BuildPageData(url, page, hostname.GetOr(""), ParsedBlocks(page.jsonLdBlocks, parseJson))), page.hrefs)
  }

  /** `_scrapePageData` after the browser step: the JSON-LD loop, then the record. */
  method ScrapePage(url: string, fetched: Option<Rendered>, resolve: Resolver, parseJson: string -> Option<Json>) returns (out: Scrape)
    ensures out == ScrapePageData(url, fetched, resolve, parseJson)
  {
    match fetched {
      case None =>
        out := Scrape(None, []);
      case Some(page) =>
        var hostname := Hostname(url, resolve);
        if hostname.None? && HasNonRootLink(page.hrefs) {
          out := Scrape(None, []);
        } else {
          var jsonLd := CollectJsonLd(page.jsonLdBlocks, parseJson);
          out := Scrape(Some(BuildPageData(url, page, hostname.GetOr(""), jsonLd)), page.hrefs);
        }
    }
  }

  /** The invariants of a page record: lengths match
      their strings, counts match their lists, no more images without alt than
      images, no more classified links than links, a sample of at most 1000 characters. */
  ghost predicate IsConsistent(p: PageData) {
    && p.seo.titleLength == |p.seo.title|
    && p.seo.descriptionLength == |p.seo.metaDescription|
    && p.media.totalImages == |p.media.allImages|
    && p.media.imagesWithoutAlt <= p.media.totalImages
    && p.links.totalLinks == |p.links.allLinks|
    && p.links.internalLinks + p.links.externalLinks <= p.links.totalLinks
    && |p.content.textSample| <= TextSampleLength
    && p.content.wordCount >= 1
    && (p.seo.title == [] || (!IsJsSpace(p.seo.title[0]) && !IsJsSpace(p.seo.title[|p.seo.title| - 1])))
    && (p.seo.viewport.Some? ==> p.seo.viewport.value != "")
  }

  /** What a scrape yields: no data and no links when navigation failed or when an
      unparsable URL meets a page with a link that does not start with "/"; otherwise a
      consistent record for this URL, carrying the response status (0 without a
      response), and the page's raw hrefs. With an unparsable URL every link of a
      successful scrape starts with "/" and counts as internal. */
  lemma ScrapeOutcome(url: string, fetched: Option<Rendered>, resolve: Resolver, parseJson: string -> Option<Json>)
    ensures var s := ScrapePageData(url, fetched, resolve, parseJson);
      && (s.data.None? <==>
            (fetched.None? || (resolve(url, None).None? && exists l :: l in fetched.value.hrefs && !StartsWith(l, "/"))))
      && (s.data.None? ==> s.rawLinks == [])
      && (s.data.Some? ==>
            && s.rawLinks == fetched.value.hrefs
            && s.data.value.url == url
            && s.data.value.statusCode == (if fetched.value.responseStatus.Some? then fetched.value.responseStatus.value else 0)
            && s.data.value.links.allLinks == s.rawLinks
            && IsConsistent(s.data.value)
            && (resolve(url, None).None? ==>
                  s.data.value.links.internalLinks == |s.rawLinks| && s.data.value.links.externalLinks == 0))
  {
    var s := ScrapePageData(url, fetched, resolve, parseJson);
    if s.data.Some? {
      var page := fetched.value;
      ImagesWithoutAltCount(page.images);
      LinkClassesDisjoint(page.hrefs, Hostname(url, resolve).GetOr(""));
      if resolve(url, None).None? {
        RootLinksCount(page.hrefs, "");
      }
    }
  }
}
