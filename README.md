# SYRUS crawler and SEO scorer, modelled in Dafny

SYRUS crawls a website from a start URL and scores each fetched page for on-page SEO.
It then aggregates the page results into a site report. This project models that core:

- **URL normalisation** (`getNormalizedUrl`): resolve a link against a base URL, keep
  only http/https URLs on the root hostname, and drop the fragment. Module `Url`.
- **Page extraction**: the part of `_scrapePageData` that runs after the DOM has been
  queried. It covers the title, meta tags, headings, whitespace-normalised body text and
  word count, image alt records, link counts, social tags, JSON-LD blocks and the
  returned `{ data, rawLinks }`. Modules `JsText` (JavaScript's `trim`, `/\s+/g`
  replacement and `split(" ")`) and `PageExtractor`.
- **The crawl loop** (`crawlWebsite`). A class `Crawler.Crawl` holds the FIFO queue,
  the visited set and the results, and its methods change them in place. It is proved
  against a value-level specification: `Step` is one pass of the loop body and
  `Crawled` iterates it until the queue is empty or the budget is reached, so the order
  of visits is the breadth-first order of the FIFO queue. On top of that, the results
  are exactly the successful scrapes in visiting order, and no URL is visited twice.
  The page budget is respected, and the start URL comes first. Every other visited URL
  is a same-site href without a fragment, normalised from a link on a page visited
  before it. When the budget is not exhausted, every same-site link of every fetched
  page has been visited.
- **Page scoring** (`analyzePageSeo`). A method that accumulates section scores and
  improvement texts step by step, proved equal to a function built from ten
  independent checks. Lemmas cover the score range, the alt-ratio formula, which
  improvements appear (an if-and-only-if per issue, each at most once, in check order)
  and worked examples. Module `PageSeo`.
- **Site report** (`analyzeSiteSeo`). Nested loops tally improvement texts in a map
  kept in insertion order, and a stable sort ranks them by descending count. Lemmas
  prove:
  - the ranking is sorted by count and is a permutation of the tally;
  - equal counts keep first-seen order;
  - every distinct text appears once, with its exact number of occurrences;
  - the counts add up to the number of improvements;
  - the average stays in 0..100.
  Module `SiteSeo`.
- **Request validation**: the zod schemas of the crawl request and of the five
  authentication requests. Each is modelled as a parse of a JSON body into a typed
  request or a list of issues in field order. Each schema has an if-and-only-if lemma
  stating exactly which bodies it accepts. Modules `Zod` (the zod behaviour these
  schemas use), `CrawlValidation` and `AuthValidation`.

Functions passed in as parameters stand for everything that is not code of this
repository:
- the WHATWG URL parser (`Resolver`);
- the rendered page as the browser and cheerio return it (`Rendered`; None when
  navigation throws);
- `JSON.parse`;
- zod's `.email()` and `.url()` formats.

Where the code's documented behaviour and the code disagree, the model follows the code:
- **Empty alt text.** `alt: $(el).attr("alt") || null` turns an empty alt into null,
  so an empty alt counts as missing (`PageExtractor.ImagesWithoutAltCount`).
- **No response.** A navigation without a response gets status code 0
  (`response ? response.status() : 0`) instead of failing the page.
- **Empty body.** Its word count is 1, because `"".split(" ")` has one element.
- **Page budget.** `crawlWebsite` defaults `maxPages` to 50 and caps nothing. The
  request schema supplies 10 when the body has no `maxPages`, and it rejects values
  above 50 rather than capping them (`CrawlValidation.ValidatedBudget`).
- **Load time.** A load time from 1000 to 2499 ms earns 3 of 5 points and adds no
  improvement, so a page that passes every check scores 98 rather than 100
  (`PageSeo.NoImprovementsIff`).
- **Dead skip.** The `visited.has(currentUrl)` skip (scrapper.service.js:202) can
  never fire, because the queue never holds a visited URL. The value-level `Step`
  keeps the branch; the class method asserts that it never fires.
- **Unparsable page URL.** `new URL(url)` is evaluated only for links that do not start
  with "/", so a page URL that does not parse fails the scrape only when such a link
  exists.

## Model

| member | source | states |
|---|---|---|
| Url.WithoutFragment | server/modules/scrapper/scrapper.service.js:11 | clearing the hash leaves no fragment and changes nothing else |
| Url.GetNormalizedUrl | server/modules/scrapper/scrapper.service.js:5-19 | a link normalises exactly when it resolves against the base, has an http/https scheme and the root hostname; the result is then the href without fragment |
| Url.NormalizedIsSameSite | server/modules/scrapper/scrapper.service.js:9-15 | every normalised URL is a same-site web href without fragment |
| Url.FragmentIsIgnored | server/modules/scrapper/scrapper.service.js:11 | two links that resolve to URLs differing only in the fragment normalise to the same result |
| JsText.ContainsIff | server/modules/scrapper/scrapper.service.js:75 | `includes` holds exactly when the needle occurs at some position |
| JsText.TrimStart | server/modules/scrapper/scrapper.service.js:38-56 | the result is a suffix, everything removed is whitespace, and it does not start with whitespace |
| JsText.Trim | server/modules/scrapper/scrapper.service.js:38-56 | the result is a slice with only whitespace cut from both ends, and it neither starts nor ends with whitespace |
| JsText.TrimKeepsContent | server/modules/scrapper/scrapper.service.js:38-56 | trimming keeps every non-whitespace character in order |
| JsText.CollapseSpaces | server/modules/scrapper/scrapper.service.js:56 | `replace(/\s+/g, " ")` leaves no whitespace other than single spaces; it is empty exactly when the input is; it starts and ends with a space exactly when the input starts and ends with whitespace, and otherwise with the input's own first and last characters. With `CollapseKeepsWords` this fixes the result: the words in place, one space for each run of whitespace |
| JsText.CollapseKeepsContent | server/modules/scrapper/scrapper.service.js:56 | collapsing keeps every non-whitespace character in order |
| JsText.NormalizeSpacesIsNormalized | server/modules/scrapper/scrapper.service.js:56 | the body text has single spaces only, and none at either end |
| JsText.NormalizeSpacesKeepsContent | server/modules/scrapper/scrapper.service.js:56 | normalising keeps every non-whitespace character in order |
| JsText.SplitOnSpaceFacts | server/modules/scrapper/scrapper.service.js:57 | `split(" ")` has one element more than there are spaces; joining the parts with spaces gives the input back; no part holds a space |
| JsText.SplitNormalizedIntoWords | server/modules/scrapper/scrapper.service.js:56-57 | splitting a non-empty normalised text gives no empty word |
| JsText.Words | server/modules/scrapper/scrapper.service.js:56-57 | the words of a text: each non-empty and free of whitespace; a text starting with a non-whitespace character has at least one |
| JsText.WordsAfterSpaces | server/modules/scrapper/scrapper.service.js:56 | whitespace in front of a text adds no word |
| JsText.WordsBeforeSpaces | server/modules/scrapper/scrapper.service.js:56 | whitespace after a text adds no word |
| JsText.CollapseKeepsWords | server/modules/scrapper/scrapper.service.js:56 | collapsing whitespace runs keeps the words, in order |
| JsText.TrimKeepsWords | server/modules/scrapper/scrapper.service.js:56 | trimming keeps the words, in order |
| JsText.NormalizeKeepsWords | server/modules/scrapper/scrapper.service.js:56 | the normalised body text has the words of the raw body text |
| JsText.CollapsedNonSpace | server/modules/scrapper/scrapper.service.js:56 | in a collapsed text, any character other than the space is not whitespace |
| JsText.SplitCollapsedWords | server/modules/scrapper/scrapper.service.js:56-57 | on a collapsed text without a trailing space, `split(" ")` gives exactly the words, behind one empty piece when the text is empty or starts with a space |
| JsText.NormalizedSplitIsWords | server/modules/scrapper/scrapper.service.js:56-57 | `replace(/\s+/g, " ").trim().split(" ")` is exactly the list of the body's words when it has any, and `[""]` otherwise |
| PageExtractor.OrNull | server/modules/scrapper/scrapper.service.js:84-100 | the attribute-or-null idiom: Some exactly when the attribute is present and non-empty |
| PageExtractor.OrElse | server/modules/scrapper/scrapper.service.js:39-40 | the attribute-or-empty idiom: the attribute when it is present and non-empty, the fallback otherwise |
| PageExtractor.TrimAll | server/modules/scrapper/scrapper.service.js:44-52 | each heading text is trimmed, in document order |
| PageExtractor.ImageRecords | server/modules/scrapper/scrapper.service.js:60-65 | one record per `<img>`, in document order; record i is the src of tag i with its alt, null when absent or empty |
| PageExtractor.ImagesWithoutAltCount | server/modules/scrapper/scrapper.service.js:67 | images without alt are those whose alt is absent or empty, and there are no more of them than images |
| PageExtractor.LinkClassesDisjoint | server/modules/scrapper/scrapper.service.js:74-80 | no link is both internal and external, so the two counts add up to at most the number of links |
| PageExtractor.ParsedBlocksFacts | server/modules/scrapper/scrapper.service.js:104-112 | the JSON-LD list has one entry per block that parses, each the parse of some block |
| PageExtractor.CollectJsonLd | server/modules/scrapper/scrapper.service.js:104-112 | the `each` loop collects the parsed blocks in order and skips the others |
| PageExtractor.TextSample | server/modules/scrapper/scrapper.service.js:140 | `slice(0, 1000)`: the whole text when it has at most 1000 characters, exactly its first 1000 characters otherwise |
| PageExtractor.WordCount | server/modules/scrapper/scrapper.service.js:56-57 | the word count is the number of words of the body text (maximal runs of non-whitespace), and 1 for a body without words |
| PageExtractor.WordCountFacts | server/modules/scrapper/scrapper.service.js:56-57 | the pieces counted are exactly the body's words whenever it has one; the count is the number of spaces in the normalised text plus one; the pieces are non-empty and space-free, and an empty body counts 1 |
| PageExtractor.ScrapePage | server/modules/scrapper/scrapper.service.js:21-161 | the page step returns the record the pure extraction defines |
| PageExtractor.ScrapeOutcome | server/modules/scrapper/scrapper.service.js:21-161 | data is null exactly when navigation fails, or when the page URL does not parse and some link does not start with "/" (only those links reach `new URL(url)` in the filters); then no links are returned; otherwise the links are the raw hrefs, the URL and status code are the page's, the counts are consistent, and with an unparsable URL every link is internal and none external |
| PageExtractor.RootLinksCount | server/modules/scrapper/scrapper.service.js:74-80 | links that all start with "/" are all internal and none external, whatever the hostname |
| Crawler.MakeEnv | server/modules/scrapper/scrapper.service.js:207 | the page step of the crawl is `_scrapePageData` for the given browser, parser and JSON parser |
| Crawler.ScrapeStep | server/modules/scrapper/scrapper.service.js:207 | one page step in the crawl's environment |
| Crawler.ScrapeFacts | server/modules/scrapper/scrapper.service.js:158-161 | a failed page yields no links; a successful one yields a record for its own URL |
| Crawler.Urls | server/modules/scrapper/scrapper.service.js:210 | the URLs of the results, one per result, in order |
| Crawler.FetchedFacts | server/modules/scrapper/scrapper.service.js:207-210 | the results are no more than the visited URLs, each the successful scrape of a visited URL, and distinct URLs give distinct result URLs |
| Crawler.StartUrl | server/modules/scrapper/scrapper.service.js:191-192 | the start URL is exactly the normalised base URL, a same-site href, when the base URL normalises, and the base URL itself otherwise |
| Crawler.DiscoverFacts | server/modules/scrapper/scrapper.service.js:213-222 | the link loop only appends; the queue keeps no duplicates and nothing visited; each appended URL is a same-site normalisation of a link on the page; every normalisable link is queued or visited afterwards |
| Crawler.CoverMonotone | server/modules/scrapper/scrapper.service.js:213-221 | once a page's links are all queued or visited they stay so |
| Crawler.VisitHeadInv | server/modules/scrapper/scrapper.service.js:200-210 | dequeuing and scraping the head keeps the crawl invariant, and the head is never a visited URL |
| Crawler.VisitHeadQueue | server/modules/scrapper/scrapper.service.js:200-203 | after the shift the queue still holds no duplicates and nothing visited |
| Crawler.VisitHeadOrder | server/modules/scrapper/scrapper.service.js:203 | the visiting order stays duplicate-free and matches the visited set |
| Crawler.VisitHeadCover | server/modules/scrapper/scrapper.service.js:199-224 | after a visit, only the page just visited may have links not yet queued, and none when its scrape failed |
| Crawler.PushLinkStep | server/modules/scrapper/scrapper.service.js:214-220 | one iteration of the link loop keeps the invariant, only grows the queue and covers that link |
| Crawler.PushQueue | server/modules/scrapper/scrapper.service.js:215-220 | pushing a URL that is neither visited nor queued keeps the queue duplicate-free and disjoint from the visited set |
| Crawler.PushStart | server/modules/scrapper/scrapper.service.js:195 | the start URL stays the first one visited while links are pushed |
| Crawler.VisitHeadEarlier | server/modules/scrapper/scrapper.service.js:200-203 | a newly visited URL was found on a page visited before it |
| Crawler.PushAll | server/modules/scrapper/scrapper.service.js:213-221 | the link loop as a value: the queue it leaves is `Discover`'s, and the visited set, visiting order and results are unchanged |
| Crawler.Step | server/modules/scrapper/scrapper.service.js:200-222 | one pass of the loop body as a value: a visited head is dropped; otherwise the head is visited once, the results gain its record when its scrape succeeds, and its links are pushed |
| Crawler.CrawledExtends | server/modules/scrapper/scrapper.service.js:199-224 | the crawl only appends to the visiting order |
| Crawler.CrawledLinkless | server/modules/scrapper/scrapper.service.js:199-224 | a start page without links ends the crawl after one visit |
| Crawler.FirstVisit | server/modules/scrapper/scrapper.service.js:207-221 | visiting a start page whose two links normalise to two new URLs queues both, in link order |
| Crawler.NextVisit | server/modules/scrapper/scrapper.service.js:200-221 | the URL queued behind the head stays first: links found on the head are appended after it |
| Crawler.DiscoverPrefix | server/modules/scrapper/scrapper.service.js:213-221 | the link loop only appends to the queue |
| Crawler.BreadthFirst | server/modules/scrapper/scrapper.service.js:199-224 | the crawl is breadth first: both links of the start page are visited before any link of the first of them |
| Crawler.Crawl.constructor | server/modules/scrapper/scrapper.service.js:188-196 | the crawl starts with the normalised start URL as the only queued URL and nothing visited |
| Crawler.Crawl.EnqueueLinks | server/modules/scrapper/scrapper.service.js:213-222 | the link loop leaves the crawl state as `PushAll` defines it (the queue as `Discover` defines it), changes nothing else, and closes the current page |
| Crawler.Crawl.PushLinkOf | server/modules/scrapper/scrapper.service.js:214-220 | one link: the state becomes `PushLink` of the old state |
| Crawler.Crawl.Advance | server/modules/scrapper/scrapper.service.js:200-207 | shift, mark visited, scrape, append a successful result |
| Crawler.Crawl.Visit | server/modules/scrapper/scrapper.service.js:200-223 | one loop iteration leaves the state `Step` defines (so exactly one new URL is visited) and keeps the invariant and closure |
| Crawler.Crawl.Run | server/modules/scrapper/scrapper.service.js:199-224 | the loop leaves the state `Crawled` defines from the starting state: it stops when the queue is empty or the budget is reached, never exceeding it |
| Crawler.FoundEarlier | server/modules/scrapper/scrapper.service.js:199-224 | every visited URL but the first is a same-site normalisation of a raw link of a page visited before it |
| Crawler.ClosedWhenDrained | server/modules/scrapper/scrapper.service.js:199-224 | once the queue is empty, every normalisable link of a visited page leads to a visited page |
| Crawler.FinalOutcome | server/modules/scrapper/scrapper.service.js:199-232 | when the loop stops, the invariant gives everything `crawlWebsite` promises |
| Crawler.CrawlWebsite | server/modules/scrapper/scrapper.service.js:180-232 | fails only when the base URL does not parse; otherwise the results and visiting order are those of `Crawled` from the start URL, and they are the successful scrapes in visiting order, with no URL twice, within the budget, the start URL first, every other URL a same-site normalisation of a link on a page visited before it, every reachable same-site link visited when under budget, and nothing when the start page fails |
| PageSeo.Round | server/modules/seo/seo.service.js:124 | `Math.round`: the nearest integer, halves rounded up |
| PageSeo.Messages | server/modules/seo/seo.service.js:26-118 | one improvement text per issue, in order |
| PageSeo.AnalyzePageSeo | server/modules/seo/seo.service.js:5-127 | the step-by-step scorer returns the result of the ten-check specification |
| PageSeo.MetaSection | server/modules/seo/seo.service.js:16-47 | the meta points are the title and description checks' points; their texts are appended in that order |
| PageSeo.StructureSection | server/modules/seo/seo.service.js:50-64 | the structure points and text are those of the H1 check |
| PageSeo.ContentSection | server/modules/seo/seo.service.js:67-92 | the content points are the word-count and alt checks' points; their texts are appended in that order |
| PageSeo.TechnicalSection | server/modules/seo/seo.service.js:95-120 | the technical points are those of the status, load, canonical, viewport and social checks; their texts are appended in that order |
| PageSeo.ServerChecks | server/modules/seo/seo.service.js:99-106 | the status and load-time checks |
| PageSeo.TagChecks | server/modules/seo/seo.service.js:108-118 | the canonical, viewport and social checks |
| PageSeo.AltCheckFacts | server/modules/seo/seo.service.js:79-90 | the alt points lie in 0..10, equal 10 × (images with alt) / images, are 10 exactly when there are no images or none lacks alt, and an improvement appears exactly when some image lacks alt |
| PageSeo.ScoreInRange | server/modules/seo/seo.service.js:122-126 | the score is an integer in 0..100 |
| PageSeo.RawScoreInRange | server/modules/seo/seo.service.js:47-120 | the unrounded total lies in 0..100 |
| PageSeo.RawScoreIsSum | server/modules/seo/seo.service.js:47-120 | the weighted section normalisation adds up to the sum of the ten checks' points |
| PageSeo.IssueCount | server/modules/seo/seo.service.js:20-118 | the number of times an issue is reported is the sum of its hits over the ten checks |
| PageSeo.MetaReports | server/modules/seo/seo.service.js:20-44 | each title and description issue is reported once when its condition holds, never otherwise |
| PageSeo.StructureContentReports | server/modules/seo/seo.service.js:54-90 | the same for the H1, word-count and alt issues |
| PageSeo.ServerReports | server/modules/seo/seo.service.js:99-106 | the same for the status and load-time issues |
| PageSeo.TagReports | server/modules/seo/seo.service.js:108-118 | the same for the canonical, viewport and social issues |
| PageSeo.IssuesIff | server/modules/seo/seo.service.js:20-118 | an issue is reported exactly when its condition holds, and at most once |
| PageSeo.ImprovementsAreMessages | server/modules/seo/seo.service.js:26-118 | the improvements are the texts of the issues in check order |
| PageSeo.InImprovements | server/modules/seo/seo.service.js:122-126 | a text is among the improvements exactly when it is the text of an issue whose condition holds |
| PageSeo.NoImprovementsIff | server/modules/seo/seo.service.js:20-124 | there are no improvements exactly when every check passes; such a page scores 100, or 98 at 1000 ms or more |
| PageSeo.FullScoreWithAltIssue | server/modules/seo/seo.service.js:82-89 | one image in twenty without alt still rounds to 100, yet adds the alt improvement |
| PageSeo.ShortTitleNoDescription | server/modules/seo/seo.service.js:21-44 | a 5-character title and no description give 8 meta points and those two improvements first |
| PageSeo.ExampleScore | server/modules/seo/seo.service.js:5-127 | the worked example page scores 23 |
| PageSeo.ExampleIssues | server/modules/seo/seo.service.js:20-118 | the worked example page reports exactly its eight issues, in check order |
| SiteSeo.FirstSeen | server/modules/seo/seo.service.js:142-149 | the object's keys: each text once, in first-seen order |
| SiteSeo.CountEntries | server/modules/seo/seo.service.js:141-149 | each key with its number of occurrences |
| SiteSeo.Entries | server/modules/seo/seo.service.js:149 | `Object.entries`: each key with its value, in key order |
| SiteSeo.SiteSeoOf | server/modules/seo/seo.service.js:133-159 | null exactly for a missing or empty list; otherwise one page result per page and the page count |
| SiteSeo.TallyPush | server/modules/seo/seo.service.js:145 | adding one to the count (0 when absent) keeps the map equal to the tally of all texts seen so far |
| SiteSeo.FirstSeenSnoc | server/modules/seo/seo.service.js:145 | a new key goes last; a known key keeps its position |
| SiteSeo.EntriesOfTally | server/modules/seo/seo.service.js:149 | the entries of a correct tally are the key counts |
| SiteSeo.CountImprovements | server/modules/seo/seo.service.js:141-147 | the nested loops leave the exact occurrence count of every text, with keys in first-seen order |
| SiteSeo.CountPage | server/modules/seo/seo.service.js:144-146 | the inner loop adds one page's texts to the tally |
| SiteSeo.CountOne | server/modules/seo/seo.service.js:145 | one text added to the tally |
| SiteSeo.AnalyzeSiteSeo | server/modules/seo/seo.service.js:133-159 | the loop-based report equals the specification |
| SiteSeo.InsertPerm | server/modules/seo/seo.service.js:150 | insertion keeps every entry and the sum of counts |
| SiteSeo.InsertWithCount | server/modules/seo/seo.service.js:150 | insertion keeps the order among entries of equal count (stability) |
| SiteSeo.DescendingSorted | server/modules/seo/seo.service.js:150 | adjacent order implies overall descending order |
| SiteSeo.InsertSorted | server/modules/seo/seo.service.js:150 | insertion keeps the list in descending order |
| SiteSeo.RankFacts | server/modules/seo/seo.service.js:149-151 | the sort is descending by count, a permutation, stable on ties, and keeps the sum |
| SiteSeo.TallySum | server/modules/seo/seo.service.js:141-147 | the counts add up to the number of improvement texts |
| SiteSeo.TopImprovementsFacts | server/modules/seo/seo.service.js:141-151 | top improvements are sorted, a permutation of the tally, stable on ties, sum to the number of texts, and hold an entry exactly for each text with its exact count |
| SiteSeo.TopImprovementsDistinct | server/modules/seo/seo.service.js:149-151 | no text appears twice among the top improvements |
| SiteSeo.SharedIssueRanksFirst | server/modules/seo/seo.service.js:141-151 | a text on two pages ranks before one seen once, with count 2 |
| SiteSeo.TiesKeepFirstSeen | server/modules/seo/seo.service.js:149-151 | equal counts keep first-seen order |
| SiteSeo.PagesInOrder | server/modules/seo/seo.service.js:136 | the page results are the page analyses, in input order |
| SiteSeo.SinglePage | server/modules/seo/seo.service.js:137-139 | one page gives that page's score as the overall score |
| SiteSeo.TotalScoreBounds | server/modules/seo/seo.service.js:138 | the total of page scores in 0..100 lies in 0..100 × pages |
| SiteSeo.OverallInRange | server/modules/seo/seo.service.js:137-139 | the rounded average of scores in 0..100 lies in 0..100 |
| SiteSeo.SiteScoreInRange | server/modules/seo/seo.service.js:133-139 | every site report has an overall score in 0..100 |
| Zod.Field | server/modules/scrapper/scrapper.validation.js:3 | `body[key]`, None when the key is absent |
| Zod.StringIssues | server/modules/auth/auth.validation.js:13-18 | every string check runs; no issues exactly when all pass; at most one issue per check, each on the field's path |
| Zod.ParseString | server/modules/scrapper/scrapper.validation.js:4 | a string field passes exactly when present, a string and free of check failures; an absent key fails with `required_error` |
| Zod.ParseOptionalString | server/modules/scrapper/scrapper.validation.js:5 | `.optional()`: an absent key passes as None, a present one as the string schema decides |
| Zod.ParseIntInRange | server/modules/scrapper/scrapper.validation.js:6 | `number().int().min().max()` accepts exactly integers in range, and returns that integer |
| Zod.ParseFields | server/modules/auth/auth.validation.js:3-19 | an object of string fields passes exactly when every field does, and returns their values in field order |
| Zod.ParseStringObject | server/modules/auth/auth.validation.js:3-19 | a non-object body fails; otherwise as the fields decide |
| CrawlValidation.ParseMaxPages | server/modules/scrapper/scrapper.validation.js:6 | `.optional().default(10)`: 10 when absent, else the integer check on 1..50 |
| CrawlValidation.CrawlAcceptsIff | server/modules/scrapper/scrapper.validation.js:3-7 | a crawl body is accepted exactly when `projectId` is a string, `url` is absent or a URL string, and `maxPages` is absent or an integer in 1..50; a rejection always has an issue |
| CrawlValidation.CrawlRequestFacts | server/modules/scrapper/scrapper.validation.js:3-7 | an accepted request carries the body's values, `maxPages` in 1..50, and 10 when absent |
| CrawlValidation.ValidatedBudget | server/modules/scrapper/scrapper.validation.js:6 | a validated request always gives the crawler its budget, so its own default of 50 is never used |
| CrawlValidation.MissingProjectId | server/modules/scrapper/scrapper.validation.js:4 | a missing `projectId` fails with "Project ID is required" first |
| CrawlValidation.FractionalZeroPages | server/modules/scrapper/scrapper.validation.js:6 | `maxPages: 0.5` fails both `int` and `min(1)` |
| AuthValidation.PasswordChecksIff | server/modules/auth/auth.validation.js:13-18 | the four password checks pass exactly on 8 to 64 characters with an upper-case letter and a digit |
| AuthValidation.SignupAcceptsIff | server/modules/auth/auth.validation.js:3-19 | signup accepts exactly a 2..50-character name, an email and a strong password, and returns them |
| AuthValidation.SignupFieldsIff | server/modules/auth/auth.validation.js:4-18 | the rule of each signup field separately |
| AuthValidation.ForgotPasswordAcceptsIff | server/modules/auth/auth.validation.js:21-23 | forgotten password accepts exactly an email |
| AuthValidation.ResetPasswordAcceptsIff | server/modules/auth/auth.validation.js:25-33 | reset accepts exactly an access token and a strong new password |
| AuthValidation.ChangePasswordAcceptsIff | server/modules/auth/auth.validation.js:35-38 | change accepts exactly a non-empty current password and a strong new password |
| AuthValidation.LoginAcceptsIff | server/modules/auth/auth.validation.js:40-48 | login accepts exactly an email and a non-empty password |
| AuthValidation.SignupThenLogin | server/modules/auth/auth.validation.js:3-48 | a body signup accepts is accepted by login with the same credentials, and by forgotten password |
| AuthValidation.NewPasswordRuleShared | server/modules/auth/auth.validation.js:27-37 | reset and change accept the same new passwords |
| AuthValidation.ShortPasswordIssues | server/modules/auth/auth.validation.js:13-18 | signing up with "abc" reports the length, upper-case and digit messages, in that order |
| AuthValidation.LoginWeakerThanSignup | server/modules/auth/auth.validation.js:45-47 | login takes a one-letter password that signup refuses |
| AuthValidation.MissingEmail | server/modules/auth/auth.validation.js:21-43 | a missing email fails login with "Email is required" but forgotten password with zod's default message |

## Left out

- The browser (Playwright launch, navigation, `page.content()`, timing, closing) is out of
  scope. A page is a `Rendered` value given by a parameter, and the load time is an
  input of that value.
- cheerio's HTML parsing and selectors are not part of this model. The model starts
  from the attribute and text values the selectors return.
- The WHATWG URL parser is the parameter `Resolver`. The model writes out only the
  href serialisation of a parsed URL, without user info.
- `JSON.parse` is the parameter `parseJson`, and zod's email and URL regular
  expressions are the parameters `isEmail` and `isUrl`.
- The `try`/`catch` around the crawl loop is not modelled. An exception from the
  browser would end the crawl early with the results so far; in the model, the page
  step never throws except through its `Rendered` value.
- A crawl request without `url` passes validation, and the controller then calls
  `crawlWebsite(undefined, …)`, which throws. The model's crawl takes a string base URL.
- Scores are exact rationals. JavaScript computes them in binary floating point,
  which could change `Math.round` at an exact .5 boundary.
- String lengths count characters. JavaScript counts UTF-16 code units.
- zod's default issue texts are not modelled: an issue without the schema's own
  message has `message: None`.
- JavaScript's object key order puts integer-like keys first. The model assumes
  insertion order, which holds because no improvement text is an integer literal.
- Messages are not proved injective. The iff lemmas about improvement texts are
  stated on issues, and `PageSeo.InImprovements` relates texts to issues.
- The HTTP controllers, persistence, email delivery and React client are callers or
  collaborators of this core, not part of it. Only the controller's use of the crawl
  schema's result is reflected, in `CrawlValidation.ValidatedBudget`.
