/**
 * The body of a crawl request: `crawlSchema`, a zod object with a required
 * `projectId` string, an optional `url` that must be a URL, and an optional integer
 * `maxPages` in 1..50 that defaults to 10.
 */
module CrawlValidation {
  import opened Wrappers
  import opened Json
  import opened Zod
  import Crawler

  datatype CrawlRequest = CrawlRequest(projectId: string, url: Option<string>, maxPages: int)

  const DefaultMaxPages := 10
  const MinPages := 1
  const MaxPagesLimit := 50

  function ProjectIdSchema(): StringSchema {
    StringSchema(Some("Project ID is required"), [])
  }

  function UrlSchema(isUrl: string -> bool): StringSchema {
    StringSchema(None, [Format(isUrl, Some("Invalid URL format"))])
  }

  /** `maxPages`: absent gives the default, present must be an integer in range. */
  function ParseMaxPages(v: Option<Json>): (r: Result<int, seq<Issue>>)
    ensures v.None? ==> r == Success(DefaultMaxPages)
    ensures v.Some? ==> r == ParseIntInRange(v.value, "maxPages", MinPages, MaxPagesLimit)
  {
    if v.None? then Success(DefaultMaxPages)
    else ParseIntInRange(v.value, "maxPages", MinPages, MaxPagesLimit)
  }

  /** `crawlSchema.safeParse(body)`: the issues of all three fields, in field order. */
  function ParseCrawl(body: Json, isUrl: string -> bool): Result<CrawlRequest, seq<Issue>> {
    if !body.Object? then Failure(NotAnObject)
    else
      var projectId := ParseString(Field(body.members, "projectId"), "projectId", ProjectIdSchema());
      var url := ParseOptionalString(Field(body.members, "url"), "url", UrlSchema(isUrl));
      var maxPages := ParseMaxPages(Field(body.members, "maxPages"));
      if projectId.Success? && url.Success? && maxPages.Success? then
        Success(CrawlRequest(projectId.value, url.value, maxPages.value))
      else
        Failure(IssuesOf(projectId) + IssuesOf(url) + IssuesOf(maxPages))
  }

  /** What the schema demands of a body, field by field. */
  predicate ValidCrawlBody(body: Json, isUrl: string -> bool) {
    && body.Object?
    && "projectId" in body.members && body.members["projectId"].String?
    && ("url" in body.members ==>
          body.members["url"].String? && isUrl(body.members["url"].s))
    && ("maxPages" in body.members ==>
          var n := body.members["maxPages"];
          n.Number? && IsInteger(n.n) && 1.0 <= n.n <= 50.0)
  }

  /** A body is accepted exactly when it meets the schema, and a rejected body always
      comes with at least one issue. */
  lemma CrawlAcceptsIff(body: Json, isUrl: string -> bool)
    ensures ParseCrawl(body, isUrl).Success? <==> ValidCrawlBody(body, isUrl)
    ensures ParseCrawl(body, isUrl).Failure? ==> ParseCrawl(body, isUrl).error != []
  {
    if body.Object? {
      var v := Field(body.members, "url");
      if v.Some? {
        var s := UrlSchema(isUrl).checks;
        assert v.value.String? ==> (StringIssues(v.value.s, s, "url") == [] <==> isUrl(v.value.s)) by {
          assert s[0] == Format(isUrl, Some("Invalid URL format"));
        }
      }
    }
  }

  /** An accepted request carries the body's values, with `maxPages` in 1..50 and 10
      when the body leaves it out. */
  lemma CrawlRequestFacts(body: Json, isUrl: string -> bool)
    requires ParseCrawl(body, isUrl).Success?
    ensures var q := ParseCrawl(body, isUrl).value;
      && q.projectId == body.members["projectId"].s
      && (q.url.Some? <==> "url" in body.members)
      && (q.url.Some? ==> q.url.value == body.members["url"].s && isUrl(q.url.value))
      && MinPages <= q.maxPages <= MaxPagesLimit
      && ("maxPages" !in body.members ==> q.maxPages == DefaultMaxPages)
      && ("maxPages" in body.members ==> q.maxPages as real == body.members["maxPages"].n)
  {
    CrawlAcceptsIff(body, isUrl);
  }

  /** The controller always hands the crawler a page budget, so the crawler's own
      default of 50 is never used for a validated request: the budget is the
      request's `maxPages`, 10 when the body has none. */
  lemma ValidatedBudget(body: Json, isUrl: string -> bool)
    requires ParseCrawl(body, isUrl).Success?
    ensures var q := ParseCrawl(body, isUrl).value;
      && Crawler.Budget(Some(q.maxPages)) == q.maxPages
      && ("maxPages" !in body.members ==> Crawler.Budget(Some(q.maxPages)) == DefaultMaxPages)
      && Crawler.Budget(Some(q.maxPages)) <= Crawler.Budget(None)
  {
    CrawlRequestFacts(body, isUrl);
  }

  /** A body without `projectId` is rejected, and its first issue carries the
      schema's `required_error`. */
  lemma MissingProjectId(body: Json, isUrl: string -> bool)
    requires body.Object? && "projectId" !in body.members
    ensures ParseCrawl(body, isUrl).Failure?
    ensures ParseCrawl(body, isUrl).error[0] == Issue("projectId", InvalidType, Some("Project ID is required"))
  {
  }

  /** `maxPages: 0.5` fails two checks at once, `int` and `min(1)`. */
  lemma FractionalZeroPages(isUrl: string -> bool)
    ensures var body := Object(map["projectId" := String("p"), "maxPages" := Number(0.5)]);
      ParseCrawl(body, isUrl) == Failure([Issue("maxPages", InvalidType, None), Issue("maxPages", TooSmall, None)])
  {
    var members := map["projectId" := String("p"), "maxPages" := Number(0.5)];
    var notInt := [Issue("maxPages", InvalidType, None)];
    var belowMin := [Issue("maxPages", TooSmall, None)];
    assert !IsInteger(0.5) by { assert (0.5).Floor == 0; }
    assert Field(members, "maxPages") == Some(Number(0.5));
    assert ParseMaxPages(Field(members, "maxPages")) == Failure(notInt + belowMin + []);
    assert ParseString(Field(members, "projectId"), "projectId", ProjectIdSchema()) == Success("p");
    assert Field(members, "url") == None;
    assert ParseCrawl(Object(members), isUrl) == Failure([] + [] + (notInt + belowMin + []));
    assert [] + [] + (notInt + belowMin + []) == [Issue("maxPages", InvalidType, None), Issue("maxPages", TooSmall, None)];
  }
}
