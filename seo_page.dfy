/**
 * `analyzePageSeo`: the weighted score of one page record and the improvements it
 * suggests. Scores are exact reals; `Math.round` is `Round`.
 */
module PageSeo {
  import opened Wrappers
  import opened Url
  import opened PageExtractor

  datatype PageSeoResult = PageSeoResult(url: string, score: int, improvements: seq<string>)

  const TitleLengthIssue := "Title length should be between 10 and 60 characters."
  const TitleMissing := "Add a Title tag."
  const DescriptionLengthIssue := "Meta description length should be between 50 and 160 characters."
  const DescriptionMissing := "Add a Meta Description."
  const H1Missing := "Add exactly one H1 tag."
  const H1Multiple := "Use only one H1 tag per page."
  const ThinContent := "Increase content word count (aim for >300 words)."
  const SlowLoad := "Improve page load speed (aim for <1s)."
  const CanonicalMissing := "Add a Canonical link."
  const ViewportMissing := "Add a Viewport meta tag for mobile responsiveness."
  const SocialMissing := "Add Open Graph or Twitter Card meta tags."

  function IntToString(i: int): string {
    if i < 0 then "-" + NatToString(-i) else NatToString(i)
  }

  /** `` `Add Alt text to ${missingAlt} images.` `` */
  function AltIssue(missingAlt: nat): string {
    "Add Alt text to " + NatToString(missingAlt) + " images."
  }

  /** `` `Fix page status code (currently ${status_code}).` `` */
  function StatusIssue(statusCode: int): string {
    "Fix page status code (currently " + IntToString(statusCode) + ")."
  }

  /** `Math.round`: the nearest integer, halves rounded up. */
  function Round(x: real): (n: int)
    ensures n as real - 0.5 <= x < n as real + 0.5
  {
    (x + 0.5).Floor
  }

  /** What each check can find wrong; `Message` renders it as the source's text. */
  datatype Issue =
    | TitleLength | NoTitle | DescriptionLength | NoDescription
    | NoH1 | SeveralH1 | FewWords | MissingAlt(count: nat)
    | BadStatus(code: int) | SlowPage | NoCanonical | NoViewport | NoSocialTags

  function Message(i: Issue): string {
    match i
    case TitleLength => TitleLengthIssue
    case NoTitle => TitleMissing
    case DescriptionLength => DescriptionLengthIssue
    case NoDescription => DescriptionMissing
    case NoH1 => H1Missing
    case SeveralH1 => H1Multiple
    case FewWords => ThinContent
    case MissingAlt(n) => AltIssue(n)
    case BadStatus(c) => StatusIssue(c)
    case SlowPage => SlowLoad
    case NoCanonical => CanonicalMissing
    case NoViewport => ViewportMissing
    case NoSocialTags => SocialMissing
  }

  /** The points one check earns and the issue it reports, if any. */
  datatype Verdict = Verdict(points: real, issue: Option<Issue>)

  function TitleCheck(seo: SeoTags): Verdict {
    if seo.title == "" then Verdict(0.0, Some(NoTitle))
    else if 10 <= seo.titleLength <= 60 then Verdict(15.0, None)
    else Verdict(8.0, Some(TitleLength))
  }

  function DescriptionCheck(seo: SeoTags): Verdict {
    if seo.metaDescription == "" then Verdict(0.0, Some(NoDescription))
    else if 50 <= seo.descriptionLength <= 160 then Verdict(15.0, None)
    else Verdict(8.0, Some(DescriptionLength))
  }

  function H1Check(structure: Headings): Verdict {
    if |structure.h1| == 1 then Verdict(20.0, None)
    else if |structure.h1| == 0 then Verdict(0.0, Some(NoH1))
    else Verdict(10.0, Some(SeveralH1))
  }

  function WordCountCheck(content: Content): Verdict {
    if content.wordCount > 300 then Verdict(10.0, None) else Verdict(0.0, Some(FewWords))
  }

  function AltCheck(media: Media): Verdict {
    if media.totalImages == 0 then Verdict(10.0, None)
    else
      var altRatio := (media.totalImages as int - media.imagesWithoutAlt) as real / media.totalImages as real;
      Verdict(10.0 * altRatio, if media.imagesWithoutAlt > 0 then Some(MissingAlt(media.imagesWithoutAlt)) else None)
  }

  function StatusCheck(statusCode: int): Verdict {
    if statusCode == 200 then Verdict(10.0, None) else Verdict(0.0, Some(BadStatus(statusCode)))
  }

  function LoadTimeCheck(loadTimeMs: int): Verdict {
    if loadTimeMs < 1000 then Verdict(5.0, None)
    else if loadTimeMs < 2500 then Verdict(3.0, None)
    else Verdict(0.0, Some(SlowPage))
  }

  function CanonicalCheck(seo: SeoTags): Verdict {
    if seo.canonical != "" then Verdict(5.0, None) else Verdict(0.0, Some(NoCanonical))
  }

  function ViewportCheck(seo: SeoTags): Verdict {
    if Truthy(seo.viewport) then Verdict(5.0, None) else Verdict(0.0, Some(NoViewport))
  }

  function SocialCheck(social: SocialTags): Verdict {
    if Truthy(social.ogTitle) || Truthy(social.twitterTitle) then Verdict(5.0, None) else Verdict(0.0, Some(NoSocialTags))
  }

  function IssueOf(v: Verdict): seq<Issue> {
    if v.issue.Some? then [v.issue.value] else []
  }

  /** The text a check pushes onto `improvements`, if any. */
  function MessageOf(v: Verdict): seq<string> {
    if v.issue.Some? then [Message(v.issue.value)] else []
  }

  /** The issues of a page, in the order the source evaluates the checks. */
  function Issues(p: PageData): seq<Issue> {
    IssueOf(TitleCheck(p.seo)) + IssueOf(DescriptionCheck(p.seo))
    + IssueOf(H1Check(p.structure))
    + IssueOf(WordCountCheck(p.content)) + IssueOf(AltCheck(p.media))
    + IssueOf(StatusCheck(p.statusCode)) + IssueOf(LoadTimeCheck(p.loadTimeMs))
    + IssueOf(CanonicalCheck(p.seo)) + IssueOf(ViewportCheck(p.seo)) + IssueOf(SocialCheck(p.social))
  }

  /** The improvements list: the text of each check's issue, in the same order. */
  function Improvements(p: PageData): seq<string> {
    MessageOf(TitleCheck(p.seo)) + MessageOf(DescriptionCheck(p.seo))
    + MessageOf(H1Check(p.structure))
    + MessageOf(WordCountCheck(p.content)) + MessageOf(AltCheck(p.media))
    + MessageOf(StatusCheck(p.statusCode)) + MessageOf(LoadTimeCheck(p.loadTimeMs))
    + MessageOf(CanonicalCheck(p.seo)) + MessageOf(ViewportCheck(p.seo)) + MessageOf(SocialCheck(p.social))
  }

  /** The texts of a list of issues. */
  function Messages(issues: seq<Issue>): (ms: seq<string>)
    ensures |ms| == |issues|
    ensures forall k :: 0 <= k < |issues| ==> ms[k] == Message(issues[k])
  {
    if issues == [] then [] else [Message(issues[0])] + Messages(issues[1..])
  }

  /** The four category contributions: raw sub-score over its maximum, times its weight. */
  function RawScore(p: PageData): real {
    (TitleCheck(p.seo).points + DescriptionCheck(p.seo).points) / 30.0 * 30.0
    + H1Check(p.structure).points / 20.0 * 20.0
    + (WordCountCheck(p.content).points + AltCheck(p.media).points) / 20.0 * 20.0
    + (StatusCheck(p.statusCode).points + LoadTimeCheck(p.loadTimeMs).points + CanonicalCheck(p.seo).points
       + ViewportCheck(p.seo).points + SocialCheck(p.social).points) / 30.0 * 30.0
  }

  /** The result `analyzePageSeo` returns for `p`. */
  function PageSeoOf(p: PageData): PageSeoResult {
    PageSeoResult(p.url, Round(RawScore(p)), Messages(Issues(p)))
  }

  /** `analyzePageSeo(pageData)`, section by section as the source accumulates it:
      each section pushes onto the one `improvements` list and adds its normalised
      sub-score to `score`. */
  method AnalyzePageSeo(pageData: PageData) returns (r: PageSeoResult)
    ensures r == PageSeoOf(pageData)
  {
    var improvements: seq<string> := [];
    var score: real := 0.0;
    var metaScore, structScore, contentScore, techScore;
    metaScore, improvements := MetaSection(pageData.seo, improvements);
    assert improvements == MessageOf(TitleCheck(pageData.seo)) + MessageOf(DescriptionCheck(pageData.seo));
    score := score + metaScore / 30.0 * 30.0;
    structScore, improvements := StructureSection(pageData.structure, improvements);
    score := score + structScore / 20.0 * 20.0;
    contentScore, improvements := ContentSection(pageData.content, pageData.media, improvements);
    score := score + contentScore / 20.0 * 20.0;
    techScore, improvements := TechnicalSection(pageData, improvements);
    score := score + techScore / 30.0 * 30.0;
    assert score == RawScore(pageData);
    ImprovementsAreMessages(pageData);
    r := PageSeoResult(pageData.url, Round(score), improvements);
  }

  /** Lines 16-47: title and meta description, 30 raw points. */
  method MetaSection(seo: SeoTags, improvements: seq<string>) returns (metaScore: real, out: seq<string>)
    ensures metaScore == TitleCheck(seo).points + DescriptionCheck(seo).points
    ensures out == improvements + MessageOf(TitleCheck(seo)) + MessageOf(DescriptionCheck(seo))
  {
    metaScore := 0.0;
    out := improvements;
    if seo.title != "" {
      if 10 <= seo.titleLength <= 60 {
        metaScore := metaScore + 15.0;
      } else {
        metaScore := metaScore + 8.0;
        out := out + [TitleLengthIssue];
      }
    } else {
      out := out + [TitleMissing];
    }
    ghost var pushed := out;
    if seo.metaDescription != "" {
      if 50 <= seo.descriptionLength <= 160 {
        metaScore := metaScore + 15.0;
      } else {
        metaScore := metaScore + 8.0;
        out := out + [DescriptionLengthIssue];
      }
    } else {
      out := out + [DescriptionMissing];
    }
    assert out == pushed + MessageOf(DescriptionCheck(seo));
  }

  /** Lines 50-64: the H1 count, 20 raw points. */
  method StructureSection(structure: Headings, improvements: seq<string>) returns (structScore: real, out: seq<string>)
    ensures structScore == H1Check(structure).points
    ensures out == improvements + MessageOf(H1Check(structure))
  {
    structScore := 0.0;
    out := improvements;
    var h1Count := |structure.h1|;
    if h1Count == 1 {
      structScore := structScore + 20.0;
    } else if h1Count == 0 {
      out := out + [H1Missing];
    } else {
      structScore := structScore + 10.0;
      out := out + [H1Multiple];
    }
  }

  /** Lines 67-92: word count and image alt texts, 20 raw points. */
  method ContentSection(content: Content, media: Media, improvements: seq<string>) returns (contentScore: real, out: seq<string>)
    ensures contentScore == WordCountCheck(content).points + AltCheck(media).points
    ensures out == improvements + MessageOf(WordCountCheck(content)) + MessageOf(AltCheck(media))
  {
    contentScore := 0.0;
    out := improvements;
    if content.wordCount > 300 {
      contentScore := contentScore + 10.0;
    } else {
      out := out + [ThinContent];
    }
    ghost var pushed := out;
    var totalImages: int := media.totalImages;
    var missingAlt: nat := media.imagesWithoutAlt;
    if totalImages == 0 {
      contentScore := contentScore + 10.0;
    } else {
      var altRatio := (totalImages - missingAlt) as real / totalImages as real;
      contentScore := contentScore + 10.0 * altRatio;
      if missingAlt > 0 {
        out := out + [AltIssue(missingAlt)];
      }
    }
    assert out == pushed + MessageOf(AltCheck(media));
  }

  /** Lines 95-120: status, load time, canonical, viewport and social tags, 30 raw points. */
  method TechnicalSection(pageData: PageData, improvements: seq<string>) returns (techScore: real, out: seq<string>)
    ensures techScore == StatusCheck(pageData.statusCode).points + LoadTimeCheck(pageData.loadTimeMs).points
      + CanonicalCheck(pageData.seo).points + ViewportCheck(pageData.seo).points + SocialCheck(pageData.social).points
    ensures out == improvements + MessageOf(StatusCheck(pageData.statusCode)) + MessageOf(LoadTimeCheck(pageData.loadTimeMs))
      + MessageOf(CanonicalCheck(pageData.seo)) + MessageOf(ViewportCheck(pageData.seo)) + MessageOf(SocialCheck(pageData.social))
  {
    var serverScore, tagScore;
    serverScore, out := ServerChecks(pageData.statusCode, pageData.loadTimeMs, improvements);
    tagScore, out := TagChecks(pageData.seo, pageData.social, out);
    techScore := serverScore + tagScore;
  }

  /** Lines 99-106: the status code and the load time. */
  method ServerChecks(statusCode: int, loadTimeMs: int, improvements: seq<string>) returns (serverScore: real, out: seq<string>)
    ensures serverScore == StatusCheck(statusCode).points + LoadTimeCheck(loadTimeMs).points
    ensures out == improvements + MessageOf(StatusCheck(statusCode)) + MessageOf(LoadTimeCheck(loadTimeMs))
  {
    serverScore := 0.0;
    out := improvements;
    if statusCode == 200 {
      serverScore := serverScore + 10.0;
    } else {
      out := out + [StatusIssue(statusCode)];
    }
    ghost var pushed := out;
    if loadTimeMs < 1000 {
      serverScore := serverScore + 5.0;
    } else if loadTimeMs < 2500 {
      serverScore := serverScore + 3.0;
    } else {
      out := out + [SlowLoad];
    }
    assert out == pushed + MessageOf(LoadTimeCheck(loadTimeMs));
  }

  /** Lines 108-118: the canonical link, the viewport and the social tags. */
  method TagChecks(seo: SeoTags, social: SocialTags, improvements: seq<string>) returns (tagScore: real, out: seq<string>)
    ensures tagScore == CanonicalCheck(seo).points + ViewportCheck(seo).points + SocialCheck(social).points
    ensures out == improvements + MessageOf(CanonicalCheck(seo)) + MessageOf(ViewportCheck(seo)) + MessageOf(SocialCheck(social))
  {
    tagScore := 0.0;
    out := improvements;
    if seo.canonical != "" {
      tagScore := tagScore + 5.0;
    } else {
      out := out + [CanonicalMissing];
    }
    ghost var pushed := out;
    if Truthy(seo.viewport) {
      tagScore := tagScore + 5.0;
    } else {
      out := out + [ViewportMissing];
    }
    assert out == pushed + MessageOf(ViewportCheck(seo));
    pushed := out;
    if Truthy(social.ogTitle) || Truthy(social.twitterTitle) {
      tagScore := tagScore + 5.0;
    } else {
      out := out + [SocialMissing];
    }
    assert out == pushed + MessageOf(SocialCheck(social));
  }

  /** The image check: 10 points with no images, else
      10 times the share of images with alt text; an issue exactly when some lack it. */
  lemma AltCheckFacts(media: Media)
    requires media.imagesWithoutAlt <= media.totalImages
    ensures 0.0 <= AltCheck(media).points <= 10.0
    ensures media.totalImages > 0 ==>
      AltCheck(media).points * media.totalImages as real == 10.0 * (media.totalImages - media.imagesWithoutAlt) as real
    ensures AltCheck(media).points == 10.0 <==> media.totalImages == 0 || media.imagesWithoutAlt == 0
    ensures AltCheck(media).issue.Some? <==> media.totalImages > 0 && media.imagesWithoutAlt > 0
  {
    if media.totalImages > 0 {
      var n := media.totalImages as real;
      var good := (media.totalImages - media.imagesWithoutAlt) as real;
      var ratio := good / n;
      assert ratio * n == good;
      assert 0.0 <= ratio <= 1.0;
      assert AltCheck(media).points == 10.0 * ratio;
      if ratio == 1.0 {
        assert good == n;
        assert media.imagesWithoutAlt == 0;
      }
      if media.imagesWithoutAlt == 0 {
        assert good == n;
        assert ratio == 1.0;
      }
    }
  }

  /** Every score lies between 0 and 100 when no more images lack alt text than there are. */
  lemma ScoreInRange(p: PageData)
    requires p.media.imagesWithoutAlt <= p.media.totalImages
    ensures 0 <= PageSeoOf(p).score <= 100
    ensures 0.0 <= RawScore(p) <= 100.0
  {
    RawScoreInRange(p);
    var x := RawScore(p);
    assert PageSeoOf(p).score == Round(x);
  }

  lemma RawScoreInRange(p: PageData)
    requires p.media.imagesWithoutAlt <= p.media.totalImages
    ensures 0.0 <= RawScore(p) <= 100.0
  {
    AltCheckFacts(p.media);
    RawScoreIsSum(p);
  }

  /** The normalisation cancels: the raw score is the plain sum of the check points. */
  lemma RawScoreIsSum(p: PageData)
    ensures RawScore(p) ==
      TitleCheck(p.seo).points + DescriptionCheck(p.seo).points + H1Check(p.structure).points
      + WordCountCheck(p.content).points + AltCheck(p.media).points + StatusCheck(p.statusCode).points
      + LoadTimeCheck(p.loadTimeMs).points + CanonicalCheck(p.seo).points + ViewportCheck(p.seo).points
      + SocialCheck(p.social).points
  {
  }

  /** How many times `v` reports `x`: once or not at all. */
  function Hits(v: Verdict, x: Issue): nat {
    if v.issue == Some(x) then 1 else 0
  }

  /** How many of the page's checks report `x`. */
  function Reports(p: PageData, x: Issue): nat {
    Hits(TitleCheck(p.seo), x) + Hits(DescriptionCheck(p.seo), x) + Hits(H1Check(p.structure), x)
    + Hits(WordCountCheck(p.content), x) + Hits(AltCheck(p.media), x) + Hits(StatusCheck(p.statusCode), x)
    + Hits(LoadTimeCheck(p.loadTimeMs), x) + Hits(CanonicalCheck(p.seo), x) + Hits(ViewportCheck(p.seo), x)
    + Hits(SocialCheck(p.social), x)
  }

  lemma CountSnoc(s: seq<Issue>, v: Verdict, x: Issue)
    ensures multiset(s + IssueOf(v))[x] == multiset(s)[x] + Hits(v, x)
  {
  }

  lemma CountTen(v0: Verdict, v1: Verdict, v2: Verdict, v3: Verdict, v4: Verdict, v5: Verdict, v6: Verdict, v7: Verdict, v8: Verdict, v9: Verdict, x: Issue)
    ensures multiset(IssueOf(v0) + IssueOf(v1) + IssueOf(v2) + IssueOf(v3) + IssueOf(v4) + IssueOf(v5)
        + IssueOf(v6) + IssueOf(v7) + IssueOf(v8) + IssueOf(v9))[x]
      == Hits(v0, x) + Hits(v1, x) + Hits(v2, x) + Hits(v3, x) + Hits(v4, x) + Hits(v5, x)
        + Hits(v6, x) + Hits(v7, x) + Hits(v8, x) + Hits(v9, x)
  {
    var s := IssueOf(v0);
    assert multiset(s)[x] == Hits(v0, x);
    CountSnoc(s, v1, x); s := s + IssueOf(v1);
    CountSnoc(s, v2, x); s := s + IssueOf(v2);
    CountSnoc(s, v3, x); s := s + IssueOf(v3);
    CountSnoc(s, v4, x); s := s + IssueOf(v4);
    CountSnoc(s, v5, x); s := s + IssueOf(v5);
    CountSnoc(s, v6, x); s := s + IssueOf(v6);
    CountSnoc(s, v7, x); s := s + IssueOf(v7);
    CountSnoc(s, v8, x); s := s + IssueOf(v8);
    CountSnoc(s, v9, x);
  }

  /** An issue occurs in `Issues(p)` as many times as checks report it. */
  lemma IssueCount(p: PageData, x: Issue)
    ensures multiset(Issues(p))[x] == Reports(p, x)
  {
    CountTen(TitleCheck(p.seo), DescriptionCheck(p.seo), H1Check(p.structure), WordCountCheck(p.content),
      AltCheck(p.media), StatusCheck(p.statusCode), LoadTimeCheck(p.loadTimeMs), CanonicalCheck(p.seo),
      ViewportCheck(p.seo), SocialCheck(p.social), x);
  }

  /** The condition under which the source suggests each improvement, issue by issue. */
  predicate Expected(p: PageData, x: Issue) {
    match x
    case NoTitle => p.seo.title == ""
    case TitleLength => p.seo.title != "" && !(10 <= p.seo.titleLength <= 60)
    case NoDescription => p.seo.metaDescription == ""
    case DescriptionLength => p.seo.metaDescription != "" && !(50 <= p.seo.descriptionLength <= 160)
    case NoH1 => |p.structure.h1| == 0
    case SeveralH1 => |p.structure.h1| > 1
    case FewWords => p.content.wordCount <= 300
    case MissingAlt(n) => p.media.totalImages > 0 && p.media.imagesWithoutAlt > 0 && n == p.media.imagesWithoutAlt
    case BadStatus(c) => c != 200 && c == p.statusCode
    case SlowPage => p.loadTimeMs >= 2500
    case NoCanonical => p.seo.canonical == ""
    case NoViewport => !Truthy(p.seo.viewport)
    case NoSocialTags => !Truthy(p.social.ogTitle) && !Truthy(p.social.twitterTitle)
  }

  function Once(b: bool): nat {
    if b then 1 else 0
  }

  lemma MetaReports(p: PageData)
    ensures Reports(p, NoTitle) == Once(Expected(p, NoTitle))
    ensures Reports(p, TitleLength) == Once(Expected(p, TitleLength))
    ensures Reports(p, NoDescription) == Once(Expected(p, NoDescription))
    ensures Reports(p, DescriptionLength) == Once(Expected(p, DescriptionLength))
  {
  }

  lemma StructureContentReports(p: PageData, n: nat)
    ensures Reports(p, NoH1) == Once(Expected(p, NoH1))
    ensures Reports(p, SeveralH1) == Once(Expected(p, SeveralH1))
    ensures Reports(p, FewWords) == Once(Expected(p, FewWords))
    ensures Reports(p, MissingAlt(n)) == Once(Expected(p, MissingAlt(n)))
  {
  }

  lemma ServerReports(p: PageData, c: int)
    ensures Reports(p, BadStatus(c)) == Once(Expected(p, BadStatus(c)))
    ensures Reports(p, SlowPage) == Once(Expected(p, SlowPage))
  {
  }

  lemma TagReports(p: PageData)
    ensures Reports(p, NoCanonical) == Once(Expected(p, NoCanonical))
    ensures Reports(p, NoViewport) == Once(Expected(p, NoViewport))
    ensures Reports(p, NoSocialTags) == Once(Expected(p, NoSocialTags))
  {
  }

  /** Every issue is reported exactly once when its condition holds and never otherwise:
      the improvements name precisely the failed checks, without repetition. */
  lemma IssuesIff(p: PageData, x: Issue)
    ensures multiset(Issues(p))[x] == Once(Expected(p, x))
    ensures x in Issues(p) <==> Expected(p, x)
  {
    IssueCount(p, x);
    match x
    case NoTitle | TitleLength | NoDescription | DescriptionLength => MetaReports(p);
    case NoH1 | SeveralH1 | FewWords => StructureContentReports(p, 0);
    case MissingAlt(n) => StructureContentReports(p, n);
    case BadStatus(c) => ServerReports(p, c);
    case SlowPage => ServerReports(p, 0);
    case NoCanonical | NoViewport | NoSocialTags => TagReports(p);
  }

  /** The improvements are the texts of the issues, in order. */
  lemma ImprovementsAreMessages(p: PageData)
    ensures Improvements(p) == Messages(Issues(p))
  {
    var s := IssueOf(TitleCheck(p.seo));
    var t := MessageOf(TitleCheck(p.seo));
    assert t == Messages(s);
    MessagesSnoc(s, t, DescriptionCheck(p.seo)); s, t := s + IssueOf(DescriptionCheck(p.seo)), t + MessageOf(DescriptionCheck(p.seo));
    MessagesSnoc(s, t, H1Check(p.structure)); s, t := s + IssueOf(H1Check(p.structure)), t + MessageOf(H1Check(p.structure));
    MessagesSnoc(s, t, WordCountCheck(p.content)); s, t := s + IssueOf(WordCountCheck(p.content)), t + MessageOf(WordCountCheck(p.content));
    MessagesSnoc(s, t, AltCheck(p.media)); s, t := s + IssueOf(AltCheck(p.media)), t + MessageOf(AltCheck(p.media));
    MessagesSnoc(s, t, StatusCheck(p.statusCode)); s, t := s + IssueOf(StatusCheck(p.statusCode)), t + MessageOf(StatusCheck(p.statusCode));
    MessagesSnoc(s, t, LoadTimeCheck(p.loadTimeMs)); s, t := s + IssueOf(LoadTimeCheck(p.loadTimeMs)), t + MessageOf(LoadTimeCheck(p.loadTimeMs));
    MessagesSnoc(s, t, CanonicalCheck(p.seo)); s, t := s + IssueOf(CanonicalCheck(p.seo)), t + MessageOf(CanonicalCheck(p.seo));
    MessagesSnoc(s, t, ViewportCheck(p.seo)); s, t := s + IssueOf(ViewportCheck(p.seo)), t + MessageOf(ViewportCheck(p.seo));
    MessagesSnoc(s, t, SocialCheck(p.social));
  }

  lemma MessagesSnoc(s: seq<Issue>, t: seq<string>, v: Verdict)
    requires t == Messages(s)
    ensures t + MessageOf(v) == Messages(s + IssueOf(v))
  {
    var ms := Messages(s + IssueOf(v));
    assert |t + MessageOf(v)| == |ms|;
    forall k | 0 <= k < |ms|
      ensures (t + MessageOf(v))[k] == ms[k]
    {
      if k < |s| {
        assert (s + IssueOf(v))[k] == s[k];
      }
    }
  }

  lemma InMessages(issues: seq<Issue>, m: string)
    ensures m in Messages(issues) <==> exists x :: x in issues && Message(x) == m
  {
    var texts := Messages(issues);
    if m in texts {
      var k :| 0 <= k < |texts| && texts[k] == m;
      assert issues[k] in issues && Message(issues[k]) == m;
    }
    if exists x :: x in issues && Message(x) == m {
      var x :| x in issues && Message(x) == m;
      var k :| 0 <= k < |issues| && issues[k] == x;
      assert texts[k] == m;
    }
  }

  /** A text is among the improvements exactly when it renders an issue whose condition holds. */
  lemma InImprovements(p: PageData, m: string)
    ensures m in PageSeoOf(p).improvements <==> exists x :: Expected(p, x) && Message(x) == m
  {
    ImprovementsAreMessages(p);
    InMessages(Issues(p), m);
    forall x
      ensures x in Issues(p) <==> Expected(p, x)
    {
      IssuesIff(p, x);
    }
  }

  /** Every check passes. */
  predicate PassesAll(p: PageData) {
    && p.seo.title != "" && 10 <= p.seo.titleLength <= 60
    && p.seo.metaDescription != "" && 50 <= p.seo.descriptionLength <= 160
    && |p.structure.h1| == 1
    && p.content.wordCount > 300
    && (p.media.totalImages == 0 || p.media.imagesWithoutAlt == 0)
    && p.statusCode == 200
    && p.loadTimeMs < 2500
    && p.seo.canonical != ""
    && Truthy(p.seo.viewport)
    && (Truthy(p.social.ogTitle) || Truthy(p.social.twitterTitle))
  }

  /** No improvement is suggested exactly when every check passes; such a page scores
      100, or 98 when it loads in 1000 ms or more (a load time under 2500 ms earns
      3 of 5 points and no improvement). */
  lemma NoImprovementsIff(p: PageData)
    ensures PageSeoOf(p).improvements == [] <==> PassesAll(p)
    ensures PassesAll(p) ==> PageSeoOf(p).score == (if p.loadTimeMs < 1000 then 100 else 98)
  {
    if PassesAll(p) && p.media.totalImages > 0 {
      var n := p.media.totalImages as real;
      assert n / n == 1.0;
    }
  }

  /** A page can score 100 and still be told to add alt text: one image in twenty
      without alt costs half a point, which rounding absorbs. */
  lemma FullScoreWithAltIssue(p: PageData)
    requires p.seo.title != "" && 10 <= p.seo.titleLength <= 60
    requires p.seo.metaDescription != "" && 50 <= p.seo.descriptionLength <= 160
    requires |p.structure.h1| == 1 && p.content.wordCount > 300
    requires p.media.totalImages == 20 && p.media.imagesWithoutAlt == 1
    requires p.statusCode == 200 && p.loadTimeMs < 1000 && p.seo.canonical != ""
    requires Truthy(p.seo.viewport) && Truthy(p.social.ogTitle)
    ensures PageSeoOf(p).score == 100
    ensures PageSeoOf(p).improvements == [AltIssue(1)]
  {
    assert AltCheck(p.media).points == 9.5;
    assert RawScore(p) == 99.5;
  }

  /** A title of 5 characters and no meta description: 8 of the 30 meta points and one
      improvement for each. */
  lemma ShortTitleNoDescription(p: PageData)
    requires p.seo.title != "" && p.seo.titleLength == 5 && p.seo.metaDescription == ""
    ensures TitleCheck(p.seo).points + DescriptionCheck(p.seo).points == 8.0
    ensures PageSeoOf(p).improvements[..2] == [TitleLengthIssue, DescriptionMissing]
  {
  }

  /** A worked example: a 300-character title, no meta description, no
      H1, no more than 300 words, five images all without alt, status 200, 500 ms, and no
      canonical, viewport or social tags. */
  predicate IsExamplePage(p: PageData) {
    && p.seo.title != "" && p.seo.titleLength == 300 && p.seo.metaDescription == ""
    && |p.structure.h1| == 0 && p.content.wordCount <= 300
    && p.media.totalImages == 5 && p.media.imagesWithoutAlt == 5
    && p.statusCode == 200 && p.loadTimeMs == 500 && p.seo.canonical == ""
    && !Truthy(p.seo.viewport) && !Truthy(p.social.ogTitle) && !Truthy(p.social.twitterTitle)
  }

  /** The example page scores 23: 8 meta points, no structure or content points, and
      15 of the 30 technical points. */
  lemma ExampleScore(p: PageData)
    requires IsExamplePage(p)
    ensures PageSeoOf(p).score == 23
  {
    assert AltCheck(p.media).points == 0.0;
  }

  /** The example page is told, in this order, to fix its title length, add a
      description, an H1, more words, alt text for 5 images, and the three tags. */
  lemma ExampleIssues(p: PageData)
    requires IsExamplePage(p)
    ensures Issues(p) == [TitleLength, NoDescription, NoH1, FewWords, MissingAlt(5), NoCanonical, NoViewport, NoSocialTags]
  {
  }
}
