/** `POST /api/jackpots`: live post search, with five canned posts whenever
    anything after the input check fails (an empty search included, since
    the gateway reports it as an error). */
module JackpotsRoute {
  import opened Common
  import opened SearchContext
  import opened RapidApi

  const DefaultKeyword := "Business"

  /** One canned post, with the keyword spliced between `before` and `after`. */
  datatype MockTemplate = MockTemplate(
    id: string,
    platform: Platform,
    before: string,
    after: string,
    author: string,
    shown: string,
    url: string,
    score: int)

  const MockTemplates: seq<MockTemplate> := [
    MockTemplate("mock-1", Reddit, "Anyone have recommendations for the best ",
      "? I've been struggling to find a reliable solution that actually works at scale.",
      "TechSavvy_99", "42 Comments", "https://reddit.com/r/SaaS/comments/mock1", 95),
    MockTemplate("mock-2", Reddit, "Is it just me or is ",
      " industry getting harder to navigate? Looking for advice on how to optimize my workflow.",
      "GrowthHacker_X", "18 Comments", "https://reddit.com/r/Marketing/comments/mock2", 88),
    MockTemplate("mock-3", YouTube, "Top 5 Strategies for ",
      " Growth in 2024 (Full Guide)",
      "DigitalMastery", "1.2K Views", "https://youtube.com/watch?v=mock3", 92),
    MockTemplate("mock-4", Reddit, "Honest review of the current ",
      " market leaders. Here is what I found after testing 10 different options.",
      "ReviewKing", "156 Upvotes", "https://reddit.com/r/Entrepreneur/comments/mock4", 98),
    MockTemplate("mock-5", Reddit, "Need help with ",
      " scaling. My current setup is breaking down and I need a fix ASAP.",
      "DesperateFounder", "8 Comments", "https://reddit.com/r/Startups/comments/mock5", 82)
  ]

  function Instantiate(t: MockTemplate, keyword: string): (p: Post)
    ensures IsInfix(keyword, p.text)
  {
    InfixOfConcat(t.before, keyword, t.after);
    Post(t.id, t.platform, t.before + keyword + t.after, t.url, Label(t.shown), Some(t.author), Some(t.score))
  }

  /** The canned results for `keyword`. */
  function MockPosts(keyword: string): (r: seq<Post>)
    ensures |r| == 5
    ensures forall i :: 0 <= i < 5 ==> r[i].id == "mock-" + Decimal(i + 1)
    ensures forall i :: 0 <= i < 5 ==> IsInfix(keyword, r[i].text)
    ensures forall i :: 0 <= i < 5 ==> r[i].platform.Name() in {"Reddit", "YouTube"}
    ensures forall i :: 0 <= i < 5 ==> r[i].engagement.Label? && r[i].author.Some?
  {
    MockIds();
    seq(5, i requires 0 <= i < 5 => Instantiate(MockTemplates[i], keyword))
  }

  /** The canned ids are "mock-1" to "mock-5", in order. */
  lemma MockIds()
    ensures forall i :: 0 <= i < 5 ==> MockTemplates[i].id == "mock-" + Decimal(i + 1)
  {
    assert Decimal(1) == "1" && Decimal(2) == "2" && Decimal(3) == "3";
    assert Decimal(4) == "4" && Decimal(5) == "5";
  }

  /** The handler. `search` is `searchSocialData`, an error being whatever
      it throws. */
  function Handle<E>(body: Option<KeywordRequest>, search: string -> Result<seq<Post>, E>)
    : (r: ApiResponse<seq<Post>>)
    ensures r.Status() == 400 <==> body.Some? && body.value.keyword == ""
    ensures r.ClientError? ==> r.error == "Keyword required"
    ensures body.None? ==> r == Success(MockPosts(DefaultKeyword))
    ensures body.Some? && body.value.keyword != "" ==>
              var k := body.value.keyword;
              r == Success(if search(k).Ok? then search(k).value else MockPosts(k))
  {
    match body
    case None => Success(MockPosts(DefaultKeyword))
    case Some(KeywordRequest(keyword)) =>
      if keyword == "" then ClientError("Keyword required")
      else match search(keyword)
        case Ok(results) => Success(results)
        case Err(_) => Success(MockPosts(keyword))
  }

  /** Over the live gateway with a working scraper, an empty combined
      search answers with the canned posts for the keyword, and a non-empty
      one with the sorted live results. */
  lemma HandleOverGateway(
    keyword: string,
    scraperKey: string,
    reddit: Option<seq<RedditItem>>,
    youTube: Option<seq<YouTubeItem>>,
    dice: Entropy)
    requires keyword != "" && scraperKey != ""
    ensures var live := SearchSocialData(scraperKey, ScraperAnswered(true), Body(reddit), Body(youTube), dice);
            var r := Handle(Some(KeywordRequest(keyword)), _ => live);
            && (|reddit.GetOr([])| + |youTube.GetOr([])| == 0 ==> r == Success(MockPosts(keyword)))
            && (|reddit.GetOr([])| + |youTube.GetOr([])| > 0 ==>
                  r.Success? && r.payload == live.value && SortedByEngagement(r.payload))
  {
  }
}
