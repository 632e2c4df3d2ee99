/** The remote data gateway (`searchSocialData`): provider records are
    normalised into uniform posts, concatenated Reddit-first, and sorted by
    non-increasing engagement. The three outbound requests are inputs: the
    scraper's status, and the Reddit and YouTube bodies as already parsed.
    `Math.random` is the `Entropy` oracle. */
module RapidApi {
  import opened Common
  import opened SearchContext

  /** `Math.floor(Math.random() * 500)`. */
  type Roll500 = n: int | 0 <= n < 500

  /** Fresh values the source draws from `Math.random`, indexed by the
      record's position in its provider's list. */
  datatype Entropy = Entropy(
    redditId: nat -> string,
    youTubeId: nat -> string,
    youTubeEngagement: nat -> Roll500)

  /** `item.data` of a Reddit search child. Falsy strings are "" (the source
      treats missing and empty alike); `permalink` is printed into the url,
      where absent and empty differ. */
  datatype RedditItem = RedditItem(
    id: string,
    title: string,
    selftext: string,
    permalink: Option<string>,
    ups: Option<int>,
    numComments: Option<int>)

  /** A YouTube search item: `id.videoId` and `snippet.title` / `.description`. */
  datatype YouTubeItem = YouTubeItem(
    videoId: Option<string>,
    title: Option<string>,
    description: Option<string>)

  /** A provider's reply: the request or its JSON decoding threw, or a body
      whose list (`data.children` / `items`) may be missing. */
  datatype ProviderReply<+T> = Threw | Body(list: Option<seq<T>>)

  /** The scraper request: rejected, or answered with an `ok` flag. */
  datatype ScraperReply = ScraperUnreachable | ScraperAnswered(ok: bool)

  /** Why the search threw. `ProviderFailed` is an error raised by `fetch`
      or by JSON decoding, whose message the runtime chooses. */
  datatype GatewayError = MissingScraperKey | ScraperFailed | ProviderFailed | NoResults {

    function Message(): Option<string> {
      match this
      case MissingScraperKey => Some("Missing SCRAPERAPI_KEY")
      case ScraperFailed => Some("ScraperAPI failed")
      case ProviderFailed => None
      case NoResults => Some("No live results found for this keyword.")
    }
  }

  const NoText := "No text available"
  const RedditHost := "https://reddit.com"
  const WatchPrefix := "https://youtube.com/watch?v="

  // ---------------------------------------------------------------------
  // Normalisation

  /** One Reddit record as a post; `freshId` stands in for a missing id. */
  function NormalizeReddit(item: RedditItem, freshId: string): (p: Post)
    ensures p.platform == Reddit && p.platform.Name() == "Reddit"
    ensures p.id == (if item.id != "" then item.id else freshId)
    ensures p.url == RedditHost + TemplateText(item.permalink)
    ensures p.engagement.Count?
    ensures p.engagement.n == item.ups.GetOr(0) + item.numComments.GetOr(0)
    ensures p.text != ""
    ensures item.title != "" ==> p.text == item.title
    ensures item.title == "" && item.selftext != "" ==> p.text == item.selftext
    ensures item.title == "" && item.selftext == "" ==> p.text == NoText
  {
    Post(
      id := if item.id != "" then item.id else freshId,
      platform := Reddit,
      text := if item.title != "" then item.title
              else if item.selftext != "" then item.selftext
              else NoText,
      url := RedditHost + TemplateText(item.permalink),
      engagement := Count(item.ups.GetOr(0) + item.numComments.GetOr(0)),
      author := None,
      score := None)
  }

  /** One YouTube record as a post; `freshId` stands in for a missing video
      id and `roll` is the random engagement the source assigns. */
  function NormalizeYouTube(item: YouTubeItem, freshId: string, roll: Roll500): (p: Post)
    ensures p.platform == YouTube && p.platform.Name() == "YouTube"
    ensures p.id == (if item.videoId.Some? && item.videoId.value != "" then item.videoId.value else freshId)
    ensures p.text == TemplateText(item.title) + " - " + TemplateText(item.description)
    ensures p.url == WatchPrefix + TemplateText(item.videoId)
    ensures p.engagement.Count? && 0 <= p.engagement.n < 500
  {
    Post(
      id := if item.videoId.Some? && item.videoId.value != "" then item.videoId.value else freshId,
      platform := YouTube,
      text := TemplateText(item.title) + " - " + TemplateText(item.description),
      url := WatchPrefix + TemplateText(item.videoId),
      engagement := Count(roll),
      author := None,
      score := None)
  }

  function NormalizeRedditList(items: seq<RedditItem>, dice: Entropy): (r: seq<Post>)
    ensures |r| == |items|
    ensures forall i :: 0 <= i < |items| ==> r[i] == NormalizeReddit(items[i], dice.redditId(i))
  {
    seq(|items|, i requires 0 <= i < |items| => NormalizeReddit(items[i], dice.redditId(i)))
  }

  function NormalizeYouTubeList(items: seq<YouTubeItem>, dice: Entropy): (r: seq<Post>)
    ensures |r| == |items|
    ensures forall i :: 0 <= i < |items| ==>
              r[i] == NormalizeYouTube(items[i], dice.youTubeId(i), dice.youTubeEngagement(i))
  {
    seq(|items|, i requires 0 <= i < |items| =>
      NormalizeYouTube(items[i], dice.youTubeId(i), dice.youTubeEngagement(i)))
  }

  // ---------------------------------------------------------------------
  // Ordering by engagement

  /** The sort key: `engagement` as a number. Every normalised post has a
      numeric engagement; display labels only occur in canned results,
      which are never sorted. */
  function Rank(p: Post): int {
    match p.engagement
    case Count(n) => n
    case Label(_) => 0
  }

  predicate SortedByEngagement(s: seq<Post>) {
    forall i, j :: 0 <= i < j < |s| ==> Rank(s[i]) >= Rank(s[j])
  }

  /** Places `p` before the first entry it does not rank below, so that it
      stays ahead of later entries of equal engagement. */
  function InsertByEngagement(p: Post, s: seq<Post>): (r: seq<Post>)
    requires SortedByEngagement(s)
    ensures SortedByEngagement(r)
    ensures multiset(r) == multiset(s) + multiset{p}
    ensures |r| == |s| + 1
  {
    if |s| == 0 then [p]
    else if Rank(s[0]) <= Rank(p) then [p] + s
    else
      var rest := InsertByEngagement(p, s[1..]);
      assert s == [s[0]] + s[1..];
      HeadRanksFirst(s, p, rest);
      [s[0]] + rest
  }

  /** The head of a sorted list outranks whatever its tail and a lower
      ranked `p` are rearranged into. */
  lemma HeadRanksFirst(s: seq<Post>, p: Post, rest: seq<Post>)
    requires |s| > 0 && SortedByEngagement(s) && Rank(s[0]) > Rank(p)
    requires multiset(rest) == multiset(s[1..]) + multiset{p}
    ensures forall j :: 0 <= j < |rest| ==> Rank(s[0]) >= Rank(rest[j])
  {
    forall j | 0 <= j < |rest| ensures Rank(s[0]) >= Rank(rest[j]) {
      var x := rest[j];
      assert x in multiset(rest);
      if x != p {
        assert x in multiset(s[1..]);
        assert x in s[1..];
      }
    }
  }

  /** `results.sort((a, b) => b.engagement - a.engagement)`: a stable sort
      by non-increasing engagement. */
  function SortByEngagement(s: seq<Post>): (r: seq<Post>)
    ensures SortedByEngagement(r)
    ensures multiset(r) == multiset(s)
    ensures |r| == |s|
  {
    if |s| == 0 then []
    else
      assert s == [s[0]] + s[1..];
      InsertByEngagement(s[0], SortByEngagement(s[1..]))
  }

  // ---------------------------------------------------------------------
  // The gateway

  /** `searchSocialData(keyword)`. The keyword only shapes the outbound
      requests, whose answers are the parameters. The Reddit and YouTube
      request results are read without looking at their `ok` flags, as in
      the source. */
  function SearchSocialData(
    scraperKey: string,
    scraper: ScraperReply,
    reddit: ProviderReply<RedditItem>,
    youTube: ProviderReply<YouTubeItem>,
    dice: Entropy): (r: Result<seq<Post>, GatewayError>)
    ensures scraperKey == "" ==> r == Err(MissingScraperKey)
    ensures scraperKey != "" && scraper == ScraperAnswered(false) ==> r == Err(ScraperFailed)
    ensures r.Ok? <==>
              && scraperKey != "" && scraper == ScraperAnswered(true)
              && reddit.Body? && youTube.Body?
              && |reddit.list.GetOr([])| + |youTube.list.GetOr([])| > 0
    ensures r.Ok? ==>
              var all := NormalizeRedditList(reddit.list.GetOr([]), dice)
                         + NormalizeYouTubeList(youTube.list.GetOr([]), dice);
              && SortedByEngagement(r.value)
              && multiset(r.value) == multiset(all)
              && |r.value| == |reddit.list.GetOr([])| + |youTube.list.GetOr([])|
  {
    if scraperKey == "" then Err(MissingScraperKey)
    else if scraper.ScraperUnreachable? then Err(ProviderFailed)
    else if !scraper.ok then Err(ScraperFailed)
    else if reddit.Threw? then Err(ProviderFailed)
    else if youTube.Threw? then Err(ProviderFailed)
    else
      var all := NormalizeRedditList(reddit.list.GetOr([]), dice)
                 + NormalizeYouTubeList(youTube.list.GetOr([]), dice);
      var results := SortByEngagement(all);
      if |results| == 0 then Err(NoResults) else Ok(results)
  }

  /** Every live result is a Reddit or YouTube post with a numeric
      engagement and an `https` link to its platform. */
  lemma LiveResultsAreNormalised(
    scraperKey: string,
    scraper: ScraperReply,
    reddit: ProviderReply<RedditItem>,
    youTube: ProviderReply<YouTubeItem>,
    dice: Entropy,
    p: Post)
    requires SearchSocialData(scraperKey, scraper, reddit, youTube, dice).Ok?
    requires p in SearchSocialData(scraperKey, scraper, reddit, youTube, dice).value
    ensures p.engagement.Count?
    ensures p.platform == Reddit ==> p.text != "" && IsPrefixOf(RedditHost, p.url)
    ensures p.platform == YouTube ==> 0 <= p.engagement.n < 500 && IsPrefixOf(WatchPrefix, p.url)
  {
    var all := NormalizeRedditList(reddit.list.GetOr([]), dice)
               + NormalizeYouTubeList(youTube.list.GetOr([]), dice);
    var r := SearchSocialData(scraperKey, scraper, reddit, youTube, dice).value;
    assert p in multiset(r);
    assert p in all;
  }

  /** `searchReddit(keyword)` and `searchYouTube(keyword)`: both wrappers
      run the same combined search, so the result never depends on which
      one a handler calls. */
  function SearchReddit(
    scraperKey: string,
    scraper: ScraperReply,
    reddit: ProviderReply<RedditItem>,
    youTube: ProviderReply<YouTubeItem>,
    dice: Entropy): (r: Result<seq<Post>, GatewayError>)
    ensures r == SearchSocialData(scraperKey, scraper, reddit, youTube, dice)
  {
    SearchSocialData(scraperKey, scraper, reddit, youTube, dice)
  }
}
