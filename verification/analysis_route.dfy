/** `POST /api/analysis`: search, sample the first ten texts, classify, and
    report the number of posts found; a canned analysis whenever anything
    after the input check fails. */
module AnalysisRoute {
  import opened Common
  import opened SearchContext

  const SampleSize: nat := 10

  /** `Math.floor(Math.random() * (5000 - 1000) + 1000) - 1000`. */
  type Roll4000 = n: int | 0 <= n < 4000

  const MockLevel := "High Activity"

  const MockClassification :=
    "Analysis indicates a highly active discussion vector for this topic. \n"
    + "            \n"
    + "            Semantic intent is focused on \"Solution Seeking\" and \"Comparative Analysis\". "
    + "Users are actively requesting specific features and pricing tiers.\n"
    + "            \n"
    + "            Recommendation: Engage with value-proposition based replies."

  function Texts(posts: seq<Post>): (r: seq<string>)
    ensures |r| == |posts|
    ensures forall i :: 0 <= i < |posts| ==> r[i] == posts[i].text
  {
    seq(|posts|, i requires 0 <= i < |posts| => posts[i].text)
  }

  /** `results.slice(0, 10).map(r => r.text).join("\n")`. */
  function SampleText(results: seq<Post>): (r: string)
    ensures r == Join(Texts(results[..Min(SampleSize, |results|)]), "\n")
    ensures forall i :: 0 <= i < |results| && i < SampleSize ==> IsInfix(results[i].text, r)
    ensures |results| == 0 ==> r == ""
  {
    var head := results[..Min(SampleSize, |results|)];
    var texts := Texts(head);
    assert forall i :: 0 <= i < |results| && i < SampleSize ==> texts[i] == results[i].text;
    Join(texts, "\n")
  }

  /** While fewer than ten posts are sampled, one more post adds a line
      break and its text to the end of the sample: the sample lists the
      texts in result order, one per line. */
  lemma SampleTextAppend(results: seq<Post>, p: Post)
    requires |results| < SampleSize
    ensures |results| == 0 ==> SampleText(results + [p]) == p.text
    ensures |results| > 0 ==> SampleText(results + [p]) == SampleText(results) + "\n" + p.text
  {
    var all := results + [p];
    assert all[..Min(SampleSize, |all|)] == all;
    assert results[..Min(SampleSize, |results|)] == results;
    assert Texts(all) == Texts(results) + [p.text];
    if |results| > 0 {
      JoinSnoc(Texts(results), p.text, "\n");
    }
  }

  /** Posts after the tenth do not reach the classifier. */
  lemma SampleIgnoresTail(results: seq<Post>, more: seq<Post>)
    requires |results| >= SampleSize
    ensures SampleText(results + more) == SampleText(results)
  {
    assert (results + more)[..SampleSize] == results[..SampleSize];
  }

  /** The canned analysis for a given random draw. */
  function MockAnalysis(roll: Roll4000): (r: AnalysisData)
    ensures r.level == "High Activity"
    ensures 1000 <= r.count <= 4999
  {
    AnalysisData(MockLevel, 1000 + roll, MockClassification)
  }

  /** The handler. `search` is `searchSocialData`, `classify` is
      `classifyActivity(keyword, sampleText)`, and `roll` the random draw of
      the canned count. */
  function Handle<E, F>(
    body: Option<KeywordRequest>,
    search: string -> Result<seq<Post>, E>,
    classify: (string, string) -> Result<AnalysisData, F>,
    roll: Roll4000): (r: ApiResponse<AnalysisData>)
    ensures r.Status() == 400 <==> body.Some? && body.value.keyword == ""
    ensures r.ClientError? ==> r.error == "Keyword required"
    ensures body.None? ==> r == Success(MockAnalysis(roll))
    ensures body.Some? && body.value.keyword != "" ==>
              var k := body.value.keyword;
              if search(k).Ok? && classify(k, SampleText(search(k).value)).Ok? then
                var a := classify(k, SampleText(search(k).value)).value;
                && r.Success?
                && r.payload.count == |search(k).value|
                && r.payload.level == a.level
                && r.payload.classification == a.classification
              else r == Success(MockAnalysis(roll))
  {
    match body
    case None => Success(MockAnalysis(roll))
    case Some(KeywordRequest(keyword)) =>
      if keyword == "" then ClientError("Keyword required")
      else match search(keyword)
        case Err(_) => Success(MockAnalysis(roll))
        case Ok(results) =>
          match classify(keyword, SampleText(results))
          case Err(_) => Success(MockAnalysis(roll))
          case Ok(analysis) =>
            Success(AnalysisData(analysis.level, |results|, analysis.classification))
  }

  /** The count the classifier reports never reaches the answer: two
      classifiers that differ only in their counts give the same answer. */
  lemma ClassifierCountIgnored<E, F>(
    keyword: string,
    search: string -> Result<seq<Post>, E>,
    c1: (string, string) -> Result<AnalysisData, F>,
    c2: (string, string) -> Result<AnalysisData, F>,
    roll: Roll4000)
    requires keyword != "" && search(keyword).Ok?
    requires var sample := SampleText(search(keyword).value);
             && c1(keyword, sample).Ok? && c2(keyword, sample).Ok?
             && c1(keyword, sample).value.(count := 0) == c2(keyword, sample).value.(count := 0)
    ensures Handle(Some(KeywordRequest(keyword)), search, c1, roll)
         == Handle(Some(KeywordRequest(keyword)), search, c2, roll)
  {
    var sample := SampleText(search(keyword).value);
    var a1 := c1(keyword, sample).value;
    var a2 := c2(keyword, sample).value;
    assert a1.level == a1.(count := 0).level == a2.(count := 0).level == a2.level;
    assert a1.classification == a1.(count := 0).classification;
    assert a2.classification == a2.(count := 0).classification;
  }
}
