/** `POST /api/radar`: keyword expansion, with six canned variations
    whenever anything after the input check fails. */
module RadarRoute {
  import opened Common

  /** The keyword the canned answer is built on when the body is unreadable. */
  const DefaultKeyword := "Business"

  /** The canned variations for `base`. */
  function MockVariations(base: string): (r: seq<string>)
    ensures |r| == 6
    ensures forall i :: 0 <= i < |r| ==> IsInfix(base, r[i])
  {
    InfixOfConcat("", base, " Growth Strategies");
    InfixOfConcat("Best ", base, " Tools 2024");
    InfixOfConcat("How to Start ", base, "");
    InfixOfConcat("", base, " for Beginners");
    InfixOfConcat("", base, " Automation Hacks");
    InfixOfConcat("Scaling ", base, " Business");
    assert "" + base + " Growth Strategies" == base + " Growth Strategies";
    assert "How to Start " + base + "" == "How to Start " + base;
    assert "" + base + " for Beginners" == base + " for Beginners";
    assert "" + base + " Automation Hacks" == base + " Automation Hacks";
    [ base + " Growth Strategies",
      "Best " + base + " Tools 2024",
      "How to Start " + base,
      base + " for Beginners",
      base + " Automation Hacks",
      "Scaling " + base + " Business" ]
  }

  /** The handler. `expand` is `expandKeywords`, an error being whatever it
      throws. */
  function Handle<E>(body: Option<KeywordRequest>, expand: string -> Result<seq<string>, E>)
    : (r: ApiResponse<seq<string>>)
    ensures r.Status() == 400 <==> body.Some? && body.value.keyword == ""
    ensures r.ClientError? ==> r.error == "Keyword required"
    ensures body.None? ==> r == Success(MockVariations(DefaultKeyword))
    ensures body.Some? && body.value.keyword != "" ==>
              var k := body.value.keyword;
              r == Success(if expand(k).Ok? then expand(k).value else MockVariations(k))
  {
    match body
    case None => Success(MockVariations(DefaultKeyword))
    case Some(KeywordRequest(keyword)) =>
      if keyword == "" then ClientError("Keyword required")
      else match expand(keyword)
        case Ok(variations) => Success(variations)
        case Err(_) => Success(MockVariations(keyword))
  }

  /** When expansion fails, the answer is still a success: six variations,
      each naming the keyword that was asked for. */
  lemma FailureIsMasked<E>(keyword: string, expand: string -> Result<seq<string>, E>)
    requires keyword != "" && expand(keyword).Err?
    ensures var r := Handle(Some(KeywordRequest(keyword)), expand);
            && r.Status() == 200
            && |r.payload| == 6
            && forall i :: 0 <= i < 6 ==> IsInfix(keyword, r.payload[i])
  {
  }
}
