/** `POST /api/replies`: batch reply generation, with three canned replies
    per post whenever generation fails. */
module RepliesRoute {
  import opened Common
  import opened SearchContext
  import opened Llm

  /** A readable request body. `posts` is `None` when the field is missing,
      falsy or not an array; a missing link is "". */
  datatype RepliesRequest = RepliesRequest(posts: Option<seq<Post>>, affiliateLink: string)

  const RepliesPerPost: nat := 3

  const ShortLead := ". I actually found that focusing on the core workflow makes a huge difference. "
  const ShortTail := " It really helped streamline my process."
  const MediumLead := "I totally agree. It's rare to find a solution that balances power and simplicity. "
  const MediumPlain := "I recently switched my stack and it's been a game changer."
  const CuriosityLead := "Interesting perspective! I was in the same boat last month. What worked for me was rethinking the integration layer. "
  const CuriosityPlain := "Let me know if you want more details on the setup."

  /** The canned short reply. */
  function ShortReply(link: string): (r: string)
    ensures link != "" ==> IsInfix(link, r)
  {
    if link != "" then
      var a := "Great point about finding the right tool" + ShortLead + "You might want to check out ";
      InfixOfConcat(a, link, ShortTail);
      a + link + ShortTail
    else
      "Great point about this topic" + ShortLead + "" + ShortTail
  }

  /** The canned medium reply. */
  function MediumReply(link: string): (r: string)
    ensures link != "" ==> IsInfix(link, r)
  {
    if link != "" then
      InfixOfConcat(MediumLead + "Have you tried ", link, "?");
      MediumLead + "Have you tried " + link + "?"
    else
      MediumLead + MediumPlain
  }

  /** The canned curiosity reply. */
  function CuriosityReply(link: string): (r: string)
    ensures link != "" ==> IsInfix(link, r)
  {
    if link != "" then
      InfixOfConcat(CuriosityLead + "This tool was key: ", link, "");
      assert CuriosityLead + "This tool was key: " + link + "" == CuriosityLead + "This tool was key: " + link;
      CuriosityLead + "This tool was key: " + link
    else
      CuriosityLead + CuriosityPlain
  }

  /** The three canned replies, short / medium / curiosity. */
  function MockReplyTexts(link: string): (r: seq<string>)
    ensures |r| == RepliesPerPost
    ensures link != "" ==> forall i :: 0 <= i < |r| ==> IsInfix(link, r[i])
  {
    [ShortReply(link), MediumReply(link), CuriosityReply(link)]
  }

  /** The canned answer: one bundle per post, in order, carrying the post's
      id and text. */
  function MockReplies(posts: seq<Post>, link: string): (r: seq<ReplyBundle>)
    ensures |r| == |posts|
    ensures forall i :: 0 <= i < |posts| ==>
              && r[i].id == posts[i].id
              && r[i].text == posts[i].text
              && |r[i].replies| == RepliesPerPost
    ensures link != "" ==> forall i, j :: 0 <= i < |posts| && 0 <= j < RepliesPerPost ==>
              IsInfix(link, r[i].replies[j])
  {
    seq(|posts|, i requires 0 <= i < |posts| =>
      ReplyBundle(posts[i].id, posts[i].text, MockReplyTexts(link)))
  }

  /** Each canned bundle carries exactly what the reply prompt sends of its
      post. */
  lemma MockRepliesMatchPrompt(posts: seq<Post>, link: string)
    ensures var r := MockReplies(posts, link);
            var prompt := PromptPosts(posts);
            |r| == |prompt| && forall i :: 0 <= i < |r| ==> PromptPost(r[i].id, r[i].text) == prompt[i]
  {
  }

  /** The handler. `generate` is `generateReplies(posts, affiliateLink)`, an
      error being whatever it throws. An unreadable body leaves the post
      list empty, so the canned answer is empty too. */
  function Handle<E>(body: Option<RepliesRequest>, generate: (seq<Post>, string) -> Result<seq<ReplyBundle>, E>)
    : (r: ApiResponse<seq<ReplyBundle>>)
    ensures r.Status() == 400 <==> body.Some? && (body.value.posts.None? || body.value.posts.value == [])
    ensures r.ClientError? ==> r.error == "Posts required"
    ensures body.None? ==> r == Success([])
    ensures body.Some? && body.value.posts.Some? && body.value.posts.value != [] ==>
              var posts := body.value.posts.value;
              var link := body.value.affiliateLink;
              r == Success(if generate(posts, link).Ok? then generate(posts, link).value
                           else MockReplies(posts, link))
  {
    match body
    case None => Success(MockReplies([], ""))
    case Some(RepliesRequest(posts, link)) =>
      if posts.None? || posts.value == [] then ClientError("Posts required")
      else match generate(posts.value, link)
        case Ok(results) => Success(results)
        case Err(_) => Success(MockReplies(posts.value, link))
  }
}
