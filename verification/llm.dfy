/** The remote classification gateway: one chat call (`callChatGPT`) and the
    three prompts built on it. The HTTP exchange is an input (`ChatReply`);
    `JSON.parse` of the response body, `JSON.stringify`, and `JSON.parse` of
    the cleaned reply are parameters. The reply parsers stand for
    `JSON.parse` read at the type the source declares (`string[]`, the
    analysis object, the reply bundles); `None` is a parse that throws. */
module Llm {
  import opened Common
  import opened Js
  import opened SearchContext

  /** The HTTP exchange with the chat endpoint. */
  datatype ChatReply = ChatUnreachable | ChatAnswered(ok: bool, status: nat, body: string)

  /** Why the chat call threw. `Transport` (a rejected `fetch`) and
      `MalformedBody` (a body that is not JSON, or is `null`) carry messages
      the runtime chooses. */
  datatype LlmError =
    | MissingApiKey
    | ApiError(status: nat, detail: string)
    | Transport
    | MalformedBody
  {
    function Message(): Option<string> {
      match this
      case MissingApiKey => Some("Missing RAPIDAPI_KEY for ChatGPT")
      case ApiError(status, detail) => Some("ChatGPT API Error: " + Decimal(status) + " - " + detail)
      case Transport => None
      case MalformedBody => None
    }
  }

  /** A generated reply set for one post. */
  datatype ReplyBundle = ReplyBundle(id: string, text: string, replies: seq<string>)

  /** What the reply prompt carries of each post. */
  datatype PromptPost = PromptPost(id: string, text: string)

  /** The message an API error carries names its status and the
      response text. */
  lemma ApiErrorNamesStatus(status: nat, detail: string)
    ensures IsInfix(Decimal(status), ApiError(status, detail).Message().value)
    ensures IsInfix(detail, ApiError(status, detail).Message().value)
  {
    var head := "ChatGPT API Error: ";
    var m := ApiError(status, detail).Message().value;
    assert m == head + Decimal(status) + (" - " + detail);
    InfixOfConcat(head, Decimal(status), " - " + detail);
    assert m == (head + Decimal(status) + " - ") + detail + "";
    InfixOfConcat(head + Decimal(status) + " - ", detail, "");
  }

  // ---------------------------------------------------------------------
  // callChatGPT

  /** `data.result || data.choices?.[0]?.message?.content || JSON.stringify(data)`
      for a non-null `data`. */
  function SelectResult(data: Json, stringify: Json -> string): (r: Json)
    requires data != JNull
    ensures Present(Member(Some(data), "result")) ==> r == Member(Some(data), "result").value
    ensures !Present(Member(Some(data), "result")) && Present(ChoiceContent(data)) ==>
              r == ChoiceContent(data).value
    ensures !Present(Member(Some(data), "result")) && !Present(ChoiceContent(data)) ==>
              r == JString(stringify(data))
    ensures r.JString? || Truthy(r)
  {
    var result := Member(Some(data), "result");
    if Present(result) then result.value
    else
      var content := ChoiceContent(data);
      if Present(content) then content.value else JString(stringify(data))
  }

  /** `data.choices?.[0]?.message?.content`. */
  function ChoiceContent(data: Json): (r: Option<Json>)
    ensures r.Some? ==> data.JObject? && "choices" in data.fields
    ensures data.JObject? && "choices" in data.fields && data.fields["choices"].JArray?
            && |data.fields["choices"].items| > 0
            && data.fields["choices"].items[0].JObject?
            && "message" in data.fields["choices"].items[0].fields
            && data.fields["choices"].items[0].fields["message"].JObject?
            && "content" in data.fields["choices"].items[0].fields["message"].fields
            ==> r == Some(data.fields["choices"].items[0].fields["message"].fields["content"])
  {
    Member(Member(Element(Member(Some(data), "choices"), 0), "message"), "content")
  }

  /** `callChatGPT(messages)`: the key is checked before anything is sent;
      a non-ok answer throws with its status and text; an ok body is
      decoded and its result field chosen. Reading `data.result` of a
      `null` body throws. */
  function CallChatGPT(apiKey: string, reply: ChatReply, parse: string -> Option<Json>, stringify: Json -> string)
    : (r: Result<Json, LlmError>)
    ensures apiKey == "" ==> r == Err(MissingApiKey)
    ensures apiKey != "" && reply.ChatAnswered? && !reply.ok ==>
              r == Err(ApiError(reply.status, reply.body))
    ensures r.Ok? <==>
              && apiKey != "" && reply.ChatAnswered? && reply.ok
              && parse(reply.body).Some? && parse(reply.body).value != JNull
    ensures r.Ok? ==> r.value == SelectResult(parse(reply.body).value, stringify)
  {
    if apiKey == "" then Err(MissingApiKey)
    else match reply
      case ChatUnreachable => Err(Transport)
      case ChatAnswered(ok, status, body) =>
        if !ok then Err(ApiError(status, body))
        else match parse(body)
          case None => Err(MalformedBody)
          case Some(data) =>
            if data == JNull then Err(MalformedBody) else Ok(SelectResult(data, stringify))
  }

  /** An endpoint that answers `{result: s}` with non-empty `s` yields `s`,
      whatever else the body holds. */
  lemma ResultFieldWins(fields: map<string, Json>, s: string, stringify: Json -> string)
    requires "result" in fields && fields["result"] == JString(s) && s != ""
    ensures SelectResult(JObject(fields), stringify) == JString(s)
  {
  }

  /** An OpenAI-shaped body without `result` yields the first choice's
      message content. */
  lemma ChoiceContentUsed(s: string, stringify: Json -> string)
    requires s != ""
    ensures var message := JObject(map["content" := JString(s)]);
            var choice := JObject(map["message" := message]);
            var data := JObject(map["choices" := JArray([choice])]);
            SelectResult(data, stringify) == JString(s)
  {
    var message := JObject(map["content" := JString(s)]);
    var choice := JObject(map["message" := message]);
    var data := JObject(map["choices" := JArray([choice])]);
    assert Decimal(0) == "0";
    assert Element(Member(Some(data), "choices"), 0) == Some(choice);
  }

  // ---------------------------------------------------------------------
  // Cleaning a reply

  const JsonFence := "```json"
  const Fence := "```"

  /** `text.replace(/```json|```/g, '')`: one left-to-right pass deleting
      each match, trying the longer alternative first. */
  function StripFences(text: string): (r: string)
    ensures |r| <= |text|
    ensures forall c :: c in r ==> c in text
    ensures '`' !in text ==> r == text
  {
    if |text| == 0 then ""
    else if IsPrefixOf(JsonFence, text) then
      assert text[0] == JsonFence[0];
      StripFences(text[|JsonFence|..])
    else if IsPrefixOf(Fence, text) then
      assert text[0] == Fence[0];
      StripFences(text[|Fence|..])
    else
      var rest := StripFences(text[1..]);
      assert forall c :: c in rest ==> c in text by {
        forall c | c in rest ensures c in text {
          assert c in text[1..];
        }
      }
      [text[0]] + rest
  }

  /** Text without backticks passes through the fence stripper unchanged,
      whatever follows it. */
  lemma {:induction false} StripFencesPlainPrefix(a: string, b: string)
    requires '`' !in a
    ensures StripFences(a + b) == a + StripFences(b)
  {
    if |a| > 0 {
      var t := a + b;
      assert t[0] == a[0] && a[0] != '`';
      assert !IsPrefixOf(JsonFence, t) && !IsPrefixOf(Fence, t);
      assert t[1..] == a[1..] + b;
      StripFencesPlainPrefix(a[1..], b);
    } else {
      assert a + b == b;
    }
  }

  /** A ```json fence after backtick-free text is deleted. */
  lemma StripFencesDeletesJsonFence(a: string, b: string)
    requires '`' !in a
    ensures StripFences(a + JsonFence + b) == a + StripFences(b)
  {
    var t := JsonFence + b;
    assert a + JsonFence + b == a + t;
    StripFencesPlainPrefix(a, t);
    assert IsPrefixOf(JsonFence, t);
    assert t[|JsonFence|..] == b;
  }

  /** A bare ``` fence after backtick-free text is deleted, unless "json"
      follows it, in which case the longer alternative matches instead. */
  lemma StripFencesDeletesBareFence(a: string, b: string)
    requires '`' !in a
    requires !IsPrefixOf("json", b)
    ensures StripFences(a + Fence + b) == a + StripFences(b)
  {
    var t := Fence + b;
    assert a + Fence + b == a + t;
    StripFencesPlainPrefix(a, t);
    FenceBeforeOtherThanJson(b);
    assert IsPrefixOf(Fence, t);
    assert t[|Fence|..] == b;
  }

  /** A bare fence not followed by "json" does not start a ```json fence. */
  lemma FenceBeforeOtherThanJson(b: string)
    requires !IsPrefixOf("json", b)
    ensures !IsPrefixOf(JsonFence, Fence + b)
  {
    var t := Fence + b;
    if |t| >= 7 {
      assert b[..4] != "json";
      var k :| 0 <= k < 4 && b[k] != "json"[k];
      assert t[..7][3 + k] == b[k] != JsonFence[3 + k];
    }
  }

  /** A character that does not start a ``` fence is kept, a lone backtick
      included, and the pass moves on by one character. */
  lemma StripFencesKeepsOther(c: char, rest: string)
    requires !IsPrefixOf(Fence, [c] + rest)
    ensures StripFences([c] + rest) == [c] + StripFences(rest)
  {
    var t := [c] + rest;
    JsonFenceStartsWithFence(t);
    assert t[0] == c && t[1..] == rest;
  }

  /** Every ```json fence begins with a bare ``` fence. */
  lemma JsonFenceStartsWithFence(t: string)
    ensures IsPrefixOf(JsonFence, t) ==> IsPrefixOf(Fence, t)
  {
    if IsPrefixOf(JsonFence, t) {
      assert t[..3] == JsonFence[..3];
    }
  }

  /** The cleaner applied to every reply: fences out, margins trimmed. */
  function Clean(text: string): (r: string)
    ensures |r| <= |text|
    ensures IsTrimOf(r, StripFences(text))
  {
    Trim(StripFences(text))
  }

  /** A payload wrapped in a ```json fence comes back as the trimmed payload. */
  lemma CleanJsonFence(payload: string)
    requires '`' !in payload
    ensures Clean(JsonFence + payload + Fence) == Trim(payload)
  {
    var t := JsonFence + payload + Fence;
    assert IsPrefixOf(JsonFence, t);
    assert t[|JsonFence|..] == payload + Fence;
    StripFencesPlainPrefix(payload, Fence);
    assert StripFences(Fence) == "";
    assert payload + "" == payload;
  }

  /** A payload wrapped in a bare ``` fence comes back as the trimmed payload. */
  lemma CleanBareFence(payload: string)
    requires '`' !in payload
    requires !IsPrefixOf("json", payload)
    ensures Clean(Fence + payload + Fence) == Trim(payload)
  {
    var t := Fence + payload + Fence;
    BareFenceIsNotJsonFence(payload);
    assert IsPrefixOf(Fence, t);
    assert t[|Fence|..] == payload + Fence;
    StripFencesPlainPrefix(payload, Fence);
    assert StripFences(Fence) == "";
    assert payload + "" == payload;
  }

  /** A bare fence followed by anything but "json" is not read as a
      ```json fence. */
  lemma BareFenceIsNotJsonFence(payload: string)
    requires '`' !in payload
    requires !IsPrefixOf("json", payload)
    ensures !IsPrefixOf(JsonFence, Fence + payload + Fence)
  {
    var t := Fence + payload + Fence;
    if |t| >= 7 {
      if |payload| < 4 {
        var k := |payload|;
        assert t[3 + k] == '`' != JsonFence[3 + k];
        assert t[..7][3 + k] != JsonFence[3 + k];
      } else {
        assert payload[..4] != "json";
        var k :| 0 <= k < 4 && payload[k] != "json"[k];
        assert t[..7][3 + k] == payload[k];
      }
    }
  }

  /** The shared tail of the three prompts: a chat error propagates; a
      string reply is cleaned and parsed; a reply that is not a string, or
      does not parse, gives the fallback. */
  function Interpret<T>(chat: Result<Json, LlmError>, parse: string -> Option<T>, fallback: T): (r: Result<T, LlmError>)
    ensures chat.Err? ==> r == Err(chat.error)
    ensures chat.Ok? ==> r.Ok?
    ensures chat.Ok? && chat.value.JString? && parse(Clean(chat.value.s)).Some? ==>
              r.value == parse(Clean(chat.value.s)).value
    ensures chat.Ok? && !(chat.value.JString? && parse(Clean(chat.value.s)).Some?) ==>
              r.value == fallback
  {
    match chat
    case Err(e) => Err(e)
    case Ok(JString(s)) =>
      (match parse(Clean(s))
       case Some(v) => Ok(v)
       case None => Ok(fallback))
    case Ok(_) => Ok(fallback)
  }

  /** A fenced reply reaches the parser without its fence. */
  lemma InterpretFencedReply<T>(payload: string, parse: string -> Option<T>, fallback: T)
    requires '`' !in payload
    ensures Interpret(Ok(JString(JsonFence + payload + Fence)), parse, fallback).Ok?
    ensures Interpret(Ok(JString(JsonFence + payload + Fence)), parse, fallback).value
            == parse(Trim(payload)).GetOr(fallback)
  {
    CleanJsonFence(payload);
  }

  // ---------------------------------------------------------------------
  // The three prompts

  /** What `expandKeywords(keyword)` falls back to. */
  function KeywordFallback(keyword: string): (r: seq<string>)
    ensures |r| == 3 && r[0] == keyword
    ensures forall i :: 0 <= i < |r| ==> IsPrefixOf(keyword, r[i])
    ensures r[1] == keyword + " review" && r[2] == keyword + " vs"
  {
    [keyword, keyword + " review", keyword + " vs"][..Min(3, 10)]
  }

  /** `expandKeywords(keyword)`: the parsed reply, or the keyword and two
      variants when the reply is not text or does not parse. */
  function ExpandKeywords(keyword: string, chat: Result<Json, LlmError>, parse: string -> Option<seq<string>>)
    : (r: Result<seq<string>, LlmError>)
    ensures chat.Err? ==> r == Err(chat.error)
    ensures chat.Ok? && chat.value.JString? && parse(Clean(chat.value.s)).Some? ==>
              r == Ok(parse(Clean(chat.value.s)).value)
    ensures chat.Ok? && !(chat.value.JString? && parse(Clean(chat.value.s)).Some?) ==>
              r == Ok([keyword, keyword + " review", keyword + " vs"])
  {
    assert KeywordFallback(keyword) == [keyword, keyword + " review", keyword + " vs"];
    Interpret(chat, parse, KeywordFallback(keyword))
  }

  const ClassifyFallback := AnalysisData("Active", 0, "Analysis failed, please try again.")

  /** `classifyActivity(keyword, sampleData)`: the parsed reply, or level
      "Active" with count 0 when the reply is not text or does not parse.
      The keyword and sample only shape the prompt. */
  function ClassifyActivity(keyword: string, sampleData: string, chat: Result<Json, LlmError>, parse: string -> Option<AnalysisData>)
    : (r: Result<AnalysisData, LlmError>)
    ensures chat.Err? ==> r == Err(chat.error)
    ensures chat.Ok? && chat.value.JString? && parse(Clean(chat.value.s)).Some? ==>
              r == Ok(parse(Clean(chat.value.s)).value)
    ensures chat.Ok? && !(chat.value.JString? && parse(Clean(chat.value.s)).Some?) ==>
              r == Ok(AnalysisData("Active", 0, "Analysis failed, please try again."))
  {
    Interpret(chat, parse, ClassifyFallback)
  }

  /** `generateReplies(posts, affiliateLink)`: the parsed reply, or no
      bundles at all when the reply is not text or does not parse. */
  function GenerateReplies(posts: seq<Post>, affiliateLink: string, chat: Result<Json, LlmError>, parse: string -> Option<seq<ReplyBundle>>)
    : (r: Result<seq<ReplyBundle>, LlmError>)
    ensures chat.Err? ==> r == Err(chat.error)
    ensures chat.Ok? && chat.value.JString? && parse(Clean(chat.value.s)).Some? ==>
              r == Ok(parse(Clean(chat.value.s)).value)
    ensures chat.Ok? && !(chat.value.JString? && parse(Clean(chat.value.s)).Some?) ==>
              r == Ok([])
  {
    Interpret(chat, parse, [])
  }

  /** Unparsable keyword output falls back to the keyword and two
      variants; classification to "Active" with count 0; replies to none. */
  lemma FallbackValues(keyword: string, sample: string, posts: seq<Post>, link: string, chat: Result<Json, LlmError>,
                       p1: string -> Option<seq<string>>, p2: string -> Option<AnalysisData>, p3: string -> Option<seq<ReplyBundle>>)
    requires chat.Ok? && !chat.value.JString?
    ensures ExpandKeywords(keyword, chat, p1) == Ok([keyword, keyword + " review", keyword + " vs"])
    ensures ClassifyActivity(keyword, sample, chat, p2) == Ok(AnalysisData("Active", 0, "Analysis failed, please try again."))
    ensures GenerateReplies(posts, link, chat, p3) == Ok([])
  {
    assert KeywordFallback(keyword) == [keyword, keyword + " review", keyword + " vs"];
  }

  /** `posts.map(p => ({id: p.id, text: p.text}))`, the payload of the
      reply prompt. */
  function PromptPosts(posts: seq<Post>): (r: seq<PromptPost>)
    ensures |r| == |posts|
    ensures forall i :: 0 <= i < |posts| ==> r[i].id == posts[i].id && r[i].text == posts[i].text
  {
    if |posts| == 0 then [] else [PromptPost(posts[0].id, posts[0].text)] + PromptPosts(posts[1..])
  }

  /** The projection works element by element, so it keeps input order. */
  lemma {:induction false} PromptPostsConcat(a: seq<Post>, b: seq<Post>)
    ensures PromptPosts(a + b) == PromptPosts(a) + PromptPosts(b)
  {
    if |a| > 0 {
      assert (a + b)[1..] == a[1..] + b;
      PromptPostsConcat(a[1..], b);
    } else {
      assert a + b == b;
    }
  }
}
