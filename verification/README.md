# ReplyRadar core, modelled in Dafny

ReplyRadar is a marketing-assistant web application. A user enters a topic
keyword. The system expands it into search variations through a language
model, fetches matching Reddit and YouTube discussions, classifies how active
the topic is, lets the user pick target posts ("jackpots"), and generates
three candidate replies per post, optionally with an affiliate link.

This project models the deterministic logic around those remote calls:

- the session store (`SearchContext`): the most-recently-used search history
  and the session reset;
- the jackpots screen's selection rules (`JackpotsPage`);
- the data gateway (`RapidApi`): provider records normalised into posts,
  concatenated, sorted by engagement, with an error on an empty result;
- the language-model gateway (`Llm`): choosing the result field of the chat
  response, cleaning code fences, the fallback values, and the post projection;
- the four request handlers (`RadarRoute`, `JackpotsRoute`, `AnalysisRoute`,
  `RepliesRoute`): input validation, pass-through on success, and canned
  payloads on failure;
- the dashboard and radar screens as state transitions (`DashboardPage`,
  `RadarPage`);
- the sidebar's step list and progress bar (`Sidebar`).

Every remote call is an input. The gateway takes the scraper's status and the
two providers' parsed bodies. The chat call takes the HTTP exchange plus
`JSON.parse` and `JSON.stringify` as functions. Each language-model prompt
takes the chat outcome and a parser for the cleaned reply. Handlers take the
gateway operations as functions. Pages take the endpoint's answer.
`Math.random` becomes oracle parameters: `Entropy` for generated ids and
YouTube engagement, and `Roll4000` for the canned analysis count. Reads of
environment variables become string parameters, with "" standing for unset.

Files: `common.dfy` holds the shared types and the JavaScript string
operations (`trim`, `join`, template interpolation, number formatting).
`js.dfy` holds JSON values with JavaScript truthiness and optional chaining.
Each other file models one source file.

## Model

| member | source | states |
|---|---|---|
| SearchContext.AddToHistory | src/context/SearchContext.tsx:57-61 | the new history is 1 to 5 long and starts with `k`; `k` does not occur again in it; every other entry comes from the old history and differs from `k`; the rest is the old history minus `k`, in order, truncated |
| SearchContext.AddToHistoryListsOnce | src/context/SearchContext.tsx:58 | after the insertion, `k` occurs exactly once |
| SearchContext.AddToHistoryIdempotent | src/context/SearchContext.tsx:58 | inserting the same keyword twice gives the same list as inserting it once |
| SearchContext.AddToHistoryKeepsDistinct | src/context/SearchContext.tsx:58 | a history without repeats stays without repeats |
| SearchContext.AddToHistoryLength | src/context/SearchContext.tsx:58 | for a history without repeats, length is min(5, old) when `k` was listed and min(5, old + 1) otherwise |
| SearchContext.HistoryExample | src/context/SearchContext.tsx:58 | searching "x", then "y", then "x" gives ["x", "y"] |
| SearchContext.Without | src/context/SearchContext.tsx:58 | the filter keeps exactly the entries different from `k` and changes nothing when `k` is absent |
| SearchContext.WithoutConcat | src/context/SearchContext.tsx:58 | the filter works piecewise on a concatenation, so kept entries stay in order and keep their multiplicity |
| SearchContext.ResetSession | src/context/SearchContext.tsx:63-71 | every working field returns to its initial value; the history is kept |
| SearchContext.ResetForgetsWork | src/context/SearchContext.tsx:63-71 | two sessions with the same history reset to the same state |
| JackpotsPage.RemoveId | src/app/jackpots/page.tsx:17 | the filter keeps exactly the entries whose id differs, and no entry with that id is left |
| JackpotsPage.RemoveIdConcat | src/app/jackpots/page.tsx:17 | removal by id works piecewise on a concatenation, so survivors keep their order |
| JackpotsPage.TogglePost | src/app/jackpots/page.tsx:15-21 | a selected id is removed with all its entries, the other entries kept in their order (the filter `RemoveId`); an unselected post is appended; the id's selection status flips |
| JackpotsPage.ToggleTwice | src/app/jackpots/page.tsx:15-21 | toggling an unselected post twice restores the exact original list |
| JackpotsPage.ToggleKeepsDistinct | src/app/jackpots/page.tsx:15-21 | toggling never creates a duplicate id |
| JackpotsPage.SelectAll | src/app/jackpots/page.tsx:23-29 | equal lengths clear the selection; otherwise the selection becomes the results |
| JackpotsPage.SelectAllSeesOnlyLength | src/app/jackpots/page.tsx:24 | two selections of equal length behave the same under select-all |
| JackpotsPage.SelectAllTwice | src/app/jackpots/page.tsx:23-29 | with results present, pressing select-all twice from a full selection selects all; from a partial selection it clears |
| JackpotsPage.Continue | src/app/jackpots/page.tsx:31-34 | stays put exactly when nothing is selected; otherwise goes to the generate step |
| RapidApi.NormalizeReddit | src/lib/rapidapi.ts:31-37 | platform Reddit; the id is the record's id, else a fresh one; the url is the host plus the permalink; engagement is ups plus comments, each 0 when missing; the text is the title, else the selftext, else "No text available", and is never empty |
| RapidApi.NormalizeYouTube | src/lib/rapidapi.ts:47-53 | platform YouTube; the text is title + " - " + description; the url is the watch prefix plus the video id; engagement lies in 0..499 |
| RapidApi.NormalizeRedditList | src/lib/rapidapi.ts:30-37 | one post per Reddit record, in order, each the normalisation of its record with that position's fresh id |
| RapidApi.NormalizeYouTubeList | src/lib/rapidapi.ts:46-53 | one post per YouTube record, in order, each the normalisation of its record with that position's fresh id and random engagement |
| RapidApi.InsertByEngagement | src/lib/rapidapi.ts:55 | inserting into a sorted list keeps it sorted and adds exactly that post |
| RapidApi.SortByEngagement | src/lib/rapidapi.ts:55 | the output is a permutation of the input, ordered by non-increasing engagement |
| RapidApi.SearchSocialData | src/lib/rapidapi.ts:1-66 | a missing scraper key fails first; a non-ok scraper fails; success happens exactly when both providers answered and the combined count is positive; a success is a sorted permutation of the Reddit records followed by the YouTube records, and its length is the sum of both counts |
| RapidApi.LiveResultsAreNormalised | src/lib/rapidapi.ts:31-55 | every live result has a numeric engagement; Reddit ones have text and a reddit.com url; YouTube ones have engagement below 500 and a watch url |
| RapidApi.SearchReddit | src/lib/rapidapi.ts:69-75 | both compatibility wrappers return exactly what the combined search returns |
| Llm.CallChatGPT | src/lib/llm.ts:1-31 | a missing key fails first; a non-ok answer fails with its status and text; success happens exactly for an ok answer whose body parses to non-null JSON, and then yields the chosen result field |
| Llm.ApiErrorNamesStatus | src/lib/llm.ts:22-25 | the error message contains the status and the response text |
| Llm.SelectResult | src/lib/llm.ts:30 | `result` if truthy, else the first choice's message content if truthy, else the JSON text of the body |
| Llm.ChoiceContent | src/lib/llm.ts:30 | undefined unless the body is an object with `choices`; for a chat-completions body, the first choice's message content |
| Llm.ResultFieldWins | src/lib/llm.ts:30 | a body with a non-empty string `result` yields that string |
| Llm.ChoiceContentUsed | src/lib/llm.ts:30 | a chat-completions body without `result` yields the first choice's content |
| Llm.StripFences | src/lib/llm.ts:38 | the output is no longer than the input and has no new characters; text without backticks passes unchanged |
| Llm.StripFencesKeepsOther | src/lib/llm.ts:38 | a character that does not start a ``` fence, a lone backtick included, is kept and the pass continues after it |
| Llm.StripFencesDeletesJsonFence | src/lib/llm.ts:38 | a ```json fence after backtick-free text is deleted and the pass continues after it |
| Llm.StripFencesDeletesBareFence | src/lib/llm.ts:38 | a bare ``` fence not followed by "json", after backtick-free text, is deleted and the pass continues after it |
| Llm.StripFencesPlainPrefix | src/lib/llm.ts:38 | a backtick-free prefix passes through the left-to-right pass unchanged |
| Llm.Clean | src/lib/llm.ts:38 | the cleaned reply is the fence-stripped reply with its whitespace margins cut |
| Llm.CleanJsonFence | src/lib/llm.ts:38 | a payload wrapped in ```json … ``` cleans to the trimmed payload |
| Llm.CleanBareFence | src/lib/llm.ts:51 | a payload wrapped in bare ``` fences cleans to the trimmed payload |
| Llm.Interpret | src/lib/llm.ts:36-43 | chat errors propagate; a string reply that parses after cleaning gives the parse; anything else gives the fallback |
| Llm.InterpretFencedReply | src/lib/llm.ts:75-76 | a fenced reply is parsed without its fence |
| Llm.ExpandKeywords | src/lib/llm.ts:33-44 | chat errors propagate; a text reply that parses after cleaning gives the parsed list; otherwise `[k, k + " review", k + " vs"]` |
| Llm.ClassifyActivity | src/lib/llm.ts:46-56 | chat errors propagate; a text reply that parses after cleaning gives the parsed analysis; otherwise level "Active", count 0 and "Analysis failed, please try again." |
| Llm.GenerateReplies | src/lib/llm.ts:58-81 | chat errors propagate; a text reply that parses after cleaning gives the parsed bundles; otherwise no bundles |
| Llm.KeywordFallback | src/lib/llm.ts:42 | exactly `[k, k + " review", k + " vs"]`, each starting with `k` |
| Llm.FallbackValues | src/lib/llm.ts:40-43 | when the reply is not text, the fallbacks are the three keyword variants, level "Active" with count 0 and the fixed message, and no replies |
| Llm.PromptPosts | src/lib/llm.ts:59 | one prompt entry per post, carrying its id and text |
| Llm.PromptPostsConcat | src/lib/llm.ts:59 | the projection works element by element, keeping input order |
| RadarRoute.MockVariations | src/app/api/radar/route.ts:18-26 | exactly six variations, each containing the base keyword |
| RadarRoute.Handle | src/app/api/radar/route.ts:4-30 | status 400 ("Keyword required") exactly when the keyword is missing or empty; an unreadable body gives the canned list for "Business"; otherwise the expansion result, or the canned list for the keyword when expansion fails |
| JackpotsRoute.MockPosts | src/app/api/jackpots/route.ts:18-64 | five posts with ids mock-1 to mock-5 in order; each text contains the keyword; each platform is Reddit or YouTube; engagement is a display label |
| JackpotsRoute.MockIds | src/app/api/jackpots/route.ts:20-56 | the canned ids read "mock-" followed by 1 to 5 |
| JackpotsRoute.Handle | src/app/api/jackpots/route.ts:4-67 | status 400 exactly for a missing or empty keyword; an unreadable body gives the canned posts for "Business"; otherwise the search results unchanged, or the canned posts for the keyword on any failure |
| JackpotsRoute.HandleOverGateway | src/app/api/jackpots/route.ts:12-16 | over the live gateway with a working scraper, an empty combined search answers with the canned posts for the keyword, and a non-empty one with the sorted live results |
| AnalysisRoute.SampleText | src/app/api/analysis/route.ts:12 | the sample is the texts of the first ten posts joined by line breaks; each of them appears in it; no results give an empty sample |
| AnalysisRoute.SampleTextAppend | src/app/api/analysis/route.ts:12 | below ten posts, one more post adds a line break and its text at the end of the sample, so texts appear in result order, one per line |
| Common.JoinSnoc | src/app/api/analysis/route.ts:12 | appending an element to a non-empty list appends the separator and the element to its join |
| AnalysisRoute.SampleIgnoresTail | src/app/api/analysis/route.ts:12 | posts after the tenth do not change the sample |
| AnalysisRoute.MockAnalysis | src/app/api/analysis/route.ts:26-34 | level "High Activity" and a count in 1000..4999 |
| AnalysisRoute.Handle | src/app/api/analysis/route.ts:5-36 | status 400 exactly for a missing or empty keyword; on success the count is the number of posts found and level and classification come from the classifier; any failure gives the canned analysis |
| AnalysisRoute.ClassifierCountIgnored | src/app/api/analysis/route.ts:17-21 | classifiers that differ only in their count produce the same answer |
| RepliesRoute.ShortReply | src/app/api/replies/route.ts:29 | with a non-empty link, the reply contains it |
| RepliesRoute.MediumReply | src/app/api/replies/route.ts:31 | with a non-empty link, the reply contains it |
| RepliesRoute.CuriosityReply | src/app/api/replies/route.ts:33 | with a non-empty link, the reply contains it |
| RepliesRoute.MockReplyTexts | src/app/api/replies/route.ts:28-34 | exactly three replies, each containing a non-empty link |
| RepliesRoute.MockReplies | src/app/api/replies/route.ts:25-35 | one bundle per post, in order, with the post's id and text and three replies that each contain a non-empty link |
| RepliesRoute.MockRepliesMatchPrompt | src/app/api/replies/route.ts:25-27 | each canned bundle carries exactly what the reply prompt sends of its post |
| RepliesRoute.Handle | src/app/api/replies/route.ts:4-39 | status 400 ("Posts required") exactly for missing, non-array or empty posts; an unreadable body gives an empty result; otherwise the generator output unchanged, or the canned bundles on failure |
| DashboardPage.SearchValue | src/app/dashboard/page.tsx:17-18 | the explicit argument if non-empty, else the current keyword |
| DashboardPage.HandleSearch | src/app/dashboard/page.tsx:16-51 | an empty search value changes nothing; otherwise the history records it whatever the answer; a failed answer alerts and changes nothing else; an ok answer stores the variations (empty when missing) and moves on; the keyword changes exactly for a successful manual search, and then becomes empty; selection, analysis, results and link are untouched |
| DashboardPage.FailedSearchStillRecorded | src/app/dashboard/page.tsx:24 | a failed search from history still puts that keyword first |
| RadarPage.HandleSelect | src/app/radar/page.tsx:16-18 | only the selected keyword changes |
| RadarPage.FetchVariationsForHistory | src/app/radar/page.tsx:20-41 | an ok answer sets the variations (empty when missing), sets the keyword to the history entry and clears the selection; a failure changes nothing and alerts, with the server's error when it sent one; the history is untouched |
| RadarPage.HandleContinue | src/app/radar/page.tsx:43-59 | does nothing without a selected keyword; otherwise stores the answer as the analysis and moves to the analysis step |
| Sidebar.FindIndex | src/components/layout/Sidebar.tsx:21 | the first index whose path matches, or -1 exactly when none does |
| Sidebar.CurrentIndex | src/components/layout/Sidebar.tsx:21 | a matching index, or -1 exactly when no step has the path |
| Sidebar.Progress | src/components/layout/Sidebar.tsx:22 | between 0 and 100; 0 exactly for a path that is no step; 100 exactly for "/generate" |
| Sidebar.StepOrder | src/components/layout/Sidebar.tsx:10-16 | five steps with distinct paths, from /dashboard to /generate |
| Sidebar.ProgressOfStep | src/components/layout/Sidebar.tsx:21-22 | the k-th step has index k and shows 20 × (k + 1) percent |
| Sidebar.ProgressBounds | src/components/layout/Sidebar.tsx:22 | an unknown path shows 0, "/generate" shows 100, and progress strictly increases along the steps |

## Left out

- Transport: `fetch`, HTTP headers, URLs with encoded query strings, `NextResponse`, and environment lookups. These are parameters.
- `JSON.parse` and `JSON.stringify`: both are function parameters, and a parse that throws is `None`.
- Llm.Interpret: the reply parser returns the type each function declares (`string[]`, an analysis, reply bundles). The source returns whatever `JSON.parse` yields, unchecked, so a reply that parses to another shape passes through there. The model does not represent that case.
- Prompt wording: the text of the three prompts is left out. The chat outcome is a parameter, so the prompt cannot influence it in the model.
- RapidApi.SortByEngagement: the sort is written as a stable insertion sort, matching `Array.prototype.sort`. Its contract states ordering and permutation. It does not state that posts of equal engagement keep their input order.
- RapidApi.SearchSocialData: a provider record without `data`, `id` or `snippet` makes the source throw a TypeError. Records in the model always have those parts.
- `Math.random` is an oracle: generated ids are indexed by record position, and random numbers come from subset types. The format of the random ids is not modelled.
- Js.Member: reading `length` on a JSON array or string is not modelled, because the source never reads it.
- RadarPage.HandleContinue: the source stores whatever body the analysis endpoint returns. The model types that body as an analysis, because `AnalysisRoute.Handle` answers with one for every non-empty keyword.
- Loading spinners, `searchingItem`, `fetchingHistory`, `console` output, navigation history (`router.back`), animation and styling.
- `localStorage` persistence of the history (src/context/SearchContext.tsx:52-55, 60), Supabase and sign-in.
- The presentation-only screens (analysis, generate), the shell, the layout and the banners.
- RapidApi.SearchSocialData: the search throws as soon as either provider's request or its JSON decoding throws; there is no partial result from the other provider.
- Request bodies are typed more narrowly than the handlers accept. `KeywordRequest` holds a string keyword, so a truthy non-string keyword such as 42, which passes the emptiness check (src/app/api/radar/route.ts:10, src/app/api/jackpots/route.ts:10) and reaches the gateway, is not represented. `RepliesRequest` holds a string link and a list of posts, so a truthy non-string `affiliateLink` spliced into the canned replies (src/app/api/replies/route.ts:11, 29-33) and a `posts` array holding `null` are not represented either. Such an array passes the check at src/app/api/replies/route.ts:13. Reading `p.id` then throws in the prompt projection (src/lib/llm.ts:59) and again in the canned fallback (src/app/api/replies/route.ts:26), so the route fails instead of answering.
