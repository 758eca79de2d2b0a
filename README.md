# Sierra Outfitters customer-service agent, in Dafny

The agent chats with a customer through a hosted language model. The model may call three
local tools:

- `lookup_order` reports an order's status, its products and its USPS tracking link.
- `check_promotional_discount` decides the Early Risers discount. It needs an explicit request,
  and it only issues a code between 8 and 10 AM Pacific time.
- `recommend_products` returns up to five catalog products for a free-text query.

This project models that agent and proves properties of the model.

- **Conversation engine** (`LlmClient`, a model of `llm/openai_client.py`).
  - Class `ResponsesClient` holds the conversation log, the system prompt, the tool list and the
    name-to-function registry.
  - `CallModel` makes a model call. It retries up to three times and sleeps 1 and then 2 seconds
    between attempts.
  - `ExecuteTools` produces one tool turn per tool call.
  - `Send` appends the user turn. It then runs rounds until a response carries no tool calls.
  - Every method is proved against a specification function: `CallFrom`, `ToolTurns` or `Converse`.
  - The remote model is class `Remote`, a scripted oracle. Each request consumes the next
    scripted reply, and every request fails once the script is used up.
  - The sleeps are recorded in a ghost log (`delays`), and so are the configuration calls
    (`history`).
- **Orchestrator** (`Orchestrator`, a model of `agent/orchestrator.py`).
  - Class `Agent` sets the prompt and registers the three tools, with their JSON schemas, in a
    fixed order.
  - Each tool is a function value over the data its service loaded. Calling it binds the
    decoded arguments by keyword as Python's `func(**args)` does, and reports the same
    `TypeError`s.
  - `ProcessMessage` turns any exception that escapes `send` into the fixed apology.
- **Orders** (`OrderModels`, `OrderServices`, `OrderTools`).
  - Orders are indexed under a normalised key: the email lower-cased, and the order number
    upper-cased with a `#` put in front when it has none.
  - Tracking predicates.
  - `lookup_order` partitions the ordered SKUs stably: those found in the catalog come first,
    then the missing ones.
- **Products** (`ProductModels`, `ProductServices`, `ProductTools`).
  - Case-insensitive substring keyword matching.
  - The catalog service: loading, search, the keyword fallback of `search_by_similarity`, SKU
    lookup, a copy of the catalog, and the formatted listing.
  - `recommend_products`: match the words of the query, fall back to the whole catalog when
    nothing matches, and cut to five.
- **Discounts** (`DiscountModels`, `DiscountServices`, `DiscountTools`, `DiscountExamples`).
  - The code format `EARLYRISER-XXXX-XXXX`.
  - The 8-10 AM window.
  - The Early Risers regular expression, written out as a predicate over match positions. It
    covers `\b` word boundaries over ASCII letters and digits and '_', `\s`, `.` stopping at a
    newline, and case folding.
  - The three-way eligibility decision.
  - Checks of the example requests: those accepted and those rejected.
- **Shared modules.**
  - `Wrappers`: `Option` and `Result`.
  - `Text`: ASCII case mapping, `in`, `startswith`, `split`, `strip`, `join`, slicing and `str(int)`.
  - `Json`: decoded JSON values.
  - `World`: the clock hour and the uuid text that a tool call sees.
  - `Index`: the dictionary that a loop of `d[key(r)] = r` builds.

Behaviour of the code a reader might not expect, which the model follows:

- A second registration under a tool name replaces the function and adds a second schema. It is
  not rejected.
- The retry loop sleeps twice, 1 then 2 seconds, not three times.
- An unknown tool name produces the tool turn `Tool 'X' not found`. It raises no error.
- Tool-call arguments that are not valid JSON are not treated as one failed call. The error
  escapes `send`, and only `process_message` catches it.
- The final answer is the content of the last assistant message, even when that content is
  `None`. The fallback text is used only when the final response has no message at all.
- `send` has no cap on the number of rounds. Termination comes from the finite script.

## Model

| member | source | states |
|---|---|---|
| OrderModels.Order.TrackingUrl | property/orders/models.py:16-19 | no URL exactly when the tracking number is missing or empty; otherwise the USPS prefix followed by the number, which it contains |
| OrderModels.Order.HasTracking | property/orders/models.py:13-14 | tracked exactly when a tracking number is present, even an empty one |
| OrderModels.EmptyTrackingNumberHasNoUrl | property/orders/models.py:13-19 | an empty tracking number counts as tracked, yet has no URL |
| OrderServices.NormalizeOrderNumber | property/orders/service.py:26-28 | the normalised order number starts with '#' and is upper-case |
| OrderServices.NormalizeKey | property/orders/service.py:25-38 | the key of loading and of lookup: the lower-cased email and the normalised order number |
| OrderServices.IndexOrders | property/orders/service.py:15-31 | the dictionary loading builds: each record stored under its key, in record order |
| OrderServices.LookupIn | property/orders/service.py:33-41 | the order stored under the normalised key, or None |
| OrderServices.NormalizeKeyIdempotent | property/orders/service.py:25-28 | normalising a normalised key changes nothing, so keys from loading and from lookup agree |
| OrderServices.NormalizeKeyIgnoresCase | property/orders/service.py:33-41 | keys ignore the letter case of the email and of the order number |
| OrderServices.NormalizeKeyAddsHash | property/orders/service.py:37-38 | "W001" and "#W001" give the same key |
| OrderServices.NormalizeKeyExample | tests/test_data_ingestion.py:56-58 | "JOHN.DOE@EXAMPLE.COM"/"w001" and "john.doe@example.com"/"#W001" both give the stored key |
| OrderServices.LookupFindsLastMatchingRecord | property/orders/service.py:11-41 | lookup over loaded records finds an order exactly when some record has the same normalised key, and then it is the last such record; None when no record has it |
| OrderServices.LookupIgnoresCaseAndHash | property/orders/service.py:33-41 | looking up with any letter case and without '#' gives what the normalised inputs give |
| OrderServices.OrderService.constructor | property/orders/service.py:11-31 | loading stores every record under its normalised key, later records replacing earlier ones |
| Index.IndexByKeys | property/orders/service.py:30-31 | a key is in the loaded dictionary exactly when some record has it |
| Index.IndexBy | property/orders/service.py:15-31 | the dictionary a loop of `d[key(r)] = r` builds over the records in order |
| Index.IndexByLastWins | property/products/service.py:38 | a present key holds the last record that has it |
| Index.IndexBySnoc | property/orders/service.py:31 | storing one more record overwrites its key and keeps every other entry |
| OrderTools.KnownSkusInIndex | property/orders/tools.py:49-58 | every SKU put in the resolved list is in the catalog, and no SKU put in the missing list is |
| OrderTools.KnownSkus | property/orders/tools.py:49-55 | the ordered SKUs the catalog holds, in order |
| OrderTools.UnknownSkus | property/orders/tools.py:49-58 | the ordered SKUs the catalog lacks, in order |
| OrderTools.ResolveSkus | property/orders/tools.py:46-65 | the products list: found SKUs with their catalog names, then missing SKUs with the placeholder name |
| OrderTools.SkusPartitioned | property/orders/tools.py:49-58 | together the two lists hold exactly the ordered SKUs, each as often as it was ordered |
| OrderTools.PartitionStable | property/orders/tools.py:49-58 | both lists keep the order of the ordered SKUs |
| OrderTools.AllKnown | property/orders/tools.py:49-58 | when the catalog holds every SKU, all of them are resolved and none is missing |
| OrderTools.ResolvedSkusInOrder | property/orders/tools.py:49-65 | the products list reads the found SKUs in order, then the missing SKUs in order |
| OrderTools.ResolveSkusShape | property/orders/tools.py:49-65 | one entry per ordered SKU; found entries carry the catalog name, missing ones "Product {sku} (not found in catalog)" |
| OrderTools.NotFoundExactlyWhenNoOrder | property/orders/tools.py:38-42 | "Order not found" exactly when no order has the normalised key |
| OrderTools.Report | property/orders/tools.py:29-86 | what `lookup_order` reports: the attribute error of a non-string argument, not found, or the found order with its products and tracking |
| OrderTools.ReportJson | property/orders/tools.py:40-86 | the document `json.dumps` receives for each kind of report |
| OrderTools.FoundReportsOrder | property/orders/tools.py:67-78 | a found order reports its customer name, its status, one product per SKU, and tracking exactly when it has a tracking number |
| OrderTools.EmptyTrackingNumberReportedWithoutUrl | property/orders/tools.py:76-78 | an empty tracking number is reported with a null URL |
| OrderTools.NonStringArgumentsFail | property/orders/tools.py:84-86 | a non-string argument is reported as a failure naming the missing attribute |
| OrderTools.ReportJsonShape | property/orders/tools.py:40-86 | the encoded report: {"error": "Order not found"}, an error object for failures, or found = true with the tracking keys exactly when tracked |
| OrderTools.LookupOrder | property/orders/tools.py:29-86 | the tool's loops compute the report function over the two services |
| ProductModels.Product.HasInventory | property/products/models.py:14-15 | in stock exactly when the count is positive |
| ProductModels.Product.SearchText | property/products/models.py:17-19 | name, a space, then the description, a space and the space-joined tags |
| ProductModels.Product.EmbeddingText | property/products/models.py:21-23 | name, ". ", then the description, ". " and the space-joined tags |
| ProductModels.AnyTermIn | property/products/models.py:31 | true exactly when some term, lower-cased, occurs in the text |
| ProductModels.Product.MatchesSearchTerms | property/products/models.py:25-31 | no terms never match; otherwise some lower-cased term occurs in the lower-cased search text |
| ProductModels.MatchesIffSomeTerm | property/products/models.py:25-31 | a product matches exactly when some term occurs in its lower-cased search text, ignoring case |
| ProductModels.MatchesMonotone | property/products/models.py:31 | adding terms, before or after, keeps a match |
| ProductModels.SearchTextHoldsFields | property/products/models.py:17-19 | the search text contains the name, the description and every tag |
| ProductModels.EmbeddingTextHoldsFields | property/products/models.py:21-23 | the embedding text contains the name, the description and every tag |
| ProductModels.OwnFieldsMatch | tests/test_data_ingestion.py:100-103 | a product matches its own name (in any case), its description and each of its tags |
| ProductModels.EdgeTermLists | property/products/models.py:27-28 | no terms never match; the single empty term matches every product |
| ProductServices.MatchingConcat | property/products/service.py:64-68 | searching a concatenated catalog searches each part in turn, so the result keeps catalog order |
| ProductServices.MatchingProducts | property/products/service.py:59-70 | the catalog products that match the terms, in catalog order |
| ProductServices.KeywordFallback | property/products/service.py:103-106 | the first `top_k` matches of the stripped and split query, or the first `top_k` catalog products when nothing matches |
| ProductServices.CatalogLines | property/products/service.py:116-121 | one "- name: description" line per product, in catalog order |
| ProductServices.MatchingMembership | property/products/service.py:64-68 | a product is in the result exactly when it is in the catalog and matches |
| ProductServices.MatchingNoTerms | property/products/service.py:61-62 | no terms give no products |
| ProductServices.MatchingLength | property/products/service.py:64-70 | the search never returns more products than the catalog holds |
| ProductServices.FallbackShape | property/products/service.py:103-106 | at most top_k products: a prefix of the matches, each matching, or of the catalog when nothing matches |
| ProductServices.ListingHoldsEveryProduct | property/products/service.py:116-121 | the listing contains every product's line |
| ProductServices.CatalogLineShape | property/products/service.py:120 | a line is "- ", the name, ": " and then the description |
| ProductServices.ProductService.constructor | property/products/service.py:24-38 | the catalog is the records in input order, and the SKU index is the catalog indexed by SKU |
| ProductServices.ProductService.SearchByTerms | property/products/service.py:59-70 | the loop returns exactly the matching products in catalog order |
| ProductServices.ProductService.SearchBySimilarity | property/products/service.py:72-106 | without embeddings, the keyword fallback |
| ProductServices.ProductService.GetBySku | property/products/service.py:108-110 | None exactly when no product has the SKU; otherwise the last loaded product with it |
| ProductServices.ProductService.GetAll | property/products/service.py:112-114 | a fresh array holding the catalog |
| ProductServices.ProductService.GetAllItemsFormatted | property/products/service.py:116-121 | the loop builds the newline-joined "- name: description" lines in catalog order |
| Text.Head | property/products/tools.py:41 | Python's `s[:k]`: a prefix of length min(k, len) for k >= 0, counting from the end for negative k |
| Text.SplitEmptyIffBlank | property/products/tools.py:34-35 | a text has no words exactly when it is all whitespace |
| Text.SplitOfStrip | property/products/tools.py:34 | `query.strip().split()` has the words of `query.split()` |
| ProductTools.AtMostFive | property/products/tools.py:11-50 | at most five recommendations, each carrying exactly one chosen product's name, SKU and description |
| ProductTools.Chosen | property/products/tools.py:34-41 | the matches of the query words, or the whole catalog when nothing matches, cut to five |
| ProductTools.Summaries | property/products/tools.py:44-50 | the name, SKU and description of each chosen product, in order |
| ProductTools.Recommend | property/products/tools.py:23-58 | the failure of `strip` on a non-string query, or the summaries of the chosen products |
| ProductTools.MatchesFirst | property/products/tools.py:34-41 | when something matches, the first five matches in catalog order, each a matching catalog product |
| ProductTools.FallsBackToCatalog | property/products/tools.py:38-41 | when nothing matches, the first five catalog products |
| ProductTools.BlankQueryFallsBack | tests/test_tools.py:67-73 | a blank query falls back to the first five catalog products |
| ProductTools.NamedProductYieldsMatches | tests/test_tools.py:58-65 | asking by a product's one-word name gives a non-empty list of products matching that name |
| ProductTools.RecommendationJson | property/products/tools.py:52-58 | a list with one document per summary, or {"error": "Failed to search products: …"} |
| ProductTools.RecommendProducts | property/products/tools.py:23-58 | the tool's steps and loop compute the recommendation function |
| DiscountModels.Generate | property/discounts/models.py:11-15 | a 20-character code: "EARLYRISER-", four upper-cased hex digits, '-', four more; 10 percent |
| DiscountModels.GenerateInjective | property/discounts/models.py:13-14 | the code determines the eight hex digits it was made from |
| DiscountServices.PromoWindowHours | property/discounts/service.py:17-23 | the window holds exactly the hours 8 and 9 |
| DiscountServices.IsPromoWindow | property/discounts/service.py:17-23 | the window is open when the Pacific hour is at least 8 and below 10 |
| DiscountServices.IsExplicitRequest | property/discounts/service.py:11-27 | some match of the Early Risers pattern: a phrase and a promotion word, each between word boundaries, in either order, on one line, ignoring case |
| DiscountServices.GenerateCode | property/discounts/service.py:29-31 | exactly the generated code |
| DiscountServices.ExplicitRequestIgnoresCase | property/discounts/service.py:11-15 | texts that fold alike are accepted alike |
| DiscountServices.ExplicitRequestIgnoresUpperLower | tests/test_tools.py:131-135 | upper- or lower-casing a request keeps the verdict |
| DiscountExamples.Accepted1 | tests/test_data_ingestion.py:127 | "Can I get the Early Risers promo code?" is an explicit request |
| DiscountExamples.Accepted2 | tests/test_data_ingestion.py:128 | "I'd like the early risers promotion please" is one |
| DiscountExamples.Accepted3 | tests/test_data_ingestion.py:129 | "early-risers code please" is one |
| DiscountExamples.Accepted4 | tests/test_tools.py:133 | "EARLY RISERS CODE PLEASE" is one |
| DiscountExamples.AcceptedReversed | property/discounts/service.py:13 | the promotion word may come first: "Do you have a discount code for early risers?" |
| DiscountExamples.AcceptedAtWindowEdges | tests/test_tools.py:141 | "Early risers code please" is one |
| DiscountExamples.NoEarly | property/discounts/service.py:11-15 | a text where no "ear" starts holds no match |
| DiscountExamples.NoPromoWord | property/discounts/service.py:11-15 | a text where no "cod", "pro" or "dis" starts holds no match |
| DiscountExamples.RejectedNoPromotionNamed | tests/test_data_ingestion.py:137 | "Any deals right now?" is rejected |
| DiscountExamples.RejectedNoPromotionWord | tests/test_data_ingestion.py:138 | "I'm an early riser" is rejected |
| DiscountExamples.RejectedGeneralQuestion | tests/test_data_ingestion.py:139 | "What promotions do you have?" is rejected |
| DiscountTools.EligibleExactly | property/discounts/tools.py:31-54 | a code exactly when the request is explicit and the hour is in the window, and it is the code generated from that call's uuid |
| DiscountTools.Check | property/discounts/tools.py:20-62 | the failure for a non-string request; else not explicit; else outside the window; else a code generated from the call's uuid |
| DiscountTools.CongratulationsMessage | property/discounts/tools.py:53 | the message naming the code and the percentage |
| DiscountTools.NotExplicitAtAnyHour | property/discounts/tools.py:31-36 | a request that is not explicit is turned down the same way at every hour |
| DiscountTools.ExplicitOutsideWindow | property/discounts/tools.py:39-44 | an explicit request outside the window is told the promotion is unavailable |
| DiscountTools.DecisionIgnoresUuidUnlessEligible | property/discounts/tools.py:31-47 | a code is generated only on the eligible path; otherwise the uuid does not matter |
| DiscountTools.NonStringFails | property/discounts/tools.py:60-62 | a non-string request fails with the `TypeError` of `re.search` |
| DiscountTools.DecisionJson | property/discounts/tools.py:31-62 | the encoded decision: the error object exactly for failures; eligible, the messages, and code and percentage exactly when eligible |
| DiscountTools.MessageHoldsCodeAndPercent | property/discounts/tools.py:53 | the congratulations message names the code and "10% off" |
| DiscountTools.GrantedAtNine | tests/test_tools.py:95-104 | at 9 AM the test request gets an EARLYRISER code at 10 percent |
| DiscountTools.UnavailableAtTwo | tests/test_tools.py:106-113 | at 2 PM the test request is told the promotion is unavailable |
| DiscountTools.GeneralQuestionNotExplicit | tests/test_tools.py:115-121 | "Any deals right now?" is not explicit, whatever the hour |
| DiscountTools.WindowEdges | tests/test_tools.py:137-149 | at 8:00 a code is issued; at 10:00 the promotion is unavailable |
| LlmClient.WithInstructionsShape | llm/openai_client.py:110-112 | the log is sent whole, behind a system message exactly when the prompt is non-empty and the log does not open with one |
| LlmClient.WithInstructions | llm/openai_client.py:110-112 | the messages of one call: the log, behind the system prompt when the prompt is non-empty and the log does not open with a system message |
| LlmClient.RequestFor | llm/openai_client.py:110-118 | one request: those messages and the tool list, left out when empty |
| LlmClient.Converted | llm/openai_client.py:122-138 | one assistant message per choice, with its content and tool calls |
| LlmClient.CallFrom | llm/openai_client.py:107-148 | one to three requests, one sleep fewer than requests; success only on an assistant-only response |
| LlmClient.AttemptsConsume | llm/openai_client.py:107-148 | a call consumes exactly as many scripted replies as it made requests |
| LlmClient.AttemptsRetryOnFailure | llm/openai_client.py:142-146 | every request of a call but the last failed |
| LlmClient.AttemptsSpec | llm/openai_client.py:122-148 | success exactly when the last request was answered, with its converted choices; failure only after the last attempt, with its error |
| LlmClient.AttemptsSleep | llm/openai_client.py:144-146 | the sleep after failed attempt k is base_delay * 2^k |
| LlmClient.RetrySchedule | llm/openai_client.py:23-24 | at most three requests, with sleeps of 1 and then 2 seconds; a failed call made three requests and slept [1, 2] |
| LlmClient.NoCallsIffNoneCarried | llm/openai_client.py:85-88 | no tool calls exactly when no message of the response carries any |
| LlmClient.CollectCalls | llm/openai_client.py:85-88 | the tool calls of the assistant messages of a response, in order |
| LlmClient.ToolTurnsShape | llm/openai_client.py:150-189 | N calls give N tool turns in order, each under its call's id and made from that call alone; `None` exactly when some arguments do not decode |
| LlmClient.ToolContent | llm/openai_client.py:159-185 | the content of one tool turn: not found, the exception text, a str as it is, or the JSON encoding |
| LlmClient.ToolTurn | llm/openai_client.py:154-187 | one tool turn under the call's id, or None when the arguments do not decode |
| LlmClient.ToolTurns | llm/openai_client.py:150-189 | the tool turns of the calls in order, or None when some call's arguments do not decode |
| LlmClient.ToolContentCases | llm/openai_client.py:159-185 | an unknown name gives "Tool 'X' not found", an exception "Error executing tool 'X': …", a str is passed on, anything else is JSON-encoded |
| LlmClient.PoisonedPrefix | llm/openai_client.py:157 | once some call's arguments fail to decode, the whole batch fails |
| LlmClient.FinalAnswerOfResponse | llm/openai_client.py:99-103 | the final answer is the last message's content, even None; the fallback only for an empty response |
| LlmClient.FinalAnswer | llm/openai_client.py:99-103 | the content of the last assistant message, or the fallback text when there is none |
| LlmClient.RoundFrom | llm/openai_client.py:79-96 | a round that goes on consumed at least one reply |
| LlmClient.RoundFromCases | llm/openai_client.py:79-96 | a round goes on exactly when the response carried tool calls whose turns were all made; it answers exactly when the response had no tool calls; a failed model call adds nothing |
| LlmClient.ConverseAppendsRounds | llm/openai_client.py:75-96 | the log only grows: the starting log, then each round's response followed by its tool turns |
| LlmClient.Converse | llm/openai_client.py:69-103 | the rounds of `send` from the log after the user turn, until a round ends it: outcome, log, replies left, sleeps, requests and rounds |
| LlmClient.ConverseRoundKinds | llm/openai_client.py:82-96 | rounds append only assistant messages and then tool turns |
| LlmClient.ConverseRounds | llm/openai_client.py:84-96 | every round before the last carried tool calls, answered by the turns appended after it |
| LlmClient.ConverseAnswers | llm/openai_client.py:90-103 | `send` answers only after a round without tool calls, with that round's final answer |
| LlmClient.ConverseAborts | llm/openai_client.py:79-96 | when `send` raises, the last round, if any, had tool calls |
| LlmClient.ConverseRequests | llm/openai_client.py:79-117 | the first request carries the log behind the prompt; every request carries the tool list and the log as it stood after some number of whole rounds, so tool results feed back; each round is requested with the log the rounds before it left |
| LlmClient.ConverseRequestLogs | llm/openai_client.py:79-96 | every request of `send` carries the log after some whole rounds, and every round is requested with the log the rounds before it left |
| LlmClient.Remote.Create | llm/openai_client.py:114-120 | the next scripted reply, the request recorded |
| LlmClient.ResponsesClient.constructor | llm/openai_client.py:19-35 | an empty log, prompt, tool list and registry |
| LlmClient.ResponsesClient.SetSystemPrompt | llm/openai_client.py:37-39 | only the prompt changes |
| LlmClient.ResponsesClient.Reset | llm/openai_client.py:41-43 | the log is emptied; prompt, tools and registry stay |
| LlmClient.ResponsesClient.RegisterFunctionTool | llm/openai_client.py:45-67 | one more schema, and the registry entry for the name replaced |
| LlmClient.ResponsesClient.CallModel | llm/openai_client.py:105-148 | the retry loop computes `CallFrom`: the outcome, the replies consumed, the sleeps and the requests |
| LlmClient.ResponsesClient.ExecuteTools | llm/openai_client.py:150-189 | the loop computes `ToolTurns` |
| LlmClient.ResponsesClient.Send | llm/openai_client.py:69-103 | the loop computes `Converse`: the outcome, the new log, the replies consumed, the sleeps and the requests; prompt and tools unchanged |
| LlmClient.CollectToolCalls | llm/openai_client.py:85-88 | the loop gathers the calls of the assistant messages in order |
| LlmClient.LastAnswer | llm/openai_client.py:99-103 | the backwards scan finds the final answer |
| Orchestrator.Missing | llm/openai_client.py:168 | the parameters that the arguments lack, in order |
| Orchestrator.Bind | llm/openai_client.py:168 | keyword binding succeeds exactly when the arguments are an object with exactly the parameters, giving the values in parameter order; otherwise Python's `TypeError` |
| Orchestrator.OnlyElement | llm/openai_client.py:168 | the one element of a one-element set |
| Orchestrator.SchemasNameTheRegistry | agent/orchestrator.py:29-93 | three schemas and three functions under the same three names |
| Orchestrator.Schemas | agent/orchestrator.py:29-93 | the three schemas in registration order |
| Orchestrator.Registry | agent/orchestrator.py:29-93 | the three functions under their names |
| Orchestrator.LookupOrderCall | agent/orchestrator.py:33-52 | `lookup_order(**args)`: the binding error, or the encoded report |
| Orchestrator.CheckDiscountCall | agent/orchestrator.py:56-71 | `check_promotional_discount(**args)`: the binding error, or the encoded decision |
| Orchestrator.RecommendCall | agent/orchestrator.py:75-90 | `recommend_products(**args)`: the binding error, or the encoded recommendation |
| Orchestrator.LookupSchemaMatches | agent/orchestrator.py:33-52 | `lookup_order` declares and requires email and order_number, additionalProperties false |
| Orchestrator.DiscountSchemaMatches | agent/orchestrator.py:56-71 | `check_promotional_discount` declares and requires request_text, additionalProperties false |
| Orchestrator.RecommendSchemaMatches | agent/orchestrator.py:75-90 | `recommend_products` declares and requires query, additionalProperties false |
| Orchestrator.RecommendDescriptionStatesLimit | agent/orchestrator.py:77 | the description promises up to 5 recommendations |
| Orchestrator.LookupToolCall | agent/orchestrator.py:33-52 | schema-shaped arguments reach the order report; any others raise |
| Orchestrator.DiscountToolCall | agent/orchestrator.py:56-71 | schema-shaped arguments reach the decision; any others raise |
| Orchestrator.RecommendToolCall | agent/orchestrator.py:75-90 | schema-shaped arguments reach the recommendation; any others raise |
| Orchestrator.ToolTurnContents | agent/orchestrator.py:29-93 | the tool turn of each registered name carries its tool's encoded result; other names are not found |
| Orchestrator.Answer | agent/orchestrator.py:99-105 | the answer of `send` unchanged, or the apology for any exception |
| Orchestrator.Agent.constructor | agent/orchestrator.py:19-27 | the prompt set first, then the three tools registered in order over the loaded data |
| Orchestrator.Agent.ProcessMessage | agent/orchestrator.py:95-105 | one `send`, its answer or the apology, with the log, script and sleeps as `Converse` says |
| Orchestrator.Agent.ResetConversation | agent/orchestrator.py:107-110 | the log is emptied; prompt, tools and registry stay |
| Orchestrator.TurnKeepsLog | agent/orchestrator.py:99-101 | a turn keeps the earlier log and the user message, answered or not |
| Orchestrator.UnreachableModelApologizes | agent/orchestrator.py:103-105 | an unreachable model gives the apology after sleeps of 1 and 2 and three requests |

## Left out

- The OpenAI client and network call are replaced by the scripted `Remote`. The model name,
  temperature, timeout, `tool_choice` and the `strict` flag are not modelled.
- `time.sleep` is a ghost delay log. Logging is left out throughout.
- The encodings of `json.dumps` and `json.loads` are not modelled.
  - Arguments are decoded values; text that is not valid JSON is a `None`.
  - An encoded result is `JsonOf(document)`.
- The files `orders.json` and `products.json` are not read. The loaders take the records as a
  sequence.
- The time-zone conversion with `pytz` is left out; the Pacific-local hour is an input.
  `uuid.uuid4()` is left out; its hex text is an input. `created_at` is not modelled.
- The spaCy embedding branch of `search_by_similarity` and the `embedding` field are left out.
  The model is the keyword-only configuration.
- The tool modules create lazy singleton services. Here the services are passed explicitly.
  One `ProductService`'s data serves both the order tool and the recommendation tool.
- agent/prompt.py is not part of this model; the prompt is a parameter. cli.py and config.py are
  not part of this model.
- Case mapping covers ASCII letters only. The case folding of the discount pattern covers the
  letters it needs.
- DiscountServices.IsExplicitRequest: the word boundaries `\b` count only ASCII letters and digits,
  '_' and the three letters that fold to 'i' or 's' as word characters. Python counts every
  alphanumeric character. Next to other non-ASCII letters or digits the verdicts can differ. For
  example, "Early Risers promoção" is accepted here, but Python rejects it.
- Every modelled error text (the `TypeError`s of keyword binding, the `AttributeError`s of
  `lower`, `upper` and `strip`, and the `TypeError` of `re.search`) is the one Python 3.12 gives.
  From Python 3.13 on, an unexpected keyword close to a parameter's name adds ". Did you mean
  '<param>'?", which `Orchestrator.Bind` does not model.
- DiscountTools.Check: the error for a non-string request is the message of `re` from Python 3.12
  on, which names the type. Earlier versions say only "expected string or bytes-like object".
- Orchestrator.Bind: when several keys are unexpected, the message does not name the first one.
  The order of a decoded dictionary is not modelled.
- Orchestrator.Answer: the apology is identified by its text. An answer equal to the apology
  cannot be told apart from one.
