# USDA nutrition tools: a verified model of the reshaping, validation and rendering rules

This project models the deterministic core of the `mcp-nutrition-tools` repository. The repository is glue around the USDA FoodData Central API, and its core covers five parts:

- the HTTP server's three data tools (`search_foods`, `get_food_nutrition`, `compare_foods`), with the nutrient classifier and the comparison pivot inside them;
- the stdio MCP server's four tools and its lazily created client;
- the FoodData Central client, covering its configuration state and the requests it builds;
- the pydantic request models, as validity predicates with their parsers;
- the two stdio bridges that forward tool calls to the HTTP server and render the replies as text.

What the network, the USDA API or a JSON parser would deliver is a parameter of each operation. That might be a fetched food or the text of an exception (one per request, so a repeated id may fare differently), a reply, or an `Exchange`. Methods also return the requests they sent, or the ids they asked for. This keeps "nothing is sent before a limit check" observable.

Modules:

- `Wrappers`, `Fields`, `Text`, `Dicts`: `Option`/`Result`. `Field<T>` models a JSON key that is missing, null or present, so Python's `d.get(k)` and `d.get(k, default)` can be told apart. `Text` holds number rendering and `rstrip`. `Dicts` models Python's insertion-ordered dicts as sequences of pairs, including the store loop (last write wins) and the grouping loop (append to a list under a key).
- `FoodData`, `Responses`: the upstream food and nutrient records, and the `MCPResponse` envelope.
- `NutrientClassifier`, `ComparisonPivot`, `HttpServer`: the HTTP server (`src/mcp_http_server.py`).
- `UsdaClient`: the FoodData Central client (`src/usda_client.py`), a class whose `session` field `Initialize` sets.
- `McpServer`: the stdio server's tools (`src/mcp_server.py`); `ToolServer` holds the shared client.
- `RequestModels`: the request models (`src/models/requests.py`).
- `BridgeViews`: the rendering shared by both bridges.
  - The views of the reply a bridge reads.
  - The text of a list of lines (`Unlines`), and the lines starting with a prefix (`Prefixed`) or a digit (`Numbered`).
  - The loops that render a food listing and a nutrient section.
- `McpBridge`: `src/mcp_bridge.py`, with `NutritionMcpBridge` as a class.
- `FinalMcpBridge`: `examples/final_mcp_bridge.py`.

Every renderer is a method that builds its text with `+=` in loops, as the source does. Each is proved equal to `Unlines` of a list of lines given by a function. The properties of a rendering are lemmas about those lines: which titles appear, how many bullets there are, and the numbering.

The code is followed where it differs from the prose description of the system. The description says every nutrient with an amount lands in exactly one bucket. In the code, only the first ten unclassified nutrients are kept, and a later record with the same name replaces an earlier one in its bucket. The model states both, in `NutrientClassifier.Classified` and `NutrientClassifier.BucketEntry`.

## Model

| member | source | states |
|---|---|---|
| Text.TrimTrailingSpec | src/mcp_bridge.py:36 | `rstrip('/')`: the result has no trailing `/`, and the input is the result followed only by `/` characters |
| Text.NatToString | src/mcp_bridge.py:126-128 | a number renders as a non-empty string of decimal digits |
| Text.NatToStringValue | src/mcp_bridge.py:126-128 | the rendered digits, read back in base ten, are the number itself |
| Dicts.Get | src/mcp_http_server.py:510 | `d.get(k)` is None exactly when `k` is not a key, and otherwise the value stored under `k` |
| Dicts.Put | src/mcp_http_server.py:397-399 | `d[k] = v` keeps key order (a new key goes last), stores `v` under `k` and leaves every other key's value alone |
| Dicts.PutPut | src/mcp_http_server.py:504-507 | storing twice under one key is the same as storing the second value alone |
| Dicts.PutEachGet | src/mcp_http_server.py:393-407 | the store loop keeps a key exactly when some item writes it, and its value is the one the last such item wrote |
| Dicts.PutEachKeys | src/mcp_http_server.py:393-407 | the store loop's keys are the written keys, deduplicated, in order of first write |
| Dicts.AppendEachGet | src/mcp_http_server.py:510-519 | the grouping loop's list under a key holds every value written to it, in order, and is present exactly when one was written |
| Dicts.AppendEachKeys | src/mcp_http_server.py:510-511 | the grouping loop's keys are the written keys in order of first write |
| NutrientClassifier.CategoryOf | src/mcp_http_server.py:396-408 | a nutrient id is a macro, vitamin or mineral exactly when it is in that table; anything else is other |
| NutrientClassifier.TablesDisjoint | src/mcp_http_server.py:360-383 | the macro, vitamin and mineral id tables are pairwise disjoint |
| NutrientClassifier.Classified | src/mcp_http_server.py:408-413 | `other_nutrients` is the first min(10, n) of the n unclassified entries, in input order |
| NutrientClassifier.ClassifyNutrients | src/mcp_http_server.py:385-413 | the categorisation loop computes the classified nutrition of the records |
| NutrientClassifier.ClassifiedStep | src/mcp_http_server.py:387-413 | the summary of one more record is what one more pass of the loop does to the summary so far |
| NutrientClassifier.BucketEntry | src/mcp_http_server.py:392-407 | a bucket has an entry under a name iff some record with an amount, that category and that name exists; the entry carries that name, and its amount and unit come from the last such record |
| NutrientClassifier.BucketNames | src/mcp_http_server.py:396-407 | a bucket's names are those of its records, in order of first appearance |
| NutrientClassifier.OtherDataFromRecords | src/mcp_http_server.py:392-413 | every `other_nutrients` entry comes from an unclassified record that has an amount; a record with amount None never appears |
| NutrientClassifier.OtherKept | src/mcp_http_server.py:392-413 | every unclassified record with an amount contributes its entry, at the position after the earlier such records; it is in `other_nutrients` exactly when that position is below 10 |
| NutrientClassifier.OtherOrder | src/mcp_http_server.py:392-413 | the entries keep the order of their records |
| NutrientClassifier.ProteinAndMystery | src/mcp_http_server.py:385-413 | protein (id 1003) lands in the macronutrients, and an unknown id lands in `other_nutrients` |
| ComparisonPivot.ComparisonOf | src/mcp_http_server.py:461-471 | one summary per fetched food, in order, carrying each food's description; `total_foods_compared` equals the number of foods |
| ComparisonPivot.CreateThenAppend | src/mcp_http_server.py:510-513 | creating a missing row and then appending to it is one grouping step |
| ComparisonPivot.AppendRow | src/mcp_http_server.py:510-519 | the row update appends the cell under its heading |
| ComparisonPivot.PivotFood | src/mcp_http_server.py:487-519 | the inner loop fills the food's summary nutrients and appends its key-nutrient cells to the table |
| ComparisonPivot.BuildComparison | src/mcp_http_server.py:461-521 | the pivot loop computes the comparison of the fetched foods |
| ComparisonPivot.TableRow | src/mcp_http_server.py:495-519 | a heading's row exists iff some record of some food carries that key nutrient; it holds one cell per such record in food order, and a repeated id appends again |
| ComparisonPivot.TableOrder | src/mcp_http_server.py:510-511 | a row is created when its heading first occurs, so the rows follow the order of first occurrence across the foods' records |
| ComparisonPivot.TableHeadings | src/mcp_http_server.py:474-500 | rows exist only under the eight key nutrient labels |
| ComparisonPivot.SummaryEntry | src/mcp_http_server.py:495-507 | a food summary lists a heading iff one of its records carries it; amount and unit come from the last such record, defaulting to 0 and "" |
| HttpServer.TotalResults | src/mcp_http_server.py:303-304 | `total_results` is `totalPages * pageSize`, each defaulting to 0; a stored null is the error |
| HttpServer.SearchFoods | src/mcp_http_server.py:279-324 | at most 10 foods in upstream order, renamed; the total and page come from the payload; no foods gives the inner "No foods found" data inside a successful envelope; an exception gives "Search failed: ..." |
| HttpServer.GetFoodNutrition | src/mcp_http_server.py:330-428 | the summary holds the food info and the classified nutrients, with the "Retrieved nutrition data for ..." message; an exception gives "Failed to get nutrition data: ..." |
| HttpServer.Fetched | src/mcp_http_server.py:443-451 | the fetched foods are at most the ids; none iff every fetch failed; all of them, in order, when none failed |
| HttpServer.FetchedComplete | src/mcp_http_server.py:443-451 | every successful fetch contributes its food, at the position after the foods of the earlier successful fetches |
| HttpServer.FetchedOrder | src/mcp_http_server.py:443-451 | the foods keep the order of their ids |
| HttpServer.FetchedFromOutcomes | src/mcp_http_server.py:443-451 | every fetched food is the food of a successful fetch, at that fetch's position |
| HttpServer.CompareFoods | src/mcp_http_server.py:431-536 | more than 5 ids fail with "Failed to compare foods: ..." before any fetch; otherwise every id is fetched in order, each call with its own outcome; zero successes fail with "No valid food data found for comparison"; otherwise the comparison of the fetched subset |
| HttpServer.ComparedFoods | src/mcp_http_server.py:443-521 | the comparison has one summary per fetched food, in id order, every successful fetch has its summary at its position, and `total_foods_compared` counts them |
| HttpServer.ValidatedCompareWithinLimit | src/mcp_http_server.py:435-438 | parameters that pass validation never reach the handler's five-food limit |
| UsdaClient.Outcome | src/usda_client.py:73-87 | a reply is decoded exactly when it arrived with a 2xx status; a transport failure or another status is an error |
| UsdaClient.ClampPageSize | src/usda_client.py:98 | the page size sent is `min(page_size, 200)` |
| UsdaClient.UsdaClient.constructor | src/usda_client.py:23-26 | the key comes from the environment, the base URL is fixed and there is no session |
| UsdaClient.UsdaClient.Initialize | src/usda_client.py:28-43 | a session is created exactly when the key is truthy, with the base URL, the 30-second timeout and the three headers |
| UsdaClient.UsdaClient.HealthCheck | src/usda_client.py:55-65 | false without a request when the client is not configured; otherwise one probe search, true iff it answered 200 |
| UsdaClient.UsdaClient.MakeRequest | src/usda_client.py:67-87 | an unconfigured client fails with "USDA client not configured - missing API key" before sending; otherwise it sends the request and returns its outcome |
| UsdaClient.UsdaClient.SearchFoods | src/usda_client.py:89-107 | the body carries the query, the clamped page size and the page number unchanged, and `dataType` iff the list is truthy |
| UsdaClient.UsdaClient.GetFoodDetails | src/usda_client.py:109-117 | GET `/food/{id}` with `{"format": format}` iff the format is truthy, empty params otherwise |
| UsdaClient.UsdaClient.GetMultipleFoods | src/usda_client.py:119-134 | more than 20 ids fail with "Maximum 20 foods can be requested at once" before sending; otherwise POST `/foods` with `{fdcIds, format}` |
| UsdaClient.StartClient | src/usda_client.py:23-53 | a client built and initialised from the environment is configured exactly when the key is truthy |
| McpServer.AnalyzeFood | src/mcp_server.py:177-190 | the nutrient loop for one food computes its analysis |
| McpServer.AnalyzeFoods | src/mcp_server.py:170-192 | `foods_analyzed` is the number of foods; `comparison` holds one analysis per food, in order |
| McpServer.AnalyzedEntry | src/mcp_server.py:183-190 | a nutrient is listed iff some record has that non-empty name and the filter is empty or contains it; its amount and unit come from the last such record |
| McpServer.AnalyzedUnfiltered | src/mcp_server.py:178-190 | without a filter every named nutrient is kept; a food without `foodNutrients` gets an empty map |
| McpServer.ToolServer.constructor | src/mcp_server.py:28 | there is no client yet |
| McpServer.ToolServer.GetClient | src/mcp_server.py:30-36 | the client is created and initialised only when there is none; afterwards the same client is returned |
| McpServer.ToolServer.SearchFoodsTool | src/mcp_server.py:38-76 | an omitted page size is 25 and an omitted page 1; an unconfigured client gives the "USDA API key not configured" error dict with nothing sent; otherwise the client's search, or "Search failed: ..." |
| McpServer.ToolServer.GetFoodDetailsTool | src/mcp_server.py:78-107 | an omitted format is "abridged"; the same guard, then the detail request with the format parameter or "Failed to get food details: ..." |
| McpServer.ToolServer.GetMultipleFoodsTool | src/mcp_server.py:109-141 | more than 20 ids give the error dict before the client is touched; an omitted format is "abridged"; otherwise the guard, then `{"foods": result}` or "Failed to get multiple foods: ..." |
| McpServer.ToolServer.AnalyzeNutritionTool | src/mcp_server.py:143-199 | more than 10 ids give the error dict before the client is touched; otherwise the guard, a full-format multiple-foods request, and one analysis per food, or "Nutrition analysis failed: ..." |
| RequestModels.ParseSearch | src/models/requests.py:8-13 | valid iff the query has at least one character, a given page size is in [1, 200] and a given page number is at least 1; defaults 25 and 1; each failing field is named |
| RequestModels.SearchRoundTrip | src/models/requests.py:8-13 | parsed search parameters are valid, and dumping valid parameters then parsing them gives them back |
| RequestModels.SearchPageSize | src/models/requests.py:12 | an omitted page size is 25, and a given one lies in [1, 200] |
| RequestModels.ParseFoodDetail | src/models/requests.py:15-18 | valid iff the id is positive and the format is "abridged" or "full" (or null); the format defaults to "abridged" |
| RequestModels.FoodDetailRoundTrip | src/models/requests.py:15-18 | parsed detail parameters are valid, and valid ones round-trip |
| RequestModels.ParseCompareFoods | src/models/requests.py:20-22 | valid iff there are between 2 and 5 ids |
| RequestModels.CompareFoodsRoundTrip | src/models/requests.py:20-22 | parsed compare parameters hold 2 to 5 ids, and valid ones round-trip |
| RequestModels.ParseAgentTest | src/models/requests.py:25-30 | valid iff the agent type is claude, openai or langchain and each API key is missing, null or at least 10 characters long |
| RequestModels.AgentTestRoundTrip | src/models/requests.py:25-30 | parsed agent parameters are valid, and valid ones round-trip |
| BridgeViews.SectionLines | src/mcp_bridge.py:144-151 | a nutrient section has one bullet per entry of its map and no numbered line |
| BridgeViews.SectionTitle | src/mcp_bridge.py:144-146 | a section shows its title exactly when its map is truthy |
| BridgeViews.AppendBulleted | src/mcp_bridge.py:206-207 | the bullet loop appends one "• " line per string |
| BridgeViews.AppendSection | src/mcp_bridge.py:144-151 | the section loop appends the title, one bullet per entry and the optional blank line, only when the map is truthy |
| BridgeViews.FoodBlockLines | src/mcp_bridge.py:128-131 | a food's block has its numbered heading, a brand line iff the brand owner is truthy, and one type line |
| BridgeViews.FoodBlocksNumbered | src/mcp_bridge.py:127-131 | the numbered lines of a listing are its headings |
| BridgeViews.HeadingsAt | src/mcp_bridge.py:127-128 | heading k is food k's, numbered k + 1 |
| BridgeViews.FoodBlocksPrefixed | src/mcp_bridge.py:127-131 | a listing has one brand line per branded food and one type line per food |
| BridgeViews.SearchListingLines | src/mcp_bridge.py:126-131 | with its header, the listing numbers the foods 1..n in order, and has a brand line per branded food and a type line per food |
| BridgeViews.AppendFoodBlock | src/mcp_bridge.py:128-131 | one iteration of the listing loop appends that food's block |
| BridgeViews.AppendFoodBlocks | src/mcp_bridge.py:127-131 | the listing loop appends every food's block, in order |
| McpBridge.FormatSearch | src/mcp_bridge.py:121-134 | the search rendering loop produces the search text |
| McpBridge.SearchRendering | src/mcp_bridge.py:121-134 | no foods gives the fixed message; otherwise foods are numbered 1..n in order, a brand line appears iff the brand owner is truthy, every food has a type line, and the text ends with the `get_food_nutrition` hint |
| McpBridge.FormatNutrition | src/mcp_bridge.py:136-173 | the nutrition rendering produces the header and the three sections |
| McpBridge.NutritionSections | src/mcp_bridge.py:144-171 | each of the macro, vitamin and mineral titles appears exactly when its map is truthy, with one bullet per entry of the three maps |
| McpBridge.AppendCompared | src/mcp_bridge.py:181-184 | the food-list loop appends one numbered line per food |
| McpBridge.AppendRowLines | src/mcp_bridge.py:187-193 | a nutrient row renders its heading, one bullet per item and a blank line |
| McpBridge.AppendRows | src/mcp_bridge.py:186-193 | the rows loop renders every nutrient row in key order |
| McpBridge.FormatCompare | src/mcp_bridge.py:175-195 | the comparison rendering produces the title, the food list and the rows |
| McpBridge.ComparedLinesAt | src/mcp_bridge.py:182-183 | food line k is "{k+1}. {description or 'Unknown'}" |
| McpBridge.RowLinesShape | src/mcp_bridge.py:186-193 | the rows hold one heading per nutrient in order, one bullet per item, and nothing numbered |
| McpBridge.CompareNumbered | src/mcp_bridge.py:181-184 | the numbered lines of a comparison are exactly its foods, numbered 1..n in order |
| McpBridge.CompareHeadings | src/mcp_bridge.py:186-187 | a comparison has one heading per nutrient key, in key order |
| McpBridge.CompareBullets | src/mcp_bridge.py:188-192 | a comparison has one bullet per item of its rows |
| McpBridge.AppendListed | src/mcp_bridge.py:204-214 | a suggestions or tips list renders its title, one bullet per element and a blank line, only when the list is truthy |
| McpBridge.FormatHelper | src/mcp_bridge.py:197-216 | the helper rendering produces the question line and both lists |
| McpBridge.HelperSections | src/mcp_bridge.py:202-214 | the suggestions and the tips titles each appear exactly when their list is truthy, with one bullet per element |
| McpBridge.ResponseText | src/mcp_bridge.py:118-220 | a compare reply with null foods fails (not iterable); any other tool name gets the JSON fallback |
| McpBridge.FormatResponse | src/mcp_bridge.py:118-220 | the dispatch renders the tool's text |
| McpBridge.NutritionMcpBridge.constructor | src/mcp_bridge.py:35-36 | the server URL is kept with every trailing '/' removed |
| McpBridge.NutritionMcpBridge.HandleCallTool | src/mcp_bridge.py:92-116 | posts to `{server_url}/tools/{name}`. A timeout, an HTTP error or a non-2xx status gives the timeout text or "🌐 HTTP Error: ...". A body that does not decode gives "💥 Error calling {name}: ...". `success` gives the rendering. Otherwise the text is "❌ Error: " + error, defaulting to "Unknown error occurred" |
| FinalMcpBridge.FormatSearch | examples/final_mcp_bridge.py:109-120 | the search rendering loop produces the search text |
| FinalMcpBridge.SearchRendering | examples/final_mcp_bridge.py:109-120 | no foods gives "🔍 No foods found. Try different search terms!"; otherwise the text is exactly the numbered listing, with brand lines iff truthy and a type line per food, and no hint |
| FinalMcpBridge.FormatNutrition | examples/final_mcp_bridge.py:122-154 | the nutrition rendering produces the name and the three sections, the last without a blank line |
| FinalMcpBridge.NutritionSections | examples/final_mcp_bridge.py:128-152 | each section title appears exactly when its map is truthy, with one bullet per entry |
| FinalMcpBridge.NutritionEnding | examples/final_mcp_bridge.py:146-154 | the report ends with a blank line exactly when there is no mineral section; with minerals, its last line is the last mineral's bullet |
| FinalMcpBridge.ResponseText | examples/final_mcp_bridge.py:107-158 | any tool other than `search_foods` and `get_food_nutrition` gets the JSON fallback; a search without foods gets the fixed message |
| FinalMcpBridge.FormatResponse | examples/final_mcp_bridge.py:107-158 | the dispatch renders the tool's text |
| FinalMcpBridge.HandleCallTool | examples/final_mcp_bridge.py:81-104 | posts to `http://localhost:8080/tools/{name}` and never checks the status. Any exception gives "💥 Error: ...". `success` gives the rendering. Otherwise the text is "❌ Error: " + error, defaulting to "Unknown error" |

## Left out

- HTTP and MCP plumbing is not modelled: the FastAPI app, middleware, CORS, the exception handler, startup and shutdown hooks, the stdio server runs and the `main` functions. Every httpx call is a parameter.
- The tenacity retry decorator on `_make_request` is not modelled, because it is a foreign library with invisible timing. Without `reraise`, it wraps the last failure in a `RetryError`, so the real exception text differs from the modelled one.
- Timestamps (`datetime.now`) in the envelope and health replies are left out.
- Health checks are covered only by the client's guard and status comparison, and the client's `close` is not modelled. Both are network-only.
- The demo endpoints of the HTTP server are not modelled. They rely on floating-point scores, float sorting and fixed prose.
- The static tool listings and input schemas of the servers and the bridges are left out, because they are constant data.
- Amounts are kept as pre-rendered text (`Amount`), since Python's number-to-string rendering is not modelled. A missing amount renders as "0".
- The `json.dumps` fallback of both bridges is an opaque function parameter.
- A JSON null stored under a key the source reads as a list or a dict is not modelled; such keys are either absent or present. This covers `foodNutrients`, `food_info`, `nutrition`, `nutrient_comparison`, the `data` of a bridge reply, and the `foods` of the reply that `search_foods` (src/mcp_server.py:71) measures for its log line, where Python would raise; there the tool would answer "Search failed: ..." instead of returning the reply. The one exception is the `foods` key the bridges iterate.
- The five-food limit of `compare_foods` reports the fixed text "Failed to compare foods: 400: Maximum 5 foods can be compared". That is the text FastAPI's `HTTPException` gives, and it is taken as given here.
- Pydantic's type coercion (e.g. "5" to 5) is left out: inputs are already typed, and a wrongly typed value counts as missing.
- The bridges' request body (`arguments or {}`) is not modelled; only the URL is.
- McpBridge.NutritionMcpBridge.HandleCallTool: the text of an httpx status error is a parameter of the reply (`statusError`) rather than httpx's own wording.
- Python exceptions raised while rendering are modelled only where the model's types allow them: a null `foods` in a comparison.
