# Firecrawl MCP server — a Dafny model

The Firecrawl MCP server exposes Firecrawl's web-scraping API as Model Context
Protocol tools. An MCP client calls a tool by name with JSON arguments. The
server (`src/index.ts`) dispatches two tools, `scrape_url` and `search_content`.
It checks the arguments with its own guard, posts them once to `/scrape` or
`/search`, and answers with one text content block that holds the response body.
The repository also holds tool classes for scrape, search, crawl, map and
extract. Each has a `validate` and an `execute`, which posts to `/scrape`,
`/search`, `/crawl`, `/map` or `/extract` under a retrying executor
(`retryRequest`). The server imports none of these classes, so their `execute`
and the retry executor are not reachable from it. The model covers both the
server and the tool classes:

- the JSON values involved, and the few JavaScript operations applied to them: `typeof`, member access, truthiness, and template-literal conversion (module `JsonValues`);
- a small shape language for what each `validate` checks, with generic facts about it (module `ArgShapes`);
- error classification, the retry decision, the exponential backoff delay, and the retry executor as a loop checked against a reference function (module `ErrorHandling`);
- the common `execute` of every tool: post under the retry executor, then wrap the body (module `ToolEnvelope`);
- each tool's `validate` and its private logic:
  - `shouldCrawl` (module `CrawlTool`);
  - `formatTree` (module `MapTool`);
  - `processUrl` and `processBatch` (module `ExtractTool`);
  - `processResults` (module `SearchTool`);
  - the scrape tool has no private logic (module `ScrapeTool`);
- the shared type guards (module `TypeGuards`);
- the server's own guards and its CallTool handler (module `Server`).

I/O is turned into parameters:
- the HTTP server is a function from the request and the call number to the outcome of that call;
- waiting on a timer is recorded as a list of the delays that were waited.

Notes on the source:
- A failed HTTP request with no response, such as a reset connection, is classified as `InternalError` "API error: …".
- The server's CallTool handler posts only once, without the retry executor, and it dispatches only `scrape_url` and `search_content`. Its errors are "Firecrawl API error: …" messages and do not go through `handleError`.
- The tools' `execute` methods never call `processResults` or `processBatch`, and the model keeps that: the two are modelled on their own.
- `shouldCrawl` is never called either.

## Model

| member | source | states |
|---|---|---|
| ErrorHandling.HandleError | src/error-handling.ts:55-98 | An HTTP-client failure is InvalidParams exactly for status 400/401, and InvalidRequest exactly for 404/429. The message ends with the API's detail. A plain Error keeps its message as InternalError. Anything else is InternalError "An unknown error occurred". MethodNotFound never results. |
| ErrorHandling.HandleErrorTable | src/error-handling.ts:67-90 | The exact code and message prefix for each status: 429, 401, 400, 404, and every other status or no response. |
| ErrorHandling.ApiMessage | src/error-handling.ts:62-65 | With no response the detail is the client's message. Otherwise it is the client's message, or the string form of a truthy body `message`, or the string form of a truthy body `error`. |
| ErrorHandling.ApiMessagePrecedence | src/error-handling.ts:64-65 | A truthy body `message` wins, converted to a string. Otherwise a truthy body `error` wins. Otherwise the client's message is used. A present but falsy member (`""`, `null`, `0`, `false`) is skipped. |
| ErrorHandling.EmptyMessageFallsThrough | src/error-handling.ts:64-65 | `{message: "", error: "bad"}` gives the detail "bad". |
| ErrorHandling.HandleErrorExamples | src/error-handling.ts:55-98 | 429 with a body message gives "Rate limit exceeded: slow down". 404 without a body falls back to the transport message. A reset connection without a response gives "API error: …". A plain Error keeps its message. |
| ErrorHandling.IsTransient | src/error-handling.ts:113-119 | Only HTTP-client errors are transient. A reset or timed-out connection always is. A response with a status other than 429 or 500 and no such code never is. |
| ErrorHandling.ShouldRetry | src/error-handling.ts:103-123 | Retry exactly when the retry count is below maxRetries and the failure is an HTTP-client error with status 429 or 500, or with code ECONNABORTED or ECONNRESET. |
| ErrorHandling.ShouldRetryLimits | src/error-handling.ts:103-123 | Nothing is retried once the budget is spent. A non-HTTP failure is never retried. Neither is an HTTP failure with another status and no code. |
| ErrorHandling.CalculateRetryDelay | src/error-handling.ts:128-135 | The delay is at most maxBackoff and at most retryDelay·multiplier^(n-1). It equals one of the two. |
| ErrorHandling.DelayMonotonic | src/error-handling.ts:128-135 | With a multiplier of at least 1, a later retry never waits less than an earlier one. |
| ErrorHandling.DefaultDelays | src/error-handling.ts:38-44 | Under the default configuration the delays of retries 1..5 are 1000, 2000, 4000, 8000 and 8000 ms. |
| ErrorHandling.Run | src/error-handling.ts:144-170 | The executor's reference semantics. Every run makes at least one call, waits once fewer than it calls, and stays within the retry budget. A success on the current call ends the run at once. |
| ErrorHandling.RunRetries | src/error-handling.ts:157-166 | A retried failure costs one call and one backoff delay, for retry number count+1, before the rest of the run. |
| ErrorHandling.RetryRequest | src/error-handling.ts:140-171 | The loop's result, its number of calls and its list of delays equal those of the reference executor `Run` from retry count 0. |
| ErrorHandling.RunShape | src/error-handling.ts:140-171 | Every run makes at least one call and stays within the budget. It has one scheduled delay between consecutive calls. Every call but the last is a retried failure. The result comes from the last call: its value, or its classified error when that failure is not retried. |
| ErrorHandling.RetryFirstSuccess | src/error-handling.ts:147-149 | A first-call success is returned unchanged after one call and no delay. |
| ErrorHandling.RetryFailsFast | src/error-handling.ts:150-155 | A non-transient first failure is thrown, classified, after one call and no delay. |
| ErrorHandling.RetryBudget | src/error-handling.ts:140-171 | For any operation: 1 to maxRetries+1 calls, one delay fewer than calls, delay i is the schedule's (i+1)-th, and none exceeds maxBackoff. |
| ErrorHandling.RetryExhaustion | src/error-handling.ts:147-170 | An operation that always fails transiently is called maxRetries+1 times with the scheduled delays in between. The last failure is the one thrown. |
| ErrorHandling.ExhaustionExample | src/error-handling.ts:140-171 | With maxRetries 2 and a server that always answers 500 there are three calls, ending in an InternalError. |
| ToolEnvelope.Envelope | src/tools/scrape.ts:134-141 | The tool result is exactly one "text" content block holding the response body. |
| ToolEnvelope.Execute | src/tools/scrape.ts:128-142 | Every call posts the arguments unchanged to the tool's endpoint. Calls and delays are those of the retry executor. A success is answered with the envelope of the body, a final failure with the executor's error. |
| ScrapeTool.Execute | src/tools/scrape.ts:128-142 | Same as ToolEnvelope.Execute, for `/scrape`. |
| ScrapeTool.Validate | src/tools/scrape.ts:147-178 | Accepts exactly the non-null objects (arrays included) with a string `url`. An optional `jsonOptions` must be a non-null object with a string `prompt`. An optional `formats` must be an array of strings. |
| ScrapeTool.ValidateExamples | tests/tools/scrape.test.ts:142-158 | `{}` and `{formats: ["markdown"]}` are rejected. An object with just a string url is accepted. |
| ScrapeTool.ValidateComplexExample | tests/tools/scrape.test.ts:160-176 | The complex test arguments are accepted. `mobile` and `location` are not looked at. |
| SearchTool.Execute | src/tools/search.ts:88-102 | Same as ToolEnvelope.Execute, for `/search`. |
| SearchTool.Validate | src/tools/search.ts:107-135 | Accepts exactly the non-null objects with a string `query`. An optional `scrapeOptions` must be a non-null object whose optional `formats` is an array of strings. An optional `limit` must be a number. |
| SearchTool.LimitRangeNotEnforced | src/tools/search.ts:54-59 | A `limit` outside the advertised 1..100, such as 0 or 1000, is accepted. |
| SearchTool.ProcessResults | src/tools/search.ts:141-151 | For "markdown" (the default) each result becomes an object with only title/url/snippet/content. Those members are copied from the result, in the same order and the same number. A null result makes the projection throw. Any other format returns the results unchanged. |
| SearchTool.Project | src/tools/search.ts:143-148 | The projected result is an object with no member beyond title/url/snippet/content. Each of those four reads as it does on the result. |
| SearchTool.ProcessResultsIdempotent | src/tools/search.ts:141-151 | Processing already-processed results changes nothing. |
| CrawlTool.Execute | src/tools/crawl.ts:94-108 | Same as ToolEnvelope.Execute, for `/crawl`. |
| CrawlTool.Validate | src/tools/crawl.ts:113-160 | Accepts exactly the non-null objects with a string `url`. Each optional member must have its type: `maxDepth` and `limit` numbers, `excludePaths` and `includePaths` string arrays, `webhook` a string. |
| CrawlTool.Includes | src/tools/crawl.ts:184-188 | `s.includes(p)` holds exactly when p occurs in s at some position. |
| CrawlTool.ShouldCrawl | src/tools/crawl.ts:179-193 | A URL is crawled exactly when no exclude pattern occurs in it and, if a non-empty include list is given, some include pattern occurs in it. |
| CrawlTool.ExclusionWins | src/tools/crawl.ts:184-186 | A URL matching an exclude pattern is never crawled, whatever the include list. |
| CrawlTool.EmptyIncludeUnrestricted | src/tools/crawl.ts:188-190 | An absent or empty include list restricts nothing. |
| CrawlTool.EmptyPatternExcludesAll | src/tools/crawl.ts:184-186 | Excluding the empty pattern excludes every URL. |
| MapTool.Execute | src/tools/map.ts:91-105 | Same as ToolEnvelope.Execute, for `/map`. |
| MapTool.Validate | src/tools/map.ts:110-154 | Accepts exactly the non-null objects with a string `url`. Each optional member must have its type: `search` a string, `limit` and `timeout` numbers, `ignoreSitemap`, `sitemapOnly` and `includeSubdomains` booleans. |
| MapTool.Roots | src/tools/map.ts:162 | The roots are exactly the links without a (truthy) parent. |
| MapTool.ChildLinks | src/tools/map.ts:165 | The children of a URL are exactly the links naming it as parent. |
| MapTool.ChildLinksAppend | src/tools/map.ts:165 | Filtering keeps link order: the children in a+b are those in a followed by those in b. |
| MapTool.BuildNode | src/tools/map.ts:164-172 | The node keeps its URL. It has no `children` exactly when no link names it as parent; otherwise one child per such link, in order, with that link's URL. |
| MapTool.BuildNodeIsTree | src/tools/map.ts:164-172 | `buildNode` builds a site tree as defined independently by `IsTreeOf`. |
| MapTool.TreeUnique | src/tools/map.ts:164-172 | A site tree is determined by its root URL, so `buildNode`'s is the only one. |
| MapTool.TreeUrlsFromLinks | src/tools/map.ts:164-172 | Every URL in a site tree is the root's URL or the URL of a link that has a parent. |
| MapTool.FormatTree | src/tools/map.ts:160-179 | The keys are exactly the root links' URLs. Each entry is `buildNode` of its key. |
| MapTool.FormatTreeEntries | src/tools/map.ts:174-176 | Each entry is a site tree rooted at its key. |
| MapTool.FormatExample | src/tools/map.ts:160-179 | A home page with sections /a (holding /a/1) and /b gives the expected nested tree. |
| ExtractTool.Execute | src/tools/extract.ts:81-95 | Same as ToolEnvelope.Execute, for `/extract`. |
| ExtractTool.Validate | src/tools/extract.ts:100-139 | Accepts exactly the non-null objects whose `urls` is an array of strings. Each optional member must have its type: `prompt` a string, `schema` a non-null object, `enableWebSearch`, `ignoreSitemap` and `includeSubdomains` booleans. |
| ExtractTool.EmptyUrlsAccepted | src/tools/extract.ts:100-139 | An empty `urls` array is accepted. |
| ExtractTool.ErrorMessage | src/tools/extract.ts:166 | An Error yields its message. Anything else yields "Unknown error occurred". |
| ExtractTool.ProcessUrl | src/tools/extract.ts:145-169 | The result keeps the URL and carries an error exactly when the request failed. The data is the response body on success and `{}` on failure. It never throws. |
| ExtractTool.Batches | src/tools/extract.ts:187-188 | There are no batches exactly when there are no URLs. The first batch is the first `size` URLs, or all of them when there are fewer. Every batch holds 1..size URLs. |
| ExtractTool.BatchesFlatten | src/tools/extract.ts:187-188 | Concatenating the batches gives back the URL list: nothing is lost, repeated or reordered. |
| ExtractTool.BatchesSizes | src/tools/extract.ts:187-188 | Every batch holds 1..size URLs. Only the last may hold fewer than size. |
| ExtractTool.BatchesCount | src/tools/extract.ts:187-188 | The number of batches is ceil(n/size): (B-1)·size < n ≤ B·size, and 0 for no URLs. |
| ExtractTool.ProcessBatch | src/tools/extract.ts:175-204 | One result per URL, in input order, each `processUrl` of its URL. The batches are the defined slicing with default size 5. There is one pause, of the given delay or 1000 ms, after every batch but the last. Each batch is processed through the helper `ProcessEach`, which models `batch.map(processUrl)`: one result per URL, position for position. |
| ExtractTool.SevenUrlsExample | src/tools/extract.ts:187-188 | Seven URLs in batches of five are a batch of five, then one of two. |
| ExtractTool.DefaultBatchingExample | src/tools/extract.ts:184-188 | Twelve URLs at the default batch size make three batches. |
| TypeGuards.IsScrapeUrlArgs | src/types.ts:141-172 | The shared scrape guard accepts exactly what the scrape tool's `validate` accepts. |
| TypeGuards.IsSearchContentArgs | src/types.ts:174-204 | The shared search guard accepts exactly what the search tool's `validate` accepts. |
| TypeGuards.IsCrawlArgs | src/types.ts:206-213 | Accepts exactly the non-null objects with a string `url`. |
| TypeGuards.IsMapArgs | src/types.ts:215-222 | Accepts exactly the non-null objects with a string `url`. |
| TypeGuards.IsExtractArgs | src/types.ts:224-231 | Accepts exactly the non-null objects whose `urls` is an array of strings. |
| TypeGuards.CrawlGuardWeaker | src/types.ts:206-213 | Everything the crawl `validate` accepts passes the crawl guard. |
| TypeGuards.CrawlGuardStrictlyWeaker | src/types.ts:206-213 | A string `maxDepth` passes the guard but not `validate`. |
| TypeGuards.MapGuardWeaker | src/types.ts:215-222 | Everything the map `validate` accepts passes the map guard. |
| TypeGuards.MapGuardStrictlyWeaker | src/types.ts:215-222 | A string `limit` passes the guard but not `validate`. |
| TypeGuards.ExtractGuardWeaker | src/types.ts:224-231 | Everything the extract `validate` accepts passes the extract guard. |
| TypeGuards.ExtractGuardStrictlyWeaker | src/types.ts:224-231 | A null `schema` passes the guard but not `validate`. |
| ArgShapes.UnknownMemberIgnored | src/tools/scrape.ts:147-178 | Adding a member that a shape does not mention never changes the verdict. |
| ArgShapes.OptionalMemberRemovable | src/tools/scrape.ts:147-178 | Removing an optional member keeps conforming arguments conforming. |
| ArgShapes.IllTypedMemberRejected | src/tools/scrape.ts:147-178 | A present member of the wrong type is rejected. |
| ArgShapes.ConformsAppend | src/index.ts:63-77 | Checking the members of a+b is checking those of a and those of b. |
| ArgShapes.ConformsWeaken | src/types.ts:206-231 | Arguments of a stronger shape conform to any weaker shape it subsumes. |
| Server.IsScrapeUrlArgs | src/index.ts:63-77 | The server's scrape guard accepts exactly the present arguments that pass the scrape `validate` and whose optional `actions` is an array of strings and `blockAds` a boolean. |
| Server.ScrapeGuardShape | src/index.ts:63-77 | The server's scrape guard is the shape check over the scrape members plus `actions` and `blockAds`. |
| Server.ScrapeGuardStronger | src/index.ts:63-77 | The server's scrape guard implies the shared one. |
| Server.ScrapeGuardStrictlyStronger | src/index.ts:63-77 | A non-string action is rejected by the server's guard only. |
| Server.IsSearchContentArgs | src/index.ts:82-94 | The server's search guard accepts exactly the present arguments the shared search guard accepts. |
| Server.FirecrawlDetail | src/index.ts:241-249 | `response?.data.message ?? message`: a null body throws a TypeError. With no response the client's message is used. Otherwise a body `message` that is neither null nor undefined is the detail, converted with `String()`, and else the client's message is. |
| Server.FirecrawlDetailExamples | src/index.ts:241-249 | A body message is used, even an empty one. A null message or no response falls back to the client's message. A null body throws. |
| Server.Answer | src/index.ts:227-250 | The arguments are posted to the path once. A success is answered with the envelope of the body. An HTTP failure is rejected with InternalError "Firecrawl API error: " followed by the detail, or throws a TypeError when the body is null. Any other failure is rethrown unchanged. |
| Server.CallTool | src/index.ts:218-291 | A request is posted exactly when the name is scrape_url or search_content and its guard holds, to the matching path. InvalidParams "Invalid … arguments" is thrown exactly when the guard fails. MethodNotFound "Unknown tool: name" is thrown exactly for any other name. A posted request's outcome is that of `Answer` for the matching path. |
| Server.RejectedBeforePost | src/index.ts:218-291 | When nothing is posted the outcome is a rejection that does not depend on the server. |
| Server.AdvertisedToolsDispatched | src/index.ts:137-216 | Neither listed tool is ever answered with MethodNotFound. |

## Left out

- The MCP transport, stdio, startup (`run`), SIGINT handling, the SDK's `ListTools` schemas beyond the two advertised names, and configuration from environment variables. These are I/O and library code.
- Debug and console logging. It has no effect on results.
- Timers: a `setTimeout` wait is recorded as the delay, not waited.
- The concurrency of `Promise.all`: the batch is modelled as processed in URL order. Only the order of results is observable.
- JSON text: `JSON.stringify(data, null, 2)` is not modelled. A content block holds the JSON value itself.
- Numbers are integers. Floating point is not modelled.
- The SDK's "MCP error <code>:" prefix on error messages is not modelled.
- The request body that `processUrl` builds (`urls: [url]` plus prompt and schema) is not modelled. The outcome of the j-th URL's request is a parameter.
- `CrawlTool.normalizeUrl` (src/tools/crawl.ts:166-173, WHATWG URL parsing) and `MapTool.getSitemapUrls` (src/tools/map.ts:185-196, an HTTP GET plus regular-expression scraping of the XML) are not modelled. URL parsing and the network are outside the model.
- Member access sees only an object's own data members. `__proto__`, getters, and the built-in properties of strings and arrays (for example `length`) are not modelled.
- SearchTool.ProcessResults: `{title: result.title, ...}` keeps members whose value is `undefined`. The model leaves them out, as JSON serialisation does.
- ErrorHandling.CalculateRetryDelay: requires a retry count of at least 1, which every caller supplies. For 0 the source raises the multiplier to a negative exponent.
- ExtractTool.ProcessBatch: requires a batch size other than 0 unless there are no URLs. The source loops forever with size 0. Negative sizes cannot be expressed with `nat`.
- ExtractTool.Batches: has the same requirement as ProcessBatch.
- MapTool.BuildNode: requires a rank function under which every link ranks below its parent. The source recurses forever on a parent cycle. This requirement is stronger than acyclicity of the part reachable from the roots.
- MapTool.FormatTree: has the same requirement as BuildNode. A root URL that appears twice writes the same node twice, which the map keeps once.
- Server.FirecrawlDetail: a response whose `data` is `undefined` also throws in the source. The model's response always carries a JSON body.
