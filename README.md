# ActoCrawler core, modelled in Dafny

ActoCrawler is a Swift web-crawling engine. Its core is one reducer (`Logic.swift`). The reducer owns the traversal state:
- `waitingURLs`: the URLs admitted and not yet completed;
- `totalVisitCount`: every request ever admitted.

It reacts to four actions:
- `visit(requests)`: the caller's initial batch;
- `_visit(request)`: filter one admitted request by domain and queue its crawl;
- `_didVisit`: a crawl returned follow-up requests and an output;
- `_didFailVisit`: a request was refused or its crawl threw.

Each reaction updates the state and returns effects:
- a `.didCrawl` event on the output channel;
- the channel close;
- follow-up `_visit` actions;
- a crawl run on a per-domain effect queue.

Around the reducer sit:
- the configuration (`CrawlerConfig`, with its domain filtering policy);
- the domain-to-queue table (`DomainQueueTable`), which picks the first pattern matching a host;
- the queue identity (`CrawlQueue`);
- the request types (`UserRequest`, and `Request`, which forwards `url` and `urlInfo` to its wrapped `UserRequest`).

How the model is built:

- Integer widths:
  - Swift's `UInt64` and `Int` are subset types of `int` with their ranges written out. Swift traps on overflow, so every arithmetic step in the model must be proved to stay in range.
  - The budget invariant `totalVisitCount <= maxTotalRequests` (`Logic.Inv`) is what keeps the subtraction `maxTotalRequests - totalVisitCount` in range.
  - `Int(clamping:)` is `Foundation.ClampToInt`.
- The reducer is specified twice:
  - as pure functions, `Logic.Step` and `Logic.DidFinishStep`, each returning the new state and the list of effects;
  - as the class `Logic.Store`, whose `DidFinish` and `Reduce` update `waitingURLs` and `totalVisitCount` in place, with the `for` loop of `didFinish` as a `while` loop. The class is proved to agree with the functions.
- Effects are values:
  - `SendDidCrawl` and `Finish` for the channel;
  - `NextAction` for an action fed straight back;
  - `RunQueued(queue, request)` for a crawl on a queue.
  - The body of a queued crawl is `Logic.RunQueuedTask`. It takes the cancellation check and the crawl outcome as inputs.
  - The channel is an event log plus a closed flag (`Logic.Channel`, `Logic.Deliver`). As with `AsyncChannel`, a send after the close is dropped.
- Regular expressions are an abstract engine (`Regex.Engine`):
  - whether a pattern compiles;
  - whether a compiled pattern has a match in a string starting at a given position. The engine sees the whole string, so anchors (`^`, `\b`, lookbehind) can depend on the text before that position.
  - `isRegexMatched` asks whether any match starts at some position of the host. A pattern that does not compile matches nothing.

Two behaviours of the code are kept as written and proved as such:
- **Depth limit.** When the parent is at the depth limit, the surviving follow-ups are:
  - still inserted into `waitingURLs` and counted;
  - never dispatched.
  So their URLs are removed only by the completion of some other request with the same URL, and until then the channel does not close. With `maxDepths == 1`, a root that returns one follow-up therefore leaves the stream open (`LogicProperties.DepthOneScenario`). One could read the design as closing the stream after the root's `.didCrawl`. The model follows the code.
- **Shared URLs.** `waitingURLs` is a set of URLs, not of requests. A completion forgets its URL even when another admitted request with the same URL is still running. If nothing else is waiting, the channel closes at once (`LogicProperties.SharedUrlForgottenByFirstCompletion`).

## Model

| member | source | states |
|---|---|---|
| Foundation.ClampToInt | Sources/ActoCrawler/Internal/Logic.swift:49 | `Int(clamping:)` of a `UInt64`: the value itself when it fits in `Int`, otherwise `Int.max`; never negative, never above the input |
| Regex.InvalidPatternNeverMatches | Sources/ActoCrawler/Internal/Regex.swift:3-9 | a pattern that fails to compile matches no string |
| Regex.IsRegexMatched | Sources/ActoCrawler/Internal/Regex.swift:3-9 | a string matches a pattern when the pattern compiles and some match starts at a position of the whole string; the engine sees the whole string, so anchored patterns are expressible |
| Regex.AnchorsAreExpressible | Sources/ActoCrawler/Internal/Regex.swift:5-6 | an engine can answer as `NSRegularExpression` does on `^a`: a match in "a", none in "ba" |
| Requests.UserRequestWithoutInfo | Sources/ActoCrawler/Request.swift:23-27 | `UserRequest(url:)` keeps the URL and sets `urlInfo` to `()` |
| Requests.NewRequest | Sources/ActoCrawler/Request.swift:45-50 | `Request(url:urlInfo:order:depth:)` exposes the same url, urlInfo, order and depth through forwarding |
| Requests.NewRequestWithoutInfo | Sources/ActoCrawler/Request.swift:52-57 | `Request(url:order:depth:)` exposes the url, order and depth, with `urlInfo == ()` |
| Requests.Request.Url | Sources/ActoCrawler/Request.swift:59-63 | the forwarded read of `url` is the wrapped `UserRequest`'s `url` |
| Requests.Request.UrlInfo | Sources/ActoCrawler/Request.swift:59-63 | the forwarded read of `urlInfo` is the wrapped `UserRequest`'s `urlInfo` |
| Requests.Request.SetUrl | Sources/ActoCrawler/Request.swift:59-67 | writing the forwarded `url` reads back the written value and leaves `urlInfo`, `order` and `depth` unchanged |
| Requests.Request.SetUrlInfo | Sources/ActoCrawler/Request.swift:59-67 | writing the forwarded `urlInfo` reads back the written value and leaves `url`, `order` and `depth` unchanged |
| Requests.ForwardedWritesCommute | Sources/ActoCrawler/Request.swift:59-67 | the two forwarded writes commute, and both together give the request built from the written values with the same order and depth |
| Requests.WriteWhatWasRead | Sources/ActoCrawler/Request.swift:59-67 | writing back the value just read changes nothing |
| CrawlQueues.CrawlQueue.EffectQueuePolicy | Sources/ActoCrawler/Internal/CrawlQueue.swift:39-42 | the policy is always run-oldest with `maxCount == maxConcurrency` and suspend-new on overflow |
| CrawlQueues.CrawlQueue.HashInput | Sources/ActoCrawler/Internal/CrawlQueue.swift:44-47 | `hash(into:)` feeds the domain alone to the hasher |
| CrawlQueues.CrawlQueue.SwiftEquals | Sources/ActoCrawler/Internal/CrawlQueue.swift:6-10 | the synthesized `==`: domain, concurrency and delay all agree |
| CrawlQueues.NewCrawlQueue | Sources/ActoCrawler/Internal/CrawlQueue.swift:23-32 | the public initialiser sets a non-nil domain, which is also the hash input, and stores the concurrency and exactly the delay passed in |
| CrawlQueues.DefaultQueue | Sources/ActoCrawler/Internal/CrawlQueue.swift:12-37 | `default` has no domain (hash input nil), `maxConcurrency == Int.max`, a constant delay of 0, and policy run-oldest(Int.max, suspend-new) |
| CrawlQueues.SameDomainSameHash | Sources/ActoCrawler/Internal/CrawlQueue.swift:44-47 | two queues built for the same pattern hash alike, whatever their concurrency or delay |
| CrawlQueues.EqualQueuesHashAlike | Sources/ActoCrawler/Internal/CrawlQueue.swift:6-47 | queues that are `==` under the synthesized equality have the same hash input, as `Hashable` requires |
| CrawlQueues.HashCollisionsAreNotEqual | Sources/ActoCrawler/Internal/CrawlQueue.swift:6-47 | the converse fails: two queues for the same pattern with different concurrency hash alike but are not `==` |
| CrawlQueues.ConfiguredQueueIsNotDefault | Sources/ActoCrawler/Internal/CrawlQueue.swift:23-37 | a configured queue never has the default queue's hash input, and is never `==` to the default queue |
| DomainQueueTables.RangedValue | Sources/ActoCrawler/DomainQueueTable.swift:47-51 | the ranged `Value` initialiser stores the concurrency and the range |
| DomainQueueTables.FixedValue | Sources/ActoCrawler/DomainQueueTable.swift:53-57 | the fixed-delay initialiser stores the single-point range `delay ... delay` |
| DomainQueueTables.FromDictionaryLiteral | Sources/ActoCrawler/DomainQueueTable.swift:63-74 | a literal needs distinct keys, and iterating the table yields the literal's entries in declaration order |
| DomainQueueTables.EmptyTable | Sources/ActoCrawler/DomainQueueTable.swift:63-66 | the literal `[:]` has no entries |
| DomainQueueTables.FirstMatch | Sources/ActoCrawler/DomainQueueTable.swift:25-27 | the index found is the first entry whose pattern matches the host; none is found only when no pattern matches |
| DomainQueueTables.QueueFor | Sources/ActoCrawler/DomainQueueTable.swift:28-32 | the queue for an entry has the pattern as its domain, the entry's concurrency, and a random delay over the entry's range |
| DomainQueueTables.BuildQueue | Sources/ActoCrawler/DomainQueueTable.swift:21-36 | no host gives the default queue; otherwise the first entry in order whose pattern matches gives its queue; no matching entry gives the default queue |
| DomainQueueTables.EmptyTableGivesDefault | Sources/ActoCrawler/DomainQueueTable.swift:21-36 | an empty table sends every URL to the default queue |
| DomainQueueTables.ChosenQueueComesFromTable | Sources/ActoCrawler/DomainQueueTable.swift:23-35 | a queue other than the default comes from an entry of the table whose pattern matches the URL's host (and the URL has a host) |
| DomainQueueTables.LaterEntriesIgnored | Sources/ActoCrawler/DomainQueueTable.swift:25-33 | once some entry matches, entries appended after it do not change the result |
| DomainQueueTables.FirstEntryWins | Sources/ActoCrawler/DomainQueueTable.swift:25-33 | a matching entry placed first overrides every later entry |
| CrawlerConfigs.DefaultConfig | Sources/ActoCrawler/CrawlerConfig.swift:27-44 | the defaults: `maxDepths` and `maxTotalRequests` are `UInt64.max`, the timeout is the greatest finite `Double`, the user agent is `"ActoCrawler"`, the policy is `.allDomains`, and the queue table is empty |
| CrawlerConfigs.DomainFilteringPolicy.IsDomainAllowed | Sources/ActoCrawler/CrawlerConfig.swift:60-72 | `allDomains` allows every host; `allowedDomains(S)` allows a host when some pattern of S matches it; `disallowedDomains(S)` when none does |
| CrawlerConfigs.AllDomainsAllowsEveryHost | Sources/ActoCrawler/CrawlerConfig.swift:62-64 | `allDomains` allows every host |
| CrawlerConfigs.AllowedAndDisallowedAreOpposite | Sources/ActoCrawler/CrawlerConfig.swift:66-70 | for the same patterns and host, the allow-list and the deny-list give opposite answers |
| CrawlerConfigs.EmptyPatternSets | Sources/ActoCrawler/CrawlerConfig.swift:66-70 | an empty allow-list refuses every host; an empty deny-list allows every host |
| CrawlerConfigs.MorePatternsMonotone | Sources/ActoCrawler/CrawlerConfig.swift:66-70 | more allowed patterns never refuse a host that was allowed; more disallowed patterns never allow a host that was refused |
| CrawlerConfigs.InvalidPatternIsInert | Sources/ActoCrawler/CrawlerConfig.swift:67-70 | adding a pattern that does not compile changes neither policy's answer: it admits nothing and blocks nothing |
| Logic.CutLength | Sources/ActoCrawler/Internal/Logic.swift:46-49 | the number of candidates kept never exceeds the candidates or the remaining budget; it is `min(count, maxTotalRequests - totalVisitCount)` whenever the count fits in `Int` |
| Logic.Survivors | Sources/ActoCrawler/Internal/Logic.swift:46-49 | the surviving candidates are a prefix of the candidates, fit in the remaining budget, and have length `min(count, maxTotalRequests - totalVisitCount)` whenever the count fits in `Int` |
| Logic.Forget | Sources/ActoCrawler/Internal/Logic.swift:41-44 | a real completion removes exactly its URL from the waiting set; the caller's batch removes nothing |
| Logic.UrlsOf | Sources/ActoCrawler/Internal/Logic.swift:51-54 | what inserting the survivors' URLs one by one adds to the waiting set (characterised by `LogicProperties.UrlsOfMembers`) |
| Logic.ParentDepth | Sources/ActoCrawler/Internal/Logic.swift:69 | `request?.depth ?? 0`: the caller's batch counts as the children of a depth-0 request |
| Logic.HostOf | Sources/ActoCrawler/Internal/Logic.swift:104 | `url.host ?? ""`: a URL without a host is filtered as the empty host |
| Logic.ChannelEffects | Sources/ActoCrawler/Internal/Logic.swift:59-67 | the channel effects: `.didCrawl(request, result)` first, present exactly when there are both a request and a result; then the close, present exactly when the run is finished |
| Logic.NextCrawls | Sources/ActoCrawler/Internal/Logic.swift:74-85 | one `_visit` per survivor, in order: survivor `i` gets order `totalVisitCount + i` and depth `parentDepth + 1` |
| Logic.Dispatches | Sources/ActoCrawler/Internal/Logic.swift:72-85 | the dispatches of a transition are all `_visit` actions |
| Logic.DidFinishStep | Sources/ActoCrawler/Internal/Logic.swift:35-90 | `didFinish` keeps the budget invariant, and the count grows by at most the number of candidates |
| Logic.VisitEffects | Sources/ActoCrawler/Internal/Logic.swift:103-129 | `_visit` yields exactly one effect (its content is stated by `LogicProperties.VisitRequestFilters`) |
| Logic.Step | Sources/ActoCrawler/Internal/Logic.swift:93-144 | every action keeps `totalVisitCount <= maxTotalRequests`, so the `UInt64` subtraction never underflows |
| Logic.RunQueuedTask | Sources/ActoCrawler/Internal/Logic.swift:115-129 | a cancelled crawl sends nothing and feeds back nothing; otherwise it sends `.willCrawl` and then feeds back `_didVisit` with the crawl's results, or `_didFailVisit` with `crawlFailed(error)` |
| Logic.Store.constructor | Sources/ActoCrawler/Internal/Logic.swift:18-24 | a fresh store has no waiting URLs, a count of 0, and satisfies the budget invariant |
| Logic.Store.InsertWaiting | Sources/ActoCrawler/Internal/Logic.swift:51-54 | the loop adds exactly the survivors' URLs to `waitingURLs` |
| Logic.Store.DidFinish | Sources/ActoCrawler/Internal/Logic.swift:35-90 | the in-place `didFinish` keeps the budget invariant, and its new state and effects are those of `DidFinishStep` |
| Logic.Store.Reduce | Sources/ActoCrawler/Internal/Logic.swift:93-144 | the in-place reducer keeps the budget invariant, and its new state and effects are those of `Step` |
| LogicProperties.BudgetedAdmission | Sources/ActoCrawler/Internal/Logic.swift:41-87 | the candidates are cut to their first `min(count, maxTotalRequests - totalVisitCount)`, in order; the count grows by exactly that number; the completed URL is forgotten and the survivors' URLs are remembered |
| LogicProperties.DispatchedChildren | Sources/ActoCrawler/Internal/Logic.swift:69-87 | below the depth limit each survivor is dispatched once, in order, with order `totalVisitCount + i` and depth `parentDepth + 1`; at or above the limit nothing is dispatched, yet the survivors are still counted |
| LogicProperties.StepDispatchOrders | Sources/ActoCrawler/Internal/Logic.swift:72-129 | any action dispatches requests numbered consecutively from the old count, and no more than the count grew by |
| LogicProperties.Run | Sources/ActoCrawler/Internal/Logic.swift:87 | along any sequence of actions the budget invariant holds and the count never decreases |
| LogicProperties.TraceOrdersIncreasing | Sources/ActoCrawler/Internal/Logic.swift:76-87 | across any sequence of actions the dispatched orders strictly increase (so they are distinct), lie between the old and the new count, and number at most the requests admitted |
| LogicProperties.UrlsOfSize | Sources/ActoCrawler/Internal/Logic.swift:52-54 | inserting `n` URLs adds at most `n` elements |
| LogicProperties.UrlsOfMembers | Sources/ActoCrawler/Internal/Logic.swift:51-54 | after the loop the inserted URLs are exactly the URLs of the survivors |
| LogicProperties.StepKeepsWaitingWithinCount | Sources/ActoCrawler/Internal/Logic.swift:20-87 | the waiting URLs never outnumber the requests admitted, as the comment on `totalVisitCount` says |
| LogicProperties.ChannelThenDispatches | Sources/ActoCrawler/Internal/Logic.swift:56-89 | in a transition's effects the close is present exactly when finished, and then nothing is dispatched; `.didCrawl` comes before the close, and is present exactly for a real completion |
| LogicProperties.FinishExactlyWhenIdle | Sources/ActoCrawler/Internal/Logic.swift:56-129 | the channel is closed exactly when a `visit`, `_didVisit` or `_didFailVisit` leaves no waiting URL and admits nothing; `_visit` never closes it; the close follows any `.didCrawl` and comes with no dispatch |
| LogicProperties.DidCrawlOnlyForCompletions | Sources/ActoCrawler/Internal/Logic.swift:60-143 | `.didCrawl` is sent exactly for `_didVisit` and `_didFailVisit`, never for the initial batch, and carries the request with its output or error |
| LogicProperties.FailedVisitHasNoChildren | Sources/ActoCrawler/Internal/Logic.swift:41-143 | a failed visit forgets its URL, admits and dispatches nothing, and reports the failure |
| LogicProperties.SharedUrlForgottenByFirstCompletion | Sources/ActoCrawler/Internal/Logic.swift:41-56 | a completion removes its URL from the set even if another request with that URL is in flight, and can close the channel |
| LogicProperties.DepthCutoffKeepsUrls | Sources/ActoCrawler/Internal/Logic.swift:52-87 | at the depth limit the survivors are remembered and counted but not dispatched, and if any survived the channel stays open |
| LogicProperties.IdleEmptyVisitFinishes | Sources/ActoCrawler/Internal/Logic.swift:56-101 | `visit([])` on an idle crawler changes nothing and closes the channel |
| LogicProperties.VisitRequestFilters | Sources/ActoCrawler/Internal/Logic.swift:103-129 | `_visit` leaves the state alone; a refused host gives `_didFailVisit(request, domainNotAllowed(url.host ?? ""))` with no queued crawl; an allowed host gives a crawl queued on the table's queue for the URL |
| LogicProperties.WillCrawlThenDidCrawl | Sources/ActoCrawler/Internal/Logic.swift:59-143 | on an open channel, a queued crawl that starts puts `.willCrawl` on the channel, and the completion it feeds back then puts `.didCrawl` for the same request (output, or `crawlFailed(error)`); a cancelled one sends nothing |
| LogicProperties.ClosedChannelKeepsLog | Sources/ActoCrawler/Internal/Logic.swift:59-67 | once the channel is closed no later effect changes it: a `.didCrawl` sent after an early close is lost |
| LogicProperties.VisitRootBatch | Sources/ActoCrawler/Internal/Logic.swift:69-101 | one request on a fresh crawler is admitted and dispatched as order 0, depth 1 |
| LogicProperties.BudgetOfOneScenario | Sources/ActoCrawler/Internal/Logic.swift:46-136 | with a budget of one, the root is dispatched; when it completes with five follow-ups, none is admitted, `.didCrawl` is sent and the channel closes |
| LogicProperties.DepthOneScenario | Sources/ActoCrawler/Internal/Logic.swift:52-136 | with a depth limit of one, the root's follow-up is counted and stays waiting but is never dispatched, and the channel is not closed |

## Left out

- The effect runtime: how a `runOldest`/`suspendNew` queue schedules crawls, the random-delay sleep and task cancellation live in the Actomaton library, which is not part of this model. A queued crawl is the value `RunQueued(queue, request)`. Its body is `Logic.RunQueuedTask`, with cancellation as a boolean input.
- Concurrency: transitions are sequential, as the reducer guarantees. The interleaving of concurrent crawls is not modelled.
- The event channel (`AsyncChannel`): it is an event log plus a closed flag, and a send after the close is dropped. Suspension of a sender until the consumer reads is not modelled.
- Crawler.swift: the `Task`/actor wiring and the public `visit` overloads are glue around the reducer, and are not part of this model.
- Environment.swift: it captures the crawl operation in a closure. The operation's outcome is an input to `Logic.RunQueuedTask` (`CrawlOutcome`).
- The HTTP and parsing layer: NetworkSession.swift, Crawler.htmlScraper.swift and Response.swift wrap URLSession, `HTTPURLResponse`, text decoding and SwiftSoup, which are foreign code.
- `NSRegularExpression`: the engine is abstract (`Regex.Engine`). Only "a pattern that does not compile never matches" and "a match is a match starting at some position of the whole string" are stated.
- `timeoutPerRequest` and the delay ranges are `Double` values. They are stored and passed on, never computed with.
- `URL`: only `host` is read, so a URL is its host plus an opaque remainder.
- Hashing: the `Hasher` is not modelled. `CrawlQueue.HashInput` is the value fed to it, the domain.
- The `Request` key-path subscript: it is modelled as one setter per key path of `UserRequest` (`url`, `urlInfo`), since those are its only writable members.
- Logic.Dispatches: its contract states only that every dispatch is a `_visit`. The numbering and depths are stated by `Logic.NextCrawls`, and for whole transitions by `LogicProperties.DispatchedChildren`.
- Logic.VisitEffects: its contract states only that there is one effect. Which effect it is, is stated by `LogicProperties.VisitRequestFilters`.
- Logic.DidFinishStep: its own contract states the budget and bounds. The full content is stated by `LogicProperties.BudgetedAdmission`, `DispatchedChildren`, `FinishExactlyWhenIdle` and `DidCrawlOnlyForCompletions`.
