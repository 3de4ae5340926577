# Verified model of the React render gateway

The gateway renders pages on a server: it fetches JavaScript files, runs them in a JSDOM window, and
sends back what a callback registered by those files returns. This project models the code in which
order, sharing and failure matter, and proves what holds over every input and every run.

| module | models |
|---|---|
| `Lifecycle` | one render interleaved with timers, fetches and responses, up to and after its tidy-up task |
| `OwnFetches` | the render's own fetches among all those of its loader, and what awaiting them sees |
| `RenderTimers` | which timer callbacks run around a render |
| `ScriptSources` | where the scripts that a render executes come from, in any interleaving |
| `PlannedRender` | any interleaved render against the same render on its own |
| `EndToEnd` | the render handler around a render, from a request to its response |
| `Environment` | `render` and `_closeAll`: acquisition step by step, scripts, the callback, closing in reverse |
| `FileRetrieval` | `_retrieveTargetFiles`: fetching all files at once and waiting for them |
| `ResourceLoader` | the loader object: active flag, table of agents, requests in flight |
| `TimerGate` | patched timer functions, nested gates, the warning given once |
| `RequestsFromCache` | the cache label written on response objects that several requests share |
| `CacheLabels` | what the labels say when requests are interleaved |
| `SequentialRequests` | requests that run one at a time |
| `CacheContents` | what the cache holds over any run, and what each request finds |
| `Request` | the choice of a request, its trace session, and `abort` through wrapped promises |
| `ErrorExtraction` | the walk to a root cause over a graph of values that may be cyclic |
| `ErrorFormat` | replacing `{error}` in a page, with the dollar sequences of ECMA-262 |
| `RenderHandler` | the render handler and the error handler: one response for each request |
| `Regex`, `UrlFilters` | what the two tests for JavaScript URLs accept |
| `Connections` | the table of open connections and the shutdown |
| `Trace` | labels, memory differences and metadata of a trace session |
| `BuildFlowTypes` | collecting file names with one global regular expression |
| `Common` | small shared definitions |

Objects that the source updates in place are classes here. Their methods are proved against step
functions on values, and what the source promises is proved about runs of those functions. Whatever
code outside the gateway does (user scripts, closeables, handlers, the network, the cache plugin) is a
parameter or an event, so the results hold for all of it.

## What the code does not do

Some natural claims are false of the code. Each has a case that shows it and the exact condition.

- `extractError` guards against an error that is its own cause, and against no longer cycle
  (`TwoCycleIsEndless`); it ends if and only if the chain of causes never comes back to a value, and
  succeeds if and only if, besides, the value is not null or undefined (`ExtractableIff`).
- Extracting a result again keeps its error exactly when that is a non-empty string or the same as the
  stack (`ReextractionKeepsErrorIff`); extracting the empty string twice loses it (`EmptyErrorIsLost`).
- The comment of `formatError` promises that the formatted metadata replaces `{error}`. It does so in
  every format if and only if the text contains no dollar sign followed by one of four characters
  (`VerbatimIffNoPairs`, `DollarAmpersandIsNotVerbatim`).
- `_closeAll` catches what a `close` throws, but the report itself throws when that value cannot be
  extracted. Then nothing further is closed and the render never settles (`SettlesIff`); a user's
  closeable that throws null is enough (`EscapeIsReachable`). The exception is not caught anywhere: in a
  process that ends on such exceptions everything ends (`EscapeEndsProcess`), in one that survives them
  the loader and the gate stay open (`EscapeLeavesRenderOpen`).
- The render handler sends a body if and only if the render settles and has a result or a problem that
  can be reported; a good result is not enough (`Serve`, `AnsweredIff`, `GoodResultWithoutAnswer`). For a
  render that throws null it sends nothing and rejects, after which `next` is still called
  (`NullIsNeverAnswered`); a render that never settles leaves the trace open and `next` uncalled.
- With requests interleaved, a response's cache label is right if and only if no hit overtakes the
  request it hits (`LabelsAgreeIffNoOvertaking`, `OvertakingMislabels`); a cache that stores copies never
  labels a hit (`SerialisingCacheNeverLabelsHits`), as the source's own note says.
- The connection table is exact if and only if no two open connections share a key (`AlwaysExactIff`,
  `SharedKeyIsForgotten`).
- When `makeRequest` throws at once, the trace session of that request is never ended
  (`SessionsAreBalanced`, `ThrownRequestStaysOpen`), and `fetch` throws with a new agent left in the
  loader's table (`FetchThrowsIff`, `ThrowingRequestLeavesAgent`).
- `abort` on what the loader returned reaches the fetch's own request if and only if a custom result
  handler has not returned the same promise again later (`AbortReachesOwnRequestIff`,
  `ReusedPromiseRedirectsAbort`).
- The loader's comments say that it fetches JavaScript files only. Its pattern has no end anchor, so it
  also fetches `a.json` (`LoaderAcceptsIff`, `FetchedNeedNotBeCacheable`).

## Model

| member | source | states |
|---|---|---|
| Lifecycle.SafeAfterSettling | src/gateway/environments/jsdom-sixteen/jsdom-sixteen-environment.js:199-356 | over every interleaving of render steps, timers, fetches and settling requests: once a render has settled, no script and no callback set through a patched timer runs, no fetch makes an agent or a request, no agent is destroyed again, and each text that still comes is replaced by the empty one |
| RenderTimers.CallbacksRun | src/gateway/environments/jsdom-sixteen/patch-against-dangling-timers.js:35-50 | over every interleaving: the callbacks run are exactly those of the firings, in order, whose timer was set through a patched function and that come before the tidy-up task closes the gate, or after an escape that keeps it open in a process that survives |
| RenderTimers.OpenGateRuns | src/gateway/environments/jsdom-sixteen/patch-against-dangling-timers.js:36-40 | in every reachable state of every phase, a set timer that fires while the gate is open runs its callback |
| RenderTimers.WarnedOnce | src/gateway/environments/jsdom-sixteen/patch-against-dangling-timers.js:41-50 | over every interleaving: one warning if some set timer fires after the gate was closed, and none otherwise |
| RenderTimers.PatchedStep | src/gateway/environments/jsdom-sixteen/patch-against-dangling-timers.js:35-50 | what each event does to the gate, the callbacks run and the timers set |
| Lifecycle.FetchMakesRequest | src/gateway/environments/jsdom-sixteen/jsdom-sixteen-resource-loader.js:156-163 | in every phase with an open loader, a fetch of an accepted URL that does not throw adds exactly one request, on the agent of its protocol |
| Lifecycle.LoaderIsOpen | src/gateway/environments/jsdom-sixteen/jsdom-sixteen-environment.js:205-264 | in every reachable state before the end of the tidy-up, the loader and the gate are open from the moment they are there |
| Lifecycle.CallbackEndsBody | src/gateway/environments/jsdom-sixteen/jsdom-sixteen-environment.js:322-350 | how the callback settles is how the body ends: with its result, the error for a malformed one with its JSON, or what it rejects with |
| Lifecycle.ResultsComeFromCallbacks | src/gateway/environments/jsdom-sixteen/jsdom-sixteen-environment.js:322-350 | over every run: every result of a render is what the callback it was waiting for has given |
| Lifecycle.SettlesIff | src/gateway/environments/jsdom-sixteen/jsdom-sixteen-environment.js:134-161 | in every reachable state the tidy-up task settles the render, and seals loader and gate, if and only if no close throws a value that cannot be extracted; the ending is unchanged |
| PlannedRender.InterleavedRenderIsAsPlanned | src/gateway/environments/jsdom-sixteen/jsdom-sixteen-environment.js:199-356 | over every interleaving in which the code around the gateway behaves as planned: the list, the ending, the scripts and whether the render settles are those of the plan whose files are what `_retrieveTargetFiles` gives for the order in which the render's own fetches settled |
| PlannedRender.SurroundingsDoNotInterfere | src/gateway/environments/jsdom-sixteen/jsdom-sixteen-environment.js:199-356 | in two runs of one plan, one settled and the other over, whose own fetches settle alike, or all succeed in different orders, the phase, the ending, the scripts and what is left open are the same, whatever timers, other fetches and other responses there are |
| PlannedRender.RetrievalIs | src/gateway/environments/jsdom-sixteen/jsdom-sixteen-environment.js:96-122 | while the render awaits its fetches, the bookkeeping of the run says exactly what `_retrieveTargetFiles` gives so far: nothing yet, the first failure, or the files |
| PlannedRender.EveryRenderEndsOrHangs | src/gateway/environments/jsdom-sixteen/jsdom-sixteen-environment.js:199-356 | from every state that a run of the plan reaches, whatever the requests are answered with, a continuation ends the render if its plan has an ending, and otherwise takes it to a promise that by the plan never settles |
| PlannedRender.EveryRenderEnds | src/gateway/environments/jsdom-sixteen/jsdom-sixteen-environment.js:199-356 | when nothing that the plan awaits hangs, every run of it can be continued to its end |
| PlannedRender.NextSettles | src/gateway/environments/jsdom-sixteen/jsdom-sixteen-environment.js:97-120 | a render that is retrieving always has a fetch of its own whose settling takes it further, with one fetch less to wait for |
| ScriptSources.ScriptsAreOwnResponses | src/gateway/environments/jsdom-sixteen/jsdom-sixteen-environment.js:96-122 | over every interleaving: the scripts executed are files of the list in its order, each with the text of the first response to the render's own request for it, and none is executed when any of its own requests is rejected or unanswered |
| ScriptSources.RetrievalWaitsForOwn | src/gateway/environments/jsdom-sixteen/jsdom-sixteen-environment.js:97-120 | over every interleaving: the render's requests are distinct and for the listed URLs, and a render that is still retrieving has one that has not been answered, or a promise resolved from the start that has not had its turn |
| ScriptSources.DeliveredIsFirstAnswer | src/gateway/environments/jsdom-sixteen/jsdom-sixteen-resource-loader.js:164-189 | over every run of a render and its surroundings, a request delivers its first response, text or rejection, except that a text that comes after the loader was closed becomes no text |
| OwnFetches.StartingFetches | src/gateway/environments/jsdom-sixteen/jsdom-sixteen-environment.js:98-120 | fetching a list starts one new request for each accepted URL, in order up to the first fetch that throws; which one throws, and what, depends on the calls alone |
| OwnFetches.StartOfIs | src/gateway/environments/jsdom-sixteen/jsdom-sixteen-resource-loader.js:84-163 | which fetches start, and what the others throw: what parsing throws, the unsupported protocol by name, or what the request throws |
| OwnFetches.ContentsAreOwn | src/gateway/environments/jsdom-sixteen/jsdom-sixteen-environment.js:115-119 | when `Promise.all` is fulfilled, each content is what the file's own request delivered |
| OwnFetches.WaitsForOwn | src/gateway/environments/jsdom-sixteen/jsdom-sixteen-environment.js:97-120 | while it waits, some fetch of its own has not settled |
| OwnFetches.ResponseKeepsTracks | src/gateway/environments/jsdom-sixteen/jsdom-sixteen-environment.js:97-120 | a response to any request of the loader settles the render's own fetch for it, once, and no other |
| Lifecycle.TidyUpIs | src/gateway/environments/jsdom-sixteen/jsdom-sixteen-environment.js:139-160 | for every mix of closeables, which of loader, gate and hook are closed by the tidy-up task and when the render settles |
| Lifecycle.RunKeepsInv | src/gateway/environments/jsdom-sixteen/jsdom-sixteen-environment.js:199-356 | every run keeps: the list is a prefix of loader, window, gate, user's closeable and hook; loader and gate are open until the tidy-up; the retrieval has recorded exactly how its own requests settled; scripts are executed only with all files there; a settled render is sealed |
| Lifecycle.SettledIsQuiet | src/gateway/environments/jsdom-sixteen/jsdom-sixteen-environment.js:134-160 | from any settled state that satisfies the invariant, no later run does anything |
| Lifecycle.EndingIsKept | src/gateway/environments/jsdom-sixteen/jsdom-sixteen-environment.js:346-356 | the original result or error is preserved through tidy-up and whatever happens around it |
| Lifecycle.EscapeLeavesRenderOpen | src/gateway/environments/jsdom-sixteen/jsdom-sixteen-environment.js:140-154 | in a process that survives an uncaught exception: when the user's closeable throws a value that cannot be extracted, timers still run callbacks and fetches still make requests afterwards |
| Lifecycle.EscapeEndsProcess | src/gateway/environments/jsdom-sixteen/jsdom-sixteen-environment.js:134-154 | in a process that does not survive it, the tidy-up task ends everything, and nothing happens afterwards |
| Lifecycle.EscapeIsReachable | src/gateway/environments/jsdom-sixteen/jsdom-sixteen-environment.js:134-154 | a whole run from the start in which that happens, with a timer that runs its callback after the tidy-up task |
| Lifecycle.ThrowingNullEscapes | src/gateway/environments/jsdom-sixteen/jsdom-sixteen-environment.js:142-143 | a close that throws null is such a case |
| Environment.ClosesEverythingInReverse | src/gateway/environments/jsdom-sixteen/jsdom-sixteen-environment.js:135-154 | when nothing escapes: every close is called exactly once per push, in the reverse of acquisition order, and one error is logged per throw |
| Environment.ReachedIs | src/gateway/environments/jsdom-sixteen/jsdom-sixteen-environment.js:139-154 | otherwise exactly the entries from the last one whose error escapes to the end are reached |
| Environment.InClosed | src/gateway/environments/jsdom-sixteen/jsdom-sixteen-environment.js:139-154 | a particular closeable is closed if and only if it was pushed at or above the last escape |
| Environment.CloseFromEndMeaning | src/gateway/environments/jsdom-sixteen/jsdom-sixteen-environment.js:139-154 | the closing loop makes those calls, logs those errors, and removes the hook when the hook's closer is among them |
| Environment.RenderRun.CloseAll | src/gateway/environments/jsdom-sixteen/jsdom-sixteen-environment.js:128-163 | the loop over the list, counting down: the calls and errors of the specification, and an empty list if and only if the promise resolves |
| Environment.RenderRun.Prepare | src/gateway/environments/jsdom-sixteen/jsdom-sixteen-environment.js:199-294 | for every point at which the set-up fails or waits for ever, the list holds exactly what was acquired before it, and the error is the first one |
| Environment.RenderRun.RunScript | src/gateway/environments/jsdom-sixteen/jsdom-sixteen-environment.js:285-303 | a script that registers any number of values leaves the last one on the hook |
| Environment.RenderRun.RunScripts | src/gateway/environments/jsdom-sixteen/jsdom-sixteen-environment.js:301-303 | scripts run in list order up to the first that throws, and the hook holds the last value registered |
| Environment.RenderRun.Perform | src/gateway/environments/jsdom-sixteen/jsdom-sixteen-environment.js:301-350 | the callback runs at most once and only after all scripts; the result is checked; a callback that never settles leaves the body waiting |
| Environment.RenderRun.Render | src/gateway/environments/jsdom-sixteen/jsdom-sixteen-environment.js:187-357 | the whole render: its ending whatever the tidy-up does, the calls and errors of the tidy-up, no hook once the body is over, an empty list if it settles and everything acquired if it does not |
| Environment.AcquiredIs | src/gateway/environments/jsdom-sixteen/jsdom-sixteen-environment.js:205-294 | for every point at which the set-up fails or waits, the list of what has been acquired by then |
| Environment.EndingIs | src/gateway/environments/jsdom-sixteen/jsdom-sixteen-environment.js:205-294 | a set-up that fails rejects with its first failure, and waits at the first promise that never settles |
| Environment.HookIsClosed | src/gateway/environments/jsdom-sixteen/jsdom-sixteen-environment.js:290-294 | once installed the hook is always closed, whatever the other closeables do |
| Environment.TidyingUp | src/gateway/environments/jsdom-sixteen/jsdom-sixteen-environment.js:139-154 | the calls, the errors and the absent hook that the tidy-up of any plan leaves |
| Environment.ScriptsRunInListOrder | src/gateway/environments/jsdom-sixteen/jsdom-sixteen-environment.js:96-122 | for every order in which fetches settle: scripts run in file-list order; any fetch that fails or returns null rejects the render with no script run and no callback called; while one has not settled, nothing runs and nothing ends |
| Environment.CallbackIsLastRegistered | src/gateway/environments/jsdom-sixteen/jsdom-sixteen-environment.js:283-327 | the callback invoked is the last value registered over all scripts, and the render passes the check if and only if that value is a function |
| Environment.CallbackEndsRender | src/gateway/environments/jsdom-sixteen/jsdom-sixteen-environment.js:301-350 | with no script throwing and a function registered last, the render ends with a result if and only if its callback resolves to that result; otherwise with the malformed-result error and its JSON, with what the callback rejects with, or not at all |
| Environment.ScriptsEndAtThrow | src/gateway/environments/jsdom-sixteen/jsdom-sixteen-environment.js:301-303 | when script i is the first to throw, exactly the first i + 1 scripts run and the render rejects with what it throws |
| Environment.ScriptsAllRun | src/gateway/environments/jsdom-sixteen/jsdom-sixteen-environment.js:301-317 | when none throws all run, and when no function is registered last the render rejects with that error |
| Environment.EscapesIff | src/gateway/environments/jsdom-sixteen/jsdom-sixteen-environment.js:140-143 | a close ends the tidy-up if and only if it throws a nullish value or one whose chain of causes comes back to a value |
| Environment.CloseOneIs | src/gateway/environments/jsdom-sixteen/jsdom-sixteen-environment.js:140-153 | each close is called, and what it throws is logged with the extracted error and its text in the message |
| FileRetrieval.RetrievalMeaning | src/gateway/environments/jsdom-sixteen/jsdom-sixteen-environment.js:84-122 | for every order of settling: files in list order, each with the content its own fetch delivered, if and only if every fetch delivers; no files if and only if some fetch throws, returns null or fails |
| FileRetrieval.CollectedAreDelivered | src/gateway/environments/jsdom-sixteen/jsdom-sixteen-environment.js:97-120 | while nothing fails, the values collected are exactly those delivered |
| FileRetrieval.FirstFailureRejects | src/gateway/environments/jsdom-sixteen/jsdom-sixteen-environment.js:97-120 | the first failure in order of arrival decides the rejection |
| FileRetrieval.RetrievalErrorIs | src/gateway/environments/jsdom-sixteen/jsdom-sixteen-environment.js:84-122 | which error a retrieval rejects with: that of the list, of the first fetch that does not start, with the text for null, or of the first that fails |
| FileRetrieval.OrderOfArrivalIsIrrelevant | src/gateway/environments/jsdom-sixteen/jsdom-sixteen-environment.js:97-120 | two runs with the same successful settlements in different orders give the same files |
| FileRetrieval.RetrieveTargetFiles | src/gateway/environments/jsdom-sixteen/jsdom-sixteen-environment.js:64-126 | the method computes that retrieval, starts fetches in order up to the first that does not start, and ends its trace session once when it is over |
| ResourceLoader.NewLoaderRunIsSound | src/gateway/environments/jsdom-sixteen/jsdom-sixteen-resource-loader.js:84-108 | in every reachable state: live agents are exactly those in the table, one per supported protocol, none destroyed twice, every request's agent is the one for its protocol |
| ResourceLoader.EveryRunIsSound | src/gateway/environments/jsdom-sixteen/jsdom-sixteen-resource-loader.js:84-206 | fetches, responses, rejections and closings in any order keep that invariant |
| ResourceLoader.NothingSurvivesClose | src/gateway/environments/jsdom-sixteen/jsdom-sixteen-resource-loader.js:96-189 | for every run with a closing in it: all agents made before have been destroyed once; afterwards no agent, no request, no further destruction; a request still in flight yields no text, or its own rejection |
| ResourceLoader.ClosedLoaderIsInert | src/gateway/environments/jsdom-sixteen/jsdom-sixteen-resource-loader.js:114-176 | the same from any sound closed state |
| ResourceLoader.DeliveredAfterClose | src/gateway/environments/jsdom-sixteen/jsdom-sixteen-resource-loader.js:164-189 | a request in flight when the loader is closed yields its rejection as it is, and a text as no text |
| ResourceLoader.DeliveryMeaning | src/gateway/environments/jsdom-sixteen/jsdom-sixteen-resource-loader.js:164-189 | over every run, a fetch yields the first response to its request, text or rejection, except that a text that comes after the loader was closed becomes no text |
| ResourceLoader.FetchThrowsIff | src/gateway/environments/jsdom-sixteen/jsdom-sixteen-resource-loader.js:84-163 | a fetch throws if and only if the loader is active, accepts the URL and parsing, the agent or `request` throws; it changes nothing unless `request` throws, and then leaves the agent for the protocol in the table |
| ResourceLoader.AcceptedFetchRequests | src/gateway/environments/jsdom-sixteen/jsdom-sixteen-resource-loader.js:156-163 | an accepted fetch that does not throw adds one request with its URL, on the agent of its protocol, made if there was none, and changes nothing else |
| ResourceLoader.OtherFetchesLog | src/gateway/environments/jsdom-sixteen/jsdom-sixteen-resource-loader.js:110-154 | a fetch that is not made yields the empty buffer and one line of the log, or none for inline data after closing |
| ResourceLoader.ResponseLogs | src/gateway/environments/jsdom-sixteen/jsdom-sixteen-resource-loader.js:164-176 | a response logs that it is not used if and only if it is a text that comes after closing |
| ResourceLoader.ThrowingRequestLeavesAgent | src/gateway/environments/jsdom-sixteen/jsdom-sixteen-resource-loader.js:160-163 | a fetch whose `request` throws on a new loader leaves one agent and no request |
| ResourceLoader.GetAgentIsSound | src/gateway/environments/jsdom-sixteen/jsdom-sixteen-resource-loader.js:84-90 | getting an agent keeps the invariant and returns the agent in the table |
| ResourceLoader.CloseIsSound | src/gateway/environments/jsdom-sixteen/jsdom-sixteen-resource-loader.js:96-108 | closing keeps the invariant and leaves every agent destroyed exactly once |
| ResourceLoader.JSDOMSixteenResourceLoader.GetAgent | src/gateway/environments/jsdom-sixteen/jsdom-sixteen-resource-loader.js:84-90 | the object does what the specification says, with the agent object it returns in its table |
| ResourceLoader.JSDOMSixteenResourceLoader.Close | src/gateway/environments/jsdom-sixteen/jsdom-sixteen-resource-loader.js:96-108 | the loop over the keys, in any order, destroys each agent in the table once and empties it |
| ResourceLoader.JSDOMSixteenResourceLoader.Fetch | src/gateway/environments/jsdom-sixteen/jsdom-sixteen-resource-loader.js:110-206 | the reply and the new state of the specification, on every path, with the exit where `request` throws after the agent was entered |
| ResourceLoader.JSDOMSixteenResourceLoader.Respond | src/gateway/environments/jsdom-sixteen/jsdom-sixteen-resource-loader.js:164-189 | what a response or a rejection delivers and logs, depending on the flag at that moment |
| TimerGate.GateRunMeaning | src/gateway/environments/jsdom-sixteen/patch-against-dangling-timers.js:64-88 | over every sequence of openings, closings and firings: the callbacks run are exactly the firings made while open, in order; one warning if some firing was made while closed, and none otherwise |
| TimerGate.Replay | src/gateway/environments/jsdom-sixteen/patch-against-dangling-timers.js:64-88 | the three patched functions of one call do that |
| TimerGate.FireThroughPatches | src/gateway/environments/jsdom-sixteen/patch-against-dangling-timers.js:30-55 | for any number of patches on one object: the callback runs if and only if all gates are open; otherwise the earliest patch with a closed gate suppresses it and only its flag can change |
| TimerGate.Fire | src/gateway/environments/jsdom-sixteen/patch-against-dangling-timers.js:36-51 | the same for a callback in any nesting of wrappers |
| TimerGate.EarliestPatchIsOutermost | src/gateway/environments/jsdom-sixteen/patch-against-dangling-timers.js:33-53 | calling a function patched many times wraps the callback in all patches, earliest outermost |
| TimerGate.TwoPatchesNest | src/gateway/environments/jsdom-sixteen/patch-against-dangling-timers.js:33-53 | with two patches, the native timer is given the wrapper of the second inside that of the first |
| TimerGate.SuppressorIsFirstClosed | src/gateway/environments/jsdom-sixteen/patch-against-dangling-timers.js:36-51 | the wrapper that suppresses a callback is the outermost one with a closed gate |
| TimerGate.PatchAgainstDanglingTimers | src/gateway/environments/jsdom-sixteen/patch-against-dangling-timers.js:64-88 | the three functions share one new open gate and one new flag, around what was there before |
| CacheLabels.LabelsInAnyInterleaving | src/gateway/requests-from-cache.js:95-139 | over every interleaving of requests, arrivals, failures, completions and evictions: a response is labelled "from cache" exactly when an earlier handler saw the same object, and no two requests read "not from cache" from one object |
| CacheLabels.LabelsAgreeIffNoOvertaking | src/gateway/requests-from-cache.js:115-139 | the labels equal the hits if and only if no hit's handler runs before the handler of the request that fetched its object |
| CacheLabels.OvertakingMislabels | src/gateway/requests-from-cache.js:115-139 | a run in which a hit overtakes the request it hits: both labels are wrong |
| SequentialRequests.SequentialLabelsAreExact | src/gateway/requests-from-cache.js:95-139 | for every sequence of requests that run one at a time, with evictions between them, every label read equals whether the request was a hit |
| SequentialRequests.OneRequestSettles | src/gateway/requests-from-cache.js:72-144 | one request, cached or not, failing or not: what it reads, according to whether its URL is in the cache |
| CacheContents.CachedIff | src/gateway/requests-from-cache.js:95-112 | over every run: a URL is in the cache if and only if a response for it has been stored and not evicted since, and it holds the object of the last one |
| CacheContents.HitIffCached | src/gateway/requests-from-cache.js:95-139 | a request through the cache is a hit if and only if its URL is in it |
| CacheContents.EvictedIsFetched | src/gateway/requests-from-cache.js:95-112 | an evicted URL is fetched again |
| CacheContents.CompletionLabels | src/gateway/requests-from-cache.js:115-139 | a completion changes the tag of its own object only, to what its label says |
| CacheContents.ReadingShowsTag | src/gateway/requests-from-cache.js:19-20 | a reading shows the tag at the moment it is made |
| CacheLabels.SerialisingCacheNeverLabelsHits | src/gateway/requests-from-cache.js:85-89 | with a cache that stores copies, no response is ever labelled "from cache" |
| RequestsFromCache.RunKeepsInv | src/gateway/requests-from-cache.js:95-139 | every run keeps the relation between an object's tag and the number of handlers that have seen it |
| RequestsFromCache.CompleteCached | src/gateway/requests-from-cache.js:115-139 | after the handler, `isFromCache` holds if and only if the tag found was not the freshly pruned one |
| RequestsFromCache.CompleteUncached | src/gateway/requests-from-cache.js:44-50 | after the handler of an uncached request, `isFromCache` does not hold |
| RequestsFromCache.ServeMany | src/gateway/requests-from-cache.js:98-139 | a pruned object served any number of times: only the first handler labels it "not from cache" |
| Request.SessionsAreBalanced | src/gateway/request.js:42-59 | over every interleaving of requests: one session per request, ended once when its own request settles and not before, never if `makeRequest` threw, and labelled successful if and only if the request resolved |
| Request.ThrownRequestStaysOpen | src/gateway/request.js:42-44 | a request that throws at once leaves its session open whatever happens later |
| Request.AbortReachesOwnRequestIff | src/gateway/request.js:65-74 | over every sequence of fetches: aborting what a fetch returned reaches its own request through all promises around it if and only if no later fetch returned the same promise |
| Request.ReturnsOwnUnlessReused | src/gateway/environments/jsdom-sixteen/jsdom-sixteen-resource-loader.js:194-205 | a fetch returns a promise of its own unless its handler returns that of an earlier fetch |
| Request.ReusedPromiseRedirectsAbort | src/gateway/environments/jsdom-sixteen/jsdom-sixteen-resource-loader.js:194-205 | two fetches of which the second returns the promise of the first: aborting the first reaches the second |
| Request.RunFetchesInv | src/gateway/environments/jsdom-sixteen/jsdom-sixteen-resource-loader.js:194-205 | every promise returned so far aborts the request of the last fetch that returned it |
| Request.CachedIff | src/gateway/make-request.js:39-49 | a request goes through the cache if and only if there is a cache and the override says so, or it has no opinion and the URL has no line terminator and ends in `.js` or contains `.js?` |
| Request.CachedRequestsAreScripts | src/gateway/make-request.js:39-49 | without an override, only URLs that an active loader fetches are requested through the cache |
| ErrorExtraction.EndlessIffRevisits | src/shared/extract-error.js:25-27 | on every graph: the walk ends if and only if its chain never comes back to a value, and it then ends within as many moves as there are objects |
| ErrorExtraction.ExtractableIff | src/shared/extract-error.js:13-38 | extraction succeeds if and only if the value is not nullish and its chain never comes back to a value |
| ErrorExtraction.ExtractsAtFirstStop | src/shared/extract-error.js:13-38 | error and stack are both taken from the first value of the chain at which the walk stops |
| ErrorExtraction.ExtractionIs | src/shared/extract-error.js:13-38 | the result in the properties of the value at which the walk stops: its stack, and the text of its response's error, or what `toString` gives, or the stack when that is the generic text; a string gives itself and no stack |
| ErrorExtraction.ObjectStopsIff | src/shared/extract-error.js:18-27 | the walk stops at an object if and only if its response has an error text, or its `error` is falsy or the object itself; otherwise it goes to that `error` |
| ErrorExtraction.LongChainRevisits | src/shared/extract-error.js:25-27 | a chain longer than the number of objects comes back to a value |
| ErrorExtraction.RevisitNeverStops | src/shared/extract-error.js:25-27 | a chain that comes back to a value never ends |
| ErrorExtraction.TwoCycleIsEndless | src/shared/extract-error.js:25-27 | two objects that name each other never end, while an object that names itself does |
| ErrorExtraction.ReextractionKeepsErrorIff | src/shared/extract-error.js:29-37 | extracting a result again succeeds, and keeps the error if and only if it is a non-empty string or the same as the stack |
| ErrorExtraction.EmptyErrorIsLost | src/shared/extract-error.js:13-38 | extracting the empty string and then the result again loses the error |
| ErrorExtraction.RaisedIsExtractable | src/shared/ka-error.js:21-29 | the gateway's own errors are always extracted, as name and message |
| ErrorExtraction.KAErrorIsExtracted | src/shared/ka-error.js:21-29 | an error of the gateway is extracted with its kind in its name |
| ErrorFormat.FormatSubstitutesTokens | src/gateway/format-error.js:15-24 | for every format with a placeholder: text before the first one, the metadata with every dollar sequence given its meaning, text after it |
| ErrorFormat.FormatAtFirstPlaceholder | src/gateway/format-error.js:23 | only the first placeholder is replaced |
| ErrorFormat.FormatWithoutPlaceholder | src/gateway/format-error.js:20-23 | a format without the placeholder is returned unchanged; no format gives the metadata |
| ErrorFormat.ExpandIsMeaning | src/gateway/format-error.js:23 | the expansion equals the token-by-token meaning for every reading of the text |
| ErrorFormat.Reading | src/gateway/format-error.js:23 | every text has such a reading |
| ErrorFormat.VerbatimIffNoPairs | src/gateway/format-error.js:8-10 | the metadata appears unchanged in every format if and only if it contains none of the four dollar pairs |
| ErrorFormat.ExpandWithPairs | src/gateway/format-error.js:23 | a text with a pair is always changed when the surrounding texts are non-empty and do not begin with a dollar sign |
| ErrorFormat.ExpandAroundPair | src/gateway/format-error.js:23 | what a text around a pair becomes, for each of the four: a dollar sign, the placeholder, the text before it, the text after it |
| ErrorFormat.DollarAmpersandIsNotVerbatim | src/gateway/format-error.js:19-23 | an error whose message is a dollar sign and an ampersand, as indented JSON, brings the placeholder back into the page |
| RenderHandler.OneBodyIff | src/gateway/handlers/make-render-handler.js:55-120 | at most one body is sent; exactly one if and only if the render settles and there is no problem or the problem can be reported, which is also when a settled render's handler does not reject |
| RenderHandler.AnsweredIff | src/gateway/handlers/make-render-handler.js:55-120 | a body is sent if and only if the render settles and, when there is a problem, neither it nor what the custom handler throws about it is nullish or has a chain of causes that comes back to a value |
| RenderHandler.OrdinaryThrowsAreAnswered | src/gateway/handlers/make-render-handler.js:55-120 | when a render settles, and the values thrown are not nullish and their chains do not come back to a value, exactly one body is sent, whatever the custom handler does |
| RenderHandler.StatusOfAnswers | src/gateway/handlers/make-render-handler.js:77-117 | a failed render or a redirect without Location is answered with 500, a good render with its own status, headers and body, and no answer is a redirect without Location |
| RenderHandler.GoodResultIsSent | src/gateway/handlers/make-render-handler.js:86-108 | a result that is not 301, 302, 307 or 308, or has a Location header, is sent with its status, its body and its headers over those there were |
| RenderHandler.BadRedirectIsAnError | src/gateway/handlers/make-render-handler.js:86-117 | one of those four without Location is answered with 500 and the page for that error |
| RenderHandler.FailedRenderIsAnError | src/gateway/handlers/make-render-handler.js:109-117 | a render that fails is answered with its own error |
| RenderHandler.ProblemIs | src/gateway/handlers/make-render-handler.js:86-94 | which renders have a problem, in terms of their result, and which problem |
| RenderHandler.DefaultErrorIs | src/gateway/handlers/handle-error.js:88-97 | without a custom handler, or when it declines: status 500, the default page for the error, and one line of the log |
| RenderHandler.CustomErrorIs | src/gateway/handlers/handle-error.js:50-86 | the custom handler is given the URL, the request's headers and the error; its body and headers are sent; when it throws, the log and the page have both errors |
| RenderHandler.RootErrorIsNeverLost | src/gateway/handlers/handle-error.js:28-98 | every answered problem is logged once with the original error in the entry, also when the custom handler fails, and the page shows it unless the handler made the page |
| RenderHandler.ReportableSends | src/gateway/handlers/handle-error.js:28-98 | the error handler sends one body, with status 500, if and only if the error and whatever a custom handler throws can be extracted |
| RenderHandler.NullIsNeverAnswered | src/gateway/handlers/handle-error.js:33 | for a render that throws null the handler sends nothing and sets no status |
| RenderHandler.Exchange.HandleError | src/gateway/handlers/handle-error.js:21-98 | on all exit paths, the response and the log are those of the specification |
| RenderHandler.Exchange.RenderHandler | src/gateway/handlers/make-render-handler.js:24-121 | for one URL: the response of the specification, and a trace session started once, and ended once if and only if the render settles; with no or several URLs it rejects with the error for that and touches nothing |
| RenderHandler.QueryErrorIs | src/gateway/handlers/make-render-handler.js:45-54 | the errors for a missing URL and for more than one |
| RenderHandler.Exchange.Middleware | src/gateway/handlers/make-render-handler.js:137-148 | `next` is called exactly once if the handler ends, however it does, and not if the render never settles |
| EndToEnd.Serve | src/gateway/handlers/make-render-handler.js:24-148 | a whole request, for every plan and context: one body if and only if the render settles and has a result or a problem that can be reported; the status and body of a good result, status 500 otherwise; one end of the trace and one `next` if and only if it settles |
| EndToEnd.GetsAnswerIff | src/gateway/handlers/make-render-handler.js:86-117 | a render that settles gets an answer if its result is good, and otherwise if its problem can be reported |
| EndToEnd.AnswerOfInterleavedRender | src/gateway/handlers/make-render-handler.js:55-120 | the same over every interleaving of the render with timers, fetches and responses, with the status and body of a good result |
| EndToEnd.GoodResultWithoutAnswer | src/gateway/environments/jsdom-sixteen/jsdom-sixteen-environment.js:140-154 | a render with a good result gets no answer when the user's closeable throws null |
| UrlFilters.CacheableByDefaultIff | src/gateway/is-cacheable.js:14-15 | the pattern matches if and only if the URL has no line terminator and ends in `.js` or contains `.js?` |
| UrlFilters.LoaderAcceptsIff | src/gateway/environments/jsdom-sixteen/jsdom-sixteen-resource-loader.js:143-144 | the loader's pattern matches if and only if `.js` occurs before any line terminator |
| UrlFilters.CacheableIsFetched | src/gateway/is-cacheable.js:14-15 | whatever is cacheable by default passes the loader's test |
| UrlFilters.FetchedNeedNotBeCacheable | src/gateway/environments/jsdom-sixteen/jsdom-sixteen-resource-loader.js:25-26 | the converse fails |
| UrlFilters.ScanAgreesWithPattern | src/gateway/is-cacheable.js:14-15 | the pattern agrees with one pass over the URL |
| UrlFilters.LoaderScanAgreesWithPattern | src/gateway/environments/jsdom-sixteen/jsdom-sixteen-resource-loader.js:143-144 | the loader's pattern agrees with a pass that stops at the first match |
| UrlFilters.ScanMeaning | src/gateway/is-cacheable.js:14-15 | what the state of the pass says about the text read so far |
| Connections.AlwaysExactIff | src/shared/start-gateway.js:111-123 | over every run of connections opening and closing, the table is always exactly the open connections if and only if no two that are open together share address and port |
| Connections.SharedKeyIsForgotten | src/shared/start-gateway.js:118-122 | otherwise a connection that is open can be missing from the table |
| Connections.Gateway.OnConnection | src/shared/start-gateway.js:117-119 | the table after a connection opens: this connection under its key, also when the key is in use, and all others as before |
| Connections.Gateway.OnClose | src/shared/start-gateway.js:120-122 | the table after a connection closes: no entry under its key, and all others as before |
| Connections.Gateway.CloseConnections | src/shared/start-gateway.js:112-116 | each connection in the table is destroyed once |
| Connections.Gateway.OnSigint | src/shared/start-gateway.js:139-174 | connections are destroyed if closing the server does not throw; otherwise the process exits with 1 and none is |
| Connections.ShutDown | src/shared/start-gateway.js:139-162 | with an exact table, a shutdown destroys every open connection once and no closed one |
| Connections.Replay | src/shared/start-gateway.js:111-123 | over every sequence of connections opening and closing, the table of the gateway holds the objects that the run of the specification has |
| Connections.RunAndShutDown | src/shared/start-gateway.js:111-174 | any such sequence and then a shutdown: each connection in the table is destroyed once and no other; without shared keys these are exactly the open ones; none is when closing the server throws |
| Trace.LastWriteWins | src/shared/trace-impl.js:78-92 | after any sequence of labels, each has the value of its last write |
| Trace.Precedence | src/shared/trace-impl.js:112-126 | for each key, the value logged is the one from the strongest of defaults, labels, info and the fixed message and level |
| Trace.GetDelta | src/shared/get-delta.js:6-12 | for every key of both, before plus delta is after; a key missing afterwards gives NaN |
| Trace.TraceSession.AddLabel | src/shared/trace-impl.js:79-92 | the labels for the log and those of the span are both the fold of everything added |
| Trace.TraceSession.End | src/shared/trace-impl.js:98-143 | the two memory labels are added, one entry is logged with all labels, and the span is ended once |
| Trace.Session | src/shared/trace-impl.js:78-143 | over a whole session, the labels logged and the labels of the span are the same |
| BuildFlowTypes.HitsAreInOrder | tools/build-flow-types.js:78-88 | the matches found are in order, do not overlap, are each at least four characters long, and the engine finds none after the last one |
| BuildFlowTypes.GetExportsFrom | tools/build-flow-types.js:50-97 | the loop ends, returns the base name and then what all matches captured, in order, and leaves the position of the shared expression at 0 |
| BuildFlowTypes.ExportsAreListed | tools/build-flow-types.js:45-93 | with any engine that finds leftmost matches: a file with a block exports its own name and then the name that each line of the block lists, in order and missing none |
| BuildFlowTypes.ExportsWithoutBlock | tools/build-flow-types.js:57-97 | a file without a block exports exactly its own name, and one that cannot be read fails |
| BuildFlowTypes.OneLineIsListed | tools/build-flow-types.js:45 | a line that ends in a quoted name of letters, digits, underscores, dots, slashes and hyphens, a comma and blanks lists that name |
| BuildFlowTypes.HitIsListing | tools/build-flow-types.js:45 | every match is one line that lists the captured name, with nothing but white space around it |
| BuildFlowTypes.ListingMatches | tools/build-flow-types.js:45 | every line that lists a name is matched |
| BuildFlowTypes.SomeEngineFinds | tools/build-flow-types.js:45 | there is an engine that finds leftmost matches |
| BuildFlowTypes.ExportsOfAll | tools/build-flow-types.js:45-97 | each file's result depends on that file alone, whatever files came before it |

## Left out

- Express, winston, superagent, JSDOM, `vm` and the cloud agents: libraries, seen only through the effects the gateway relies on.
- Retry counting and request timeouts: inside superagent.
- Authentication, secrets, environment readers, logger creation, error kinds, the virtual console, the common router: short branches without an invariant.
- The file resource loader, heap dumps, stackdriver set-up, the listen callback, server timeouts, writing flow files: input and output.
- `JSON.stringify`: its text is a parameter wherever an error page or a malformed result is shown.
- ErrorExtraction.ExtractThrown: does not model the stack text of errors the gateway raises itself.
- ErrorExtraction.ExtractError: an endless chain is a failed extraction, as the stack overflow it causes; a very long chain that would overflow the stack, and a `toString` or getter that throws, are not modelled.
- Lifecycle.SafeAfterSettling: no custom result handler; with one, what a late response yields is whatever that handler makes of the empty text.
- Lifecycle.EscapeLeavesRenderOpen: needs a process that survives an uncaught exception, which is not Node's default; `EscapeEndsProcess` is the other case.
- PlannedRender.InterleavedRenderIsAsPlanned: the loader is the gateway's own, so it never returns null; the `close` of loader and gate do not throw, and no `close` opens the gate or touches the list again.
- OwnFetches.StartingFetches: a request that throws has already started its trace session; see `Request`. Fetches started before one that throws never reach `Promise.all`, so nobody observes it when one of them is rejected later, which ends a process that does not survive unhandled rejections; that is not modelled.
- ResourceLoader.EveryRunIsSound: `destroy` of an agent does not throw, and a response always has a text.
- Environment.RenderRun.CloseAll: the logger does not throw.
- Environment.CallbackIsLastRegistered: scripts do not replace or delete the hook, and a result carries its body, status and headers by value.
- RenderHandler.OneBodyIff: response and logger operations do not throw, and headers are never null.
- Connections.Gateway.OnSigint: `listen` returned a server; the callback of `gateway.close` is not modelled, and `destroy` does not throw.
- RequestsFromCache.Run: the cache plugin is what the source's comments say of it; expiry is an eviction.
- RequestsFromCache.CompleteCached: the error for a missing cache plugin is left out, since `makeRequest` never gets there without one.
- Request.SessionsAreBalanced: the label `url` is the session's URL; memory labels are those of `Trace`.
- TimerGate.Fire: the source calls the callback without arguments, so a frame's timestamp is lost; arguments and timer handles are not modelled.
- BuildFlowTypes.GetExportsFrom: the block that the first expression captures is a parameter.
