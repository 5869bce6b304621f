# Verified model of the Istio LLM filter

The filter is an Envoy plugin that picks a backend for every LLM request and keeps remote load
counters in step with the requests' lives. This project models the five parts that carry its
logic and proves what they promise. `dafny verify dfyconfig.toml` checks everything.

| file | subject |
|---|---|
| `Ledger.dfy` | the tasks sent to Metadata-Center and the ledger they maintain there |
| `AsyncQueue.dfy` | the bounded, lossy queue and its worker pool, as steps and as an object |
| `Accounting.dfy` | what each callback of one request does to its flags and to the queue |
| `Response.dfy` | the transcoder, the pass-through state machine, and whole responses |
| `CallbackLaws.dfy` | which task each callback sends, when, and when it sends nothing |
| `Filter.dfy` | the filter, client and buffer objects, tied to the two files above |
| `Lifecycle.dfy` | any number of requests, the queue and its workers, in every interleaving: the ledger |
| `Overtaking.dfy` | when the server's request count is right once everything has ended |
| `PromptFate.dfy` | who can still delete a counted prompt, and exactly when nobody can |
| `Scoring.dfy` | the score, its bounds, its invariances, what one request is worth |
| `LoadBalancer.dfy` | statistics, in-place scoring, sort, truncation, label filter, choice |
| `PromptHash.dfy` | the cumulative prompt hash as a prefix index |
| `RuleConfig.dfy` | rule validation, the model table that shares the rules, rule selection |
| `Wrappers.dfy`, `ByteStrings.dfy`, `Collections.dfy` | options, results, bytes, facts about sequences and sets |

## How the accounting is modelled

A run is any finite sequence of events: a request's callback, its timer firing, its timer
callback running, a worker taking a task, a worker completing one. Each is one atomic step.
`Lifecycle.Run` plays a sequence from the initial state; an event that cannot occur changes
nothing, so a statement about all sequences is one about all interleavings. `Lifecycle.Inv` holds
in every such state (`Lifecycle.Reachable`); the lemmas that require `Inv` therefore speak of
every reachable state.

Assumed of the environment: request ids are unique; a request is processed once, before its
response callbacks; the response's headers come once, then its data until the end or trailers;
`OnDestroy` comes at most once and last; the clock is positive. The timer is exempt from the
order: once fired, its callback runs even after `Stop` and after destroy.

The server is not in the repository. Its ledger follows `docs/design.md`: an add raises a
backend's request count and prompt total, a prompt delete lowers the prompt total, a delete
lowers the request count. The counters are raw, so a second delete would be subtracted again; a
delete of an id the server has not seen changes nothing; an id is not forgotten. That the
counters stay non-negative is thus a fact about what the filter sends.

## Findings

Four expectations one may have of the code do not hold. Each failure is shown on concrete runs or
inputs, and the exact condition is proved for every reachable state or every input.

- *Every destroyed request leaves the request count.* There are three ways it stays, and no other
  (`Lifecycle.ServerQuiescentCount`): its delete was rejected by the full queue; its delete was
  accepted and not carried out, since a failed call is only logged (`Overtaking.LostDeleteStays`,
  with one worker too); or its delete reached the server before its own add. The last happens in
  some run of every pool of two or more workers (`Overtaking.DeleteCanOvertakeAdd`) and in none
  with fewer: rejection and loss account for everything left over, in every run, if and only if
  there is at most one worker (`Overtaking.RightExactlyWithOneWorker`). With more, a delete
  accepted after its add has finished is safe (`Overtaking.FinishedAddIsNotOvertaken`).
- *Every prompt length leaves the prompt total.* `OnDestroy` stops the timer and sends no prompt
  delete, so a request destroyed before its first response data and before its timer has fired
  keeps its prompt length in the total for ever (`Overtaking.AbortedPromptStays`). In
  acceptance order the total is at all times exactly that of the counted requests, live or
  destroyed, with neither response data nor a timer callback so far, and of those whose every
  prompt delete was rejected (`Lifecycle.PromptTotalExact`); the server's total adds those whose
  prompt delete was not carried out or overtook the add (`Lifecycle.ServerPromptTotal`).
- *A rejected prompt delete is tried again.* A streamed request has only its first data, and a
  request that is not streamed and answered in one piece makes both its attempts on the same full
  queue, the first having stopped the timer: in both cases nothing deletes the prompt any more
  (`PromptFate.RejectionCanBeFinal`). With workers and a buffer, a counted prompt can still be
  deleted if and only if the timer can still run, or the response is unfinished and has shown no
  data, is not streamed, or can still be broken off by an error chunk
  (`PromptFate.PromptDeletableExactly`).
- *An error chunk turns a streamed response into status 400.* `EncodeHeaders` keeps no header map
  when the upstream status is an error, and then the first error chunk dereferences nil
  (`Response.UpstreamErrorPanics`, exactly: `Response.StreamPanicsExactly`).

Where the documents differ from the code, the model follows the code: the request weight is
scaled by `Ceil(delta/5)`; the hash is one running hash read per chunk; all hosts are candidates
when the load query fails; the cache is saved for every status below 400.

## Model

| member | source | states |
|---|---|---|
| Ledger.LedgerIsSumOfRequests | docs/design.md:280-283 | for any tasks in any order, each counter is the sum of what each request's own tasks alone would leave in it |
| Ledger.InterleavingIsIrrelevant | docs/design.md:1041-1042 | two logs with the same per-request order give the same counters: only overtaking within one request can matter |
| Ledger.TraceCount | docs/design.md:280-283 | in any order at all, a request stands in a counter exactly when its add arrived and the undoing task did not arrive after it |
| AsyncQueue.Queue.constructor | pkg/metadata/async_queue.go:49-64 | an empty buffer and idle workers |
| AsyncQueue.Queue.Dispatch | pkg/metadata/async_queue.go:67-79 | accepts at the tail while the buffer has room, otherwise drops the task, reports it, and changes nothing else |
| AsyncQueue.Queue.Receive | pkg/metadata/async_queue.go:82-86 | an idle worker gets the oldest buffered task |
| AsyncQueue.Queue.Finish | pkg/metadata/async_queue.go:89-100 | the worker becomes idle and its task is finished, carried out by the server or not |
| AsyncQueue.Queue.Worker | pkg/metadata/async_queue.go:82-86 | one worker alone finishes exactly the buffered tasks, oldest first, and empties the channel |
| AsyncQueue.DispatchConserved | pkg/metadata/async_queue.go:67-79 | a task is refused exactly when the buffer is full; acceptance appends to the buffer and keeps it within the queue size |
| AsyncQueue.WorkerStepKeeps | pkg/metadata/async_queue.go:82-100 | every worker step keeps each accepted task exactly one of queued, held by one worker or finished, and keeps the overtaking bound |
| AsyncQueue.StartOvertaking | pkg/metadata/async_queue.go:57-86 | when a worker starts a task, at most workerCount - 1 earlier accepted tasks are unfinished |
| AsyncQueue.CompleteOvertaking | pkg/metadata/async_queue.go:57-86 | every task leaves fewer earlier tasks unfinished than there are workers when it finishes |
| AsyncQueue.SingleWorkerIsFifo | pkg/metadata/async_queue.go:57-86 | with one worker the i-th task to finish is the i-th accepted |
| AsyncQueue.Drains | pkg/metadata/async_queue.go:82-100 | every effective worker step uses up one unit of work, and some worker can step while work is left |
| AsyncQueue.DrainSchedule | pkg/metadata/async_queue.go:82-100 | from any state the workers can empty the queue, in exactly as many steps as there is work |
| Filter.Client.AddRequest | pkg/metadata/client.go:256-287 | dispatches the add task, or accepts and forgets it when Metadata-Center is disabled |
| Filter.Client.DeleteRequest | pkg/metadata/client.go:290-315 | dispatches the delete task, likewise |
| Filter.Client.DeleteRequestPrompt | pkg/metadata/client.go:318-343 | dispatches the prompt-delete task, likewise |
| Filter.Client.SaveKVCache | pkg/metadata/client.go:450-478 | dispatches the cache-save task with cluster, backend and hash array, likewise |
| Filter.Filter.AddRequest | pkg/filter/filter.go:447-473 | the new fields and queue are those of the accounting step: recorded only if accepted, timer only if not streamed |
| Filter.Filter.DeletePromptLength | pkg/filter/filter.go:475-495 | stops the timer and marks the prompt deleted only if the task was accepted; no effect before the add or after a success |
| Filter.Filter.DecreaseRequest | pkg/filter/filter.go:497-514 | stops the timer and sends the delete once, whatever the answer |
| Filter.Filter.SaveKVCache | pkg/filter/filter.go:516-529 | sends a cache-save task only if cache-aware and with a prompt hash |
| Filter.Filter.RecordTokenTime | pkg/filter/filter.go:411-419 | the first data, and only it, triggers the prompt delete; the last-token time always moves |
| Filter.Filter.ProcessResponseData | pkg/filter/filter.go:376-409 | fields, buffer contents and status are those of the pass-through state machine, the accounting is untouched |
| Filter.Filter.DecodeRequest | pkg/filter/filter.go:125-205 | from the outcome of the earlier steps: fields, add task and status |
| Filter.Filter.EncodeHeaders | pkg/filter/filter.go:208-249 | keeps the headers only on success with data to come; saves the cache below status 400 |
| Filter.Filter.EncodeData | pkg/filter/filter.go:252-270 | accounting and response state both advance as specified, and the buffer holds what is to be sent on |
| Filter.Filter.EncodeTrailers | pkg/filter/filter.go:273-275 | trailers end the response and change nothing else |
| Filter.Filter.OnDestroy | pkg/filter/filter.go:278-288 | sends the delete exactly if the add was recorded |
| Filter.Filter.OnTimer | pkg/filter/filter.go:469-471 | the timer's callback is one more prompt-delete attempt |
| Accounting.DeletePromptKeeps | pkg/filter/filter.go:475-495 | an attempt keeps flags and accepted tasks linked, touches no other request, and succeeds if nothing is rejected |
| Accounting.EncodeDataKeeps | pkg/filter/filter.go:252-270 | the two prompt-delete attempts of one data callback together send at most one accepted prompt delete |
| CallbackLaws.ProcessSends | pkg/filter/filter.go:447-473 | the add is sent exactly for an admitted load-aware request; it is recorded with backend and length, and a timer if not streamed, exactly if the queue had room |
| CallbackLaws.ProcessPrepares | pkg/filter/filter.go:125-205 | which transcoder, stream flag and cache data the response path starts from, in each of the three outcomes |
| CallbackLaws.HeadersSend | pkg/filter/filter.go:208-249 | below status 400 a cache-aware request with a prompt hash sends exactly one cache save, with its cluster, backend and hash; otherwise nothing is sent; the flags stay |
| CallbackLaws.OnlyHeadersSave | pkg/filter/filter.go:516-529 | no callback but the response headers ever sends a cache save, accepted or dropped |
| CallbackLaws.DataSends | pkg/filter/filter.go:252-270 | the first data, and the end of a body that is not streamed, send the prompt delete of a counted request; when exactly it is accepted, dropped, or dropped twice |
| CallbackLaws.DataSendsNothing | pkg/filter/filter.go:252-270 | any other data, and any data of a request not counted or already deleted, sends nothing and moves no counting flag |
| CallbackLaws.DataTimes | pkg/filter/filter.go:411-419 | the first-token time is that of the first data for ever, the last-token time that of the last |
| CallbackLaws.DestroySends | pkg/filter/filter.go:497-514 | destroy sends the delete exactly of a recorded request and leaves no timer armed |
| CallbackLaws.TimerSends | pkg/filter/filter.go:469-495 | the timer callback sends the prompt delete exactly of a counted request whose prompt is not deleted |
| CallbackLaws.OthersSendNothing | pkg/filter/filter.go:273-275 | trailers and a firing timer send nothing and change only the stage, or the timer |
| Lifecycle.Reachable | pkg/filter/filter.go:447-514 | every run keeps every request's flags in agreement with what the queue accepted and rejected for it, in one of five possible task orders |
| Lifecycle.AcceptedLedgerExact | pkg/filter/filter.go:447-514 | in every run, with accepted tasks applied in acceptance order, each backend's request count is the number of its requests with an accepted add and no accepted delete, and its prompt total the sum of prompt lengths added and not prompt-deleted |
| Lifecycle.UndoFollowsAdd | pkg/filter/filter.go:475-514 | a delete or prompt delete is accepted at most once per request, and only after its add |
| Lifecycle.LedgerExact | docs/design.md:1041-1042 | for any part of the accepted tasks in any order, the counters are exactly what the requests standing in it owe |
| Lifecycle.ServerLedgerExact | pkg/metadata/async_queue.go:82-100 | with any workers, any reordering and any lost calls, the server's counters are exact for what reached it and never negative |
| Lifecycle.QuiescentCount | pkg/filter/filter.go:278-282 | once all requests are destroyed, the request count left is the number of rejected deletes; zero if nothing was rejected |
| Lifecycle.ServerQuiescentCount | pkg/metadata/async_queue.go:57-100 | once all requests are destroyed, whatever was rejected, lost or reordered, the server's request count is exactly the number of carried-out adds whose delete was rejected, not carried out, or overtook the add; zero if and only if there are none |
| Lifecycle.SingleWorkerNeverOvertakes | pkg/metadata/async_queue.go:57-86 | with one worker no delete or prompt delete overtakes its add |
| Lifecycle.SingleWorkerQuiescentCount | pkg/metadata/async_queue.go:57-100 | with one worker only rejected deletes and those not carried out leave requests counted |
| Overtaking.DeleteCanOvertakeAdd | pkg/metadata/async_queue.go:57-86 | for every pool of two or more workers and every queue size, a run that leaves a destroyed request counted, nothing rejected or lost |
| Overtaking.RightExactlyWithOneWorker | pkg/metadata/async_queue.go:57-100 | rejected deletes and those not carried out account for every request left over, in every run, if and only if there is at most one worker |
| Overtaking.LostDeleteStays | pkg/metadata/async_queue.go:93-95 | for every pool and queue size, a run that loses the delete's call and leaves the destroyed request counted, the queue drained and nothing rejected |
| Overtaking.FinishedAddIsNotOvertaken | pkg/metadata/async_queue.go:67-100 | with any number of workers, a delete or prompt delete accepted after its add has finished overtakes it in no continuation |
| Lifecycle.PromptTotalExact | pkg/filter/filter.go:411-514 | in every reachable state the prompt total is exactly the prompt lengths of the counted requests with neither response data nor a timer callback, and of those whose every prompt delete was rejected |
| Lifecycle.ServerPromptTotal | pkg/metadata/async_queue.go:57-100 | in every reachable state the server's prompt total is exactly that of the carried-out adds never answered, or whose prompt delete was rejected every time, not carried out, or overtook the add |
| Lifecycle.SingleWorkerPromptTotal | pkg/metadata/async_queue.go:57-100 | with one worker, the same without overtaking |
| Overtaking.AbortedPromptStays | pkg/filter/filter.go:497-514 | in every configuration, a run in which an aborted streaming request leaves its prompt length behind, nothing rejected |
| PromptFate.UnansweredHasTimer | pkg/filter/filter.go:464-472 | in every run a live counted request without data has no timer if streamed, and otherwise one that can fire or has run |
| PromptFate.SilentForEver | pkg/filter/filter.go:278-282 | after destroy, with no fired timer pending, a request never sends anything again, accepted or rejected |
| PromptFate.EveryAttemptIsFresh | pkg/filter/filter.go:475-495 | in every reachable state each prompt-delete attempt of a counted request succeeds exactly if the queue has room, whatever was rejected before |
| CallbackLaws.NoAttemptNoPromptDelete | pkg/filter/filter.go:252-270 | the converse: a callback that is not an attempt deletes no prompt and sends no prompt delete, accepted or dropped |
| PromptFate.PromptDeletableExactly | pkg/filter/filter.go:411-495 | with workers and a buffer, some continuation deletes a counted prompt if and only if the timer can still run, or the response is unfinished and has shown no data, is not streamed, or can still be broken off by an error chunk |
| PromptFate.RejectionCanBeFinal | pkg/filter/filter.go:252-270 | for any pool, two runs, one streamed and one not and answered in one piece, after which no continuation deletes the prompt |
| PromptFate.StreamHasOneChance | pkg/filter/filter.go:252-270 | a streamed request past its first data with its prompt still counted can have it deleted if and only if its response is unfinished and an error chunk can still break it off |
| Response.StreamPrefix | pkg/filter/filter.go:376-409 | at every moment of a streamed response the client has received exactly the chunks before the first error chunk |
| Response.StreamWhole | pkg/transcoder/openai/transcoder.go:185-193 | the same for a whole response: nothing is emitted after the error, whose headers become status 400 with length 0 |
| Response.StreamPanicsExactly | pkg/filter/filter.go:208-249 | from the headers on: a panic if and only if the headers were not kept and there is an error chunk |
| Response.UpstreamErrorPanics | pkg/transcoder/openai/transcoder.go:269-279 | an upstream 500 with a JSON error body on a streamed request |
| Response.CutDecides | pkg/transcoder/openai/transcoder.go:269-279 | however a streamed body is cut, the output is a prefix of it, and all of it if and only if no piece by itself is an error chunk |
| Response.CutHidesError | pkg/transcoder/openai/transcoder.go:273-276 | the same error body is withheld in one piece and passes when cut after its brace |
| Response.PlainWhole | pkg/filter/filter.go:261-270 | a response that is not streamed is emitted whole, only at its end, with its length in the headers |
| Response.StreamFromHeaders | pkg/filter/filter.go:208-249 | below status 400 a streamed response has its headers sent on as an event stream, and they end as status 400 with length 0 exactly if there was an error chunk |
| Response.PlainFromHeaders | pkg/filter/filter.go:208-270 | below status 400 a response that is not streamed has its headers held back and then of JSON type with the body's length; from 400 on headers and body pass as they are; headers without data give a local reply |
| Response.InspectedExactly | pkg/transcoder/openai/transcoder.go:185-193 | a chunk is withheld exactly on the three forwarded backends, streamed, when it begins with a brace and has the quoted word error anywhere |
| Scoring.RangeCovers | pkg/loadbalancer/inference_lb.go:219-236 | every endpoint's statistics lie in the computed range |
| Scoring.RangeAttained | pkg/loadbalancer/inference_lb.go:219-236 | the ends of the range are attained or are the defaults 0 and 1024 |
| Scoring.ExtentIs | pkg/loadbalancer/inference_lb.go:219-236 | every list has exactly one extent, told by what it bounds and attains, and the scoring loop works with it |
| Scoring.ScoreFormula | pkg/loadbalancer/inference_lb.go:243-277 | the score from the reports and the cache map alone: the documented formula, with the stepped request weight, the prefill scale, and the defaults of an unreported backend |
| Scoring.CacheGap | pkg/loadbalancer/inference_lb.go:253-259 | the scores of equally loaded backends differ by the weighted difference of their entries in the cache map, an absent one counting 0 |
| Scoring.ScoreIgnoresOrder | pkg/loadbalancer/inference_lb.go:217-281 | permuting the statistics changes no score |
| Scoring.ScoreIgnoresCommonLoad | pkg/loadbalancer/inference_lb.go:223-280 | for non-negative request counts, the same extra load on every backend changes no score |
| Scoring.CommonLoadNeedsNonNegative | pkg/loadbalancer/inference_lb.go:219-280 | with negative counts a common load can change a score: two backends on which it drops from -2/3 to -1 |
| Scoring.LoadsAreNormalised | pkg/loadbalancer/inference_lb.go:261-272 | both loads lie in [0, 1] for all request counts, even all negative |
| Scoring.FactorBounds | pkg/loadbalancer/inference_lb.go:243-245 | the step factor is a whole number of at least 1 between delta/5 and delta/2 |
| Scoring.ScoreBounds | pkg/loadbalancer/inference_lb.go:216-280 | with non-negative weights the score lies between the full penalties and the cache weight |
| Scoring.PenaltyOfExtraRequests | pkg/loadbalancer/inference_lb.go:243-277 | k more outstanding requests cost between k/5 and k/2 times the request weight, whatever the spread |
| Scoring.DominanceScores | pkg/loadbalancer/inference_lb.go:274-277 | a backend that dominates another scores strictly higher |
| LoadBalancer.LoadRange | pkg/loadbalancer/inference_lb.go:219-236 | the loop computes the range |
| LoadBalancer.MergeStatsAndScore | pkg/loadbalancer/inference_lb.go:217-281 | every wrapper ends with its entry in the cache map, or 0 without one, and with the loads and score of its endpoint within the whole list, aliasing or not |
| LoadBalancer.SortFunc | pkg/loadbalancer/inference_lb.go:107-108 | the same wrappers, scores descending; any such order serves |
| LoadBalancer.GetEndpointStats | pkg/loadbalancer/inference_lb.go:157-186 | one fresh wrapper per host, carrying what the query reported for its address, or 0 requests and 0 prompt length; none when the query failed |
| LoadBalancer.GetCandidateByStats | pkg/loadbalancer/inference_lb.go:87-125 | all hosts if the query failed, else hosts at distinct positions, as many as asked for, every chosen score at least every other |
| LoadBalancer.FewScoreHigher | pkg/loadbalancer/inference_lb.go:107-124 | fewer backends than the candidate set holds score strictly above any candidate |
| LoadBalancer.FewDominate | pkg/loadbalancer/inference_lb.go:251-277 | for non-negative weights, fewer than that are better than a candidate by their reported loads and cache entries |
| LoadBalancer.CandidateNumIsLargest | pkg/loadbalancer/inference_lb.go:323-334 | for any percentage, the largest number from 1 to all hosts that stays within it, or 1 |
| LoadBalancer.FilterHostsBySelector | pkg/loadbalancer/inference_lb.go:289-305 | exactly the hosts whose labels match, in order |
| LoadBalancer.MatchingOne | pkg/loadbalancer/inference_lb.go:289-305 | a host is kept exactly if every selected label has the selected value, a missing label reading as empty |
| LoadBalancer.MatchingConcat | pkg/loadbalancer/inference_lb.go:289-305 | each host is judged by itself, in order |
| LoadBalancer.ChooseHost | pkg/loadbalancer/inference_lb.go:57-84 | a host is chosen exactly if one matches; it is the one the draw points at, among the matching hosts or, with load statistics, among the best of them; fewer matching hosts than the candidate set holds score above it or, for non-negative weights, surpass it |
| LoadBalancer.QueryLoad | pkg/metadata/client.go:376-391 | the loop builds the load map |
| LoadBalancer.LastReportCounts | pkg/metadata/client.go:376-388 | a backend's statistics are those of its last report, and no prompt length is negative |
| LoadBalancer.GetCacheStats | pkg/loadbalancer/inference_lb.go:189-213 | the loop builds the hit-ratio map; none without a prompt hash or a cluster, or when the query fails |
| LoadBalancer.LastLocationCounts | pkg/loadbalancer/inference_lb.go:203-210 | a backend has a ratio exactly if reported: the length of its last location over the number of hashes |
| LoadBalancer.HitRatesNormalised | pkg/loadbalancer/inference_lb.go:203-210 | the ratio lies in [0, 1] if the last reported length is within the number of hashes |
| PromptHash.Hash.constructor | pkg/hash/hash.go:44-55 | a missing or non-positive chunk length becomes 512, the latter in the given object |
| PromptHash.Hasher.Write | pkg/hash/hash.go:74-88 | absorbs the bytes into the running state |
| PromptHash.Hash.PromptToHash | pkg/hash/hash.go:60-93 | ceil(len/ChunkLen) entries, entry i the hash of the first min((i+1)*ChunkLen, len) bytes, by the shortcut and the loop alike |
| PromptHash.AbsorbConcat | pkg/hash/hash.go:79-90 | absorbing chunk after chunk is absorbing their concatenation |
| PromptHash.AbsorbSteps | pkg/hash/hash.go:79-90 | no byte changes nothing, one byte is one step, and the first of several is stepped first |
| PromptHash.AbsorbRecords | pkg/hash/hash.go:79-90 | a hash that records what it reads has read exactly the data, and its sum is over all of it |
| PromptHash.EntriesAre | pkg/hash/hash.go:66-90 | in plain numbers: ceil(len/ChunkLen) entries, entry i the sum over the first min((i+1)*ChunkLen, len) bytes |
| PromptHash.NumChunksIs | pkg/hash/hash.go:66-67 | the number of chunks is the one that reaches the end and no further |
| PromptHash.SharedChunksShareEntries | pkg/hash/hash.go:79-90 | for any hash, prompts agreeing on their first k chunks have the same first k entries |
| PromptHash.IndexIsExact | pkg/hash/hash.go:60-93 | for different prompts the leading equal entries number exactly floor(lcp/ChunkLen), if and only if the first differing chunk prefixes do not collide |
| PromptHash.SamePromptMatchesWhole | pkg/hash/hash.go:60-93 | equal prompts match in every entry |
| RuleConfig.GetCandidateRule | pkg/config/config.go:295-321 | shortcut and scan both give the first matching rule |
| RuleConfig.FirstMatchIs | pkg/config/config.go:295-321 | read off the headers: the picked rule has every header in the request with its value, and each earlier rule has one that is not; none is picked when each has |
| RuleConfig.FirstMatchIsMostSpecific | pkg/config/config.go:164-170 | on a sorted list the first match has the most headers among the matching rules; none exactly if none matches |
| RuleConfig.SortTuples | pkg/config/config.go:166-170 | the same rules, header counts descending; any such order serves |
| RuleConfig.BuildModelMappings | pkg/config/config.go:189-208 | exactly the models with rules, each with its own rule objects, sorted |
| RuleConfig.ValidateRules | pkg/config/config.go:236-259 | succeeds exactly on a non-empty list with one cluster and, defaults filled in, one backend; writes nothing but triton where a backend is missing |
| RuleConfig.AgreeMeans | pkg/config/config.go:236-259 | a list agrees exactly if any two of its rules have the same cluster and the same backend, an empty one being triton |
| RuleConfig.LLMProxyConfig.Init | pkg/config/config.go:211-221 | the table is that of the configured rules, replacing any other; without rules it stays as it was |
| RuleConfig.LLMProxyConfig.Parse | pkg/config/config.go:262-278 | succeeds exactly with a protocol and only agreeing lists, in any order of the models and with rule objects shared at will |
| RuleConfig.LLMProxyConfig.Configure | pkg/filter/config.go:51-59 | accepts exactly the valid configurations and writes nothing but missing backends, all of them if accepted; with rules, or without a table of its own, the table then has the configured models as keys and one cluster and one backend per model; without rules a table of its own passes unchecked |
| RuleConfig.LLMProxyConfig.Lookup | pkg/transcoder/openai/transcoder.go:126-146 | the first matching rule of the model, or which of the two errors |
| RuleConfig.RouteDependsOnModel | pkg/transcoder/openai/transcoder.go:139-142 | the routed cluster and backend are those of every configured rule of the model, whatever the headers |
| RuleConfig.RouteIsMostSpecific | pkg/config/config.go:295-321 | the routed rule is a most specific matching one among the configured rules; none exactly if none matches |

## Left out

- AsyncQueue.Queue.constructor: a queue size of at least 1 is required; with size 0 the channel hands tasks directly to a waiting worker.
- AsyncQueue.Queue.Finish: the HTTP call, its timeout and the task's timeout field are one outcome, carried out or not.
- Filter.Filter.DecodeRequest: JSON parsing, hashing, routing and host choice enter as their outcome; `getClusterHosts` is a stub, so the host list is an input.
- Filter.Filter.EncodeHeaders: the via and accel-buffering headers are not kept, and numbers in headers are not formatted.
- Filter.Filter.ProcessResponseData: the kept header map is a value of the filter, not an object shared with Envoy; what Envoy does after a panic is not modelled.
- LoadBalancer.SortFunc: the slice is a sequence that is reassigned; callers use only the contract, so any unstable sort fits.
- RuleConfig.SortTuples: likewise.
- LoadBalancer.ChooseHost: context keys and default weights are parameters; the random draw is an arbitrary number.
- Scoring.ScoreBounds: exact reals instead of float64, no NaN, no integer overflow.
- PromptHash.IndexIsExact: murmur3 is an arbitrary byte-wise streaming hash.
- Interleavings inside one callback (the Go memory model): every callback is one atomic step.
- Response.StreamWhole: the output of a response ended by trailers, whose held-back data Envoy treats on its own.
- Logging, token statistics, TTFT estimation and reporting, error bodies, `Close`.
- The factory registries, the configuration merge, load-balancing options, subsets and LoRA, nil pointers in the configuration.
- RuleConfig.LLMProxyConfig.Configure: what routing does with a table that came with a configuration without rules.
- The Metadata-Center server beyond its documented ledger, and HTTP failover.
