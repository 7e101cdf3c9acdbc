# Verification of the observability lab's instrumentation

A Dafny model of a small HTTP service whose substance is its instrumentation: a stack of
middleware layers with nested response recorders and panics, an order pipeline that spans a
request, a publish goroutine, a Kafka topic and a consumer process, a hand-written
`traceparent` codec, a read-through products cache, and a runtime chaos switch.

`dafny verify dfyconfig.toml` checks everything.

## How the system is modelled

* **Handlers and stacks.** A handler is any finite script of `Header(c)`, `Body(n)`, log
  warnings, order reports, `Panic` and `Return`. A stack is any sequence of layers, outermost
  first. `Middleware.Serve` interprets one against the other over the chain of writers
  (connection first, then each recorder), and `Middleware.ServeHTTP` does the same in place:
  real recorder objects, wrapped one around the other, and process-wide sinks for metrics, log
  lines and spans. The theorems of `StackTheory` hold for every stack and every script; the
  stacks of `internal/api/router.go` are instances in `Router`.
* **The connection** behaves as net/http's writer does: the first final header, or the first
  body byte, fixes the status; later headers are ignored; a code outside 100..999 panics if the
  response is not yet committed; 1xx codes other than 101 do not commit it.
* **Randomness and the environment** are data. A layer carries the draws it will make (span
  ids, request id, the chaos lot, whether the client leaves during injected latency); database,
  Redis and broker answers are inputs or freely chosen steps.
* **Concurrency** is a state machine over single steps, and every result about runs is about
  every schedule. A schedule may name a step that is not possible; it changes nothing then.
  `InFlight` interleaves any number of requests at the granularity of one metric update, log
  line or span event; `OrderPipeline`, `ProductCache` and `ChaosControl` have step protocols of
  their own. The chaos gate reads its state once per request, so a request carries its snapshot.
* **One service.** `EndToEnd` runs both sides together: the requests of `InFlight` run the handlers
  of `OrderPipeline`, and the event by which a request hands over its order starts the publish,
  with the order and the span the event carries. A request's script holds the answers its handler
  will get from the database; a move at which these would differ from what the database did is not
  possible, and nothing else restricts the interleaving (`EndToEnd.OnlyHandlerDecides`). `POST /orders`
  is a business route to the order handler, and no other handler reports orders. Every run
  seen from one side is a run of that side (`EndToEnd.Sides`), so the results of both carry over.
* **Characters.** In `Traceparent` a char is one byte of a Go string; in `Brokers` it is a code
  point, because `strings.TrimSpace` works on code points.

| file | what it holds |
|---|---|
| `Traceparent` | span contexts, span start, hex, the `traceparent` printer and parser |
| `Responses` | the connection, the two recorders, `writeJSON` |
| `Telemetry` | metric updates, log lines and spans, and the sinks they end up in |
| `Middleware`, `StackTheory`, `Router` | the layers, their theory, the three router stacks |
| `OrderHandler`, `InFlight` | `POST /orders`; many requests in flight |
| `OrderPipeline`, `OrderRuns`, `EndToEnd` | handlers, publishers, topic, consumer: what no run can do, what runs do; the whole service |
| `ProductCache`, `ChaosControl`, `Brokers`, `Logging` | cache, chaos switch and admin guard, broker list, log handler |
| `Text`, `Sums`, `Wrappers` | splitting and joining, sums over sequences, option and result |

## Where the code differs from what is written about it

The model follows the code.

* `internal/obs/middleware.go:47-51` says PanicGuard must sit inside Instrument; the router puts
  it outermost (`internal/api/router.go:63-69`), and the request counter therefore says 500 for
  every panic.
* RequestLogger promises exactly one canonical line (`internal/obs/middleware.go:74-76`), but it
  has no deferred part: a panic leaves the panic line instead. There is one exactly if what the
  request performs does not panic (`Router.ExactlyOnce`).
* An implicit 200 is invisible to every recorder. If a handler writes body bytes and then asks for
  another status, all signals show that status and the client sees 200;
  `StackTheory.RecordersMatchWire` says exactly when they agree.
* PanicGuard promises a clean 500 if no header had been written. A header that net/http rejects
  panics after every recorder has noted it, so the guard stays silent and the client gets 200
  (`StackTheory.RejectedHeaderAnswers200`, and `StackTheory.Clean500` for the exact condition).
* Warnings logged through `LoggerFrom` carry `request_id` but no `trace_id`, because no context is
  passed; the panic line carries neither in router order (`Router.Correlated`).
* The ids are added to the record, so under an open log group they are nested with it
  (`Logging.TopLevelExactly`).
* ParseTraceparent is documented to reject "anything that isn't exactly that format"; its flags
  scan also accepts upper-case digits, one digit followed by anything but a dash, and a blank
  followed by a digit (`Traceparent.AcceptedVersusStandard`, which gives the exact set).
* Two overlapping sets can leave `chaos_enabled` at 1 with chaos off
  (`ChaosControl.OverlapStrandsGauge`); `ChaosControl.GaugeRightExactly` says, for every schedule,
  exactly when it is right.
* A cached list can be older than the 30 s TTL by the time between a load and its Set: the bound of
  `ProductCache.BoundedStaleness` is reached for every delay (`ProductCache.DelayCounts`).

## Model

| member | source | states |
|---|---|---|
| Responses.ResponseWriter.Wrap | internal/obs/middleware.go:55 | a new recorder reports 200 and nothing written, and does not disturb the writers below it |
| Responses.ResponseWriter.WriteHeader | internal/obs/middleware.go:29-35 | one call moves every writer of the chain at once: each recorder keeps its first code, the connection its first final one; it panics exactly if the connection is uncommitted and the code invalid |
| Responses.ResponseWriter.Write | internal/obs/middleware.go:37-41 | body bytes commit an implicit 200 on the connection only, and are counted by the recorders that override Write |
| Responses.ResponseWriter.SendJSON | internal/api/router.go:125-132 | header first, then body, on every writer of the chain |
| Telemetry.Sinks.Count | internal/metrics/middleware.go:45 | one more on just this method, route and status; every reading stays explained by the trace of updates |
| Telemetry.Sinks.Inc | internal/metrics/middleware.go:31 | one more on just this route's gauge; every reading stays explained by the trace of updates |
| Telemetry.Sinks.Observe | internal/metrics/exemplar.go:28-34 | one more observation on this series, replacing its exemplar only if there is one |
| Middleware.ServeHTTP | internal/api/router.go:68-80 | on real recorders and sinks, any stack of layers around any handler has exactly the effect of the interpreter: every writer's state, every signal in order, and whether a panic escapes |
| Middleware.GuardPanics | internal/obs/middleware.go:52-72 | never re-panics; on a panic logs one line and sends 500 through its recorder only if that has seen no header |
| Middleware.Trace | internal/obs/middleware.go:117-151 | the span starts before and ends after everything inside, is marked on panic and on 5xx, carries the status only without a panic, and panics pass through |
| Middleware.LogRequest | internal/obs/middleware.go:78-108 | one canonical line with recorded status and bytes after the inner layers, none if a panic passes through |
| Middleware.Measure | internal/metrics/middleware.go:27-57 | the gauge rises before and falls after the request; counter, histogram and summary follow in order, a panic counting as 500 and passing on |
| Middleware.Record | internal/metrics/middleware.go:37-48 | the four updates that end a request, in order, the exemplar being the span's only if valid and sampled |
| StackTheory.ScriptEffect | internal/obs/middleware.go:69 | running a script acts on each writer separately, through the operations performed before it returns or panics |
| StackTheory.JSONReply | internal/api/router.go:125-132 | a writeJSON reply with any code, on the connection and both kinds of recorder: final, informational and invalid codes, field by field |
| StackTheory.NotedRules | internal/obs/context.go:25-30 | every signal of a handler by operation: a warning carries its text, level warn and the request id only; an order is handed over under the span of the context |
| StackTheory.RecorderReads | internal/obs/middleware.go:29-41 | a recorder ends with the first code asked for, if any, and with all body bytes if it counts them |
| StackTheory.ConnectionReads | internal/api/router.go:125-132 | the wire status is that of the first committing operation, whatever comes later |
| StackTheory.GatesChoose | internal/api/chaos.go:54-73 | for every stack, a gate is only a choice of handler for the recording layers outside it |
| StackTheory.WriterEffect | internal/obs/middleware.go:52-72 | for every stack, gates included, writers outside see the answering script's operations plus a 500 exactly if a guard that was entered caught a panic before any header; a panic escapes exactly if no guard was entered |
| StackTheory.RecordersAgree | internal/obs/middleware.go:19-41 | at every point of the run inside any stack, all recorders that stack put in place hold one status and one header flag, and all byte counts equal what the connection sent |
| StackTheory.HandlerInside | internal/obs/middleware.go:88-91 | serving a request through any stack is running the answering script once, on exactly the recorders of the layers entered, unused, in the context they built, and unwinding the layers over nothing but the outcome of that run |
| StackTheory.RunResumes | internal/obs/middleware.go:69 | a handler stopped after any number of operations is a stage of its whole run: it has ended, or the whole run goes on from its writers |
| StackTheory.SignalsAgree | internal/obs/middleware.go:143-148 | without a panic, every counter label, canonical line and span attribute of any stack, gates included, shows one status, and every canonical line the bytes sent |
| StackTheory.RecordersMatchWire | internal/metrics/middleware.go:15-21 | the recorded status equals the wire status if and only if no header is asked for or the first one is final and precedes the body (a 200 may follow it) |
| StackTheory.SignalCount | internal/metrics/middleware.go:31-52 | the exact number of every signal for any stack, gates included, script and panic: one per entered layer of its kind on this request's series, nothing net on any gauge, one panic line per rescue, one canonical line per logger no panic passed |
| StackTheory.PanicContained | internal/obs/middleware.go:56-69 | with a guard outside any stack, gates included, no panic escapes, there is one panic line, and the client gets the status already sent, else 500 if no header had been asked for, else 200 |
| StackTheory.RejectedHeaderAnswers200 | internal/obs/middleware.go:65-67 | for every invalid code and every stack whose gates let the request through, asking for that code panics and is answered 200 |
| StackTheory.Clean500 | internal/obs/middleware.go:48-49 | inside a guard around any stack, a panic is answered by the committed status or else 500 if and only if the answering script had committed a response or asked for no header |
| StackTheory.PanicSeenByAll | internal/metrics/middleware.go:39-52 | a panic reaches every layer entered inside the guard: each counter says 500, each span is marked failed without a status, no canonical line appears |
| Router.RequestRecord | internal/api/router.go:63-80 | the complete record of a request through any router stack, in order, with its wire status, bytes and commitment, for every handler, chaos snapshot, credentials and panic |
| Router.RecordInFull | internal/api/router.go:63-80 | the same record with every field spelled out: levels by status class, labels, ids, exemplar of a valid and sampled span only, span parent, failure and status |
| Router.SpanOfRequest | internal/obs/middleware.go:120-121 | the request's span has the drawn id; trace id and sampling are the upstream's if that is valid, else the drawn ones |
| Router.ChaosFails | internal/api/chaos.go:65-69 | with chaos enabled, the client present and the draw below the ratio: no part of the handler runs, the client gets 500 with the error body, and the request leaves exactly one warning and the record of a 500, signal by signal |
| Router.ChaosGivesUp | internal/api/chaos.go:58-63 | a client that leaves during injected latency: nothing is performed, no byte is written |
| Router.ChaosPasses | internal/api/chaos.go:56-71 | in every other case the outcome is that of the stack without the gate |
| Router.AdmittedIsInvisible | internal/api/chaos.go:94-110 | with no token configured, or the right bearer header, or the right query token and no bearer header, a control request has the outcome of the bare recording layers; a plain one always has |
| Router.ExactlyOnce | internal/obs/middleware.go:74-76 | one canonical line exactly if nothing performed panics, else one panic line; the request is counted, observed and summarised once on its own series, a traced span starts and ends once, every gauge ends where it began |
| Router.OneStatus | internal/metrics/middleware.go:37-45 | without a panic all signals show one status, and the client sees it if and only if the header came first |
| Router.WriteJSONIsHeaderFirst | internal/api/router.go:125-132 | every writeJSON response with a final code meets that condition and is recorded with that code |
| Router.Correlated | internal/obs/middleware.go:130-131 | for any handler and panic, canonical line, span and exemplar carry one trace identity, the exemplar exactly if the span is valid and sampled; warnings carry only the request id and the panic line neither |
| Router.PassingGateInvisible | internal/api/chaos.go:71 | wherever a gate stands, if it lets the request through the whole outcome is that of the stack without it |
| Router.ChaosOffIsInvisible | internal/api/chaos.go:54-73 | with chaos disabled a business request has the outcome of the bare recording layers, whatever handler, client and draw |
| Router.ChaosCanBeSwitchedOff | internal/api/router.go:76-92 | an admitted request to switch chaos off is answered 200, and in every run, whatever other sets did between its decision and its store, from that store until another set stores, business requests are served as if there were no chaos layer |
| Router.SetAnswered | internal/api/chaos.go:79-114 | for any credentials and body, a set is answered 401 without admission, else 200 if the body decodes and 400 if not |
| Router.SetChaosIsHandleSet | internal/api/chaos.go:79-92 | the script used for it sends what the contract of Chaos.HandleSet sends, to every writer |
| Router.NotAdmitted | internal/api/chaos.go:94-114 | without admission no part of the handler is performed and the client gets 401 with the error body |
| OrderHandler.HandleCreateOrder | internal/api/handlers.go:43-82 | for all answers of decoder and database: the status of the endpoint's table and the whole body on every writer, and exactly for 201 one order counted, then handed over with inserted id, decoded product and quantity, under the context's span; no panic |
| OrderHandler.AnswerStatus | internal/api/handlers.go:47-69 | the status table: 400 exactly if the body does not decode or asks for no positive quantity, 404 exactly if the product is then not found, 201 exactly if all succeeds, else 500 |
| OrderHandler.ReportedExactly | internal/api/handlers.go:70-76 | what is reported of an order, field by field, and that nothing is reported otherwise |
| OrderHandler.CreateOrderTrims | internal/api/handlers.go:43-82 | the script always writes its header first, with the status of the table and the whole body, and reports an order exactly when it answers 201 |
| InFlight.Conserved | internal/metrics/middleware.go:29-54 | in every interleaving each signal's total is the sum of what each request has emitted so far |
| InFlight.ScrapeReads | internal/metrics/middleware.go:31-47 | a scrape of gauge, histogram, summary, counter and order counters reads exactly the tallies of the updates |
| InFlight.SinksKeep | internal/metrics/exemplar.go:28-34 | the sinks keep every line and ended span in order, count the spans started, and show on each series the last exemplar attached to it |
| InFlight.RunsToEnd | internal/metrics/middleware.go:29-54 | from any state a request can arrive and run to its end, and emits, and leaves in the sinks, exactly its record |
| InFlight.RedMetrics | internal/metrics/middleware.go:29-54 | in every reachable state the gauge of a route is the requests between Inc and Dec; the counter summed over statuses is the requests past it, the histogram count plus those in between; histogram and summary likewise |
| InFlight.RedMetricsAtRest | internal/metrics/middleware.go:29-54 | at rest the gauge is zero and counter sum, histogram and summary all equal the number of requests, panicking ones included |
| InFlight.OrderEvents | internal/api/handlers.go:70-81 | a request reports an order exactly if it is to be counted as 201 on POST /orders: counted, then handed over with the inserted id, the decoded product and quantity, under the span of the request's context |
| InFlight.OrdersExactly | internal/api/handlers.go:43-82 | that is the case exactly if the request passes the chaos gate and its order is valid, its product exists and the insert succeeds |
| InFlight.OrdersMatchRed | internal/api/handlers.go:43-82 | in every interleaving 201s on POST /orders <= orders handed over <= orders created, with equality at rest; every other request has moved none of the three at any time |
| OrderPipeline.ConsumeSpanContext | cmd/consumer/main.go:141-148 | the first traceparent header alone decides, well-formed or not; without one there is no parent |
| OrderPipeline.Consumer.ReadLoop | cmd/consumer/main.go:93-114 | until the reader fails, every message delivered is processed exactly once, in order, under its own span, whatever its headers; exactly those whose headers continue no trace start the one drawn for them |
| OrderPipeline.ReadLoopIsSteps | cmd/consumer/main.go:93-114 | the loop's effect is that of as many consumer steps of the whole system |
| OrderPipeline.Producer.PublishOrder | internal/events/producer.go:87-129 | an enabled producer with an event that encodes starts one publish, for that request and event, under a span of its own below the caller's, and counts nothing; in every other case one error is counted and nothing is published |
| OrderPipeline.Producer.Deliver | internal/events/producer.go:109-128 | an acknowledged write counts one order published, a failed one an error, and neither touches anything else |
| OrderPipeline.OrdersConserved | internal/events/producer.go:87-128 | in every reachable state orders_created = published + publish errors + publishes in flight + handlers between counting and handing over, and at least as many rows are committed |
| OrderPipeline.OrdersAtRest | internal/api/handlers.go:65-76 | at rest created = published + errors, at most the committed rows |
| OrderPipeline.LogIsSafe | internal/events/producer.go:94-127 | every message in the topic carries id, product and quantity of the committed order of one request with positive quantity and listed product; no request publishes twice; orders counted as published are that many publishes whose message is in the topic |
| OrderPipeline.AnswersIgnorePublishing | internal/api/handlers.go:65-81 | in every run the HTTP answer is determined by body and database alone, whatever becomes of the publish |
| OrderPipeline.TraceContinues | internal/events/producer.go:101-118 | under every interleaving a consumed message carries the publish span in a traceparent header; its span, always the one drawn for it, has the publish span as remote parent, and the request's trace id and sampled bit; if the publish span is invalid it starts a fresh trace |
| OrderPipeline.StrangeHeadersStartFresh | cmd/consumer/main.go:102-106 | a message is processed under a root of its own, with the drawn trace, if and only if it has no traceparent or its first one is malformed as text |
| OrderRuns.InvalidOrder | internal/api/handlers.go:47-54 | from any state: a body that does not decode or asks for no positive quantity is answered 400 and changes nothing else |
| OrderRuns.CheckedOrder | internal/api/handlers.go:55-63 | from any state: 500 if the check fails, 404 if the product is not listed, and nothing else has changed; else it is found |
| OrderRuns.FailedInsert | internal/api/handlers.go:65-69 | from any state: a failed insert is answered 500, uncounted and unpublished, whether or not it committed |
| OrderRuns.AcceptedOrder | internal/api/handlers.go:65-81 | from any state: one new row with just that product and quantity, one counted order, one publish of its own or, if disabled or not encodable, one error, and 201 either way |
| OrderRuns.DeliveredOrder | internal/events/producer.go:113-127 | from any state: a publish the broker takes ends as one message with its event and traceparent header in the topic and one order published |
| OrderRuns.FailedOrder | internal/events/producer.go:120-126 | from any state: a failed write counts one error and nothing else |
| OrderRuns.HandedOverHasPublish | internal/events/producer.go:94-109 | in every run an encodable order handed over to an enabled producer has, for good, a publish of its own with its request, id, product, quantity and span |
| OrderRuns.ReadAgain | cmd/consumer/main.go:93-114 | from any state: a consumer put back to an offset processes the message there once more |
| EndToEnd.HandedOverIsPublish | internal/api/handlers.go:71-76 | the event of the request starts the very publish its handler is about to start: same order, same span |
| EndToEnd.Sides | internal/api/handlers.go:43-82 | every run of the whole service is, seen from the HTTP side or from the order pipeline, a run of that side |
| EndToEnd.AlwaysLinked | internal/obs/middleware.go:91 | in every reachable state each handling of an order belongs to one request, runs under that request's server span, and agrees with the status the request was counted with |
| EndToEnd.OnlyHandlerDecides | internal/api/handlers.go:43-82 | no move of a request waits for anything but the progress and answers of its own handler, which exists by then |
| EndToEnd.RestIsFree | internal/events/producer.go:109-128 | requests arrive, and database, broker and consumer act, whenever they could by themselves |
| EndToEnd.OneAccount | internal/api/handlers.go:65-81 | in every reachable state of the whole service 201s on POST /orders <= orders handed over = published + publish errors + in flight <= orders created, counted alike on both sides, <= committed rows |
| EndToEnd.OneAccountAtRest | internal/events/producer.go:87-128 | at rest 201s on POST /orders = published + publish errors = orders created |
| EndToEnd.OneTraceID | internal/obs/propagation.go:10-13 | in every run of the whole service a consumed order message was handed over by one POST /orders request counted as 201, under that request's own server span; if the spans are valid, the consumer's span has the trace id of its canonical line, exemplar and server span |
| Text.SplitJoin | internal/obs/propagation.go:30 | splitting a join of separator-free pieces gives the pieces back |
| Text.JoinSplit | internal/obs/propagation.go:30 | joining what a string splits into gives the string back |
| Traceparent.StartSpanRules | internal/obs/middleware.go:121 | a span start uses the drawn span id, the parent's trace id if it has one, a valid parent's sampling and all its other flags |
| Traceparent.HexAt | internal/obs/propagation.go:22 | two lower-case digits a byte, the high one first |
| Traceparent.UnhexHex | internal/obs/propagation.go:22 | decoding the hex of any bytes gives them back |
| Traceparent.HexUnhex | internal/obs/propagation.go:43-50 | encoding what a lower-case hex string decodes to gives it back |
| Traceparent.ParseFormat | internal/obs/propagation.go:17-63 | for all ids and flags, parsing a formatted context succeeds if and only if both ids are non-zero, with the same ids, exactly the lowest flag bit, and remote set |
| Traceparent.Accepted | internal/obs/propagation.go:29-55 | the accepted strings, exactly: version 00, 32 and 16 lower-case hex digits not all zero, at fixed positions, and a flags field the scan lets through |
| Traceparent.AcceptedVersusStandard | internal/obs/propagation.go:25-28 | every value of section 3.2.2 of W3C Trace Context Level 1 is accepted, and those accepted beyond it are exactly the ones with a lenient but malformed flags field |
| Traceparent.MalformedFlagsAccepted | internal/obs/propagation.go:52-55 | with any valid ids the flags field "1z" is accepted |
| Traceparent.FormatParse | internal/obs/propagation.go:17-63 | reformatting a parsed value changes nothing but its flags, to 00 or 01, and is idempotent |
| Traceparent.FlagsRead | internal/obs/propagation.go:52-55 | two digits of either case are read as one byte |
| Traceparent.FirstDigitRead | internal/obs/propagation.go:52-55 | one digit before anything else is read as its own value |
| Traceparent.DigitAfterBlankRead | internal/obs/propagation.go:52-55 | so is one after a blank |
| Traceparent.FlagsRefused | internal/obs/propagation.go:52-55 | every other flags field is an error |
| Brokers.SplitBrokers | internal/events/producer.go:134-143 | the loop computes the list the following laws are about |
| Brokers.SpaceExactly | internal/events/producer.go:137 | what is trimmed is exactly the white space of Unicode, listed |
| Brokers.EntriesAreBrokers | internal/events/producer.go:131-132 | every entry is non-empty, trimmed and comma-free |
| Brokers.BrokersConcat | internal/events/producer.go:134-143 | two settings joined by a comma parse to the concatenation of their lists |
| Brokers.BrokersRoundTrip | internal/events/producer.go:134-143 | every list of well-formed entries is the parse of its comma-joined text |
| Brokers.BrokersNormalised | internal/events/producer.go:134-143 | joining a parsed list and parsing again changes nothing |
| Brokers.BrokersKeepText | internal/events/producer.go:42-46 | the entries carry exactly the text that is neither blank nor comma, in order, so the producer is disabled exactly if the setting has none |
| ProductCache.Cache.Lookup | internal/cache/cache.go:61-102 | the cached list if one can be had, else exactly the load's answer; one hit or one miss; one error per failing cache operation; the key changed only by a Set that reached the server; and the same case by case: disabled, failing Get, missing or 30 s old, undecodable, failing encoding or Set |
| ProductCache.Cache.Flush | internal/cache/cache.go:54-59 | an enabled cache is emptied, counters stay, a disabled one is left alone |
| ProductCache.BoundedStaleness | internal/cache/cache.go:71-101 | in every run with any callers, faults, flushes and table changes, a returned list is one the table held less than 30 s plus the longest load-to-Set delay before some moment of the call itself, and a loaded list one it held at that very moment |
| ProductCache.TransparentWhenFixed | internal/cache/cache.go:61-102 | while the table does not change, every list returned is the one a direct load returns |
| ProductCache.DelayCounts | internal/cache/cache.go:88-97 | the bound is reached for every delay: for each d there is a run whose longest load-to-Set delay is d + 1 ms in which a caller gets, through a live entry, a list exactly 30 s + d ms old |
| ProductCache.CacheAccounts | internal/cache/cache.go:65-101 | in every reachable state hits are the calls answered from the cache, misses are loads done plus loads about to run, together they are the counted lookups, and cache_errors is the number of failed Gets, decodings, encodings and Sets |
| ProductCache.CacheAtRest | internal/cache/cache.go:65-88 | at rest hits plus misses are the calls there were, and every miss is a load |
| ProductCache.ErrorsAreLoadErrors | internal/cache/cache.go:1-3 | in every run a call returns an error if and only if its own load ran and failed |
| ProductCache.AloneIsLookup | internal/cache/cache.go:61-102 | a call between whose steps only time passes does in the concurrent system what the contract of Lookup promises |
| ProductCache.KeyAsFound | internal/cache/cache.go:54-82 | in the concurrent system a caller finds nothing after a flush or from 30 s on, a fault after a corruption or a failing Get, and else the stored list |
| ChaosControl.HarmlessExactly | internal/api/chaos.go:56-71 | a snapshot lets every request through, whatever client and draw, if and only if it is disabled or injects neither latency nor errors |
| ChaosControl.InjectExactly | internal/api/chaos.go:57-70 | the client decides exactly during injected latency, the draw exactly below the ratio and only for a client still there |
| ChaosControl.AdmittedExactly | internal/api/chaos.go:96-110 | everyone is admitted without a configured token; under one a bearer header decides alone, and the query token counts only without one |
| ChaosControl.OpenWithoutToken | internal/api/chaos.go:96-99 | without a configured token any credentials will do |
| ChaosControl.SanitisedIsNearest | internal/api/chaos.go:88-89 | what is stored is the one nearest safe state to the one asked for: latency within 0..10000, ratio within 0..1, unchanged exactly if it was safe, any other strictly further away |
| ChaosControl.Chaos.Set | internal/api/chaos.go:47-52 | stores the state whole and shows its flag on the gauge |
| ChaosControl.Chaos.HandleSet | internal/api/chaos.go:79-92 | a body that decodes replaces the state by its sanitised form and is answered 200; any other changes nothing and is answered 400; safety and the gauge's agreement are kept |
| ChaosControl.ChaosSafe | internal/api/chaos.go:43-56 | in every run with any overlapping sets the stored state and every snapshot are safe states that one request asked for, sanitised as a whole |
| ChaosControl.StoredIsLastAsked | internal/api/chaos.go:47-52 | in every run the stored state is the sanitised wish of the request that stored last, and the gauge shows the flag of the request that moved it last |
| ChaosControl.GaugeRightExactly | internal/metrics/metrics.go:142-149 | for every schedule the gauge equals the stored flag if and only if those two requests asked for the same flag, none counting as off |
| ChaosControl.SettledWithoutOverlap | internal/api/chaos.go:47-52 | as long as no set stores while another is mid-way, only the last storer can be mid-way, and otherwise it moved the gauge last |
| ChaosControl.GaugeFollowsFlag | internal/metrics/metrics.go:142-149 | then the gauge equals the flag whenever no set is mid-way |
| ChaosControl.OverlapStrandsGauge | internal/api/chaos.go:47-52 | any two overlapping sets of opposite flags have a run that leaves the gauge at 1 with chaos off |
| ChaosControl.StoredUntilNextStore | internal/api/chaos.go:43-48 | a set is in force, sanitised, from its store, whatever other sets did between its decision and that store, until another set stores |
| ChaosControl.SetGoesThrough | internal/api/chaos.go:43-56 | from every reachable state a set can be begun, stored and shown and a snapshot taken, with just that effect |
| Logging.DerivedForm | internal/obs/logging.go:31-40 | any chain of With and WithGroup keeps exactly one injecting wrapper, outermost, over a handler with those attributes and groups |
| Logging.InjectionSurvives | internal/obs/logging.go:21-29 | a record of any derived logger emits the derived attributes, its own, and then, exactly if a trace is active, trace_id and span_id, each with its own id |
| Logging.AttributesStay | internal/obs/context.go:17-30 | an attribute of the request's logger is on every record of every logger derived from it, at the same place |
| Logging.RequestIDOnEveryLine | internal/obs/middleware.go:81-86 | every line of every logger derived from the one RequestLogger puts on the context, groups included, carries that request's method, route and request_id |
| Logging.TopLevelExactly | internal/obs/logging.go:9-10 | the trace id is at the top level of the line if and only if no group is open |
| Logging.WithoutRewrapping | internal/obs/logging.go:31-33 | derived from the unwrapped handler, loggers emit the same attributes but never the ids; the two differ exactly if a trace is active |

## Left out

* Postgres, Redis, Kafka, OpenTelemetry and Prometheus internals: they are environments with free
  choices. A database may commit and still return an error, the broker may append any number of
  copies, also after the writer gave up, Redis may fail, expire, be flushed or lose a Set. Nothing is
  claimed about order or duplicates in the topic.
* Span start follows the SDK's documented parent rules (trace id inherited, new span id, parent-based
  sampling); span links, events, exporters and the span kinds are not part of this model.
* JSON encoding and decoding: a body decodes or does not, and an encoded product list decodes to
  itself unless its bytes were corrupted.
* Real time and randomness: a nondecreasing clock and draws chosen by the environment; durations are
  not part of histograms and lines.
* Process start and shutdown, listeners, signals and environment variables; publishes in flight at
  exit stay in flight.
* The route table, `routePattern` and `GET /metrics`: a request comes with its route label.
* Body writes that net/http refuses (no-body statuses, HEAD, closed connections) are `Body(n)` with
  the number of bytes accepted; `Flush`, `Hijack` and `Unwrap`, `panic(nil)` and `Goexit` are left out.
* The leak and CPU handlers, `/slow`, `/error`, `clampAtoi` and the alert sink: range facts of one
  branch each.
* The constant-time comparison of the admin guard is equality; nothing is said about timing.
* Attributes of lines and spans other than status, bytes, ids and level; the text of errors.
* The order pipeline's interleaving runs on values: handlers and publish goroutines are steps of a
  state machine. `Producer` and `Consumer` are objects whose methods take those steps without
  interference, and the `traceparent` text is formatted when the broker appends, from a span that
  never changes after the publish started.
* Redis and the chaos switch are not part of the joint system of `EndToEnd`: they reach a request
  only through its script and its snapshot, which are arbitrary there.
