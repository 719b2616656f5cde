# raccoon event ingestion core, in Dafny

raccoon takes batches of client events over websocket connections and publishes them to Kafka. This project models three sequential pieces of that path and proves what they promise:

- **The per-connection read loop** of the websocket handler (module `WebsocketHandler`). It reads frames and decodes each one with the codec bound to its frame type: binary frames use proto, text frames use JSON. Each frame is counted in `batches_read_total`. Each event is counted in `events_rx_bytes_total` and `events_rx_total`. A batch that decodes is handed to the collector and answered with a success response. A frame that does not decode is answered with a bad-request response, and the loop goes on. A read error is classified as an expected close or an unknown failure, and it ends the loop. The loop is modelled as a method over the frames the connection delivers. Its output is the trace of observable actions: metric calls, collector calls and socket writes. The method is proved equal to a specification function, `Session`, about which the accounting lemmas are stated.
- **The collector** (module `Collection`). It is a class whose bounded queue is a `seq` field. `Collect` stamps the caller's request with the push time, appends a copy to the tail of the queue, and returns no error.
- **One worker** (module `Worker`). For each dequeued batch it records the idle time, publishes the events in one bulk call, and counts the failed entries of the bulk error. Only for a non-empty batch does it record three per-event latencies, using Go's truncating integer division. It then reports the failures and the remaining successes. The drain of the producer's delivery reports adds one failure increment per report that carries an error.

`Common` holds the shared records: connection identifier, event, decoded request, collect request, metric and action. It also holds the trace-counting functions the properties are stated with.

Times are Unix milliseconds passed in as parameters: a `Clock` per frame and a `BatchClock` per batch. A request that has not been through `Collect` carries Go's zero time, January 1 of year 1, as `ZeroTime`. The proto and JSON codecs are function-valued fields of `Codecs`. The bulk publish is represented by its results, one per batch.

## Model

| member | source | states |
|---|---|---|
| Collection.ChannelCollector.constructor | collection/service.go:12-16 | a new collector has an empty queue of the given capacity |
| Collection.ChannelCollector.Collect | collection/service.go:18-22 | the caller's request gets TimePushed = now with every other field unchanged; exactly that stamped copy is appended at the tail, earlier entries stay as they were; the result is always no error; the queue stays within capacity (a full queue would block, so room is required) |
| Collection.CollectInOrder | collection/service.go:19-20 | two successive Collect calls leave their two stamped requests at the tail in call order, each with its own stamp, and nothing earlier changes; collecting the same request twice enqueues two copies |
| WebsocketHandler.GetSerDeMap | services/rest/websocket/handler.go:30-42 | the codec map has exactly the binary and text frame types as keys; binary maps to the proto pair, text to the JSON pair |
| WebsocketHandler.NewHandler | services/rest/websocket/handler.go:44-62 | a new handler carries exactly the codec map GetSerDeMap builds |
| WebsocketHandler.StandardTypesKnown | services/rest/websocket/handler.go:96 | with that codec map, every frame has a codec pair if and only if every data frame is binary or text |
| WebsocketHandler.ReadFailureMetric | services/rest/websocket/handler.go:80-91 | a read error produces one batches_read_total increment; its tag says `reason=closeerror` if and only if the error is a close with code 1000, 1001, 1005 or 1006, and `reason=unknown` if and only if it is anything else |
| WebsocketHandler.UnixSeconds | services/rest/websocket/handler.go:127 | seconds are the milliseconds rounded down: s*1000 <= ms < s*1000+1000, also before 1970 |
| WebsocketHandler.SuccessResponse | services/rest/websocket/handler.go:124-132 | success status, OK code, empty reason, data holding only `req_guid` mapped to the request's GUID, sent time in Unix seconds of the response time |
| WebsocketHandler.BadRequestResponse | services/rest/websocket/handler.go:138-144 | error status, bad-request code, empty data; the reason starts with `cannot deserialize request: ` and the decode error can be read back from the rest of it |
| WebsocketHandler.WriteSuccessResponse | services/rest/websocket/handler.go:123-135 | the answer is one write on the same frame type as the request |
| WebsocketHandler.WriteBadRequestResponse | services/rest/websocket/handler.go:137-148 | the answer is one write on the same frame type as the request |
| WebsocketHandler.EventCounters | services/rest/websocket/handler.go:116-121 | two counter calls per event |
| WebsocketHandler.SendEventCounters | services/rest/websocket/handler.go:116-121 | the loop over events makes, in event order, the byte count and the increment for each event |
| WebsocketHandler.TallyTotals | services/rest/websocket/handler.go:118-119 | one event adds its byte length to events_rx_bytes_total and one to events_rx_total, and nothing to batches_read_total |
| WebsocketHandler.EventCountersTotals | services/rest/websocket/handler.go:116-121 | over a batch, events_rx_total grows by the number of events and events_rx_bytes_total by their total size; no write, no collector call, no batches_read_total increment |
| WebsocketHandler.FramesRead | services/rest/websocket/handler.go:78-92 | the loop reads every frame when none fails; otherwise it reads up to and including the first read failure and no further |
| WebsocketHandler.FramesReadAt | services/rest/websocket/handler.go:79-92 | a first read failure at position k means exactly k+1 frames are read |
| WebsocketHandler.RunStop | services/rest/websocket/handler.go:87-91 | the loop breaks after handling the first read failure: what follows it is never handled |
| WebsocketHandler.ReadFailureEndsSession | services/rest/websocket/handler.go:79-92 | after the first read failure the session ends with the classified failure counter and nothing more, and k+1 frames were read |
| WebsocketHandler.DecodeFailureContinues | services/rest/websocket/handler.go:98-103 | a frame that does not decode yields the serde failure counter and a bad-request write on its own frame type, and the loop continues with the next frame |
| WebsocketHandler.DecodeSuccessContinues | services/rest/websocket/handler.go:94-112 | a frame that decodes yields the accepted actions with the serializer of its own frame type and a success write on that type, and the loop continues with the next frame |
| WebsocketHandler.AcceptedAccounting | services/rest/websocket/handler.go:104-112 | a decoded frame gives one batches_read_total increment and one events_rx_total increment per event; exactly one collector call, carrying the connection identity, the time taken before decoding and the decoded batch; then, last, exactly one success write |
| WebsocketHandler.RejectedAccounting | services/rest/websocket/handler.go:98-102 | a frame that does not decode gives one batches_read_total increment, no event counter, no collector call and exactly one bad-request write |
| WebsocketHandler.ReadFailureAccounting | services/rest/websocket/handler.go:80-91 | a read failure gives one batches_read_total increment and no write and no collector call |
| WebsocketHandler.StepAccounting | services/rest/websocket/handler.go:79-112 | any frame is counted once; it is answered if and only if it is a data frame; it is collected exactly when it decodes |
| WebsocketHandler.MessagesRead | services/rest/websocket/handler.go:78-113 | the data frames read never outnumber the frames read |
| WebsocketHandler.SessionAccounting | services/rest/websocket/handler.go:78-113 | over a whole connection: batches_read_total counts every frame read exactly once; there is one response per data frame read; the collector gets exactly the frames that decoded, in frame order; events_rx_total grows by the number of events handed to the collector |
| WebsocketHandler.HandleMessage | services/rest/websocket/handler.go:94-112 | handling one data frame does what the per-frame specification says |
| WebsocketHandler.SessionStep | services/rest/websocket/handler.go:78-113 | each pass of the loop appends exactly the actions of the frame it read; after a data frame the loop goes on, after a read failure the session is complete |
| WebsocketHandler.HandleFrame | services/rest/websocket/handler.go:79-112 | one pass of the loop does what the per-frame specification says and stops the loop if and only if the read failed |
| WebsocketHandler.HandlerWSEvents | services/rest/websocket/handler.go:78-113 | for a handler built with the standard codec map, the read loop produces exactly the session trace and reads exactly FramesRead frames |
| Worker.TruncDivBounds | worker/worker.go:71-75 | the latency division truncates toward zero: the remainder has the dividend's sign and is smaller than the divisor |
| Worker.TruncDivNegate | worker/worker.go:71-75 | negating the elapsed time negates the average (unlike Euclidean division) |
| Worker.NonNil | worker/worker.go:59-67 | there are never more failures than bulk-error entries |
| Worker.NonNilExtremes | worker/worker.go:59-67 | zero failures if and only if no entry carries an error; as many failures as entries if and only if every entry carries one |
| Worker.CountBulkErrors | worker/worker.go:57-67 | totalErr is 0 when the publish returns no error, and otherwise the number of entries of the bulk error that carry one |
| Worker.Latencies | worker/worker.go:68-76 | three timings for a non-empty batch, none for an empty one |
| Worker.ProcessBatch | worker/worker.go:53-78 | one iteration of the worker loop does what the per-batch specification says |
| Worker.BatchDeliveryCounts | worker/worker.go:77-78 | the iteration ends with the failure count totalErr and the success count len(events) - totalErr, tagged `success=false,conn_group=<group>` and `success=true,conn_group=<group>` |
| Worker.DeliveryTotals | worker/worker.go:77-78 | read back by tag prefix, the two counts give exactly the failures and the successes |
| Worker.SuccessesNonNegative | worker/worker.go:78 | the success count lies between 0 and the batch length when the bulk error has at most one entry per event |
| Worker.BatchTimings | worker/worker.go:53-76 | the idle time (dequeue time minus TimePushed) comes first and the single publish of the batch's events right after; there are four timings for a non-empty batch and one for an empty batch |
| Worker.LatencyAverages | worker/worker.go:70-76 | for a non-empty batch, each latency m of an elapsed time d over n events is truncated toward zero: m*n <= d < m*n + n when d >= 0, and m*n - n < d <= m*n when d < 0 (a client clock ahead of the server's) |
| Worker.ScenarioTwoOfFive | worker/worker.go:57-78 | a bulk publish of five events that returns two errors reports 2 failures and 3 successes |
| Worker.Published | worker/worker.go:57 | one publish per batch |
| Worker.WorkerRunPublishes | worker/worker.go:52-79 | over a run, each dequeued batch is published exactly once, in dequeue order, and nothing else is published |
| Worker.WorkerRunDeliveries | worker/worker.go:52-79 | over a run, reported failures add up to the failures the publishes returned, and reported successes plus failures add up to the events dequeued |
| Worker.RunWorker | worker/worker.go:52-79 | the worker loop produces exactly the run's trace, and its successes plus failures equal the events it dequeued |
| Worker.FailedReports | worker/worker.go:44-50 | there are never more failures than reports |
| Worker.NoFailedReports | worker/worker.go:44-50 | no failure is counted if and only if no report carries an error |
| Worker.DrainDeliveries | worker/worker.go:44-50 | one failure increment with an empty group tag per report carrying an error, nothing else |
| Worker.AllDeliveryFailures | worker/worker.go:48 | each drain increment counts once in kafka_messages_delivered_total |

## Left out

- Goroutines, the wait group, worker start-up and `FlushWithTimeOut` (worker/worker.go:37-43, 80-100). These are concurrency and wall-clock races. Only one worker's sequential loop and one drain loop are modelled.
- The websocket upgrade, the connection table, the ping channel and connection close (services/rest/websocket/handler.go:44-77). These are I/O and registry code that is not part of this model. The frames a connection delivers are an input sequence, and socket writes are trace actions.
- The proto and JSON codecs and the bulk publish are outside code. They are function parameters and per-batch results. The error a serializer returns is discarded, exactly as the handler discards it.
- The logger. Log lines are not observable actions here.
- The context passed to `Collect` is never read, so a send on a full queue blocks with no way out. The model requires room in the queue instead of modelling the block. Goroutines racing on the queue are not modelled.
- Frame types other than binary and text are excluded by a precondition of `HandlerWSEvents`, stated for a handler built with the standard codec map: the websocket library's read call never returns other data-frame types. Such a type would find no codec in the map and fail on a nil entry.
- The `err.(publisher.BulkError)` assertion: a publish error is always a bulk error by its type here, so the panic of a different error type is not modelled. The same holds for the `d.(*kafka.Message)` assertion in the drain: a report is always a message.
- A missing sent time. In the wire format `sent_time` is optional, so a client batch without it decodes, is collected and gets a success answer. A worker then reads the seconds of a nil timestamp at worker/worker.go:71 for a non-empty batch, and the panic ends the process. The model's `SendEventRequest` always carries `sentTimeSeconds`, so it cannot express a missing sent time, and this crash is not modelled.
- Time is whole milliseconds. Nanoseconds are not modelled; the duration conversions round them toward zero. The saturation of Go durations beyond about 292 years and int64 overflow are not modelled either.
- The duration of the bulk publish is visible only through the clock readings given for the batch.
- Model decisions taken from the code:
  - `Collect` ignores its context (collection/service.go:18-22), so the block on a full queue has no cancellation.
  - An expected close covers the "no status received" code 1005 as well as 1000, 1001 and 1006 (services/rest/websocket/handler.go:81-84).
  - The worker reads the same four fields of the queued request under the name `EventsBatch`; the model uses one record, `CollectRequest`.
