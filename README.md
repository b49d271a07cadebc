# hermes ingest core, modelled in Dafny

hermes is a small HTTP relay that collects event records and forwards
them, in batches, to a Splunk HTTP Event Collector. This project models
its two sequential parts and proves properties of them:

- **Event normalization** (`internal/biz/app.go`), modules `Biz` and
  `StrConv`.
  - `App.Post` turns each record of a post request into an `EventJson`. It
    defaults host, source, source type and index, and resolves the
    timestamp with `parseTime`.
  - It then sends the events, in record order, into the uploader's channel
    and replies with the number of records.
  - `parseTime` tries, in this order: a base-10 `int64` string, an
    RFC 3339 string, an `int64` value, and finally the clock.
- **The batch accumulator** (`internal/dao/batch_upload.go`), modules `Dao`
  and `JsonLines`.
  - `BatchUploader.Start` is a single consumer loop over a
    `strings.Builder`, an event counter and a stop flag.
  - Each received event's JSON is appended to a newline-joined body (JSON
    lines).
  - The body goes to `Upload` when it reaches `maxSize` bytes, when the
    count reaches `maxCount`, or when the channel has stayed quiet for
    `maxDelayMs`.
  - A nil event stops the loop.

Layout:

- `wrappers.dfy` holds `Option`.
- `go_values.dfy` holds `int64`, `byte` and the dynamic values of a decoded
  record.
- `api.dfy` holds the request and response shapes.
- `strconv.dfy` holds `strconv.ParseInt` and `FormatInt` in base 10.
- `json_lines.dfy` holds the batch body format: `Join`, and `Split` as
  `strings.Split` on `"\n"`.
- `batch_upload.dfy` holds:
  - the pure step functions `Accept` and `Expire`;
  - the class `BatchUploader`, whose fields are the loop's state;
  - concrete runs, in module `BatchScenarios`.
- `app.dfy` holds `ParseTime`, `NewEvent` and the class `App` with `Post`,
  plus module `Pipeline`, which connects `Post` to the loop.

Modelling choices:

- The channel is the field `chEvents: seq<Option<EventJson>>`; a nil
  pointer is `None`.
- Each `Upload(payload, count)` call is recorded in `uploads`.
- Ghost fields record the lines in the builder (`pending`), the lines of
  every upload (`batches`) and every event received (`received`).
- The class invariant `Valid` states four facts:
  - the builder is `Join(pending)`;
  - the counter is `|pending|`;
  - the uploads are the batches joined;
  - the flushed and pending lines are the received events serialized, in
    order.
- `json.Marshal` is the constructor parameter `marshal: EventJson -> Line`.
  A `Line` is a non-empty byte string without a newline byte, since compact
  JSON escapes newlines and a marshalled struct starts with `{`.
- The `select` is `Step`:
  - a buffered item is taken first, which simplifies the `select` race (see
    "Left out");
  - on an empty channel the timer fires.
- The clock is a parameter. `clock(i)` is the time that the fallback of
  `parseTime` for record `i` would read. A record whose time is parsed from
  the record itself never reads it.
- `time.Parse(time.RFC3339, s)` followed by `UnixMilli()` is the parameter
  `rfc3339: string -> Option<Int64>`.

Two details of the threshold checks follow the code exactly:

- **Size threshold.** The code compares `sb.Len()` with `maxSize`. That is
  the length of the whole body, so the newline separators count towards
  the limit.
- **Count check.** The code applies the count check as a second,
  independent `if`, not as an `else if`. With `maxCount <= 0`, an event
  that reaches the size threshold is therefore followed by an upload of an
  empty body with count 0. `Dao.AcceptFlushes` states this case.

## Model

| member | source | states |
|---|---|---|
| StrConv.ParseInt | internal/biz/app.go:72-75 | `strconv.ParseInt(s, 10, 64)` succeeds exactly when the text is an optional sign followed by one or more ASCII digits and its signed value (`-` negates, `+` does not) lies within int64; the result is then that signed value. Every digit string whose magnitude fits in int64 is accepted; magnitudes above 2^63 are rejected for either sign. |
| StrConv.ParseIntMagnitudeEdge | internal/biz/app.go:72-75 | The magnitude 2^63 parses only after `-`, as the minimum int64; with `+` or no sign it is out of range. |
| StrConv.FormatInt | internal/biz/app.go:72 | Decimal formatting is the inverse of `ParseInt`: parsing the formatted value gives every int64 back. The leading `-` appears exactly for negative values. |
| StrConv.DecimalDigits | internal/biz/app.go:72 | Every natural number has a non-empty digit string without a leading zero whose decimal value is that number. |
| StrConv.ParseIntMillisExample | internal/biz/app.go:70-75 | `"1700000000000"` parses to 1700000000000. |
| Biz.ParseTime | internal/biz/app.go:66-87 | `parseTime` precedence: a base-10 int64 string is used verbatim, before RFC 3339; otherwise an RFC 3339 string gives its milliseconds; an unparseable string falls back to now; an `int64` is used verbatim. Nil, float64 (every JSON number), bool and other types give now. The result is always now or a value the input supplies. |
| Biz.ParseTimeMillisExample | internal/biz/app.go:70-75 | The string `"1700000000000"` resolves to 1700000000000, whatever the RFC 3339 parser would do with it. |
| Biz.ParseTimeFormatted | internal/biz/app.go:70-75 | Every int64 written in decimal resolves to itself. |
| Biz.NewEvent | internal/biz/app.go:35-58 | The event keeps the record unchanged and carries the resolved time. Host is the request host if non-empty, else the remote address. Source, source type and index are the request values if non-empty, else `"hermes"`, `"json"` and `"main"`, so only the host can be empty. |
| Biz.NewEventIdempotent | internal/biz/app.go:39-58 | Defaulting is idempotent: feeding an event's own fields back as request values gives the same event. |
| Biz.Normalize | internal/biz/app.go:34-58 | A request yields exactly one event per record, in record order, each built by `NewEvent`. |
| Biz.AsItems | internal/biz/app.go:59 | `Post` sends one channel item per event, and none of them is the nil sentinel. |
| Biz.PresentItems | internal/biz/app.go:59 | The events carried by the sent items are exactly the events, in order. |
| Biz.AsItemsAppend | internal/biz/app.go:59 | Sending two runs of events one after the other sends the items of both, in order. |
| Biz.ItemsOfPresent | internal/biz/app.go:59 | A channel holding no nil sentinel holds exactly the items of the events in it. |
| Biz.SentItemsAll | internal/biz/app.go:34-60 | After `n` records, the items sent are the first `n` items of the normalized request. |
| Biz.BuildEvent | internal/biz/app.go:35-58 | Building the event field by field, with the if/else chains, gives `NewEvent`. |
| Biz.App.constructor | internal/biz/app.go:18-23 | `NewApp` creates a fresh uploader with the given thresholds, the delay clamped, an empty channel, no uploads and the loop running. |
| Biz.App.PostRecord | internal/biz/app.go:35-59 | One loop iteration appends exactly the record's event to the channel. |
| Biz.App.Post | internal/biz/app.go:33-64 | The channel grows by exactly the items of the normalized request, in record order, and nothing else changes. The reply's count is the number of records, whatever becomes of them later. |
| JsonLines.JoinSnoc | internal/dao/batch_upload.go:58-67 | Appending an event writes a separator only when the builder is non-empty, then the line. |
| JsonLines.JoinSeparators | internal/dao/batch_upload.go:58-67 | N lines give exactly N-1 newline bytes, and the body neither starts nor ends with one. Its size is the lines' sizes plus N-1. |
| JsonLines.DecodeJoin | internal/dao/batch_upload.go:58-67 | Splitting a body on newlines gives back exactly the joined lines, so a body determines its events. |
| Dao.Accept | internal/dao/batch_upload.go:58-78 | One received event adds its line to the batch; the lines flushed and the lines still pending are the old pending lines plus the new one, in order, with no loss or duplication. |
| Dao.AcceptBounds | internal/dao/batch_upload.go:69-78 | With positive thresholds, every event step ends with the body below `maxSize` bytes and fewer than `maxCount` events. With `maxCount >= 1` it uploads at most once, and never an empty batch. |
| Dao.AcceptFlushes | internal/dao/batch_upload.go:69-78 | An upload happens exactly when a threshold is reached, and any upload leaves nothing pending. The size threshold uploads the whole pending body first. With `maxCount <= 0` an empty upload follows it. The count threshold alone uploads the whole grown body as a single upload. |
| Dao.Expire | internal/dao/batch_upload.go:79-85 | The timer uploads the pending lines exactly when there are any, all of them together as a single upload, and leaves nothing pending. |
| Dao.ClampDelay | internal/dao/batch_upload.go:37-40 | `MAX_BATCH_DELAY_MS` is kept when positive; otherwise it becomes 1. |
| Dao.UnbatchUploads | internal/dao/batch_upload.go:69-85 | There is one upload per flushed batch. Decoding the upload bodies in order gives the flushed lines in order. Each upload's count is the number of lines in its body. |
| Dao.AppendKeeps | internal/dao/batch_upload.go:58-67 | Writing the separator, counting and writing the line keeps the builder, the counter and the serialized history consistent. |
| Dao.AdvanceOne | internal/dao/batch_upload.go:51-86 | Each `select` iteration takes at most the channel's head and receives its event. It stops exactly on a nil. An iteration that takes nothing leaves the channel empty and nothing pending. |
| Dao.QuietAfter | internal/dao/batch_upload.go:79-85 | More iterations than channel items without a stop means the timer fired, so nothing is pending. |
| Dao.DeliveredInOrder | internal/dao/batch_upload.go:52-85 | Decoding every upload body and then the builder gives exactly the received events serialized, in arrival order. Each upload's count equals the lines in its body. |
| Dao.BatchUploader.constructor | internal/dao/batch_upload.go:24-44 | The uploader starts with an empty channel, builder and counter, no uploads, the loop running, and the delay clamped. |
| Dao.BatchUploader.Send | internal/biz/app.go:59 | A producer's send appends to the channel (FIFO). |
| Dao.BatchUploader.Upload | internal/dao/batch_upload.go:90 | The sink records exactly the payload and count it is given. |
| Dao.BatchUploader.FlushPending | internal/dao/batch_upload.go:70-72 | An upload sends the builder with its count and resets the builder and counter together to empty and 0. |
| Dao.BatchUploader.AppendLine | internal/dao/batch_upload.go:58-67 | Appending a received event adds exactly its line to the pending lines and the event to the received ones. The class invariant is kept. |
| Dao.BatchUploader.OnEvent | internal/dao/batch_upload.go:58-78 | A received event updates the pending and uploaded lines as `Accept` says, and the invariant is kept. |
| Dao.BatchUploader.OnTimeout | internal/dao/batch_upload.go:79-85 | The timer updates the pending and uploaded lines as `Expire` says. |
| Dao.BatchUploader.OnNil | internal/dao/batch_upload.go:54-57 | The nil sentinel sets `stop`. |
| Dao.BatchUploader.Step | internal/dao/batch_upload.go:51-86 | In one `select`: an empty channel fires the timer, as `Expire` says. A nil head is consumed and stops the loop, with no upload, no new batch and the pending lines untouched. An event head is consumed, received and accepted, as `Accept` says. |
| Dao.BatchUploader.Iterate | internal/dao/batch_upload.go:45-87 | One loop iteration keeps the loop invariant: the items taken so far are a prefix of the channel, their events are received, and the pending lines and batches are those of `Consume` over the taken items followed by `Settle` for the timer. |
| Dao.BatchUploader.Start | internal/dao/batch_upload.go:42-87 | The loop runs until `stop` and keeps the invariant. It takes the channel's items in order, up to and including the first nil, and receives every event it takes. Its pending lines and new batches are exactly those of accepting each taken event, skipping nothing but the nil, then the timer if it fired. Earlier uploads stay as a prefix. Once the channel has stayed empty for a timer period, nothing is pending. |
| Dao.TakeDelivers | internal/dao/batch_upload.go:52-78 | Taking one item appends the event's line, if it is an event, to the uploaded and pending lines; a nil adds nothing. |
| Dao.AcceptDelivers | internal/dao/batch_upload.go:58-78 | After earlier batches, accepting an event appends exactly its line to all uploaded and pending lines. |
| Dao.ConsumeDelivers | internal/dao/batch_upload.go:52-78 | Taking a sequence of items loses, reorders and duplicates nothing: uploaded then pending lines are the old pending lines followed by the serialized events among the items. |
| Dao.DeliversSnoc | internal/dao/batch_upload.go:52-78 | The no-loss property of taking items extends by one item. |
| Dao.UploadedZero | internal/dao/batch_upload.go:42-44 | Before the first iteration nothing has been taken or uploaded. |
| Dao.UploadOne | internal/dao/batch_upload.go:51-86 | One `select` iteration extends the upload invariant by one step: the taken item is consumed, or the timer fires on an empty channel. |
| Dao.UploadAt | internal/dao/batch_upload.go:51-86 | The same step, stated on channel positions: position `k` advances by one for a taken item and stays for the timer. |
| Dao.UploadTaken | internal/dao/batch_upload.go:52-78 | Taking the item at position `k` moves the invariant from `Consume` of the first `k` items to `Consume` of the first `k+1`. |
| Dao.IdleStep | internal/dao/batch_upload.go:79-85 | The timer on an empty channel flushes the pending lines once; a second firing uploads nothing. |
| Dao.TakeStep | internal/dao/batch_upload.go:52-78 | An iteration taking an item changes the pending lines and batches as `Take` says. |
| Dao.SerializeLen | internal/dao/batch_upload.go:52-67 | Each item of a channel without nil serializes to exactly one line. |
| Dao.QuietFlushAll | internal/dao/batch_upload.go:58-78 | Events whose body stays below `maxSize` bytes and whose number stays below `maxCount` are never uploaded on arrival. Taking them from an empty builder leaves all their lines pending, in arrival order. |
| Dao.QuietThenTimer | internal/dao/batch_upload.go:58-85 | N events below both thresholds, followed by a quiet period, give exactly one upload. It holds all N lines in arrival order and leaves nothing pending. |
| Dao.EarlierUploadsKept | internal/dao/batch_upload.go:42-87 | The loop only ever adds uploads: the uploads before it remain a prefix, in order. |
| BatchScenarios.CountThreshold | internal/dao/batch_upload.go:74-85 | With `maxCount` 2, events A, B and C give an upload of A and B when B arrives, then C alone when the timer fires. |
| BatchScenarios.SizeThreshold | internal/dao/batch_upload.go:69-73 | One event larger than `maxSize` is uploaded at once, alone. |
| BatchScenarios.StopDiscardsPending | internal/dao/batch_upload.go:54-57 | A nil behind a buffered event stops the loop without uploading that event, and whatever was sent after the nil stays in the channel. |
| Pipeline.DrainedAll | internal/dao/batch_upload.go:45-85 | On a channel without nil, a loop run for more iterations than there are items takes every item, keeps running and ends with nothing pending. |
| Pipeline.Drain | internal/dao/batch_upload.go:42-87 | Draining a channel of events delivers every event received before and then the channel's events, each once and in order, and leaves the builder empty. |
| Pipeline.QueuedThenPosted | internal/biz/app.go:59 | Events posted behind a nil-free channel leave it holding the items of the queued events followed by those of the posted ones. |
| Pipeline.PostAndDrain | internal/biz/app.go:33-64 | With a channel holding only events, a request posted on its own followed by the loop draining the channel delivers every event to the sink once: those received before, then those already queued, then the request's records in record order. |

## Left out

- `Upload`'s body (internal/dao/batch_upload.go:91-125) is not modelled: the URL and token lookup, the HTTP request, `client.Do`, reading the error response, timing, logging and the returned status. The sink only records its arguments.
- internal/dao/uploader.go is not part of this model. It holds the Splunk client, the environment lookups that panic when unset, and a singleton: network and environment plumbing.
- The goroutine started by `NewBatchUploader`, the `select` race and the `time.After` timer are not modelled as concurrency. Steps are explicit calls, and the timer fires exactly when the channel is empty. This is a simplification. With a very short delay, scheduling can leave both `select` cases ready, and Go then picks one of them at random, so the program may flush before taking a buffered item.
- Biz.App.Post: producers are sequential. `Post` runs with no other producer's sends and no consumer steps between its records, so a request's events are adjacent in the channel. In the program each request is handled in its own goroutine, so concurrent requests can interleave their sends, and only each request's own record order is kept. The same holds for the order that Pipeline.PostAndDrain states.
- The channel's 1000-slot capacity and the backpressure it gives are not modelled: `Send` never blocks.
- `json.Marshal` is an abstract function, and its panic on failure (internal/dao/batch_upload.go:63-66) is left out, because a marshal of this struct does not fail.
- `time.Parse` with `time.RFC3339` is a parameter. The model therefore does not prove that, for example, `"2023-01-01T00:00:00Z"` gives 1672531200000.
- `time.Now` is a parameter. `Post` reads it as `clock(i)` for record `i`.
- The `GetEnvInt` configuration reads and their defaults (100, 1048576, 100) are not modelled. The thresholds are constructor parameters.
- All `klogging` calls are left out.
- `App.Ping`, internal/handler/handler.go, service/hermes/hermes.go and cmd/hello/hello.go are not part of this model: they are HTTP routing, server lifecycle and a demo program.
- Dao.BatchUploader.Start: runs at most `rounds` iterations rather than forever, because a verified method must terminate. The bound is a parameter, so every finite prefix of a run is covered.
- Dao.BatchUploader.Upload: does not model the returned HTTP status, which the loop ignores.
- The declaration of `EventJson` is not part of this model. Its fields are taken from their uses in internal/biz/app.go:35-58.
- The size check counts the bytes in the builder. The model takes a body's `len` to be the length of its byte sequence.
