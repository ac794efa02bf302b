# rabbitmq-influxdb bridge, modelled in Dafny

The bridge consumes messages from a RabbitMQ queue and writes points to InfluxDB.
This project models the four classes that carry its logic. The logic of each
method is sequential, and the model runs one method at a time. Each class
updates its objects in place, so each becomes a Dafny class whose methods state
the new state in terms of the old one:

- `Payloads` (`Payload.java`): a payload holds a metric string and two
  string-to-string maps, `tags` and `data`. It is filled through a fluent
  builder. Each setter mutates the builder's single `internal` payload and
  returns the builder. `build()` returns that same object without copying it.
  The builder keeps a ghost history of its calls. Lemmas show that the built
  payload is last-write-wins: `getTag(k)` / `getDatum(k)` give the value of the
  last `addTag(k, _)` / `addData(k, _)`, or null when `k` was never added, and
  the metric is `""` until the first `setMetric`.
- `StatsLog` (`Log.java`): four windowed counters (read, backed up, errors,
  written). The periodic drain reads and zeroes them and labels the error count
  `errors` or `ERRORS`. The log also records the discrete reports handed to the
  logger. A ghost window of the events since the last drain is tied to the
  counters, and a lemma shows that each drained count is exactly the number of
  its events in that window. `Builder.build()` replaces non-positive settings
  with the documented defaults (1 file, 1 000 000 bytes, 5 000 ms).
- `Influx` (`InfluxDBPublisher.java`):
  - The builder's threshold setters ignore non-positive arguments, so a built
    publisher's `pointsToFlush` and `millisToFlush` are the last positive
    arguments, or 1000 and 5000.
  - `reconnect()` is a loop of at most four attempts, each after a 15 s sleep.
    It returns right after the first attempt that connects and pings, and it
    exits with status 1 after four failures.
  - `update` refuses anything that is not a payload. For a payload it writes
    exactly one point to `dbName` with retention policy `"autogen"`, then bumps
    the log's written counter when there is a log.
  - `ping()` schedules a timer only when its interval is positive.
- `Rabbit` (`RabbitMQ.java`):
  - `consume()` connects; a connection failure is rethrown as the same kind of
    exception with the message `"Couldn't connect to RabbitMQ"`.
  - It then passively declares the queue, and the backup queue only when one
    is set; no queue is ever created.
  - It subscribes with auto-ack.
  - Each delivery first republishes the body unchanged to the backup queue on
    the default exchange (only when a backup queue is set), then calls
    `notifyObservers` with the body decoded as text.

The network, the InfluxDB client, the file system and the process are
abstracted the same way in every class. What the outside world answers is a
parameter: connection, declaration and subscription outcomes, whether a backup
publish or a database write throws, the outcome of each reconnect attempt, and
the log files that cannot be opened. Each call on an external
client is appended, in order, to an `effects` sequence.

The Java code behaves differently from the design described for this system in
several places. The model follows the code:

- `RabbitMQ` has no parser, no error queue, no statistics calls and no health
  check. Each delivery is handed on as raw text.
- `RabbitMQ` never calls `setChanged()`. Under `java.util.Observable`,
  `notifyObservers` therefore calls no observer. The model keeps Observable's
  changed flag, and every notification it records says that no observer ran.
- `Payload` holds a metric, tags and data. It has no timestamp and no typed
  fields. `InfluxDBPublisher.update` calls accessors that `Payload` lacks, so the
  point conversion is kept symbolic (`PointOf`).
- `reconnect()` calls `log` without a null check. With no log, the first attempt
  ends in a NullPointerException. A reachable first attempt fails at the
  success report, and then the error report in the catch block throws as well.
  A failed first attempt fails at the error report alone. The model returns
  `NullLog` in both cases.
  It has no precondition that would exclude it.
- After a successful reconnect, `ping()` is called again, which schedules a new
  timer. There is no attempt counter to reset.

## Model

| member | source | states |
|---|---|---|
| `Payloads.Payload.constructor` | src/main/java/rabbitmq/Payload.java:15-25 | a new payload has metric "" and empty tags and data |
| `Payloads.Payload.GetMetric` | src/main/java/rabbitmq/Payload.java:99-101 | the current metric |
| `Payloads.Payload.GetTags` | src/main/java/rabbitmq/Payload.java:106-108 | the returned map has the contents of the internal tag map |
| `Payloads.Payload.GetTag` | src/main/java/rabbitmq/Payload.java:116-118 | the value for the key, or None (null) exactly when the key is absent |
| `Payloads.Payload.GetData` | src/main/java/rabbitmq/Payload.java:123-125 | the returned map has the contents of the internal data map |
| `Payloads.Payload.GetDatum` | src/main/java/rabbitmq/Payload.java:133-135 | the value for the data key, or None (null) exactly when the key is absent |
| `Payloads.PayloadBuilder.constructor` | src/main/java/rabbitmq/Payload.java:40-42 | a new builder owns a fresh, empty payload and has an empty call history |
| `Payloads.PayloadBuilder.SetMetric` | src/main/java/rabbitmq/Payload.java:50-53 | replaces only the metric of the internal payload and returns the same builder |
| `Payloads.PayloadBuilder.AddTag` | src/main/java/rabbitmq/Payload.java:62-65 | maps the key to the value, overwriting; other tags, data and metric unchanged; returns the same builder |
| `Payloads.PayloadBuilder.AddData` | src/main/java/rabbitmq/Payload.java:74-77 | maps the data key to the value, overwriting; tags, other data and metric unchanged; returns the same builder |
| `Payloads.PayloadBuilder.Build` | src/main/java/rabbitmq/Payload.java:84-86 | returns the builder's own internal payload, whose content is the replay of all calls so far |
| `Payloads.LastWriteWins` | src/main/java/rabbitmq/Payload.java:62-77 | after any call sequence a tag (data) key is present iff some addTag (addData) named it, and holds the value of the last such call |
| `Payloads.MetricIsLastSet` | src/main/java/rabbitmq/Payload.java:50-53 | the metric is "" when setMetric was never called, otherwise the argument of the last setMetric |
| `Payloads.GetTagIsLastAddTag` | src/main/java/rabbitmq/Payload.java:116-118 | on a built payload getTag(k) is null iff no addTag named k, else the value of the last addTag(k, _) |
| `Payloads.GetDatumIsLastAddData` | src/main/java/rabbitmq/Payload.java:133-135 | on a built payload getDatum(k) is null iff no addData named k, else the value of the last addData(k, _) |
| `Payloads.BuildThenAddTag` | src/main/java/rabbitmq/Payload.java:35 | a payload already returned by build() sees a later addTag on the same builder, and a second build() returns the same object |
| `StatsLog.Normalised` | src/main/java/main/Log.java:163-177 | every numeric setting ends positive; non-positive ones become 1, 1 000 000, 5 000; positive ones and file names are kept; fully positive settings are unchanged |
| `StatsLog.TallyCounts` | src/main/java/main/Log.java:35-54 | each counter equals the number of its own events in the window |
| `StatsLog.ErrorsLabel` | src/main/java/main/Log.java:366 | the label is "ERRORS" iff the error count is non-zero and "errors" iff it is zero |
| `StatsLog.MovedNote` | src/main/java/main/Log.java:260-264 | the "payload moved to error queue" note is non-empty iff the payload was backed up |
| `StatsLog.SummaryOf` | src/main/java/main/Log.java:360-366 | a summary carries the four drained counts and the label matching its error count |
| `StatsLog.DrainWindow` | src/main/java/main/Log.java:360-366 | a summary reports, per kind, exactly the number of events since the previous drain |
| `StatsLog.Log.constructor` | src/main/java/main/Log.java:197-206 | a new log stores the settings and starts with zero counters, no records and no drain scheduled |
| `StatsLog.Log.StartNormalLog` | src/main/java/main/Log.java:354-356 | the periodic drain is scheduled only when a normal log file is set |
| `StatsLog.Log.RabbitRead` | src/main/java/main/Log.java:240-242 | the read counter goes up by 1, the other three are unchanged |
| `StatsLog.Log.RabbitBacked` | src/main/java/main/Log.java:247-249 | the backed counter goes up by 1, the other three are unchanged |
| `StatsLog.Log.RabbitError` | src/main/java/main/Log.java:258-265 | the error counter goes up by 1 whatever `backed` is; one warning is recorded with the moved note iff backed |
| `StatsLog.Log.InfluxWrote` | src/main/java/main/Log.java:311-313 | the written counter goes up by 1, the other three are unchanged |
| `StatsLog.Log.Emit` | src/main/java/main/Log.java:233-349 | a creation, ping-error or reconnect report appends one record and moves no counter |
| `StatsLog.Log.Tick` | src/main/java/main/Log.java:357-369 | when scheduled, returns the summary of the events since the last drain and zeroes all four counters; otherwise changes nothing |
| `StatsLog.LogBuilder.constructor` | src/main/java/main/Log.java:61-74 | a new builder has null file names and zero numeric settings |
| `StatsLog.LogBuilder.SetNormalLog` | src/main/java/main/Log.java:82-85 | sets only the normal log file and returns the same builder |
| `StatsLog.LogBuilder.SetNormalLogNum` | src/main/java/main/Log.java:93-96 | sets only the normal log file count and returns the same builder |
| `StatsLog.LogBuilder.SetNormalLogSize` | src/main/java/main/Log.java:105-108 | sets only the normal log file size and returns the same builder |
| `StatsLog.LogBuilder.SetNormalLogInterval` | src/main/java/main/Log.java:117-120 | sets only the summary interval and returns the same builder |
| `StatsLog.LogBuilder.SetErrorLog` | src/main/java/main/Log.java:128-131 | sets only the error log file and returns the same builder |
| `StatsLog.LogBuilder.SetErrorLogNum` | src/main/java/main/Log.java:139-142 | sets only the error log file count and returns the same builder |
| `StatsLog.LogBuilder.SetErrorLogSize` | src/main/java/main/Log.java:151-154 | sets only the error log file size and returns the same builder |
| `StatsLog.LogBuilder.Normalise` | src/main/java/main/Log.java:163-177 | the builder's own settings become their normalised form |
| `StatsLog.LogBuilder.Build` | src/main/java/main/Log.java:162-183 | the builder's settings are normalised, even when opening a file fails; failure iff a set log file cannot be opened, naming the normal log when it is the one refused and otherwise the error log; on success a fresh log with those settings, zero counters, drain scheduled iff a normal log is set |
| `Influx.ThresholdIsLastPositive` | src/main/java/influxdb/InfluxDBPublisher.java:95-113 | a threshold is the last positive setter argument, or its initial value when no argument was positive |
| `Influx.ThresholdStaysPositive` | src/main/java/influxdb/InfluxDBPublisher.java:143-145 | a threshold that starts positive is positive after any setter calls |
| `Influx.FirstReachable` | src/main/java/influxdb/InfluxDBPublisher.java:254-267 | the index of the first attempt that succeeds, with all earlier ones failed, or none iff every attempt fails |
| `Influx.AttemptsCount` | src/main/java/influxdb/InfluxDBPublisher.java:254-265 | a series of attempts makes exactly one sleep and one connect per attempt, and one ping per attempt that connected |
| `Influx.AttemptsReapplyThresholds` | src/main/java/influxdb/InfluxDBPublisher.java:262-264 | every batching call in a reconnect uses the publisher's own pointsToFlush and millisToFlush |
| `Influx.Publisher.constructor` | src/main/java/influxdb/InfluxDBPublisher.java:209-223 | stores the settings, connects, then enables batching with the thresholds |
| `Influx.Publisher.StartPing` | src/main/java/influxdb/InfluxDBPublisher.java:228-230 | schedules one ping timer iff the interval is positive; nothing else changes |
| `Influx.Publisher.Reconnect` | src/main/java/influxdb/InfluxDBPublisher.java:253-274 | at most four attempts; returns after the first success with one error record per earlier failure and one success record; exit(1) after four failures; NullPointerException after one attempt when there is no log |
| `Influx.Publisher.Retry` | src/main/java/influxdb/InfluxDBPublisher.java:254-273 | with a log present: the loop stops at the first reachable attempt, else exits with status 1 after the fourth failure; effects and reports are those of the attempts made |
| `Influx.Publisher.Attempt` | src/main/java/influxdb/InfluxDBPublisher.java:255-270 | one attempt: sleep 15 s, connect, and after a connection re-enable batching and ping; then exactly one success or error report, no counter moves |
| `Influx.Publisher.PingTick` | src/main/java/influxdb/InfluxDBPublisher.java:231-245 | one firing pings; on failure cancels its timer, logs the ping error if there is a log, and reconnects; the effects and records are the ping followed by exactly those of the reconnect for each outcome; reschedules only after a successful reconnect; the log's counters, window and schedule are untouched |
| `Influx.Publisher.Update` | src/main/java/influxdb/InfluxDBPublisher.java:283-299 | a non-payload is refused with the IllegalArgumentException message, nothing written or counted; a payload gives exactly one write to dbName with "autogen"; iff that write succeeds and there is a log, one written-count increment (one `Wrote` event in its window); no record is added and the drain schedule is kept |
| `Influx.PublisherBuilder.constructor` | src/main/java/influxdb/InfluxDBPublisher.java:29-43 | defaults: empty strings, 1000 points, 5000 ms, ping 0, no log |
| `Influx.PublisherBuilder.SetUrl` | src/main/java/influxdb/InfluxDBPublisher.java:51-54 | sets only the url and returns the same builder |
| `Influx.PublisherBuilder.SetUsername` | src/main/java/influxdb/InfluxDBPublisher.java:62-65 | sets only the username and returns the same builder |
| `Influx.PublisherBuilder.SetPassword` | src/main/java/influxdb/InfluxDBPublisher.java:73-76 | sets only the password and returns the same builder |
| `Influx.PublisherBuilder.SetDbName` | src/main/java/influxdb/InfluxDBPublisher.java:84-87 | sets only the database name and returns the same builder |
| `Influx.PublisherBuilder.SetPointsToFlush` | src/main/java/influxdb/InfluxDBPublisher.java:95-100 | changes pointsToFlush only when the argument is positive, keeping it the last positive argument or 1000 |
| `Influx.PublisherBuilder.SetMillisToFlush` | src/main/java/influxdb/InfluxDBPublisher.java:108-113 | changes millisToFlush only when the argument is positive, keeping it the last positive argument or 5000 |
| `Influx.PublisherBuilder.SetPing` | src/main/java/influxdb/InfluxDBPublisher.java:121-124 | stores any ping interval unchecked and returns the same builder |
| `Influx.PublisherBuilder.SetLog` | src/main/java/influxdb/InfluxDBPublisher.java:132-135 | sets only the log and returns the same builder |
| `Influx.PublisherBuilder.Build` | src/main/java/influxdb/InfluxDBPublisher.java:142-150 | a fresh publisher with the builder's settings and both thresholds positive; reports its creation to the log iff there is one, moving no counter and keeping the window and drain schedule |
| `Rabbit.DeliveriesWithBackup` | src/main/java/rabbitmq/RabbitMQ.java:205-210 | with a backup queue, delivery i yields a byte-identical publish on exchange "" to the backup queue, then the notification of that body; no observer runs |
| `Rabbit.DeliveriesWithoutBackup` | src/main/java/rabbitmq/RabbitMQ.java:205-210 | without a backup queue nothing is republished; delivery i yields only its notification |
| `Rabbit.RabbitMQ.constructor` | src/main/java/rabbitmq/RabbitMQ.java:165-167 | a new consumer has null strings, port 0, the changed flag clear, and is not consuming |
| `Rabbit.RabbitMQ.Consume` | src/main/java/rabbitmq/RabbitMQ.java:175-214 | connect failure is rethrown as the same kind with "Couldn't connect to RabbitMQ"; passive declaration of the queue and, only when set, of the backup queue; then the auto-ack subscription; consuming iff all of these succeed, with the failing call last in the effects otherwise |
| `Rabbit.RabbitMQ.NotifyObservers` | src/main/java/rabbitmq/RabbitMQ.java:210 | records the notification, and observers run only if the changed flag was set; the flag is clear afterwards |
| `Rabbit.RabbitMQ.HandleDelivery` | src/main/java/rabbitmq/RabbitMQ.java:202-211 | a delivery appends the backup publish (iff a backup queue is set) before the notification with the body as text; when the publish throws, the delivery ends there and is not notified |
| `Rabbit.RabbitBuilder.constructor` | src/main/java/rabbitmq/RabbitMQ.java:71-73 | a new builder owns a fresh, unset consumer |
| `Rabbit.RabbitBuilder.SetHost` | src/main/java/rabbitmq/RabbitMQ.java:81-84 | sets only the host and returns the same builder |
| `Rabbit.RabbitBuilder.SetPort` | src/main/java/rabbitmq/RabbitMQ.java:92-95 | sets only the port and returns the same builder |
| `Rabbit.RabbitBuilder.SetUsername` | src/main/java/rabbitmq/RabbitMQ.java:103-106 | sets only the username and returns the same builder |
| `Rabbit.RabbitBuilder.SetPassword` | src/main/java/rabbitmq/RabbitMQ.java:114-117 | sets only the password and returns the same builder |
| `Rabbit.RabbitBuilder.SetVirtualHost` | src/main/java/rabbitmq/RabbitMQ.java:125-128 | sets only the virtual host and returns the same builder |
| `Rabbit.RabbitBuilder.SetQueue` | src/main/java/rabbitmq/RabbitMQ.java:136-139 | sets only the queue and returns the same builder |
| `Rabbit.RabbitBuilder.SetBackupQueue` | src/main/java/rabbitmq/RabbitMQ.java:147-150 | sets only the backup queue and returns the same builder |
| `Rabbit.RabbitBuilder.Build` | src/main/java/rabbitmq/RabbitMQ.java:157-159 | returns the builder's own consumer, not a copy |

## Left out

- Parsing: `RabbitMQParser.java` is only an interface, and no parser implementation is part of this model. `Main.java` (argument parsing, configuration reading, wiring, process exit) and `Test.java` (a live database demo) are not part of this model either.
- `Main.java` calls `setErrorQueue`, `setVerifyTimestamp`, `setLog` and `ping` on `RabbitMQ`. None of these exist in `RabbitMQ.java`, so they are not modelled.
- Payloads: keys, values and metrics are non-null strings. Java's HashMap also accepts null, and then `getTag` cannot tell an absent key from a null value.
- Payloads.Payload.GetTags: returns a snapshot of the map. Java's unmodifiable view is live and would show later builder calls (the aliasing itself is modelled on the payload object, see `BuildThenAddTag`). The same holds for `GetData`.
- JDK logging: file handlers, levels, level filters and message text are not modelled. Records are structured values. Only the `errors`/`ERRORS` choice and the moved-to-error-queue note are kept. The publisher and consumer arguments that reports print through `toString` are dropped. So are the getters and `toString` of `Log`, `InfluxDBPublisher` and `RabbitMQ`, which only read fields.
- StatsLog.Log.RabbitRead: counters are unbounded. An `AtomicLong` would wrap after 2^63 - 1 increments within one window. Cross-thread atomicity of increment and `getAndSet` is not modelled: the model is sequential. The same holds for `RabbitBacked`, `RabbitError`, `InfluxWrote` and `Tick`.
- StatsLog.LogBuilder.Build: which files cannot be opened is a parameter. When the error log fails after the normal log opened, the normal log's handler is left open. That leak is not modelled.
- Influx.Publisher.Reconnect: `PingTick` and `Reconnect` run atomically in the model. In Java they run on the ping `Timer` thread and can block for up to 60 s of sleeps. Meanwhile `update` keeps writing through the `influxDB` field, which `reconnect` reassigns without `volatile` or locking. The log's drain can also interleave with them. Those interleavings are not modelled.
- Influx.Publisher.PingTick: the `influxDB` handle is not modelled as a field. After a failed `connect` the old handle stays, and later calls go to it. The effects record the calls, not which connection receives them.
- Time: timer periods and the 15 s sleep are not wall-clock time. A timer firing is one call to `Tick` or `PingTick`, and the sleep is one recorded `Sleep` effect.
- Influx.Publisher.Update: the point is `PointOf(payload content)`. The `Point.builder` conversion uses accessors that `Payload` does not have, so it is not modelled.
- InfluxDB client: batching and flushing happen inside the client library. Only the thresholds handed to `enableBatch` are modelled. The constructor's `connect`/`enableBatch` are assumed to succeed. In reconnect attempts only `connect` and `ping` can fail.
- RabbitMQ client: `createChannel` is assumed to succeed. Text decoding with the platform charset is kept symbolic (`DecodedText`).
- Java integer widths: settings are unbounded integers. The code only compares them with zero and assigns constants, so `int`/`long` ranges make no difference.
