# Remote log shipping for an Android application, in Dafny

The application ships its own device log to Amazon CloudWatch Logs. Two
Kotlin objects do the work:

- `CloudWatchLogger` (a companion object) holds the names of a log group
  and a log stream and a CloudWatch Logs client.
  - `initialize` checks that the group `LOG_GROUP_NAME` exists, creates
    `LOG_GROUP_NAME_NEW` when it does not, and then provisions the stream.
  - `logMessage` looks the stream up by name, creates it if it is missing,
    and puts one event with the stream's upload sequence token.
  - Every failure is caught and logged, never rethrown.
- `LogInterceptor.startLogging` reads `logcat` line by line. It hands every
  line that mentions none of `AWS4Signer`, `com.amazonaws` or
  `CloudWatchLogger` to `logMessage`. The filter drops the lines that carry
  the shipper's tag or name the SDK.

The model has four modules:

- `KotlinText` holds the pieces of the Kotlin standard library the code
  relies on: `contains`, `isBlank` with the JVM's notion of whitespace,
  and `replace` of one character.
- `LogService` is an abstract CloudWatch Logs account, a value of type
  `Account`. It holds:
  - the groups and each group's streams with their tokens;
  - every accepted put, in `sent`;
  - every request made, in `calls`;
  - which requests fail with a service error (network, credentials,
    throttling), in `failing`. A failure belongs to one request, numbered
    by its place in `calls`, so the same operation can go through and then
    fail a moment later.

  The class `LogStore` is the client. It has one method per request, each
  tied to a pure reply function.
- `CloudWatch` holds one pure step function per entry point of the
  companion object, with the lemmas about them. The class
  `CloudWatchLogger` has one method per entry point. Each method updates
  the store through the client and is proved equal to its step function.
  `lateinit logsClient` is a nullable field: `logMessage` before
  `initialize` throws inside the `try` and therefore does nothing.
- `LogInterceptor` holds the filter, a finite log with an optional failing
  read, the read loop `StartLogging` (which calls
  `CloudWatchLogger.LogMessage`), and the effect of a whole log on the
  account.

A behaviour of the code, proved as written (`InitializeMissingGroupQuirk`):
when `LOG_GROUP_NAME` is missing and differs from `LOG_GROUP_NAME_NEW`,
`initialize` creates `LOG_GROUP_NAME_NEW`. It still provisions the stream in
`LOG_GROUP_NAME`, which fails, so no stream exists. Every later
`logMessage` then looks the stream up in `LOG_GROUP_NAME`, gets "not found"
and drops its message. So no line of the log is ever delivered
(`InitializeMissingGroupShipsNothing`). The group constants are defined in
`AWSInfo`, which is not part of this model, so whether the two names can
differ is left open. The model takes the names as parameters.

## Model

| member | source | states |
|---|---|---|
| KotlinText.Contains | MyApplication/app/src/main/java/com/example/myapplication/utils/aws/LogInterceptor.kt:24-26 | `contains` is true exactly when the substring occurs at some index. |
| KotlinText.WhitespaceAscii | MyApplication/app/src/main/java/com/example/myapplication/utils/aws/CloudWatchLogger.kt:157 | `isBlank`'s notion of whitespace, restricted to ASCII, is exactly the JVM's: space, tab to carriage return, and the four information separators. |
| KotlinText.IsBlankConcat | MyApplication/app/src/main/java/com/example/myapplication/utils/aws/CloudWatchLogger.kt:157 | A concatenation is blank exactly when both of its parts are. |
| KotlinText.ReplaceChar | MyApplication/app/src/main/java/com/example/myapplication/utils/aws/CloudWatchLogger.kt:223 | `replace(" ", "_")` keeps the length, changes exactly the matching characters, and no space is left. |
| CloudWatch.StreamName | MyApplication/app/src/main/java/com/example/myapplication/utils/aws/CloudWatchLogger.kt:222-226 | The stream name is the UUID, `_`, then the device name with spaces turned into `_`. It is never blank, so the blank guard of `logMessage` never fires on it. |
| CloudWatch.StreamNamesDistinct | MyApplication/app/src/main/java/com/example/myapplication/utils/aws/CloudWatchLogger.kt:222-226 | Two different UUIDs give two different stream names on the same device. |
| LogService.GroupsByPrefix | MyApplication/app/src/main/java/com/example/myapplication/utils/aws/CloudWatchLogger.kt:84-87 | Describing groups by prefix lists exactly the groups that start with the prefix. |
| LogService.StreamsByPrefix | MyApplication/app/src/main/java/com/example/myapplication/utils/aws/CloudWatchLogger.kt:125-131 | Describing streams by prefix lists exactly the streams whose names start with the prefix. |
| LogService.FirstNamed | MyApplication/app/src/main/java/com/example/myapplication/utils/aws/CloudWatchLogger.kt:132-134 | `firstOrNull` is null iff no stream has the exact name; otherwise it is the first stream with that name. |
| LogService.FirstNamedByPrefix | MyApplication/app/src/main/java/com/example/myapplication/utils/aws/CloudWatchLogger.kt:173-176 | An exact match among the streams listed by prefix is the exact match among all streams: the prefix query loses nothing. |
| LogService.FirstNamedAppend | MyApplication/app/src/main/java/com/example/myapplication/utils/aws/CloudWatchLogger.kt:138-142 | A stream appended by creation is found by its name only if no earlier stream had it. |
| LogService.SetToken | MyApplication/app/src/main/java/com/example/myapplication/utils/aws/CloudWatchLogger.kt:214 | An accepted put gives the named stream the new token and leaves every other stream and all names unchanged. |
| LogService.LogStore.DescribeLogGroups | MyApplication/app/src/main/java/com/example/myapplication/utils/aws/CloudWatchLogger.kt:87 | The request is recorded; the answer is a service error or the groups matching the prefix. |
| LogService.LogStore.CreateLogGroup | MyApplication/app/src/main/java/com/example/myapplication/utils/aws/CloudWatchLogger.kt:75 | The request is recorded. The group is created with no streams, or the answer is "already exists" or a service error. |
| LogService.LogStore.DescribeLogStreams | MyApplication/app/src/main/java/com/example/myapplication/utils/aws/CloudWatchLogger.kt:130-131 | The request is recorded. The answer is "not found" for a missing group, a service error, or the streams matching the prefix. |
| LogService.LogStore.CreateLogStream | MyApplication/app/src/main/java/com/example/myapplication/utils/aws/CloudWatchLogger.kt:142 | The request is recorded. The stream is appended with no token, or the answer is "not found", "already exists" or a service error. |
| LogService.LogStore.PutLogEvents | MyApplication/app/src/main/java/com/example/myapplication/utils/aws/CloudWatchLogger.kt:214 | The request is recorded. A put whose token differs from the stream's is rejected; an accepted one is stored and gives the stream a fresh token. |
| CloudWatch.GroupFoundIffListed | MyApplication/app/src/main/java/com/example/myapplication/utils/aws/CloudWatchLogger.kt:84-88 | Describing by prefix and then matching exactly answers exactly whether the group exists. |
| CloudWatch.PrefixIsNotAMatch | MyApplication/app/src/main/java/com/example/myapplication/utils/aws/CloudWatchLogger.kt:88 | A longer group name that is listed by the prefix does not make the shorter name exist. |
| CloudWatch.DoesLogGroupExistStep | MyApplication/app/src/main/java/com/example/myapplication/utils/aws/CloudWatchLogger.kt:82-93 | One describe is made, and the answer is true iff the describe succeeds and the group exists. A failure answers false. |
| CloudWatch.CreateLogGroupStep | MyApplication/app/src/main/java/com/example/myapplication/utils/aws/CloudWatchLogger.kt:70-79 | One create is made and every failure is swallowed. Afterwards the group exists unless a service error occurred; an existing group is left as it was. |
| CloudWatch.CreateLogStreamStep | MyApplication/app/src/main/java/com/example/myapplication/utils/aws/CloudWatchLogger.kt:122-153 | Describe, then create only when no listed stream has the exact name. The outcome is given for every case. Only a creation changes the streams, and it adds the stream with no token. Groups, puts and the account's invariant are kept. |
| CloudWatch.SendLogEventStep | MyApplication/app/src/main/java/com/example/myapplication/utils/aws/CloudWatchLogger.kt:206-220 | One put of exactly this event to the shipper's stream with the given token. It is stored iff the account accepts it, and a rejection changes no stream. |
| CloudWatch.LogMessageStep | MyApplication/app/src/main/java/com/example/myapplication/utils/aws/CloudWatchLogger.kt:155-204 | `logMessage` only adds requests and puts. It never creates a group or a stream list, and never changes which requests fail. |
| CloudWatch.EnsureGroupStep | MyApplication/app/src/main/java/com/example/myapplication/utils/aws/CloudWatchLogger.kt:56-61 | The check of `LOG_GROUP_NAME` is made. `LOG_GROUP_NAME_NEW` is created exactly when that check fails and the creation goes through. |
| CloudWatch.InitializeStep | MyApplication/app/src/main/java/com/example/myapplication/utils/aws/CloudWatchLogger.kt:56-62 | `initialize` makes at least one request and never puts. It keeps the account well formed. |
| CloudWatch.LogMessageBlankNames | MyApplication/app/src/main/java/com/example/myapplication/utils/aws/CloudWatchLogger.kt:157-160 | With a blank group or stream name, no request is made at all. |
| CloudWatch.LogMessageWhenFound | MyApplication/app/src/main/java/com/example/myapplication/utils/aws/CloudWatchLogger.kt:173-198 | When the first describe finds the stream, the message is one put carrying that stream's token. |
| CloudWatch.LogMessageWhenMissing | MyApplication/app/src/main/java/com/example/myapplication/utils/aws/CloudWatchLogger.kt:178-194 | When the stream is missing: create it, describe again, and put with no token only if it was created. |
| CloudWatch.LogMessageSendsAtMostOnce | MyApplication/app/src/main/java/com/example/myapplication/utils/aws/CloudWatchLogger.kt:155-204 | At most one put is stored: this message, to the shipper's stream, with the stream's current token. Groups and the set of groups with streams never change. |
| CloudWatch.LogMessageDelivered | MyApplication/app/src/main/java/com/example/myapplication/utils/aws/CloudWatchLogger.kt:155-204 | The message is stored iff the names are set, the group exists, and every request on the way goes through. If the stream exists, those are the describe and the put. Otherwise they are the describe, `createLogStream`'s describe and create, the second describe and the put. |
| CloudWatch.LogMessageDeliveredWhenFound | MyApplication/app/src/main/java/com/example/myapplication/utils/aws/CloudWatchLogger.kt:195-197 | With the stream found, the message is stored iff the put right after the describe goes through. |
| CloudWatch.LogMessageDeliveredWhenMissing | MyApplication/app/src/main/java/com/example/myapplication/utils/aws/CloudWatchLogger.kt:178-194 | With the stream missing, the message is stored iff the four requests after the first describe all go through. |
| CloudWatch.LogMessageDropsWhenStillMissing | MyApplication/app/src/main/java/com/example/myapplication/utils/aws/CloudWatchLogger.kt:185-191 | If `createLogStream`'s describe or create fails, the second describe finds nothing. The message is dropped and the streams do not change. |
| CloudWatch.LogMessageDropsWhenRedescribeFails | MyApplication/app/src/main/java/com/example/myapplication/utils/aws/CloudWatchLogger.kt:182-202 | If the stream is created but the second describe throws, the exception is caught. The message is lost although the stream now exists. |
| CloudWatch.LogMessageCallsWhenDescribeFails | MyApplication/app/src/main/java/com/example/myapplication/utils/aws/CloudWatchLogger.kt:167-202 | A failing first describe is the only request, and it is swallowed. |
| CloudWatch.LogMessageCallsWhenFound | MyApplication/app/src/main/java/com/example/myapplication/utils/aws/CloudWatchLogger.kt:173-198 | The requests are exactly the describe, then the put. |
| CloudWatch.LogMessageCallsWhenMissing | MyApplication/app/src/main/java/com/example/myapplication/utils/aws/CloudWatchLogger.kt:178-194 | The requests are exactly: describe; describe, then create if that describe went through; describe; then a put if the stream was created and the last describe went through. |
| CloudWatch.LogMessageProvisionsStream | MyApplication/app/src/main/java/com/example/myapplication/utils/aws/CloudWatchLogger.kt:178-180 | A missing stream is created on the way whenever its group exists and `createLogStream`'s requests go through. A found stream stays. |
| CloudWatch.InitializeGroups | MyApplication/app/src/main/java/com/example/myapplication/utils/aws/CloudWatchLogger.kt:56-62 | The only group `initialize` can add is `LOG_GROUP_NAME_NEW`, and only when the check fails. It never puts. |
| CloudWatch.InitializeCalls | MyApplication/app/src/main/java/com/example/myapplication/utils/aws/CloudWatchLogger.kt:56-62 | The requests of `initialize`'s own coroutine are exactly: group describe; a group create if the check failed; a stream describe in `LOG_GROUP_NAME`; a stream create if that found nothing. |
| CloudWatch.InitializeStream | MyApplication/app/src/main/java/com/example/myapplication/utils/aws/CloudWatchLogger.kt:56-62 | Afterwards the stream exists iff it did before, or its group was there to create it in and both stream requests went through. No other group's streams change, and a new fallback group is empty. |
| CloudWatch.InitializeMissingGroupQuirk | MyApplication/app/src/main/java/com/example/myapplication/utils/aws/CloudWatchLogger.kt:56-62 | A missing `LOG_GROUP_NAME` that differs from the fallback leaves no stream, and the next message is not delivered. |
| CloudWatch.InitializeThenLogDelivers | MyApplication/app/src/main/java/com/example/myapplication/utils/aws/CloudWatchLogger.kt:31-68 | On a healthy account with equal group names, the first message after `initialize` is delivered exactly once. |
| CloudWatch.CloudWatchLogger.constructor | MyApplication/app/src/main/java/com/example/myapplication/utils/aws/CloudWatchLogger.kt:26-29 | The names are fixed, the stream name comes from the UUID and device, and the client is not yet set. |
| CloudWatch.CloudWatchLogger.Initialize | MyApplication/app/src/main/java/com/example/myapplication/utils/aws/CloudWatchLogger.kt:31-68 | The client is assigned first. An unknown region stops before any request; otherwise the account ends as `InitializeStep` says. |
| CloudWatch.CloudWatchLogger.CreateLogGroup | MyApplication/app/src/main/java/com/example/myapplication/utils/aws/CloudWatchLogger.kt:70-79 | The account ends as `CreateLogGroupStep` says. |
| CloudWatch.CloudWatchLogger.DoesLogGroupExist | MyApplication/app/src/main/java/com/example/myapplication/utils/aws/CloudWatchLogger.kt:82-93 | The account and the answer are those of `DoesLogGroupExistStep`. |
| CloudWatch.CloudWatchLogger.CreateLogStream | MyApplication/app/src/main/java/com/example/myapplication/utils/aws/CloudWatchLogger.kt:122-153 | The account and the outcome are those of `CreateLogStreamStep`. |
| CloudWatch.CloudWatchLogger.SendLogEvent | MyApplication/app/src/main/java/com/example/myapplication/utils/aws/CloudWatchLogger.kt:206-220 | The account ends as `SendLogEventStep` says. |
| CloudWatch.CloudWatchLogger.LogMessage | MyApplication/app/src/main/java/com/example/myapplication/utils/aws/CloudWatchLogger.kt:155-204 | With a client, the account ends as `LogMessageStep` says. |
| LogInterceptor.ForwardableIffNoMarker | MyApplication/app/src/main/java/com/example/myapplication/utils/aws/LogInterceptor.kt:24-26 | A line passes the filter exactly when none of `AWS4Signer`, `com.amazonaws` and `CloudWatchLogger` occurs in it at any position. |
| LogInterceptor.MarkedLineDropped | MyApplication/app/src/main/java/com/example/myapplication/utils/aws/LogInterceptor.kt:24-26 | A line with a marker anywhere in it, such as the shipper's own log tag, is never forwarded. |
| LogInterceptor.Forwarded | MyApplication/app/src/main/java/com/example/myapplication/utils/aws/LogInterceptor.kt:22-31 | The forwarded lines are exactly the lines containing none of the three markers, and there are no more of them than lines read. |
| LogInterceptor.ForwardedAppend | MyApplication/app/src/main/java/com/example/myapplication/utils/aws/LogInterceptor.kt:22-31 | Filtering line by line distributes over concatenation. |
| LogInterceptor.ForwardedCount | MyApplication/app/src/main/java/com/example/myapplication/utils/aws/LogInterceptor.kt:24-28 | A line is forwarded as often as it occurs if it has no marker, and never otherwise. |
| LogInterceptor.ForwardedIdempotent | MyApplication/app/src/main/java/com/example/myapplication/utils/aws/LogInterceptor.kt:24-28 | Filtering forwarded lines again changes nothing. |
| LogInterceptor.ForwardedPrefix | MyApplication/app/src/main/java/com/example/myapplication/utils/aws/LogInterceptor.kt:32-35 | A read failure leaves a prefix of what the whole log would have forwarded. |
| LogInterceptor.ReadLine | MyApplication/app/src/main/java/com/example/myapplication/utils/aws/LogInterceptor.kt:22 | A read gives line `i` exactly while `i` is before the stopping point: the end of the log or the failing read, whichever comes first. It throws exactly at or after the failing read, if that read is within the log. |
| LogInterceptor.Shipped | MyApplication/app/src/main/java/com/example/myapplication/utils/aws/LogInterceptor.kt:22-31 | Handing the forwarded lines to `logMessage` one by one only adds requests and puts. It never creates a group and never changes which requests fail. |
| LogInterceptor.ShippedSendsOnlyForwardable | MyApplication/app/src/main/java/com/example/myapplication/utils/aws/LogInterceptor.kt:22-31 | Whichever requests fail: earlier puts are kept, at most one put per forwarded line is added, and each goes to the shipper's stream with one marker-free line. The lines delivered are a subsequence of the forwarded lines: forwarded lines in read order, none delivered more often than it was forwarded. No group is created. |
| LogInterceptor.ShippedPutsToOwnStream | MyApplication/app/src/main/java/com/example/myapplication/utils/aws/LogInterceptor.kt:22-31 | Whichever requests fail: earlier puts are kept, at most one put per forwarded line is added, each to the shipper's stream with one marker-free line, and groups and the groups with streams stay as they were. |
| LogInterceptor.ShippedMessagesInOrder | MyApplication/app/src/main/java/com/example/myapplication/utils/aws/LogInterceptor.kt:22-31 | Whichever requests fail, the lines carried by the added puts are a subsequence of the forwarded lines, so no line is delivered more often than it was forwarded. |
| LogInterceptor.LogMessageAddsItsLine | MyApplication/app/src/main/java/com/example/myapplication/utils/aws/CloudWatchLogger.kt:155-204 | One `logMessage` adds exactly its own line to the delivered messages, or nothing. |
| LogInterceptor.LogMessageWhenHealthy | MyApplication/app/src/main/java/com/example/myapplication/utils/aws/CloudWatchLogger.kt:155-204 | On a healthy account whose group exists, one `logMessage` delivers exactly its message, and the account stays healthy. |
| LogInterceptor.ShippedWhenHealthy | MyApplication/app/src/main/java/com/example/myapplication/utils/aws/LogInterceptor.kt:22-31 | On a healthy account whose group exists, the delivered messages are exactly the forwarded lines, in order. |
| LogInterceptor.InitializeThenShippedDelivers | MyApplication/app/src/main/java/com/example/myapplication/utils/aws/LogInterceptor.kt:14-31 | On a healthy account with equal group names, `initialize` followed by the interceptor delivers exactly the forwarded lines. |
| LogInterceptor.ShippedWithoutGroup | MyApplication/app/src/main/java/com/example/myapplication/utils/aws/LogInterceptor.kt:22-31 | While the shipper's group does not exist, a whole log delivers nothing, whichever requests fail. |
| LogInterceptor.InitializeMissingGroupShipsNothing | MyApplication/app/src/main/java/com/example/myapplication/utils/aws/CloudWatchLogger.kt:56-62 | If `LOG_GROUP_NAME` is missing and differs from `LOG_GROUP_NAME_NEW`, no line of a log shipped after `initialize` is ever delivered. |
| LogInterceptor.HandleLine | MyApplication/app/src/main/java/com/example/myapplication/utils/aws/LogInterceptor.kt:23-30 | The line just read is handed to `logMessage` iff it has no marker. The forwarded lines and the account advance by that line alone. |
| LogInterceptor.StartLogging | MyApplication/app/src/main/java/com/example/myapplication/utils/aws/LogInterceptor.kt:14-37 | The lines handed to `logMessage` are the filtered lines read. It ends with a failure iff a read throws before the end. The account ends as `Shipped` says for those lines. |

## Left out

- Credentials, client construction and the region lookup (`CloudWatchLogger.kt:35-52`) are reduced to a store handed to `Initialize` and a flag saying whether the region name is known.
- `listLogGroups` (started by `initialize` at `CloudWatchLogger.kt:53`) is not modelled. It runs in a coroutine of its own, makes one `DescribeLogGroups` request without a prefix, and logs the group names. That request is not in the modelled request trace, so `InitializeCalls` gives exactly the requests of `initialize`'s own coroutine.
- Coroutines are not modelled. Each entry point runs as one atomic step, so the race between concurrent `logMessage` calls is not modelled. Those calls can reuse a token that another call's put has just invalidated.
- In a sequential run, the `ResourceAlreadyExists` catch of `createLogStream` is unreachable. The describe just before it found no stream, so that branch can only be reached by a concurrent creation. The code path is modelled anyway, as the `AlreadyPresent` outcome.
- The `Log.d`/`Log.e` output and `printStackTrace` are not modelled. Neither is the fact that they feed back into `logcat`.
- Some of the shipper's own output passes the filter and would be shipped in turn; the log is an input here, so this feedback is not captured. Two kinds of such lines exist: the `Log.e("CloudWatch", …)` lines of `initialize` (`CloudWatchLogger.kt:57`, `:60`), whose tag is not `CloudWatchLogger`, and the stack-trace lines of `printStackTrace` (`:151`, `:200`, `:217`) that name no marker, such as a coroutine frame or an unknown-host message for `logs.<region>.amazonaws.com`.
- `System.currentTimeMillis()` is a parameter: `now`, and a `clock` indexed by line number for the interceptor. `UUID.randomUUID()` and `Build.MANUFACTURER`/`Build.MODEL` are parameters of the constructor.
- `logcat` and `BufferedReader` are a finite list of lines with an optional failing read. The interceptor's endless wait on a live log is not modelled.
- `AWSInfo`, which defines `LOG_GROUP_NAME` and `LOG_GROUP_NAME_NEW`, is not part of this model. The two names are parameters.
- The calling activity (`MainActivity.kt`) is not modelled.
- Paging of describe results (`nextToken`, the 50-item limit) is not modelled. A describe returns every match.
- CloudWatch Logs' validation of names is not modelled (the allowed characters and lengths). Neither is its current practice of ignoring sequence tokens. Tokens are checked, as the API was documented when the code was written.
- Every exception other than "already exists", "not found" and "invalid token" is one `ServiceError`. `failing` says which requests raise it.
