# Scheduled appointment reminders over a message queue — a Dafny model

The repository sends SMS appointment reminders through a message queue, using two scripts.

- **The producer** (`producer.js`) has a list of appointment rows. For each row it computes how long the reminder must wait: the time until the appointment, less a 15-minute lead time. If that wait is strictly positive, it publishes a JSON message `{to, body}` to the ActiveMQ queue `/queue/foo.bar`, with an `AMQ_SCHEDULED_DELAY` header set to the wait. Rows whose wait is zero or negative are dropped without a message. Each row is taken off the front of the array in turn. When the array is empty, the STOMP client is deactivated.
- **The consumer** (`consumer.js`) holds a Service Bus subscription.
  - Its message handler passes the message's `applicationProperties.to` and `body` to the SMS sender. A message with no application properties makes the handler's parameter pattern throw before any SMS is sent.
  - The SMS sender catches and logs every Twilio failure, so once the sender is reached the handler returns normally. Under the SDK's rule, a handler that returns has its message completed and one that throws has it abandoned. So a message is completed exactly when it carries application properties.
  - Its error handler logs every error, then acts on the reported error code:
    - `MessagingEntityDisabled`, `MessagingEntityNotFound` or `UnauthorizedAccess`: one more log line, then close the subscription.
    - `MessageLockLost`: one more log line.
    - `ServiceBusy`: wait 1000 ms.
    - Any other code, or an error that is not a Service Bus error: nothing beyond the first log line.

The model has four modules:

- `Wrappers` (`wrappers.dfy`): the `Option` type.
- `Text` (`text.dfy`): the decimal text of the lead time, and JSON string quoting as `JSON.stringify` does it (the QuoteJSONString operation of ECMA-262). Each comes with a decoder and a round-trip lemma.
- `Producer` (`producer.dfy`):
  - the delay arithmetic;
  - the message and its serialisation;
  - `Planned`, a pure function giving the frames a batch publishes, with lemmas saying which rows they come from;
  - the STOMP client and the row array as classes;
  - `PublishToQueue`, a loop whose postcondition ties the client's publish log to `Planned`.
- `Consumer` (`consumer.dfy`):
  - the error codes and `Classify`;
  - the message handler, the SMS sender and the settlement rule;
  - a subscription state machine as a pure function over callback events (`OnEvent`, `Run`), with invariants it keeps and a terminal closed state;
  - a `Subscription` class whose methods are tied to that function.

The wall clock, Twilio's reply and the broker are parameters. Times are integer milliseconds. `PublishToQueue` takes one clock reading per row (`nows[i]` for row `i`).

The model follows the code where it differs from the intended behaviour of the system:

- A failed SMS send was meant to abandon the message so that it is redelivered. In the code the failure is caught inside `sendSMSWithTwilio`, so the handler returns and the message is completed (`CompletedExactlyWithProperties`).
- A per-record publish report, with per-record publish failures, was intended. The code has neither.

## Model

| member | source | states |
|---|---|---|
| `Producer.DelayIsTimeToAppointmentLessFifteenMinutes` | producer.js:77-83 | `ToDelayFromDate`'s value: for a parsed appointment time, the delay is the appointment time minus now, less 900000 ms (15 × 60 × 1000). The delay is positive exactly when the scheduled instant (appointment minus lead time) is strictly after now. |
| `Producer.UnparsedDateGivesNaN` | producer.js:57 | An appointment time that does not parse gives a NaN delay, which never passes the `> 0` gate, so the row is dropped. |
| `Producer.ReminderBodyParts` | producer.js:49-52 | The reminder text is exactly "Hello " + name + ", you have an appointment with us in 15 minutes. See you soon.". Read in parts, it is "Hello ", the name, ", you have an appointment with us in ", the lead time 15 in decimal without leading zeros, and " minutes. See you soon.". |
| `Text.DecimalRoundTrip` | producer.js:51 | `DecimalString`'s value is the decimal text a template literal gives a natural number below 10^21, such as the lead time 15. That text reads back as the number. |
| `Text.EscapeRoundTrip` | producer.js:62 | The JSON-escaped body of a string, followed by a closing quote and anything else, decodes to that string and leaves the text after the quote. |
| `Text.QuoteRoundTrip` | producer.js:62 | The quoted JSON string of x, followed by anything, decodes to x and leaves the rest. |
| `Producer.SerializeRoundTrip` | producer.js:49-52 | `Serialize`'s value: the JSON text of `{to, body}` decodes to exactly that message, so the published body determines the destination and text. |
| `Producer.FrameForIsWellFormed` | producer.js:56-67 | A frame published for an eligible row goes to `/queue/foo.bar` with content type `application/json`. Its `AMQ_SCHEDULED_DELAY` equals the computed delay and is a positive number, never NaN. Its body decodes to the row's phone number and reminder text. |
| `Producer.EligibleIndicesIncreasing` | producer.js:48 | The positions of the eligible rows are valid positions, in strictly increasing order. |
| `Producer.EligibleIndicesExact` | producer.js:57 | A row's position is listed exactly when its delay is strictly positive. |
| `Producer.PlannedFollowsEligibleIndices` | producer.js:57-71 | The batch publishes one frame per eligible row. The k-th frame is the frame of the k-th eligible row. |
| `Producer.PlannedIsEligibleRowsInOrder` | producer.js:48-71 | `Planned`'s value: a batch publishes exactly the rows whose delay is strictly positive, each once, in input order. Rows with delay ≤ 0 produce nothing. |
| `Producer.PlannedFramesAreWellFormed` | producer.js:55-67 | Every frame of a batch has the queue destination, the JSON content type and a positive delay. Its body decodes to the message of the row it came from. |
| `Producer.TwentyAndFiveMinutesAhead` | producer.js:57-65 | An appointment 20 minutes away is published with a 5-minute delay. One 5 minutes away is dropped. |
| `Producer.StompClient.constructor` | producer.js:20-22 | A new client is inactive, has published nothing and has not been deactivated. |
| `Producer.StompClient.Activate` | producer.js:29 | The client becomes active. Nothing else changes. |
| `Producer.StompClient.Publish` | producer.js:60-67 | Publishing needs an active client. It appends exactly the given frame to the publish log. |
| `Producer.StompClient.Deactivate` | producer.js:43 | The client becomes inactive and the deactivation count rises by one. The publish log is unchanged. |
| `Producer.RowArray.constructor` | producer.js:28 | The array holds the rows given. |
| `Producer.RowArray.Shift` | producer.js:48 | Returns the first row and removes it from the array. |
| `Producer.LoadAndPublish` | producer.js:27-37 | Starting from a new client that is then activated, publishing a batch leaves the row array empty. The client ends with exactly `Planned(rows, nows)` in its log, inactive and deactivated once. |
| `Producer.PublishToQueue` | producer.js:39-73 | Afterwards the row array is empty. The publish log has grown by exactly `Planned(rows, nows)`: the eligible rows' frames, in order. The client is inactive and was deactivated exactly once. |
| `Consumer.ParseCode` | consumer.js:57-76 | Reading an error code's spelling gives a code that spells it back. The result is `OtherCode` exactly when the spelling is not one of the five handled codes. |
| `Consumer.ParseCodeText` | consumer.js:57-76 | Spelling a well-formed code and reading it back gives the same code. |
| `Consumer.Classify` | consumer.js:52-79 | Every error is first logged. After that, the three fatal codes, and only they, close the subscription. The three fatal codes and `MessageLockLost` each get one more log line. `ServiceBusy`, and only it, waits 1000 ms. Every other code, and every error that is not a Service Bus error, gets nothing further. |
| `Consumer.SendSMSWithTwilio` | consumer.js:24-36 | Whether Twilio accepts or rejects the message, the sender returns normally. |
| `Consumer.MyMessageHandler` | consumer.js:46-50 | A message with application properties makes the handler call the sender with exactly their `to` (possibly missing) and the message's `body`, then return normally. A message without them makes no sender call and the handler throws. |
| `Consumer.Settle` | consumer.js:82-85 | A handler that returns has its message completed. One that throws has it abandoned. |
| `Consumer.CompletedExactlyWithProperties` | consumer.js:24-50 | Whatever Twilio replies, a message is completed exactly when it carries application properties, and abandoned exactly when it does not. |
| `Consumer.OnEvent` | consumer.js:46-90 | A closed subscription ignores every event. A fault leaves the sender calls and settlements alone, and closes the subscription exactly on a fatal code. On an open subscription a delivery records one settlement. A message with application properties gets one sender call with its `to` and `body` and is completed. One without them gets no sender call and is abandoned. |
| `Consumer.RunAppend` | consumer.js:81-90 | `Run`'s value, the subscription's handling of a sequence of callback events: handling a + b is handling a, then b. |
| `Consumer.ClosedIgnoresEverything` | consumer.js:68 | A closed subscription stays closed, and any later sequence of events changes nothing. |
| `Consumer.FatalFaultIsFinal` | consumer.js:58-69 | After a fatal fault the subscription is closed, and every later event is without effect. |
| `Consumer.MessageWithoutPropertiesIsAbandoned` | consumer.js:46-50 | On an open subscription, a message without application properties gets no sender call and is recorded as abandoned. Nothing else changes. |
| `Consumer.NonFatalFaultsChangeNothing` | consumer.js:70-78 | A fault with any non-fatal code, or a non-Service-Bus error, leaves the subscription state unchanged. |
| `Consumer.OnEventIsConsistent` | consumer.js:46-90 | One callback keeps the settlement invariant. |
| `Consumer.RunIsConsistent` | consumer.js:46-90 | Every run keeps this invariant. Each settled message is completed exactly when it has application properties. The sender calls are, in order, one call with `to` and `body` for each such message. |
| `Consumer.DeliveriesAreForwardedAndCompleted` | consumer.js:46-50 | On an open subscription, each delivered message that has application properties gets exactly one sender call with its own `to` and `body`, in delivery order, and is completed. The subscription stays open. |
| `Consumer.Subscription.constructor` | consumer.js:81-90 | A new subscription is open, with no sender calls and no settlements. |
| `Consumer.Subscription.Close` | consumer.js:68 | The subscription is closed and nothing else changes. Closing an already closed subscription is a no-op. |
| `Consumer.Subscription.ProcessError` | consumer.js:52-79 | Returns `Classify(e)`. The subscription is closed exactly on a fatal code, and its other state is unchanged. |
| `Consumer.Subscription.ProcessMessage` | consumer.js:46-50 | The new state is `OnEvent` of the old state and the delivery. The invariant is kept. An open subscription settles the message: completed when it has application properties, abandoned otherwise. A closed one delivers nothing. |

## Left out

- Loading the appointments with `csvtojson` and handing them over through the global `appointmentsData` (producer.js:24-31): this is file I/O and a third-party parser. The rows are a given sequence of records.
- The WebSocket transport, the broker URL and the connection handshake behind `activate()` and `onConnect` (producer.js:5-6, 20-22, 34-37): this is network plumbing. `LoadAndPublish` takes the connection as made once the client is activated. Activating, publishing and deactivating are recorded effects on `StompClient`.
- `moment` date parsing and the wall clock (producer.js:78-80): timestamps are integer milliseconds and `now` is an input. Which date strings moment accepts is not modelled. A row's time is either a parsed value or a value moment cannot parse (null, the empty string, an unparsable string). The latter gives the NaN delay that the `> 0` gate drops. A missing field makes moment use the current time, so the caller passes `now` as the parsed value, and the finite delay of about −900000 ms is dropped by the same gate. Non-negative integers of 10^21 and above, which JavaScript writes in exponent form, are not modelled. Only the lead time 15 is ever rendered.
- Producer.PublishToQueue: the source reads the clock afresh in each of its three `toDelayFromDate` calls per row. The model takes one reading per row for all three. So it does not capture a gate that passes while the header value, read a moment later, is no longer positive.
- Producer.PublishToQueue: the source drains the array by a self-call that is not in return position, and Node does not eliminate tail calls. A large enough batch therefore overflows the call stack part-way, and the remaining rows are never published and the client is never deactivated. The model's loop has no stack limit, so it always drains the array and deactivates.
- Producer.FrameForIsWellFormed: the header is kept as the integer `toDelayFromDate` returns. How the STOMP library turns header values into strings is not modelled.
- The Azure Service Bus client, receiver, the `subscribe` machinery and the real `delay()` timer (consumer.js:5-9, 39-44, 75, 81-90): these are a foreign SDK and asynchronous timing. The back-off is the action value `WaitThenContinue(1000)`, not real time. The SDK's delivery of events to the handlers is the event sequence given to `Run`.
- Consumer.MyMessageHandler: of the application properties only `to` is modelled, since the handler reads no other. The log line it writes on receipt (consumer.js:47) is not modelled.
- The Twilio client and `messages.create` (consumer.js:18-30): an external network API. Its reply, accepted or rejected, is a parameter.
- dotenv configuration, console logging and the `process.exit` in the top-level catch (consumer.js:11-16, 95-98): these concern the environment and the process.
- Concurrency among in-flight callbacks: the SDK handles it. The model handles one callback at a time.
- The two scripts use different brokers. The producer writes `to` inside the JSON body on ActiveMQ. The consumer reads `to` from `applicationProperties` on Service Bus. No end-to-end link between them is modelled.
