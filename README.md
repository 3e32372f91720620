# Auction bid consumer — Dafny model

This project models the message-processing step of the real-time auction
tracker's consumer: the `callback` that RabbitMQ (through pika) invokes once
per delivered bid message. Two revisions are modelled:

- `consumer_v3.0.py`: decode the JSON body, map the queue's routing key to an
  item category through `QUEUE_CONFIG` (unknown queues give `'unknown'`), read
  `bid_amount` and `timestamp`, append the message to that category's rolling
  window (`deque(maxlen=5)` in `ROLLING_WINDOWS`), then ack; any exception
  nacks with `requeue=False`.
- `consumer_v4.0.py`: the same, plus a high-bid e-mail alert when
  `bid_amount > BID_THRESHOLD` (800). The comparison comes after the append.

Modules, one per component:

| file | module | models |
|---|---|---|
| payload.dfy | `Payload` | the value `json.loads` returns, Python subscripting `message[key]` and f-string rendering of scalars |
| routing.dfy | `Routing` | `QUEUE_CONFIG` and its `.get(key, 'unknown')` lookup; the producer's inverse table |
| window.dfy | `Window` | `deque(maxlen=5)` append semantics and the `ROLLING_WINDOWS` store as a class |
| alerting.dfy | `Alerting` | `BID_THRESHOLD`, Python's `>` against it, `str.capitalize`, the alert text, the mailer as an attempt log |
| broker.dfy | `Broker` | the ack/nack verdict and the channel as a log of `basic_ack`/`basic_nack` calls |
| pipeline.dfy | `Pipeline` | definitions both revisions share (effect of one callback, which messages get stored) |
| consumer_v3.dfy | `ConsumerV3` | `callback` of consumer_v3.0.py |
| consumer_v4.dfy | `ConsumerV4` | `callback` of consumer_v4.0.py, a run of deliveries, and its relation to v3 |

Each callback is modelled twice: a pure function `Step` that gives the verdict,
the new windows and the alert for one message, and an imperative `Callback`
method that mutates a `WindowStore`, a `Channel` and a `Mailer` in the order the
source does and is proved to do exactly what `Step` says. The properties are
proved about `Step`, `Run` and the window functions.

`json.loads` is not modelled: the callback receives `Option<Json>`, where `None`
stands for a body that `json.loads` rejected. A JSON number carries its value
(a `real`) and the text Python's `str()` gives it, which is what the alert
subject prints.

Both source files declare identical `QUEUE_CONFIG` and `ROLLING_WINDOWS`
tables; the model defines each once and both revisions use it.

Behaviours of the code that the model keeps:

- A missing `bid_amount` or `timestamp` raises at consumer_v4.0.py:50-51,
  before the append, so no window changes. A non-comparable `bid_amount`
  (a string, `null`, a list or an object) is not rejected before storage:
  consumer_v4.0.py:56 appends it, line 61 then raises `TypeError`, and the
  message is nacked while staying in its window. consumer_v3.0.py has no
  comparison and acks it.
- A JSON `true`/`false` amount is comparable in Python (`True > 800` is
  `False`), so it is stored, never alerts, and is acked.
- `deque.append` returns nothing (the evicted message is discarded), and
  neither does `WindowStore.Append`.
- A payload that decodes to something other than an object (a list, a string,
  a number) fails at `message['bid_amount']` with `TypeError` and is nacked.

## Model

| member | source | states |
|---|---|---|
| Routing.Route | consumer_v4.0.py:21-25 | the three auction queues route to electronics, furniture and art; every other routing key, and only those, routes to `'unknown'` |
| Routing.ProducerTableInvertsRouting | producer_v3.0.py:23-27 | the producer's category→queue table is the inverse of the consumer's queue→category table, in both directions |
| Payload.Subscript | consumer_v4.0.py:50-51 | `message[key]` succeeds exactly on an object holding the key and yields its value; a missing key raises KeyError, a non-object raises TypeError |
| Payload.FieldFault | consumer_v3.0.py:46 | when a read fails, the exception is the one of the first failing read: KeyError on `bid_amount` before `timestamp`, TypeError for a non-object |
| Window.Appended | consumer_v4.0.py:28-32 | appending to a maxlen-5 deque gives length min(n+1, 5), the new message last, and before it the newest older messages in their old order |
| Window.AppendToFullEvictsOldest | consumer_v4.0.py:56 | on a full window an append drops exactly the oldest message: result is `window[1..] + [message]` |
| Window.AppendAllKeepsNewest | consumer_v3.0.py:27-31 | any run of appends to a bounded window leaves the last 5 of the old contents followed by the appended messages, in arrival order |
| Window.WindowAfterAppends | consumer_v3.0.py:50 | after k appends to an empty window its length is min(k, 5) and it equals the last min(k, 5) messages appended |
| Window.AppendedThenMore | consumer_v4.0.py:56 | one append followed by further messages keeps the same newest 5 as adding them all at once |
| Window.WindowStore.constructor | consumer_v4.0.py:28-32 | the store starts with one empty window for each of the three categories and respects its invariant |
| Window.WindowStore.Append | consumer_v4.0.py:56 | `deque.append` (grow on the right, trim on the left past maxlen) updates only that category's window, to `Appended` of the old one, and keeps the key set and the bound |
| Alerting.GreaterThan | consumer_v4.0.py:61 | Python's `value > 800`: defined exactly for numbers and bools (a bool as 0/1); true exactly when a number exceeds the threshold; any other type raises TypeError |
| Alerting.ThresholdIsStrict | consumer_v4.0.py:35 | an amount equal to 800 does not alert, a bool never alerts, and an alerting amount is a number strictly above 800 |
| Alerting.Capitalize | consumer_v4.0.py:63 | `str.capitalize`: same length, first character upper-cased, all others lower-cased |
| Alerting.CapitalizedCategories | consumer_v4.0.py:63 | the three categories capitalize to Electronics, Furniture and Art |
| Alerting.Mailer.CreateAndSendEmailAlert | emailer.py:6-77 | the sender records one attempt per call and, whenever it terminates, returns normally, whether the mail was sent or failed at any stage |
| Broker.Resolve | consumer_v4.0.py:67-74 | a verdict becomes exactly one broker call for the delivery tag: ack for Ack, nack carrying the verdict's requeue flag for Nack |
| Broker.Channel.BasicAck | consumer_v4.0.py:67 | `basic_ack` adds one ack for the delivery tag to the channel log |
| Broker.Channel.BasicNack | consumer_v4.0.py:71 | `basic_nack` adds one nack with the given requeue flag to the channel log |
| Pipeline.StoredMessages | consumer_v4.0.py:55-56 | a sequence of deliveries stores at most one message per delivery into a category |
| Pipeline.StoredMessagesSelect | consumer_v4.0.py:55-56 | every message stored into a category is the body of a delivery routed to it with both fields, and every such delivery's body is stored |
| Pipeline.StoredMessagesInOrder | consumer_v4.0.py:55-56 | storing keeps delivery order: the messages stored from two consecutive runs of deliveries are those of the first run followed by those of the second |
| ConsumerV3.Step | consumer_v3.0.py:43-61 | invalid JSON and missing fields nack (requeue=False) with no window change; only a stored message changes a window, and only its own category's, by one append; the verdict is ack exactly when both reads succeed, whatever the amount's type; v3 never alerts |
| ConsumerV3.Callback | consumer_v3.0.py:33-61 | mutating the store and the channel gives the windows `Step` gives and exactly one ack or nack for the delivery tag; the store invariant (keys fixed, at most 5 per window) is kept |
| ConsumerV4.Step | consumer_v4.0.py:47-74 | invalid JSON and missing fields nack (requeue=False) with no change; unknown categories change nothing, do not alert, and ack; a stored message is appended to its own window only; a stored non-comparable amount stays stored and is nacked; ack exactly when both reads succeed and the comparison, if reached, does not raise; an alert fires exactly for a stored number strictly above 800 and carries category, amount and timestamp |
| ConsumerV4.Callback | consumer_v4.0.py:37-74 | mutating store, channel and mailer gives what `Step` gives: one ack or nack per message, one mail attempt per alert; the verdict does not depend on how the mail attempt ended |
| ConsumerV4.AlertText | consumer_v4.0.py:63-64 | the alert subject is "High Bid Alert: " + capitalized category + " - $" + the amount's text, the capitalized category is Electronics, Furniture or Art, and for a scalar timestamp the body is "A high bid of $" + the amount's text + " was placed on " + the lower-case category + " at " + the timestamp's text + "." (a string timestamp appears verbatim) |
| ConsumerV4.StoresLikeV3 | consumer_v4.0.py:55-61 | for every input v4 leaves exactly the windows v3 leaves: alerting changed no storage |
| ConsumerV4.VerdictDiffersFromV3 | consumer_v4.0.py:61 | the revisions' verdicts differ exactly for a stored message with a non-comparable amount, which v3 acks and v4 nacks with TypeError |
| ConsumerV4.Run | consumer_v4.0.py:85-90 | over any sequence of deliveries the window keys never change, windows stay within 5, there is one verdict per delivery, and no verdict requeues |
| ConsumerV4.StepWindow | consumer_v4.0.py:55-56 | one callback changes a category's window only by appending a message routed to it that has both fields |
| ConsumerV4.WindowIsNewestStored | consumer_v4.0.py:28-56 | after any sequence of deliveries a window equals the last 5 of its old contents followed by the messages stored into it, in arrival order |

## Left out

- Broker I/O: the pika connection, queue declaration, `basic_consume`, `start_consuming` and the KeyboardInterrupt and connection-error handling of `main` in both consumers. `Run` stands for the sequence of callbacks pika makes, one message at a time.
- `basic_ack` itself raising: in the source that exception would reach the generic handler and trigger a nack; the model's channel calls never fail.
- The JSON grammar: `json.loads` is an input (`Option<Json>`). A body that is not valid UTF-8 raises a different exception in Python but ends in the same nack; the model files both under JsonDecodeError.
- Python's `NaN` and `Infinity` literals, which `json.loads` accepts: JSON numbers are modelled as reals.
- Numbers that overflow a double: `json.loads` turns `1e400` into `inf`, which v4 stores, alerts on with the text "$inf", and acks. `JNumber` holds a real, so it has no such value.
- Payload.JNumber: `value` stands for the Python int or float `json.loads` produced, after rounding to a double; the model does not perform that rounding, so `800.0000000000000001` (which Python reads as 800.0 and does not alert on) must be supplied with value 800.0.
- How Python prints a float: a number's `text` is taken as given.
- Alerting.Body: the alert body is defined only for a scalar `timestamp`; Python's rendering of a list or object inside the f-string is not modelled.
- Alerting.Capitalize: modelled for ASCII letters only, which covers every category the consumer alerts for.
- Alerting.Mailer.CreateAndSendEmailAlert: returns normally only when the call terminates. emailer.py:37 opens `smtplib.SMTP(host, port)` without a timeout, so a stalled mail server blocks the callback forever and the ack at consumer_v4.0.py:67 is never sent; the model has no notion of blocking.
- emailer.py internals (reading `.env.toml`, building the message, SMTP, STARTTLS, login, send, printing): reduced to an attempt log and a `Transport` outcome that the callback never inspects.
- Logging and `util_logger`; the log lines cannot raise once both fields were read, except in v3 where the log line is where the fields are read, which is modelled.
- A run of consumer_v3.0.py callbacks is not defined separately: `StoresLikeV3` shows each v3 step leaves the same windows as the v4 step, so the window properties of `Run` carry over.
- The producers (producer_v1.0.py, producer_v2.0.py, producer_v3.0.py) apart from the routing table, and consumer_v1.0.py and consumer_v2.0 .py, which keep no state.
- An encode/decode round trip of bid events: the consumer has no encoder, and decoding is external.
