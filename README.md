# Twitter API client dispatcher and endpoint requests, modelled in Dafny

This project models the core of the Go Twitter client "anaconda". The model has two parts.

- **The throttled query dispatcher** (`twitter.go`), made sequential. The client holds a queue of queries, a mutable `delay`, and a history of what it has done. Each iteration of the dispatcher loop:
  1. takes the head query and notes its start time;
  2. runs it through `execQuery`, which routes `_GET` and `_POST` to a signed HTTP call and refuses every other method code;
  3. classifies the HTTP response with `decodeResponse`;
  4. sends exactly one response on the query's own channel;
  5. reads the delay once and sleeps for what is left of it.

  The loop with a constant delay is the function `Twitter.Run`. The lemmas about it state:
  - queries are answered in arrival order, each with its own data and its own outcome, failed executions included;
  - no response reaches another caller's channel;
  - consecutive starts are at least `delay` apart and never overlap;
  - a delay of zero runs queries back to back.

  The class `Twitter.TwitterApi` runs the loop step by step. Its invariant `Valid` says three things: the queue is FIFO, every served query has exactly one response, and the starts are spaced by the delays that were read. `Drain` is proved to produce exactly what `Run` predicts.
- **Request construction** in `webhook.go` and `directmessages.go`. Each endpoint is a function from its arguments to a `Request`, which holds a URL, a form, a method code and a decode target. The form is Go's `url.Values` and may be nil. Lemmas relate the endpoints:
  - which endpoints share a URL;
  - which arguments are ignored;
  - which tier selects which address;
  - which keys each form holds;
  - that the decimal ids in a form parse back to the number given.

  Each Go wrapper is a method that hands its request to `TwitterApi.Submit`. That one call stands for the channel send and receive. The wrapper then returns what was stored in its target and the error.

Time is a logical clock in nanoseconds, the unit of Go's `time.Duration`. Three things the code depends on become parameters (`Twitter.Environment`): the OAuth-signed HTTP transport, given the time of the call, and the two JSON questions the code asks of a body. The first question is whether the body decodes into a target. The second is whether it decodes as a `TwitterErrorResponse`.

`GetWHSubscriptionList` joins the base URL and its path with no slash in between (webhook.go:124). Every other endpoint puts a slash there. The model keeps that behaviour as written, and `Webhook.GetWHSubscriptionListNotUnderBase` states the difference.

## Model

| member | source | states |
|---|---|---|
| Values.Set | directmessages.go:40-42 | setting a key on a non-nil form leaves exactly that one value under the key, adds the key, and keeps every other key's values |
| Strconv.FormatInt | directmessages.go:50 | the base-10 rendering is non-empty, starts with '-' exactly for negative numbers, and is otherwise digits |
| Strconv.Digits | directmessages.go:50 | the digits of a natural number are non-empty decimal digits with no leading zero |
| Strconv.ParseDigitsOfDigits | directmessages.go:50 | reading the digits of a natural number back gives the number |
| Strconv.ParseFormatInt | directmessages.go:50 | parsing the base-10 rendering of any int64 gives it back |
| Strconv.FormatIntInjective | directmessages.go:59 | two int64 values with the same rendering are equal |
| Twitter.CleanValues | twitter.go:135-140 | the result is never nil, reads exactly like the input, and is the input itself when that was not nil |
| Twitter.CleanValuesIdempotent | twitter.go:135-140 | cleaning twice is cleaning once |
| Twitter.UnparsedError | twitter.go:172 | a plain message that starts with "Could not even parse error. Get " and the URL, ends with the body, and is longer than those together with the status digits |
| Twitter.UnparsedErrorMentions | twitter.go:172 | the message for an unparsable error body contains the request URL, the status code in decimal and the body |
| Twitter.UnparsedErrorExample | twitter.go:172 | a 503 answered with "not json" gives a message that contains "503" and "not json" |
| Twitter.DecodeResponse | twitter.go:163-178 | any status but 200 is an error and stores nothing; that error is a TwitterErrorResponse exactly when the body parses as one, and otherwise is the unparsed-error message; on 200 there is no error exactly when there is a target and the body decodes into it, since encoding/json refuses a nil target; something is stored only on 200 with a target and a decodable body |
| Twitter.ApiCall | twitter.go:143-160 | the call takes the transport's time; a transport error is returned unchanged with nothing stored, and a received response is classified by `DecodeResponse` into the query's target |
| Twitter.ExecQuery | twitter.go:182-191 | a result holds exactly one of stored data and an error, never both and never neither; something is stored only when the query has a target |
| Twitter.Run | twitter.go:194-215 | one response and one start per queued query; the first query starts at once and is answered on its own channel; the clock never goes back |
| Twitter.ExecQueryRoutes | twitter.go:182-187 | `_GET` goes to the GET call and `_POST` to the POST call, with the query's URL, form and target |
| Twitter.ExecQueryUnsupported | twitter.go:188-189 | any other method code gives "HTTP method not yet supported", takes no time, and does not depend on the transport, so no request is issued |
| Twitter.Deliver | twitter.go:205-208 | the response goes on the query's own channel and carries the query's data and the execution's stored value and error |
| Twitter.SleepUntil | twitter.go:214 | after the sleep the clock is at least the time the execution ended and at least start plus delay, and it is one of the two |
| Twitter.QueryFor | twitter.go:195-202 | the query built for a request is tagged with the channel it was given |
| Twitter.RequestOfQueryFor | twitter.go:195-202 | the dispatcher sees exactly the URL, form, method and target the wrapper sent |
| Twitter.RunAnswersEachQueryInOrder | twitter.go:194-208 | one response per query, in arrival order, each the delivery of that query's own execution at its start time, whether or not the execution failed |
| Twitter.RunDeliversToDistinctChannels | twitter.go:202-208 | when the queued queries have distinct channels, so do their responses |
| Twitter.RunTiming | twitter.go:194-215 | the first query starts at once, the loop ends at least `delay` after the last start, and time never runs backwards |
| Twitter.RunSpacing | twitter.go:194-215 | each start after the first is at least `delay` after the previous start and no earlier than the previous execution's end, so executions never overlap |
| Twitter.RunWithoutDelay | twitter.go:109-110 | with a delay of zero or less each query starts the moment the previous execution ends |
| Twitter.ConsecutiveRunsSpaced | twitter.go:194-215 | when one run follows another from the clock where it ended, the second run's first query starts at least `delay` after the first run's last query |
| Twitter.RunDuration | twitter.go:214 | with a non-negative delay, n queries take at least n times the delay |
| Twitter.FifoServe | twitter.go:195 | taking the head of the queue keeps submitted queries equal to served queries followed by the queue |
| Twitter.AnsweredServe | twitter.go:204-208 | executing a query and sending its response keeps every served query answered once |
| Twitter.SpacedSleep | twitter.go:210-214 | sleeping on the delay just read keeps the starts spaced |
| Twitter.TwitterApi.constructor | twitter.go:88-95 | a new client has the given credentials, an empty queue and DEFAULT_DELAY (ten seconds) |
| Twitter.TwitterApi.SetDelay | twitter.go:111-115 | only the delay changes, to the value given, and the invariant holds |
| Twitter.TwitterApi.GetDelay | twitter.go:117-122 | returns the current delay and changes nothing |
| Twitter.TwitterApi.Enqueue | twitter.go:195 | a query on a fresh channel joins the back of the queue; nothing else changes |
| Twitter.TwitterApi.Execute | twitter.go:195-208 | the head is removed, executed at the current time, and its response appended to the deliveries; the clock advances by the execution time |
| Twitter.TwitterApi.Sleep | twitter.go:210-214 | the delay is read once, at this point, and the clock moves to `SleepUntil` of the start, so a `SetDelay` before the read decides this sleep |
| Twitter.TwitterApi.Step | twitter.go:194-215 | one full iteration equals the first step of `Run` and leaves the projected outcome unchanged |
| Twitter.TwitterApi.Drain | twitter.go:194-215 | serving the whole queue appends exactly `Run`'s deliveries and starts, and ends at `Run`'s clock |
| Twitter.TwitterApi.Submit | webhook.go:18-20 | the request goes out on a new channel; the response returned was sent on that channel and is the outcome of that request's own execution; the delay is unchanged, and the deliveries and start times are the earlier ones followed by exactly what `Run` predicts for the waiting queue plus the new query, the clock is `Run`'s final clock, and the queue ends empty; the first waiting query starts the moment the client is ready, and the clock ends at least `delay` after the last start |
| Twitter.SubmitInTurn | twitter.go:194-215 | two requests sent one after the other keep the invariant, and the second query starts at least `delay` after the first |
| Webhook.WebhookURL | webhook.go:23-29 | the subscription URL lies under the base URL and contains the environment name on the premium tier and the webhook id on any other tier |
| Webhook.AppActivityWebhookURL | webhook.go:74-90 | the webhook URL lies under the base URL, contains the webhook id, and contains the environment name on every tier but enterprise |
| Webhook.WebhookURLByTier | webhook.go:23-29 | on the premium tier the subscription URL is the one `GetWHSubscription` reads, whatever the webhook id; on any other tier it does not depend on the environment |
| Webhook.WebhookURLDeterminesAddress | webhook.go:23-29 | equal subscription URLs mean equal environments on the premium tier and equal webhook ids on any other tier |
| Webhook.GetAppActivityWebhooksRequest | webhook.go:16-21 | a GET with the cleaned form and a decode target, under the base URL |
| Webhook.CountAppActivityWebhooksRequest | webhook.go:34-39 | a GET with the cleaned form and a decode target, under the base URL |
| Webhook.SetAppActivityWebhooksRequest | webhook.go:62-67 | a POST with the cleaned form and a decode target, under the base URL |
| Webhook.DeleteAppActivityWebhooksRequest | webhook.go:71-80 | a DELETE with the cleaned form and a decode target, under the base URL |
| Webhook.PutAppActivityWebhooksRequest | webhook.go:84-93 | a PUT with the cleaned form and a decode target, under the base URL |
| Webhook.SetWHSubscriptionRequest | webhook.go:98-104 | a POST with the cleaned form and a decode target, under the base URL |
| Webhook.GetWHSubscriptionRequest | webhook.go:109-115 | a GET with the cleaned form and a decode target, under the base URL |
| Webhook.GetWHSubscriptionListRequest | webhook.go:120-126 | a GET with the cleaned form and a decode target; the character after the base URL is the 'a' of the path, not a slash |
| Webhook.DeleteWHSubscriptionRequest | webhook.go:131-140 | a DELETE with the cleaned form and a decode target, under the base URL |
| Webhook.DeleteWHSubscriptionMatchesSet | webhook.go:131-140 | deleting a subscription addresses the URL that setting it does, for the same arguments; only the method differs |
| Webhook.DeleteAndPutAppActivityWebhooksShareURL | webhook.go:71-93 | deleting and re-enabling a webhook build the same request except for the method; on the enterprise tier the URL ignores the environment |
| Webhook.OtherTierAddressing | webhook.go:74-77 | on a tier that is neither premium nor enterprise, a webhook is addressed by environment and id, but a subscription by id alone |
| Webhook.GetWHSubscriptionsIgnoreTierAndId | webhook.go:109-126 | both subscription lookups ignore the tier and the webhook id |
| Webhook.GetWHSubscriptionListNotUnderBase | webhook.go:124 | the list URL has no slash after the base URL, while the single-lookup URL has one |
| Webhook.DeleteAndPutAreRefused | webhook.go:78-91 | with the dispatcher routing only `_GET` and `_POST`, the delete and put requests get "HTTP method not yet supported" |
| Webhook.GetAppActivityWebhooks | webhook.go:16-21 | submits its request and returns what was stored in its target and the error of the response on its channel; the delay is unchanged; the deliveries and start times are the earlier ones followed by exactly what `Run` predicts for the waiting queue plus this request's query, and the clock is `Run`'s final clock, at least `delay` after this query's start, so the next call cannot start sooner |
| Webhook.CountAppActivityWebhooks | webhook.go:34-39 | submits its request and returns the response sent on its channel; the delay is unchanged; the deliveries and start times are the earlier ones followed by exactly what `Run` predicts for the waiting queue plus this request's query, and the clock is `Run`'s final clock, at least `delay` after this query's start, so the next call cannot start sooner |
| Webhook.SetAppActivityWebhooks | webhook.go:62-67 | submits its request and returns the response sent on its channel; the delay is unchanged; the deliveries and start times are the earlier ones followed by exactly what `Run` predicts for the waiting queue plus this request's query, and the clock is `Run`'s final clock, at least `delay` after this query's start, so the next call cannot start sooner |
| Webhook.DeleteAppActivityWebhooks | webhook.go:71-80 | submits its request and returns the response sent on its channel; the delay is unchanged; the deliveries and start times are the earlier ones followed by exactly what `Run` predicts for the waiting queue plus this request's query, and the clock is `Run`'s final clock, at least `delay` after this query's start, so the next call cannot start sooner |
| Webhook.PutAppActivityWebhooks | webhook.go:84-93 | submits its request and returns the response sent on its channel; the delay is unchanged; the deliveries and start times are the earlier ones followed by exactly what `Run` predicts for the waiting queue plus this request's query, and the clock is `Run`'s final clock, at least `delay` after this query's start, so the next call cannot start sooner |
| Webhook.SetWHSubscription | webhook.go:98-104 | submits its request and returns the response sent on its channel; the delay is unchanged; the deliveries and start times are the earlier ones followed by exactly what `Run` predicts for the waiting queue plus this request's query, and the clock is `Run`'s final clock, at least `delay` after this query's start, so the next call cannot start sooner |
| Webhook.GetWHSubscription | webhook.go:109-115 | submits its request and returns the response sent on its channel; the delay is unchanged; the deliveries and start times are the earlier ones followed by exactly what `Run` predicts for the waiting queue plus this request's query, and the clock is `Run`'s final clock, at least `delay` after this query's start, so the next call cannot start sooner |
| Webhook.GetWHSubscriptionList | webhook.go:120-126 | submits its request and returns the response sent on its channel; the delay is unchanged; the deliveries and start times are the earlier ones followed by exactly what `Run` predicts for the waiting queue plus this request's query, and the clock is `Run`'s final clock, at least `delay` after this query's start, so the next call cannot start sooner |
| Webhook.DeleteWHSubscription | webhook.go:131-140 | submits its request and returns the response sent on its channel; the delay is unchanged; the deliveries and start times are the earlier ones followed by exactly what `Run` predicts for the waiting queue plus this request's query, and the clock is `Run`'s final clock, at least `delay` after this query's start, so the next call cannot start sooner |
| DirectMessages.ScreenNameForm | directmessages.go:40-42 | the form holds exactly `screen_name` and `text`, one value each, with the values given |
| DirectMessages.UserIdForm | directmessages.go:49-51 | the form holds exactly `user_id` and `text`, one value each; `user_id` parses back to the id |
| DirectMessages.IdForm | directmessages.go:58-59 | the form holds exactly the one key, whose single value parses back to the id |
| DirectMessages.PostDirectMessagesImplRequest | directmessages.go:66-70 | a POST of the form as given, decoded into a DirectMessage |
| DirectMessages.PostDMRequestsShareEndpoint | directmessages.go:39-53 | sending by screen name and by user id build the same request except for the form |
| DirectMessages.DeleteDirectMessageRequest | directmessages.go:57-63 | a POST whose form holds only `id`, which parses back to the id, decoded into a DirectMessage |
| DirectMessages.DeleteDirectMessageIgnoresIncludeEntities | directmessages.go:57 | `includeEntities` has no effect on the request |
| DirectMessages.DeleteDirectMessageAddressesId | directmessages.go:58-59 | two delete requests are equal only for equal ids |
| DirectMessages.IndicateTypingRequest | directmessages.go:74-78 | a POST whose form holds only `recipient_id`, which parses back to the id, with no decode target |
| DirectMessages.IndicateTypingStoresNothing | directmessages.go:78-79 | with no target nothing is ever stored; only the error comes back |
| DirectMessages.IndicateTypingNeverSucceeds | directmessages.go:78 | as written, the typing indicator reports an error for every environment, even on a 200 answer, because it decodes into nil |
| DirectMessages.IndicateTypingIntendedRequest | directmessages.go:74-78 | the same POST and form as the request as written, but with a decode target |
| DirectMessages.IndicateTypingIntendedSucceeds | directmessages.go:78 | with a target, the indicator reports no error exactly when the answer is a 200 whose body decodes |
| DirectMessages.GetDirectMessagesListRequest | directmessages.go:16-20 | a GET with the caller's form unchanged, possibly nil, decoded into a DMEventList |
| DirectMessages.GetDirectMessagesSentRequest | directmessages.go:23-27 | a GET with the caller's form unchanged, possibly nil, decoded into a list of DirectMessage |
| DirectMessages.GetDirectMessagesShowRequest | directmessages.go:31-35 | a GET with the caller's form unchanged, possibly nil, decoded into a DirectMessage |
| DirectMessages.GetDirectMessagesEndpointsDiffer | directmessages.go:16-35 | the three readers address three different URLs |
| DirectMessages.GetDirectMessagesList | directmessages.go:16-20 | submits its request and returns the response sent on its channel; the delay is unchanged; the deliveries and start times are the earlier ones followed by exactly what `Run` predicts for the waiting queue plus this request's query, and the clock is `Run`'s final clock, at least `delay` after this query's start, so the next call cannot start sooner |
| DirectMessages.GetDirectMessagesSent | directmessages.go:23-27 | submits its request and returns the response sent on its channel; the delay is unchanged; the deliveries and start times are the earlier ones followed by exactly what `Run` predicts for the waiting queue plus this request's query, and the clock is `Run`'s final clock, at least `delay` after this query's start, so the next call cannot start sooner |
| DirectMessages.GetDirectMessagesShow | directmessages.go:31-35 | submits its request and returns the response sent on its channel; the delay is unchanged; the deliveries and start times are the earlier ones followed by exactly what `Run` predicts for the waiting queue plus this request's query, and the clock is `Run`'s final clock, at least `delay` after this query's start, so the next call cannot start sooner |
| DirectMessages.PostDirectMessagesImpl | directmessages.go:66-70 | submits its request and returns the response sent on its channel; the delay is unchanged; the deliveries and start times are the earlier ones followed by exactly what `Run` predicts for the waiting queue plus this request's query, and the clock is `Run`'s final clock, at least `delay` after this query's start, so the next call cannot start sooner |
| DirectMessages.PostDMToScreenName | directmessages.go:39-44 | builds the screen-name form key by key and posts it through `postDirectMessagesImpl`; the delay is unchanged; the deliveries and start times are the earlier ones followed by exactly what `Run` predicts for the waiting queue plus this request's query, and the clock is `Run`'s final clock, at least `delay` after this query's start, so the next call cannot start sooner |
| DirectMessages.PostDMToUserId | directmessages.go:48-53 | builds the user-id form key by key and posts it through `postDirectMessagesImpl`; the delay is unchanged; the deliveries and start times are the earlier ones followed by exactly what `Run` predicts for the waiting queue plus this request's query, and the clock is `Run`'s final clock, at least `delay` after this query's start, so the next call cannot start sooner |
| DirectMessages.DeleteDirectMessage | directmessages.go:57-63 | submits its request and returns the response sent on its channel; the delay is unchanged; the deliveries and start times are the earlier ones followed by exactly what `Run` predicts for the waiting queue plus this request's query, and the clock is `Run`'s final clock, at least `delay` after this query's start, so the next call cannot start sooner |
| DirectMessages.IndicateTyping | directmessages.go:74-80 | submits its request and returns only the error of the response on its channel; the delay is unchanged; the deliveries and start times are the earlier ones followed by exactly what `Run` predicts for the waiting queue plus this request's query, and the clock is `Run`'s final clock, at least `delay` after this query's start, so the next call cannot start sooner |

## Findings

| source | as written | input that shows it | evidently intended | confidence | as-written member | corrected member |
|---|---|---|---|---|---|---|
| directmessages.go:78 | `IndicateTyping` passes a nil data pointer, and `decodeResponse` (twitter.go:177) decodes a 200 body into it; encoding/json returns an error for a nil target, so the call never returns a nil error | any recipient id, answered with status 200 and any body | a 200 answer is a success (decode into a throw-away value, or skip decoding) | not executed | DirectMessages.IndicateTypingNeverSucceeds | DirectMessages.IndicateTypingIntendedSucceeds |

The wrapper `DirectMessages.IndicateTyping` keeps the request as written, so its error result follows the source; the corrected request is proved separately.

## Left out

- Goroutines, unbuffered channel blocking and `sync.Mutex` (twitter.go:89-93, 112-120) are not modelled. The dispatcher is sequential: a wrapper's send and receive is one `Submit` call that runs the queue dry, and the delay is a plain field read once per iteration.
- Wall-clock time is not modelled. `time.Now`, `time.Since` and `time.Sleep` become a logical clock in nanoseconds, and the duration of each call is reported by the transport parameter.
- The transport is a deterministic function of the time, the credentials, the verb, the URL and the form. A real network is neither deterministic nor bound to answer.
- OAuth signing, `http.DefaultClient`, `AuthorizationURL` and the global `SetConsumerKey` and `SetConsumerSecret` (twitter.go:58-62, 97-107, 124-133) are left out. They are a foreign library, network I/O and process-wide state.
- JSON is not modelled: "decodes into this target" and "parses as a TwitterErrorResponse" are predicates of the environment. A decoded value is represented by the body that was decoded, and a partial write into a target by a decode that fails is not captured.
- The struct definitions in directmessage.go carry no logic; they appear only as the `Shape` a response is decoded into.
- `Twitter.DELETE` and `Twitter.PUT`: `_DELETE` and `_PUT` are not defined in twitter.go. They are taken as the next iota values, 2 and 3. `execQuery` routes only `_GET` and `_POST`, so both fall to its default branch.
- `TwitterApi.baseUrl`: the base URL is used by every wrapper but is not a field of the `TwitterApi` struct in twitter.go. It is a constant field set by the constructor.
- `Twitter.SleepUntil` does not model the wrap-around of `time.Duration` (a 64-bit integer) when a subtraction overflows. Clock values are unbounded integers.
- `Twitter.Run` and `TwitterApi.Drain` keep the delay constant for the whole run. A `SetDelay` made between iterations is modelled by calling `Execute`, `SetDelay` and `Sleep` directly.
- The logical clock does not advance while the dispatcher waits for a query. `Run` starts each query at the end of the previous sleep, and `Submit` starts at the clock the client had, where Go reads `time.Now()` when the query arrives (twitter.go:195-196). The lower bounds on spacing are unaffected; `RunWithoutDelay`'s equality holds only for queries already waiting in the queue.
- The caller resumes later than in Go. A Go caller resumes as soon as it receives its response, before the dispatcher reads `delay` (twitter.go:205-214). So a `SetDelay` made right after a wrapper returns can decide that query's sleep. In the model, `Submit` returns only after the sleep, so a `SetDelay` by the caller never does.
