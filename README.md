# Market data client and chart feed — a Dafny model

This project models the data path of a TradingView-based trading front end:

- **The WebSocket client.** `WsApiClient` multiplexes named topics over one socket. It keeps a registry of `WsApiTopic`s by name and one shared connection promise. It reconnects with exponential backoff and re-subscribes every registered topic after a reconnect. Each `WsApiTopic` carries a readiness flag, a closed flag, a readiness signal and a FIFO stream.
- **The two endpoint adapters (Binance and Arthur).** They build the subscribe and unsubscribe frames, remember the last batch of names, and dispatch every incoming message to topics. A message either completes topics (an acknowledgement) or adds data to one.
- **The naming logic of the two `MarketApi`s.** This covers REST kline requests, stream topic names, interval maps with their defaults, the spot/futures routing by instrument id, and the per-message filters of the kline streams.
- **The kline cache of the chart data feed (`DataFeed`).** Per interval, it keeps an array of bars in arrival order and an index by bar time, and answers nearest-bar, range, statistics and last-time queries.
- **The pure parts of the WebSocket data feed (`DataFeedWs`).** These are option validation, the resolution-to-interval chain, the price scale and the request window.
- **The indicator state machine (`IndicatorManager`).** It holds a table of indicators per key. Each indicator has a visibility flag and the id of the study the chart created for it. Toggling issues chart calls (create, show/hide, remove) and updates the table.

The model's form follows the source's:

- **Classes** model code that updates fields in place: `Topic.WsApiTopic`, `WsClient.WsApiClient`, `KlineCache.DataFeed` and `Indicators.IndicatorManager`.
- **Functions and lemmas** model the pure naming and shaping code.
- **Loops** of the source (`forEach` over a registry, the bar loops of the cache, the loops of the indicator manager) are `while` loops with invariants. Each loop is proved against a specification function about which lemmas are proved.

How asynchrony and the outside world are modelled:

- An `await` that waits on something outside the client ends a method: the connection promise and the acknowledgements of `subscribe`, the backoff sleep of `_scheduleReconnect`, and the `FileReader` read of a Blob frame. The method returns a record of the suspended call, and a further method or event resumes it. The awaits of `sendMessage` and of `reset` are merged into the method that makes them (see "## Left out").
- What the browser does on its own (socket open/error/close, timers, a frame arriving) is an event method.
- Decompression, UTF-8 decoding and JSON parsing are parameters (`Frames.Codec`).
- HTTP responses are given to the history functions as the body the HTTP client resolved with.
- The chart widget is a log of `Indicators.ChartCall`s. A study creation that resolves is the continuation `StudyCreated`.

`src/utils/api-client.ts:3-434` is a copy of `src/services/api/_api-client.ts:137-570` that differs only in log messages. One model (modules `Topic`, `Frames`, `Wire`, `ClientModel`, `WsClient`) covers both. Rows below cite whichever copy states the property more directly.

## Model

| member | source | states |
|---|---|---|
| Js.Field | src/services/api/binance-api/index.ts:89 | Reading a property of a message is defined exactly when the message is an object holding that key, and then yields that key's value. |
| Js.Split | src/pages/trading-view/DataFeedWs.ts:56 | `split('-')` always yields at least one part. |
| Js.JoinOfSplit | src/pages/trading-view/DataFeedWs.ts:56 | Splitting loses nothing: joining the parts with the separator gives back the string, and no part contains the separator. |
| Js.SplitWithoutSeparator | src/pages/trading-view/DataFeedWs.ts:56 | A string without the separator splits into itself alone. |
| Js.SplitAtFirstSeparator | src/pages/trading-view/DataFeedWs.ts:56 | A string splits at its first separator: the part before it, then the parts of the rest. |
| Js.LowerOfUpper | src/services/api/binance-api/index.ts:107 | Lower-casing an upper-cased string equals lower-casing the original; this is the case step of the kline round trip. |
| Js.LowerOfConcat | src/services/api/binance-api/MarketApi.ts:64 | Lower-casing distributes over concatenation. |
| StrId.OfParts | src/pages/trading-view/DataFeedWs.ts:56-66 | For an id `base-quote-type` of dash-free parts: the symbol is `base-quote`, the type is `type`, and the market is spot exactly when the type is "spot". |
| StrId.SymbolParts | src/services/api/binance-api/MarketApi.ts:63 | A symbol `base-quote` of dash-free parts splits back into `base` and `quote`. |
| Topic.WsApiTopic.constructor | src/utils/api-client.ts:315-339 | A new topic is named as asked, not ready, not closed, at generation 0 with an empty stream. |
| Topic.WsApiTopic.GetStream | src/utils/api-client.ts:341-346 | Fails exactly when the topic is closed; otherwise it hands out the stream of the current generation. |
| Topic.WsApiTopic.WaitForReady | src/utils/api-client.ts:348-361 | Rejects at once exactly when the topic is closed; otherwise the waiter joins the current generation's readiness signal, which is already released exactly when the topic is ready. |
| Topic.WsApiTopic.Complete | src/utils/api-client.ts:363-373 | The topic becomes ready unless it is closed, and stays ready once ready. Nothing else changes, so a closed or already-ready topic is untouched. |
| Topic.WsApiTopic.Close | src/utils/api-client.ts:375-399 | Only the closed flag changes, and closing twice is the same as closing once. Every released signal stays released, and the current readiness signal is released, so pending waiters resume. |
| Topic.WsApiTopic.Reset | src/utils/api-client.ts:401-412 | The topic is reopened: not ready, not closed, a new generation with an empty stream, and a fresh readiness signal that is not released; the old one is released. |
| Topic.WsApiTopic.AddData | src/utils/api-client.ts:414-425 | An item is appended to the FIFO queue whenever the topic is not closed, ready or not, and is dropped when it is closed; the flags and the generation are untouched. |
| Topic.WsApiTopic.Cancel | src/utils/api-client.ts:329-332 | Cancelling a stream that is still readable closes the topic's current generation, whichever generation the stream belongs to. The current stream is readable. An earlier stream is readable exactly while it holds unread items; once they are read, cancelling it changes nothing. |
| Frames.BinaryText | src/utils/api-client.ts:212-221 | A binary frame is inflated exactly when it is longer than two bytes and starts 0x1F 0x8B. Otherwise it is decoded as UTF-8 as it is. A gzip frame that fails to inflate yields nothing. |
| Frames.DecodeFrame | src/services/api/_api-client.ts:344-385 | A text frame is parsed as it is; a binary frame is parsed after the gzip test and decoding. |
| Frames.MagicAloneIsPlainText | src/utils/api-client.ts:213 | A frame of exactly the two magic bytes is decoded as plain text, not inflated. |
| Frames.GzipAndTextAgree | src/services/api/_api-client.ts:349-354 | A gzip frame yields the same message as the text frame carrying its inflated content. |
| Frames.PlainBinaryAndTextAgree | src/services/api/_api-client.ts:355-357 | A binary frame without the gzip header yields the same message as the text frame of its UTF-8 decoding. |
| Frames.FailedInflateDrops | src/utils/api-client.ts:243-248 | A gzip frame that fails to inflate yields no message, so the handler is never called for it. |
| Wire.CompleteAll | src/services/api/binance-api/index.ts:90-93 | An acknowledgement completes each name of the last batch, one action per name, in order. |
| Wire.CompletesSnoc | src/services/api/arthur-api/index.ts:52-56 | A run of actions completes a topic exactly when an earlier action or the last one completes it. |
| Wire.CompletesCons | src/services/api/arthur-api/index.ts:49-61 | A run of actions completes a topic exactly when its first action or the rest does. |
| Wire.DataForConcat | src/services/api/arthur-api/index.ts:49-61 | The data a topic receives from two runs of actions is that of the first followed by that of the second. |
| Wire.DataForCompleteAll | src/services/api/arthur-api/index.ts:52-56 | Completing a batch delivers no data to any topic. |
| BinanceAdapter.BuildersRoundTrip | src/services/api/binance-api/index.ts:47-83 | A subscribe frame reads back as method "SUBSCRIBE" with exactly the given names, and an unsubscribe frame as "UNSUBSCRIBE" with them. |
| BinanceAdapter.AckCompletesLastBatch | src/services/api/binance-api/index.ts:89-95 | A message with both `result` and `id` completes every name of the last batch and delivers no data. |
| BinanceAdapter.NonAckCompletesNothing | src/services/api/binance-api/index.ts:97-115 | Any other message completes no topic. |
| BinanceAdapter.StreamMessageDelivered | src/services/api/binance-api/index.ts:98-102 | A non-acknowledgement with a non-empty `stream` field is delivered whole to the topic of that name first. |
| Js.NamesJson | src/services/api/arthur-api/index.ts:33 | The names become a JSON array of strings, in order; Binance's `params` (binance-api/index.ts:52) is the same array. |
| ArthurAdapter.BuildersRoundTrip | src/services/api/arthur-api/index.ts:29-43 | The two frames read back as type "subscribe" / "unsubscribe" with exactly the given names. |
| ArthurAdapter.DeliversInArrayOrder | src/services/api/arthur-api/index.ts:45-62 | When the loop runs to the end, each topic receives exactly the items naming it, in array order. Items without a string `topic`, and acknowledgement items, deliver nothing. |
| ArthurAdapter.AckItemCompletesBatch | src/services/api/arthur-api/index.ts:52-56 | An item whose topic is "subscribe" completes every name of the last batch. |
| ClientModel.BackoffSequence | src/services/api/_api-client.ts:415-416 | The delays of attempts 1 to 5 are 3000, 6000, 12000, 24000 and 30000 ms. |
| ClientModel.Pow2Monotone | src/services/api/_api-client.ts:416 | Powers of two grow with the exponent. |
| ClientModel.BackoffBounds | src/services/api/_api-client.ts:415-416 | Delays are between 3000 and 30000 ms and never shrink from one attempt to the next; from attempt 5 on they are 30000. |
| ClientModel.NextAttempt | src/services/api/_api-client.ts:409-415 | A reconnect is scheduled exactly when `retryCount > 0` and the counter is below it. |
| ClientModel.Lookup | src/services/api/_api-client.ts:293-329 | The settlement of a connect attempt is known exactly when the attempt was recorded. |
| ClientModel.NewNamesSpec | src/services/api/_api-client.ts:184-200 | The names a subscribe call announces have no repeats and are exactly the requested names not yet registered. |
| ClientModel.Registered | src/services/api/_api-client.ts:230 | The names an unsubscribe call announces are exactly the requested names that are registered. |
| ClientModel.FreshNames | src/services/api/_api-client.ts:202-203 | The announced names are the new topics' names, in order. |
| ClientModel.FreshNamesSnoc | src/services/api/_api-client.ts:193-195 | Registering one more new topic appends its name to the announcement. |
| ClientModel.Without | src/services/api/_api-client.ts:212 | Deleting a name from the registry's key order keeps every other key. |
| ClientModel.WithoutKeepsDistinct | src/services/api/_api-client.ts:212 | Deleting a name keeps the key order free of repeats. |
| ClientModel.Probes | src/services/api/_api-client.ts:208-214 | The result loop sees, for each new topic in order, its slot index, stream, readiness and whether `getStream` would throw. |
| ClientModel.Stop | src/services/api/_api-client.ts:208-214 | The result loop stops at the first new topic that is both ready and closed (its `getStream` throws), or runs to the end. |
| ClientModel.Filled | src/services/api/_api-client.ts:208-214 | The result loop keeps the number of slots. |
| ClientModel.DroppedSpec | src/services/api/_api-client.ts:208-214 | The loop deletes from the registry exactly the new topics it reached that were not ready. |
| ClientModel.FilledStep | src/services/api/_api-client.ts:208-214 | One iteration of the result loop fills one slot, or none. |
| ClientModel.DroppedStep | src/services/api/_api-client.ts:208-214 | One iteration deletes one name, or none. |
| ClientModel.FilledSpec | src/services/api/_api-client.ts:208-214 | A ready new topic's slot holds its stream, and every other slot keeps its value. |
| ClientModel.FirstIn | src/services/api/_api-client.ts:184-197 | The registration loop stops at the first requested name whose registered topic is closed (`getStream` throws). |
| ClientModel.ApplyAllSpec | src/services/api/_api-client.ts:344-385 | Dispatching a run of actions keeps the registry's names. An open topic becomes ready if any action completes it and receives exactly the data addressed to it, in order. A closed topic is untouched. |
| ClientModel.RegisteringStart | src/services/api/_api-client.ts:184-187 | The registration loop's invariant holds before the first name. |
| ClientModel.RegisteringKeep | src/services/api/_api-client.ts:188-190 | An already-registered name gets its existing stream and registers nothing. |
| ClientModel.RegisteringEnrol | src/services/api/_api-client.ts:191-196 | An unregistered name gets a new topic filed under it and a null slot for now. |
| ClientModel.RegisteredFit | src/services/api/_api-client.ts:184-200 | After the loop, the new topics are exactly the new names, in request order, each filed in the registry. |
| WsClient.WsApiClient.constructor | src/services/api/_api-client.ts:137-162 | A client starts with no socket, an empty registry, no connection promise, a zero counter, `retryCount` defaulting to 0, and nothing sent. |
| WsClient.WsApiClient.SendMessage | src/services/api/_api-client.ts:253-267 | Fails exactly when not connected, and then sends nothing; it never queues. Otherwise the frame is appended to what was sent. |
| WsClient.WsApiClient.CallBuilder | src/services/api/binance-api/index.ts:47-83 | A builder returns its adapter's frame for the names and records them as the last batch. |
| WsClient.WsApiClient.Settle | src/services/api/_api-client.ts:301-325 | A connect promise settles once: only a pending promise takes the outcome. |
| WsClient.WsApiClient.Connect | src/services/api/_api-client.ts:286-330 | With a connection in flight, it returns that promise and changes nothing, so no second socket is opened. Without a URL, or with the empty URL that `!this.url` also rejects, it fails and changes nothing. Otherwise it records a new promise. If the socket can be created, it clears the manual-close flag and zeroes the counter; if not, the promise is rejected. |
| WsClient.WsApiClient.Subscribe | src/services/api/_api-client.ts:173-184 | Without a URL (the empty string included) or without a builder it fails. When not connected, it suspends on the connection without touching the registry or sending. When connected, it goes on registering at once. |
| WsClient.WsApiClient.ResumeSubscribe | src/services/api/_api-client.ts:179-182 | A subscribe call waiting on the connection stays suspended while the promise is pending. It fails, with the registry untouched and nothing sent, when the promise rejects. |
| WsClient.WsApiClient.RegisterTopics | src/services/api/_api-client.ts:184-197 | The registration loop runs up to the first name whose registered topic is closed, and reports whether it reached the end. Its result satisfies the loop invariant, and every new topic is in its initial state. |
| WsClient.WsApiClient.KeepName | src/services/api/_api-client.ts:188-190 | A registered name yields its current stream unless its topic is closed, and keeps the invariant. |
| WsClient.WsApiClient.EnrolName | src/services/api/_api-client.ts:191-196 | An unregistered name gets a new topic in the registry, and the invariant is kept. |
| WsClient.WsApiClient.EnrolNew | src/services/api/_api-client.ts:193-195 | A new topic in its initial state is filed under its name and appended to the key order. |
| WsClient.WsApiClient.WaitForConfirmation | src/services/api/_api-client.ts:332-342 | Throws exactly when some named topic is absent from the registry or closed. Otherwise it yields one waiter per name, on that topic's current readiness signal. |
| WsClient.WsApiClient.Register | src/services/api/_api-client.ts:184-206 | Already-registered topics are kept. It fails exactly when a requested registered topic is closed, and then sends nothing. Otherwise there is one slot per requested name, holding the existing stream of a registered name. With no new names no frame is sent. Otherwise one subscribe frame names exactly the new names, and a waiter is set up on each new topic. |
| WsClient.WsApiClient.Announce | src/services/api/_api-client.ts:200-206 | With no new topics nothing is sent. Otherwise one subscribe frame with the new names is sent if connected, and a waiter is created per new topic. |
| WsClient.WsApiClient.Delete | src/services/api/_api-client.ts:212 | The name leaves the registry and the key order, and nothing else does. |
| WsClient.WsApiClient.FinishSubscribe | src/services/api/_api-client.ts:202-218 | While an acknowledgement is outstanding and no timer fired, the call stays suspended. If a timer fires first, every new slot stays null and the registry is untouched. Once all waiters are released, ready new topics fill their slots and unready ones leave the registry. |
| WsClient.WsApiClient.FillSlots | src/services/api/_api-client.ts:208-214 | The result loop equals its specification: the slots are filled and the registry loses the dropped names. |
| WsClient.WsApiClient.Reset | src/services/api/_api-client.ts:269-283 | The client is marked manually closed, the socket and connection promise are dropped, every topic is closed and the registry is emptied. |
| WsClient.WsApiClient.CloseAll | src/services/api/_api-client.ts:277-278 | Every registered topic is closed. |
| WsClient.WsApiClient.Retire | src/services/api/_api-client.ts:241-244 | One topic is closed and leaves the registry. |
| WsClient.WsApiClient.Unsubscribe | src/services/api/_api-client.ts:224-250 | Without a URL (the empty string included) or builder it fails. When disconnected, or when no requested name is registered, it changes nothing. It never touches the reconnect counter, the connect promises or the attempt ids, and keeps the connection promise unless the registry empties. Otherwise one unsubscribe frame names exactly the registered requested names, and each of them is closed and removed. When the registry becomes empty, the client is reset. |
| WsClient.WsApiClient.Withdraw | src/services/api/_api-client.ts:233-249 | Sends the unsubscribe frame for the registered names, then closes and removes them, resetting the client when none remain. |
| WsClient.WsApiClient.Drop | src/services/api/_api-client.ts:235-249 | Even when the send failed, the registered names are closed and removed, and the client is reset when the registry is empty. |
| WsClient.WsApiClient.RetireAll | src/services/api/_api-client.ts:239-245 | Exactly the listed names are closed and leave the registry. |
| WsClient.WsApiClient.Apply | src/services/api/arthur-api/index.ts:52-60 | One dispatched action changes the topics' states as its specification says. |
| WsClient.WsApiClient.ApplyActions | src/services/api/_api-client.ts:380-381 | The actions of one message are applied in order. |
| WsClient.WsApiClient.Receive | src/services/api/_api-client.ts:344-385 | A frame that cannot be decoded or parsed changes no topic. Any other frame changes the topics exactly as the adapter's dispatch of it says. |
| WsClient.WsApiClient.OnMessage | src/services/api/_api-client.ts:359-377 | Text and an `ArrayBuffer` are dispatched at once. A Blob changes no topic yet: its bytes go to a `FileReader`, so frames arriving before its `load` are dispatched first. |
| WsClient.WsApiClient.OnBlobLoaded | src/services/api/_api-client.ts:362-371 | When a Blob's read loads, its bytes are dispatched as a binary frame, with the same effect on topics as any other frame. |
| WsClient.WsApiClient.ScheduleReconnect | src/services/api/_api-client.ts:408-416 | When no attempt is allowed, nothing happens. Otherwise the counter goes up by one and a sleep of that attempt's backoff delay starts. |
| WsClient.WsApiClient.OnSocketClosing | src/services/api/_api-client.ts:164-165 | When the open socket starts its closing handshake it becomes CLOSING, so the client stops being connected while `_socket` still holds it: sends fail and `unsubscribe` returns early until the `close` event. |
| WsClient.WsApiClient.OnSocketOpen | src/services/api/_api-client.ts:301-304 | The socket being connected opens, and its pending promise resolves. |
| WsClient.WsApiClient.OnSocketError | src/services/api/_api-client.ts:398-406 | The socket and connection promise are dropped and the pending promise is rejected. A reconnect is scheduled unless the client was closed manually. |
| WsClient.WsApiClient.OnSocketClose | src/services/api/_api-client.ts:387-396 | The client's current socket and connection promise are dropped, whichever socket closed. By the time `close` fires, the closing socket is no longer open, so a reconnect is scheduled only when another, newer socket is open and the close was not manual. The close of the client's own live socket never reconnects. |
| WsClient.WsApiClient.OnConnectTimeout | src/services/api/_api-client.ts:315-319 | After 10000 ms, a connect attempt still pending is rejected unless the socket is open. |
| WsClient.WsApiClient.OnBackoffExpired | src/services/api/_api-client.ts:420-423 | After the sleep, the reconnect connects, and shares the connection in flight if there is one, changing nothing then. It fails, changing nothing, without a URL or with the empty one. Otherwise it records a new promise. If the socket can be created, each new reconnect socket clears the manual-close flag and zeroes the reconnect counter, so every attempt restarts the retry budget; if not, the promise is rejected. |
| WsClient.WsApiClient.ResetAll | src/services/api/_api-client.ts:431 | Every registered topic is reopened. |
| WsClient.WsApiClient.Resubscribe | src/services/api/_api-client.ts:426-435 | Every registered topic is reset, then all registered names, in registry order and without repeats, are sent in one subscribe frame. |
| WsClient.WsApiClient.ResumeReconnect | src/services/api/_api-client.ts:420-438 | A failed connect ends the attempt with nothing sent. A successful one re-subscribes every registered topic when connected and the registry is not empty, and otherwise does nothing. It only resets topics and sends: the socket, the flags, the counter and the promises stay as they were. |
| BinanceMarket.Limit | src/services/api/binance-api/MarketApi.ts:45 | `limit || 500`: an absent or zero limit becomes 500, any other is kept. |
| BinanceMarket.HistoryRequest | src/services/api/binance-api/MarketApi.ts:36-49 | Spot asks `/api/v3/klines` and futures `/fapi/v1/klines`, for the upper-cased `base+quote`. The interval is present exactly when the map holds it, and the window is passed through. |
| BinanceMarket.SpotTopic | src/services/api/binance-api/MarketApi.ts:63-66 | The spot topic is `lower(base+quote)@kline_` followed by the interval, or "1m" when the interval is unmapped. |
| BinanceMarket.FuturesTopic | src/services/api/binance-api/MarketApi.ts:127-130 | The futures topic has the same shape, but an unmapped interval renders as "undefined". |
| BinanceMarket.DefaultSubscription | src/services/api/binance-api/MarketApi.ts:173-182 | Without an interval, both markets subscribe the 5-minute stream of `lower(base+quote)`. |
| BinanceMarket.TopicsAgreeOnMappedIntervals | src/services/api/binance-api/MarketApi.ts:65 | Spot and futures topics agree exactly on the mapped intervals. |
| BinanceMarket.KlineTopicRoundTrip | src/services/api/binance-api/index.ts:105-111 | A kline event naming the pair upper-cased in `s` and the interval in `k.i` is routed to the very topic that was subscribed for them, spot or futures. |
| BinanceMarket.KlineEventDelivered | src/services/api/binance-api/index.ts:105-115 | Such an event, when it is neither an acknowledgement nor a `stream` message, reaches exactly that topic, whole. |
| BinanceMarket.Row | src/services/api/binance-api/MarketApi.ts:79-86 | A forwarded row has six fields: `k.t`, `k.o`, `k.h`, `k.l`, `k.c` and `k.v`, in that order. |
| BinanceMarket.Klines | src/services/api/binance-api/MarketApi.ts:76 | The messages that pass the `jsonData.k` test, in order: each has a truthy `k` and comes from the input. |
| BinanceMarket.ForwardOne | src/services/api/binance-api/MarketApi.ts:74-88 | One message yields the batch `[[t, o, h, l, c, v]]` of its `k` when `k` is truthy, and nothing otherwise. |
| BinanceMarket.ForwardConcat | src/services/api/binance-api/MarketApi.ts:73-90 | The transform works message by message: the stream of two runs of messages is the first run's batches followed by the second's. |
| BinanceMarket.ForwardRows | src/services/api/binance-api/MarketApi.ts:73-90 | There is one batch per kline message, and batch j is the single row `[t, o, h, l, c, v]` of the j-th kline message. |
| BinanceMarket.FuturesHistoryAsWritten | src/services/api/binance-api/MarketApi.ts:115 | Reading `.data` of the resolved body throws exactly when the body is undefined or null. |
| BinanceMarket.FuturesHistoryDropsRows | src/services/api/binance-api/MarketApi.ts:115-123 | For any non-empty array of rows the endpoint returns, the history as written is empty, while the corrected history is those rows. |
| Js.ArrayOrEmpty | src/services/api/binance-api/MarketApi.ts:52-57 | `x || []` followed by the `Array.isArray` guard gives an array's items, and [] for anything else (missing, null, an object, a scalar). |
| BinanceMarket.SpotHistory | src/services/api/binance-api/MarketApi.ts:52-59 | The spot history is the body when the body is an array, and empty otherwise. |
| BinanceMarket.FuturesHistory | src/services/api/binance-api/MarketApi.ts:115-123 | The futures history is the array body when the body is an array, and empty otherwise. |
| ArthurMarket.HistoryRequest | src/services/api/arthur-api/MarketApi.ts:24-49 | Spot asks `/exchange/api/v1/kline` and futures `/swap/history`, for `upper(base/quote)`. Each market's interval map applies, defaulting to "5m" (spot) and "5" (futures), and the window is passed through. |
| ArthurMarket.IntervalMapsAgreeOnlyOn4hAnd1M | src/services/api/arthur-api/MarketApi.ts:92-101 | The two interval maps cover the same keys and agree only on "4h" and "1M". |
| ArthurMarket.SubscribeTopicOfParts | src/services/api/arthur-api/MarketApi.ts:159-167 | Spot subscribes `kline_BASE/QUOTE_1m`, whatever interval was asked for; futures subscribes `contract-kline/BASE-QUOTE`. |
| ArthurMarket.SpotTransform | src/services/api/arthur-api/MarketApi.ts:75-77 | The spot stream forwards a message's `data` exactly when it is an array, and drops the message otherwise. |
| ArthurMarket.FuturesTransform | src/services/api/arthur-api/MarketApi.ts:135-139 | The futures stream forwards a message exactly when it is an array, and then forwards that array whole, as one chunk. |
| ArthurMarket.FuturesStreamGetsNoArrays | src/services/api/arthur-api/MarketApi.ts:136-138 | The dispatcher hands topics only objects, so the futures stream's array filter forwards none of what it receives. |
| ArthurMarket.SpotHistory | src/services/api/arthur-api/MarketApi.ts:52-60 | The spot history is `data.data` when that is an array, and empty otherwise; it is non-empty only for an object body. |
| ArthurMarket.FuturesHistory | src/services/api/arthur-api/MarketApi.ts:115-123 | The futures history is the body (axios's `response.data`) when it is an array, and empty otherwise. |
| ArthurMarket.HistoryBodies | src/services/api/arthur-api/MarketApi.ts:115-123 | The two endpoints take differently shaped bodies: spot rows under the body's `data`, futures rows as the body itself. A body of the other endpoint's shape gives no rows. |
| DataFeedWs.Configure | src/pages/trading-view/DataFeedWs.ts:54-69 | Construction fails exactly when a requested resolution is not a default one. Resolutions default to the eight defaults and the scale to 2. The symbol and type come from the id. |
| DataFeedWs.IntervalChain | src/pages/trading-view/DataFeedWs.ts:117-127 | The chain maps 1, 5, 15, 60, 240, 1D, 1W, 1M one-to-one to 1m, 5m, 15m, 1h, 4h, 1d, 1w, 1M, and anything else to 1m. |
| DataFeedWs.PriceScale | src/pages/trading-view/DataFeedWs.ts:97 | A zero scale counts as unset and gives 100. |
| DataFeedWs.PriceScaleDigits | src/pages/trading-view/DataFeedWs.ts:97 | For a scale s ≥ 1, the price scale is 10 to the power s, and its decimal rendering is a 1 followed by exactly s zeros. |
| DataFeedWs.Window | src/pages/trading-view/DataFeedWs.ts:130-131 | The start is `from` in milliseconds. The end is `to` in milliseconds, or now on a first request. |
| DataFeedWs.NoData | src/pages/trading-view/DataFeedWs.ts:150 | `noData` holds exactly when no rows were returned. |
| KlineCache.IntervalOf | src/pages/trading-view/TVChartContainer/DataFeed.ts:123 | The interval `getBars` uses is always one the map produces. |
| KlineCache.IntervalOfAgreesWithChain | src/pages/trading-view/TVChartContainer/DataFeed.ts:11-21 | This feed's interval agrees with the WebSocket feed's chain on every resolution except "30", which only this feed maps. |
| KlineCache.Position | src/pages/trading-view/TVChartContainer/DataFeed.ts:230-236 | The position of a time is that of the first bar with it, or the length when there is none. |
| KlineCache.Times | src/pages/trading-view/TVChartContainer/DataFeed.ts:39 | The times of an interval's bars, position by position. |
| KlineCache.IndexedDistinct | src/pages/trading-view/TVChartContainer/DataFeed.ts:219-239 | An array kept in step with its index holds no two bars of the same time. |
| KlineCache.PositionIndexed | src/pages/trading-view/TVChartContainer/DataFeed.ts:230-236 | The index gives exactly the position of a cached time, and an uncached time has none. |
| KlineCache.AbsorbIndexed | src/pages/trading-view/TVChartContainer/DataFeed.ts:228-238 | A bar of an unseen time is appended and indexed. A bar of a cached time replaces that bar in place, leaving length and order unchanged. Either way the index stays in step. |
| KlineCache.LastFind | src/pages/trading-view/TVChartContainer/DataFeed.ts:228-238 | The last bar of a time in a batch belongs to the batch, and there is none exactly when no bar of the batch has that time. |
| KlineCache.AbsorbAllFind | src/pages/trading-view/TVChartContainer/DataFeed.ts:228-238 | After a batch, the bar cached at a time is the batch's last bar of that time, or the earlier one if the batch has none. |
| KlineCache.AbsorbFind | src/pages/trading-view/TVChartContainer/DataFeed.ts:230-237 | One bar changes the bar cached at its own time and no other. |
| KlineCache.AbsorbAllKeepsOrder | src/pages/trading-view/TVChartContainer/DataFeed.ts:228-238 | A batch never moves or removes a bar: the cached times stay first, in the same order. |
| KlineCache.At | src/pages/trading-view/TVChartContainer/DataFeed.ts:188 | `arr[i]` is defined exactly for the array's positions, so `arr[-1]` is undefined. |
| KlineCache.AbsorbAscending | src/pages/trading-view/TVChartContainer/DataFeed.ts:191-197 | A bar later than the last one is appended and keeps the times ascending. |
| KlineCache.InRange | src/pages/trading-view/TVChartContainer/DataFeed.ts:282-289 | The bars within [from, to] are exactly the cached bars with from ≤ time ≤ to. |
| KlineCache.InRangeAboveIsEmpty | src/pages/trading-view/TVChartContainer/DataFeed.ts:285-287 | Bars all later than `to` hold nothing within the range. |
| KlineCache.RangeScanAscending | src/pages/trading-view/TVChartContainer/DataFeed.ts:282-289 | On ascending times, the early exit loses nothing: the scan equals the full range filter. |
| KlineCache.RangeScanMissesOlderPage | src/pages/trading-view/TVChartContainer/DataFeed.ts:282-289 | With a newer page cached before an older one, the scan misses an in-range bar that the range filter keeps. |
| KlineCache.LayoutOrder | src/pages/trading-view/TVChartContainer/DataFeed.ts:65-71 | The intervals laid out by the constructor have no repeats. |
| KlineCache.LayoutOrderCovers | src/pages/trading-view/TVChartContainer/DataFeed.ts:65-71 | The laid-out intervals are exactly those of the mapped resolutions. |
| KlineCache.TotalIsNoInterval | src/pages/trading-view/TVChartContainer/DataFeed.ts:312-318 | No interval is called "total", so the total never overwrites an interval's count. |
| KlineCache.SumLengthsEmpty | src/pages/trading-view/TVChartContainer/DataFeed.ts:311-321 | Empty arrays add up to a zero total. |
| KlineCache.SumLengthsGrow | src/pages/trading-view/TVChartContainer/DataFeed.ts:311-321 | Growing one interval's array grows the total by the same amount. |
| KlineCache.SumLengthsSame | src/pages/trading-view/TVChartContainer/DataFeed.ts:311-321 | Arrays of equal lengths give equal totals. |
| KlineCache.LayoutPut | src/pages/trading-view/TVChartContainer/DataFeed.ts:220-226 | Storing an indexed array under an interval keeps arrays and indexes in step. A new interval joins the iteration order at its end. |
| KlineCache.LayOut | src/pages/trading-view/TVChartContainer/DataFeed.ts:299-305 | The layout loop gives each mapped interval an empty array and index, in order, and nothing else. |
| KlineCache.CountLengths | src/pages/trading-view/TVChartContainer/DataFeed.ts:312-319 | The statistics loop reports each interval's length and, under "total", their sum. |
| KlineCache.AbsorbBatch | src/pages/trading-view/TVChartContainer/DataFeed.ts:228-238 | The bar loop equals its specification and keeps the index in step. |
| KlineCache.AbsorbLater | src/pages/trading-view/TVChartContainer/DataFeed.ts:191-197 | Caching one real-time bar later than the last is absorbing that bar, and keeps the index in step. On ascending times the bar is appended and the times stay ascending. |
| KlineCache.DataFeed.constructor | src/pages/trading-view/TVChartContainer/DataFeed.ts:48-72 | A valid feed, with empty arrays and indexes for exactly the mapped intervals, no current interval, and the symbol and type read from the id. |
| KlineCache.DataFeed.ClearCache | src/pages/trading-view/TVChartContainer/DataFeed.ts:295-308 | Leaves exactly the configured intervals, each with an empty array and index, and clears the current interval. |
| KlineCache.DataFeed.GetBars | src/pages/trading-view/TVChartContainer/DataFeed.ts:122-131 | Sets the current interval to the mapped resolution, or "1m" when unmapped, and asks for the request window. |
| KlineCache.DataFeed.HistoryLoaded | src/pages/trading-view/TVChartContainer/DataFeed.ts:132-145 | Reports no data exactly when there are no rows, then caches the rows under the interval. |
| KlineCache.DataFeed.CacheBars | src/pages/trading-view/TVChartContainer/DataFeed.ts:219-239 | Creates the interval when missing, then caches the batch as its specification says. Other intervals are untouched, and the arrays and indexes stay in step. |
| KlineCache.DataFeed.RealtimeBarAsWritten | src/pages/trading-view/TVChartContainer/DataFeed.ts:184-201 | As written, no real-time bar is ever forwarded or cached. |
| KlineCache.DataFeed.RealtimeBar | src/pages/trading-view/TVChartContainer/DataFeed.ts:184-201 | A bar is forwarded and cached exactly when the interval has bars and the bar is later than the last one. On ascending times it is appended and the times stay ascending; otherwise nothing changes. |
| KlineCache.DataFeed.GetBarByTime | src/pages/trading-view/TVChartContainer/DataFeed.ts:242-268 | None exactly when there is no current interval or it has no bars. Otherwise it returns the nearest bar, the first in index order among equally near ones; an exact match is the nearest. |
| KlineCache.DataFeed.GetBarsByTimeRange | src/pages/trading-view/TVChartContainer/DataFeed.ts:271-292 | In array order, the bars within [from, to], stopping at the first later bar; empty without a current interval. |
| KlineCache.DataFeed.GetBarsInRange | src/pages/trading-view/TVChartContainer/DataFeed.ts:271-292 | Every cached bar within [from, to], in array order, whatever the order of the pages. |
| KlineCache.DataFeed.GetCacheStats | src/pages/trading-view/TVChartContainer/DataFeed.ts:311-322 | One count per interval and "total", each interval's array length, and the total their sum. |
| KlineCache.DataFeed.GetLastTime | src/pages/trading-view/TVChartContainer/DataFeed.ts:325-331 | 0 for an unknown or empty interval, else the time of its last bar. |
| KlineCache.NewDataFeed | src/pages/trading-view/TVChartContainer/DataFeed.ts:48-56 | Fails exactly when a requested resolution is not a default one. Resolutions default to the eight defaults and `pricescale` to 100. |
| Indicators.MovingAverages | src/pages/trading-view/TVChartContainer/IndicatorManager.ts:26-35 | A moving-average key holds four hidden overlay indicators, one per period. |
| Indicators.SupportIndicators | src/pages/trading-view/TVChartContainer/IndicatorManager.ts:60 | The supported keys have no repeats and are exactly the keys of the default table. |
| Indicators.DefaultShape | src/pages/trading-view/TVChartContainer/IndicatorManager.ts:25-60 | The keys are MA, EMA, BOLL, SAR, VOL, MACD, KDJ, SKDJ in that order. MA and EMA hold four entries, and every other key holds one, named after the key. |
| Indicators.DefaultStates | src/pages/trading-view/TVChartContainer/IndicatorManager.ts:25-58 | Every default indicator starts hidden and without a study. The overlays are exactly MA, EMA, BOLL and SAR. |
| Indicators.MovingAverageNames | src/pages/trading-view/TVChartContainer/IndicatorManager.ts:26-35 | The four entries are named `prefix_5`, `_10`, `_30` and `_60`. |
| Indicators.ShapePut | src/pages/trading-view/TVChartContainer/IndicatorManager.ts:107-134 | Replacing a key's list by one of the same shape keeps the table's shape. |
| Indicators.AddCalls | src/pages/trading-view/TVChartContainer/IndicatorManager.ts:140-143 | Adding issues no call when the indicator has a study, and exactly one create call otherwise. |
| Indicators.Remove | src/pages/trading-view/TVChartContainer/IndicatorManager.ts:153-158 | Removing an indicator with a study removes that entity and clears the id; without one, nothing happens. |
| Indicators.Created | src/pages/trading-view/TVChartContainer/IndicatorManager.ts:144-150 | A creation that yields an id records it and applies the indicator's visibility to it; one that yields no id changes nothing. |
| Indicators.Toggle | src/pages/trading-view/TVChartContainer/IndicatorManager.ts:109-128 | A toggle never changes an indicator's name or configuration. |
| Indicators.ToggleTransitions | src/pages/trading-view/TVChartContainer/IndicatorManager.ts:109-128 | An overlay with a study has its visibility flipped and shown or hidden on the chart; one without is skipped. A hidden pane indicator without a study becomes visible and is created. A visible one with a study becomes hidden and is removed. The two mixed states are unchanged. |
| Indicators.OverlayToggleTwice | src/pages/trading-view/TVChartContainer/IndicatorManager.ts:109-116 | Toggling an overlay twice restores it, and it shows then hides (or hides then shows) its study. |
| Indicators.PaneShowCreateHide | src/pages/trading-view/TVChartContainer/IndicatorManager.ts:117-150 | Showing a pane indicator, its creation resolving, and hiding it again restores it. The chart sees: create, show, remove. |
| Indicators.PaneToggleDuringCreation | src/pages/trading-view/TVChartContainer/IndicatorManager.ts:117-150 | A pane indicator shown but still being created ignores a toggle; the later creation leaves it visible with its study. |
| Indicators.ToggleAll | src/pages/trading-view/TVChartContainer/IndicatorManager.ts:107-134 | After n steps of the toggle loop, the first n indicators of the list are toggled and the rest are unchanged. |
| Indicators.ToggleAllStep | src/pages/trading-view/TVChartContainer/IndicatorManager.ts:107-134 | One more step of the loop toggles the next indicator, which the earlier steps left untouched. |
| Indicators.OverlayCreatesStep | src/pages/trading-view/TVChartContainer/IndicatorManager.ts:83-93 | The overlay loop over one more key adds that key's creations. |
| Indicators.ListCreatesExactly | src/pages/trading-view/TVChartContainer/IndicatorManager.ts:86-91 | Within one key, a create call is issued exactly for each overlay indicator without a study. |
| Indicators.OverlayCreatesExactly | src/pages/trading-view/TVChartContainer/IndicatorManager.ts:83-93 | Across the keys, a create call is issued exactly for each overlay indicator without a study. |
| Indicators.Visibility | src/pages/trading-view/TVChartContainer/IndicatorManager.ts:74-80 | The visibility map has exactly the table's keys. |
| Indicators.InitiallyHidden | src/pages/trading-view/TVChartContainer/IndicatorManager.ts:25-80 | With the default table, every key reports hidden. |
| Indicators.TableKeys | src/pages/trading-view/TVChartContainer/IndicatorManager.ts:60 | A table of the default shape has exactly the supported keys. |
| Indicators.ToggleAllShape | src/pages/trading-view/TVChartContainer/IndicatorManager.ts:107-134 | The toggle loop keeps the list's length and the names and configurations of its indicators. |
| Indicators.IndicatorManager.constructor | src/pages/trading-view/TVChartContainer/IndicatorManager.ts:62-71 | A manager starts with the default table, no chart calls, no listener and no notifications. |
| Indicators.IndicatorManager.GetVisibility | src/pages/trading-view/TVChartContainer/IndicatorManager.ts:74-80 | One entry per key, true exactly when some indicator of that key is visible. |
| Indicators.IndicatorManager.EmitVisibilityChange | src/pages/trading-view/TVChartContainer/IndicatorManager.ts:160-164 | With a listener attached, it is notified of the current visibility map. |
| Indicators.IndicatorManager.AddIndicator | src/pages/trading-view/TVChartContainer/IndicatorManager.ts:140-143 | Issues the indicator's add calls and leaves the table alone. |
| Indicators.IndicatorManager.RemoveIndicator | src/pages/trading-view/TVChartContainer/IndicatorManager.ts:153-158 | Applies the removal to that one indicator and issues its calls. |
| Indicators.IndicatorManager.StudyCreated | src/pages/trading-view/TVChartContainer/IndicatorManager.ts:144-150 | Applies the creation's outcome to that one indicator, keeping the table's shape. |
| Indicators.IndicatorManager.ToggleOne | src/pages/trading-view/TVChartContainer/IndicatorManager.ts:108-133 | Applies one toggle to one indicator and issues its calls. |
| Indicators.IndicatorManager.ToggleIndicator | src/pages/trading-view/TVChartContainer/IndicatorManager.ts:96-138 | Returns true exactly when a chart is active and the name has a non-empty list. On false, nothing changes. On true, only that name's indicators are toggled, the calls are those of the toggle loop, and listeners are notified. |
| Indicators.IndicatorManager.ToggleList | src/pages/trading-view/TVChartContainer/IndicatorManager.ts:107-134 | The toggle loop equals its specification, and no other key changes. |
| Indicators.IndicatorManager.AddAllOverlayIndicators | src/pages/trading-view/TVChartContainer/IndicatorManager.ts:83-93 | With an active chart, it issues exactly the creations of the overlay indicators without a study, key by key; without one, nothing. |
| Indicators.IndicatorManager.AddOverlaysFor | src/pages/trading-view/TVChartContainer/IndicatorManager.ts:84-92 | The loop over keys equals its specification. |
| Indicators.IndicatorManager.AddListOverlays | src/pages/trading-view/TVChartContainer/IndicatorManager.ts:85-91 | The loop over one key's list equals its specification. |

## Left out

- `HttpApiClient` (axios interceptors, logging, `localStorage`, the login redirect): history calls take the resolved body as a parameter.
- The socket itself, `pako.inflate`, `TextDecoder`, the `FileReader` and `JSON.parse`/`JSON.stringify`: decoding and parsing are the parameter functions of `Frames.Codec`, and may fail. A Blob read is the pair of events OnMessage and OnBlobLoaded; a read that fails never loads.
- Timers: the 10000 ms connect timeout, the 5000 ms acknowledgement timeout and the backoff sleep are events, not time.
- `Date.now()`: the current time is a parameter (`now`).
- Stream mechanics: `tee`, `pipeThrough`, backpressure, and the consumer's `reader.read()` loops. A stream is the queue of items enqueued into it, and a stream transform is a function applied per message.
- `parseFloat` conversion of rows into bars, and `periodLengthSeconds`: these are floating point, and `parseInt` of a letter yields NaN. Bar fields are integers here.
- Logging throughout.
- The Promise machinery beyond what is named: each `await` is modelled as a suspension point. Statements between two awaits are assumed to run without interleaving, as JavaScript's single thread guarantees.
- Keys inherited from `Object.prototype` (for instance `intervalMap["toString"]`): the interval maps hold only their literal keys.
- WsClient.WsApiClient.Subscribe: its own contract covers only the guards and the suspension. What a connected call does is the contract of `Register`, which it calls, and of `FinishSubscribe`.
- WsClient.WsApiClient.ResumeSubscribe: its contract does not restate what resuming after a resolved connection does, which is `Register`'s contract.
- `WsApiTopic.waitForReady`'s per-call 5000 ms rejection is modelled once per subscribe call, as the `timerFired` event of `FinishSubscribe`.
- KlineCache.DataFeed.CacheBars: bars are values, so the `Object.assign` into the cached bar object, and the aliasing of that object, are replaced by storing the new bar at the same position.
- Indicators.IndicatorManager.constructor: `DefaultIndicatorMap` is one module-level map that all managers share and mutate. Each manager here holds its own copy of the table.
- Indicators.IndicatorManager.ToggleIndicator: chart API calls that throw, and the `try`/`catch` around the loop, are not modelled, and the chart calls are assumed to succeed.
- Indicators.IndicatorManager.StudyCreated: the constant third argument of `createStudy` (`true`) is not recorded. Creations still outstanding are not tracked, so a creation resolving after the indicator was hidden again is applied as it comes.
- A `null` item in a Binance kline batch, and the `{interval: undefined}` option: the option is modelled as present-but-undefined (`Some(None)`) and renders as "undefined". A `null` message is not a `Json` object here.
- Arthur's `'topic' in item` on a primitive item throws and ends the loop. `ArthurAdapter.RunsToEnd` states when the loop is not cut short, and the delivery lemma assumes it.
- ArthurMarket.FuturesStreamGetsNoArrays records that the futures stream as written forwards nothing, because the Arthur dispatcher only ever hands a topic an object item and the futures filter accepts arrays only. This is stated as a property of the code, not listed as a finding: the server's message format is not part of this model.
- DataFeed.ts's `onReady`, `resolveSymbol` and `searchSymbols` return configuration literals through `setTimeout`; DataFeedWs.ts's `onReady` and `resolveSymbol` do the same, apart from the price scale. All of these are left out.
- Js.LowerOfUpper: holds for the ASCII case mapping of `Js.Lower` and `Js.Upper`. JavaScript's full Unicode mapping breaks it (`"ß"` upper-cases to `"SS"`, which lower-cases to `"ss"`). Symbols and intervals are assumed to be ASCII.
- Js.LowerOfConcat: holds for the ASCII case mapping. JavaScript lower-cases the Greek capital sigma by context (final or not), so the property fails on such text. Symbols are assumed to be ASCII.
- Js.Lower, Js.Upper: `toLowerCase`/`toUpperCase` map ASCII letters only, and every other character is kept as it is.
- The awaits that only wait for a send or a reset are merged into the method that makes them: `await this.sendMessage` in `subscribe` (_api-client.ts:205, WsClient.WsApiClient.Announce), in `unsubscribe` (:234, WsClient.WsApiClient.Withdraw) and in `_scheduleReconnect` (:433, WsClient.WsApiClient.Resubscribe), and `await this.reset()` in `unsubscribe` (:248, WsClient.WsApiClient.Drop). Other continuations that are already due could run at these points; the model runs the method's remaining statements first.
- Builders and `recvHandle` supplied separately: the model's `adapter` supplies the builders and `recvHandle` together or not at all. The source checks each separately: with builders but no `recvHandle`, subscribing works, but every incoming message throws inside `_onMessage`'s `try` and is dropped. That combination is not modelled.
- Topic.WsApiTopic.Cancel: whether an earlier generation's stream still holds unread items depends on the consumer's reads, which are not modelled, so the caller supplies it (`unread`).
- `src/services/api/api.ts` (an interface) and `ApiService.ts` are not part of this model. Neither are the other pages, the MQTT feed or the older `TVChartContainer.ts`.

## Findings

| source | as written | input that shows it | evidently intended | confidence | as-written member | corrected member |
|---|---|---|---|---|---|---|
| src/pages/trading-view/TVChartContainer/DataFeed.ts:188 | `barsArray[-1]` is always undefined, so every real-time bar is skipped and never cached or forwarded | an interval holding the bar of time 100 and a pushed bar of time 200 | compare against `barsArray[barsArray.length - 1]`, forwarding a bar later than the last cached one | not executed | KlineCache.DataFeed.RealtimeBarAsWritten | KlineCache.DataFeed.RealtimeBar |
| src/pages/trading-view/TVChartContainer/DataFeed.ts:282-289 | the range scan stops at the first bar later than `to`, assuming ascending times, but an older history page is appended after a newer one | cache [bar at 200, bar at 100] (newer page first), range [0, 150]: the result is empty, although the bar at 100 lies in the range | every cached bar within the range | not executed | KlineCache.DataFeed.GetBarsByTimeRange, KlineCache.RangeScanMissesOlderPage | KlineCache.DataFeed.GetBarsInRange |
| src/services/api/binance-api/MarketApi.ts:115 | the futures history reads `response.data`, but `HttpApiClient.get` (src/services/api/_api-client.ts:112-115) already resolves with the body, so an array body yields `[]` | any non-empty array of kline rows from `/fapi/v1/klines` | read the body itself, as `getSpotKline` does at line 52 | not executed | BinanceMarket.FuturesHistoryAsWritten, BinanceMarket.FuturesHistoryDropsRows | BinanceMarket.FuturesHistory |
