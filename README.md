# Freeda support desk — a Dafny model of its core

Freeda is a customer-support desk. Clients open tickets and chat with an
assistant. Agents follow up from an admin interface. The assistant answers
from canned replies first, then from the Mistral chat-completions API, then
from a fixed text. This project models the logic of that system in Dafny 4.11
and proves what the code promises about it.

The model has one module per core source file:

- `Mistral` (backend/app/services/ai/mistral.py): the circuit breaker, the
  retry loop, model fallback and reply extraction.
- `Websocket` (backend/app/core/websocket.py): the per-ticket connection
  registry.
- `Analytics` (backend/app/services/ai/analytics.py): ticket analysis and the
  defensive parse of the model's answer.
- `RateLimit` (backend/app/core/ratelimit.py): the sliding-window limiter and
  its two configured limits.
- `Utils` (backend/app/core/utils.py): agent-signature normalisation.
- `SmartReply` (backend/app/services/ai/smart_reply.py): first-match canned
  replies.
- `JsonStore` and `DynamoStore` (backend/app/services/storage/): the two
  ticket stores. The DynamoDB store is proved to agree with the JSON store on
  every operation once its items are read back.
- `Export` (backend/app/services/export.py): CSV rows and the response-time
  metrics.
- `Rag` (backend/app/services/ai/rag.py): context packing, the document
  lists and the category counts.
- `Scraper` (backend/app/services/ai/scraper.py): the URL category and the
  synthetic top-up rule.
- `PublicTickets` and `PrivateTickets` (backend/app/routers/): the client
  and admin ticket endpoints.
- `ChatBot` and `CallScreen` (src/components/): the chat widget's message
  list and markdown tokeniser, and the voice-call screen's clock, topic
  detection and state machine.

Helper modules model the language features the code relies on:

- `JsonValue`: Python values, truthiness, `dict` operations, `str()` and
  `json.dumps`.
- `Text`: `strip`, `lower` and `in` on strings.
- `Decimal`: decimal rendering and `padStart`.
- `StrOrder`: string comparison and the stable `sort`.
- `Seqs`: list comprehensions.
- `Http`: `HTTPException`.
- `Wrappers`: `Option` and `Result`.

Some things the code takes from outside are parameters of the model rather
than computed by it. These "oracles" are function-valued or plain
parameters:

- network outcomes, `send_json` failures and boto3 call outcomes;
- clock readings, in integer microseconds, or milliseconds in the client;
- `uuid4`;
- `json.loads`;
- timestamp parsing;
- the embedding call and the vector store;
- the services the router models reach (`PublicTickets.Services`): the
  canned replies, the analytics service, the configured system prompt, the
  knowledge-base lookup and the model client. The router lemmas hold for
  every choice of them; the canned replies and the analytics service are
  modelled on their own in `SmartReply` and `Analytics`.

Where the code changes state in place (the breaker, the registry, the
limiter, the stores, the routers, the call screen), the model is a class
with those fields. Its methods are proved against specification functions,
and the properties are lemmas about those functions.

Two behaviours of the code are easy to misread, and the model keeps both:

- The breaker moves from OPEN to HALF_OPEN only when strictly more than the
  recovery time has passed (backend/app/services/ai/mistral.py:39). HALF_OPEN
  then admits every request, not a single trial (mistral.py:44-45).
- The export pairs messages by their `role` field
  (backend/app/services/export.py:179-181). The messages the routers store
  carry a `type` field and no `role`, so their tickets export empty
  response-time metrics.

## Model

| member | source | states |
|---|---|---|
| Utils.NormalizeAgentSignature | backend/app/core/utils.py:7-20 | a text whose stripped form already ends with "-- Agent Free" comes back unchanged; any other text loses its trailing whitespace and gains "\n-- Agent Free" |
| Utils.SignedAfterAppend | backend/app/core/utils.py:13-20 | whatever precedes it, a text ending in the appended signature counts as signed by the check on line 15 |
| Utils.AlwaysSigned | backend/app/core/utils.py:7-20 | the result, stripped, always ends with "-- Agent Free", which is the docstring's promise |
| Utils.NormalizeIdempotent | backend/app/core/utils.py:7-20 | normalising twice gives the same text as normalising once |
| Websocket.ConnectSpec | backend/app/core/websocket.py:8-12 | after `connect`, the ticket has an entry holding the socket together with every socket it held before; no other ticket changes and no other key appears |
| Websocket.Evict | backend/app/core/websocket.py:14-18 | removing sockets from a ticket: an unknown ticket leaves the map alone, an entry left empty disappears, otherwise it keeps the other sockets; other tickets are untouched |
| Websocket.ConnectKeepsInvariant | backend/app/core/websocket.py:10-12 | `connect` never leaves a ticket with an empty set of sockets |
| Websocket.EvictKeepsInvariant | backend/app/core/websocket.py:16-18 | `disconnect` never leaves a ticket with an empty set, because the emptied entry is deleted |
| Websocket.ConnectIdempotent | backend/app/core/websocket.py:12 | connecting the same socket twice is the same as connecting it once, since set `add` ignores a repeat |
| Websocket.ConnectThenDisconnect | backend/app/core/websocket.py:8-18 | connecting a socket to a new ticket and then disconnecting it restores the registry exactly |
| Websocket.EvictNothing | backend/app/core/websocket.py:14-18 | removing no sockets changes nothing, given the no-empty-entry invariant |
| Websocket.EvictOneMore | backend/app/core/websocket.py:30-31 | disconnecting the failed sockets one after another equals removing them all at once |
| Websocket.ConnectionManager.constructor | backend/app/core/websocket.py:5-6 | the registry starts empty |
| Websocket.ConnectionManager.Connect | backend/app/core/websocket.py:8-12 | the new registry is ConnectSpec of the old one, and it still has no empty entry |
| Websocket.ConnectionManager.Disconnect | backend/app/core/websocket.py:14-18 | the new registry is the old one with the socket removed from the ticket, the entry dropped if it became empty, an unknown ticket ignored |
| Websocket.ConnectionManager.Broadcast | backend/app/core/websocket.py:20-31 | an unknown ticket returns with no sends; otherwise every socket the ticket held on entry is tried exactly once, and exactly the sockets whose send failed are removed afterwards |
| Websocket.ConnectionManager.DisconnectAll | backend/app/core/websocket.py:30-31 | the clean-up loop removes exactly the given sockets from the ticket and keeps the invariant |
| Websocket.MoveOne | backend/app/core/websocket.py:24 | taking one socket out of the remaining part of the snapshot keeps a partition of the snapshot and shrinks what remains |
| Websocket.SendStep | backend/app/core/websocket.py:24-28 | one more send keeps the attempts distinct and covering the sockets seen; the failure set grows by that socket exactly when its send fails |
| Websocket.SendAll | backend/app/core/websocket.py:23-28 | looping over a snapshot of the ticket's sockets tries each one exactly once and collects exactly the failed ones |
| RateLimit.Prune | backend/app/core/ratelimit.py:18 | the cleaned history is never longer than the old one |
| RateLimit.PruneMembers | backend/app/core/ratelimit.py:18 | a time survives the clean-up exactly when it was recorded and is less than the window older than now |
| RateLimit.Admit | backend/app/core/ratelimit.py:14-26 | a request is admitted exactly when fewer than `limit` recent times remain; the address's history becomes the recent times, plus now when admitted |
| RateLimit.AdmitLeavesOthers | backend/app/core/ratelimit.py:17-25 | a call for one address leaves the history of every other address as it was |
| RateLimit.AdmitKeepsBound | backend/app/core/ratelimit.py:21-25 | no address ever holds more than `limit` recorded times |
| RateLimit.Run | backend/app/core/ratelimit.py:14-26 | after any non-empty series of calls the address has a history entry |
| RateLimit.SpanInOneWindow | backend/app/core/ratelimit.py:18 | non-decreasing times whose first and last are less than one window apart all lie within one window of each other |
| RateLimit.BurstAdmitted | backend/app/core/ratelimit.py:14-26 | starting from no history, up to `limit` calls within one window are all admitted and each one's time is recorded |
| RateLimit.AdmitRecent | backend/app/core/ratelimit.py:18-26 | a call whose recorded times are all recent and fewer than `limit` is admitted and appended to them |
| RateLimit.PruneAllRecent | backend/app/core/ratelimit.py:18 | when every time is recent the clean-up keeps the history as it is |
| RateLimit.BurstThenRefused | backend/app/core/ratelimit.py:21-22 | the call after `limit` admitted calls in one window is refused and not recorded |
| RateLimit.SixthTicketRefused | backend/app/core/ratelimit.py:35-46 | with the ticket limits (5 per 3600 s), the first five creations within an hour pass and the sixth is refused |
| RateLimit.RateLimiter.constructor | backend/app/core/ratelimit.py:10-12 | the limiter starts with no history |
| RateLimit.RateLimiter.IsAllowed | backend/app/core/ratelimit.py:14-26 | the answer and the new history are Admit of the old history at the clock reading now |
| RateLimit.CheckTicketRateLimit | backend/app/core/ratelimit.py:35-46 | uses the 5-per-hour limit and raises 429 with the ticket message exactly when the call is refused |
| RateLimit.CheckMessageRateLimit | backend/app/core/ratelimit.py:48-59 | uses the 20-per-minute limit and raises 429 with the message text exactly when the call is refused |
| SmartReply.FirstMatch | backend/app/services/ai/smart_reply.py:60-65 | the rules are tried in their order: the index found is a rule whose pattern matches and no rule before it matches; past the end means that none from the start index on matches |
| SmartReply.FirstMatchIsFirst | backend/app/services/ai/smart_reply.py:12-13 | the search finds nothing exactly when no rule matches, and otherwise it finds the lowest-index matching rule |
| SmartReply.QuickReplyFirstMatch | backend/app/services/ai/smart_reply.py:50-65 | the answer for the lowered and stripped message is that of the first matching rule, and `None` comes exactly when no rule's pattern matches |
| SmartReply.QuickResponseIsFixed | backend/app/services/ai/smart_reply.py:13-48 | each string returned is one of the nine fixed answers, and `None` exactly when no rule was chosen |
| SmartReply.QuickResponseDependsOnNormalForm | backend/app/services/ai/smart_reply.py:57 | two messages that are equal after lowering and stripping get the same answer |
| SmartReply.BonjourGreets | backend/app/services/ai/smart_reply.py:15-16 | "Bonjour" is answered with the greeting of the first rule |
| JsonStore.GetSpec | backend/app/services/storage/json_store.py:60-65 | a lookup fails exactly when the id is not a key of the stored object, and then with 404 "Ticket non trouvé" |
| JsonStore.SaveThenGet | backend/app/services/storage/json_store.py:53-65 | a saved ticket reads back as saved, other ids read as before, and saving the same id twice keeps only the second ticket |
| JsonStore.SaveKeepsInv | backend/app/services/storage/json_store.py:53-57 | saving a well-formed ticket keeps the keys distinct and every stored ticket well-formed |
| JsonStore.FilterStep | backend/app/services/storage/json_store.py:78-92 | one more comprehension over an already filtered list is a single filter by both conditions, and an inactive filter lets everything through |
| JsonStore.FilterAllIsMatches | backend/app/services/storage/json_store.py:76-92 | the four guarded comprehensions in a row select exactly the tickets that pass every active filter |
| JsonStore.ListCorrect | backend/app/services/storage/json_store.py:67-97 | every listed ticket is stored and passes the filters; every stored ticket that passes is listed as often as it is stored; the list is in descending `created_at` order and ties keep storage order, because `sort` is stable |
| JsonStore.TruncSeconds | backend/app/services/storage/json_store.py:121-122 | `int()` of the seconds truncates toward zero, for negative differences too |
| JsonStore.CloseStep | backend/app/services/storage/json_store.py:113-124 | closing records `closed_at`; it records the duration only when one could be computed and otherwise keeps the old one; other fields are unchanged |
| JsonStore.ReopenStep | backend/app/services/storage/json_store.py:127-129 | reopening sets `closed_at` and `resolution_duration` to null and changes nothing else |
| JsonStore.UpdateFields | backend/app/services/storage/json_store.py:108-129 | after the update the status is the new one; a close with a timestamp records it and the truncated duration when both times parse and `created_at` is a string; reopening a closed ticket clears both fields; otherwise they stay as they were; no other field changes |
| JsonStore.UpdateKeepsWellFormed | backend/app/services/storage/json_store.py:108-129 | the updated ticket is still an object with distinct keys and a string or absent `created_at` |
| JsonStore.UpdateSpec | backend/app/services/storage/json_store.py:105-106 | an unknown id fails with 404 and leaves the store unchanged |
| JsonStore.UpdateKeepsInv | backend/app/services/storage/json_store.py:99-134 | the update keeps the store invariant |
| JsonStore.JsonStorage.constructor | backend/app/services/storage/json_store.py:22-31 | a store whose file does not exist yet holds no tickets |
| JsonStore.JsonStorage.SaveTicket | backend/app/services/storage/json_store.py:53-57 | the stored object becomes the old one with the ticket set under its `ticket_id`, and it stays valid |
| JsonStore.JsonStorage.GetTicket | backend/app/services/storage/json_store.py:60-65 | returns GetSpec of the stored object |
| JsonStore.JsonStorage.ListTickets | backend/app/services/storage/json_store.py:67-97 | returns ListSpec of the stored object and the filters, so every ticket passes the filters and the list is sorted most recent first |
| JsonStore.JsonStorage.UpdateTicketStatus | backend/app/services/storage/json_store.py:99-134 | the result and the new store are those of UpdateSpec, and the store stays valid |
| JsonStore.JsonStorage.TicketExists | backend/app/services/storage/json_store.py:136-139 | true exactly when the id is a key of the stored object |
| DynamoStore.FloatToDecimal | backend/app/services/storage/dynamodb_store.py:32-42 | an integer becomes a `Decimal` and nothing else does; a boolean stays a boolean, because the code excludes `bool` |
| DynamoStore.DecimalRoundTrip | backend/app/services/storage/dynamodb_store.py:21-42 | a float-free JSON value stored through `float_to_decimal` and read back through `decimal_to_float` is unchanged, at every depth |
| DynamoStore.ItemRoundTrip | backend/app/services/storage/dynamodb_store.py:21-42 | an item with integral numbers, read back and stored again, is unchanged |
| DynamoStore.LookupConverted | backend/app/services/storage/dynamodb_store.py:25-26 | looking a key up in the read-back dict gives the read-back value of the stored attribute |
| DynamoStore.SetAttrConverted | backend/app/services/storage/dynamodb_store.py:25-26 | writing an attribute and then reading the map back equals reading it back and then setting the key |
| DynamoStore.MembersCons | backend/app/services/storage/dynamodb_store.py:25-26 | an attribute list reads back one attribute at a time, in order |
| DynamoStore.SaveConverted | backend/app/services/storage/dynamodb_store.py:144-151 | storing the converted ticket under its id is, once read back, the JSON store's `tickets[id] = ticket` |
| DynamoStore.RetryFrom | backend/app/services/storage/dynamodb_store.py:105-142 | never more than `max_retries` calls; a success is the value of the last call made |
| DynamoStore.RetryDecided | backend/app/services/storage/dynamodb_store.py:109-142 | when all `max_retries` calls are throttled, the result is the 500 "Database operation failed after retries"; otherwise the first call not throttled decides the result (value, re-raise, 500 "Database error: code", 500 "Database connection error", or an uncaught exception), after exactly that many calls |
| DynamoStore.GetAgrees | backend/app/services/storage/dynamodb_store.py:159-172 | when the call goes through, `get_ticket` answers what the JSON store's `get_ticket` answers on the read-back table, the 404 included |
| DynamoStore.ExistsAgrees | backend/app/services/storage/dynamodb_store.py:305-313 | a ticket has an item exactly when its id is a key of the read-back table |
| DynamoStore.StrConverted | backend/app/services/storage/dynamodb_store.py:21-29 | an item reads back as a given string exactly when it is that string |
| DynamoStore.FiltersAgree | backend/app/services/storage/dynamodb_store.py:217-228 | the status, channel and date tests and the sort key read on an item the same as the JSON store's read on the converted ticket |
| DynamoStore.FirstFiltersAgree | backend/app/services/storage/dynamodb_store.py:189-218 | the index query by status, or else by channel, followed by the in-memory channel filter, keeps what the JSON store's status and channel comprehensions keep |
| DynamoStore.ListAgrees | backend/app/services/storage/dynamodb_store.py:180-236 | when the call goes through, listing returns exactly what the JSON store's `list_tickets` returns on the read-back table: same filters, same stable sort by `created_at` descending |
| DynamoStore.RenderSnoc | backend/app/services/storage/dynamodb_store.py:254-277 | appending a clause to the expression appends ", " and the clause's text |
| DynamoStore.StatusText | backend/app/services/storage/dynamodb_store.py:254 | the status clause reads "#status = :status" |
| DynamoStore.ClosedAtText | backend/app/services/storage/dynamodb_store.py:260 | the close clause reads "closed_at = :closed_at" |
| DynamoStore.DurationText | backend/app/services/storage/dynamodb_store.py:270 | the duration clause reads "resolution_duration = :duration" |
| DynamoStore.ClearClosedAtText | backend/app/services/storage/dynamodb_store.py:277 | the first reopen clause reads "closed_at = :null_closed" |
| DynamoStore.ClearDurationText | backend/app/services/storage/dynamodb_store.py:277 | the second reopen clause reads "resolution_duration = :null_duration" |
| DynamoStore.ApplyConverted | backend/app/services/storage/dynamodb_store.py:281-294 | DynamoDB applying the converted placeholder values, read back, is the same `SET` applied to the read-back dict |
| DynamoStore.ApplyAppend | backend/app/services/storage/dynamodb_store.py:254-277 | the `SET` clauses apply left to right, so two lists in a row apply as the first, then the second |
| DynamoStore.ApplyOne | backend/app/services/storage/dynamodb_store.py:254-277 | one clause with a known alias and placeholder is one assignment |
| DynamoStore.ApplyTwo | backend/app/services/storage/dynamodb_store.py:254-277 | two such clauses are two assignments in order |
| DynamoStore.ValuesAt | backend/app/services/storage/dynamodb_store.py:256-279 | `:status` holds the status; a close sets `:closed_at`, and `:duration` when the duration is known; a reopen sets both null placeholders |
| DynamoStore.PathNames | backend/app/services/storage/dynamodb_store.py:255 | `#status` names `status` and the other paths name themselves |
| DynamoStore.ClausesUpdate | backend/app/services/storage/dynamodb_store.py:250-280 | the built expression and values change the ticket exactly as the JSON store's `update_ticket_status` changes it |
| DynamoStore.UpdateAgrees | backend/app/services/storage/dynamodb_store.py:244-297 | when both calls go through, the update returns what the JSON store's update returns, and the table reads back as the JSON store's new object, the 404 case included |
| DynamoStore.UpdateExpression | backend/app/services/storage/dynamodb_store.py:253-282 | the expression built step by step is the rendering of the update's clauses in order, the names map only `#status`, and the values are the placeholder values of the update |
| DynamoStore.DynamoDBStorage.constructor | backend/app/services/storage/dynamodb_store.py:65-73 | the store keeps `max_retries` and starts from an empty, valid table |
| DynamoStore.DynamoDBStorage.RetryOperation | backend/app/services/storage/dynamodb_store.py:105-142 | the loop's result and number of calls are those of RetryFrom from attempt 0 |
| DynamoStore.DynamoDBStorage.SaveTicket | backend/app/services/storage/dynamodb_store.py:144-157 | a failed `put_item` surfaces its 500 (its own HTTPException, or "Failed to save ticket") and leaves the table alone; otherwise the converted ticket is stored under its id, and the table stays valid |
| DynamoStore.DynamoDBStorage.GetTicket | backend/app/services/storage/dynamodb_store.py:159-178 | the answer is GetSpec given the retried call's outcome: its error, a 404, or the read-back item |
| DynamoStore.DynamoDBStorage.ListTickets | backend/app/services/storage/dynamodb_store.py:180-242 | a failed call gives its error or "Failed to list tickets"; otherwise the list is Listed, which ListAgrees equates with the JSON store's listing |
| DynamoStore.DynamoDBStorage.UpdateTicketStatus | backend/app/services/storage/dynamodb_store.py:244-303 | the result and the new table are those of UpdateSpec given both calls' outcomes, and the table stays valid |
| DynamoStore.DynamoDBStorage.TicketExists | backend/app/services/storage/dynamodb_store.py:305-317 | true exactly when the call goes through and the item exists; any failure reads as false |
| DynamoStore.DynamoDBStorage.HealthCheck | backend/app/services/storage/dynamodb_store.py:319-326 | true exactly when the retried `load` call goes through |
| Export.Roles | backend/app/services/export.py:179-181 | one role per message, read from `msg.get("role")` |
| Export.FirstRole | backend/app/services/export.py:178-183 | the index found holds the role asked for and no message between the start and it does; past the end means there is none |
| Export.TruncDiv | backend/app/services/export.py:212-213 | `int(sum / len)` truncates toward zero: the bounds of the quotient on both sides of zero |
| Export.FirstResponseOfPair | backend/app/services/export.py:172-193 | when `u` is the first user message and `a` the first assistant message after it, the metric is the truncated seconds between their timestamps, provided every message up to `a` is a dict and both timestamps parse; otherwise it is None |
| Export.FirstResponseNoPair | backend/app/services/export.py:185-193 | with no user message, or no assistant message after the first user message, the metric is None |
| Export.FirstRoleIs | backend/app/services/export.py:178-183 | a match that every earlier index misses is the one the search finds |
| Export.CalculateFirstResponseTime | backend/app/services/export.py:172-193 | the loop returns FirstResponseTime of the messages, a failure inside the `try` included |
| Export.FirstRolePast | backend/app/services/export.py:178-183 | a search not yet stopped that misses at `i` goes on past `i` |
| Export.FirstResponseFound | backend/app/services/export.py:181-189 | the loop's `break` happens at the first assistant message after the first user message, and the metric is then their truncated delay, or None when a timestamp fails |
| Export.FirstResponseFails | backend/app/services/export.py:174-193 | a non-dict reached before the pair is found, or running off the end, gives None |
| Export.PairUp | backend/app/services/export.py:201-209 | after `n` messages the waiting user message and every pair lie among those `n` messages |
| Export.WithinSnoc | backend/app/services/export.py:208 | adding a pair of earlier messages keeps every pair within range |
| Export.PairUpPending | backend/app/services/export.py:202-209 | the waiting message is a user message with no user or assistant message after it |
| Export.PairUpAnswerable | backend/app/services/export.py:201-209 | a message is waiting exactly when some user message is still unanswered |
| Export.PairUpPairs | backend/app/services/export.py:204-209 | each pair joins an assistant message to the latest user message before it, with no assistant message between |
| Export.PairUpMatched | backend/app/services/export.py:201-209 | an assistant message is paired exactly when some user message before it is still unanswered; an assistant message with no open user message is ignored |
| Export.MatchedSnoc | backend/app/services/export.py:208 | after one more pair the matched assistant messages are the old ones plus its assistant message |
| Export.MatchedLast | backend/app/services/export.py:204-208 | the message just read is matched exactly when it is an assistant message answering a waiting user message |
| Export.MatchedEarlier | backend/app/services/export.py:201-209 | reading one more message does not change which earlier messages are matched |
| Export.AnswerableAfterUser | backend/app/services/export.py:202-203 | right after a user message there is an unanswered user message |
| Export.AnswerableAfterAssistant | backend/app/services/export.py:204-209 | right after an assistant message no user message is unanswered |
| Export.AnswerableAfterOther | backend/app/services/export.py:201-204 | a message of any other role changes nothing |
| Export.Deltas | backend/app/services/export.py:205-208 | when every delay is known there is one delay per pair |
| Export.DeltasSnoc | backend/app/services/export.py:205-208 | one more pair adds its delay at the end, or fails when that delay fails |
| Export.DeltasFailed | backend/app/services/export.py:197-215 | a delay that fails keeps the whole list failed as pairs accumulate (the exception leaves the `try`) |
| Export.PairUpGrows | backend/app/services/export.py:201-209 | pairs only accumulate as the loop goes on |
| Export.MatchedPairs | backend/app/services/export.py:201-209 | the pairs matched once every message is seen lie among the messages |
| Export.AvgIsMean | backend/app/services/export.py:195-213 | a result means that every message is a dict, every matched delay is known, at least one pair was matched, and the result is their mean in whole seconds truncated toward zero |
| Export.AvgNeedsAnswer | backend/app/services/export.py:211-217 | with no assistant message answering a user message there is no average |
| Export.CalculateAvgResponseTime | backend/app/services/export.py:195-217 | the loop returns AvgResponseTime of the messages |
| Export.AvgStep | backend/app/services/export.py:201-209 | one iteration either fails (a non-dict, or a timestamp that does not parse, and then the whole call gives None) or moves the waiting message, the pairs and the delays on by one message |
| Export.PairUpStep | backend/app/services/export.py:202-209 | a user message starts waiting, an assistant message answers the waiting one, anything else changes nothing |
| Export.AvgOfDeltas | backend/app/services/export.py:211-217 | once every message is seen, the metric is the truncated mean of the delays, or None when there are none |
| Export.AvgFails | backend/app/services/export.py:205-217 | a delay that fails at message `i` makes the whole average None |
| Export.MatchedDeltasFail | backend/app/services/export.py:205-217 | a delay that fails among the pairs so far fails among all matched pairs |
| Export.AvgNotDict | backend/app/services/export.py:201-217 | a message that is not a dict makes the average None |
| Export.MetricFieldBlank | backend/app/services/export.py:168-169 | a metric field is "" exactly when the metric is None or 0 |
| Export.Cells | backend/app/services/export.py:155-170 | a row has exactly as many fields as the header has names |
| Export.RowFields | backend/app/services/export.py:132-170 | the row fails exactly when `analytics` is not a dict or `messages` has no `len`, and on the messages when both are bad, since `len(messages)` runs first; `messages_count` is `str(len(messages))`; the two metrics are those of the messages; a ticket without messages has count "0" and blank metrics |
| Export.Rows | backend/app/services/export.py:75-80 | the export is the header and then one row per ticket, in list order, each the ticket's row; it fails exactly when some ticket's row raises |
| Export.RowsErrWitness | backend/app/services/export.py:78-80 | a ticket whose row raises still makes any longer list raise |
| Export.SingleTicketCsv | backend/app/services/export.py:88-130 | the single-ticket export is the header and that ticket's row, or the row's error |
| Export.RowsOne | backend/app/services/export.py:120-124 | the export of a list of one ticket is the header and that ticket's row |
| Export.RowsWidth | backend/app/services/export.py:58-80 | every row of the export, the header included, has fourteen fields |
| Export.GenerateCsv | backend/app/services/export.py:54-86 | the write loop produces Csv of the tickets: the same rows, or the first row error |
| Export.RowsSnoc | backend/app/services/export.py:78-80 | writing one more ticket appends its row, or fails with its error |
| Export.RowsSnocErr | backend/app/services/export.py:78-80 | once a row has raised, one more ticket leaves the export failed with the same error |
| Export.RowsFailFrom | backend/app/services/export.py:78-80 | once a row has raised, the export stays failed with that same error |
| Analytics.DefaultReport | backend/app/services/ai/analytics.py:122-131 | the default analytics have churn risk 0, no alert, and the current time as `analyzed_at` |
| Analytics.Guard | backend/app/services/ai/analytics.py:55-62 | a last message without `content` raises `KeyError` (only when a client exists); the call goes ahead only when the last content has at least five characters and, lower-cased, is none of the five trivial replies |
| Analytics.TrivialCases | backend/app/services/ai/analytics.py:60 | given a client, a message is skipped as trivial exactly when it is shorter than five characters or lower-cases to "merci" or "d'accord", since the other three replies are too short anyway |
| Analytics.Lines | backend/app/services/ai/analytics.py:67 | one `ROLE: content` line per message, the role upper-cased and defaulting to "user" |
| Analytics.JoinEndsWithLast | backend/app/services/ai/analytics.py:67 | lines joined with "\n" end with the last line |
| Analytics.PromptWindow | backend/app/services/ai/analytics.py:66-67 | the conversation holds the last five messages (all of them when fewer), in order, one line each |
| Analytics.ConversationEndsWithLast | backend/app/services/ai/analytics.py:66-67 | the conversation text ends with the line of the last message |
| Analytics.PromptHoldsConversation | backend/app/services/ai/analytics.py:12-35 | the formatted prompt contains the conversation text |
| Analytics.SpaceRun | backend/app/services/ai/analytics.py:99 | the `\s*` run found at a position is whitespace throughout and ends at a non-space or the end of the text |
| Analytics.NotStartsWith | backend/app/services/ai/analytics.py:99 | a text whose first character differs from a pattern's does not start with it |
| Analytics.StripFencesPlain | backend/app/services/ai/analytics.py:99 | an answer without backticks passes the fence removal untouched |
| Analytics.SpaceRunIs | backend/app/services/ai/analytics.py:99 | a whitespace run of length `k` ending at a non-space is what `\s*` matches |
| Analytics.StripFencesCloseStep | backend/app/services/ai/analytics.py:99 | whitespace followed by ``` is removed in one step |
| Analytics.StripFencesKeepStep | backend/app/services/ai/analytics.py:99 | a character that starts neither alternative is kept |
| Analytics.CloseFence | backend/app/services/ai/analytics.py:99 | whitespace and a closing fence together disappear |
| Analytics.KeepFirst | backend/app/services/ai/analytics.py:99 | inside a body without backticks, the first character survives |
| Analytics.StripFencesTail | backend/app/services/ai/analytics.py:99 | a backtick-free body followed by whitespace and a closing fence comes back as the body |
| Analytics.OpenFence | backend/app/services/ai/analytics.py:99 | "```json" is removed with the whitespace after it |
| Analytics.OpenFenceRun | backend/app/services/ai/analytics.py:99 | the whitespace after "```json" is exactly the leading run |
| Analytics.StripFencesFenced | backend/app/services/ai/analytics.py:98-99 | a fenced answer ("```json", whitespace, body, whitespace, "```") gives back exactly the body |
| Analytics.FirstIndex | backend/app/services/ai/analytics.py:102 | the first occurrence of a character, or none at all |
| Analytics.LastIndex | backend/app/services/ai/analytics.py:102 | the last occurrence of a character, or none at all |
| Analytics.ExtractBraces | backend/app/services/ai/analytics.py:101-104 | the text is kept as is, or the result runs from a `{` to a `}` |
| Analytics.ExtractBracesOuter | backend/app/services/ai/analytics.py:102-104 | text with no `{` before the first brace and no `}` after the last is cut down to the outermost brace pair, whatever lies between |
| Analytics.ParseDigits | backend/app/services/ai/analytics.py:113 | `int()` of a digit string is its decimal value |
| Analytics.ParseNegDigits | backend/app/services/ai/analytics.py:113 | `int()` of "-" and digits is the negated value |
| Analytics.ParseNatString | backend/app/services/ai/analytics.py:113 | `int(str(n))` is `n` for a natural number |
| Analytics.ParseNegString | backend/app/services/ai/analytics.py:113 | `int(str(i))` is `i` for a negative number |
| Analytics.ParseIntStrRoundTrip | backend/app/services/ai/analytics.py:113 | `int(str(i))` is `i` for every integer, so a churn risk sent as a numeric string converts like the number |
| Analytics.Clamp | backend/app/services/ai/analytics.py:113 | `min(max(x, 0), 100)` lies in [0, 100], keeps values already there, and sends the rest to the nearer bound |
| Analytics.Slice100 | backend/app/services/ai/analytics.py:114-115 | `[:100]` succeeds exactly on strings and lists and keeps their first 100 elements |
| Analytics.FieldsOf | backend/app/services/ai/analytics.py:109-116 | a built dict has churn risk in [0, 100] and a summary and next action of at most 100 elements |
| Analytics.ParseBounded | backend/app/services/ai/analytics.py:94-120 | whatever the model answers, the parsed churn risk is in [0, 100] and summary and next action are at most 100 long, since every failure falls back to the defaults |
| Analytics.FieldDefaults | backend/app/services/ai/analytics.py:109-116 | missing keys take their defaults ("neutre", "autre", "moyenne", 0, "Analyse en cours", "Vérifier le dossier"); a present sentiment, category or urgency is kept, a present churn risk `v` becomes `min(max(int(v), 0), 100)`, and a present summary or next action becomes its `[:100]` |
| Analytics.UnconvertibleChurn | backend/app/services/ai/analytics.py:113-120 | a `churn_risk` of null makes `int()` raise, and the whole parse falls back to the default indicators |
| Analytics.Stamp | backend/app/services/ai/analytics.py:79-88 | the parsed fields are stamped with the time, and the alert is present exactly when the churn risk exceeds 80 |
| Analytics.ReportInvariant | backend/app/services/ai/analytics.py:45-92 | `analyze_ticket` fails only for a last message without content; every report has churn risk in [0, 100], the alert exactly above 80, and bounded texts |
| Analytics.SkippedIsDefault | backend/app/services/ai/analytics.py:55-62 | without a client, or for a trivial last message, the default report comes back whatever the model would say |
| Analytics.FailureIsDefault | backend/app/services/ai/analytics.py:90-92 | a failed call, or an answer that does not decode to an object, gives the default report |
| Analytics.ReportFor | backend/app/services/ai/analytics.py:79-92 | after `chat`, a failure gives the default report; otherwise the parsed fields, stamped, with the alert above 80 |
| Analytics.AnalyticsService.constructor | backend/app/services/ai/analytics.py:41-43 | the service keeps its client, and its prompt is the two halves of `ANALYTICS_PROMPT` |
| Analytics.AnalyticsService.AnalyzeTicket | backend/app/services/ai/analytics.py:45-92 | when the guard stops the call, the result is the guard's, and the client and its breaker are untouched; otherwise the result is AnalyzeSpec of what `chat` does with the one-message prompt, temperature 0.1 and 300 tokens, and the breaker and the posts move as `chat` moves them |
| Analytics.AnalyticsService.Ask | backend/app/services/ai/analytics.py:72-76 | `chat` is called with one user message holding the prompt, at temperature 0.1 and 300 tokens; the reply, breaker and posts are those of ChatSpec |
| Mistral.Succeed | backend/app/services/ai/mistral.py:22-26 | a success resets the failure count and closes the breaker |
| Mistral.Fail | backend/app/services/ai/mistral.py:28-33 | a failure adds one to the count; reaching the threshold opens the breaker stamped with the current time, otherwise phase and stamp are kept |
| Mistral.Admit | backend/app/services/ai/mistral.py:35-45 | closed and half-open breakers admit and stay as they are; an open one admits exactly when strictly more than `recovery_seconds` have passed since opening, and then moves to half-open |
| Mistral.BreakerInvPreserved | backend/app/services/ai/mistral.py:22-45 | success, failure and admission all keep "a breaker that is not closed has seen at least `threshold` failures" |
| Mistral.ConsecutiveFailures | backend/app/services/ai/mistral.py:28-33 | from a reset breaker, `n` failures leave the count at `n`, open the breaker exactly when `n` reaches the threshold, stamp it with the last failure's time, and never reach half-open |
| Mistral.RecoveryIsStrict | backend/app/services/ai/mistral.py:39 | exactly `recovery_seconds` after opening the breaker still refuses; one microsecond later it admits |
| Mistral.HalfOpenAdmitsAll | backend/app/services/ai/mistral.py:44-45 | a half-open breaker admits every request in a row, not a single trial, and stays half-open |
| Mistral.HalfOpenFailureReopens | backend/app/services/ai/mistral.py:28-33 | the count is not reset on half-open, so one failure there re-opens the breaker at the current time |
| Mistral.Breaker.constructor | backend/app/services/ai/mistral.py:15-20 | a new breaker keeps its threshold and recovery time, with no failures, closed and opened at 0 |
| Mistral.Breaker.RecordSuccess | backend/app/services/ai/mistral.py:22-26 | the new state is Succeed of the old |
| Mistral.Breaker.RecordFailure | backend/app/services/ai/mistral.py:28-33 | the new state is Fail of the old at the given time |
| Mistral.Breaker.AllowsRequest | backend/app/services/ai/mistral.py:35-45 | the answer and the new state are those of Admit |
| Mistral.Configure | backend/app/services/ai/mistral.py:49-71 | an empty key is refused; otherwise the fallbacks are the given list or ["mistral-small", "mistral-tiny"] when none is given, and retries and default model are kept |
| Mistral.TryOnce | backend/app/services/ai/mistral.py:80-125 | a refused breaker check ends the loop with the circuit-open 503 and posts nothing; the loop goes on only after a post whose outcome is transient (a request error, 429, 502 or 503) |
| Mistral.RetryFrom | backend/app/services/ai/mistral.py:78-129 | the loop never takes back a post |
| Mistral.TryOnceBreaker | backend/app/services/ai/mistral.py:80-125 | after an admitted check, a transient outcome and a non-retriable status other than an invalid model each record one failure at the reading after the post; a 200 resets the breaker; an invalid-model 400 leaves it as admitted |
| Mistral.RetryStep | backend/app/services/ai/mistral.py:80-125 | each attempt either returns the verdict of its loop body or leaves the rest of the loop to the next attempt after one post |
| Mistral.RetryPostsAtMost | backend/app/services/ai/mistral.py:80 | at most `max_retries` posts are made |
| Mistral.RetryClassified | backend/app/services/ai/mistral.py:78-129 | a success is the body of a 200 and closes the breaker; a 400 passes the body of an invalid-model answer through; a 502 comes from a non-transient, non-200 answer other than an invalid model; a 503 follows only transient posts and is the circuit-open or the exhausted error; no other status is raised |
| Mistral.RetryDeniedWithoutPost | backend/app/services/ai/mistral.py:82-83 | a breaker that refuses at the first check raises the circuit-open 503 without posting or changing state |
| Mistral.InvalidModelNotAFailure | backend/app/services/ai/mistral.py:117-120 | an invalid-model answer is raised as a 400 with its body and is not recorded as a failure |
| Mistral.FallbackFacts | backend/app/services/ai/mistral.py:148-157 | the fallback loop posts only listed fallbacks from the current one on, never the requested model, and its only error is the original 400 |
| Mistral.FallbackSkip | backend/app/services/ai/mistral.py:149-150 | a fallback equal to the requested model is skipped without changing what the loop will do |
| Mistral.FallbackTry | backend/app/services/ai/mistral.py:151-156 | a fallback that succeeds ends the loop with its extracted text; one that fails leaves the loop to the next fallback |
| Mistral.ChatPropagatesOtherErrors | backend/app/services/ai/mistral.py:144-157 | an error other than 400 is raised unchanged and no fallback is tried |
| Mistral.ChatFallbackFacts | backend/app/services/ai/mistral.py:146-157 | after a 400, the posts start with the requested model's and go on with fallbacks other than it, and when none succeeds the original 400 is re-raised |
| Mistral.ChatSpecFallback | backend/app/services/ai/mistral.py:143-157 | after a 400 with fallbacks configured, `chat` is the fallback loop appended to the first attempt's posts |
| Mistral.ExtractText | backend/app/services/ai/mistral.py:161-184 | the corrected extractor answers for every body |
| Mistral.ExtractAgrees | backend/app/services/ai/mistral.py:161-184 | wherever the extractor as written answers, the corrected one gives the same text |
| Mistral.ExtractAsWrittenRaises | backend/app/services/ai/mistral.py:171-172 | as written, a dict `content` whose "text" is the number 5 makes `.strip()` raise |
| Mistral.ExtractDictTextFinal | backend/app/services/ai/mistral.py:169-171 | as written, for every body whose `choices[0].message.content` is a non-empty dict with a string "text", the answer is that text stripped, whatever else `choices[0]` holds |
| Mistral.ExtractEmptyDictText | backend/app/services/ai/mistral.py:169-178 | as written, a dict `content` ends the extraction: an empty "text" answers "" even when `choices[0]` has a "text" of its own |
| Mistral.ExtractDictTextRendered | backend/app/services/ai/mistral.py:169-174 | for every body whose `choices[0].message.content` is a non-empty dict, the corrected extractor answers `str(content.get("text", "")).strip()`, so a non-string "text" is rendered and never skipped |
| Mistral.ExtractNumberDictText | backend/app/services/ai/mistral.py:169-178 | the corrected extractor renders a number under a dict `content`'s "text" with `str()` ("5"), and does not fall through to `choices[0]`'s own "text" |
| Mistral.ExtractMessageContent | backend/app/services/ai/mistral.py:164-174 | the usual answer shape yields `choices[0].message.content`, stripped |
| Mistral.ExtractFallbacks | backend/app/services/ai/mistral.py:163-184 | a body that is not a dict comes back as `str(body)`; a dict without truthy choices is dumped as JSON |
| Mistral.PostsForAppend | backend/app/services/ai/mistral.py:139-153 | the payloads posted for two model lists in a row are those of the joined list |
| Mistral.RepeatPosts | backend/app/services/ai/mistral.py:86 | one more post of the same payload extends the record by that payload |
| Mistral.PostsChain | backend/app/services/ai/mistral.py:143-153 | two batches of posts in a row are the posts of both model lists |
| Mistral.Client.constructor | backend/app/services/ai/mistral.py:49-73 | a new client has the given configuration, no posts, and a fresh breaker with its threshold and recovery time |
| Mistral.Client.PostOnce | backend/app/services/ai/mistral.py:82-125 | the verdict and the new breaker are those of TryOnce, and the payload is recorded exactly when it was posted |
| Mistral.Client.Turn | backend/app/services/ai/mistral.py:80-125 | a verdict is the outcome of the whole loop from this attempt; no verdict leaves the same outcome to the next attempt; at most one payload is posted |
| Mistral.Client.RequestWithRetry | backend/app/services/ai/mistral.py:78-129 | the result and the breaker are those of RetryFrom, and the posts are the payload repeated once per post it made |
| Mistral.Client.Chat | backend/app/services/ai/mistral.py:135-159 | the result and the breaker are those of ChatSpec, and the posts are the payload for each model ChatSpec posted, in order; the reply is read with the corrected extractor ExtractText (see Findings) |
| Mistral.Client.Fallback | backend/app/services/ai/mistral.py:146-157 | the result and the breaker are those of FallbackFrom, and the posts are the payload for each fallback posted, in order; the reply is read with the corrected extractor ExtractText |
| Rag.BlockAt | backend/app/services/ai/rag.py:190-191 | the `k`-th block is the text of the `k`-th search hit |
| Rag.Fitting | backend/app/services/ai/rag.py:190-197 | the packing loop never counts more blocks than remain |
| Rag.FittingFits | backend/app/services/ai/rag.py:193-197 | the blocks the loop adds fit together in the free room |
| Rag.FittingMaximal | backend/app/services/ai/rag.py:193-194 | any longer run of blocks overflows the free room |
| Rag.ContextEmpty | backend/app/services/ai/rag.py:183-187 | the context is empty exactly when the search found nothing |
| Rag.LongestFittingPrefix | backend/app/services/ai/rag.py:190-197 | the packed blocks are the longest prefix that fits: the next block overflows, and so does every longer prefix |
| Rag.ContextIsLongestFittingPrefix | backend/app/services/ai/rag.py:183-199 | a non-empty context is the header followed by the blocks of the longest prefix of the hits, in search order, whose total stays within `max_context_length` |
| Rag.ContextLength | backend/app/services/ai/rag.py:187-199 | the context is never longer than `max_context_length`, or than the header alone when the budget is smaller |
| Rag.ContextOfPrefix | backend/app/services/ai/rag.py:199 | the context is the join of the header and the packed blocks |
| Rag.GetContextForQuery | backend/app/services/ai/rag.py:165-199 | the returned context is Context of the search hits |
| Rag.Prepare | backend/app/services/ai/rag.py:87-102 | a document can be read exactly when both its question and its answer can be subscripted |
| Rag.PrepareAt | backend/app/services/ai/rag.py:85-87 | entry `j` of the read documents is document `j` as read |
| Rag.KeptExactly | backend/app/services/ai/rag.py:85-108 | the kept indices are exactly those of the documents whose embedding succeeded, in strictly increasing order |
| Rag.AssembleRaisedStays | backend/app/services/ai/rag.py:87 | once a document cannot be read, the whole call raises, whatever follows |
| Rag.AssembleRaises | backend/app/services/ai/rag.py:85-108 | the lists cannot be built exactly when some document could not be read |
| Rag.AssembleIndexed | backend/app/services/ai/rag.py:93-102 | the four lists keep one length, and entry `k` of each belongs to the `k`-th embedded document, under `doc_` and its input index |
| Rag.AddResultCases | backend/app/services/ai/rag.py:71-120 | `add_documents` raises exactly when some document lacks a question or an answer; otherwise the store is written exactly when some embedding succeeded, with the embedded documents in input order under their input index |
| Rag.AddedIdsDistinct | backend/app/services/ai/rag.py:93 | the ids of an added batch are pairwise distinct |
| Rag.AddResultOf | backend/app/services/ai/rag.py:111-120 | once every document is read, the store is written exactly when an embedding exists |
| Rag.AddResultRaised | backend/app/services/ai/rag.py:87 | a document that cannot be read makes the whole call raise and nothing is written |
| Rag.AddDocuments | backend/app/services/ai/rag.py:71-120 | the outcome is AddResult of the documents and the embedding oracle |
| Rag.BumpCounts | backend/app/services/ai/rag.py:211 | counting one more category adds one to its count and to the total, gives it an entry if it had none, and keeps one entry per category |
| Rag.TallyCounts | backend/app/services/ai/rag.py:209-211 | each category's count is how often it occurs, the counts sum to the number of entries, and there is one entry per category that occurs and no other |
| Rag.Categories | backend/app/services/ai/rag.py:209-210 | one category per stored document |
| Rag.CategoryAt | backend/app/services/ai/rag.py:210 | entry `k` is the category of stored document `k`, "unknown" when it has none |
| Rag.StatsCounts | backend/app/services/ai/rag.py:201-217 | `get_stats` reports the store's count and name; an empty store has no categories; otherwise each category is counted as often as it occurs, under one entry, and the counts sum to the entries returned |
| Rag.GetStats | backend/app/services/ai/rag.py:201-217 | the result is StatsOf of the store's count and metadatas |
| Scraper.ExtractCategory | backend/app/services/ai/scraper.py:86-97 | the category is always one of "internet", "mobile", "facturation", "technique" and "general" |
| Scraper.ExtractCategoryIsFirstRule | backend/app/services/ai/scraper.py:86-97 | the category is the label of the first keyword group, in the fixed order, that occurs in the lowercased URL, and "general" exactly when none occurs |
| Scraper.OneKeyword | backend/app/services/ai/scraper.py:88-95 | a group of one keyword occurs exactly when that keyword does |
| Scraper.LowerIdempotent | backend/app/services/ai/scraper.py:88 | lower-casing twice is lower-casing once |
| Scraper.ExtractCategoryIgnoresCase | backend/app/services/ai/scraper.py:86-97 | the category of a URL does not depend on its letter case |
| Scraper.SyntheticFaq | backend/app/services/ai/scraper.py:99-216 | the built-in FAQ has one synthetic "faq" document per entry, with the entry's fixed category |
| Scraper.Run | backend/app/services/ai/scraper.py:228-248 | something is always saved, at least ten documents; the scraped ones come first, in order, and the synthetic FAQ follows exactly when fewer than ten were scraped |
| PublicTickets.TicketIdFormat | backend/app/routers/public/tickets.py:50-54 | every id is "FRE-" and at most eight characters with no lower-case letter; from a full uuid it is "FRE-" and the upper-cased first eight characters, twelve in all |
| PublicTickets.TicketIdCollision | backend/app/routers/public/tickets.py:53 | two uuids give one id exactly when their first eight characters agree once upper-cased |
| PublicTickets.SystemPromptCases | backend/app/routers/public/tickets.py:35-47 | the configured prompt always comes first; it is extended, and then ends with the intro and the context, exactly when the lookup returned a non-empty context (RAG off, no service or an exception leave it alone) |
| PublicTickets.HistoryEntries | backend/app/routers/public/tickets.py:335-337 | a converted history has one entry per message |
| PublicTickets.CreationReplyOrder | backend/app/routers/public/tickets.py:110-141 | a canned reply is used first and then decides whatever the other services are; otherwise no client gives the fixed text, and a client's reply is there exactly when the call returns, and is signed |
| PublicTickets.FollowUpPromptShape | backend/app/routers/public/tickets.py:329-340 | the model input is the system entry, then the last five messages (already holding the new one) in order, then the current message; it exists exactly when those five all convert |
| PublicTickets.CurrentMessageTwice | backend/app/routers/public/tickets.py:335-340 | when the last stored message is the client's current one, the current message reaches the model twice, as the last two entries |
| PublicTickets.ClientEntry | backend/app/routers/public/tickets.py:336-337 | a client message converts to a "user" entry with its content |
| PublicTickets.FollowUpReplyOrder | backend/app/routers/public/tickets.py:320-359 | a canned reply is used first and decides whatever the history and the other services are; otherwise a reply needs a client and a convertible prompt, and is signed |
| PublicTickets.MessageContent | backend/app/routers/public/tickets.py:276-282 | a built message carries its content |
| PublicTickets.MessageType | backend/app/routers/public/tickets.py:276-282 | a built message carries its type |
| PublicTickets.TicketIdField | backend/app/routers/public/tickets.py:73 | the new ticket holds its id |
| PublicTickets.TicketStatusField | backend/app/routers/public/tickets.py:77 | the new ticket has status "nouveau" |
| PublicTickets.TicketMessagesField | backend/app/routers/public/tickets.py:79-87 | the new ticket holds its message list |
| PublicTickets.TicketAnalyticsField | backend/app/routers/public/tickets.py:92-106 | the new ticket has analytics exactly when they were added |
| PublicTickets.FieldsLackAnalytics | backend/app/routers/public/tickets.py:72-89 | the ticket as first built has no analytics key |
| PublicTickets.NewTicketShape | backend/app/routers/public/tickets.py:72-106 | a new ticket has its generated id, status "nouveau", the messages built for it, and analytics exactly as the service produced them (its result, or the fixed record when it raises), none without the service |
| PublicTickets.CreationMessagesShape | backend/app/routers/public/tickets.py:79-139 | a new ticket's first message is the client's, with the initial text; a second, the assistant's carrying the reply, is there exactly when the channel is "chat" and a reply was produced |
| PublicTickets.CreationStepsOrder | backend/app/routers/public/tickets.py:144-178 | on the path where the save returns, the ticket is saved, then ticket_created is broadcast, then each message in order, the first as "user" and the assistant's as "assistant" |
| PublicTickets.CreationBroadcastOrder | backend/app/routers/public/tickets.py:143-178 | a creation saves the ticket, then announces it, then its stored messages in stored order, the assistant's only if one was produced, all on the new id |
| PublicTickets.CreationWriteDecides | backend/app/routers/public/tickets.py:143-191 | the save of the new ticket is always asked for, and first; the request succeeds exactly when the save returns, and a raising save gives its own error with no broadcast at all |
| PublicTickets.ClosedStatusPassesWrittenGuard | backend/app/routers/public/tickets.py:269 | the guard as written lets a ticket with status "fermé" through |
| PublicTickets.FollowUpAnswerAssistant | backend/app/routers/public/tickets.py:385-392 | the answer carries the assistant message exactly when one was produced |
| PublicTickets.FollowUpOrder | backend/app/routers/public/tickets.py:250-394 | a refused request writes and broadcasts nothing; an accepted one saves the ticket with the message, and a raising save ends the request with its error and nothing else; when the save returns, it stores the assistant's message, then broadcasts the user's message and then the assistant's, the assistant's steps there exactly when a reply was produced, which is when the answer carries it |
| PublicTickets.FollowUpSavesMessage | backend/app/routers/public/tickets.py:284-314 | the saved ticket holds the new message list and keeps every other field; its analytics are replaced exactly when the analytics step produced a record |
| PublicTickets.FollowUpHistoryShape | backend/app/routers/public/tickets.py:276-308 | the new message list keeps the earlier messages and ends with the client's, carrying the request's text and the copied sentiment if any |
| PublicTickets.MessageWithSentiment | backend/app/routers/public/tickets.py:308 | adding the sentiment keeps content and type and adds the sentiment |
| PublicTickets.ClosedTicketRefusesMessages | backend/app/routers/public/tickets.py:264-273 | with the corrected guard, a ticket whose status is "fermé" or "ferme" refuses a message with 400 and nothing is written or broadcast, whatever the save would have done |
| PublicTickets.CloseGuard | backend/app/routers/public/tickets.py:461-489 | any status but "fermé" is refused with 400; one write of "fermé" is asked for exactly when a readable ticket is not yet "fermé", and nothing happens otherwise; the write is followed by one status_updated broadcast when it returns, and when it raises its error is the answer and nothing is broadcast; every successful answer reports "fermé" |
| PublicTickets.CloseThenMessage | backend/app/routers/public/tickets.py:269-477 | against the file store the public close's write does not raise, and afterwards the ticket reads back "fermé": closing it again writes nothing and the corrected guard refuses a message, while the guard as written lets it through |
| PublicTickets.PublicRouter.constructor | backend/app/routers/public/tickets.py:30-33 | a new router has made no writes or broadcasts |
| PublicTickets.PublicRouter.CreateTicket | backend/app/routers/public/tickets.py:57-191 | the writes, broadcasts and result are those of CreationOutcome given what the save raised: CreationEffects and CreationResponse when it returns, the save alone and its error when it raises |
| PublicTickets.PublicRouter.AddMessage | backend/app/routers/public/tickets.py:250-394 | the writes, broadcasts and result are those of FollowUpOutcome given the read and what the save raised, where a raising save ends the request before any reply or broadcast; its status check is the corrected guard Refuses, refusing "fermé" (see Findings) |
| PublicTickets.PublicRouter.UpdateStatus | backend/app/routers/public/tickets.py:449-489 | the writes, broadcasts and result are those of CloseOutcome given the read and what `update_ticket_status` raised, where a raising update ends the request before the broadcast |
| PrivateTickets.FilteredExactly | backend/app/routers/private/tickets.py:68-77 | a ticket is kept exactly when it was listed and has the given assignee and urgency, each filter applying only when given; the urgency filter raises exactly when a remaining ticket's analytics are not a dict |
| PrivateTickets.FilterMembers | backend/app/routers/private/tickets.py:70 | a comprehension filter keeps exactly the members that pass |
| PrivateTickets.AdminFieldsRead | backend/app/routers/private/tickets.py:84-92 | the enrichment sets `age_hours` and `message_count`, sets `last_message` when there is one, and leaves every other field as it was |
| PrivateTickets.EnrichedForm | backend/app/routers/private/tickets.py:80-92 | an enriched ticket is its fields with the three assignments, in order |
| PrivateTickets.EnrichedCount | backend/app/routers/private/tickets.py:87 | `message_count` is the number of stored messages |
| PrivateTickets.EnrichedLast | backend/app/routers/private/tickets.py:90-92 | with messages, `last_message` is the final one |
| PrivateTickets.EnrichedNoLast | backend/app/routers/private/tickets.py:90-92 | without messages, `last_message` is left as it was |
| PrivateTickets.EnrichedKeeps | backend/app/routers/private/tickets.py:80-92 | enriching leaves every field but the three it sets unchanged |
| PrivateTickets.Capped | backend/app/routers/private/tickets.py:41-66 | the store's cap keeps a prefix of its listing, of at most `limit` tickets when `limit` is not negative, and the whole listing when `limit` reaches its length |
| PrivateTickets.FilteredPrefix | backend/app/routers/private/tickets.py:68-77 | filtering a prefix of the listing keeps a prefix of what filtering the whole keeps, and raises only if filtering the whole raises |
| PrivateTickets.ListAllShape | backend/app/routers/private/tickets.py:62-94 | an answer lists the kept tickets among the first `limit` the store listed, in order, each enriched |
| PrivateTickets.ListAllAtMost | backend/app/routers/private/tickets.py:41-66 | with a non-negative `limit`, the answer holds at most `limit` tickets, as the docstring's "maximum number of tickets" promises |
| PrivateTickets.ListAllPrefix | backend/app/routers/private/tickets.py:41-94 | whenever the whole listing can be answered, the answer under any `limit` succeeds and is a prefix of it: the cap drops tickets from the end and changes none it keeps |
| PrivateTickets.ListAllAsWritten | backend/app/routers/private/tickets.py:62-66 | as written, every call fails, because the store's listing takes no `limit` argument |
| PrivateTickets.ListAllAsWrittenFails | backend/app/routers/private/tickets.py:62-94 | an empty store with no filter and the default `limit` of 100 gets an error as written, and an empty list from the corrected listing |
| PrivateTickets.EnrichAll | backend/app/routers/private/tickets.py:80-92 | the enrichment loop enriches every ticket in order, or fails at the first ticket whose enrichment raises |
| PrivateTickets.ListAllTickets | backend/app/routers/private/tickets.py:37-94 | with the store's call corrected to honour `limit`, the answer is ListAll of what the store listed, so at most `limit` tickets (ListAllAtMost) and a prefix of the uncapped answer (ListAllPrefix) |
| PrivateTickets.StampedFields | backend/app/routers/private/tickets.py:151-152 | the edit sets `updated_at` and `updated_by` and keeps every other field of the body |
| PrivateTickets.CloseFieldsSet | backend/app/routers/private/tickets.py:156-162 | the close fields are set to the close time, the user and the resolution seconds, and every other field is kept |
| PrivateTickets.EditCloseFields | backend/app/routers/private/tickets.py:150-162 | the stamps are always set; `closed_at`, `closed_by` and the resolution time are set, to this edit's values, exactly on a transition into "fermé", and otherwise keep what the body held, as every other field does |
| PrivateTickets.EditWritesOnce | backend/app/routers/private/tickets.py:145-173 | a missing ticket changes nothing; an edit of a found ticket writes once and broadcasts what the store returned, which is also the answer |
| PrivateTickets.AgentMessageType | backend/app/routers/private/tickets.py:197-205 | an agent message has type "internal" when internal and "agent" otherwise |
| PrivateTickets.AgentMessageRules | backend/app/routers/private/tickets.py:190-235 | the message is stored first; a "nouveau" ticket, and only such a ticket, is then updated; the message is broadcast exactly when it is not internal, as the last step |
| PrivateTickets.TakeOverStatus | backend/app/routers/private/tickets.py:212-216 | the take-over writes status "en cours" |
| PrivateTickets.Advance | backend/app/routers/private/tickets.py:261 | "nouveau" becomes "en cours"; any other status stays |
| PrivateTickets.AdvanceIdempotent | backend/app/routers/private/tickets.py:261 | advancing twice is advancing once |
| PrivateTickets.AssignStatus | backend/app/routers/private/tickets.py:252-275 | an assignment writes once, with the new assignee and the advanced status, and broadcasts once |
| PrivateTickets.HandlingAgrees | backend/app/routers/private/tickets.py:211-216 | an agent message and an assignment leave a "nouveau" ticket with the same status, "en cours"; on any other ticket the assignment writes the status back and the agent message writes none |
| PrivateTickets.ClosingShape | backend/app/routers/private/tickets.py:357-377 | the assignment entry comes before the close entry, each present exactly when the ticket has an assignee or a close time |
| PrivateTickets.TimelineCount | backend/app/routers/private/tickets.py:330-377 | the history has one entry for the creation, one per stored message in stored order, then the closing entries: 1 + messages + assigned + closed |
| PrivateTickets.AssembledShape | backend/app/routers/private/tickets.py:333-377 | the assembled list is the creation entry, the message entries in order, then the closing entries |
| PrivateTickets.SortedTimelineOrders | backend/app/routers/private/tickets.py:380 | a sort that succeeds orders the entries by ascending timestamp, keeps each entry as often as it occurs, and keeps entries with equal timestamps in their appended order |
| PrivateTickets.SortedTimelineFails | backend/app/routers/private/tickets.py:380 | with two or more entries, the sort fails exactly when some timestamp is not a string |
| PrivateTickets.HistorySorted | backend/app/routers/private/tickets.py:310-382 | a history that answers is the built timeline, sorted |
| PrivateTickets.MessageEntries | backend/app/routers/private/tickets.py:345-355 | one entry per stored message in order, or a failure as soon as one message cannot be read |
| PrivateTickets.TicketHistory | backend/app/routers/private/tickets.py:310-382 | the answer is HistoryResult of the read |
| PrivateTickets.PrivateRouter.constructor | backend/app/routers/private/tickets.py:26-29 | a new router has made no writes or broadcasts |
| PrivateTickets.PrivateRouter.Edit | backend/app/routers/private/tickets.py:121-173 | the writes, broadcasts and answer are those of EditOutcome |
| PrivateTickets.PrivateRouter.AddAgentMessage | backend/app/routers/private/tickets.py:176-235 | the writes, broadcasts and answer are those of AgentOutcome |
| PrivateTickets.PrivateRouter.Assign | backend/app/routers/private/tickets.py:238-275 | the writes, broadcasts and answer are those of AssignOutcome |
| ChatBot.AddMessageAppends | src/components/ChatBot.tsx:65-75 | adding keeps the list as it was and puts exactly one new message, with the given id, text and sender, at the end; the id is then present |
| ChatBot.UpdateMessage | src/components/ChatBot.tsx:77-83 | the list keeps its length, ids and senders; messages with the id get the new text and flag and keep their time; every other message is untouched |
| ChatBot.UpdateMessageIdempotent | src/components/ChatBot.tsx:77-83 | updating twice with the same values is updating once |
| ChatBot.UpdateMessageAbsent | src/components/ChatBot.tsx:77-83 | an update for an id that is not in the list changes nothing |
| ChatBot.AddThenUpdate | src/components/ChatBot.tsx:65-83 | an update right after an add, under a fresh id, changes only the added message |
| ChatBot.LastEcho | src/components/ChatBot.tsx:116-124 | the index found is a user message with the same text added less than ten seconds ago, and no later message is one; none is found only when no message is one |
| ChatBot.ReceiveMessage | src/components/ChatBot.tsx:106-128 | the new list is Received of the previous one |
| ChatBot.ReceivedDuplicate | src/components/ChatBot.tsx:108 | a message whose id is already in the list changes nothing |
| ChatBot.ReceivedReplacesEcho | src/components/ChatBot.tsx:112-123 | a new user message replaces its most recent echo in place: the length is the same and every other message stays |
| ChatBot.ReceivedAppends | src/components/ChatBot.tsx:127 | a new message with no echo to replace is appended at the end |
| ChatBot.ReceivedIdempotent | src/components/ChatBot.tsx:106-128 | after a message is received its id is present, so receiving it again, at any time, changes nothing |
| ChatBot.SnapshotThenReceive | src/components/ChatBot.tsx:129-142 | an empty snapshot keeps the list, a non-empty one replaces it, and a message of the snapshot broadcast again is not duplicated |
| ChatBot.Posted | src/components/ChatBot.tsx:167-168 | nothing is sent exactly when the trimmed input is empty; otherwise the trimmed input is sent |
| ChatBot.SendGuard | src/components/ChatBot.tsx:166-176 | blank input changes nothing; otherwise the list grows by the trimmed user message and then the analysing placeholder, both at the current time |
| ChatBot.SettledPlaceholder | src/components/ChatBot.tsx:200-229 | on success no message keeps the placeholder's id and every other message stays; on failure the list keeps its length and the placeholder shows the error text |
| ChatBot.DelimiterSlice | src/components/ChatBot.tsx:347 | a delimiter found at a position is the text there |
| ChatBot.CloseAfter | src/components/ChatBot.tsx:347 | a closing delimiter is found at or after the search position and ends inside the text |
| ChatBot.CloseAfterLazy | src/components/ChatBot.tsx:347 | the closing delimiter found is the first one, and no line terminator comes before it |
| ChatBot.Find | src/components/ChatBot.tsx:347-352 | a match starts at or after the search position, has non-empty content and ends inside the text |
| ChatBot.FindLeftmost | src/components/ChatBot.tsx:347-352 | the match found is the leftmost one at or after the search position, as `exec` from `lastIndex` finds it: it starts where a match can start and none starts earlier; when none is found, none starts anywhere from the search position on |
| ChatBot.FindContent | src/components/ChatBot.tsx:347-352 | a match is delimited on both sides, and its content holds no line terminator and no earlier closing delimiter, as `.+?` does not cross lines and is lazy |
| ChatBot.ExecSearches | src/components/ChatBot.tsx:347-352 | the search built from Find meets what the scan loop needs of `regex.exec` |
| ChatBot.RestoredAppend | src/components/ChatBot.tsx:350-361 | the source of two piece lists in a row is the two sources joined |
| ChatBot.Slices | src/components/ChatBot.tsx:354-360 | adjacent substrings join up |
| ChatBot.SlicesTail | src/components/ChatBot.tsx:359-360 | a substring and the rest of the text join up |
| ChatBot.RestoredOne | src/components/ChatBot.tsx:354-360 | one piece restores its own source |
| ChatBot.AroundSource | src/components/ChatBot.tsx:353-357 | the pieces one match pushes restore the text before it, the delimiter, the content and the delimiter |
| ChatBot.SpanSplit | src/components/ChatBot.tsx:353-357 | the text up to the end of a match is the text before it, the delimiter, the content and the delimiter |
| ChatBot.AroundRestores | src/components/ChatBot.tsx:353-357 | the pieces one match pushes restore the text from the previous end to the end of the match |
| ChatBot.Assoc | src/components/ChatBot.tsx:356 | string concatenation regroups |
| ChatBot.PiecesRestore | src/components/ChatBot.tsx:349-361 | whatever search found the matches, the pieces, delimiters put back around the matched ones, join to the scanned text |
| ChatBot.MatchAround | src/components/ChatBot.tsx:353-357 | the pieces of the match the search returned restore the text up to its end |
| ChatBot.DelimitersAt | src/components/ChatBot.tsx:352 | a match the search returns is delimited on both sides and lies inside the text |
| ChatBot.MatchRestores | src/components/ChatBot.tsx:352-357 | when the rest of the scan restores the rest of the text, the scan from before the match restores the text from there |
| ChatBot.ScannedRestores | src/components/ChatBot.tsx:347-361 | scanning with the regex search loses nothing: the pieces restore the text |
| ChatBot.PiecesSplit | src/components/ChatBot.tsx:352-357 | the pieces from a position are those of its match followed by those from the end of that match |
| ChatBot.PiecesStep | src/components/ChatBot.tsx:352-357 | one turn of the scan loop keeps "pieces so far plus the rest equal the whole" |
| ChatBot.PiecesEnd | src/components/ChatBot.tsx:359-361 | with no further match, the rest of the text, if any, is one plain piece |
| ChatBot.AppendAssoc | src/components/ChatBot.tsx:354-360 | appending regroups |
| ChatBot.ScannedNoDelimiter | src/components/ChatBot.tsx:347-361 | a text with no `*` scans to a single plain piece, or to nothing when empty |
| ChatBot.PushMatch | src/components/ChatBot.tsx:353-356 | the loop body pushes the text before the match, if any, then the match's content |
| ChatBot.Turn | src/components/ChatBot.tsx:352-357 | one turn moves the search position forward and keeps "pieces so far plus the rest equal the whole" |
| ChatBot.Scan | src/components/ChatBot.tsx:347-361 | the scan loop returns Pieces of the text under the given search |
| ChatBot.RenderedAppend | src/components/ChatBot.tsx:364-385 | the source of two part lists in a row is the two sources joined |
| ChatBot.ItalicOfRestores | src/components/ChatBot.tsx:366-381 | the italic pass over one plain text's pieces renders them back to their source |
| ChatBot.RefinedRestores | src/components/ChatBot.tsx:365-384 | a refined piece renders back to its source with `**` as the delimiter |
| ChatBot.ItalicPassRestores | src/components/ChatBot.tsx:364-385 | the italic pass over the bold pieces renders back to their source |
| ChatBot.InlineRestores | src/components/ChatBot.tsx:343-388 | rendering the parts back, `**` around bold and `*` around italic, gives the input text |
| ChatBot.InlineNoStar | src/components/ChatBot.tsx:343-388 | a text without `*` is one plain part |
| ChatBot.ItalicPassSnoc | src/components/ChatBot.tsx:365 | the italic pass over one more piece appends that piece's parts |
| ChatBot.Refine | src/components/ChatBot.tsx:365-384 | a bold piece stays bold, any other is scanned for `*`, as Refined says |
| ChatBot.FormatInlineMarkdown | src/components/ChatBot.tsx:343-388 | the parts are InlineParts of the text |
| CallScreen.JsRem | src/components/CallScreen.tsx:72 | JavaScript's `%` agrees with the mathematical remainder on non-negative operands and is never positive on negative ones |
| CallScreen.FormatTimeRoundTrip | src/components/CallScreen.tsx:70-74 | the clock text of a number of seconds reads back, as minutes and seconds below sixty, to the same number |
| CallScreen.FormatTimeWidth | src/components/CallScreen.tsx:70-74 | the clock text is at least "MM:SS" wide and is exactly five characters precisely below one hundred minutes |
| CallScreen.FormatTimeInjective | src/components/CallScreen.tsx:70-74 | two different numbers of seconds never show the same clock text |
| CallScreen.HundredMinutes | src/components/CallScreen.tsx:71 | the minutes are below 100 exactly when the seconds are below 6000 |
| CallScreen.TwoDigitField | src/components/CallScreen.tsx:73 | a padded field is all digits, reads back to its number, and is two characters wide exactly when the number is below 100 |
| CallScreen.ReadJoined | src/components/CallScreen.tsx:73 | two digit fields joined by a colon read back to their minutes and seconds |
| CallScreen.SplitAtColon | src/components/CallScreen.tsx:73 | the joined text splits back at its colon into the two fields |
| CallScreen.DetectTopicPrecedence | src/components/CallScreen.tsx:102-114 | the topic is network exactly when a network keyword occurs, billing exactly when one of its keywords and no network one occurs, offer likewise after both, and the default otherwise |
| CallScreen.TopicsDistinct | src/components/CallScreen.tsx:105-113 | the four topic labels are different |
| CallScreen.DetectTopicIgnoresCase | src/components/CallScreen.tsx:103 | upper-casing the message does not change its topic |
| CallScreen.DetectTopicMonotone | src/components/CallScreen.tsx:102-114 | text around a message can only move its topic earlier in the precedence, never later |
| CallScreen.KeywordsInside | src/components/CallScreen.tsx:104-110 | a keyword found in a text is still found with text added around it |
| CallScreen.ResponseForTopic | src/components/CallScreen.tsx:116-127 | each named topic gets its own reply, and every other text gets the request for details |
| CallScreen.ReplyForMessage | src/components/CallScreen.tsx:102-127 | a message gets the request for details exactly when it holds none of the keywords |
| CallScreen.Countdown | src/components/CallScreen.tsx:28-34 | the countdown never goes below 0, reaches 0 exactly from 1 or less, and otherwise drops by one |
| CallScreen.InitialConsistent | src/components/CallScreen.tsx:13-16 | the call starts connecting, with the countdown at 10 and the timer at 0 |
| CallScreen.SecondConsistent | src/components/CallScreen.tsx:25-68 | one second of intervals and the hand-over effect keeps the countdown between 1 and 10 while connecting and 0 afterwards, the timer at 0 before the call and below 30 while calling, and the call never ended |
| CallScreen.HearingConsistent | src/components/CallScreen.tsx:164-172 | hearing a transcript and pressing the mute button keep the screen consistent |
| CallScreen.Schedule | src/components/CallScreen.tsx:25-68 | left alone, the call connects for 10 seconds, calls for 30 with the timer counting from 0, and then the assistant answers while the timer keeps running |
| CallScreen.Call.constructor | src/components/CallScreen.tsx:13-16 | a new screen is connecting, timer 0, countdown 10, not muted |
| CallScreen.Call.Tick | src/components/CallScreen.tsx:25-68 | the new state is one Second of the old one |
| CallScreen.Call.ToggleMute | src/components/CallScreen.tsx:354 | only the mute flag changes, to its opposite |
| CallScreen.Call.Hear | src/components/CallScreen.tsx:164-172 | while listening unmuted during the call, a non-blank final transcript hands the call to the assistant and returns the reply for its topic; otherwise nothing changes and nothing is said |
| Text.StripIdempotent | backend/app/services/ai/smart_reply.py:57 | `strip()` applied to its own result changes nothing |
| Text.StripAllSpace | backend/app/services/ai/smart_reply.py:57 | a text made only of white space strips to the empty text |
| Text.LowerIsLowerCased | backend/app/services/ai/smart_reply.py:57 | after `lower()` every character is its own lower case |
| Decimal.NatToStringRoundTrip | src/components/CallScreen.tsx:73 | the decimal text of a number reads back to the number |
| Decimal.PaddedRoundTrip | src/components/CallScreen.tsx:73 | padding the decimal text with leading '0's keeps it all digits and keeps its value |
| StrOrder.LessEqTotal | backend/app/routers/private/tickets.py:380 | any two strings compare one way or the other |
| StrOrder.LessEqTransitive | backend/app/routers/private/tickets.py:380 | string comparison is transitive |
| StrOrder.LessEqAntisymmetric | backend/app/routers/private/tickets.py:380 | two strings each at most the other are equal |
| StrOrder.SortBySorted | backend/app/services/storage/json_store.py:95 | `sort` with a key, ascending or with `reverse=True`, returns the elements ordered by key, as a permutation, keeping the original order among equal keys |
| StrOrder.SortByPermutation | backend/app/services/storage/json_store.py:95 | sorting neither loses nor adds an element |
| StrOrder.SortByStable | backend/app/routers/private/tickets.py:380 | the elements sharing a key keep their original relative order |
| JsonValue.SetKey | backend/app/routers/private/tickets.py:151-152 | after `d[k] = v` the key reads as the new value and every other key reads as before |
| JsonValue.SetKeyTwice | backend/app/routers/private/tickets.py:151-157 | assigning a key twice is assigning it the second value |
| JsonValue.LookupAppend | backend/app/routers/private/tickets.py:150-157 | a key is looked up in the first members before the later ones |
| JsonValue.JsonEscapeRoundTrip | backend/app/services/ai/mistral.py:181 | the escaped form of a string that `json.dumps` writes reads back to the string |
| JsonValue.JsonEscapeSafe | backend/app/services/ai/mistral.py:181 | the escaped form holds no control character |

## Left out

- Network and transport: httpx posts, FastAPI routing, WebSocket `accept` and `send_json`, boto3 calls, and `fetch` in the chat widget. Each is an oracle parameter giving the outcome, because the model covers only what the code does with that outcome.
- Concurrency: the `asyncio.Semaphore` in the Mistral client, the `asyncio.Lock` of the JSON store, and interleaving at `await` points. Every operation is atomic and sequential.
- Backoff sleeps and jitter: `_jitter_backoff` and the DynamoDB backoff sleep. They only delay the next attempt, so they are not modelled.
- Clocks: `time.time()`, `datetime.utcnow()` and `new Date()` are integer readings passed in. Sub-microsecond precision of `time.time()` is not modelled.
- Date parsing: `datetime.fromisoformat` and `new Date(...)` are an oracle `parseTime`, because calendar arithmetic is outside this model.
- Timestamp order: ISO timestamps are compared as strings, as the code compares them.
- JSON decoding: `json.loads` and `response.json()` are oracles. Their results are not required to have distinct keys; where an object repeats a key, lookup returns the first value, while `json.loads` keeps the last. JSON rendering (`json.dumps`, `str()`) is modelled on float-free values.
- Floats: floats are not modelled. This covers `relevance_score` in rag.py, the `age_hours` computation in the admin listing (an oracle), the `resolution_hours` formatting of the export (an oracle), and non-integral Decimal conversion in the DynamoDB store.
- Export averages: the average is computed exactly on integers and truncated toward zero. There is no rounding error from float division.
- CSV quoting by Python's `csv` module: the export is modelled as its list of rows.
- Regular expressions:
  - the canned-reply patterns are written out as whole-word searches for their literal alternatives;
  - the analytics fence and brace extraction are written out as character scans;
  - the chat widget's `/\*\*(.+?)\*\*/g` and `/\*(.+?)\*/g` are written out as a lazy search for a non-empty, line-terminator-free content.
- `int()` on a string (`Analytics.ParseIntStr`, behind `Analytics.PyInt`): only ASCII whitespace, an optional sign and ASCII digits are read. Python's `int()` also accepts underscores between digits ("1_0") and non-ASCII Unicode digits; the model rejects those and the analysis falls back to the default indicators.
- Characters: strings are sequences of code points, not UTF-16 units. `lower()` / `toLowerCase()` is modelled on ASCII and Latin-1 letters only, and `upper()` (the role in the analytics prompt, the ticket id) on ASCII letters only. `strip()` / `trim()` removes ASCII whitespace only. The `\w` and `\b` of the canned-reply patterns are modelled over ASCII and Latin-1 word characters, where Python's `re` on `str` counts every Unicode letter and digit. `repr()` writes `\xhh` for the characters below U+0100 that Python does not count as printable (controls, U+007F to U+00A0, U+00AD); the non-printable characters above U+00FF are written as they are.
- Logging and `print` calls: they have no effect on results.
- The JSON store's file I/O: `_load_all`, `_save_all`, the handling of a corrupt file, and `close`. The store's state is the loaded object.
- The DynamoDB store: table creation, the `table.load` errors of the constructor, and `close` are not modelled. The order in which a secondary-index query returns items is modelled as table order. The attributes of an item read back are modelled in the order in which they were written, so `ItemRoundTrip` and `SaveConverted` also fix the key order of the read-back dict, which DynamoDB does not promise.
- `DynamoStore.ListAgrees`: the agreement with the JSON store's listing holds because the modelled `query` and `scan` return every matching item. The code makes one call per listing and never follows `LastEvaluatedKey` (dynamodb_store.py:190-212), so a real table lists only the first page of at most 1 MB. The `status-created_at-index` and `channel-created_at-index` secondary indexes are sparse, so an item without `created_at` is missing from a status or channel query; the model's query does not omit it.
- `DynamoStore.DynamoDBStorage.ListTickets`: the listing is complete in the model. Pagination and the sparse indexes are not modelled, as the line above says.
- The RAG service: `get_embedding`, `search` and `load_from_file` are not modelled. The embedding outcome and the search hits are parameters.
- The scraper: its HTTP fetching and HTML parsing (`scrape_faq`, `_parse_faq_page`) and its file output (`save_documents`) are not modelled. The scraped documents are a parameter.
- The public router's read endpoints: `get_ticket_public` and `get_ticket_status_public` only read and reshape a ticket, so they are not modelled.
- The admin router's other endpoints: `get_ticket_full`, `delete_ticket`, `export_tickets_csv` and `export_single_ticket_csv` are not modelled. They pass through to storage or to the export service, which is modelled on its own.
- Storage methods the routers call but that neither store defines: `add_message`, `update_ticket` and `delete_ticket`. The routers are modelled against a storage that provides them, and a call is recorded as an effect with no semantics invented. Against either shipped store these calls raise `AttributeError`: `PrivateTickets.PrivateRouter.Edit`, `PrivateTickets.PrivateRouter.AddAgentMessage` and `PrivateTickets.PrivateRouter.Assign` (private/tickets.py:165, 208, 212, 257) would end in a 500, and the `add_message` of the public follow-up (public/tickets.py:357) is swallowed by the `except` at line 358. The `limit` finding is different in kind: `list_tickets` is a method both stores and the storage interface declare, and none of them takes `limit`.
- The chat widget beyond the list updaters and the tokeniser: the `status_updated` handler, `handleCloseTicket`, `formatMessage`, scrolling and rendering.
- The call screen beyond its clock, topics and states:
  - speech synthesis;
  - starting and stopping recognition;
  - `isPaused`;
  - the texts of `getStatusText` and `getAIResponse`;
  - the JSX.

  A recognition result is modelled as the optional final transcript.
- Call-screen timing: the intervals are modelled as one tick per second for the current state.
- `CallScreen.FormatTimeRoundTrip`: proved for non-negative whole seconds only. The screen never passes a negative or fractional time.
- `PrivateTickets.SortedTimeline`: a timeline holding any non-string timestamp fails the sort. Python would also order two numbers; the model only orders strings.
- `Mistral.Client.Chat`: the reply is read with the corrected extractor ExtractText, so a 200 body whose `choices[0].message.content` is `{"text": 5}` yields text, where mistral.py:171-172 raises `AttributeError` out of `chat`. The as-written extractor is ExtractTextAsWritten (see Findings). The same holds for `Mistral.Client.Fallback`, `Mistral.ChatSpec` and `Analytics.AnalyticsService.AnalyzeTicket`, which read replies through `chat`.
- `PublicTickets.PublicRouter.AddMessage`: the status check is the corrected guard Refuses, so a ticket whose status is "fermé" gets a 400, where the written guard at public/tickets.py:269 accepts the message. The as-written guard is RefusesAsWritten (see Findings). `PublicTickets.FollowUpOutcome` and `PublicTickets.FollowUpOrder` use the same corrected guard.
- `Mistral.TryOnce`: the clock is read once per post: `env(k)` gives the reading for the breaker check before post `k` and the reading after it. Two breaker checks with no post between them, such as a refused check (mistral.py:82) followed by the next fallback model's check in the loop at mistral.py:148-156, read the same time, so the model cannot show the recovery time passing between a refusal and a later check.
- `Mistral.ExtractText`: the `json.dumps` failure that falls back to `str(body)` is not modelled. A float-free JSON value always dumps.
- Auth, configuration, startup wiring, the WebSocket endpoint loop and the scripts are outside the core.
- The figma duplicate of the call screen is a dead copy and is outside the core.

## Findings

| source | as written | input that shows it | evidently intended | confidence | as-written member | corrected member |
|---|---|---|---|---|---|---|
| backend/app/services/ai/mistral.py:171-172 | when `message.content` is a dict, its `"text"` is stripped with `.strip()` whatever its type, so a non-string raises `AttributeError` out of a function otherwise written never to raise | a body whose `choices[0].message.content` is `{"text": 5}` | render a non-string `"text"` with `str()`, as the branch for a truthy non-dict `content` at line 173-174 renders any value; a dict `content` still ends the extraction, as it does for an empty "text" | not executed | Mistral.ExtractTextAsWritten, Mistral.ExtractAsWrittenRaises | Mistral.ExtractText, Mistral.ExtractAgrees, Mistral.ExtractDictTextRendered, Mistral.ExtractNumberDictText |
| backend/app/routers/public/tickets.py:269 | the add-message guard refuses only the status "ferme", but the public close (line 477) writes "fermé", so a closed ticket still takes messages | close a ticket, then post a message to it | refuse messages on a ticket whose status is "fermé" | not executed | PublicTickets.RefusesAsWritten, PublicTickets.ClosedStatusPassesWrittenGuard, PublicTickets.CloseThenMessage | PublicTickets.Refuses, PublicTickets.ClosedTicketRefusesMessages |
| backend/app/routers/private/tickets.py:62-66 | `list_all_tickets` passes `limit=` to `storage.list_tickets`, which has no such parameter in either store, so every call raises `TypeError` | any call, for example with an empty store and no filters, if `storage` is one of the two shipped stores | list at most `limit` of the tickets with the given filters | not executed | PrivateTickets.ListAllAsWritten, PrivateTickets.ListAllAsWrittenFails | PrivateTickets.ListAll, PrivateTickets.ListAllShape, PrivateTickets.ListAllAtMost, PrivateTickets.ListAllPrefix |
