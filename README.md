# Chime chat catch-up and live reconciliation

This is a Dafny model of the room chat logic in `chat.c` of the Pidgin/libpurple Chime plugin. It covers:

- Joining a room.
- Buffering push events while history is fetched, and routing them straight to the conversation once catch-up is over.
- Paginated history ingestion by `MessageId`, following `NextToken`, with a query built from the stored `last-room-<id>` watermark.
- The completion step. It drains the buffer table into a list sorted by `compare_ms`, delivers the list front to back and stores the last delivered `CreatedOn` as the new watermark.
- Teardown of a chat.

Files:

- `wrappers.dfy`: the `Option` type.
- `json.dfy`: a JSON message node is reduced to its optional `MessageId`, `CreatedOn` and `Content` strings. A push event is its outer object plus its optional `record`. A history page is its `Messages` array plus its optional `NextToken`.
- `ordering.dfy`: `compare_ms`, the ordered insert `g_list_insert_sorted` performs with it, and `insert_queued_msg`. The ghost function `Pending` gives the multiset of entries a buffer table contributes to the batch, whatever order the table is visited in.
- `history.dfy`: `one_msg_cb` folded over a page (`Ingest`), and the `opts` array and query of `fetch_chat_messages`.
- `delivery.dfy`: `chat_deliver_msg` and the catch-up delivery loop as functions over the list, plus the watermark the loop writes.
- `chat.dfy`: the `Room`, `Chat` and `Connection` classes. Their methods change the state in place, as the C functions do.

Environment and abstractions:

- The clock `time(NULL)` is a parameter `now`.
- `g_time_val_from_iso8601` is a parameter `parse` of type `string -> Option<TimeVal>`.
- What libpurple is told is a log `ui` of `JoinedChat`, `ChatIn` and `ChatLeft` events. Every message is shown as from "someone".
- The account is a `map<string, string>`.
- Push subscriptions are a set of (channel, callback data) pairs.
- An HTTP request in flight is `Some(Request(path, query))` in `msgsMsg`. Cancelling it sets it to `None`.
- A history page's arrival is a call to `FetchMsgsCb` with the page.
- `msg_time` is a C `int`. `CInt` wraps a `time_t` or `glong` second count to it using two's complement.

Behaviour modelled as the code is written:

- While catching up, `chat_msg_cb` files the outer event object, not its record, under the record's `MessageId`. A buffered push event therefore usually has no `CreatedOn` of its own and is left out of the batch (`Ordering.UntimedNodeLeftOut`).
- Join puts the chat into `live_chats` under the purple chat id. Teardown removes the entry under `GUINT_TO_POINTER(room->id)`, which is `Room.idKey` here.
- The push subscription is registered with the chat as callback data. The unsubscribe passes the room, so it removes the `RoomData(room)` pair and not the `ChatData(chat)` pair that was added.
- A `msg_time` of 0 makes `chat_deliver_msg` parse `CreatedOn` again. A parsed entry whose seconds are 0 therefore comes back with the same seconds (`Delivery.BatchOutput`).
- The buffer table replaces an entry on a repeated `MessageId`: the last write wins. The comment at chat.c:69 says the table is there "to avoid dupes"; it does so by keeping one entry per id, the latest one.
- The hash table's iteration order is unspecified. The drain loop takes any remaining key. Its result is determined by its sortedness and its multiset up to the order of entries with equal times: `g_list_insert_sorted` puts a new entry before equal ones, so ties come out in an order that depends on the visiting order.

## Model

| member | source | states |
|---|---|---|
| Ordering.CompareMs | chat.c:116-127 | The result is 0 or 1, never negative. On normal times it is 1 exactly when a is strictly later than b in microseconds. |
| Ordering.CompareMsPreorder | chat.c:116-127 | "Not later than" (compare_ms returning 0) is reflexive, total and transitive. |
| Ordering.InsertSorted | chat.c:142 | The ordered insert returns a permutation of the list plus the new entry, and keeps a non-decreasing list non-decreasing. |
| Ordering.InsertQueuedMsg | chat.c:129-145 | The list gains exactly the node's entry, or stays the same when CreatedOn is missing or does not parse. Sortedness and the parsed-time property of every entry are preserved. |
| Ordering.PendingRemove | chat.c:152 | Draining the table in any order gives the same batch: removing any key first contributes that key's entry plus the batch of the rest. |
| Ordering.PendingMembers | chat.c:134-142 | An entry is in the batch exactly when some table node has a parsable CreatedOn and makes that entry. |
| Ordering.PendingSize | chat.c:152 | The batch has one entry per key whose node parses, so no more entries than the table has MessageIds. |
| Ordering.PendingParsed | chat.c:134-140 | Every batch entry carries the time its own CreatedOn parses to. |
| Ordering.UntimedNodeLeftOut | chat.c:70-75 | A node stored without a CreatedOn (the outer push event) contributes nothing to the batch: the batch equals that of the table without its key. |
| History.IngestKeys | chat.c:177-185 | After a page is ingested, the table's keys are the old keys plus the MessageIds the elements carry. Elements without an id add nothing. |
| History.IngestKeepsOthers | chat.c:183-184 | A key that no element of the page carries keeps its old entry. |
| History.IngestLastWins | chat.c:183-184 | For each id, the table holds the last element of the page that carries it. |
| History.QueryOpts | chat.c:213-227 | The four opts slots hold the "after" pair only for a present, non-empty watermark, then the "next-token" pair only for a given token, then NULLs. |
| History.QueryPairs | chat.c:215-229 | Every request's query is max-results=50, then after=watermark when the watermark is non-empty, then next-token=token when a token is given, and nothing else. |
| Delivery.CInt | chat.c:48-50 | The value is in C int range, is congruent to the input modulo 2^32, and equals the input when the input is already in range. |
| Delivery.BatchOutput | chat.c:156-161 | Delivering a batch of parsed entries shows each entry with Content, front to back, at its own seconds. The clock is never consulted. |
| Delivery.ExpectedNonDecreasing | chat.c:152-161 | A sorted batch whose seconds fit a C int shows only messages, with non-decreasing times. |
| Delivery.WatermarkWritten | chat.c:163-171 | An empty batch leaves the account unchanged. Otherwise last-room-id holds the last entry's CreatedOn, which parses to that entry's time. No other setting changes. |
| Chats.Chat.constructor | chat.c:245 | A new chat has no conversation id, no requests in flight and no table. |
| Chats.Chat.OneMsgCb | chat.c:177-185 | The element is filed under its MessageId, replacing any earlier entry. Without an id nothing changes. |
| Chats.Connection.ChatDeliverMsg | chat.c:41-59 | The conversation receives the node's Content stamped with msg_time; when msg_time is 0, the stamp is the parsed CreatedOn seconds, or the clock when that is missing or unparsable. Nothing is received without Content. |
| Chats.Connection.ChatMsgCb | chat.c:60-78 | An event without a record changes nothing. While the table exists, the outer event is filed under the record's MessageId and nothing is delivered. Otherwise the record is delivered at once with the current time. |
| Chats.Connection.FetchChatMessages | chat.c:209-231 | The request in flight is the history request for the room: path /rooms/id/messages, built from the watermark the account holds now and the token. |
| Chats.Connection.DrainMessages | chat.c:149-152 | The table is emptied. The list is sorted, every entry in it parses, and it holds exactly the batch of the old table. |
| Chats.Connection.DeliverQueue | chat.c:156-174 | The conversation receives the list delivered front to back. The account has the watermark of the last element written, and nothing for an empty list. |
| Chats.Connection.CompleteChatSetup | chat.c:147-175 | The table is gone, so later events go live. The batch is sorted, holds exactly the table's parsable entries, is delivered in order, and the last element's CreatedOn becomes the watermark. When the batch's seconds fit a C int, what the conversation receives is only messages with non-decreasing times. |
| Delivery.DeliveredInTimeOrder | chat.c:156-161 | The delivery loop over a sorted batch of parsed entries whose seconds fit a C int shows only messages, with non-decreasing times. |
| Chats.Connection.FetchMsgsCb | chat.c:189-207 | The page is ingested into the table. With a NextToken, the next request carries that token and nothing is delivered. Without one, catch-up completes over the whole ingested table, its messages are shown with non-decreasing times when their seconds fit a C int, and no request is left in flight. |
| Chats.Connection.JoinChat | chat.c:233-257 | An unknown room, or a room that already has a chat, changes nothing. Otherwise: a fresh chat for the room; chat_id one higher and registered in live_chats; an empty table; the first request without a token; a subscription to the room's channel; a joined-chat event. |
| Chats.Connection.DestroyChat | chat.c:80-108 | Both request handles are cleared, the table is discarded and the room's chat is cleared. The RoomData subscription is removed, a chat-left event is sent, and the live_chats entry under the room's id key is removed. |
| Chats.Connection.ChatLeave | chat.c:259-265 | The chat that live_chats holds under the purple id is torn down as DestroyChat states. |
| Chats.Connection.LeaveThenJoin | chat.c:242-246 | After a room's chat is torn down, joining the room again is accepted and starts a new catch-up under the next chat id. |

## Left out

- HTTP: libsoup's URI building, sending and cancellation are not modelled. A request is the path and query it would carry, held in `msgsMsg`; cancelling it clears the handle. The messaging URL base, HTTP errors and the response callback's error path are outside `chat.c`.
- Push transport: `chime_jugg_subscribe` and `chime_jugg_unsubscribe` (jugg.c is not part of this model) are modelled only as adding and removing pairs in `subscriptions`. Matching an unsubscribe against a registration is the transport's business.
- libpurple: the conversation object and `PURPLE_MESSAGE_RECV` are not modelled. `serv_got_joined_chat`, `serv_got_chat_in` and `serv_got_chat_left` are modelled as entries in the `ui` log, and the purple chat id stands for the conversation.
- JSON parsing, `json_node_ref`/`unref` reference counting and `g_free`: a node is its three optional strings, and memory is not modelled.
- `g_time_val_from_iso8601` is part of GLib, not this model. It is the parameter `parse`, a partial function to seconds and microseconds.
- `time(NULL)` is the parameter `now`.
- The join request's `data` table: its "RoomId" and "Name" lookups are the parameters `roomId` and `name`.
- Chats.Connection.JoinChat: `cxn->chat_id` is an unbounded integer, so its wrap-around past `INT_MAX` is not modelled.
- The `members` table and the `got_members` and `got_msgs` flags: chat.c never sets them, so the destroy of a non-NULL `members` table in teardown (chat.c:102-103) never runs. Only the `members_msg` handle is kept, as a flag that teardown clears.
- Debug `printf` calls.
- Chats.Connection.ChatLeave: requires that `live_chats` holds a chat under the id. For any other id the C code passes NULL to `chime_destroy_chat` and dereferences it.
- Use after free is not modelled. A stale `live_chats` entry left behind because insert and remove use different keys, or the stale `ChatData(chat)` subscription left behind because unsubscribe passes the room, leads C to freed memory. The model records both stale items, and `DestroyChat` and `ChatLeave` require a live chat.
- Chats.Connection.ChatMsgCb: does not require a live chat. For a push event that reaches a torn-down chat through the stale subscription, the model takes the live path: its table is `None`, so the record is delivered with the current time. In C, `chat_msg_cb` reads `chat->messages` (chat.c:70) after `g_free(chat)` (chat.c:105), which is undefined behaviour.
- Chats.Connection.FetchMsgsCb: requires that a history request is in flight, since the callback runs only for one. Under `Chat.Valid()` the table then exists, so a page that meets no table cannot arise in the model. In C such a page would reach `g_hash_table_insert` with a NULL table, which logs a critical warning and skips the insert. Teardown cancels the request before it discards the table.
