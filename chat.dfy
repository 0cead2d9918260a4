/**
 * The per-connection and per-chat state of chat.c and the operations that change it:
 * joining a room, buffering or delivering push events, ingesting history pages,
 * completing catch-up, and tearing a chat down.
 */
module Chats {
  import opened Wrappers
  import opened Json
  import opened Ordering
  import opened History
  import opened Delivery

  /** struct chime_room, reduced to what the chat code uses. */
  class Room {
    const id: string
    /** The push channel of the room. */
    const channel: string
    /** The number GUINT_TO_POINTER(room->id) makes of the address of the id string. */
    const idKey: int
    var chat: Chat?

    constructor (id: string, channel: string, idKey: int)
      ensures this.id == id && this.channel == channel && this.idKey == idKey && chat == null
    {
      this.id := id;
      this.channel := channel;
      this.idKey := idKey;
      chat := null;
    }
  }

  /** struct chime_chat. */
  class Chat {
    const room: Room
    /** The purple chat id of chat->conv. */
    var convId: int
    /** The history request in flight (msgs_msg), None for NULL. */
    var msgsMsg: Option<Request>
    /** Whether a members request is in flight (members_msg); nothing in chat.c issues one. */
    var membersMsg: bool
    /** The buffer table keyed by MessageId (messages); None once the chat is live. */
    var messages: Option<map<string, Node>>

    /** The buffer table exists exactly while a history request is outstanding. */
    ghost predicate Valid()
      reads this
    {
      messages.Some? <==> msgsMsg.Some?
    }

    /** g_new0: every field zero. */
    constructor (room: Room)
      ensures this.room == room && convId == 0
      ensures msgsMsg == None && !membersMsg && messages == None
    {
      this.room := room;
      convId := 0;
      msgsMsg := None;
      membersMsg := false;
      messages := None;
    }

    /** one_msg_cb: file one page element under its MessageId; an element without one is skipped. */
    method OneMsgCb(node: Node)
      modifies this`messages
      ensures messages == if old(messages).Some? then Some(Insert(old(messages).value, node.messageId, node)) else None
    {
      if messages.Some? && node.messageId.Some? {
        messages := Some(messages.value[node.messageId.value := node]);
      }
    }
  }

  /** The callback data a push subscription is registered with. */
  datatype Subscriber = ChatData(chat: Chat) | RoomData(room: Room)

  /** struct chime_connection, reduced to what the chat code uses, with the account and the UI it talks to. */
  class Connection {
    /** rooms_by_id */
    var rooms: map<string, Room>
    /** live_chats, under the keys the code uses */
    var liveChats: map<int, Chat>
    /** chat_id: the last purple chat id handed out */
    var chatId: int
    /** The account's string settings */
    var account: map<string, string>
    /** The push subscriptions: channel and callback data */
    var subscriptions: set<(string, Subscriber)>
    /** Everything told to libpurple, in order */
    var ui: seq<UiEvent>

    ghost function Chats(): set<Chat?>
      reads this, rooms.Values
    {
      set r | r in rooms.Values :: r.chat
    }

    /** Every joined room's chat points back at the room and keeps its own invariant. */
    ghost predicate Valid()
      reads this, rooms.Values, Chats()
    {
      forall r :: r in rooms.Values && r.chat != null ==> r.chat.room == r && r.chat.Valid()
    }

    constructor (rooms: map<string, Room>, account: map<string, string>)
      requires forall r :: r in rooms.Values ==> r.chat == null
      ensures Valid()
      ensures this.rooms == rooms && this.account == account
      ensures liveChats == map[] && chatId == 0 && subscriptions == {} && ui == []
    {
      this.rooms := rooms;
      this.account := account;
      liveChats := map[];
      chatId := 0;
      subscriptions := {};
      ui := [];
    }

    /** chat_deliver_msg */
    method ChatDeliverMsg(chat: Chat, node: Node, msgTime: int, now: int, parse: Parser)
      modifies this`ui
      ensures ui == old(ui) + DeliverMsg(chat.convId, node, msgTime, now, parse)
    {
      var t := msgTime;
      if t == 0 {
        if node.createdOn.None? || parse(node.createdOn.value).None? {
          t := CInt(now);
        } else {
          t := CInt(parse(node.createdOn.value).value.sec);
        }
      }
      if node.content.Some? {
        ui := ui + [ChatIn(chat.convId, Someone, node.content.value, t)];
      }
    }

    /**
     * chat_msg_cb: while the table exists, a push event is filed under its record's
     * MessageId (the outer event object is what is stored) and not delivered; once
     * the table is gone, the record is delivered at once with the current time.
     */
    method ChatMsgCb(chat: Chat, ev: Event, now: int, parse: Parser)
      requires Valid()
      modifies this`ui, chat`messages
      ensures Valid()
      ensures ev.record.None? ==> ui == old(ui) && chat.messages == old(chat.messages)
      ensures ev.record.Some? && old(chat.messages).Some? ==>
        ui == old(ui) && chat.messages == Some(Insert(old(chat.messages).value, ev.record.value.messageId, ev.outer))
      ensures ev.record.Some? && old(chat.messages).None? ==>
        chat.messages == None && ui == old(ui) + DeliverMsg(chat.convId, ev.record.value, CInt(now), now, parse)
    {
      if ev.record.None? {
        return;
      }
      var record := ev.record.value;
      if chat.messages.Some? {
        if record.messageId.Some? {
          chat.messages := Some(chat.messages.value[record.messageId.value := ev.outer]);
        }
        return;
      }
      ChatDeliverMsg(chat, record, CInt(now), now, parse);
    }

    /**
     * fetch_chat_messages: queue the next history request, built from the room's
     * watermark as the account holds it now and the continuation token, if any.
     */
    method FetchChatMessages(chat: Chat, nextToken: Option<string>)
      modifies chat`msgsMsg
      ensures chat.msgsMsg == Some(FetchRequest(chat.room.id, account, nextToken))
    {
      var room := chat.room;
      var after := AccountString(account, LastRoomKey(room.id));
      var opts := QueryOpts(after, nextToken);
      var args := [Some("max-results"), Some(MaxResults), opts[0], opts[1], opts[2], opts[3], None];
      assert args == [Some("max-results"), Some(MaxResults)] + opts[..] + [None];
      chat.msgsMsg := Some(Request("/rooms/" + room.id + "/messages", QueryFields(args)));
    }

    /**
     * g_hash_table_foreach_remove(chat->messages, insert_queued_msg, &l): visit the
     * entries in whatever order the table yields them, put each one with a parsable
     * CreatedOn into the sorted list, and remove every entry, since the callback
     * always returns TRUE.
     */
    method DrainMessages(chat: Chat, parse: Parser) returns (l: seq<MsgSort>)
      requires chat.messages.Some?
      modifies chat`messages
      ensures chat.messages == Some(map[])
      ensures Sorted(l) && AllParsed(l, parse)
      ensures multiset(l) == Pending(old(chat.messages).value, parse)
    {
      l := [];
      ghost var table := chat.messages.value;
      while chat.messages.value != map[]
        invariant chat.messages.Some?
        invariant Sorted(l) && AllParsed(l, parse)
        invariant multiset(l) + Pending(chat.messages.value, parse) == Pending(table, parse)
        decreases |chat.messages.value|
      {
        var id :| id in chat.messages.value;
        var rest := chat.messages.value - {id};
        assert |rest| < |chat.messages.value| by { assert rest.Keys == chat.messages.value.Keys - {id}; }
        PendingRemove(chat.messages.value, id, parse);
        l := InsertQueuedMsg(l, chat.messages.value[id], parse);
        chat.messages := Some(rest);
      }
      assert Pending(map[], parse) == multiset{};
    }

    /**
     * The delivery loop of chime_complete_chat_setup: remove the head of the list and
     * deliver it with its own seconds as msg_time; when the list has become empty,
     * store that last element's CreatedOn under the room's watermark key.
     */
    method DeliverQueue(chat: Chat, l: seq<MsgSort>, now: int, parse: Parser)
      modifies this`ui, this`account
      ensures ui == old(ui) + DeliverAll(chat.convId, l, now, parse)
      ensures account == Watermark(old(account), LastRoomKey(chat.room.id), l)
    {
      var key := LastRoomKey(chat.room.id);
      var rest := l;
      ghost var done: seq<MsgSort> := [];
      while rest != []
        invariant l == done + rest
        invariant ui == old(ui) + DeliverAll(chat.convId, done, now, parse)
        invariant rest != [] ==> account == old(account)
        invariant rest == [] ==> account == Watermark(old(account), key, l)
        decreases |rest|
      {
        var ms := rest[0];
        var node := ms.node;
        ghost var before := ui;
        ChatDeliverMsg(chat, node, CInt(ms.tm.sec), now, parse);
        DeliverStep(old(ui), before, ui, chat.convId, done, ms, now, parse);
        rest := rest[1..];
        if rest == [] {
          WatermarkOfLast(old(account), key, done, ms);
          assert l == done + [ms];
          if node.createdOn.Some? {
            account := account[key := node.createdOn.value];
          }
        }
        done := done + [ms];
      }
      assert l == done + [] == done;
    }

    /**
     * chime_complete_chat_setup: drain the table into a list sorted by time, leaving
     * out entries without a parsable CreatedOn; drop the table; deliver the list front
     * to back; and on the last element note its CreatedOn as the room's watermark.
     */
    method CompleteChatSetup(chat: Chat, now: int, parse: Parser) returns (ghost batch: seq<MsgSort>)
      requires chat.messages.Some?
      modifies this`ui, this`account, chat`messages
      ensures chat.messages == None
      ensures Sorted(batch) && AllParsed(batch, parse)
      ensures multiset(batch) == Pending(old(chat.messages).value, parse)
      ensures ui == old(ui) + DeliverAll(chat.convId, batch, now, parse)
      ensures account == Watermark(old(account), LastRoomKey(chat.room.id), batch)
      ensures (forall i :: 0 <= i < |batch| ==> -TwoTo31 <= batch[i].tm.sec < TwoTo31) ==>
        InTimeOrder(ui[|old(ui)|..])
    {
      var l := DrainMessages(chat, parse);
      chat.messages := None;
      DeliverQueue(chat, l, now, parse);
      batch := l;
      if forall i :: 0 <= i < |batch| ==> -TwoTo31 <= batch[i].tm.sec < TwoTo31 {
        DeliveredInTimeOrder(chat.convId, batch, now, parse);
        assert ui[|old(ui)|..] == DeliverAll(chat.convId, batch, now, parse);
      }
    }

    /**
     * fetch_msgs_cb: the history request has answered. File the page's elements,
     * then either request the next page with its NextToken or complete catch-up.
     */
    method FetchMsgsCb(chat: Chat, page: Page, now: int, parse: Parser) returns (ghost batch: seq<MsgSort>)
      requires Valid() && chat.Valid() && chat.msgsMsg.Some?
      modifies this`ui, this`account, chat`messages, chat`msgsMsg
      ensures Valid() && chat.Valid()
      ensures page.nextToken.Some? ==>
        && chat.messages == Some(Ingest(old(chat.messages).value, page.messages))
        && chat.msgsMsg == Some(FetchRequest(chat.room.id, account, page.nextToken))
        && ui == old(ui) && account == old(account) && batch == []
      ensures page.nextToken.None? ==>
        && chat.messages == None && chat.msgsMsg == None
        && Sorted(batch) && AllParsed(batch, parse)
        && multiset(batch) == Pending(Ingest(old(chat.messages).value, page.messages), parse)
        && ui == old(ui) + DeliverAll(chat.convId, batch, now, parse)
        && account == Watermark(old(account), LastRoomKey(chat.room.id), batch)
      ensures page.nextToken.None? && (forall i :: 0 <= i < |batch| ==> -TwoTo31 <= batch[i].tm.sec < TwoTo31) ==>
        InTimeOrder(ui[|old(ui)|..])
    {
      chat.msgsMsg := None;
      ghost var table := chat.messages.value;
      for i := 0 to |page.messages|
        invariant chat.messages == Some(Ingest(table, page.messages[..i]))
        invariant chat.msgsMsg == None && ui == old(ui) && account == old(account)
      {
        chat.OneMsgCb(page.messages[i]);
        assert page.messages[..i + 1][..i] == page.messages[..i];
      }
      assert page.messages[..|page.messages|] == page.messages;
      if page.nextToken.Some? {
        FetchChatMessages(chat, page.nextToken);
        batch := [];
      } else {
        batch := CompleteChatSetup(chat, now, parse);
      }
    }

    /**
     * chime_purple_join_chat: nothing happens for an unknown room or one that already
     * has a chat. Otherwise a chat is created for the room under the next chat id,
     * registered in live_chats, given an empty table, subscribed to the room's channel,
     * and its first history request is queued without a token.
     */
    method JoinChat(roomId: string, name: string)
      requires Valid()
      modifies this, if roomId in rooms then {rooms[roomId]} else {}
      ensures Valid()
      ensures rooms == old(rooms) && account == old(account)
      ensures roomId !in rooms || old(rooms[roomId].chat) != null ==>
        && chatId == old(chatId) && liveChats == old(liveChats)
        && subscriptions == old(subscriptions) && ui == old(ui)
        && (roomId in rooms ==> rooms[roomId].chat == old(rooms[roomId].chat))
      ensures roomId in rooms && old(rooms[roomId].chat) == null ==>
        var room := rooms[roomId];
        && room.chat != null && fresh(room.chat) && room.chat.room == room
        && chatId == old(chatId) + 1 && room.chat.convId == chatId
        && liveChats == old(liveChats)[chatId := room.chat]
        && room.chat.messages == Some(map[])
        && room.chat.msgsMsg == Some(FetchRequest(room.id, account, None))
        && !room.chat.membersMsg
        && subscriptions == old(subscriptions) + {(room.channel, ChatData(room.chat))}
        && ui == old(ui) + [JoinedChat(chatId, name)]
    {
      if roomId !in rooms {
        return;
      }
      var room := rooms[roomId];
      if room.chat != null {
        return;
      }
      var chat := new Chat(room);
      room.chat := chat;
      chatId := chatId + 1;
      var id := chatId;
      ui := ui + [JoinedChat(id, name)];
      chat.convId := id;
      liveChats := liveChats[id := chat];
      chat.messages := Some(map[]);
      subscriptions := subscriptions + {(room.channel, ChatData(chat))};
      FetchChatMessages(chat, None);
    }

    /**
     * chime_destroy_chat: cancel the outstanding requests, unsubscribe, tell libpurple
     * the chat was left, remove the live_chats entry under the room's id key, discard
     * the table and detach the chat from its room.
     */
    method DestroyChat(chat: Chat)
      requires Valid() && chat.room.chat == chat
      modifies this, chat, chat.room
      ensures Valid()
      ensures chat.msgsMsg == None && !chat.membersMsg && chat.messages == None
      ensures chat.room.chat == null && chat.convId == old(chat.convId)
      ensures subscriptions == old(subscriptions) - {(chat.room.channel, RoomData(chat.room))}
      ensures ui == old(ui) + [ChatLeft(chat.convId)]
      ensures liveChats == old(liveChats) - {chat.room.idKey}
      ensures rooms == old(rooms) && account == old(account) && chatId == old(chatId)
    {
      var room := chat.room;
      var id := room.chat.convId;
      if chat.msgsMsg.Some? {
        chat.msgsMsg := None;
      }
      if chat.membersMsg {
        chat.membersMsg := false;
      }
      subscriptions := subscriptions - {(room.channel, RoomData(room))};
      ui := ui + [ChatLeft(id)];
      liveChats := liveChats - {room.idKey};
      if chat.messages.Some? {
        chat.messages := None;
      }
      room.chat := null;
    }

    /** chime_purple_chat_leave: destroy the chat live_chats holds under the purple chat id. */
    method ChatLeave(id: int)
      requires Valid() && id in liveChats && liveChats[id].room.chat == liveChats[id]
      modifies this, liveChats[id], liveChats[id].room
      ensures Valid()
      ensures var chat := old(liveChats[id]);
        && chat.msgsMsg == None && !chat.membersMsg && chat.messages == None
        && chat.room.chat == null && chat.convId == old(chat.convId)
        && subscriptions == old(subscriptions) - {(chat.room.channel, RoomData(chat.room))}
        && ui == old(ui) + [ChatLeft(chat.convId)]
        && liveChats == old(liveChats) - {chat.room.idKey}
      ensures rooms == old(rooms) && account == old(account) && chatId == old(chatId)
    {
      DestroyChat(liveChats[id]);
    }

    /**
     * Leaving a room's chat and joining the room again: the teardown clears room->chat,
     * so the second join is accepted and starts a fresh catch-up under the next chat id.
     */
    method LeaveThenJoin(roomId: string, name: string)
      requires Valid() && roomId in rooms && rooms[roomId].chat != null
      modifies this, rooms[roomId], rooms[roomId].chat
      ensures Valid() && rooms == old(rooms)
      ensures rooms[roomId].chat != null && fresh(rooms[roomId].chat)
      ensures rooms[roomId].chat.convId == chatId == old(chatId) + 1
      ensures rooms[roomId].chat.messages == Some(map[])
      ensures rooms[roomId].chat.msgsMsg == Some(FetchRequest(rooms[roomId].id, account, None))
    {
      var room := rooms[roomId];
      DestroyChat(room.chat);
      JoinChat(roomId, name);
    }
  }
}
