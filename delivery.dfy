/**
 * Delivery to the conversation: chat_deliver_msg, the catch-up delivery loop of
 * chime_complete_chat_setup and the watermark it writes.
 */
module Delivery {
  import opened Wrappers
  import opened Json
  import opened Ordering

  /** What the connection tells libpurple: a chat joined, a message received, a chat left. */
  datatype UiEvent =
    | JoinedChat(chatId: int, name: string)
    | ChatIn(chatId: int, who: string, text: string, time: int)
    | ChatLeft(chatId: int)

  /** The sender name every delivered message is shown with. */
  const Someone := "someone"

  const TwoTo32 := 0x1_0000_0000
  const TwoTo31 := 0x8000_0000

  /**
   * Conversion of a time_t or glong second count to a C int, the type of msg_time:
   * two's complement wrap-around, as the compilers the plugin is built with do it.
   */
  function CInt(x: int): (r: int)
    ensures -TwoTo31 <= r < TwoTo31
    ensures (x - r) % TwoTo32 == 0
    ensures -TwoTo31 <= x < TwoTo31 ==> r == x
  {
    var m := x % TwoTo32;
    if m >= TwoTo31 then m - TwoTo32 else m
  }

  /**
   * The time chat_deliver_msg stamps a message with: msg_time unless it is 0, in which
   * case the node's CreatedOn seconds, or the clock when CreatedOn is missing or does
   * not parse.
   */
  function DeliverTime(node: Node, msgTime: int, now: int, parse: Parser): int {
    if msgTime != 0 then msgTime
    else if node.createdOn.None? || parse(node.createdOn.value).None? then CInt(now)
    else CInt(parse(node.createdOn.value).value.sec)
  }

  /** chat_deliver_msg: one message in the conversation when the node has a Content string, nothing otherwise. */
  function DeliverMsg(chatId: int, node: Node, msgTime: int, now: int, parse: Parser): seq<UiEvent> {
    if node.content.Some? then [ChatIn(chatId, Someone, node.content.value, DeliverTime(node, msgTime, now, parse))]
    else []
  }

  /** The delivery loop of chime_complete_chat_setup: each list element in turn, with its own seconds as msg_time. */
  function DeliverAll(chatId: int, l: seq<MsgSort>, now: int, parse: Parser): seq<UiEvent> {
    if l == [] then []
    else
      var last := l[|l| - 1];
      DeliverAll(chatId, l[..|l| - 1], now, parse) + DeliverMsg(chatId, last.node, CInt(last.tm.sec), now, parse)
  }

  /** One turn of the delivery loop: delivering one more element appends its message. */
  lemma DeliverStep(base: seq<UiEvent>, before: seq<UiEvent>, after: seq<UiEvent>,
                    chatId: int, done: seq<MsgSort>, x: MsgSort, now: int, parse: Parser)
    requires before == base + DeliverAll(chatId, done, now, parse)
    requires after == before + DeliverMsg(chatId, x.node, CInt(x.tm.sec), now, parse)
    ensures after == base + DeliverAll(chatId, done + [x], now, parse)
  {
    assert (done + [x])[..|done|] == done;
  }

  /** The batch as the conversation should see it: each entry's Content, front to back, at its own seconds. */
  function Expected(chatId: int, l: seq<MsgSort>): seq<UiEvent> {
    if l == [] then []
    else
      (if l[0].node.content.Some? then [ChatIn(chatId, Someone, l[0].node.content.value, CInt(l[0].tm.sec))] else [])
      + Expected(chatId, l[1..])
  }

  lemma {:induction false} ExpectedAppend(chatId: int, l: seq<MsgSort>, x: MsgSort)
    ensures Expected(chatId, l + [x]) == Expected(chatId, l) + Expected(chatId, [x])
  {
    if l != [] {
      assert (l + [x])[1..] == l[1..] + [x];
      ExpectedAppend(chatId, l[1..], x);
    }
  }

  /**
   * Delivering a batch of parsed entries shows exactly the expected messages: the
   * re-parse a zero msg_time triggers gives back the same seconds, so the clock
   * is never consulted.
   */
  lemma {:induction false} BatchOutput(chatId: int, l: seq<MsgSort>, now: int, parse: Parser)
    requires AllParsed(l, parse)
    ensures DeliverAll(chatId, l, now, parse) == Expected(chatId, l)
  {
    if l != [] {
      var init, last := l[..|l| - 1], l[|l| - 1];
      assert l == init + [last];
      assert AllParsed(init, parse) by {
        forall i | 0 <= i < |init| ensures Parsed(init[i], parse) {
          assert init[i] == l[i];
        }
      }
      BatchOutput(chatId, init, now, parse);
      assert Parsed(l[|l| - 1], parse);
      ExpectedAppend(chatId, init, last);
    }
  }

  /** Every message of the expected output is stamped with at least t when every entry's seconds are. */
  lemma {:induction false} ExpectedTimesAtLeast(chatId: int, l: seq<MsgSort>, t: int)
    requires forall i :: 0 <= i < |l| ==> t <= l[i].tm.sec < TwoTo31
    requires -TwoTo31 <= t
    ensures forall e :: e in Expected(chatId, l) ==> e.ChatIn? && t <= e.time
  {
    if l != [] {
      ExpectedTimesAtLeast(chatId, l[1..], t);
    }
  }

  /** Only messages, stamped with non-decreasing times. */
  predicate InTimeOrder(out: seq<UiEvent>) {
    && (forall i :: 0 <= i < |out| ==> out[i].ChatIn?)
    && (forall i, j :: 0 <= i < j < |out| ==> out[i].time <= out[j].time)
  }

  /** A message no later than every message of an ordered output can go in front of it. */
  lemma ConsInTimeOrder(e: UiEvent, rest: seq<UiEvent>)
    requires e.ChatIn? && InTimeOrder(rest)
    requires forall x :: x in rest ==> x.ChatIn? && e.time <= x.time
    ensures InTimeOrder([e] + rest)
  {
    var out := [e] + rest;
    forall i | 0 < i < |out| ensures out[i].ChatIn? {
      assert out[i] == rest[i - 1];
    }
    forall i, j | 0 <= i < j < |out| ensures out[i].time <= out[j].time {
      assert out[j] == rest[j - 1];
      if i > 0 {
        assert out[i] == rest[i - 1];
      } else {
        assert out[j] in rest;
      }
    }
  }

  /**
   * A sorted batch is shown in non-decreasing time order, as long as its seconds fit
   * in a C int (otherwise msg_time wraps).
   */
  lemma {:induction false} ExpectedNonDecreasing(chatId: int, l: seq<MsgSort>)
    requires Sorted(l)
    requires forall i :: 0 <= i < |l| ==> -TwoTo31 <= l[i].tm.sec < TwoTo31
    ensures InTimeOrder(Expected(chatId, l))
  {
    if l != [] {
      var tail := l[1..];
      assert Sorted(tail);
      ExpectedNonDecreasing(chatId, tail);
      forall i | 0 <= i < |tail| ensures l[0].tm.sec <= tail[i].tm.sec < TwoTo31 {
        assert tail[i] == l[i + 1];
        assert CompareMs(l[0].tm, l[i + 1].tm) == 0;
      }
      ExpectedTimesAtLeast(chatId, tail, l[0].tm.sec);
      if l[0].node.content.Some? {
        ConsInTimeOrder(ChatIn(chatId, Someone, l[0].node.content.value, CInt(l[0].tm.sec)), Expected(chatId, tail));
      }
    }
  }

  /**
   * What the delivery loop shows for a sorted batch of parsed entries whose seconds fit
   * a C int: only messages, with non-decreasing times.
   */
  lemma DeliveredInTimeOrder(chatId: int, l: seq<MsgSort>, now: int, parse: Parser)
    requires Sorted(l) && AllParsed(l, parse)
    requires forall i :: 0 <= i < |l| ==> -TwoTo31 <= l[i].tm.sec < TwoTo31
    ensures InTimeOrder(DeliverAll(chatId, l, now, parse))
  {
    BatchOutput(chatId, l, now, parse);
    ExpectedNonDecreasing(chatId, l);
  }

  /**
   * The account after the loop: "last-room-<id>" set to the last delivered entry's
   * CreatedOn, written once when the last element is removed, and not at all for an
   * empty batch.
   */
  function Watermark(account: map<string, string>, key: string, l: seq<MsgSort>): map<string, string> {
    if l != [] && l[|l| - 1].node.createdOn.Some? then account[key := l[|l| - 1].node.createdOn.value]
    else account
  }

  /** The watermark of a list is written from its last element alone. */
  lemma WatermarkOfLast(account: map<string, string>, key: string, init: seq<MsgSort>, x: MsgSort)
    ensures Watermark(account, key, init + [x])
         == if x.node.createdOn.Some? then account[key := x.node.createdOn.value] else account
  {
    assert (init + [x])[|init|] == x;
  }

  /** For a batch of parsed entries the watermark is written exactly when the batch is non-empty, and no other key changes. */
  lemma WatermarkWritten(account: map<string, string>, key: string, l: seq<MsgSort>, parse: Parser)
    requires AllParsed(l, parse)
    ensures l == [] ==> Watermark(account, key, l) == account
    ensures l != [] ==> key in Watermark(account, key, l)
    ensures l != [] ==> Watermark(account, key, l)[key] == l[|l| - 1].node.createdOn.value
    ensures l != [] ==> parse(Watermark(account, key, l)[key]) == Some(l[|l| - 1].tm)
    ensures forall k :: k != key ==> (k in Watermark(account, key, l) <==> k in account)
    ensures forall k :: k != key && k in account ==> Watermark(account, key, l)[k] == account[k]
  {
    if l != [] {
      assert Parsed(l[|l| - 1], parse);
    }
  }
}
