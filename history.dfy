/**
 * History fetching: how one_msg_cb files page elements into the buffer table, and how
 * fetch_chat_messages builds the query of the next history request.
 */
module History {
  import opened Wrappers
  import opened Json

  /** g_hash_table_insert keyed by an optional MessageId: nothing happens without an id, and an existing entry is replaced. */
  function Insert(table: map<string, Node>, id: Option<string>, node: Node): map<string, Node> {
    if id.Some? then table[id.value := node] else table
  }

  /** The table after one_msg_cb has run on each element in array order. */
  function Ingest(table: map<string, Node>, elems: seq<Node>): map<string, Node> {
    if elems == [] then table
    else
      var e := elems[|elems| - 1];
      Insert(Ingest(table, elems[..|elems| - 1]), e.messageId, e)
  }

  /** The MessageIds the elements carry. */
  function Ids(elems: seq<Node>): set<string> {
    set i | 0 <= i < |elems| && elems[i].messageId.Some? :: elems[i].messageId.value
  }

  /** Ingestion adds exactly the keys of the elements that carry a MessageId. */
  lemma {:induction false} IngestKeys(table: map<string, Node>, elems: seq<Node>)
    ensures Ingest(table, elems).Keys == table.Keys + Ids(elems)
  {
    if elems != [] {
      var init := elems[..|elems| - 1];
      IngestKeys(table, init);
      var e := elems[|elems| - 1];
      forall k ensures k in Ids(elems) <==> k in Ids(init) || e.messageId == Some(k) {
        if k in Ids(elems) {
          var i :| 0 <= i < |elems| && elems[i].messageId == Some(k);
          if i < |elems| - 1 {
            assert init[i] == elems[i];
          }
        }
        if k in Ids(init) {
          var i :| 0 <= i < |init| && init[i].messageId == Some(k);
          assert elems[i] == init[i];
        }
      }
    }
  }

  /** A key no element carries keeps its old entry. */
  lemma {:induction false} IngestKeepsOthers(table: map<string, Node>, elems: seq<Node>, k: string)
    requires k in table
    requires forall i :: 0 <= i < |elems| ==> elems[i].messageId != Some(k)
    ensures k in Ingest(table, elems) && Ingest(table, elems)[k] == table[k]
  {
    if elems != [] {
      IngestKeepsOthers(table, elems[..|elems| - 1], k);
    }
  }

  /** The last element carrying an id is the one the table holds for it: a later insert replaces an earlier one. */
  lemma {:induction false} IngestLastWins(table: map<string, Node>, elems: seq<Node>, i: int)
    requires 0 <= i < |elems| && elems[i].messageId.Some?
    requires forall j :: i < j < |elems| ==> elems[j].messageId != elems[i].messageId
    ensures elems[i].messageId.value in Ingest(table, elems)
    ensures Ingest(table, elems)[elems[i].messageId.value] == elems[i]
  {
    if i < |elems| - 1 {
      IngestLastWins(table, elems[..|elems| - 1], i);
    }
  }

  /** The account setting "last-room-<room id>" that holds a room's watermark. */
  function LastRoomKey(roomId: string): string {
    "last-room-" + roomId
  }

  /** purple_account_get_string(account, key, NULL). */
  function AccountString(account: map<string, string>, key: string): Option<string> {
    if key in account then Some(account[key]) else None
  }

  /** The four optional query slots opts[0..3] filled by fetch_chat_messages. */
  function Opts(after: Option<string>, nextToken: Option<string>): seq<Option<string>> {
    var a := if after.Some? && after.value != "" then [Some("after"), after] else [];
    var t := if nextToken.Some? then [Some("next-token"), nextToken] else [];
    a + t + seq(4 - |a + t|, _ => None)
  }

  /**
   * fetch_chat_messages' filling of opts: the "after" pair when the stored watermark
   * is non-empty, then the "next-token" pair when a token is given, then NULLs.
   */
  method QueryOpts(after: Option<string>, nextToken: Option<string>) returns (opts: array<Option<string>>)
    ensures opts.Length == 4
    ensures opts[..] == Opts(after, nextToken)
  {
    opts := new Option<string>[4];
    var i := 0;
    if after.Some? && after.value != "" {
      opts[i] := Some("after");
      i := i + 1;
      opts[i] := after;
      i := i + 1;
    }
    if nextToken.Some? {
      opts[i] := Some("next-token");
      i := i + 1;
      opts[i] := nextToken;
      i := i + 1;
    }
    ghost var filled := opts[..i];
    assert filled + seq(4 - i, _ => None) == Opts(after, nextToken);
    while i < 4
      invariant |filled| <= i <= 4
      invariant opts[..|filled|] == filled
      invariant forall j :: |filled| <= j < i ==> opts[j] == None
    {
      opts[i] := None;
      i := i + 1;
    }
    assert opts[..] == filled + seq(4 - |filled|, _ => None);
  }

  /**
   * The name/value pairs soup_uri_set_query_from_fields takes from its variadic
   * arguments: pairs are read until a NULL name or value.
   */
  function QueryFields(args: seq<Option<string>>): seq<(string, string)>
    decreases |args|
  {
    if |args| < 2 || args[0].None? || args[1].None? then []
    else [(args[0].value, args[1].value)] + QueryFields(args[2..])
  }

  /** The page size every history request asks for. */
  const MaxResults := "50"

  /** The query of one history request: "max-results", "50", opts[0..3], NULL. */
  function Query(after: Option<string>, nextToken: Option<string>): seq<(string, string)> {
    QueryFields([Some("max-results"), Some(MaxResults)] + Opts(after, nextToken) + [None])
  }

  /** A history request: the path "/rooms/<id>/messages" and its query pairs. */
  datatype Request = Request(path: string, query: seq<(string, string)>)

  /** The request fetch_chat_messages queues, re-reading the room's watermark from the account. */
  function FetchRequest(roomId: string, account: map<string, string>, nextToken: Option<string>): Request {
    Request("/rooms/" + roomId + "/messages",
            Query(AccountString(account, LastRoomKey(roomId)), nextToken))
  }

  /**
   * Every request asks for 50 results; it carries "after" only for a non-empty
   * watermark and "next-token" only for a given token, in that order.
   */
  lemma QueryPairs(after: Option<string>, nextToken: Option<string>)
    ensures Query(after, nextToken)
         == [("max-results", "50")]
          + (if after.Some? && after.value != "" then [("after", after.value)] else [])
          + (if nextToken.Some? then [("next-token", nextToken.value)] else [])
  {
    var args := [Some("max-results"), Some(MaxResults)] + Opts(after, nextToken) + [None];
    var hasA, hasT := after.Some? && after.value != "", nextToken.Some?;
    assert |args| == 7;
    assert QueryFields(args) == [("max-results", "50")] + QueryFields(args[2..]);
    if hasA && hasT {
      assert QueryFields(args[2..]) == [("after", after.value)] + QueryFields(args[4..]);
      assert QueryFields(args[4..]) == [("next-token", nextToken.value)] + QueryFields(args[6..]);
      assert args[6..] == [None];
    } else if hasA {
      assert QueryFields(args[2..]) == [("after", after.value)] + QueryFields(args[4..]);
      assert args[4] == None;
    } else if hasT {
      assert QueryFields(args[2..]) == [("next-token", nextToken.value)] + QueryFields(args[4..]);
      assert args[4] == None;
    } else {
      assert args[2] == None;
    }
  }
}
