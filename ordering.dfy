/**
 * Sorting the catch-up batch: compare_ms, the ordered insert insert_queued_msg
 * performs with it, and the multiset of entries a drained table contributes.
 */
module Ordering {
  import opened Wrappers
  import opened Json

  /** GTimeVal: seconds and microseconds. */
  datatype TimeVal = TimeVal(sec: int, usec: int)

  /**
   * g_time_val_from_iso8601, which is not part of this model: a partial function
   * from a CreatedOn string to a time, None where the string does not parse.
   */
  type Parser = string -> Option<TimeVal>

  /** struct msg_sort: the parsed time of a queued node and the node itself. */
  datatype MsgSort = MsgSort(tm: TimeVal, node: Node)

  /** A time whose microsecond part is in range, as a parsed ISO 8601 time has it. */
  predicate Normal(t: TimeVal) {
    0 <= t.usec < 1000000
  }

  /** The time as one count of microseconds. */
  function Micros(t: TimeVal): int {
    t.sec * 1000000 + t.usec
  }

  /**
   * compare_ms: 1 when a is strictly later than b, 0 otherwise; never negative.
   * On normal times this is the order of their microsecond counts.
   */
  function CompareMs(a: TimeVal, b: TimeVal): (r: int)
    ensures r == 0 || r == 1
    ensures Normal(a) && Normal(b) ==> (r == 1 <==> Micros(a) > Micros(b))
  {
    if a.sec > b.sec then 1
    else if a.sec == b.sec && a.usec > b.usec then 1
    else 0
  }

  /** compare_ms orders times as a total preorder: "not later than" is reflexive, total and transitive. */
  lemma CompareMsPreorder(a: TimeVal, b: TimeVal, c: TimeVal)
    ensures CompareMs(a, a) == 0
    ensures CompareMs(a, b) == 0 || CompareMs(b, a) == 0
    ensures CompareMs(a, b) == 0 && CompareMs(b, c) == 0 ==> CompareMs(a, c) == 0
  {
  }

  /** Non-decreasing by time: no element is strictly later than any element after it. */
  predicate Sorted(l: seq<MsgSort>) {
    forall i, j :: 0 <= i < j < |l| ==> CompareMs(l[i].tm, l[j].tm) == 0
  }

  /**
   * g_list_insert_sorted(l, ms, compare_ms): walk past every element ms is strictly
   * later than and insert ms before the first one it is not (so before equal times).
   */
  function InsertSorted(l: seq<MsgSort>, ms: MsgSort): (r: seq<MsgSort>)
    ensures multiset(r) == multiset(l) + multiset{ms}
    ensures Sorted(l) ==> Sorted(r)
  {
    if l == [] then [ms]
    else if CompareMs(ms.tm, l[0].tm) > 0 then
      var rest := InsertSorted(l[1..], ms);
      InsertAfterHead(l, ms, rest);
      [l[0]] + rest
    else
      InsertAtHead(l, ms);
      [ms] + l
  }

  /** The walking step of InsertSorted: the head stays in front of the rest with ms inserted. */
  lemma InsertAfterHead(l: seq<MsgSort>, ms: MsgSort, rest: seq<MsgSort>)
    requires l != [] && CompareMs(ms.tm, l[0].tm) > 0
    requires multiset(rest) == multiset(l[1..]) + multiset{ms}
    requires Sorted(l[1..]) ==> Sorted(rest)
    ensures multiset([l[0]] + rest) == multiset(l) + multiset{ms}
    ensures Sorted(l) ==> Sorted([l[0]] + rest)
  {
    assert l == [l[0]] + l[1..];
    if Sorted(l) {
      assert Sorted(l[1..]);
      forall j | 0 <= j < |rest| ensures CompareMs(l[0].tm, rest[j].tm) == 0 {
        assert rest[j] in multiset(rest);
        if rest[j] != ms {
          assert rest[j] in l[1..];
          var i :| 0 <= i < |l[1..]| && l[1..][i] == rest[j];
          assert l[i + 1] == rest[j];
        }
      }
      var r := [l[0]] + rest;
      forall i, j | 0 <= i < j < |r| ensures CompareMs(r[i].tm, r[j].tm) == 0 {
        if i > 0 {
          assert r[i] == rest[i - 1] && r[j] == rest[j - 1];
        } else {
          assert r[j] == rest[j - 1];
        }
      }
    }
  }

  /** The stopping step of InsertSorted: ms is not later than the head, so not later than any element. */
  lemma InsertAtHead(l: seq<MsgSort>, ms: MsgSort)
    requires l != [] && CompareMs(ms.tm, l[0].tm) == 0
    ensures Sorted(l) ==> Sorted([ms] + l)
  {
    if Sorted(l) {
      var r := [ms] + l;
      forall i, j | 0 <= i < j < |r| ensures CompareMs(r[i].tm, r[j].tm) == 0 {
        if i > 0 {
          assert r[i] == l[i - 1] && r[j] == l[j - 1];
        } else if j > 1 {
          assert r[j] == l[j - 1];
          assert CompareMs(l[0].tm, l[j - 1].tm) == 0;
        }
      }
    }
  }

  /** The node's CreatedOn is present and parses to the queued time. */
  predicate Parsed(ms: MsgSort, parse: Parser) {
    ms.node.createdOn.Some? && parse(ms.node.createdOn.value) == Some(ms.tm)
  }

  predicate AllParsed(l: seq<MsgSort>, parse: Parser) {
    forall i :: 0 <= i < |l| ==> Parsed(l[i], parse)
  }

  /** The entry insert_queued_msg makes of a node: none when CreatedOn is missing or does not parse. */
  function Queued(node: Node, parse: Parser): Option<MsgSort> {
    if node.createdOn.Some? && parse(node.createdOn.value).Some? then
      Some(MsgSort(parse(node.createdOn.value).value, node))
    else None
  }

  function AsMultiset(o: Option<MsgSort>): multiset<MsgSort> {
    if o.Some? then multiset{o.value} else multiset{}
  }

  /**
   * insert_queued_msg: the list with the node's entry put in its place, or the list
   * unchanged when the node is left out.
   */
  function InsertQueuedMsg(l: seq<MsgSort>, node: Node, parse: Parser): (r: seq<MsgSort>)
    ensures multiset(r) == multiset(l) + AsMultiset(Queued(node, parse))
    ensures Sorted(l) ==> Sorted(r)
    ensures AllParsed(l, parse) ==> AllParsed(r, parse)
    ensures (node.createdOn.None? || parse(node.createdOn.value).None?) ==> r == l
  {
    match Queued(node, parse)
    case None => l
    case Some(ms) =>
      var r := InsertSorted(l, ms);
      assert forall i :: 0 <= i < |r| ==> r[i] in l || r[i] == ms by {
        forall i | 0 <= i < |r| ensures r[i] in l || r[i] == ms {
          assert r[i] in multiset(r);
        }
      }
      r
  }

  /** Some key of a non-empty table. */
  ghost function PickKey(m: map<string, Node>): (k: string)
    requires m != map[]
    ensures k in m
  {
    assert m.Keys != {};
    var k :| k in m; k
  }

  /** The entries that draining table m into the batch list contributes, whatever the visiting order. */
  ghost function Pending(m: map<string, Node>, parse: Parser): multiset<MsgSort>
    decreases |m|
  {
    if m == map[] then multiset{}
    else
      var k := PickKey(m);
      assert |m - {k}| < |m| by { assert (m - {k}).Keys == m.Keys - {k}; }
      AsMultiset(Queued(m[k], parse)) + Pending(m - {k}, parse)
  }

  /** Removing any key first gives the same batch: the drain order does not matter. */
  lemma {:induction false} PendingRemove(m: map<string, Node>, k: string, parse: Parser)
    requires k in m
    ensures Pending(m, parse) == AsMultiset(Queued(m[k], parse)) + Pending(m - {k}, parse)
    decreases |m|
  {
    var j := PickKey(m);
    assert |m - {j}| < |m| by { assert (m - {j}).Keys == m.Keys - {j}; }
    if j != k {
      var rest := m - {j} - {k};
      assert rest == m - {k} - {j};
      assert (m - {j})[k] == m[k] && (m - {k})[j] == m[j];
      PendingRemove(m - {j}, k, parse);
      PendingRemove(m - {k}, j, parse);
      var qj, qk := AsMultiset(Queued(m[j], parse)), AsMultiset(Queued(m[k], parse));
      calc {
        Pending(m, parse);
        qj + Pending(m - {j}, parse);
        qj + (qk + Pending(rest, parse));
        qk + (qj + Pending(rest, parse));
        qk + Pending(m - {k}, parse);
      }
    }
  }

  /** The batch holds exactly the entries of the table's nodes whose CreatedOn parses. */
  lemma {:induction false} PendingMembers(m: map<string, Node>, parse: Parser, ms: MsgSort)
    ensures ms in Pending(m, parse) <==> exists k :: k in m && Queued(m[k], parse) == Some(ms)
    decreases |m|
  {
    if m != map[] {
      var j := PickKey(m);
      assert |m - {j}| < |m| by { assert (m - {j}).Keys == m.Keys - {j}; }
      PendingMembers(m - {j}, parse, ms);
      if ms in Pending(m, parse) {
        if ms in Pending(m - {j}, parse) {
          var k :| k in m - {j} && Queued((m - {j})[k], parse) == Some(ms);
          assert k in m && Queued(m[k], parse) == Some(ms);
        } else {
          assert Queued(m[j], parse) == Some(ms);
        }
      } else {
        forall k | k in m ensures Queued(m[k], parse) != Some(ms) {
          if k != j {
            assert k in m - {j};
          }
        }
      }
    }
  }

  /** The keys of m whose nodes make an entry. */
  ghost function QueuedKeys(m: map<string, Node>, parse: Parser): set<string> {
    set k | k in m && Queued(m[k], parse).Some?
  }

  /** Taking key j out of the table takes j, and only j, out of the queued keys. */
  lemma QueuedKeysRemove(m: map<string, Node>, j: string, parse: Parser)
    requires j in m
    ensures QueuedKeys(m, parse) == QueuedKeys(m - {j}, parse) + (if Queued(m[j], parse).Some? then {j} else {})
    ensures j !in QueuedKeys(m - {j}, parse)
  {
  }

  /** A table has no more queued keys than keys. */
  lemma {:induction false} QueuedKeysBound(m: map<string, Node>, parse: Parser)
    ensures |QueuedKeys(m, parse)| <= |m|
    decreases |m|
  {
    if m != map[] {
      var j := PickKey(m);
      assert |m - {j}| < |m| by { assert (m - {j}).Keys == m.Keys - {j}; }
      QueuedKeysBound(m - {j}, parse);
      QueuedKeysRemove(m, j, parse);
    }
  }

  /** One entry per queued key, so at most one per MessageId. */
  lemma {:induction false} PendingSize(m: map<string, Node>, parse: Parser)
    ensures |Pending(m, parse)| == |QueuedKeys(m, parse)| <= |m|
    decreases |m|
  {
    QueuedKeysBound(m, parse);
    if m == map[] {
      assert QueuedKeys(m, parse) == {};
    } else {
      var j := PickKey(m);
      assert |m - {j}| < |m| by { assert (m - {j}).Keys == m.Keys - {j}; }
      PendingSize(m - {j}, parse);
      QueuedKeysRemove(m, j, parse);
    }
  }

  /**
   * A node buffered without a CreatedOn of its own (chat_msg_cb buffers the outer
   * event object rather than its record) contributes nothing to the batch.
   */
  lemma UntimedNodeLeftOut(m: map<string, Node>, k: string, n: Node, parse: Parser)
    requires n.createdOn.None?
    ensures Pending(m[k := n], parse) == Pending(m - {k}, parse)
  {
    PendingRemove(m[k := n], k, parse);
    assert m[k := n] - {k} == m - {k};
  }

  /** Every entry of the batch carries the time its own CreatedOn parses to. */
  lemma PendingParsed(m: map<string, Node>, parse: Parser, ms: MsgSort)
    requires ms in Pending(m, parse)
    ensures Parsed(ms, parse)
  {
    PendingMembers(m, parse, ms);
  }
}
