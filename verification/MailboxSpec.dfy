/** The mailbox of a consumer (an agent at an edge router, an edge router at a router) as a value: what
    each operation of consumer/consumer.go does to the two maps, and the laws of those operations. */
module MailboxSpec {
  import opened Mmtp

  type Store = map<string, Message>

  datatype Box = Box(messages: Store, notifications: Store)

  /** Every key is the UUID of the Send stored under it, and that Send has a header. */
  ghost predicate WellFormed(b: Box) {
    && (forall u :: u in b.messages ==> Storable(u, b.messages[u]))
    && (forall u :: u in b.notifications ==> Storable(u, b.notifications[u]))
  }

  /** A UUID in both maps names the same message in both. */
  ghost predicate Consistent(b: Box) {
    forall u :: u in b.messages && u in b.notifications ==> b.messages[u] == b.notifications[u]
  }

  function SetOf(ids: seq<string>): set<string> {
    set x | x in ids
  }

  ghost predicate Distinct(ids: seq<string>) {
    forall i, j :: 0 <= i < j < |ids| ==> ids[i] != ids[j]
  }

  /** The entries that have not expired at `now`. */
  function Live(msgs: Store, now: int): Store {
    map u | u in msgs && now <= ExpiresOf(msgs[u]) :: msgs[u]
  }

  /** The stored messages among the requested ones. */
  function Requested(msgs: Store, ids: seq<string>): Store {
    map u | u in msgs && u in SetOf(ids) :: msgs[u]
  }

  function Queue(b: Box, m: Message): Box {
    if m.uuid == "" then b else Box(b.messages[m.uuid := m], b.notifications[m.uuid := m])
  }

  function ReceiveSome(b: Box, ids: seq<string>, written: bool): Box {
    Box(if written then b.messages - SetOf(ids) else b.messages,
        b.notifications - (SetOf(ids) * b.messages.Keys))
  }

  function ReceiveAll(b: Box, now: int, written: bool): Box {
    Box(if written then map[] else b.messages, b.notifications - Live(b.messages, now).Keys)
  }

  /** Receiving by UUIDs, or everything when none is named. */
  function BoxAfterReceive(b: Box, ids: seq<string>, now: int, written: bool): Box {
    if ids == [] then ReceiveAll(b, now, written) else ReceiveSome(b, ids, written)
  }

  /** Both a fetch and a garbage collection leave the live messages and every notification. */
  function Expire(b: Box, now: int): Box {
    Box(Live(b.messages, now), b.notifications)
  }

  function NotifyAll(b: Box, written: bool): Box {
    Box(b.messages, if written then map[] else b.notifications)
  }

  /** The stored UUIDs among `ids`, in the order in which a filtered receive meets them. */
  function Selected(ids: seq<string>, keys: set<string>): seq<string> {
    if ids == [] then []
    else
      var before := Selected(ids[..|ids| - 1], keys);
      var x := ids[|ids| - 1];
      if x in keys && x !in before then before + [x] else before
  }

  function FirstIndex(ids: seq<string>, x: string): (i: nat)
    requires x in ids
    ensures i < |ids| && ids[i] == x && forall k :: 0 <= k < i ==> ids[k] != x
  {
    if ids[0] == x then 0 else 1 + FirstIndex(ids[1..], x)
  }

  /** A filtered receive answers exactly the requested UUIDs that are stored, each once, ordered by
      where the request mentions them first. */
  lemma {:induction false} SelectedExact(ids: seq<string>, keys: set<string>)
    ensures Distinct(Selected(ids, keys))
    ensures SetOf(Selected(ids, keys)) == SetOf(ids) * keys
    ensures forall x :: x in Selected(ids, keys) ==> x in ids
    ensures forall i, j :: 0 <= i < j < |Selected(ids, keys)| ==>
      FirstIndex(ids, Selected(ids, keys)[i]) < FirstIndex(ids, Selected(ids, keys)[j])
  {
    if ids != [] {
      var n := |ids| - 1;
      var before := Selected(ids[..n], keys);
      SelectedExact(ids[..n], keys);
      var sel := Selected(ids, keys);
      assert ids == ids[..n] + [ids[n]];
      assert forall x :: x in before <==> x in SetOf(before);
      forall x ensures x in SetOf(sel) <==> x in SetOf(ids) * keys {
        assert x in ids <==> x in ids[..n] || x == ids[n];
        assert x in before <==> x in ids[..n] && x in keys;
      }
      forall x | x in before ensures FirstIndex(ids, x) == FirstIndex(ids[..n], x) {
        FirstIndexUnique(ids, x, FirstIndex(ids[..n], x));
      }
      if sel != before {
        forall k | 0 <= k < n ensures ids[k] != ids[n] { assert ids[k] in ids[..n]; }
        FirstIndexUnique(ids, ids[n], n);
      }
    }
  }

  lemma FirstIndexUnique(ids: seq<string>, x: string, k: nat)
    requires k < |ids| && ids[k] == x && forall j :: 0 <= j < k ==> ids[j] != x
    ensures FirstIndex(ids, x) == k
  {
    var i := FirstIndex(ids, x);
    assert ids[i] == x;
  }

  /** The order and the set determine the answer: nothing else fits the description above. */
  lemma {:induction false} SelectionUnique(a: seq<string>, b: seq<string>, ids: seq<string>)
    requires forall x :: x in a <==> x in b
    requires forall x :: x in a ==> x in ids
    requires forall i, j :: 0 <= i < j < |a| ==> FirstIndex(ids, a[i]) < FirstIndex(ids, a[j])
    requires forall i, j :: 0 <= i < j < |b| ==> FirstIndex(ids, b[i]) < FirstIndex(ids, b[j])
    ensures a == b
  {
    assert |b| > 0 ==> b[0] in a;
    assert |a| > 0 ==> a[0] in b;
    if a != [] {
      var i :| 0 <= i < |b| && b[i] == a[0];
      var j :| 0 <= j < |a| && a[j] == b[0];
      assert a[0] == b[0];
      assert a[0] !in a[1..] && b[0] !in b[1..];
      assert a == [a[0]] + a[1..] && b == [b[0]] + b[1..];
      forall x ensures x in a[1..] <==> x in b[1..] {
        assert x in a[1..] <==> x in a && x != a[0];
        assert x in b[1..] <==> x in b && x != b[0];
      }
      SelectionUnique(a[1..], b[1..], ids);
    }
  }
}
