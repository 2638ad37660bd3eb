/** Counting the copies of one accepted Send in queues, responses and mailboxes. */
module Copies {
  import opened Mmtp
  import opened MailboxSpec
  import opened Routing
  import opened Network
  import opened NetworkInvariant

  function Sum<T>(q: seq<T>, w: T -> nat): nat {
    if q == [] then 0 else w(q[0]) + Sum(q[1..], w)
  }

  lemma {:induction false} SumConcat<T>(q: seq<T>, r: seq<T>, w: T -> nat)
    ensures Sum(q + r, w) == Sum(q, w) + Sum(r, w)
  {
    if q == [] {
      assert q + r == r;
    } else {
      SumConcat(q[1..], r, w);
      assert (q + r)[1..] == q[1..] + r;
    }
  }

  lemma SumSnoc<T>(q: seq<T>, x: T, w: T -> nat)
    ensures Sum(q + [x], w) == Sum(q, w) + w(x)
  {
    SumConcat(q, [x], w);
    assert [x][1..] == [];
  }

  lemma SumRepeat<T>(x: T, n: nat, w: T -> nat)
    requires n <= 1
    ensures Sum(seq(n, _ => x), w) == n * w(x)
  {
    if n == 1 {
      assert seq(n, _ => x) == [x] && [x][1..] == [];
    }
  }

  /** 1 of a Send that is a copy of `t`. */
  function TagCount(m: Message, t: SendId): nat {
    if AppOf(m).Some? && AppOf(m).value.tag == t then 1 else 0
  }

  lemma AtMostOneTag(m: Message, t: SendId)
    ensures TagCount(m, t) <= 1
  {
  }

  function Tagged(t: SendId): Message -> nat {
    (m: Message) => TagCount(m, t)
  }

  function InContent(t: SendId): Content -> nat {
    (c: Content) => if c.app.Some? && c.app.value.tag == t then 1 else 0
  }

  /** The copies of `t` in what an edge router goes on to deliver of a message. */
  function InReply(t: SendId): Message -> nat {
    (m: Message) => Sum(Delivering(m), InContent(t))
  }

  /** 1 of a publication of a copy of `t` by another router. */
  function Foreign(r: Router, t: SendId): Publication -> nat {
    (p: Publication) => if p.from != r then TagCount(p.m, t) else 0
  }

  function TaggedKeys(msgs: Store, t: SendId): set<string> {
    set u | u in msgs && TagCount(msgs[u], t) == 1
  }

  function CountStore(msgs: Store, t: SendId): nat {
    |TaggedKeys(msgs, t)|
  }

  function InStore(t: SendId): Store -> nat {
    (msgs: Store) => CountStore(msgs, t)
  }

  /** A write moves the copy it writes from the channel to the link, or leaves both counts alone. */
  lemma WriteCounts(o: Outbox, up: seq<Message>, written: bool, t: SendId)
    requires o.queue != [] && (TagCount(o.queue[0], t) == 1 ==> o.queue[0].msgType.ProtocolMessage?)
    ensures
      var m := o.queue[0];
      var up' := if written && m.msgType.ProtocolMessage? then up + [m] else up;
      var moved := if written then TagCount(m, t) else 0;
      && Sum(WriteFirst(o, written).queue, Tagged(t)) + moved == Sum(o.queue, Tagged(t))
      && Sum(up', Tagged(t)) == Sum(up, Tagged(t)) + moved
  {
    SumSnoc(up, o.queue[0], Tagged(t));
    SumSnoc(o.queue[1..], o.queue[0], Tagged(t));
  }

  lemma PopReply(q: seq<Message>, t: SendId)
    requires q != []
    ensures Sum(q, InReply(t)) == InReply(t)(q[0]) + Sum(q[1..], InReply(t))
  {
  }

  // ---- mailboxes ----

  lemma CountInsert(msgs: Store, u: string, m: Message, t: SendId)
    ensures CountStore(msgs[u := m], t) <= CountStore(msgs, t) + TagCount(m, t)
    ensures u !in msgs ==> CountStore(msgs[u := m], t) == CountStore(msgs, t) + TagCount(m, t)
    ensures TagCount(m, t) == 0 && (u in msgs ==> msgs[u] == m) ==> CountStore(msgs[u := m], t) == CountStore(msgs, t)
  {
    var before, later := TaggedKeys(msgs, t), TaggedKeys(msgs[u := m], t);
    if TagCount(m, t) == 1 {
      assert later == before + {u};
    } else {
      assert later == before - {u};
    }
  }

  lemma CountSplit(msgs: Store, part: Store, rest: Store, t: SendId)
    requires Within(part, msgs) && Within(rest, msgs) && part.Keys !! rest.Keys && part.Keys + rest.Keys == msgs.Keys
    ensures CountStore(part, t) + CountStore(rest, t) == CountStore(msgs, t)
  {
    assert TaggedKeys(msgs, t) == TaggedKeys(part, t) + TaggedKeys(rest, t);
    assert TaggedKeys(part, t) !! TaggedKeys(rest, t);
  }

  lemma CountWithin(part: Store, msgs: Store, t: SendId)
    requires Within(part, msgs)
    ensures CountStore(part, t) <= CountStore(msgs, t)
    ensures TaggedKeys(msgs, t) <= part.Keys ==> CountStore(part, t) == CountStore(msgs, t)
  {
    CountSplit(msgs, part, msgs - part.Keys, t);
    if TaggedKeys(msgs, t) <= part.Keys {
      assert TaggedKeys(msgs - part.Keys, t) == {};
    }
  }

  lemma CountPositive(msgs: Store, u: string, t: SendId)
    requires u in msgs && TagCount(msgs[u], t) == 1
    ensures CountStore(msgs, t) > 0
  {
    assert u in TaggedKeys(msgs, t);
  }

  lemma CountEmpty(t: SendId)
    ensures CountStore(map[], t) == 0
  {
  }

  /** The entries of a response carry as many copies as the mailbox loses. */
  lemma {:induction false} CountContents(sel: seq<string>, msgs: Store, t: SendId)
    requires Distinct(sel) && forall u :: u in sel ==> u in msgs
    ensures Sum(ContentsFor(sel, msgs), InContent(t)) + CountStore(msgs - SetOf(sel), t) == CountStore(msgs, t)
  {
    if sel == [] {
      assert msgs - SetOf(sel) == msgs;
    } else {
      var n := |sel| - 1;
      var u, rest := sel[n], msgs - SetOf(sel[..n]);
      CountContents(sel[..n], msgs, t);
      assert ContentsFor(sel, msgs) == ContentsFor(sel[..n], msgs) + [Content(u, AppOf(msgs[u]))];
      SumSnoc(ContentsFor(sel[..n], msgs), Content(u, AppOf(msgs[u])), InContent(t));
      assert sel == sel[..n] + [u];
      assert msgs - SetOf(sel) == rest - {u};
      assert u in rest;
      CountInsert(rest - {u}, u, msgs[u], t);
      assert (rest - {u})[u := msgs[u]] == rest;
    }
  }

  // ---- fan-out, seen by one consumer ----

  lemma CountFanOut<A>(boxes: map<A, Box>, targets: set<A>, m: Message, a: A, t: SendId)
    requires a in boxes
    ensures
      var before, later := CountStore(boxes[a].messages, t), CountStore(FanOut(boxes, targets, m)[a].messages, t);
      && before <= before + TagCount(m, t) && later <= before + TagCount(m, t)
      && (a !in targets ==> later == before)
      && (a in targets && m.uuid != "" && m.uuid !in boxes[a].messages ==> later == before + TagCount(m, t))
      && (TagCount(m, t) == 0 && (m.uuid in boxes[a].messages ==> boxes[a].messages[m.uuid] == m) ==> later == before)
  {
    CountInsert(boxes[a].messages, m.uuid, m, t);
  }

  /** The agent `a` of the edge router with this table gets a copy of every entry that is a copy of `t`. */
  ghost predicate GetsAll(table: Table<Agent>, a: Agent, contents: seq<Content>, t: SendId, now: int) {
    forall c :: c in contents && c.app.Some? && c.app.value.tag == t ==>
      InWindow(c.app.value, now) && a in LocalTargets(table, map[], {}, AddressOf(c.app.value))
  }

  lemma CountDeliverOne(boxes: map<Agent, Box>, table: Table<Agent>, c: Content, newId: string, now: int, a: Agent,
                        t: SendId)
    requires a in boxes
    ensures
      var later := DeliverOne(boxes, table, map[], {}, c, newId, now)[a].messages;
      && CountStore(later, t) <= CountStore(boxes[a].messages, t) + InContent(t)(c)
      && ((forall s :: a !in Subscribers(table, s)) ==> later == boxes[a].messages)
      && (GetsAll(table, a, [c], t, now) && newId != "" && newId !in boxes[a].messages ==>
           CountStore(later, t) == CountStore(boxes[a].messages, t) + InContent(t)(c))
      && (forall u :: u in later ==> u in boxes[a].messages || u == newId)
  {
    if c.app.Some? && InWindow(c.app.value, now) {
      CountFanOut(boxes, LocalTargets(table, map[], {}, AddressOf(c.app.value)), SendMessage(newId, c.app.value), a, t);
    }
    if GetsAll(table, a, [c], t, now) && c.app.Some? && c.app.value.tag == t {
      assert c in [c];
    }
  }

  lemma {:induction false} CountDeliver(boxes: map<Agent, Box>, table: Table<Agent>, contents: seq<Content>,
                                        newIds: seq<string>, now: int, a: Agent, t: SendId)
    requires a in boxes && |newIds| == |contents|
    ensures
      var later := Deliver(boxes, table, map[], {}, contents, newIds, now)[a].messages;
      && CountStore(later, t) <= CountStore(boxes[a].messages, t) + Sum(contents, InContent(t))
      && ((forall s :: a !in Subscribers(table, s)) ==> later == boxes[a].messages)
      && (forall u :: u in later ==> u in boxes[a].messages || u in newIds)
  {
    if contents != [] {
      var n := |contents| - 1;
      CountDeliver(boxes, table, contents[..n], newIds[..n], now, a, t);
      var mid := Deliver(boxes, table, map[], {}, contents[..n], newIds[..n], now);
      CountDeliverOne(mid, table, contents[n], newIds[n], now, a, t);
      assert contents == contents[..n] + [contents[n]];
      assert newIds == newIds[..n] + [newIds[n]];
      SumSnoc(contents[..n], contents[n], InContent(t));
    }
  }

  lemma {:induction false} CountDeliverExact(boxes: map<Agent, Box>, table: Table<Agent>, contents: seq<Content>,
                                             newIds: seq<string>, now: int, a: Agent, t: SendId)
    requires a in boxes && |newIds| == |contents|
    requires GetsAll(table, a, contents, t, now) && Distinct(newIds)
    requires forall u :: u in newIds ==> u != "" && u !in boxes[a].messages
    ensures CountStore(Deliver(boxes, table, map[], {}, contents, newIds, now)[a].messages, t)
         == CountStore(boxes[a].messages, t) + Sum(contents, InContent(t))
  {
    if contents != [] {
      var n := |contents| - 1;
      assert contents == contents[..n] + [contents[n]];
      assert newIds == newIds[..n] + [newIds[n]];
      assert newIds[n] !in newIds[..n] && forall u :: u in newIds[..n] ==> u in newIds;
      CountDeliverExact(boxes, table, contents[..n], newIds[..n], now, a, t);
      CountDeliver(boxes, table, contents[..n], newIds[..n], now, a, t);
      var mid := Deliver(boxes, table, map[], {}, contents[..n], newIds[..n], now);
      hide CountStore, DeliverOne;
      CountDeliverOne(mid, table, contents[n], newIds[n], now, a, t);
      SumSnoc(contents[..n], contents[n], InContent(t));
    }
  }
}
