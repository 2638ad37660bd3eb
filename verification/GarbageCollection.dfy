/** Garbage collection of a mailbox is unobservable: inserting or removing any number of collections in a run
    leaves every answer to a fetch and to an unfiltered receive as it was, and the live part of every other. */
module GarbageCollection {
  import opened Mmtp
  import opened MailboxSpec

  datatype Op =
    | QueueOp(m: Message)
    | NotifyOp(written: bool)
    | ReceiveSomeOp(ids: seq<string>, written: bool)
    | ReceiveAllOp(written: bool)
    | FetchOp(written: bool)
    | CollectOp

  datatype Event = Event(now: int, op: Op)

  function Step(b: Box, e: Event): Box {
    match e.op
    case QueueOp(m) => Queue(b, m)
    case NotifyOp(written) => NotifyAll(b, written)
    case ReceiveSomeOp(ids, written) => ReceiveSome(b, ids, written)
    case ReceiveAllOp(written) => ReceiveAll(b, e.now, written)
    case FetchOp(_) => Expire(b, e.now)
    case CollectOp => Expire(b, e.now)
  }

  /** The entries the consumer is shown by one event. */
  function Shown(b: Box, e: Event): Store {
    match e.op
    case NotifyOp(_) => b.notifications
    case ReceiveSomeOp(ids, _) => map u | u in b.messages && u in SetOf(ids) :: b.messages[u]
    case ReceiveAllOp(_) => Live(b.messages, e.now)
    case FetchOp(_) => Live(b.messages, e.now)
    case _ => map[]
  }

  /** What the events of a run show, in order; of a Notify and of a filtered receive, the live part. */
  function Answers(b: Box, run: seq<Event>): seq<Store>
    decreases run
  {
    if run == [] then []
    else
      var rest := Answers(Step(b, run[0]), run[1..]);
      if run[0].op.CollectOp? then rest else [Live(Shown(b, run[0]), run[0].now)] + rest
  }

  function WithoutCollections(run: seq<Event>): seq<Event> {
    if run == [] then []
    else (if run[0].op.CollectOp? then [] else [run[0]]) + WithoutCollections(run[1..])
  }

  /** The clock never runs backwards. */
  ghost predicate InTime(t: int, run: seq<Event>)
    decreases run
  {
    run == [] || (t <= run[0].now && InTime(run[0].now, run[1..]))
  }

  /** The two mailboxes differ at most in what has expired by `t`. */
  ghost predicate AgreeOnLive(t: int, b: Box, c: Box) {
    && Live(b.messages, t) == Live(c.messages, t)
    && Live(b.notifications, t) == Live(c.notifications, t)
  }

  /** Two stores with one live part at `t` have one live part at any later time. */
  lemma LiveLater(m: Store, n: Store, t: int, now: int)
    requires t <= now && Live(m, t) == Live(n, t)
    ensures Live(m, now) == Live(n, now)
  {
    forall u ensures (u in Live(m, now) <==> u in Live(n, now)) && (u in Live(m, now) ==> m[u] == n[u]) {
      assert u in Live(m, now) ==> u in Live(m, t) && m[u] == Live(m, t)[u];
      assert u in Live(n, now) ==> u in Live(n, t) && n[u] == Live(n, t)[u];
    }
  }

  lemma LiveMinus(m: Store, gone: set<string>, now: int)
    ensures Live(m - gone, now) == Live(m, now) - gone
  {
  }

  lemma LiveUpdate(m: Store, u: string, x: Message, now: int)
    ensures Live(m[u := x], now) == if now <= ExpiresOf(x) then Live(m, now)[u := x] else Live(m, now) - {u}
  {
  }

  lemma LiveTwice(m: Store, now: int)
    ensures Live(Live(m, now), now) == Live(m, now)
  {
  }

  /** Of the live notifications, a filtered receive drops the same ones from both mailboxes. */
  lemma SameDropped(b: Box, c: Box, ids: set<string>, now: int)
    requires AgreeOnLive(now, b, c) && Consistent(b) && Consistent(c)
    ensures Live(b.notifications, now) - ids * b.messages.Keys == Live(c.notifications, now) - ids * c.messages.Keys
  {
    forall u | u in Live(b.notifications, now) ensures u in b.messages <==> u in c.messages {
      assert Live(c.notifications, now)[u] == b.notifications[u];
      assert u in b.messages ==> u in Live(b.messages, now);
      assert u in c.messages ==> u in Live(c.messages, now);
    }
  }

  lemma StepKeepsConsistent(b: Box, e: Event)
    requires Consistent(b)
    ensures Consistent(Step(b, e))
  {
  }

  /** An event shows two agreeing mailboxes alike, and they agree afterwards. */
  lemma StepAgrees(t: int, b: Box, c: Box, e: Event)
    requires t <= e.now && AgreeOnLive(t, b, c) && Consistent(b) && Consistent(c)
    ensures AgreeOnLive(e.now, Step(b, e), Step(c, e))
    ensures Live(Shown(b, e), e.now) == Live(Shown(c, e), e.now)
  {
    LiveLater(b.messages, c.messages, t, e.now);
    LiveLater(b.notifications, c.notifications, t, e.now);
    match e.op {
      case QueueOp(m) => QueueAgrees(b, c, m, e.now);
      case NotifyOp(_) =>
      case ReceiveSomeOp(ids, written) => ReceiveSomeAgrees(b, c, ids, written, e.now);
      case ReceiveAllOp(written) => ReceiveAllAgrees(b, c, written, e.now);
      case FetchOp(_) =>
        LiveTwice(b.messages, e.now);
        LiveTwice(c.messages, e.now);
      case CollectOp =>
        LiveTwice(b.messages, e.now);
        LiveTwice(c.messages, e.now);
    }
  }

  lemma QueueAgrees(b: Box, c: Box, m: Message, now: int)
    requires AgreeOnLive(now, b, c)
    ensures AgreeOnLive(now, Queue(b, m), Queue(c, m))
  {
    LiveUpdate(b.messages, m.uuid, m, now);
    LiveUpdate(c.messages, m.uuid, m, now);
    LiveUpdate(b.notifications, m.uuid, m, now);
    LiveUpdate(c.notifications, m.uuid, m, now);
  }

  lemma ReceiveAllAgrees(b: Box, c: Box, written: bool, now: int)
    requires AgreeOnLive(now, b, c)
    ensures AgreeOnLive(now, ReceiveAll(b, now, written), ReceiveAll(c, now, written))
  {
    LiveMinus(b.notifications, Live(b.messages, now).Keys, now);
    LiveMinus(c.notifications, Live(c.messages, now).Keys, now);
  }

  lemma ReceiveSomeAgrees(b: Box, c: Box, ids: seq<string>, written: bool, now: int)
    requires AgreeOnLive(now, b, c) && Consistent(b) && Consistent(c)
    ensures AgreeOnLive(now, ReceiveSome(b, ids, written), ReceiveSome(c, ids, written))
    ensures
      var e := Event(now, ReceiveSomeOp(ids, written));
      Live(Shown(b, e), now) == Live(Shown(c, e), now)
  {
    LiveMinus(b.messages, SetOf(ids), now);
    LiveMinus(c.messages, SetOf(ids), now);
    LiveMinus(b.notifications, SetOf(ids) * b.messages.Keys, now);
    LiveMinus(c.notifications, SetOf(ids) * c.messages.Keys, now);
    SameDropped(b, c, SetOf(ids), now);
    var e := Event(now, ReceiveSomeOp(ids, written));
    assert Live(Shown(b, e), now) == map u | u in Live(b.messages, now) && u in SetOf(ids) :: Live(b.messages, now)[u];
    assert Live(Shown(c, e), now) == map u | u in Live(c.messages, now) && u in SetOf(ids) :: Live(c.messages, now)[u];
  }

  lemma CollectAgrees(t: int, b: Box, c: Box, now: int)
    requires t <= now && AgreeOnLive(t, b, c) && Consistent(b)
    ensures AgreeOnLive(now, Expire(b, now), c) && Consistent(Expire(b, now))
  {
    LiveLater(b.messages, c.messages, t, now);
    LiveLater(b.notifications, c.notifications, t, now);
    assert Live(Live(b.messages, now), now) == Live(b.messages, now);
  }

  lemma {:induction false} CollectionsAreUnobservableFrom(t: int, b: Box, c: Box, run: seq<Event>)
    requires InTime(t, run) && AgreeOnLive(t, b, c) && Consistent(b) && Consistent(c)
    ensures Answers(b, run) == Answers(c, WithoutCollections(run))
    decreases run
  {
    if run != [] {
      var e, rest := run[0], WithoutCollections(run[1..]);
      if e.op.CollectOp? {
        CollectAgrees(t, b, c, e.now);
        CollectionsAreUnobservableFrom(e.now, Expire(b, e.now), c, run[1..]);
        assert WithoutCollections(run) == rest;
      } else {
        StepAgrees(t, b, c, e);
        StepKeepsConsistent(b, e);
        StepKeepsConsistent(c, e);
        CollectionsAreUnobservableFrom(e.now, Step(b, e), Step(c, e), run[1..]);
        assert WithoutCollections(run) == [e] + rest && ([e] + rest)[1..] == rest;
      }
    }
  }

  /** Two runs that differ only in where and how often the collector ran show the same answers. */
  lemma CollectionsAreUnobservable(t: int, b: Box, run: seq<Event>, other: seq<Event>)
    requires Consistent(b) && InTime(t, run) && InTime(t, other)
    requires WithoutCollections(run) == WithoutCollections(other)
    ensures Answers(b, run) == Answers(b, other)
  {
    CollectionsAreUnobservableFrom(t, b, b, run);
    CollectionsAreUnobservableFrom(t, b, b, other);
  }

  /** Of a fetch and of an unfiltered receive, `Answers` has the whole answer. */
  lemma AnswersAreWhole(b: Box, e: Event)
    requires e.op.FetchOp? || e.op.ReceiveAllOp?
    ensures Answers(b, [e]) == [Shown(b, e)]
  {
    assert Live(Shown(b, e), e.now) == Shown(b, e);
    assert Answers(Step(b, e), [e][1..]) == [];
  }

  /** A filtered receive does not look at expiry, so it can tell whether the collector ran first. It cannot
      exactly when none of the stored messages it asks for has expired. */
  lemma FilteredReceiveSeesCollection(b: Box, ids: seq<string>, now: int)
    ensures
      var e := Event(now, ReceiveSomeOp(ids, true));
      Shown(b, e) == Shown(Expire(b, now), e) <==>
        forall u :: u in ids && u in b.messages ==> now <= ExpiresOf(b.messages[u])
  {
    var e := Event(now, ReceiveSomeOp(ids, true));
    var all, kept := Shown(b, e), Shown(Expire(b, now), e);
    assert forall u :: u in ids <==> u in SetOf(ids);
    assert forall u :: u in kept ==> u in all && all[u] == kept[u];
    if u :| u in ids && u in b.messages && ExpiresOf(b.messages[u]) < now {
      assert u in all && u !in kept;
    } else {
      assert forall u :: u in all ==> u in kept;
    }
  }

  /** A mailbox with one expired message: asked for, it is answered before a collection and not after it. */
  lemma CollectionHidesExpired()
    ensures
      var m := SendMessage("u", AppMessage(Some(Header(Subject("s"), 0, "mrn")), SendId("e", 0)));
      var b, e := Box(map["u" := m], map[]), Event(1, ReceiveSomeOp(["u"], true));
      Shown(b, e) == map["u" := m] && Shown(Expire(b, 1), e) == map[]
  {
    var m := SendMessage("u", AppMessage(Some(Header(Subject("s"), 0, "mrn")), SendId("e", 0)));
    assert "u" in SetOf(["u"]);
    assert Live(map["u" := m], 1) == map[];
  }
}
