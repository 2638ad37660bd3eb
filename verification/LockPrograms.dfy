/** The lock operations of each handler of the edge router, the router and the consumer, in the order of the code, for
    any tables, recipient lists and mailboxes; and that each keeps the rank order. */
module LockPrograms {
  import opened Mmtp
  import opened Locks

  type Consumer = nat

  // ---- pieces of programs ----

  const WORK: seq<Op> := [Work]

  function Enter(l: LockId, shared: bool): Op {
    if shared then RLock(l) else Lock(l)
  }

  function Leave(l: LockId, shared: bool): Op {
    if shared then RUnlock(l) else Unlock(l)
  }

  /** `body` between taking a lock and releasing it. */
  function Within(l: LockId, shared: bool, body: seq<Op>): seq<Op> {
    [Enter(l, shared)] + (body + [Leave(l, shared)])
  }

  function Writing(l: LockId, body: seq<Op>): seq<Op> {
    Within(l, false, body)
  }

  function Reading(l: LockId, body: seq<Op>): seq<Op> {
    Within(l, true, body)
  }

  // ---- consumer/consumer.go ----

  /** Queueing takes the two locks of the mailbox one after the other. */
  function QueueOne(c: Consumer): seq<Op> {
    Writing(MsgMu(c), []) + Writing(NotifyMu(c), [])
  }

  function QueueEach(cs: seq<Consumer>): seq<Op> {
    if cs == [] then [] else QueueOne(cs[0]) + QueueEach(cs[1..])
  }

  function CollectEach(cs: seq<Consumer>): seq<Op> {
    if cs == [] then [] else Writing(MsgMu(cs[0]), []) + CollectEach(cs[1..])
  }

  function CheckNewMessages(c: Consumer): seq<Op> {
    Writing(NotifyMu(c), WORK)
  }

  /** A failed filtered receive takes the lock once more to put the messages back. */
  function ReceiveFiltered(c: Consumer, written: bool): seq<Op> {
    Writing(MsgMu(c), Writing(NotifyMu(c), []) + WORK) + (if written then [] else Writing(MsgMu(c), []))
  }

  function ReceiveAll(c: Consumer): seq<Op> {
    Writing(MsgMu(c), Writing(NotifyMu(c), []) + WORK)
  }

  function HandleFetch(c: Consumer): seq<Op> {
    Writing(MsgMu(c), WORK)
  }

  // ---- edgerouter/edgerouter.go ----

  function EdgeConnect(resumed: bool, hasMrn: bool): seq<Op> {
    var index := if resumed || !hasMrn then [] else Writing(MrnToAgentMu, []);
    Reading(AgentsMu, []) + (index + (Writing(AgentsMu, []) + WORK))
  }

  function EdgeDisconnect(): seq<Op> {
    WORK + (Writing(MrnToAgentMu, []) + Writing(AgentsMu, []))
  }

  /** Both routers change the subscribers of a subject under the table's lock; the edge router pushes there, too.
      Without a table entry, an Unsubscribe has none to change. */
  function ChangeSubscribers(subject: string, listed: bool): seq<Op> {
    Writing(SubMu, (if listed then Writing(SubsMu(subject), []) else []) + WORK) + WORK
  }

  function EdgeSendToRecipients(holders: seq<Consumer>): seq<Op> {
    WORK + (Reading(MrnToAgentMu, QueueEach(holders)) + WORK)
  }

  /** A subject and the subscribers to queue for there, if it has a table entry. */
  datatype Group = Group(subject: string, subscribers: Option<seq<Consumer>>)

  /** The subscribers' lock is taken only where there is an entry. */
  function Snapshot(g: Group): seq<Op> {
    if g.subscribers.Some? then Reading(SubsMu(g.subject), []) else []
  }

  function QueueGroup(g: Group): seq<Op> {
    if g.subscribers.Some? then QueueEach(g.subscribers.value) else []
  }

  function EdgeSendToSubject(g: Group): seq<Op> {
    WORK + (Reading(SubMu, Snapshot(g) + QueueGroup(g)) + WORK)
  }

  /** One entry of a response. For a subject, the locks are released before queueing. */
  datatype Entry = ToSubject(group: Group) | ToRecipients(holders: seq<Consumer>)

  function EdgeDeliverOne(entry: Entry): seq<Op> {
    match entry
    case ToSubject(g) => Reading(SubMu, Snapshot(g)) + QueueGroup(g)
    case ToRecipients(cs) => Reading(MrnToAgentMu, QueueEach(cs))
  }

  function EdgeDeliver(entries: seq<Entry>): seq<Op> {
    if entries == [] then [] else EdgeDeliverOne(entries[0]) + EdgeDeliver(entries[1..])
  }

  function EdgeIncoming(entries: seq<Entry>): seq<Op> {
    WORK + (Writing(ResponseMu, []) + EdgeDeliver(entries))
  }

  /** After a failed read or write. */
  function EdgeReconnect(): seq<Op> {
    WORK + Writing(WsMu, WORK)
  }

  function EdgeWrite(awaits: bool): seq<Op> {
    WORK + (if awaits then Writing(ResponseMu, []) else [])
  }

  function EdgeCollect(cs: seq<Consumer>): seq<Op> {
    Reading(AgentsMu, CollectEach(cs))
  }

  // ---- router/router.go ----

  function RouterConnect(): seq<Op> {
    Writing(ErMu, []) + WORK
  }

  /** A topic that cannot be joined or subscribed to: `added` says whether the subscriber had been added. */
  function RouterSubscribeFails(subject: string, added: bool): seq<Op> {
    Writing(SubMu, WORK + (if added then Writing(SubsMu(subject), []) else [])) + WORK
  }

  /** Queueing under the subscribers' lock. */
  function QueueUnder(g: Group): seq<Op> {
    if g.subscribers.Some? then Reading(SubsMu(g.subject), QueueEach(g.subscribers.value)) else []
  }

  /** One recipient: the table is looked at, whether or not it has an entry. */
  function RouterQueueGroup(g: Group): seq<Op> {
    Reading(SubMu, []) + QueueUnder(g)
  }

  function RouterQueueGroups(gs: seq<Group>): seq<Op> {
    if gs == [] then [] else RouterQueueGroup(gs[0]) + RouterQueueGroups(gs[1..])
  }

  predicate Busy(g: Group) {
    g.subscribers.Some? && g.subscribers.value != []
  }

  /** The first group with somebody to queue for: there a message without a UUID makes the handler return at once. */
  function FirstBusy(gs: seq<Group>): (k: nat)
    ensures k <= |gs| && (forall i :: 0 <= i < k ==> !Busy(gs[i])) && (k < |gs| ==> Busy(gs[k]))
  {
    if gs == [] || Busy(gs[0]) then 0 else 1 + FirstBusy(gs[1..])
  }

  function RouterSendToRecipients(gs: seq<Group>, hasUuid: bool): seq<Op> {
    var k := FirstBusy(gs);
    if hasUuid || k == |gs| then WORK + (Reading(ErMu, RouterQueueGroups(gs)) + WORK)
    else WORK + ([RLock(ErMu)] + (RouterQueueGroups(gs[..k]) + (Reading(SubMu, []) + [RLock(SubsMu(gs[k].subject))])))
  }

  function RouterSendToSubject(subscribers: seq<Consumer>, hasUuid: bool): seq<Op> {
    if hasUuid || subscribers == [] then WORK + (Reading(SubMu, QueueEach(subscribers)) + WORK)
    else WORK + [RLock(SubMu)]
  }

  /** For the subject, or for one recipient after the other. */
  function RouterIncoming(groups: seq<seq<Consumer>>): seq<Op> {
    if groups == [] then [] else Reading(SubMu, QueueEach(groups[0])) + RouterIncoming(groups[1..])
  }

  function RouterCollect(cs: seq<Consumer>): seq<Op> {
    Reading(ErMu, CollectEach(cs))
  }

  // ---- all handlers ----

  datatype Handler =
    | NotifyRound(c: Consumer)
    | ReceiveSomeRequest(c: Consumer, written: bool)
    | ReceiveAllRequest(c: Consumer)
    | FetchRequest(c: Consumer)
    | AgentConnect(resumed: bool, hasMrn: bool)
    | AgentDisconnect
    | SubscriberChange(subject: string, listed: bool)
    | AgentSendDirect(holders: seq<Consumer>)
    | AgentSendSubject(group: Group)
    | RouterResponse(entries: seq<Entry>)
    | LinkLoss
    | LinkWrite(awaits: bool)
    | AgentsCollection(cs: seq<Consumer>)
    | EdgeRouterConnect
    | SubscribeFailure(subject: string, added: bool)
    | RouterSendDirect(groups: seq<Group>, hasUuid: bool)
    | RouterSendSubject(subscribers: seq<Consumer>, hasUuid: bool)
    | RouterDispatch(groupsOf: seq<seq<Consumer>>)
    | EdgeRoutersCollection(cs: seq<Consumer>)

  function ProgramOf(h: Handler): seq<Op> {
    match h
    case NotifyRound(c) => CheckNewMessages(c)
    case ReceiveSomeRequest(c, written) => ReceiveFiltered(c, written)
    case ReceiveAllRequest(c) => ReceiveAll(c)
    case FetchRequest(c) => HandleFetch(c)
    case AgentConnect(resumed, hasMrn) => EdgeConnect(resumed, hasMrn)
    case AgentDisconnect => EdgeDisconnect()
    case SubscriberChange(subject, listed) => ChangeSubscribers(subject, listed)
    case AgentSendDirect(holders) => EdgeSendToRecipients(holders)
    case AgentSendSubject(group) => EdgeSendToSubject(group)
    case RouterResponse(entries) => EdgeIncoming(entries)
    case LinkLoss => EdgeReconnect()
    case LinkWrite(awaits) => EdgeWrite(awaits)
    case AgentsCollection(cs) => EdgeCollect(cs)
    case EdgeRouterConnect => RouterConnect()
    case SubscribeFailure(subject, added) => RouterSubscribeFails(subject, added)
    case RouterSendDirect(groups, hasUuid) => RouterSendToRecipients(groups, hasUuid)
    case RouterSendSubject(subscribers, hasUuid) => RouterSendToSubject(subscribers, hasUuid)
    case RouterDispatch(groups) => RouterIncoming(groups)
    case EdgeRoutersCollection(cs) => RouterCollect(cs)
  }

  /** A Send without a UUID that some edge router is to be queued for: the router's handler returns in the middle. */
  predicate ReturnsEarly(h: Handler) {
    match h
    case RouterSendDirect(groups, hasUuid) => !hasUuid && FirstBusy(groups) < |groups|
    case RouterSendSubject(subscribers, hasUuid) => !hasUuid && subscribers != []
    case _ => false
  }

  // ---- every handler keeps the rank order ----

  /** Run from `held`, the program keeps the order and ends with the same locks held. */
  predicate Keeps(prog: seq<Op>, held: set<Hold>) {
    Run(prog, held) == Some(held)
  }

  lemma RunOne(op: Op, held: set<Hold>)
    ensures Run([op], held) == After(op, held)
  {
    assert [op][1..] == [];
  }

  lemma NothingKeeps(held: set<Hold>)
    ensures Keeps([], held) && Keeps(WORK, held)
  {
    RunOne(Work, held);
  }

  lemma SequenceKeeps(a: seq<Op>, b: seq<Op>, held: set<Hold>)
    requires Keeps(a, held) && Keeps(b, held)
    ensures Keeps(a + b, held)
  {
    RunConcat(a, b, held);
  }

  lemma WithinKeeps(l: LockId, shared: bool, body: seq<Op>, held: set<Hold>)
    requires Below(held, l) && Keeps(body, held + {Hold(l, shared)})
    ensures Keeps(Within(l, shared, body), held)
  {
    var inside := held + {Hold(l, shared)};
    RunOne(Enter(l, shared), held);
    RunOne(Leave(l, shared), inside);
    RunConcat([Enter(l, shared)], body + [Leave(l, shared)], held);
    RunConcat(body, [Leave(l, shared)], inside);
    assert Hold(l, shared) !in held;
    assert inside - {Hold(l, shared)} == held;
  }

  lemma TouchKeeps(l: LockId, shared: bool, held: set<Hold>)
    requires Below(held, l)
    ensures Keeps(Within(l, shared, []), held)
  {
    NothingKeeps(held + {Hold(l, shared)});
    WithinKeeps(l, shared, [], held);
  }

  /** Nothing held ranks as high as a mailbox. */
  predicate BelowMailboxes(held: set<Hold>) {
    forall h :: h in held ==> Rank(h.lock) < 3
  }

  lemma {:induction false} QueueEachKeeps(cs: seq<Consumer>, held: set<Hold>)
    requires BelowMailboxes(held)
    ensures Keeps(QueueEach(cs), held)
  {
    if cs == [] {
      NothingKeeps(held);
    } else {
      hide Keeps;
      TouchKeeps(MsgMu(cs[0]), false, held);
      TouchKeeps(NotifyMu(cs[0]), false, held);
      SequenceKeeps(Writing(MsgMu(cs[0]), []), Writing(NotifyMu(cs[0]), []), held);
      QueueEachKeeps(cs[1..], held);
      SequenceKeeps(QueueOne(cs[0]), QueueEach(cs[1..]), held);
    }
  }

  lemma {:induction false} CollectEachKeeps(cs: seq<Consumer>, held: set<Hold>)
    requires BelowMailboxes(held)
    ensures Keeps(CollectEach(cs), held)
  {
    if cs == [] {
      NothingKeeps(held);
    } else {
      hide Keeps;
      TouchKeeps(MsgMu(cs[0]), false, held);
      CollectEachKeeps(cs[1..], held);
      SequenceKeeps(Writing(MsgMu(cs[0]), []), CollectEach(cs[1..]), held);
    }
  }

  lemma GroupKeeps(g: Group, held: set<Hold>)
    requires forall h :: h in held ==> Rank(h.lock) < Rank(SubsMu(g.subject)) && Rank(h.lock) < 3
    ensures Keeps(Snapshot(g), held) && Keeps(QueueGroup(g), held)
  {
    hide Keeps;
    NothingKeeps(held);
    TouchKeeps(SubsMu(g.subject), true, held);
    if g.subscribers.Some? { QueueEachKeeps(g.subscribers.value, held); }
  }

  lemma {:induction false} DeliverKeeps(entries: seq<Entry>)
    ensures Keeps(EdgeDeliver(entries), {})
  {
    if entries == [] {
      NothingKeeps({});
    } else {
      hide Keeps;
      match entries[0] {
        case ToSubject(g) =>
          GroupKeeps(g, {} + {Hold(SubMu, true)});
          GroupKeeps(g, {});
          WithinKeeps(SubMu, true, Snapshot(g), {});
          SequenceKeeps(Reading(SubMu, Snapshot(g)), QueueGroup(g), {});
        case ToRecipients(cs) =>
          QueueEachKeeps(cs, {} + {Hold(MrnToAgentMu, true)});
          WithinKeeps(MrnToAgentMu, true, QueueEach(cs), {});
      }
      DeliverKeeps(entries[1..]);
      SequenceKeeps(EdgeDeliverOne(entries[0]), EdgeDeliver(entries[1..]), {});
    }
  }

  lemma {:induction false} GroupsKeep(gs: seq<Group>, held: set<Hold>)
    requires held == {Hold(ErMu, true)}
    ensures Keeps(RouterQueueGroups(gs), held)
  {
    if gs == [] {
      NothingKeeps(held);
    } else {
      hide Keeps;
      var g := gs[0];
      TouchKeeps(SubMu, true, held);
      NothingKeeps(held);
      if g.subscribers.Some? {
        QueueEachKeeps(g.subscribers.value, held + {Hold(SubsMu(g.subject), true)});
        WithinKeeps(SubsMu(g.subject), true, QueueEach(g.subscribers.value), held);
      }
      SequenceKeeps(Reading(SubMu, []),
                    QueueUnder(g),
                    held);
      GroupsKeep(gs[1..], held);
      SequenceKeeps(RouterQueueGroup(g), RouterQueueGroups(gs[1..]), held);
    }
  }

  lemma {:induction false} DispatchKeeps(groups: seq<seq<Consumer>>)
    ensures Keeps(RouterIncoming(groups), {})
  {
    if groups == [] {
      NothingKeeps({});
    } else {
      hide Keeps;
      QueueEachKeeps(groups[0], {} + {Hold(SubMu, true)});
      WithinKeeps(SubMu, true, QueueEach(groups[0]), {});
      DispatchKeeps(groups[1..]);
      SequenceKeeps(Reading(SubMu, QueueEach(groups[0])), RouterIncoming(groups[1..]), {});
    }
  }

  lemma ReceiveKeeps(c: Consumer, written: bool)
    ensures Keeps(ReceiveAll(c), {}) && Keeps(ReceiveFiltered(c, written), {})
  {
    hide Keeps;
    var inside := {} + {Hold(MsgMu(c), false)};
    TouchKeeps(NotifyMu(c), false, inside);
    NothingKeeps(inside);
    SequenceKeeps(Writing(NotifyMu(c), []), WORK, inside);
    WithinKeeps(MsgMu(c), false, Writing(NotifyMu(c), []) + WORK, {});
    TouchKeeps(MsgMu(c), false, {});
    NothingKeeps({});
    SequenceKeeps(ReceiveAll(c), if written then [] else Writing(MsgMu(c), []), {});
  }

  lemma WorkWithinKeeps(l: LockId)
    ensures Keeps(Writing(l, WORK), {}) && Keeps(WORK + Writing(l, WORK), {})
  {
    hide Keeps;
    NothingKeeps({} + {Hold(l, false)});
    NothingKeeps({});
    WithinKeeps(l, false, WORK, {});
    SequenceKeeps(WORK, Writing(l, WORK), {});
  }

  lemma ConnectKeeps(resumed: bool, hasMrn: bool)
    ensures Keeps(EdgeConnect(resumed, hasMrn), {}) && Keeps(EdgeDisconnect(), {}) && Keeps(RouterConnect(), {})
  {
    hide Keeps;
    NothingKeeps({});
    TouchKeeps(AgentsMu, true, {});
    TouchKeeps(AgentsMu, false, {});
    TouchKeeps(MrnToAgentMu, false, {});
    TouchKeeps(ErMu, false, {});
    var named := if resumed || !hasMrn then [] else Writing(MrnToAgentMu, []);
    SequenceKeeps(Writing(AgentsMu, []), WORK, {});
    SequenceKeeps(named, Writing(AgentsMu, []) + WORK, {});
    SequenceKeeps(Reading(AgentsMu, []), named + (Writing(AgentsMu, []) + WORK), {});
    SequenceKeeps(Writing(MrnToAgentMu, []), Writing(AgentsMu, []), {});
    SequenceKeeps(WORK, Writing(MrnToAgentMu, []) + Writing(AgentsMu, []), {});
    SequenceKeeps(Writing(ErMu, []), WORK, {});
  }

  lemma ChangeKeeps(subject: string, listed: bool, added: bool)
    ensures Keeps(ChangeSubscribers(subject, listed), {}) && Keeps(RouterSubscribeFails(subject, added), {})
  {
    hide Keeps;
    var inside := {} + {Hold(SubMu, false)};
    NothingKeeps({});
    NothingKeeps(inside);
    TouchKeeps(SubsMu(subject), false, inside);
    var changed := if listed then Writing(SubsMu(subject), []) else [];
    SequenceKeeps(changed, WORK, inside);
    WithinKeeps(SubMu, false, changed + WORK, {});
    SequenceKeeps(Writing(SubMu, changed + WORK), WORK, {});
    var touched := if added then Writing(SubsMu(subject), []) else [];
    SequenceKeeps(WORK, touched, inside);
    WithinKeeps(SubMu, false, WORK + touched, {});
    SequenceKeeps(Writing(SubMu, WORK + touched), WORK, {});
  }

  /** Queueing for a list under one table lock, between two pieces of work. */
  lemma FanOutKeeps(l: LockId, cs: seq<Consumer>)
    requires Rank(l) < 3
    ensures Keeps(Reading(l, QueueEach(cs)), {}) && Keeps(WORK + (Reading(l, QueueEach(cs)) + WORK), {})
    ensures Keeps(Reading(l, CollectEach(cs)), {})
  {
    hide Keeps;
    NothingKeeps({});
    QueueEachKeeps(cs, {} + {Hold(l, true)});
    CollectEachKeeps(cs, {} + {Hold(l, true)});
    WithinKeeps(l, true, QueueEach(cs), {});
    WithinKeeps(l, true, CollectEach(cs), {});
    SequenceKeeps(Reading(l, QueueEach(cs)), WORK, {});
    SequenceKeeps(WORK, Reading(l, QueueEach(cs)) + WORK, {});
  }

  lemma SubjectSendKeeps(g: Group)
    ensures Keeps(EdgeSendToSubject(g), {})
  {
    hide Keeps;
    var inside := {} + {Hold(SubMu, true)};
    NothingKeeps({});
    GroupKeeps(g, inside);
    SequenceKeeps(Snapshot(g), QueueGroup(g), inside);
    var body := Snapshot(g) + QueueGroup(g);
    WithinKeeps(SubMu, true, body, {});
    SequenceKeeps(Reading(SubMu, body), WORK, {});
    SequenceKeeps(WORK, Reading(SubMu, body) + WORK, {});
  }

  lemma ResponseKeeps(entries: seq<Entry>, awaits: bool)
    ensures Keeps(EdgeIncoming(entries), {}) && Keeps(EdgeWrite(awaits), {})
  {
    hide Keeps;
    NothingKeeps({});
    TouchKeeps(ResponseMu, false, {});
    DeliverKeeps(entries);
    SequenceKeeps(Writing(ResponseMu, []), EdgeDeliver(entries), {});
    SequenceKeeps(WORK, Writing(ResponseMu, []) + EdgeDeliver(entries), {});
    SequenceKeeps(WORK, if awaits then Writing(ResponseMu, []) else [], {});
  }

  lemma DirectSendKeeps(gs: seq<Group>)
    ensures Keeps(WORK + (Reading(ErMu, RouterQueueGroups(gs)) + WORK), {})
  {
    hide Keeps;
    NothingKeeps({});
    GroupsKeep(gs, {} + {Hold(ErMu, true)});
    WithinKeeps(ErMu, true, RouterQueueGroups(gs), {});
    SequenceKeeps(Reading(ErMu, RouterQueueGroups(gs)), WORK, {});
    SequenceKeeps(WORK, Reading(ErMu, RouterQueueGroups(gs)) + WORK, {});
  }

  /** What a handler that returns in the middle still holds. */
  function LeftHeld(h: Handler): set<Hold>
    requires ReturnsEarly(h)
  {
    match h
    case RouterSendDirect(groups, _) => {Hold(ErMu, true), Hold(SubsMu(groups[FirstBusy(groups)].subject), true)}
    case RouterSendSubject(_, _) => {Hold(SubMu, true)}
  }

  lemma EarlyReturnHolds(h: Handler)
    requires ReturnsEarly(h)
    ensures Run(ProgramOf(h), {}) == Some(LeftHeld(h))
  {
    NothingKeeps({});
    match h {
      case RouterSendDirect(gs, _) =>
        var k, inside := FirstBusy(gs), {Hold(ErMu, true)};
        var last := SubsMu(gs[k].subject);
        RunOne(RLock(ErMu), {});
        assert {} + {Hold(ErMu, true)} == inside;
        GroupsKeep(gs[..k], inside);
        TouchKeeps(SubMu, true, inside);
        RunOne(RLock(last), inside);
        var tail := Reading(SubMu, []) + [RLock(last)];
        RunConcat(Reading(SubMu, []), [RLock(last)], inside);
        RunConcat(RouterQueueGroups(gs[..k]), tail, inside);
        RunConcat([RLock(ErMu)], RouterQueueGroups(gs[..k]) + tail, {});
        RunConcat(WORK, [RLock(ErMu)] + (RouterQueueGroups(gs[..k]) + tail), {});
        assert inside + {Hold(last, true)} == LeftHeld(h);
      case RouterSendSubject(cs, _) =>
        RunOne(RLock(SubMu), {});
        RunConcat(WORK, [RLock(SubMu)], {});
        assert {} + {Hold(SubMu, true)} == LeftHeld(h);
    }
  }

  /** A handler keeps the rank order and releases all its locks, unless it is a router's Send handler that returns
      early. */
  lemma OrderedExactly(h: Handler)
    ensures Ordered(ProgramOf(h), {}) <==> !ReturnsEarly(h)
  {
    if ReturnsEarly(h) {
      EarlyReturnHolds(h);
      LeavesSome(h);
    } else {
      NothingKeeps({});
      match h {
        case NotifyRound(c) => WorkWithinKeeps(NotifyMu(c));
        case ReceiveSomeRequest(c, written) => ReceiveKeeps(c, written);
        case ReceiveAllRequest(c) => ReceiveKeeps(c, true);
        case FetchRequest(c) => WorkWithinKeeps(MsgMu(c));
        case AgentConnect(resumed, hasMrn) => ConnectKeeps(resumed, hasMrn);
        case AgentDisconnect => ConnectKeeps(true, true);
        case SubscriberChange(subject, listed) => ChangeKeeps(subject, listed, true);
        case AgentSendDirect(holders) => FanOutKeeps(MrnToAgentMu, holders);
        case AgentSendSubject(group) => SubjectSendKeeps(group);
        case RouterResponse(entries) => ResponseKeeps(entries, true);
        case LinkLoss => WorkWithinKeeps(WsMu);
        case LinkWrite(awaits) => ResponseKeeps([], awaits);
        case AgentsCollection(cs) => FanOutKeeps(AgentsMu, cs);
        case EdgeRouterConnect => ConnectKeeps(true, true);
        case SubscribeFailure(subject, added) => ChangeKeeps(subject, true, added);
        case RouterSendDirect(groups, _) => DirectSendKeeps(groups);
        case RouterSendSubject(subscribers, _) => FanOutKeeps(SubMu, subscribers);
        case RouterDispatch(groups) => DispatchKeeps(groups);
        case EdgeRoutersCollection(cs) => FanOutKeeps(ErMu, cs);
      }
    }
  }

  function ProgramsOf(hs: seq<Handler>): (progs: seq<seq<Op>>)
    ensures |progs| == |hs|
  {
    seq(|hs|, i requires 0 <= i < |hs| => ProgramOf(hs[i]))
  }

  /** Any number of handlers at once, none of which returns early: some unfinished one can always go on, until all have
      finished and no lock is held. */
  lemma AnyMixFinishes(hs: seq<Handler>, run: seq<System>, steps: seq<nat>)
    requires IsRun(ProgramsOf(hs), run, steps) && forall i :: 0 <= i < |hs| ==> !ReturnsEarly(hs[i])
    ensures |steps| <= LeftOver(Start(ProgramsOf(hs)))
    ensures
      var s := run[|steps|];
      (forall i :: 0 <= i < |s| ==> !CanStep(s, i)) ==> forall i :: 0 <= i < |s| ==> s[i].rest == [] && s[i].held == {}
  {
    forall i | 0 <= i < |hs| ensures Ordered(ProgramsOf(hs)[i], {}) { OrderedExactly(hs[i]); }
    NoDeadlock(ProgramsOf(hs), run, steps);
  }

  /** A mix that cannot go on has finished every handler with no lock held if and only if none returned early. */
  lemma StopsCleanExactly(hs: seq<Handler>, run: seq<System>, steps: seq<nat>)
    requires IsRun(ProgramsOf(hs), run, steps)
    requires
      var s := run[|steps|];
      forall i :: 0 <= i < |s| ==> !CanStep(s, i)
    ensures
      var s := run[|steps|];
      (forall i :: 0 <= i < |s| ==> s[i].rest == [] && s[i].held == {}) <==>
        forall i :: 0 <= i < |hs| ==> !ReturnsEarly(hs[i])
  {
    var s := run[|steps|];
    if forall i :: 0 <= i < |hs| ==> !ReturnsEarly(hs[i]) {
      AnyMixFinishes(hs, run, steps);
    } else {
      var i :| 0 <= i < |hs| && ReturnsEarly(hs[i]);
      EarlyReturnHolds(hs[i]);
      LeavesSome(hs[i]);
      EndKept(ProgramsOf(hs), run, steps, |steps|, i);
      assert s[i].rest == [] ==> s[i].held == LeftHeld(hs[i]);
    }
  }

  lemma LeavesSome(h: Handler)
    requires ReturnsEarly(h)
    ensures LeftHeld(h) != {}
  {
    assert Hold(if h.RouterSendDirect? then ErMu else SubMu, true) in LeftHeld(h);
  }

  /** One early return is enough to block for ever: the lock it leaves keeps a Subscribe from finishing. */
  lemma EarlyReturnBlocks(c: Consumer, subject: string) returns (run: seq<System>, steps: seq<nat>)
    ensures
      var hs := [RouterSendSubject([c], false), SubscriberChange(subject, true)];
      && IsRun(ProgramsOf(hs), run, steps)
      && var s := run[|steps|];
         && |s| == 2 && s[0].rest == [] && s[1].rest != []
         && forall i :: 0 <= i < |s| ==> !CanStep(s, i)
  {
    var hs := [RouterSendSubject([c], false), SubscriberChange(subject, true)];
    var s0 := Start(ProgramsOf(hs));
    assert s0[0] == Thread({}, [Work, RLock(SubMu)], false);
    var change := ChangeSubscribers(subject, true);
    assert change[0] == Lock(SubMu);
    assert s0[1] == Thread({}, change, false);
    var s1 := Step(s0, 0);
    assert s1[0] == Thread({}, [RLock(SubMu)], false) && s1[1] == s0[1];
    var s2 := Step(s1, 0);
    assert s2[0] == Thread({} + {Hold(SubMu, true)}, [], false) && s2[1] == s0[1];
    var s3 := Step(s2, 1);
    assert s3[0] == s2[0] && s3[1] == Thread({}, change, true);
    assert Holds(s3[0], SubMu) && !Free(s3, SubMu);
    run, steps := [s0, s1, s2, s3], [0, 0, 1];
  }

  // ---- the mailboxes that a handler works on ----

  /** The mailboxes that a handler queues into, one after the other. */
  function Fills(h: Handler): seq<Consumer> {
    match h
    case AgentSendDirect(holders) => holders
    case AgentSendSubject(g) => SubscribersOf(g)
    case RouterResponse(entries) => EntriesOf(entries)
    case RouterSendDirect(groups, _) => GroupsOf(groups)
    case RouterSendSubject(subscribers, _) => subscribers
    case RouterDispatch(groups) => Flat(groups)
    case _ => []
  }

  function SubscribersOf(g: Group): seq<Consumer> {
    if g.subscribers.Some? then g.subscribers.value else []
  }

  function EntryOf(entry: Entry): seq<Consumer> {
    match entry
    case ToSubject(g) => SubscribersOf(g)
    case ToRecipients(cs) => cs
  }

  function EntriesOf(entries: seq<Entry>): seq<Consumer> {
    if entries == [] then [] else EntryOf(entries[0]) + EntriesOf(entries[1..])
  }

  function GroupsOf(gs: seq<Group>): seq<Consumer> {
    if gs == [] then [] else SubscribersOf(gs[0]) + GroupsOf(gs[1..])
  }

  function Flat(groups: seq<seq<Consumer>>): seq<Consumer> {
    if groups == [] then [] else groups[0] + Flat(groups[1..])
  }

  /** The mailboxes whose messages, and whose notifications, it works on besides. */
  function Empties(h: Handler): seq<Consumer> {
    match h
    case ReceiveSomeRequest(c, written) => if written then [c] else [c, c]
    case ReceiveAllRequest(c) => [c]
    case FetchRequest(c) => [c]
    case AgentsCollection(cs) => cs
    case EdgeRoutersCollection(cs) => cs
    case _ => []
  }

  function Silences(h: Handler): seq<Consumer> {
    match h
    case NotifyRound(c) => [c]
    case ReceiveSomeRequest(c, _) => [c]
    case ReceiveAllRequest(c) => [c]
    case _ => []
  }

  function Times<T(==)>(q: seq<T>, x: T): nat {
    if q == [] then 0 else (if q[0] == x then 1 else 0) + Times(q[1..], x)
  }

  lemma {:induction false} TimesConcat<T>(a: seq<T>, b: seq<T>, x: T)
    ensures Times(a + b, x) == Times(a, x) + Times(b, x)
  {
    if a == [] {
      assert a + b == b;
    } else {
      assert (a + b)[0] == a[0] && (a + b)[1..] == a[1..] + b;
      TimesConcat(a[1..], b, x);
    }
  }

  lemma TimesOne<T>(y: T, x: T)
    ensures Times([y], x) == if y == x then 1 else 0
  {
    var q := [y];
    assert q[0] == y && q[1..] == [];
    assert Times(q, x) == (if q[0] == x then 1 else 0) + Times(q[1..], x);
  }

  /** How often the program locks `l`, for writing. */
  function LocksOf(prog: seq<Op>, l: LockId): nat {
    Times(prog, Lock(l))
  }

  lemma LocksAdd(l: LockId)
    ensures forall a, b :: LocksOf(a + b, l) == LocksOf(a, l) + LocksOf(b, l)
    ensures forall op :: LocksOf([op], l) == if op == Lock(l) then 1 else 0
    ensures forall k, shared, body :: LocksOf(Within(k, shared, body), l)
                                   == LocksOf(body, l) + (if k == l && !shared then 1 else 0)
    ensures LocksOf([], l) == 0 && LocksOf(WORK, l) == 0
  {
    forall op ensures LocksOf([op], l) == if op == Lock(l) then 1 else 0 { TimesOne(op, Lock(l)); }
    forall k, shared, body
      ensures LocksOf(Within(k, shared, body), l) == LocksOf(body, l) + (if k == l && !shared then 1 else 0)
    {
      TimesOne(Enter(k, shared), Lock(l));
      TimesOne(Leave(k, shared), Lock(l));
      TimesConcat([Enter(k, shared)], body + [Leave(k, shared)], Lock(l));
      TimesConcat(body, [Leave(k, shared)], Lock(l));
    }
    forall a, b ensures LocksOf(a + b, l) == LocksOf(a, l) + LocksOf(b, l) { TimesConcat(a, b, Lock(l)); }
  }

  lemma TimesAdd(c: Consumer)
    ensures forall a, b: seq<Consumer> :: Times(a + b, c) == Times(a, c) + Times(b, c)
    ensures forall x: Consumer :: Times([x], c) == if x == c then 1 else 0
    ensures Times<Consumer>([], c) == 0
  {
    forall x: Consumer ensures Times([x], c) == if x == c then 1 else 0 { TimesOne(x, c); }
    forall a, b: seq<Consumer> ensures Times(a + b, c) == Times(a, c) + Times(b, c) { TimesConcat(a, b, c); }
  }

  /** One of the two locks of the consumer. */
  predicate OfMailbox(l: LockId, c: Consumer) {
    l == MsgMu(c) || l == NotifyMu(c)
  }

  lemma {:induction false} QueueEachLocks(cs: seq<Consumer>, c: Consumer, l: LockId)
    requires OfMailbox(l, c)
    ensures LocksOf(QueueEach(cs), l) == Times(cs, c)
  {
    LocksAdd(l);
    if cs != [] {
      QueueEachLocks(cs[1..], c, l);
      hide LocksOf;
    }
  }

  lemma {:induction false} CollectEachLocks(cs: seq<Consumer>, c: Consumer)
    ensures LocksOf(CollectEach(cs), MsgMu(c)) == Times(cs, c) && LocksOf(CollectEach(cs), NotifyMu(c)) == 0
  {
    LocksAdd(MsgMu(c));
    LocksAdd(NotifyMu(c));
    if cs != [] {
      CollectEachLocks(cs[1..], c);
      hide LocksOf;
    }
  }

  lemma {:induction false} DeliverLocks(entries: seq<Entry>, c: Consumer, l: LockId)
    requires OfMailbox(l, c)
    ensures LocksOf(EdgeDeliver(entries), l) == Times(EntriesOf(entries), c)
  {
    LocksAdd(l);
    TimesAdd(c);
    hide LocksOf, Times, EntryOf, EdgeDeliverOne;
    if entries != [] {
      DeliverLocks(entries[1..], c, l);
      EntryLocks(entries[0], c, l);
    }
  }

  lemma EntryLocks(entry: Entry, c: Consumer, l: LockId)
    requires OfMailbox(l, c)
    ensures LocksOf(EdgeDeliverOne(entry), l) == Times(EntryOf(entry), c)
  {
    LocksAdd(l);
    TimesAdd(c);
    QueueEachLocks(EntryOf(entry), c, l);
    hide LocksOf, Times, QueueEach, Within;
  }

  lemma {:induction false} GroupsLock(gs: seq<Group>, c: Consumer, l: LockId)
    requires OfMailbox(l, c)
    ensures LocksOf(RouterQueueGroups(gs), l) == Times(GroupsOf(gs), c)
  {
    LocksAdd(l);
    TimesAdd(c);
    hide LocksOf, Times;
    if gs != [] {
      GroupsLock(gs[1..], c, l);
      hide QueueEach, Within;
      QueueEachLocks(SubscribersOf(gs[0]), c, l);
    }
  }

  lemma {:induction false} DispatchLocks(groups: seq<seq<Consumer>>, c: Consumer, l: LockId)
    requires OfMailbox(l, c)
    ensures LocksOf(RouterIncoming(groups), l) == Times(Flat(groups), c)
  {
    LocksAdd(l);
    TimesAdd(c);
    hide LocksOf, Times;
    if groups != [] {
      DispatchLocks(groups[1..], c, l);
      hide QueueEach, Within;
      QueueEachLocks(groups[0], c, l);
    }
  }

  lemma FillingLocks(h: Handler, c: Consumer, l: LockId)
    requires !ReturnsEarly(h) && OfMailbox(l, c)
    requires h.AgentSendDirect? || h.AgentSendSubject? || h.RouterResponse? || h.RouterSendDirect?
             || h.RouterSendSubject? || h.RouterDispatch?
    ensures LocksOf(ProgramOf(h), l) == Times(Fills(h), c)
  {
    LocksAdd(l);
    TimesAdd(c);
    hide LocksOf, Times, QueueEach, EdgeDeliver, RouterQueueGroups, RouterIncoming, FirstBusy, Within;
    match h {
      case AgentSendDirect(holders) => QueueEachLocks(holders, c, l);
      case AgentSendSubject(g) => QueueEachLocks(SubscribersOf(g), c, l);
      case RouterResponse(entries) => DeliverLocks(entries, c, l);
      case RouterSendDirect(groups, _) => GroupsLock(groups, c, l);
      case RouterSendSubject(subscribers, _) => QueueEachLocks(subscribers, c, l);
      case RouterDispatch(groups) => DispatchLocks(groups, c, l);
    }
  }

  /** Every handler that does not return early locks the messages and the notifications of a mailbox once for each time
      that it queues there, collects, receives from it, fetches, notifies or puts back. */
  lemma MailboxesLocked(h: Handler, c: Consumer)
    requires !ReturnsEarly(h)
    ensures LocksOf(ProgramOf(h), MsgMu(c)) == Times(Fills(h), c) + Times(Empties(h), c)
    ensures LocksOf(ProgramOf(h), NotifyMu(c)) == Times(Fills(h), c) + Times(Silences(h), c)
  {
    if h.AgentSendDirect? || h.AgentSendSubject? || h.RouterResponse? || h.RouterSendDirect? || h.RouterSendSubject?
       || h.RouterDispatch?
    {
      FillingLocks(h, c, MsgMu(c));
      FillingLocks(h, c, NotifyMu(c));
      assert Empties(h) == [] && Silences(h) == [];
    } else if h.AgentsCollection? || h.EdgeRoutersCollection? {
      CollectionLocks(h, c);
      assert Fills(h) == [] && Silences(h) == [];
    } else if h.NotifyRound? || h.ReceiveSomeRequest? || h.ReceiveAllRequest? || h.FetchRequest? {
      ConsumerLocks(h, c);
      assert Fills(h) == [];
    } else {
      TableLocks(h, c, MsgMu(c));
      TableLocks(h, c, NotifyMu(c));
      assert Fills(h) == [] && Empties(h) == [] && Silences(h) == [];
    }
  }

  lemma CollectionLocks(h: Handler, c: Consumer)
    requires h.AgentsCollection? || h.EdgeRoutersCollection?
    ensures LocksOf(ProgramOf(h), MsgMu(c)) == Times(Empties(h), c) && LocksOf(ProgramOf(h), NotifyMu(c)) == 0
  {
    LocksAdd(MsgMu(c));
    LocksAdd(NotifyMu(c));
    CollectEachLocks(h.cs, c);
    hide CollectEach, LocksOf, Times, Within;
  }

  lemma ConsumerLocks(h: Handler, c: Consumer)
    requires h.NotifyRound? || h.ReceiveSomeRequest? || h.ReceiveAllRequest? || h.FetchRequest?
    ensures LocksOf(ProgramOf(h), MsgMu(c)) == Times(Empties(h), c)
    ensures LocksOf(ProgramOf(h), NotifyMu(c)) == Times(Silences(h), c)
  {
    LocksAdd(MsgMu(c));
    LocksAdd(NotifyMu(c));
    TimesAdd(c);
    hide LocksOf, Times, Within;
    assert h.ReceiveSomeRequest? && !h.written ==> Empties(h) == [h.c] + [h.c];
  }

  lemma TableLocks(h: Handler, c: Consumer, l: LockId)
    requires OfMailbox(l, c)
    requires h.AgentConnect? || h.AgentDisconnect? || h.SubscriberChange? || h.LinkLoss? || h.LinkWrite?
             || h.EdgeRouterConnect? || h.SubscribeFailure?
    ensures LocksOf(ProgramOf(h), l) == 0
  {
    LocksAdd(l);
    hide LocksOf, Within;
  }
}
