/** What the edge router (edgerouter/edgerouter.go) and the router (router/router.go) have in common, as
    functions on values: subject tables, fan-out to mailboxes, the expiry window, the outgoing queue and the
    unpacking of a receive response. The classes are proved against these, and the network is built of them. */
module Routing {
  import opened Mmtp
  import opened MailboxSpec

  const EXPIRATION_LIMIT := 30 * 24 * 3600

  /** Subscribers by subject. */
  type Table<A> = map<string, set<A>>

  function Subscribers<A>(table: Table<A>, subject: string): set<A> {
    if subject in table then table[subject] else {}
  }

  function AddSubscriber<A>(table: Table<A>, subject: string, a: A): Table<A> {
    table[subject := Subscribers(table, subject) + {a}]
  }

  function DropSubscriber<A>(table: Table<A>, subject: string, a: A): Table<A> {
    if subject in table then table[subject := table[subject] - {a}] else table
  }

  /** The expiry check on messages that arrive over the network. */
  predicate InWindow(app: AppMessage, now: int) {
    now <= AppExpires(app) <= now + EXPIRATION_LIMIT
  }

  /** Queues `m` once in the mailbox of every target and nowhere else. */
  function FanOut<A>(boxes: map<A, Box>, targets: set<A>, m: Message): (r: map<A, Box>)
    ensures r.Keys == boxes.Keys
  {
    map a | a in boxes :: if a in targets then Queue(boxes[a], m) else boxes[a]
  }

  function AddressOf(app: AppMessage): Address {
    if app.header.Some? then app.header.value.address else NoAddress
  }

  /** The address that a Send carries, if it carries one. */
  function AddressIn(m: Message): Address {
    if HeaderOf(m).Some? then HeaderOf(m).value.address else NoAddress
  }

  /** The consumers that an edge router queues an incoming application message for: the subject's
      subscribers, or the holders of the recipient MRNs that subscribe to direct messages. */
  function LocalTargets<A>(table: Table<A>, index: map<string, A>, direct: set<A>, address: Address): set<A> {
    match address
    case NoAddress => {}
    case Subject(s) => Subscribers(table, s)
    case Recipients(rs) => set r | r in rs && r in index && index[r] in direct :: index[r]
  }

  /** The consumers that an edge router queues a Send of a local agent for at once: for a subject, its subscribers
      with another MRN than the sender. */
  function SentTo<A>(table: Table<A>, index: map<string, A>, direct: set<A>, mrn: A -> string, sender: string,
                     address: Address): set<A> {
    match address
    case Subject(s) => set a | a in Subscribers(table, s) && mrn(a) != sender
    case _ => LocalTargets(table, index, direct, address)
  }

  /** One entry of a receive response: discarded when it is absent or outside the expiry window, and queued
      under a fresh UUID otherwise. */
  function DeliverOne<A>(boxes: map<A, Box>, table: Table<A>, index: map<string, A>, direct: set<A>,
                         c: Content, newId: string, now: int): (r: map<A, Box>)
    ensures r.Keys == boxes.Keys
  {
    if c.app.None? || !InWindow(c.app.value, now) then boxes
    else FanOut(boxes, LocalTargets(table, index, direct, AddressOf(c.app.value)), SendMessage(newId, c.app.value))
  }

  function Deliver<A>(boxes: map<A, Box>, table: Table<A>, index: map<string, A>, direct: set<A>,
                      contents: seq<Content>, newIds: seq<string>, now: int): (r: map<A, Box>)
    requires |newIds| == |contents|
    ensures r.Keys == boxes.Keys
  {
    if contents == [] then boxes
    else
      var n := |contents| - 1;
      DeliverOne(Deliver(boxes, table, index, direct, contents[..n], newIds[..n], now),
                 table, index, direct, contents[n], newIds[n], now)
  }

  /** A request that is answered, and sent again when the answer is an error. */
  predicate IsSubscription(m: Message) {
    m.body.Protocol? && (m.body.kind.SubscribeType? || m.body.kind.UnsubscribeType?)
  }

  /** The outgoing channel, the requests awaiting an answer, and the history of what was written. */
  datatype Outbox = Outbox(queue: seq<Message>, awaiting: Store, written: seq<Message>)

  /** The edge router takes the first message of its outgoing channel: one that is no protocol message is
      discarded, one whose write fails goes to the back, and a written request is remembered. */
  function WriteFirst(o: Outbox, success: bool): Outbox
    requires o.queue != []
  {
    var m := o.queue[0];
    if !m.msgType.ProtocolMessage? then o.(queue := o.queue[1..])
    else if !success then o.(queue := o.queue[1..] + [m])
    else Outbox(o.queue[1..], if IsSubscription(m) then o.awaiting[m.uuid := m] else o.awaiting, o.written + [m])
  }

  /** What a response makes the edge router push again. */
  function Retried(o: Outbox, response: Response): seq<Message> {
    if response.to in o.awaiting && !response.code.Good? then [o.awaiting[response.to]] else []
  }

  /** The bookkeeping of a response: the request it answers is forgotten, and repeated after an error. */
  function Settle(o: Outbox, response: Response): Outbox {
    o.(queue := o.queue + Retried(o, response), awaiting := o.awaiting - {response.to})
  }

  /** The contents of a response that the edge router goes on to deliver. */
  function Delivering(m: Message): seq<Content> {
    if m.body.Reply? && m.body.response.code.Good? then m.body.response.contents else []
  }

  function ContentsFor(ids: seq<string>, msgs: Store): (contents: seq<Content>)
    requires forall u :: u in ids ==> u in msgs
    ensures |contents| == |ids|
  {
    seq(|ids|, i requires 0 <= i < |ids| => Content(ids[i], AppOf(msgs[ids[i]])))
  }

  // ---- requests ----

  function SubjectRequest(uuid: string, subject: string): Message {
    Message(ProtocolMessage, uuid, Protocol(SubscribeType, Subscribe(OnSubject(subject))))
  }

  function WithdrawRequest(uuid: string, subject: string): Message {
    Message(ProtocolMessage, uuid, Protocol(UnsubscribeType, Unsubscribe(OnSubject(subject))))
  }

  function ReceiveRequest(uuid: string, ids: seq<string>): Message {
    Message(ProtocolMessage, uuid, Protocol(ReceiveType, Receive(ids)))
  }

  function SubjectOf(app: AppMessage): string {
    if AddressOf(app).Subject? then AddressOf(app).subject else ""
  }

  function SenderOf(app: AppMessage): string {
    if app.header.Some? then app.header.value.sender else ""
  }

  /** The subject asked for, as the getter reports it. */
  function SubjectIn(interest: Interest): string {
    if interest.OnSubject? then interest.subject else ""
  }

  /** What a router makes of a message from an edge router. */
  datatype Request =
    | SubscribeTo(subject: string)
    | WithdrawFrom(subject: string)
    | PassOn(app: Option<AppMessage>)
    | Collect(ids: seq<string>)
    | Browse   // a Fetch
    | Leave    // a Disconnect
    | Refuse   // a second Connect
    | Ignore

  function RequestOf(m: Message): Request {
    if !m.msgType.ProtocolMessage? || !m.body.Protocol? then Ignore
    else
      var payload := m.body.payload;
      match m.body.kind
      case SubscribeType => if payload.Subscribe? then SubscribeTo(SubjectIn(payload.interest)) else Ignore
      case UnsubscribeType => WithdrawFrom(if payload.Unsubscribe? then SubjectIn(payload.interest) else "")
      case SendType => if payload.Send? then PassOn(payload.app) else Ignore
      case ReceiveType => if payload.Receive? then Collect(payload.filter) else Ignore
      case FetchType => if payload.Fetch? then Browse else Ignore
      case DisconnectType => Leave
      case ConnectType => Refuse
      case _ => Ignore
  }

  // ---- the router's tables and topics ----

  type Edge = string    // the MRN of the edge router
  type Router = nat     // the host identity of the router

  datatype Publication = Publication(from: Router, m: Message)

  datatype JoinResult = JoinWorks | JoinFailed | SubscribeFailed
  datatype PublishResult = Published | PublishFailed | PublishJoinFailed

  datatype RouterState = RouterState(
    table: Table<Edge>,           // subject table of the router
    topics: set<string>,          // topic handles
    listeners: multiset<string>,  // one for every running handleSubscription
    out: seq<Message>,            // outgoing channel
    pub: seq<Publication>,        // publications on their way to the router's listeners
    inbox: seq<Message>,          // incoming channel
    joins: multiset<string>)      // history: successful Join calls

  /** Joins the topic of `subject` unless its handle is there. */
  function JoinTopic(st: RouterState, subject: string): RouterState {
    if subject in st.topics then st
    else st.(topics := st.topics + {subject}, joins := st.joins + multiset{subject})
  }

  /** The router's table work for a Subscribe of `e`, and whether it succeeded. */
  function RouterSubscribe(st: RouterState, e: Edge, subject: string, join: JoinResult): (RouterState, bool) {
    if subject == "" then (st, false)
    else if subject in st.table then (st.(table := AddSubscriber(st.table, subject, e)), true)
    else if subject !in st.topics && join.JoinFailed? then (st, false)
    else if join.SubscribeFailed? then (JoinTopic(st, subject), false)
    else
      (JoinTopic(st, subject).(listeners := st.listeners + multiset{subject},
                               table := AddSubscriber(st.table, subject, e)), true)
  }

  /** Every topic is joined once, every subject with a table entry has its topic handle and exactly one listener. */
  ghost predicate TopicsAgree(st: RouterState) {
    forall subject ::
      && (subject in st.table ==> subject in st.topics)
      && st.listeners[subject] == (if subject in st.table then 1 else 0)
      && st.joins[subject] == (if subject in st.topics then 1 else 0)
  }

  /** A subscription keeps topic handles, listeners and table in step. */
  lemma SubscribeKeepsTopics(st: RouterState, e: Edge, subject: string, join: JoinResult)
    requires TopicsAgree(st)
    ensures TopicsAgree(RouterSubscribe(st, e, subject, join).0)
  {
  }

  lemma TopicsKept(st: RouterState, n: RouterState)
    requires TopicsAgree(st)
    requires n.table == st.table && n.topics == st.topics && n.listeners == st.listeners && n.joins == st.joins
    ensures TopicsAgree(n)
  {
  }

  /** The copies of one publication that reach a router: one for each of its listeners on the topic. */
  function Heard(st: RouterState, subject: string, p: Publication): seq<Publication> {
    seq(st.listeners[subject], _ => p)
  }

  lemma HeardAlike(st: RouterState, n: RouterState, subject: string, p: Publication)
    requires n.listeners == st.listeners
    ensures Heard(st, subject, p) == Heard(n, subject, p)
  {
  }

  // ---- fan-out laws ----

  lemma FanOutNobody<A>(boxes: map<A, Box>, m: Message)
    ensures FanOut(boxes, {}, m) == boxes
  {
  }

  /** Queueing for one more consumer: a second time makes no difference. */
  lemma FanOutOneMore<A>(boxes: map<A, Box>, targets: set<A>, u: A, m: Message)
    ensures FanOut(FanOut(boxes, targets, m), {u}, m) == FanOut(boxes, targets + {u}, m)
  {
    FanOutTwice(boxes, targets, {u}, m);
  }

  lemma FanOutTwice<A>(boxes: map<A, Box>, targets: set<A>, more: set<A>, m: Message)
    ensures FanOut(FanOut(boxes, targets, m), more, m) == FanOut(boxes, targets + more, m)
  {
    forall v | v in boxes ensures Queue(Queue(boxes[v], m), m) == Queue(boxes[v], m) {
      if m.uuid != "" {
        assert boxes[v].messages[m.uuid := m][m.uuid := m] == boxes[v].messages[m.uuid := m];
        assert boxes[v].notifications[m.uuid := m][m.uuid := m] == boxes[v].notifications[m.uuid := m];
      }
    }
    hide Queue;
    var twice, once := FanOut(FanOut(boxes, targets, m), more, m), FanOut(boxes, targets + more, m);
    forall v | v in boxes ensures twice[v] == once[v] {}
  }

  /** A message without a UUID is queued nowhere, whatever the targets. */
  lemma FanOutMissing<A>(boxes: map<A, Box>, targets: set<A>, others: set<A>, m: Message)
    requires m.uuid == "" || targets == others
    ensures FanOut(boxes, targets, m) == FanOut(boxes, others, m)
  {
  }

  /** The expired messages of these owners are gone. */
  function ExpireFor<A>(boxes: map<A, Box>, owners: set<A>, now: int): (r: map<A, Box>)
    ensures r.Keys == boxes.Keys
  {
    map u | u in boxes :: if u in owners then Expire(boxes[u], now) else boxes[u]
  }

  /** What a garbage collection leaves of a mailbox's messages: those that have not expired. */
  ghost predicate Collected(before: Store, after: Store, now: int) {
    && (forall key :: key in after <==> key in before && now <= ExpiresOf(before[key]))
    && (forall key :: key in after ==> after[key] == before[key])
  }

  /** The owners' messages are collected, everything else is as it was. */
  lemma CollectedFrom<A>(boxes: map<A, Box>, owners: set<A>, now: int, u: A)
    requires u in boxes
    ensures
      var b, c := boxes[u], ExpireFor(boxes, owners, now)[u];
      && c.notifications == b.notifications
      && if u in owners then Collected(b.messages, c.messages, now) else c.messages == b.messages
  {
  }

  lemma ExpireNobody<A>(boxes: map<A, Box>, now: int)
    ensures ExpireFor(boxes, {}, now) == boxes
  {
  }

  lemma ExpireOneMore<A>(boxes: map<A, Box>, owners: set<A>, u: A, now: int)
    ensures ExpireFor(ExpireFor(boxes, owners, now), {u}, now) == ExpireFor(boxes, owners + {u}, now)
  {
    forall v | v in boxes ensures Expire(Expire(boxes[v], now), now) == Expire(boxes[v], now) {
      assert Live(Live(boxes[v].messages, now), now) == Live(boxes[v].messages, now);
    }
    hide Expire;
    var twice, once := ExpireFor(ExpireFor(boxes, owners, now), {u}, now), ExpireFor(boxes, owners + {u}, now);
    forall v | v in boxes ensures twice[v] == once[v] {}
  }
}
