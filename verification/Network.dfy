/** The network of agents, edge routers and routers as one transition system. A step is one handler run, taken
    as atomic; links and the publish/subscribe overlay are queues; writes, joins and publications succeed or
    fail as the environment chooses. Only subject-cast Sends enter this network. */
module Network {
  import opened Mmtp
  import opened MailboxSpec
  import opened Routing

  type Agent = nat

  /** Who is connected to whom, and which UUIDs are well-formed version 4 ones. */
  datatype Config = Config(
    agents: set<Agent>, edges: set<Edge>, routers: set<Router>,
    home: Agent -> Edge, mrn: Agent -> string, uplink: Edge -> Router, v4: string -> bool)

  datatype EdgeState = EdgeState(
    subs: Table<Agent>,           // subject table of the edge router
    out: Outbox,                  // its outgoing channel
    up: seq<Message>,             // link to its router
    down: seq<Message>)           // and back

  datatype Net = Net(
    now: int,
    edges: map<Edge, EdgeState>,
    routers: map<Router, RouterState>,
    ebox: map<Edge, Box>,         // mailboxes of edge routers at their routers
    abox: map<Agent, Box>,        // mailboxes of agents at their edge routers
    // history
    delivered: map<Agent, seq<Store>>,  // what was written to the agents, receive by receive
    names: Store,                       // the request that a UUID names
    sent: map<SendId, AppMessage>)      // the accepted Sends

  datatype AgentStep =
    | SubscribeStep(subject: string, uuid: string)
    | UnsubscribeStep(subject: string)
    | SubscribeDirectStep(uuid: string)
    | UnsubscribeDirectStep(uuid: string)
    | SendStep(uuid: string, app: AppMessage)
    | NotifyStep(written: bool)
    | ReceiveSomeStep(ids: seq<string>, written: bool)
    | ReceiveAllStep(written: bool)
    | ExpireStep   // a fetch or a garbage collection

  datatype EdgeStep =
    | WriteStep(written: bool)
    | UplinkStep(replyId: string, written: bool, join: JoinResult, order: seq<string>)
    | PullStep(replyId: string, written: bool, order: seq<string>)
    | DownlinkStep(newIds: seq<string>, uuid: string)
    | ExpireEdgeStep

  datatype RouterStep =
    | PublishStep(result: PublishResult)
    | ListenStep
    | IncomingStep

  datatype Step =
    | AgentDoes(a: Agent, agent: AgentStep)
    | EdgeDoes(e: Edge, edge: EdgeStep)
    | RouterDoes(r: Router, router: RouterStep)
    | Tick(now: int)

  ghost predicate ValidConfig(cfg: Config) {
    && (forall a :: a in cfg.agents ==> cfg.home(a) in cfg.edges)
    && (forall e :: e in cfg.edges ==> cfg.uplink(e) in cfg.routers)
  }

  /** Every owner has its state. */
  ghost predicate Shape(cfg: Config, s: Net) {
    && s.edges.Keys == cfg.edges && s.ebox.Keys == cfg.edges
    && s.routers.Keys == cfg.routers
    && s.abox.Keys == cfg.agents && s.delivered.Keys == cfg.agents
  }

  ghost predicate Init(cfg: Config, s: Net) {
    && ValidConfig(cfg) && Shape(cfg, s)
    && (forall e :: e in s.edges ==> s.edges[e] == EdgeState(map[], Outbox([], map[], []), [], []))
    && (forall e :: e in s.ebox ==> s.ebox[e] == Box(map[], map[]))
    && (forall r :: r in s.routers ==> s.routers[r] == RouterState(map[], {}, multiset{}, [], [], [], multiset{}))
    && (forall a :: a in s.abox ==> s.abox[a] == Box(map[], map[]))
    && (forall a :: a in s.delivered ==> s.delivered[a] == [])
    && s.names == map[] && s.sent == map[]
  }

  predicate SameOwners(s: Net, n: Net) {
    && n.edges.Keys == s.edges.Keys && n.ebox.Keys == s.ebox.Keys && n.routers.Keys == s.routers.Keys
    && n.abox.Keys == s.abox.Keys && n.delivered.Keys == s.delivered.Keys
  }

  /** Agents' mailboxes and what they were given are untouched. */
  predicate SameAgents(s: Net, n: Net) {
    n.abox == s.abox && n.delivered == s.delivered
  }

  // ---- what an agent's connection does at its edge router ----

  /** `m` joins the outgoing channel of `e`, and its UUID names it from now on. */
  function Push(s: Net, e: Edge, m: Message): (n: Net)
    requires e in s.edges
    ensures SameOwners(s, n) && n.sent == s.sent && SameAgents(s, n)
  {
    var st := s.edges[e];
    s.(edges := s.edges[e := st.(out := st.out.(queue := st.out.queue + [m]))], names := s.names[m.uuid := m])
  }

  function SetTable(s: Net, e: Edge, table: Table<Agent>): (n: Net)
    requires e in s.edges
    ensures SameOwners(s, n) && n.sent == s.sent && SameAgents(s, n)
  {
    s.(edges := s.edges[e := s.edges[e].(subs := table)])
  }

  /** The first subscriber of a subject makes the edge router subscribe at its router. */
  function DoSubscribe(s: Net, e: Edge, a: Agent, subject: string, uuid: string): (n: Net)
    requires e in s.edges
    ensures SameOwners(s, n) && n.sent == s.sent && SameAgents(s, n)
  {
    var s1 := if subject in s.edges[e].subs then s else Push(s, e, SubjectRequest(uuid, subject));
    SetTable(s1, e, AddSubscriber(s.edges[e].subs, subject, a))
  }

  /** The local subscribers that a Send is queued for at once. */
  function SendTargets(cfg: Config, table: Table<Agent>, a: Agent, app: AppMessage): set<Agent> {
    SentTo(table, map[], {}, cfg.mrn, cfg.mrn(a), AddressOf(app))
  }

  function DoSend(cfg: Config, s: Net, e: Edge, a: Agent, uuid: string, app: AppMessage): (n: Net)
    requires e in s.edges
    ensures SameOwners(s, n)
  {
    var m := SendMessage(uuid, app);
    Push(s, e, m).(abox := FanOut(s.abox, SendTargets(cfg, s.edges[e].subs, a, app), m), sent := s.sent[app.tag := app])
  }

  function DeliverTo(s: Net, a: Agent, box: Box, batch: Store): (n: Net)
    requires a in s.abox && a in s.delivered
    ensures SameOwners(s, n) && n.sent == s.sent
  {
    s.(abox := s.abox[a := box], delivered := s.delivered[a := s.delivered[a] + [batch]])
  }

  // ---- the edge router and its link ----

  function DoWrite(s: Net, e: Edge, written: bool): (n: Net)
    requires e in s.edges && s.edges[e].out.queue != []
    ensures SameOwners(s, n) && n.sent == s.sent && SameAgents(s, n)
  {
    var st := s.edges[e];
    var m := st.out.queue[0];
    var up := if written && m.msgType.ProtocolMessage? then st.up + [m] else st.up;
    s.(edges := s.edges[e := st.(out := WriteFirst(st.out, written), up := up)])
  }

  /** A reply reaches the link when its write succeeds. */
  function SendDown(s: Net, e: Edge, m: Message, written: bool): (n: Net)
    requires e in s.edges
    ensures SameOwners(s, n) && n.sent == s.sent && SameAgents(s, n)
  {
    if written then s.(edges := s.edges[e := s.edges[e].(down := s.edges[e].down + [m])]) else s
  }

  function DoRouterSubscribe(s: Net, r: Router, e: Edge, m: Message, subject: string, join: JoinResult,
                             replyId: string, written: bool): (n: Net)
    requires r in s.routers && e in s.edges
    ensures SameOwners(s, n) && n.sent == s.sent && SameAgents(s, n)
  {
    var (st, ok) := RouterSubscribe(s.routers[r], e, subject, join);
    SendDown(s.(routers := s.routers[r := st]), e,
             if ok then GoodReply(replyId, m.uuid, [], []) else ErrorReply(replyId, m.uuid), written)
  }

  function DoRouterUnsubscribe(s: Net, r: Router, e: Edge, m: Message, subject: string,
                               replyId: string, written: bool): (n: Net)
    requires r in s.routers && e in s.edges
    ensures SameOwners(s, n) && n.sent == s.sent && SameAgents(s, n)
  {
    if subject == "" then SendDown(s, e, ErrorReply(replyId, m.uuid), written)
    else
      var st := s.routers[r];
      SendDown(s.(routers := s.routers[r := st.(table := DropSubscriber(st.table, subject, e))]), e,
               GoodReply(replyId, m.uuid, [], []), written)
  }

  /** A Send of `e` is published later and queued at once for the router's other subscribers. */
  function DoRouterSend(s: Net, r: Router, e: Edge, m: Message, app: AppMessage, replyId: string,
                        written: bool): (n: Net)
    requires r in s.routers && e in s.edges
    ensures SameOwners(s, n) && n.sent == s.sent && SameAgents(s, n)
  {
    var st := s.routers[r];
    SendDown(s.(routers := s.routers[r := st.(out := st.out + [m])],
                ebox := FanOut(s.ebox, Subscribers(st.table, SubjectOf(app)) - {e}, m)),
             e, GoodReply(replyId, m.uuid, [], []), written)
  }

  /** The UUIDs a Receive of an edge router is answered with: the selected ones, or all live ones in some order. */
  function Answer(b: Box, ids: seq<string>, order: seq<string>): seq<string> {
    if ids == [] then order else Selected(ids, b.messages.Keys)
  }

  ghost predicate ListsKeys(order: seq<string>, msgs: Store) {
    Distinct(order) && SetOf(order) == msgs.Keys
  }

  lemma NothingListed()
    ensures ListsKeys([], Live(map[], 0))
  {
  }

  lemma AnswerStored(b: Box, ids: seq<string>, now: int, order: seq<string>)
    requires ListsKeys(order, Live(b.messages, now))
    ensures Distinct(Answer(b, ids, order))
    ensures forall u :: u in Answer(b, ids, order) ==> u in b.messages
  {
    SelectedExact(ids, b.messages.Keys);
    assert forall u :: u in Selected(ids, b.messages.Keys) ==> u in SetOf(Selected(ids, b.messages.Keys));
    assert forall u :: u in order ==> u in SetOf(order);
  }

  ghost function DoReceive(s: Net, e: Edge, m: Message, ids: seq<string>, replyId: string, written: bool,
                           order: seq<string>): (n: Net)
    requires e in s.edges && e in s.ebox && ListsKeys(order, Live(s.ebox[e].messages, s.now))
    ensures SameOwners(s, n) && n.sent == s.sent && SameAgents(s, n)
  {
    AnswerStored(s.ebox[e], ids, s.now, order);
    var contents := ContentsFor(Answer(s.ebox[e], ids, order), s.ebox[e].messages);
    SendDown(s.(ebox := s.ebox[e := BoxAfterReceive(s.ebox[e], ids, s.now, written)]), e,
             GoodReply(replyId, m.uuid, [], contents), written)
  }

  function PopUp(s: Net, e: Edge): (n: Net)
    requires e in s.edges && s.edges[e].up != []
    ensures SameOwners(s, n) && n.sent == s.sent && SameAgents(s, n)
  {
    s.(edges := s.edges[e := s.edges[e].(up := s.edges[e].up[1..])])
  }

  lemma PassesItsOwn(m: Message)
    ensures RequestOf(m).PassOn? ==> AppOf(m) == RequestOf(m).app
  {
  }

  /** The router of `e` handles the message `m`. An edge router sends no other request than these four. */
  ghost function Serve(s: Net, e: Edge, r: Router, m: Message, replyId: string, written: bool, join: JoinResult,
                       order: seq<string>): (n: Net)
    requires e in s.edges && e in s.ebox && r in s.routers
    requires ListsKeys(order, Live(s.ebox[e].messages, s.now))
    ensures SameOwners(s, n) && n.sent == s.sent && SameAgents(s, n)
  {
    match RequestOf(m)
    case SubscribeTo(subject) => DoRouterSubscribe(s, r, e, m, subject, join, replyId, written)
    case WithdrawFrom(subject) => DoRouterUnsubscribe(s, r, e, m, subject, replyId, written)
    case PassOn(Some(app)) => DoRouterSend(s, r, e, m, app, replyId, written)
    case Collect(ids) => DoReceive(s, e, m, ids, replyId, written, order)
    case _ => s
  }

  /** The router handles the first message that came up the link of `e`. */
  ghost function DoUplink(s: Net, e: Edge, r: Router, replyId: string, written: bool, join: JoinResult,
                          order: seq<string>): (n: Net)
    requires e in s.edges && e in s.ebox && r in s.routers && s.edges[e].up != []
    requires ListsKeys(order, Live(s.ebox[e].messages, s.now))
    ensures SameOwners(s, n) && n.sent == s.sent && SameAgents(s, n)
  {
    Serve(PopUp(s, e), e, r, s.edges[e].up[0], replyId, written, join, order)
  }

  /** One round of the router's notifier for `e`; `order` lists the due notifications. */
  ghost function DoPull(s: Net, e: Edge, written: bool, order: seq<string>, replyId: string): (n: Net)
    requires e in s.edges && e in s.ebox && ListsKeys(order, s.ebox[e].notifications)
    ensures SameOwners(s, n) && n.sent == s.sent && SameAgents(s, n)
  {
    if s.ebox[e].notifications == map[] then s
    else
      assert forall i :: 0 <= i < |order| ==> order[i] in SetOf(order);
      var metadata := seq(|order|, i requires 0 <= i < |order| =>
        Metadata(order[i], HeaderOf(s.ebox[e].notifications[order[i]])));
      SendDown(s.(ebox := s.ebox[e := NotifyAll(s.ebox[e], written)]), e,
               Message(ProtocolMessage, replyId, Protocol(NotifyType, Notify(metadata))), written)
  }

  /** The fresh UUIDs name the messages that the edge router makes of a response's entries. */
  function NameRequeued(names: Store, contents: seq<Content>, newIds: seq<string>): Store
    requires |newIds| == |contents|
  {
    if contents == [] then names
    else
      var n := |contents| - 1;
      var before := NameRequeued(names, contents[..n], newIds[..n]);
      if contents[n].app.None? then before else before[newIds[n] := SendMessage(newIds[n], contents[n].app.value)]
  }

  function PopDown(s: Net, e: Edge): (n: Net)
    requires e in s.edges && s.edges[e].down != []
    ensures SameOwners(s, n) && n.sent == s.sent && SameAgents(s, n)
  {
    s.(edges := s.edges[e := s.edges[e].(down := s.edges[e].down[1..])])
  }

  /** The bookkeeping of a response. */
  function SettleAt(s: Net, e: Edge, response: Response): (n: Net)
    requires e in s.edges
    ensures SameOwners(s, n) && n.sent == s.sent && SameAgents(s, n)
  {
    s.(edges := s.edges[e := s.edges[e].(out := Settle(s.edges[e].out, response))])
  }

  /** The edge router `e` queues the entries of a response for its agents. */
  function DeliverAt(s: Net, e: Edge, contents: seq<Content>, newIds: seq<string>): (n: Net)
    requires e in s.edges && |newIds| == |contents|
    ensures SameOwners(s, n) && n.sent == s.sent
  {
    s.(abox := Deliver(s.abox, s.edges[e].subs, map[], {}, contents, newIds, s.now),
       names := NameRequeued(s.names, contents, newIds))
  }

  /** The edge router `e` handles the message `m` of its router. */
  function Unpack(s: Net, e: Edge, m: Message, newIds: seq<string>, uuid: string): (n: Net)
    requires e in s.edges && |newIds| == |Delivering(m)|
    ensures SameOwners(s, n) && n.sent == s.sent
  {
    match m.body
    case Reply(response) => DeliverAt(SettleAt(s, e, response), e, Delivering(m), newIds)
    case Protocol(NotifyType, Notify(metadata)) => Push(s, e, ReceiveRequest(uuid, MetadataIds(metadata)))
    case _ => s
  }

  /** The edge router handles the first message that came down its link. */
  function DoDownlink(s: Net, e: Edge, newIds: seq<string>, uuid: string): (n: Net)
    requires e in s.edges && s.edges[e].down != [] && |newIds| == |Delivering(s.edges[e].down[0])|
    ensures SameOwners(s, n) && n.sent == s.sent
  {
    Unpack(PopDown(s, e), e, s.edges[e].down[0], newIds, uuid)
  }

  function ExpireEdge(s: Net, e: Edge): (n: Net)
    requires e in s.ebox
    ensures SameOwners(s, n) && n.sent == s.sent && SameAgents(s, n)
  {
    s.(ebox := s.ebox[e := Expire(s.ebox[e], s.now)])
  }

  // ---- the router and the overlay ----

  function Publish(routers: map<Router, RouterState>, subject: string, p: Publication): (n: map<Router, RouterState>)
    ensures n.Keys == routers.Keys
  {
    map q | q in routers :: routers[q].(pub := routers[q].pub + Heard(routers[q], subject, p))
  }

  function AfterPublish(routers: map<Router, RouterState>, r: Router,
                        result: PublishResult): (n: map<Router, RouterState>)
    requires r in routers && routers[r].out != []
    ensures n.Keys == routers.Keys
  {
    var m := routers[r].out[0];
    var st := routers[r].(out := routers[r].out[1..]);
    if !m.msgType.ProtocolMessage? || AppOf(m).None? || !AddressOf(AppOf(m).value).Subject? then routers[r := st]
    else
      var subject := SubjectOf(AppOf(m).value);
      if subject !in st.topics && result.PublishJoinFailed? then routers[r := st]
      else if result.PublishFailed? then routers[r := JoinTopic(st, subject)]
      else Publish(routers[r := JoinTopic(st, subject)], subject, Publication(r, m))
  }

  /** The router publishes the first message of its outgoing channel on the topic of its subject. */
  function DoPublish(s: Net, r: Router, result: PublishResult): (n: Net)
    requires r in s.routers && s.routers[r].out != []
    ensures SameOwners(s, n) && n.sent == s.sent && SameAgents(s, n)
  {
    s.(routers := AfterPublish(s.routers, r, result))
  }

  /** A listener takes a publication: its own router's ones and ones without a version 4 UUID are discarded. */
  function DoListen(cfg: Config, s: Net, r: Router): (n: Net)
    requires r in s.routers && s.routers[r].pub != []
    ensures SameOwners(s, n) && n.sent == s.sent && SameAgents(s, n)
  {
    var p := s.routers[r].pub[0];
    var st := s.routers[r].(pub := s.routers[r].pub[1..]);
    var keep := p.from != r && cfg.v4(p.m.uuid) && p.m.msgType.ProtocolMessage?
                && p.m.body.Protocol? && p.m.body.payload.Send?;
    s.(routers := s.routers[r := if keep then st.(inbox := st.inbox + [p.m]) else st])
  }

  function DoIncoming(s: Net, r: Router): (n: Net)
    requires r in s.routers && s.routers[r].inbox != []
    ensures SameOwners(s, n) && n.sent == s.sent && SameAgents(s, n)
  {
    var m := s.routers[r].inbox[0];
    var st := s.routers[r].(inbox := s.routers[r].inbox[1..]);
    var s1 := s.(routers := s.routers[r := st]);
    if !m.msgType.ProtocolMessage? || AppOf(m).None? || !InWindow(AppOf(m).value, s.now)
       || !AddressOf(AppOf(m).value).Subject? then s1
    else s1.(ebox := FanOut(s.ebox, Subscribers(st.table, SubjectOf(AppOf(m).value)), m))
  }

  // ---- steps ----

  ghost predicate FreshFor(s: Net, uuid: string) {
    uuid != "" && uuid !in s.names
  }

  /** The edge router accepts the Send of `a`: a subject-cast whose sender is the agent. Authentication and
      the signature check are up to the environment; an authenticated agent has an MRN. */
  predicate Acceptable(cfg: Config, a: Agent, app: AppMessage) {
    && cfg.mrn(a) != "" && SenderOf(app) == cfg.mrn(a)
    && AddressOf(app).Subject? && 0 < |SubjectOf(app)| <= 100
    && app.tag.edge == cfg.home(a)
  }

  ghost predicate AgentEnabled(cfg: Config, s: Net, a: Agent, step: AgentStep) {
    match step
    case SubscribeStep(subject, uuid) => subject != "" && FreshFor(s, uuid)
    case UnsubscribeStep(subject) => subject != ""
    case SubscribeDirectStep(uuid) => cfg.mrn(a) != "" && FreshFor(s, uuid)
    case UnsubscribeDirectStep(uuid) => cfg.mrn(a) != "" && FreshFor(s, uuid)
    case SendStep(uuid, app) => FreshFor(s, uuid) && Acceptable(cfg, a, app) && app.tag !in s.sent
    case ReceiveSomeStep(ids, _) => ids != []
    case _ => true
  }

  /** Something came down the link, and the edge router has fresh UUIDs for what it will make of it. */
  ghost predicate DownReady(s: Net, e: Edge, newIds: seq<string>, uuid: string)
    requires e in s.edges
  {
    && s.edges[e].down != [] && |newIds| == |Delivering(s.edges[e].down[0])|
    && Distinct(newIds + [uuid]) && forall u :: u in newIds + [uuid] ==> FreshFor(s, u)
  }

  ghost predicate EdgeEnabled(s: Net, e: Edge, step: EdgeStep)
    requires e in s.edges && e in s.ebox
  {
    match step
    case WriteStep(_) => s.edges[e].out.queue != []
    case UplinkStep(_, _, _, order) => s.edges[e].up != [] && ListsKeys(order, Live(s.ebox[e].messages, s.now))
    case PullStep(_, _, order) => ListsKeys(order, s.ebox[e].notifications)
    case DownlinkStep(newIds, uuid) => DownReady(s, e, newIds, uuid)
    case ExpireEdgeStep => true
  }

  ghost predicate RouterEnabled(s: Net, r: Router, step: RouterStep)
    requires r in s.routers
  {
    match step
    case PublishStep(_) => s.routers[r].out != []
    case ListenStep => s.routers[r].pub != []
    case IncomingStep => s.routers[r].inbox != []
  }

  ghost function AgentApply(cfg: Config, s: Net, a: Agent, step: AgentStep): (n: Net)
    requires cfg.home(a) in s.edges && a in s.abox && a in s.delivered && AgentEnabled(cfg, s, a, step)
    ensures SameOwners(s, n) && (!step.SendStep? ==> n.sent == s.sent)
  {
    var e := cfg.home(a);
    match step
    case SubscribeStep(subject, uuid) => DoSubscribe(s, e, a, subject, uuid)
    case UnsubscribeStep(subject) => SetTable(s, e, DropSubscriber(s.edges[e].subs, subject, a))
    case SubscribeDirectStep(uuid) => Push(s, e, SubjectRequest(uuid, cfg.mrn(a)))
    case UnsubscribeDirectStep(uuid) => Push(s, e, WithdrawRequest(uuid, cfg.mrn(a)))
    case SendStep(uuid, app) => DoSend(cfg, s, e, a, uuid, app)
    case NotifyStep(written) => s.(abox := s.abox[a := NotifyAll(s.abox[a], written)])
    case ReceiveSomeStep(ids, written) =>
      DeliverTo(s, a, ReceiveSome(s.abox[a], ids, written),
                if written then Requested(s.abox[a].messages, ids) else map[])
    case ReceiveAllStep(written) =>
      DeliverTo(s, a, ReceiveAll(s.abox[a], s.now, written),
                if written then Live(s.abox[a].messages, s.now) else map[])
    case ExpireStep => s.(abox := s.abox[a := Expire(s.abox[a], s.now)])
  }

  /** The step touches nothing but the agent's mailbox and what it was given. */
  predicate OwnBox(step: AgentStep) {
    step.NotifyStep? || step.ReceiveSomeStep? || step.ReceiveAllStep? || step.ExpireStep?
  }

  lemma OwnBoxFrame(cfg: Config, s: Net, a: Agent, step: AgentStep)
    requires Shape(cfg, s) && ValidConfig(cfg) && a in cfg.agents && AgentEnabled(cfg, s, a, step) && OwnBox(step)
    ensures
      var n := AgentApply(cfg, s, a, step);
      n.edges == s.edges && n.names == s.names && n.routers == s.routers && n.ebox == s.ebox
  {
    hide Live, ReceiveSome, ReceiveAll, Expire, NotifyAll, Requested, SameOwners;
  }

  ghost function EdgeApply(cfg: Config, s: Net, e: Edge, step: EdgeStep): (n: Net)
    requires e in s.edges && e in s.ebox && cfg.uplink(e) in s.routers && EdgeEnabled(s, e, step)
    ensures SameOwners(s, n) && n.sent == s.sent && (!step.DownlinkStep? ==> SameAgents(s, n))
  {
    match step
    case WriteStep(written) => DoWrite(s, e, written)
    case UplinkStep(replyId, written, join, order) => DoUplink(s, e, cfg.uplink(e), replyId, written, join, order)
    case PullStep(replyId, written, order) => DoPull(s, e, written, order, replyId)
    case DownlinkStep(newIds, uuid) => DoDownlink(s, e, newIds, uuid)
    case ExpireEdgeStep => ExpireEdge(s, e)
  }

  function RouterApply(cfg: Config, s: Net, r: Router, step: RouterStep): (n: Net)
    requires r in s.routers && RouterEnabled(s, r, step)
    ensures SameOwners(s, n) && n.sent == s.sent && SameAgents(s, n)
  {
    match step
    case PublishStep(result) => DoPublish(s, r, result)
    case ListenStep => DoListen(cfg, s, r)
    case IncomingStep => DoIncoming(s, r)
  }

  ghost predicate Enabled(cfg: Config, s: Net, step: Step) {
    && ValidConfig(cfg) && Shape(cfg, s)
    && match step
       case AgentDoes(a, agent) => a in cfg.agents && AgentEnabled(cfg, s, a, agent)
       case EdgeDoes(e, edge) => e in cfg.edges && EdgeEnabled(s, e, edge)
       case RouterDoes(r, router) => r in cfg.routers && RouterEnabled(s, r, router)
       case Tick(now) => s.now <= now
  }

  ghost function Apply(cfg: Config, s: Net, step: Step): Net
    requires Enabled(cfg, s, step)
  {
    match step
    case AgentDoes(a, agent) => AgentApply(cfg, s, a, agent)
    case EdgeDoes(e, edge) => EdgeApply(cfg, s, e, edge)
    case RouterDoes(r, router) => RouterApply(cfg, s, r, router)
    case Tick(now) => s.(now := now)
  }

  ghost predicate IsRun(cfg: Config, run: seq<Net>, steps: seq<Step>) {
    && |run| == |steps| + 1 && Init(cfg, run[0])
    && forall i :: 0 <= i < |steps| ==>
         Enabled(cfg, run[i], steps[i]) && run[i + 1] == Apply(cfg, run[i], steps[i])
  }

  /** A step keeps the shape, so a run never stops for want of an owner's state. */
  lemma ShapeStep(cfg: Config, s: Net, step: Step)
    requires Enabled(cfg, s, step)
    ensures Shape(cfg, Apply(cfg, s, step))
  {
  }
}
