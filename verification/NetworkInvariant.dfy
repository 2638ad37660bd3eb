/** What every reachable state of the network satisfies: requests are genuine and where they belong, tables
    hold only neighbours, no Send echoes, and topics, listeners and tables agree. */
module NetworkInvariant {
  import opened Mmtp
  import opened MailboxSpec
  import opened Routing
  import opened Network

  datatype Past = Past(names: Store, sent: map<SendId, AppMessage>)

  function PastOf(s: Net): Past {
    Past(s.names, s.sent)
  }

  ghost predicate Extends(h: Past, k: Past) {
    && (forall u :: u in h.names ==> u in k.names && k.names[u] == h.names[u])
    && (forall t :: t in h.sent ==> t in k.sent && k.sent[t] == h.sent[t])
  }

  /** `app` is what was accepted under its tag, a subject-cast. */
  ghost predicate Genuine(h: Past, app: AppMessage) {
    app.tag in h.sent && h.sent[app.tag] == app && app.header.Some? && SubjectOf(app) != ""
  }

  /** A Send is the message its UUID names, and carries a genuine application message. */
  ghost predicate SendOk(h: Past, m: Message) {
    AppOf(m).Some? ==>
      && m == SendMessage(m.uuid, AppOf(m).value) && m.uuid != ""
      && m.uuid in h.names && h.names[m.uuid] == m && Genuine(h, AppOf(m).value)
  }

  /** The four requests an edge router sends. */
  predicate Ordinary(m: Message) {
    var q := RequestOf(m);
    q.SubscribeTo? || q.WithdrawFrom? || q.Collect? || (q.PassOn? && q.app.Some?)
  }

  /** A request on its way from `e`: one of the four, and only its own Sends. */
  ghost predicate RequestOk(h: Past, e: Edge, m: Message) {
    m.body.Protocol? && Ordinary(m) && SendOk(h, m) && (AppOf(m).Some? ==> AppOf(m).value.tag.edge == e)
  }

  predicate IsNotify(m: Message) {
    m.msgType.ProtocolMessage? && m.body.Protocol? && m.body.kind.NotifyType? && m.body.payload.Notify?
  }

  /** A message on its way to `e`: a response or a Notify, and never with what `e` itself accepted. */
  ghost predicate DownOk(h: Past, e: Edge, m: Message) {
    && (m.body.Reply? || IsNotify(m))
    && forall c :: c in Delivering(m) && c.app.Some? ==> Genuine(h, c.app.value) && c.app.value.tag.edge != e
  }

  ghost predicate TableOk(cfg: Config, e: Edge, table: Table<Agent>) {
    forall subject, a :: a in Subscribers(table, subject) ==> a in cfg.agents && cfg.home(a) == e
  }

  ghost predicate OutboxOk(h: Past, e: Edge, o: Outbox) {
    && (forall m :: m in o.queue ==> RequestOk(h, e, m))
    && (forall u :: u in o.awaiting ==> RequestOk(h, e, o.awaiting[u]) && AppOf(o.awaiting[u]).None?)
  }

  ghost predicate EdgeOk(cfg: Config, h: Past, e: Edge, st: EdgeState) {
    && TableOk(cfg, e, st.subs) && OutboxOk(h, e, st.out)
    && (forall m :: m in st.up ==> RequestOk(h, e, m))
    && (forall m :: m in st.down ==> DownOk(h, e, m))
  }

  ghost predicate RouterTableOk(cfg: Config, r: Router, table: Table<Edge>) {
    forall subject, e :: e in Subscribers(table, subject) ==> e in cfg.edges && cfg.uplink(e) == r
  }

  ghost predicate CarriesSend(h: Past, m: Message) {
    AppOf(m).Some? && SendOk(h, m)
  }

  ghost predicate RouterOk(cfg: Config, h: Past, r: Router, st: RouterState) {
    && RouterTableOk(cfg, r, st.table) && TopicsAgree(st)
    && (forall m :: m in st.out ==> CarriesSend(h, m) && cfg.uplink(AppOf(m).value.tag.edge) == r)
    && (forall p :: p in st.pub ==>
         CarriesSend(h, p.m) && cfg.uplink(AppOf(p.m).value.tag.edge) == p.from
         && SubjectOf(AppOf(p.m).value) in st.table)
    && (forall m :: m in st.inbox ==>
         CarriesSend(h, m) && cfg.uplink(AppOf(m).value.tag.edge) != r && SubjectOf(AppOf(m).value) in st.table)
  }

  ghost predicate EdgeBoxOk(h: Past, e: Edge, b: Box) {
    && (forall u :: u in b.messages ==>
         b.messages[u].uuid == u && CarriesSend(h, b.messages[u]) && AppOf(b.messages[u]).value.tag.edge != e)
    && (forall u :: u in b.notifications ==> b.notifications[u].uuid == u && CarriesSend(h, b.notifications[u]))
  }

  /** A message for an agent: genuine, and not one that its own MRN sent at its own edge router. */
  ghost predicate ForAgent(cfg: Config, h: Past, a: Agent, m: Message) {
    && AppOf(m).Some? && Genuine(h, AppOf(m).value)
    && (AppOf(m).value.tag.edge == cfg.home(a) ==> SenderOf(AppOf(m).value) != cfg.mrn(a))
  }

  ghost predicate AgentBoxOk(cfg: Config, h: Past, a: Agent, b: Box) {
    && (forall u :: u in b.messages ==>
         u in h.names && b.messages[u].uuid == u && u != "" && ForAgent(cfg, h, a, b.messages[u]))
    && (forall u :: u in b.notifications ==>
          b.notifications[u].uuid == u && u != "" && ForAgent(cfg, h, a, b.notifications[u]))
  }

  ghost predicate DeliveredOk(cfg: Config, h: Past, a: Agent, batches: seq<Store>) {
    forall i, u :: 0 <= i < |batches| && u in batches[i] ==> ForAgent(cfg, h, a, batches[i][u])
  }

  ghost predicate AllOk(cfg: Config, h: Past, s: Net) {
    && (forall e :: e in s.edges ==> EdgeOk(cfg, h, e, s.edges[e]))
    && (forall r :: r in s.routers ==> RouterOk(cfg, h, r, s.routers[r]))
    && (forall e :: e in s.ebox ==> EdgeBoxOk(h, e, s.ebox[e]))
    && (forall a :: a in s.abox ==> AgentBoxOk(cfg, h, a, s.abox[a]))
    && (forall a :: a in s.delivered ==> DeliveredOk(cfg, h, a, s.delivered[a]))
  }

  ghost predicate Inv(cfg: Config, s: Net) {
    ValidConfig(cfg) && Shape(cfg, s) && AllOk(cfg, PastOf(s), s)
  }

  // ---- the past only grows ----

  lemma EdgeOkLater(cfg: Config, h: Past, k: Past, e: Edge, st: EdgeState)
    requires Extends(h, k) && EdgeOk(cfg, h, e, st)
    ensures EdgeOk(cfg, k, e, st)
  {
  }

  lemma RouterOkLater(cfg: Config, h: Past, k: Past, r: Router, st: RouterState)
    requires Extends(h, k) && RouterOk(cfg, h, r, st)
    ensures RouterOk(cfg, k, r, st)
  {
    hide TopicsAgree, RouterTableOk;
  }

  lemma BoxesOkLater(cfg: Config, h: Past, k: Past, e: Edge, a: Agent, b: Box, batches: seq<Store>)
    requires Extends(h, k)
    ensures EdgeBoxOk(h, e, b) ==> EdgeBoxOk(k, e, b)
    ensures AgentBoxOk(cfg, h, a, b) ==> AgentBoxOk(cfg, k, a, b)
    ensures DeliveredOk(cfg, h, a, batches) ==> DeliveredOk(cfg, k, a, batches)
  {
  }

  lemma AllOkLater(cfg: Config, h: Past, k: Past, s: Net)
    requires Extends(h, k) && AllOk(cfg, h, s)
    ensures AllOk(cfg, k, s)
  {
    hide EdgeOk, RouterOk, EdgeBoxOk, AgentBoxOk, DeliveredOk, Extends;
    forall e | e in s.edges ensures EdgeOk(cfg, k, e, s.edges[e]) { EdgeOkLater(cfg, h, k, e, s.edges[e]); }
    forall r | r in s.routers ensures RouterOk(cfg, k, r, s.routers[r]) { RouterOkLater(cfg, h, k, r, s.routers[r]); }
    forall e | e in s.ebox ensures EdgeBoxOk(k, e, s.ebox[e]) { BoxesOkLater(cfg, h, k, e, 0, s.ebox[e], []); }
    forall a | a in s.abox ensures AgentBoxOk(cfg, k, a, s.abox[a]) {
      BoxesOkLater(cfg, h, k, "", a, s.abox[a], []);
    }
    forall a | a in s.delivered ensures DeliveredOk(cfg, k, a, s.delivered[a]) {
      BoxesOkLater(cfg, h, k, "", a, Box(map[], map[]), s.delivered[a]);
    }
  }

  // ---- replacing one owner's state ----

  lemma SetEdgeOk(cfg: Config, h: Past, s: Net, e: Edge, st: EdgeState)
    requires AllOk(cfg, h, s) && EdgeOk(cfg, h, e, st)
    ensures AllOk(cfg, h, s.(edges := s.edges[e := st]))
  {
    hide EdgeOk, RouterOk, EdgeBoxOk, AgentBoxOk, DeliveredOk;
  }

  lemma SetRouterOk(cfg: Config, h: Past, s: Net, r: Router, st: RouterState)
    requires AllOk(cfg, h, s) && RouterOk(cfg, h, r, st)
    ensures AllOk(cfg, h, s.(routers := s.routers[r := st]))
  {
    hide EdgeOk, RouterOk, EdgeBoxOk, AgentBoxOk, DeliveredOk;
  }

  lemma SetEdgeBoxOk(cfg: Config, h: Past, s: Net, e: Edge, b: Box)
    requires AllOk(cfg, h, s) && EdgeBoxOk(h, e, b)
    ensures AllOk(cfg, h, s.(ebox := s.ebox[e := b]))
  {
    hide EdgeOk, RouterOk, EdgeBoxOk, AgentBoxOk, DeliveredOk;
  }

  lemma SetAgentOk(cfg: Config, h: Past, s: Net, a: Agent, b: Box, batches: seq<Store>)
    requires AllOk(cfg, h, s) && AgentBoxOk(cfg, h, a, b) && DeliveredOk(cfg, h, a, batches)
    ensures AllOk(cfg, h, s.(abox := s.abox[a := b], delivered := s.delivered[a := batches]))
  {
    hide EdgeOk, RouterOk, EdgeBoxOk, AgentBoxOk, DeliveredOk;
  }

  lemma QueueOk(cfg: Config, h: Past, a: Agent, e: Edge, b: Box, m: Message)
    requires m.uuid != ""
    ensures AgentBoxOk(cfg, h, a, b) && m.uuid in h.names && ForAgent(cfg, h, a, m) ==>
      AgentBoxOk(cfg, h, a, Queue(b, m))
    ensures EdgeBoxOk(h, e, b) && CarriesSend(h, m) && AppOf(m).value.tag.edge != e ==> EdgeBoxOk(h, e, Queue(b, m))
  {
    hide ForAgent, SendOk;
  }

  /** Fanning a message out keeps the mailboxes right when the message is right for every target. */
  lemma FanOutToAgentsOk(cfg: Config, h: Past, s: Net, targets: set<Agent>, m: Message)
    requires AllOk(cfg, h, s) && m.uuid in h.names && m.uuid != ""
    requires forall a :: a in targets ==> ForAgent(cfg, h, a, m)
    ensures AllOk(cfg, h, s.(abox := FanOut(s.abox, targets, m)))
  {
    hide EdgeOk, RouterOk, EdgeBoxOk, AgentBoxOk, DeliveredOk, ForAgent, CarriesSend, Queue;
    forall a | a in s.abox ensures AgentBoxOk(cfg, h, a, FanOut(s.abox, targets, m)[a]) {
      QueueOk(cfg, h, a, "", s.abox[a], m);
    }
  }

  lemma FanOutToEdgesOk(cfg: Config, h: Past, s: Net, targets: set<Edge>, m: Message)
    requires AllOk(cfg, h, s) && CarriesSend(h, m)
    requires forall e :: e in targets ==> AppOf(m).value.tag.edge != e
    ensures AllOk(cfg, h, s.(ebox := FanOut(s.ebox, targets, m)))
  {
    hide EdgeOk, RouterOk, EdgeBoxOk, AgentBoxOk, DeliveredOk, ForAgent, CarriesSend, Queue;
    NamedSend(h, m);
    forall e | e in s.ebox ensures EdgeBoxOk(h, e, FanOut(s.ebox, targets, m)[e]) {
      QueueOk(cfg, h, 0, e, s.ebox[e], m);
    }
  }

  lemma NamedSend(h: Past, m: Message)
    requires CarriesSend(h, m)
    ensures m.uuid != ""
  {
  }

  // ---- agents' connections ----

  lemma QueueRequestOk(cfg: Config, h: Past, e: Edge, st: EdgeState, m: Message)
    requires EdgeOk(cfg, h, e, st) && RequestOk(h, e, m)
    ensures EdgeOk(cfg, h, e, st.(out := st.out.(queue := st.out.queue + [m])))
  {
    hide RequestOk, TableOk, DownOk;
  }

  lemma PushOk(cfg: Config, s: Net, k: Past, e: Edge, m: Message)
    requires AllOk(cfg, PastOf(s), s) && e in s.edges && Extends(PastOf(s), k) && RequestOk(k, e, m)
    ensures AllOk(cfg, k, Push(s, e, m))
  {
    var st := s.edges[e];
    AllOkLater(cfg, PastOf(s), k, s);
    assert EdgeOk(cfg, k, e, st);
    QueueRequestOk(cfg, k, e, st, m);
    var s1 := s.(edges := s.edges[e := st.(out := st.out.(queue := st.out.queue + [m]))]);
    SetEdgeOk(cfg, k, s, e, st.(out := st.out.(queue := st.out.queue + [m])));
    NamesIrrelevant(cfg, k, s1, Push(s, e, m).names);
  }

  /** `AllOk` takes names and Sends from its second argument only. */
  lemma NamesIrrelevant(cfg: Config, h: Past, s: Net, names: Store)
    requires AllOk(cfg, h, s)
    ensures AllOk(cfg, h, s.(names := names))
  {
    hide EdgeOk, RouterOk, EdgeBoxOk, AgentBoxOk, DeliveredOk;
  }

  lemma PushInv(cfg: Config, s: Net, e: Edge, m: Message)
    requires Inv(cfg, s) && e in s.edges && FreshFor(s, m.uuid)
    requires m.body.Protocol? && Ordinary(m) && AppOf(m).None?
    ensures Inv(cfg, Push(s, e, m))
  {
    PushOk(cfg, s, PastOf(Push(s, e, m)), e, m) by { hide AllOk; }
    hide AllOk;
  }

  lemma SetTableInv(cfg: Config, s: Net, e: Edge, table: Table<Agent>)
    requires Inv(cfg, s) && e in s.edges && TableOk(cfg, e, table)
    ensures Inv(cfg, SetTable(s, e, table))
  {
    hide RouterOk, EdgeBoxOk, AgentBoxOk, DeliveredOk, OutboxOk, TableOk, RequestOk, DownOk;
    var st := s.edges[e];
    assert EdgeOk(cfg, PastOf(s), e, st);
    SetEdgeOk(cfg, PastOf(s), s, e, st.(subs := table));
    hide AllOk;
  }

  /** A Send is a request of its edge router, and right for every local target. */
  lemma SendRight(cfg: Config, s: Net, e: Edge, a: Agent, uuid: string, app: AppMessage, b: Agent)
    requires e in s.edges && EdgeOk(cfg, PastOf(s), e, s.edges[e]) && a in cfg.agents && e == cfg.home(a)
    requires AgentEnabled(cfg, s, a, SendStep(uuid, app))
    ensures
      var k, m := PastOf(DoSend(cfg, s, e, a, uuid, app)), SendMessage(uuid, app);
      && Extends(PastOf(s), k) && RequestOk(k, e, m)
      && (b in SendTargets(cfg, s.edges[e].subs, a, app) ==> ForAgent(cfg, k, b, m))
  {
    hide OutboxOk, DownOk;
  }

  lemma SendInv(cfg: Config, s: Net, e: Edge, a: Agent, uuid: string, app: AppMessage)
    requires Inv(cfg, s) && a in cfg.agents && e == cfg.home(a)
    requires AgentEnabled(cfg, s, a, SendStep(uuid, app))
    ensures Inv(cfg, DoSend(cfg, s, e, a, uuid, app))
  {
    hide EdgeOk, RouterOk, EdgeBoxOk, AgentBoxOk, DeliveredOk, Extends, RequestOk, ForAgent, SendTargets, FanOut,
         Acceptable;
    var m, n := SendMessage(uuid, app), DoSend(cfg, s, e, a, uuid, app);
    var k, targets := PastOf(n), SendTargets(cfg, s.edges[e].subs, a, app);
    forall b ensures b in targets ==> ForAgent(cfg, k, b, m) { SendRight(cfg, s, e, a, uuid, app, b); }
    SendRight(cfg, s, e, a, uuid, app, a);
    hide AllOk;
    PushOk(cfg, s, k, e, m);
    var s1 := Push(s, e, m);
    FanOutToAgentsOk(cfg, k, s1, targets, m);
    SentIrrelevant(cfg, k, s1.(abox := FanOut(s1.abox, targets, m)), n.sent);
  }

  lemma SentIrrelevant(cfg: Config, h: Past, s: Net, sent: map<SendId, AppMessage>)
    requires AllOk(cfg, h, s)
    ensures AllOk(cfg, h, s.(sent := sent))
  {
    hide EdgeOk, RouterOk, EdgeBoxOk, AgentBoxOk, DeliveredOk;
  }

  ghost predicate Within(m: Store, n: Store) {
    forall u :: u in m ==> u in n && m[u] == n[u]
  }

  lemma ShrunkOk(cfg: Config, h: Past, a: Agent, b: Box, c: Box, batches: seq<Store>, batch: Store)
    requires AgentBoxOk(cfg, h, a, b) && DeliveredOk(cfg, h, a, batches)
    requires Within(c.messages, b.messages) && Within(c.notifications, b.notifications) && Within(batch, b.messages)
    ensures AgentBoxOk(cfg, h, a, c) && DeliveredOk(cfg, h, a, batches + [batch])
  {
    hide ForAgent;
  }

  /** An agent's mailbox may lose entries, and what was in it may be delivered. */
  lemma AgentBoxInv(cfg: Config, s: Net, a: Agent, c: Box, batch: Store)
    requires Inv(cfg, s) && a in cfg.agents
    requires Within(c.messages, s.abox[a].messages) && Within(c.notifications, s.abox[a].notifications)
    requires Within(batch, s.abox[a].messages)
    ensures Inv(cfg, DeliverTo(s, a, c, batch)) && Inv(cfg, s.(abox := s.abox[a := c]))
  {
    hide AgentBoxOk, DeliveredOk, EdgeOk, RouterOk, EdgeBoxOk;
    var h := PastOf(s);
    ShrunkOk(cfg, h, a, s.abox[a], c, s.delivered[a], batch);
    SetAgentOk(cfg, h, s, a, c, s.delivered[a] + [batch]);
    SetAgentOk(cfg, h, s, a, c, s.delivered[a]);
    assert s.delivered[a := s.delivered[a]] == s.delivered;
    hide AllOk;
  }

  lemma TablesOk(cfg: Config, e: Edge, table: Table<Agent>, subject: string, a: Agent)
    requires TableOk(cfg, e, table) && a in cfg.agents && cfg.home(a) == e
    ensures TableOk(cfg, e, AddSubscriber(table, subject, a)) && TableOk(cfg, e, DropSubscriber(table, subject, a))
  {
    var more, fewer := AddSubscriber(table, subject, a), DropSubscriber(table, subject, a);
    forall t, b | b in Subscribers(more, t) ensures b == a || b in Subscribers(table, t) {}
    forall t, b | b in Subscribers(fewer, t) ensures b in Subscribers(table, t) {}
  }

  lemma SubscribeInv(cfg: Config, s: Net, e: Edge, a: Agent, subject: string, uuid: string)
    requires Inv(cfg, s) && a in cfg.agents && e == cfg.home(a) && FreshFor(s, uuid)
    ensures Inv(cfg, DoSubscribe(s, e, a, subject, uuid))
  {
    hide AllOk, TableOk, Push, SubjectRequest, AddSubscriber;
    InvTable(cfg, s, e);
    TablesOk(cfg, e, s.edges[e].subs, subject, a);
    var m := SubjectRequest(uuid, subject);
    SubjectRequestForm(uuid, subject);
    if subject !in s.edges[e].subs { PushInv(cfg, s, e, m); }
    var s1 := if subject in s.edges[e].subs then s else Push(s, e, m);
    SetTableInv(cfg, s1, e, AddSubscriber(s.edges[e].subs, subject, a));
  }

  lemma SubjectRequestForm(uuid: string, subject: string)
    ensures
      var m := SubjectRequest(uuid, subject);
      && m.uuid == uuid && m.msgType.ProtocolMessage? && m.body.Protocol? && Ordinary(m) && AppOf(m).None?
      && RequestOf(m) == SubscribeTo(subject) && IsSubscription(m)
  {
  }

  lemma InvTable(cfg: Config, s: Net, e: Edge)
    requires Inv(cfg, s) && e in cfg.edges
    ensures TableOk(cfg, e, s.edges[e].subs)
  {
    hide OutboxOk, RequestOk, DownOk, RouterOk, EdgeBoxOk, AgentBoxOk, DeliveredOk, TableOk;
    assert EdgeOk(cfg, PastOf(s), e, s.edges[e]);
  }

  lemma AgentInv(cfg: Config, s: Net, a: Agent, step: AgentStep)
    requires Inv(cfg, s) && a in cfg.agents && AgentEnabled(cfg, s, a, step)
    ensures Inv(cfg, AgentApply(cfg, s, a, step))
  {
    hide AllOk, DoSubscribe, DoSend, Push, SetTable, DropSubscriber, SubjectRequest, WithdrawRequest;
    var e := cfg.home(a);
    match step {
      case SubscribeStep(subject, uuid) => SubscribeInv(cfg, s, e, a, subject, uuid);
      case UnsubscribeStep(subject) => UnsubscribeInv(cfg, s, e, a, subject);
      case SubscribeDirectStep(uuid) => DirectInv(cfg, s, e, uuid, cfg.mrn(a));
      case UnsubscribeDirectStep(uuid) => DirectInv(cfg, s, e, uuid, cfg.mrn(a));
      case SendStep(uuid, app) => SendInv(cfg, s, e, a, uuid, app);
      case NotifyStep(written) => AgentBoxInv(cfg, s, a, NotifyAll(s.abox[a], written), map[]);
      case ReceiveSomeStep(ids, written) =>
        AgentBoxInv(cfg, s, a, ReceiveSome(s.abox[a], ids, written),
                    if written then Requested(s.abox[a].messages, ids) else map[]);
      case ReceiveAllStep(written) =>
        AgentBoxInv(cfg, s, a, ReceiveAll(s.abox[a], s.now, written),
                    if written then Live(s.abox[a].messages, s.now) else map[]);
      case ExpireStep => AgentBoxInv(cfg, s, a, Expire(s.abox[a], s.now), map[]);
    }
  }

  lemma UnsubscribeInv(cfg: Config, s: Net, e: Edge, a: Agent, subject: string)
    requires Inv(cfg, s) && a in cfg.agents && e == cfg.home(a)
    ensures Inv(cfg, SetTable(s, e, DropSubscriber(s.edges[e].subs, subject, a)))
  {
    InvTable(cfg, s, e);
    TablesOk(cfg, e, s.edges[e].subs, subject, a);
    hide AllOk, TableOk;
    SetTableInv(cfg, s, e, DropSubscriber(s.edges[e].subs, subject, a));
  }

  lemma DirectInv(cfg: Config, s: Net, e: Edge, uuid: string, mrn: string)
    requires Inv(cfg, s) && e in s.edges && FreshFor(s, uuid)
    ensures Inv(cfg, Push(s, e, SubjectRequest(uuid, mrn))) && Inv(cfg, Push(s, e, WithdrawRequest(uuid, mrn)))
  {
    hide Inv;
    PushInv(cfg, s, e, SubjectRequest(uuid, mrn));
    PushInv(cfg, s, e, WithdrawRequest(uuid, mrn));
  }
}
