/** Aggregated subscriptions miss no local subscriber: the Subscribe that an edge router pushes for a new subject
    stays in its outgoing channel, or is awaiting an answer, or is accepted in its router's table. */
module Coverage {
  import opened Mmtp
  import opened MailboxSpec
  import opened Routing
  import opened Network
  import opened NetworkInvariant
  import opened NetworkSteps

  /** A request is the message its UUID names, and withdraws at most the MRN of an agent. */
  ghost predicate RequestNamed(cfg: Config, names: Store, m: Message) {
    && m.uuid in names && names[m.uuid] == m
    && (RequestOf(m).WithdrawFrom? ==> exists a :: a in cfg.agents && cfg.mrn(a) == RequestOf(m).subject)
  }

  ghost predicate RequestsNamed(cfg: Config, names: Store, st: EdgeState) {
    && (forall m :: m in st.out.queue ==> RequestNamed(cfg, names, m))
    && (forall m :: m in st.up ==> RequestNamed(cfg, names, m))
    && (forall u :: u in st.out.awaiting ==>
          st.out.awaiting[u].uuid == u && RequestNamed(cfg, names, st.out.awaiting[u]))
    && (forall d :: d in st.down && d.body.Reply? ==> d.body.response.to in names)
  }

  ghost predicate AllNamed(cfg: Config, s: Net) {
    Shape(cfg, s) && forall e :: e in s.edges ==> RequestsNamed(cfg, s.names, s.edges[e])
  }

  predicate Accepts(d: Message, uuid: string) {
    d.body.Reply? && d.body.response.to == uuid && d.body.response.code.Good?
  }

  /** The request `m` is under way or was accepted. */
  predicate Standing(st: EdgeState, joined: bool, m: Message) {
    m in st.out.queue || (m.uuid in st.out.awaiting && st.out.awaiting[m.uuid] == m) || joined
  }

  /** A request under way or accepted, for which no acceptance comes down before the table has the entry. */
  ghost predicate Tracked(st: EdgeState, joined: bool, m: Message) {
    && Standing(st, joined, m)
    && (forall d :: d in st.down && Accepts(d, m.uuid) ==> joined)
  }

  ghost predicate Joined(cfg: Config, s: Net, e: Edge, subject: string) {
    cfg.uplink(e) in s.routers && e in Subscribers(s.routers[cfg.uplink(e)].table, subject)
  }

  ghost predicate TrackedIn(cfg: Config, s: Net, e: Edge, subject: string, uuid: string) {
    && e in s.edges && uuid in s.names && s.names[uuid] == SubjectRequest(uuid, subject)
    && Tracked(s.edges[e], Joined(cfg, s, e, subject), SubjectRequest(uuid, subject))
  }

  /** The step is the router's handling of an Unsubscribe of `e` for `subject`. */
  ghost predicate Withdraws(s: Net, step: Step, e: Edge, subject: string) {
    && step.EdgeDoes? && step.e == e && step.edge.UplinkStep?
    && e in s.edges && s.edges[e].up != [] && RequestOf(s.edges[e].up[0]) == WithdrawFrom(subject)
  }

  // ---- requests are named ----

  lemma NamedLater(cfg: Config, names: Store, later: Store, st: EdgeState)
    requires RequestsNamed(cfg, names, st) && Within(names, later)
    ensures RequestsNamed(cfg, later, st)
  {
  }

  lemma SetEdgeNamed(cfg: Config, s: Net, e: Edge, st: EdgeState, names: Store, n: Net)
    requires AllNamed(cfg, s) && e in cfg.edges && Within(s.names, names) && RequestsNamed(cfg, names, st)
    requires SameOwners(s, n) && n.edges == s.edges[e := st] && n.names == names
    ensures AllNamed(cfg, n)
  {
    hide RequestsNamed, Within;
    forall f | f in n.edges ensures RequestsNamed(cfg, n.names, n.edges[f]) {
      if f != e { NamedLater(cfg, s.names, names, s.edges[f]); }
    }
  }

  lemma PushNamed(cfg: Config, s: Net, e: Edge, m: Message)
    requires AllNamed(cfg, s) && e in cfg.edges && FreshFor(s, m.uuid)
    requires RequestOf(m).WithdrawFrom? ==> exists a :: a in cfg.agents && cfg.mrn(a) == RequestOf(m).subject
    ensures AllNamed(cfg, Push(s, e, m))
  {
    hide RequestOf;
    var n := Push(s, e, m);
    NamedLater(cfg, s.names, n.names, s.edges[e]);
    SetEdgeNamed(cfg, s, e, n.edges[e], n.names, n);
  }

  lemma SendNamed(cfg: Config, s: Net, e: Edge, a: Agent, uuid: string, app: AppMessage)
    requires AllNamed(cfg, s) && e in cfg.edges && FreshFor(s, uuid)
    ensures AllNamed(cfg, DoSend(cfg, s, e, a, uuid, app))
  {
    hide RequestsNamed, FanOut, SendTargets, Push;
    PushNamed(cfg, s, e, SendMessage(uuid, app));
  }

  lemma AgentNamed(cfg: Config, s: Net, a: Agent, step: AgentStep)
    requires AllNamed(cfg, s) && ValidConfig(cfg) && a in cfg.agents && AgentEnabled(cfg, s, a, step)
    ensures AllNamed(cfg, AgentApply(cfg, s, a, step))
  {
    hide RequestsNamed, Acceptable, Live, ReceiveSome, ReceiveAll, Expire, DropSubscriber, DoSubscribe, DoSend, Push,
         SetTable;
    var e := cfg.home(a);
    match step {
      case SubscribeStep(subject, uuid) => SubscribeNamed(cfg, s, e, a, subject, uuid);
      case UnsubscribeStep(subject) => SetTableNamed(cfg, s, e, DropSubscriber(s.edges[e].subs, subject, a));
      case SubscribeDirectStep(uuid) => PushNamed(cfg, s, e, SubjectRequest(uuid, cfg.mrn(a)));
      case UnsubscribeDirectStep(uuid) => PushNamed(cfg, s, e, WithdrawRequest(uuid, cfg.mrn(a)));
      case SendStep(uuid, app) => SendNamed(cfg, s, e, a, uuid, app);
      case _ =>
    }
  }

  lemma SetTableNamed(cfg: Config, s: Net, e: Edge, table: Table<Agent>)
    requires AllNamed(cfg, s) && e in cfg.edges
    ensures AllNamed(cfg, SetTable(s, e, table))
  {
    hide RequestNamed;
    SetEdgeNamed(cfg, s, e, s.edges[e].(subs := table), s.names, SetTable(s, e, table));
  }

  lemma SubscribeNamed(cfg: Config, s: Net, e: Edge, a: Agent, subject: string, uuid: string)
    requires AllNamed(cfg, s) && e in cfg.edges && FreshFor(s, uuid)
    ensures AllNamed(cfg, DoSubscribe(s, e, a, subject, uuid))
  {
    PushNamed(cfg, s, e, SubjectRequest(uuid, subject));
    hide AllNamed, Push, SetTable, AddSubscriber, SubjectRequest;
    var s1 := if subject in s.edges[e].subs then s else Push(s, e, SubjectRequest(uuid, subject));
    SetTableNamed(cfg, s1, e, AddSubscriber(s.edges[e].subs, subject, a));
  }

  lemma WriteNamed(cfg: Config, names: Store, st: EdgeState, written: bool)
    requires RequestsNamed(cfg, names, st) && st.out.queue != []
    ensures
      var m := st.out.queue[0];
      var up := if written && m.msgType.ProtocolMessage? then st.up + [m] else st.up;
      RequestsNamed(cfg, names, st.(out := WriteFirst(st.out, written), up := up))
  {
    hide RequestNamed;
  }

  lemma SettleNamed(cfg: Config, names: Store, st: EdgeState, response: Response)
    requires RequestsNamed(cfg, names, st)
    ensures RequestsNamed(cfg, names, st.(out := Settle(st.out, response)))
  {
    hide RequestNamed;
  }

  /** Nothing but the link down to `e` differs in edge routers and names. */
  ghost predicate OnlyDown(s: Net, n: Net, e: Edge) {
    && e in s.edges && e in n.edges && n.names == s.names
    && n.edges == s.edges[e := s.edges[e].(down := n.edges[e].down)]
  }

  lemma SendDownFrame(s: Net, e: Edge, m: Message, written: bool)
    requires e in s.edges
    ensures
      var n := SendDown(s, e, m, written);
      && OnlyDown(s, n, e) && n.routers == s.routers
      && n.edges[e].down == s.edges[e].down + (if written then [m] else [])
  {
    assert s.edges[e := s.edges[e]] == s.edges;
  }

  lemma RouterSubscribeFrame(s: Net, r: Router, e: Edge, m: Message, subject: string, join: JoinResult,
                             replyId: string, written: bool)
    requires r in s.routers && e in s.edges
    ensures
      var n, reply := DoRouterSubscribe(s, r, e, m, subject, join, replyId,
                                        written), RouterSubscribe(s.routers[r], e, subject, join);
      && OnlyDown(s, n, e) && n.routers == s.routers[r := reply.0]
      && (forall d :: d in n.edges[e].down ==>
           || d in s.edges[e].down
           || (d.body.Reply? && d.body.response.to == m.uuid && (d.body.response.code.Good? ==> reply.1)))
  {
    hide RouterSubscribe, SendDown;
    var (st, ok) := RouterSubscribe(s.routers[r], e, subject, join);
    SendDownFrame(s.(routers := s.routers[r := st]), e,
                  if ok then GoodReply(replyId, m.uuid, [], []) else ErrorReply(replyId, m.uuid), written);
  }

  /** Only a Subscribe changes an answer into a promise about the table. */
  predicate Answers(d: Message, m: Message) {
    d.body.Reply? && d.body.response.to == m.uuid
  }

  /** Tables stay, and the link down gets at most an answer to `m`. */
  ghost predicate OnlyAnswers(s: Net, n: Net, e: Edge, m: Message) {
    && OnlyDown(s, n, e) && n.routers.Keys == s.routers.Keys
    && (forall q :: q in s.routers ==> n.routers[q].table == s.routers[q].table)
    && (forall d :: d in n.edges[e].down ==> d in s.edges[e].down || Answers(d, m))
  }

  lemma RouterSendFrame(s: Net, r: Router, e: Edge, m: Message, app: AppMessage, replyId: string, written: bool)
    requires r in s.routers && e in s.edges
    ensures OnlyAnswers(s, DoRouterSend(s, r, e, m, app, replyId, written), e, m)
  {
    hide FanOut, SendDown, Subscribers, SameOwners, SameAgents;
    var st := s.routers[r];
    SendDownFrame(s.(routers := s.routers[r := st.(out := st.out + [m])],
                     ebox := FanOut(s.ebox, Subscribers(st.table, SubjectOf(app)) - {e}, m)),
                  e, GoodReply(replyId, m.uuid, [], []), written);
  }

  lemma ReceiveFrame(s: Net, e: Edge, m: Message, ids: seq<string>, replyId: string, written: bool, order: seq<string>)
    requires e in s.edges && e in s.ebox && ListsKeys(order, Live(s.ebox[e].messages, s.now))
    ensures OnlyAnswers(s, DoReceive(s, e, m, ids, replyId, written, order), e, m)
  {
    hide BoxAfterReceive, Answer, ListsKeys, SendDown, ContentsFor, Live, SameOwners, SameAgents;
    AnswerStored(s.ebox[e], ids, s.now, order);
    var contents := ContentsFor(Answer(s.ebox[e], ids, order), s.ebox[e].messages);
    SendDownFrame(s.(ebox := s.ebox[e := BoxAfterReceive(s.ebox[e], ids, s.now, written)]), e,
                  GoodReply(replyId, m.uuid, [], contents), written);
  }

  lemma OthersFrame(s: Net, e: Edge, r: Router, m: Message, replyId: string, written: bool, join: JoinResult,
                    order: seq<string>)
    requires e in s.edges && e in s.ebox && r in s.routers && ListsKeys(order, Live(s.ebox[e].messages, s.now))
    requires !RequestOf(m).SubscribeTo? && !RequestOf(m).WithdrawFrom?
    ensures OnlyAnswers(s, Serve(s, e, r, m, replyId, written, join, order), e, m)
  {
    assert s.edges[e := s.edges[e]] == s.edges;
    hide RequestOf, ListsKeys, SameOwners, Live, DoRouterSend, DoReceive, SameAgents;
    match RequestOf(m) {
      case PassOn(Some(app)) => RouterSendFrame(s, r, e, m, app, replyId, written);
      case Collect(ids) => ReceiveFrame(s, e, m, ids, replyId, written, order);
      case _ =>
    }
  }

  lemma RouterUnsubscribeFrame(s: Net, r: Router, e: Edge, m: Message, subject: string, replyId: string, written: bool)
    requires r in s.routers && e in s.edges
    ensures
      var n, st := DoRouterUnsubscribe(s, r, e, m, subject, replyId, written), s.routers[r];
      && OnlyDown(s, n, e)
      && n.routers == s.routers[r := if subject == "" then st else st.(table := DropSubscriber(st.table, subject, e))]
      && (forall d :: d in n.edges[e].down ==> d in s.edges[e].down || Answers(d, m))
      && (forall d :: d in s.edges[e].down ==> d in n.edges[e].down)
  {
    hide SendDown, DropSubscriber;
    var st := s.routers[r];
    assert s.routers[r := st] == s.routers;
    SendDownFrame(s, e, ErrorReply(replyId, m.uuid), written);
    SendDownFrame(s.(routers := s.routers[r := st.(table := DropSubscriber(st.table, subject, e))]), e,
                  GoodReply(replyId, m.uuid, [], []), written);
  }

  /** Serving a link changes the link and the router, and no request of any edge router. */
  lemma ServeFrame(s: Net, e: Edge, r: Router, m: Message, replyId: string, written: bool, join: JoinResult,
                   order: seq<string>)
    requires e in s.edges && e in s.ebox && r in s.routers && ListsKeys(order, Live(s.ebox[e].messages, s.now))
    ensures
      var n := Serve(s, e, r, m, replyId, written, join, order);
      OnlyDown(s, n, e) && forall d :: d in n.edges[e].down ==> d in s.edges[e].down || Answers(d, m)
  {
    hide RequestOf, DoRouterSubscribe, DoRouterUnsubscribe, DoRouterSend, DoReceive, ListsKeys, Live, SameOwners,
         SameAgents;
    match RequestOf(m) {
      case SubscribeTo(subject) =>
        RouterSubscribeFrame(s, r, e, m, subject, join, replyId, written);
      case WithdrawFrom(subject) => RouterUnsubscribeFrame(s, r, e, m, subject, replyId, written);
      case _ => OthersFrame(s, e, r, m, replyId, written, join, order);
    }
  }

  lemma UplinkFrame(s: Net, e: Edge, r: Router, replyId: string, written: bool, join: JoinResult, order: seq<string>)
    requires e in s.edges && e in s.ebox && r in s.routers && s.edges[e].up != []
    requires ListsKeys(order, Live(s.ebox[e].messages, s.now))
    ensures
      var n := DoUplink(s, e, r, replyId, written, join, order);
      && n.names == s.names && n.edges == s.edges[e := s.edges[e].(up := s.edges[e].up[1..], down := n.edges[e].down)]
      && (forall d :: d in n.edges[e].down ==> d in s.edges[e].down || Answers(d, s.edges[e].up[0]))
  {
    hide Serve, ListsKeys, Live;
    ServeFrame(PopUp(s, e), e, r, s.edges[e].up[0], replyId, written, join, order);
  }

  lemma UpNamed(cfg: Config, names: Store, m: Message)
    ensures RequestNamed(cfg, names, m) ==> m.uuid in names
  {
  }

  lemma UplinkNamed(cfg: Config, s: Net, e: Edge, replyId: string, written: bool, join: JoinResult, order: seq<string>)
    requires AllNamed(cfg, s) && ValidConfig(cfg) && e in cfg.edges && s.edges[e].up != []
    requires ListsKeys(order, Live(s.ebox[e].messages, s.now))
    ensures AllNamed(cfg, DoUplink(s, e, cfg.uplink(e), replyId, written, join, order))
  {
    hide RequestNamed, RequestsNamed, DoUplink, ListsKeys, Live, SameAgents;
    UplinkFrame(s, e, cfg.uplink(e), replyId, written, join, order);
    var n := DoUplink(s, e, cfg.uplink(e), replyId, written, join, order);
    ServedNamed(cfg, s.names, s.edges[e], n.edges[e].down);
    SetEdgeNamed(cfg, s, e, n.edges[e], s.names, n);
  }

  lemma ServedNamed(cfg: Config, names: Store, st: EdgeState, down: seq<Message>)
    requires RequestsNamed(cfg, names, st) && st.up != []
    requires forall d :: d in down ==> d in st.down || Answers(d, st.up[0])
    ensures RequestsNamed(cfg, names, st.(up := st.up[1..], down := down))
  {
    hide RequestNamed;
    assert st.up[0] in st.up;
    UpNamed(cfg, names, st.up[0]);
  }

  lemma PullFrame(s: Net, e: Edge, written: bool, order: seq<string>, replyId: string)
    requires e in s.edges && e in s.ebox && ListsKeys(order, s.ebox[e].notifications)
    ensures
      var n := DoPull(s, e, written, order, replyId);
      && n.names == s.names && n.routers == s.routers
      && n.edges == s.edges[e := s.edges[e].(down := n.edges[e].down)]
      && (forall d :: d in n.edges[e].down ==> d in s.edges[e].down || d.body.Protocol?)
  {
    hide ListsKeys, SameOwners;
    assert s.edges[e := s.edges[e]] == s.edges;
  }

  lemma DownlinkFrame(s: Net, e: Edge, newIds: seq<string>, uuid: string)
    requires e in s.edges && DownReady(s, e, newIds, uuid)
    ensures
      var n, st, m := DoDownlink(s, e, newIds, uuid), s.edges[e], s.edges[e].down[0];
      && n.routers == s.routers && Within(s.names, n.names)
      && n.edges == s.edges[e := st.(down := st.down[1..], out := n.edges[e].out)]
      && (if m.body.Reply? then n.edges[e].out == Settle(st.out, m.body.response)
          else n.edges[e].out == st.out || PushesReceive(st.out, n.edges[e].out, n.names, uuid))
  {
    assert uuid in newIds + [uuid];
    hide Distinct, Settle, Delivering, SameOwners, Within, SameAgents, Unpack, PushesReceive;
    var m, s1 := s.edges[e].down[0], PopDown(s, e);
    if m.body.Reply? {
      UnpackReplyFrame(s1, e, m, newIds, uuid);
    } else {
      UnpackOtherFrame(s1, e, m, newIds, uuid);
    }
  }

  lemma UnpackReplyFrame(s: Net, e: Edge, m: Message, newIds: seq<string>, uuid: string)
    requires e in s.edges && |newIds| == |Delivering(m)| && m.body.Reply?
    requires Distinct(newIds + [uuid]) && forall u :: u in newIds + [uuid] ==> FreshFor(s, u)
    ensures
      var n, st := Unpack(s, e, m, newIds, uuid), s.edges[e];
      && n.routers == s.routers && Within(s.names, n.names)
      && n.edges == s.edges[e := st.(out := Settle(st.out, m.body.response))]
  {
    hide Distinct, Settle, Delivering, SameOwners, DeliverAt, Within, SameAgents;
    DeliverNames(SettleAt(s, e, m.body.response), e, Delivering(m), newIds, uuid);
  }

  lemma UnpackOtherFrame(s: Net, e: Edge, m: Message, newIds: seq<string>, uuid: string)
    requires e in s.edges && |newIds| == |Delivering(m)| && !m.body.Reply? && FreshFor(s, uuid)
    ensures
      var n, st := Unpack(s, e, m, newIds, uuid), s.edges[e];
      && n.routers == s.routers && Within(s.names, n.names)
      && n.edges == s.edges[e := st.(out := n.edges[e].out)]
      && (n.edges[e].out == st.out || PushesReceive(st.out, n.edges[e].out, n.names, uuid))
  {
    hide MetadataIds, Delivering, SameOwners, SameAgents;
    assert s.edges[e := s.edges[e]] == s.edges;
  }

  /** The outgoing channel got the Receive that answers a Notify. */
  ghost predicate PushesReceive(o: Outbox, n: Outbox, names: Store, uuid: string) {
    && uuid in names && names[uuid].uuid == uuid && RequestOf(names[uuid]).Collect?
    && n == o.(queue := o.queue + [names[uuid]])
  }

  lemma DeliverNames(s: Net, e: Edge, contents: seq<Content>, newIds: seq<string>, uuid: string)
    requires e in s.edges && |newIds| == |contents|
    requires Distinct(newIds + [uuid]) && forall u :: u in newIds + [uuid] ==> FreshFor(s, u)
    ensures
      var n := DeliverAt(s, e, contents, newIds);
      n.routers == s.routers && n.edges == s.edges && Within(s.names, n.names)
  {
    RequeuedWithin(s.names, contents, newIds, uuid);
    hide Deliver, NameRequeued, Distinct;
  }

  lemma RequeuedWithin(names: Store, contents: seq<Content>, newIds: seq<string>, uuid: string)
    requires |newIds| == |contents| && Distinct(newIds + [uuid])
    requires forall u :: u in newIds + [uuid] ==> u != "" && u !in names
    ensures Within(names, NameRequeued(names, contents, newIds))
  {
    assert forall i :: 0 <= i < |newIds| ==> (newIds + [uuid])[i] == newIds[i];
    assert forall u :: u in newIds ==> u in newIds + [uuid];
    NameRequeuedGrows(names, contents, newIds);
  }

  /** Nothing but the link down grows, and by no reply. */
  lemma DownGrowsNamed(cfg: Config, s: Net, e: Edge, down: seq<Message>, n: Net)
    requires AllNamed(cfg, s) && e in cfg.edges && SameOwners(s, n) && n.names == s.names
    requires n.edges == s.edges[e := s.edges[e].(down := down)]
    requires forall d :: d in down ==> d in s.edges[e].down || d.body.Protocol?
    ensures AllNamed(cfg, n)
  {
    hide RequestNamed;
    SetEdgeNamed(cfg, s, e, s.edges[e].(down := down), s.names, n);
  }

  lemma PullNamed(cfg: Config, s: Net, e: Edge, written: bool, order: seq<string>, replyId: string)
    requires AllNamed(cfg, s) && e in cfg.edges && ListsKeys(order, s.ebox[e].notifications)
    ensures AllNamed(cfg, DoPull(s, e, written, order, replyId))
  {
    assert Shape(cfg, s);
    hide DoPull, ListsKeys, SameAgents, RequestsNamed, AllNamed;
    PullFrame(s, e, written, order, replyId);
    var n := DoPull(s, e, written, order, replyId);
    DownGrowsNamed(cfg, s, e, n.edges[e].down, n);
  }

  lemma ReceiveNamed(cfg: Config, names: Store, later: Store, st: EdgeState, out: Outbox, uuid: string)
    requires RequestsNamed(cfg, names, st) && Within(names, later) && PushesReceive(st.out, out, later, uuid)
    ensures RequestsNamed(cfg, later, st.(down := st.down, out := out))
  {
    hide RequestOf;
    NamedLater(cfg, names, later, st);
  }

  lemma DownlinkNamed(cfg: Config, s: Net, e: Edge, newIds: seq<string>, uuid: string)
    requires AllNamed(cfg, s) && e in cfg.edges && DownReady(s, e, newIds, uuid)
    ensures AllNamed(cfg, DoDownlink(s, e, newIds, uuid))
  {
    hide RequestNamed, DoDownlink, Distinct, FreshFor, Delivering, SameAgents, Settle, Within, PushesReceive;
    DownlinkFrame(s, e, newIds, uuid);
    var n, st := DoDownlink(s, e, newIds, uuid), s.edges[e];
    var m := st.down[0];
    if m.body.Reply? {
      SettleNamed(cfg, s.names, st, m.body.response);
      NamedLater(cfg, s.names, n.names, st.(out := Settle(st.out, m.body.response)));
    } else if n.edges[e].out != st.out {
      ReceiveNamed(cfg, s.names, n.names, st, n.edges[e].out, uuid);
    } else {
      NamedLater(cfg, s.names, n.names, st);
    }
    SetEdgeNamed(cfg, s, e, n.edges[e], n.names, n);
  }

  lemma EdgeNamed(cfg: Config, s: Net, e: Edge, step: EdgeStep)
    requires AllNamed(cfg, s) && ValidConfig(cfg) && e in cfg.edges && EdgeEnabled(s, e, step)
    ensures AllNamed(cfg, EdgeApply(cfg, s, e, step))
  {
    hide RequestsNamed, DoUplink, DoPull, DoDownlink, Expire, ListsKeys, Live, DownReady, WriteFirst, SameAgents;
    match step {
      case WriteStep(written) =>
        WriteNamed(cfg, s.names, s.edges[e], written);
        SetEdgeNamed(cfg, s, e, DoWrite(s, e, written).edges[e], s.names, DoWrite(s, e, written));
      case UplinkStep(replyId, written, join, order) => UplinkNamed(cfg, s, e, replyId, written, join, order);
      case PullStep(replyId, written, order) => PullNamed(cfg, s, e, written, order, replyId);
      case DownlinkStep(newIds, uuid) => DownlinkNamed(cfg, s, e, newIds, uuid);
      case ExpireEdgeStep =>
    }
  }

  lemma StepNamed(cfg: Config, s: Net, step: Step)
    requires AllNamed(cfg, s) && Enabled(cfg, s, step)
    ensures AllNamed(cfg, Apply(cfg, s, step))
  {
    hide RequestsNamed, AgentApply, EdgeApply, AfterPublish, FanOut, AgentEnabled, EdgeEnabled;
    match step {
      case AgentDoes(a, agent) => AgentNamed(cfg, s, a, agent);
      case EdgeDoes(e, edge) => EdgeNamed(cfg, s, e, edge);
      case RouterDoes(r, router) =>
      case Tick(now) =>
    }
  }

  lemma {:induction false} RunNamed(cfg: Config, run: seq<Net>, steps: seq<Step>, n: nat)
    requires IsRun(cfg, run, steps) && n < |run|
    ensures AllNamed(cfg, run[n])
  {
    hide AllNamed, Init, Enabled, Apply;
    if n == 0 {
      InitNamed(cfg, run[0]);
    } else {
      RunNamed(cfg, run, steps, n - 1);
      StepNamed(cfg, run[n - 1], steps[n - 1]);
    }
  }

  lemma InitNamed(cfg: Config, s: Net)
    requires Init(cfg, s)
    ensures AllNamed(cfg, s)
  {
  }

  // ---- one request, followed ----

  lemma GrownTracked(st: EdgeState, n: EdgeState, joined: bool, m: Message)
    requires Tracked(st, joined, m) && n.down == st.down && n.out.awaiting == st.out.awaiting
    requires forall x :: x in st.out.queue ==> x in n.out.queue
    ensures Tracked(n, joined, m)
  {
  }

  lemma WriteTracked(cfg: Config, names: Store, st: EdgeState, joined: bool, m: Message, written: bool,
                     up: seq<Message>)
    requires Tracked(st, joined, m) && RequestsNamed(cfg, names, st) && st.out.queue != []
    requires m.uuid in names && names[m.uuid] == m && IsSubscription(m) && m.msgType.ProtocolMessage?
    ensures Tracked(st.(out := WriteFirst(st.out, written), up := up), joined, m)
  {
    hide RequestOf;
    assert RequestNamed(cfg, names, st.out.queue[0]);
    assert forall x :: x in st.out.queue ==> x == st.out.queue[0] || x in st.out.queue[1..];
  }

  lemma SettleTracked(cfg: Config, names: Store, st: EdgeState, joined: bool, m: Message, response: Response)
    requires Tracked(st, joined, m) && RequestsNamed(cfg, names, st)
    requires st.down != [] && st.down[0].body == Reply(response)
    requires m.uuid in names && names[m.uuid] == m
    ensures Tracked(st.(down := st.down[1..], out := Settle(st.out, response)), joined, m)
  {
    hide RequestNamed;
    assert st.down[0] in st.down;
  }

  lemma PopTracked(st: EdgeState, joined: bool, m: Message)
    requires Tracked(st, joined, m) && st.down != []
    ensures Tracked(st.(down := st.down[1..]), joined, m)
  {
  }

  lemma JoinedAfter(cfg: Config, s: Net, f: Edge, r: Router, m: Message, replyId: string, written: bool,
                    join: JoinResult, order: seq<string>, e: Edge, subject: string)
    requires f in s.edges && f in s.ebox && r in s.routers && ListsKeys(order, Live(s.ebox[f].messages, s.now))
    requires Joined(cfg, s, e, subject) && (f == e ==> RequestOf(m) != WithdrawFrom(subject))
    ensures Joined(cfg, Serve(s, f, r, m, replyId, written, join, order), e, subject)
  {
    hide RequestOf, DoRouterSubscribe, DoRouterUnsubscribe, DoRouterSend, DoReceive, ListsKeys, Live, SameAgents;
    match RequestOf(m) {
      case SubscribeTo(t) => RouterSubscribeFrame(s, r, f, m, t, join, replyId, written);
      case WithdrawFrom(t) => RouterUnsubscribeFrame(s, r, f, m, t, replyId, written);
      case _ => OthersFrame(s, f, r, m, replyId, written, join, order);
    }
  }

  /** A Subscribe is accepted only with its table entry. */
  lemma AnswersAfter(cfg: Config, s: Net, e: Edge, m: Message, replyId: string, written: bool,
                     join: JoinResult, order: seq<string>, subject: string)
    requires e in s.edges && e in s.ebox && cfg.uplink(e) in s.routers
    requires ListsKeys(order, Live(s.ebox[e].messages, s.now))
    ensures
      var n := Serve(s, e, cfg.uplink(e), m, replyId, written, join, order);
      RequestOf(m) == SubscribeTo(subject) ==>
        forall d :: d in n.edges[e].down && Accepts(d, m.uuid) && d !in s.edges[e].down ==> Joined(cfg, n, e, subject)
  {
    hide RequestOf, DoRouterSubscribe, DoRouterUnsubscribe, DoRouterSend, DoReceive, ListsKeys, Live, SameAgents,
         SameOwners;
    match RequestOf(m) {
      case SubscribeTo(t) => RouterSubscribeFrame(s, cfg.uplink(e), e, m, t, join, replyId, written);
      case WithdrawFrom(t) => RouterUnsubscribeFrame(s, cfg.uplink(e), e, m, t, replyId, written);
      case _ => OthersFrame(s, e, cfg.uplink(e), m, replyId, written, join, order);
    }
  }

  lemma UplinkTracked(cfg: Config, s: Net, f: Edge, replyId: string, written: bool, join: JoinResult,
                      order: seq<string>, e: Edge, subject: string, uuid: string)
    requires AllNamed(cfg, s) && ValidConfig(cfg) && f in cfg.edges && s.edges[f].up != []
    requires ListsKeys(order, Live(s.ebox[f].messages, s.now)) && TrackedIn(cfg, s, e, subject, uuid)
    requires !Withdraws(s, EdgeDoes(f, UplinkStep(replyId, written, join, order)), e, subject)
    ensures TrackedIn(cfg, DoUplink(s, f, cfg.uplink(f), replyId, written, join, order), e, subject, uuid)
  {
    hide RequestOf, DoUplink, ListsKeys, Live, SameAgents, SubjectRequest, Joined, IsSubscription, Withdraws;
    SubjectRequestForm(uuid, subject);
    UplinkFrame(s, f, cfg.uplink(f), replyId, written, join, order);
    if Joined(cfg, s, e, subject) {
      UplinkJoined(cfg, s, f, replyId, written, join, order, e, subject);
    }
    if f == e {
      UplinkAnswers(cfg, s, e, replyId, written, join, order, subject);
      assert RequestNamed(cfg, s.names, s.edges[e].up[0]);
    }
  }

  lemma UplinkJoined(cfg: Config, s: Net, f: Edge, replyId: string, written: bool, join: JoinResult,
                     order: seq<string>, e: Edge, subject: string)
    requires Shape(cfg, s) && ValidConfig(cfg) && f in cfg.edges && s.edges[f].up != []
    requires ListsKeys(order, Live(s.ebox[f].messages, s.now)) && Joined(cfg, s, e, subject)
    requires !Withdraws(s, EdgeDoes(f, UplinkStep(replyId, written, join, order)), e, subject)
    ensures Joined(cfg, DoUplink(s, f, cfg.uplink(f), replyId, written, join, order), e, subject)
  {
    hide RequestOf, Serve, ListsKeys, Live, SameAgents, Subscribers;
    JoinedAfter(cfg, PopUp(s, f), f, cfg.uplink(f), s.edges[f].up[0], replyId, written, join, order, e, subject);
  }

  lemma UplinkAnswers(cfg: Config, s: Net, e: Edge, replyId: string, written: bool, join: JoinResult,
                      order: seq<string>, subject: string)
    requires Shape(cfg, s) && ValidConfig(cfg) && e in cfg.edges && s.edges[e].up != []
    requires ListsKeys(order, Live(s.ebox[e].messages, s.now))
    ensures
      var n, m := DoUplink(s, e, cfg.uplink(e), replyId, written, join, order), s.edges[e].up[0];
      RequestOf(m) == SubscribeTo(subject) ==>
        forall d :: d in n.edges[e].down && Accepts(d, m.uuid) && d !in s.edges[e].down ==> Joined(cfg, n, e, subject)
  {
    hide RequestOf, Serve, ListsKeys, Live, SameAgents, Joined;
    AnswersAfter(cfg, PopUp(s, e), e, s.edges[e].up[0], replyId, written, join, order, subject);
  }

  lemma PullTracked(cfg: Config, s: Net, f: Edge, replyId: string, written: bool, order: seq<string>,
                    e: Edge, subject: string, uuid: string)
    requires Shape(cfg, s) && f in cfg.edges && ListsKeys(order, s.ebox[f].notifications)
    requires TrackedIn(cfg, s, e, subject, uuid)
    ensures TrackedIn(cfg, DoPull(s, f, written, order, replyId), e, subject, uuid)
  {
    hide DoPull, ListsKeys, SameAgents, Subscribers;
    PullFrame(s, f, written, order, replyId);
  }

  lemma DownlinkTracked(cfg: Config, s: Net, f: Edge, newIds: seq<string>, newId: string,
                        e: Edge, subject: string, uuid: string)
    requires AllNamed(cfg, s) && f in cfg.edges && DownReady(s, f, newIds, newId)
    requires TrackedIn(cfg, s, e, subject, uuid)
    ensures TrackedIn(cfg, DoDownlink(s, f, newIds, newId), e, subject, uuid)
  {
    hide RequestNamed, DoDownlink, Distinct, FreshFor, Delivering, SameAgents, Settle, SubjectRequest, Tracked,
         Subscribers, RequestOf;
    DownlinkFrame(s, f, newIds, newId);
    SubjectRequestForm(uuid, subject);
    if f == e {
      var n, st, m := DoDownlink(s, e, newIds, newId), s.edges[e], s.edges[e].down[0];
      var x, joined := SubjectRequest(uuid, subject), Joined(cfg, s, e, subject);
      if m.body.Reply? {
        SettleTracked(cfg, s.names, st, joined, x, m.body.response);
      } else {
        PopTracked(st, joined, x);
        GrownTracked(st.(down := st.down[1..]), n.edges[e], joined, x);
      }
    }
  }

  lemma EdgeTracked(cfg: Config, s: Net, f: Edge, step: EdgeStep, e: Edge, subject: string, uuid: string)
    requires AllNamed(cfg, s) && ValidConfig(cfg) && f in cfg.edges && EdgeEnabled(s, f, step)
    requires TrackedIn(cfg, s, e, subject, uuid) && !Withdraws(s, EdgeDoes(f, step), e, subject)
    ensures TrackedIn(cfg, EdgeApply(cfg, s, f, step), e, subject, uuid)
  {
    hide DoUplink, DoPull, DoDownlink, Expire, ListsKeys, Live, DownReady, WriteFirst, SameAgents, SameOwners,
         RequestsNamed, Tracked, Subscribers, SubjectRequest, IsSubscription;
    match step {
      case WriteStep(written) =>
        SubjectRequestForm(uuid, subject);
        if f == e {
          WriteTracked(cfg, s.names, s.edges[e], Joined(cfg, s, e, subject), SubjectRequest(uuid, subject), written,
                       DoWrite(s, e, written).edges[e].up);
        }
      case UplinkStep(replyId, written, join, order) =>
        UplinkTracked(cfg, s, f, replyId, written, join, order, e, subject, uuid);
      case PullStep(replyId, written, order) => PullTracked(cfg, s, f, replyId, written, order, e, subject, uuid);
      case DownlinkStep(newIds, newId) => DownlinkTracked(cfg, s, f, newIds, newId, e, subject, uuid);
      case ExpireEdgeStep =>
    }
  }

  lemma PushTracked(cfg: Config, s: Net, f: Edge, x: Message, e: Edge, subject: string, uuid: string)
    requires TrackedIn(cfg, s, e, subject, uuid) && f in s.edges && FreshFor(s, x.uuid)
    ensures TrackedIn(cfg, Push(s, f, x), e, subject, uuid)
  {
    hide SubjectRequest, Subscribers, Tracked;
    if f == e {
      GrownTracked(s.edges[e], Push(s, e, x).edges[e], Joined(cfg, s, e, subject), SubjectRequest(uuid, subject));
    }
  }

  lemma SetTableTracked(cfg: Config, s: Net, f: Edge, table: Table<Agent>, e: Edge, subject: string, uuid: string)
    requires TrackedIn(cfg, s, e, subject, uuid) && f in s.edges
    ensures TrackedIn(cfg, SetTable(s, f, table), e, subject, uuid)
  {
    hide SubjectRequest, Subscribers;
  }

  lemma SubscribeTracked(cfg: Config, s: Net, f: Edge, a: Agent, t: string, newId: string, e: Edge, subject: string,
                         uuid: string)
    requires TrackedIn(cfg, s, e, subject, uuid) && f in s.edges && FreshFor(s, newId)
    ensures TrackedIn(cfg, DoSubscribe(s, f, a, t, newId), e, subject, uuid)
  {
    hide TrackedIn, Push, SetTable, SubjectRequest, AddSubscriber;
    SubjectRequestForm(newId, t);
    PushTracked(cfg, s, f, SubjectRequest(newId, t), e, subject, uuid);
    var s1 := if t in s.edges[f].subs then s else Push(s, f, SubjectRequest(newId, t));
    SetTableTracked(cfg, s1, f, AddSubscriber(s.edges[f].subs, t, a), e, subject, uuid);
  }

  lemma SendTracked(cfg: Config, s: Net, f: Edge, a: Agent, newId: string, app: AppMessage, e: Edge, subject: string,
                    uuid: string)
    requires TrackedIn(cfg, s, e, subject, uuid) && f in s.edges && FreshFor(s, newId)
    ensures TrackedIn(cfg, DoSend(cfg, s, f, a, newId, app), e, subject, uuid)
  {
    hide Push, FanOut, SendTargets, Tracked, SubjectRequest;
    PushTracked(cfg, s, f, SendMessage(newId, app), e, subject, uuid);
  }

  lemma AgentTracked(cfg: Config, s: Net, a: Agent, step: AgentStep, e: Edge, subject: string, uuid: string)
    requires Shape(cfg, s) && ValidConfig(cfg) && a in cfg.agents && AgentEnabled(cfg, s, a, step)
    requires TrackedIn(cfg, s, e, subject, uuid)
    ensures TrackedIn(cfg, AgentApply(cfg, s, a, step), e, subject, uuid)
  {
    if OwnBox(step) {
      hide AgentApply, AgentEnabled, Tracked, Joined;
      OwnBoxFrame(cfg, s, a, step);
    } else {
      TableTracked(cfg, s, a, step, e, subject, uuid);
    }
  }

  lemma TableTracked(cfg: Config, s: Net, a: Agent, step: AgentStep, e: Edge, subject: string, uuid: string)
    requires Shape(cfg, s) && ValidConfig(cfg) && a in cfg.agents && AgentEnabled(cfg, s, a, step) && !OwnBox(step)
    requires TrackedIn(cfg, s, e, subject, uuid)
    ensures TrackedIn(cfg, AgentApply(cfg, s, a, step), e, subject, uuid)
  {
    hide TrackedIn, Acceptable, DoSubscribe, DoSend, DropSubscriber, SetTable, Push, SameAgents, SubjectRequest;
    var f := cfg.home(a);
    match step {
      case SubscribeStep(t, newId) => SubscribeTracked(cfg, s, f, a, t, newId, e, subject, uuid);
      case UnsubscribeStep(t) => SetTableTracked(cfg, s, f, DropSubscriber(s.edges[f].subs, t, a), e, subject, uuid);
      case SubscribeDirectStep(newId) =>
        SubjectRequestForm(newId, cfg.mrn(a));
        PushTracked(cfg, s, f, SubjectRequest(newId, cfg.mrn(a)), e, subject, uuid);
      case UnsubscribeDirectStep(newId) => PushTracked(cfg, s, f, WithdrawRequest(newId, cfg.mrn(a)), e, subject, uuid);
      case SendStep(newId, app) => SendTracked(cfg, s, f, a, newId, app, e, subject, uuid);
    }
  }

  lemma PublishTables(routers: map<Router, RouterState>, r: Router, result: PublishResult, q: Router)
    requires r in routers && q in routers && routers[r].out != []
    ensures AfterPublish(routers, r, result)[q].table == routers[q].table
  {
  }

  lemma RouterTracked(cfg: Config, s: Net, r: Router, step: RouterStep, e: Edge, subject: string, uuid: string)
    requires r in s.routers && RouterEnabled(s, r, step) && TrackedIn(cfg, s, e, subject, uuid)
    ensures TrackedIn(cfg, RouterApply(cfg, s, r, step), e, subject, uuid)
  {
    hide Tracked, Subscribers, SubjectRequest, AfterPublish, FanOut;
    if step.PublishStep? && cfg.uplink(e) in s.routers { PublishTables(s.routers, r, step.result, cfg.uplink(e)); }
  }

  lemma StepTracked(cfg: Config, s: Net, step: Step, e: Edge, subject: string, uuid: string)
    requires AllNamed(cfg, s) && Enabled(cfg, s, step)
    requires TrackedIn(cfg, s, e, subject, uuid) && !Withdraws(s, step, e, subject)
    ensures TrackedIn(cfg, Apply(cfg, s, step), e, subject, uuid)
  {
    hide RequestsNamed, AgentApply, EdgeApply, RouterApply, AgentEnabled, EdgeEnabled, RouterEnabled, Tracked,
         Withdraws;
    match step {
      case AgentDoes(a, agent) => AgentTracked(cfg, s, a, agent, e, subject, uuid);
      case EdgeDoes(f, edge) => EdgeTracked(cfg, s, f, edge, e, subject, uuid);
      case RouterDoes(r, router) => RouterTracked(cfg, s, r, router, e, subject, uuid);
      case Tick(now) =>
    }
  }

  // ---- runs ----

  /** At step `k` the edge router `e` gets its first subscriber to `subject`, and pushes a Subscribe named `uuid`. */
  ghost predicate FirstSubscribe(cfg: Config, s: Net, step: Step, e: Edge, subject: string, uuid: string) {
    && step.AgentDoes? && step.agent == SubscribeStep(subject, uuid) && cfg.home(step.a) == e
    && e in s.edges && subject !in s.edges[e].subs
  }

  ghost predicate Opens(cfg: Config, s: Net, step: Step, e: Edge, subject: string) {
    exists uuid :: FirstSubscribe(cfg, s, step, e, subject, uuid)
  }

  ghost predicate NoWithdrawal(run: seq<Net>, steps: seq<Step>, n: nat, e: Edge, subject: string)
    requires |run| == |steps| + 1
  {
    forall i :: 0 <= i < n <= |steps| ==> !Withdraws(run[i], steps[i], e, subject)
  }

  lemma NewKeyTracked(cfg: Config, s: Net, step: Step, e: Edge, subject: string, uuid: string)
    requires AllNamed(cfg, s) && Enabled(cfg, s, step) && FirstSubscribe(cfg, s, step, e, subject, uuid)
    ensures TrackedIn(cfg, Apply(cfg, s, step), e, subject, uuid)
  {
    hide AddSubscriber, Subscribers;
    assert uuid !in s.names;
  }

  /** The first Subscribe for a subject stays under way until its router has accepted it, for ever after. */
  lemma {:induction false} FirstSubscribeStays(cfg: Config, run: seq<Net>, steps: seq<Step>, k: nat, n: nat, e: Edge,
                                               subject: string, uuid: string)
    requires IsRun(cfg, run, steps) && k < n < |run| && FirstSubscribe(cfg, run[k], steps[k], e, subject, uuid)
    requires NoWithdrawal(run, steps, n, e, subject)
    ensures TrackedIn(cfg, run[n], e, subject, uuid)
    decreases n
  {
    hide AllNamed, Init, Enabled, Apply, TrackedIn, FirstSubscribe, Withdraws;
    RunNamed(cfg, run, steps, n - 1);
    if n == k + 1 {
      NewKeyTracked(cfg, run[k], steps[k], e, subject, uuid);
    } else {
      assert NoWithdrawal(run, steps, n - 1, e, subject);
      FirstSubscribeStays(cfg, run, steps, k, n - 1, e, subject, uuid);
      StepTracked(cfg, run[n - 1], steps[n - 1], e, subject, uuid);
    }
  }

  /** How often, in the first `n` steps, `e` pushed a Subscribe because a subject was new. */
  ghost function FirstCount(cfg: Config, run: seq<Net>, steps: seq<Step>, n: nat, e: Edge, subject: string): nat
    requires |run| == |steps| + 1 && n <= |steps|
  {
    if n == 0 then 0
    else FirstCount(cfg, run, steps, n - 1, e, subject)
         + if Opens(cfg, run[n - 1], steps[n - 1], e, subject) then 1 else 0
  }

  predicate HasKey(s: Net, e: Edge, subject: string) {
    e in s.edges && subject in s.edges[e].subs
  }

  /** A step makes `subject` a key of the table of `e` exactly when it is the first Subscribe; no step removes a key. */
  lemma KeyStep(cfg: Config, s: Net, step: Step, e: Edge, subject: string)
    requires Enabled(cfg, s, step)
    ensures HasKey(Apply(cfg, s, step), e, subject) <==> HasKey(s, e, subject) || Opens(cfg, s, step, e, subject)
    ensures Opens(cfg, s, step, e, subject) ==> !HasKey(s, e, subject)
  {
    hide EdgeApply, RouterApply, AgentApply, AgentEnabled, EdgeEnabled, RouterEnabled;
    match step {
      case AgentDoes(a, agent) => AgentKeys(cfg, s, a, agent, e, subject);
      case EdgeDoes(f, edge) => EdgeKeys(cfg, s, f, edge, e, subject);
      case RouterDoes(r, router) => RouterKeys(cfg, s, r, router, e);
      case Tick(_) =>
    }
  }

  lemma AgentKeys(cfg: Config, s: Net, a: Agent, step: AgentStep, e: Edge, subject: string)
    requires Shape(cfg, s) && ValidConfig(cfg) && a in cfg.agents && AgentEnabled(cfg, s, a, step)
    ensures HasKey(AgentApply(cfg, s, a, step), e, subject) <==>
      HasKey(s, e, subject) || Opens(cfg, s, AgentDoes(a, step), e, subject)
  {
    hide FanOut, Acceptable, Live, ReceiveSome, ReceiveAll, Expire, SendTargets, SameAgents, SubjectRequest,
         WithdrawRequest, SendMessage, Subscribers, NotifyAll, Requested;
    if step.SubscribeStep? && cfg.home(a) == e && step.subject == subject && !HasKey(s, e, subject) {
      assert FirstSubscribe(cfg, s, AgentDoes(a, step), e, subject, step.uuid);
    }
  }

  lemma EdgeKeys(cfg: Config, s: Net, f: Edge, step: EdgeStep, e: Edge, subject: string)
    requires Shape(cfg, s) && ValidConfig(cfg) && f in cfg.edges && EdgeEnabled(s, f, step)
    ensures HasKey(EdgeApply(cfg, s, f, step), e, subject) <==> HasKey(s, e, subject)
  {
    hide DoUplink, DoPull, DoDownlink, Expire, ListsKeys, Live, DownReady, WriteFirst, SameAgents, SameOwners;
    match step {
      case UplinkStep(replyId, written, join, order) => UplinkFrame(s, f, cfg.uplink(f), replyId, written, join, order);
      case PullStep(replyId, written, order) => PullFrame(s, f, written, order, replyId);
      case DownlinkStep(newIds, newId) => DownlinkFrame(s, f, newIds, newId);
      case _ =>
    }
  }

  lemma RouterKeys(cfg: Config, s: Net, r: Router, step: RouterStep, e: Edge)
    requires r in s.routers && RouterEnabled(s, r, step)
    ensures RouterApply(cfg, s, r, step).edges == s.edges
  {
    hide AfterPublish, FanOut;
  }

  /** Keys only grow. */
  lemma {:induction false} KeysGrow(cfg: Config, run: seq<Net>, steps: seq<Step>, i: nat, n: nat, e: Edge,
                                    subject: string)
    requires IsRun(cfg, run, steps) && i <= n < |run| && HasKey(run[i], e, subject)
    ensures HasKey(run[n], e, subject)
    decreases n - i
  {
    hide Init, Enabled, Apply, Opens;
    if i < n {
      KeyStep(cfg, run[i], steps[i], e, subject);
      KeysGrow(cfg, run, steps, i + 1, n, e, subject);
    }
  }

  /** Every key caused exactly one first Subscribe. */
  lemma {:induction false} OneFirstSubscribe(cfg: Config, run: seq<Net>, steps: seq<Step>, n: nat, e: Edge,
                                             subject: string)
    requires IsRun(cfg, run, steps) && n < |run|
    ensures FirstCount(cfg, run, steps, n, e, subject) == if HasKey(run[n], e, subject) then 1 else 0
  {
    hide Enabled, Apply, Opens, HasKey, Init;
    if n == 0 {
      NoKeysAtFirst(cfg, run[0], e, subject);
    } else {
      OneFirstSubscribe(cfg, run, steps, n - 1, e, subject);
      KeyStep(cfg, run[n - 1], steps[n - 1], e, subject);
    }
  }

  ghost predicate FirstAt(cfg: Config, run: seq<Net>, steps: seq<Step>, k: nat, e: Edge, subject: string,
                          uuid: string)
  {
    k < |steps| && k < |run| && FirstSubscribe(cfg, run[k], steps[k], e, subject, uuid)
  }

  lemma {:induction false} KeyHasFirst(cfg: Config, run: seq<Net>, steps: seq<Step>, n: nat, e: Edge, subject: string)
    returns (k: nat, uuid: string)
    requires IsRun(cfg, run, steps) && n < |run| && HasKey(run[n], e, subject)
    ensures k < n && FirstAt(cfg, run, steps, k, e, subject, uuid)
  {
    hide Init, Enabled, Apply, FirstSubscribe, HasKey, Opens;
    NoKeysAtFirst(cfg, run[0], e, subject);
    assert n > 0;
    KeyStep(cfg, run[n - 1], steps[n - 1], e, subject);
    if HasKey(run[n - 1], e, subject) {
      k, uuid := KeyHasFirst(cfg, run, steps, n - 1, e, subject);
    } else {
      k := n - 1;
      uuid := OpensAs(cfg, run[n - 1], steps[n - 1], e, subject);
    }
  }

  lemma OpensAs(cfg: Config, s: Net, step: Step, e: Edge, subject: string) returns (uuid: string)
    requires Opens(cfg, s, step, e, subject)
    ensures FirstSubscribe(cfg, s, step, e, subject, uuid)
  {
    hide FirstSubscribe;
    uuid :| FirstSubscribe(cfg, s, step, e, subject, uuid);
  }

  lemma NoKeysAtFirst(cfg: Config, s: Net, e: Edge, subject: string)
    requires Init(cfg, s)
    ensures !HasKey(s, e, subject)
  {
  }

  ghost predicate CoveredKey(cfg: Config, s: Net, e: Edge, subject: string) {
    exists uuid :: TrackedIn(cfg, s, e, subject, uuid)
  }

  /** Subscription coverage: in every run, each subject that an edge router has ever had a subscriber for has its
      Subscribe in the outgoing channel, awaiting an answer, or accepted, unless the router handled an Unsubscribe of
      the edge router for that very subject. */
  lemma EveryKeyCovered(cfg: Config, run: seq<Net>, steps: seq<Step>, n: nat, e: Edge, subject: string)
    requires IsRun(cfg, run, steps) && n < |run| && HasKey(run[n], e, subject)
    requires NoWithdrawal(run, steps, n, e, subject)
    ensures CoveredKey(cfg, run[n], e, subject)
  {
    hide IsRun, NoWithdrawal, FirstSubscribe, TrackedIn;
    var k, uuid := KeyHasFirst(cfg, run, steps, n, e, subject);
    FirstSubscribeStays(cfg, run, steps, k, n, e, subject, uuid);
  }

  /** A subject that is no agent's MRN is never withdrawn. */
  lemma SubjectsApart(cfg: Config, run: seq<Net>, steps: seq<Step>, n: nat, e: Edge, subject: string)
    requires IsRun(cfg, run, steps) && n < |run| && forall a :: a in cfg.agents ==> cfg.mrn(a) != subject
    ensures NoWithdrawal(run, steps, n, e, subject)
  {
    forall i | 0 <= i < n <= |steps| ensures !Withdraws(run[i], steps[i], e, subject) {
      RunNamed(cfg, run, steps, i);
      hide IsRun, RequestOf;
      NamedApart(cfg, run[i], steps[i], e, subject);
    }
  }

  lemma NamedApart(cfg: Config, s: Net, step: Step, e: Edge, subject: string)
    requires AllNamed(cfg, s) && forall a :: a in cfg.agents ==> cfg.mrn(a) != subject
    ensures !Withdraws(s, step, e, subject)
  {
    hide RequestOf;
    if e in s.edges && s.edges[e].up != [] {
      assert RequestNamed(cfg, s.names, s.edges[e].up[0]);
    }
  }

  /** No request for the subject is to be written or awaits an answer. */
  ghost predicate Settled(st: EdgeState, subject: string) {
    && (forall x :: x in st.out.queue ==> RequestOf(x) != SubscribeTo(subject))
    && (forall u :: u in st.out.awaiting ==> RequestOf(st.out.awaiting[u]) != SubscribeTo(subject))
  }

  /** No local subscriber is missed: with no request for the subject left to write or awaiting an answer, the router's
      table has the edge router for it, when it is no agent's MRN. */
  lemma SettledMeansAccepted(cfg: Config, run: seq<Net>, steps: seq<Step>, n: nat, e: Edge, a: Agent, subject: string)
    requires IsRun(cfg, run, steps) && n < |run| && e in run[n].edges && a in Subscribers(run[n].edges[e].subs, subject)
    requires Settled(run[n].edges[e], subject)
    requires forall b :: b in cfg.agents ==> cfg.mrn(b) != subject
    ensures Joined(cfg, run[n], e, subject)
  {
    SubjectsApart(cfg, run, steps, n, e, subject);
    hide IsRun, NoWithdrawal, Joined, RequestOf, SubjectRequest;
    EveryKeyCovered(cfg, run, steps, n, e, subject);
    var uuid :| TrackedIn(cfg, run[n], e, subject, uuid);
    SubjectRequestForm(uuid, subject);
  }

  // ---- exactly when coverage is lost ----

  /** The router handles an Unsubscribe for the subject, and the Subscribe `m` is neither queued nor awaited, or its
      acceptance is on its way down, after which it is neither. */
  ghost predicate LosesTrack(s: Net, step: Step, e: Edge, subject: string, m: Message) {
    && Withdraws(s, step, e, subject)
    && (!Standing(s.edges[e], false, m) || exists d :: d in s.edges[e].down && Accepts(d, m.uuid))
  }

  /** A step ends the coverage of a request exactly under this condition. */
  lemma CoverageLostExactly(cfg: Config, s: Net, step: Step, e: Edge, subject: string, uuid: string)
    requires AllNamed(cfg, s) && Enabled(cfg, s, step) && TrackedIn(cfg, s, e, subject, uuid) && subject != ""
    ensures TrackedIn(cfg, Apply(cfg, s, step), e, subject, uuid) <==>
      !LosesTrack(s, step, e, subject, SubjectRequest(uuid, subject))
  {
    hide AllNamed, SubjectRequest, EdgeEnabled, EdgeApply, RouterApply, AgentApply, Withdraws;
    if Withdraws(s, step, e, subject) {
      WithdrawnTracked(cfg, s, step, e, subject, uuid);
    } else {
      StepTracked(cfg, s, step, e, subject, uuid);
    }
  }

  lemma WithdrawnTracked(cfg: Config, s: Net, step: Step, e: Edge, subject: string, uuid: string)
    requires AllNamed(cfg, s) && Enabled(cfg, s, step) && TrackedIn(cfg, s, e, subject, uuid) && subject != ""
    requires Withdraws(s, step, e, subject)
    ensures TrackedIn(cfg, Apply(cfg, s, step), e, subject, uuid) <==>
      !LosesTrack(s, step, e, subject, SubjectRequest(uuid, subject))
  {
    hide RequestOf, SubjectRequest, EdgeEnabled, EdgeApply, RouterApply, AgentApply, Joined, Tracked, Standing, Accepts,
         Answers;
    var n, x := EdgeApply(cfg, s, e, step.edge), s.edges[e].up[0];
    WithdrawalFrame(cfg, s, step.edge, e, subject);
    SubjectRequestForm(uuid, subject);
    assert RequestNamed(cfg, s.names, x);
    EdgeWithdrawn(s.edges[e], n.edges[e], Joined(cfg, s, e, subject), SubjectRequest(uuid, subject), x);
  }

  lemma EdgeWithdrawn(st: EdgeState, n: EdgeState, joined: bool, m: Message, x: Message)
    requires Tracked(st, joined, m) && n.out == st.out && x.uuid != m.uuid
    requires forall d :: d in n.down ==> d in st.down || Answers(d, x)
    requires forall d :: d in st.down ==> d in n.down
    ensures Tracked(n, false, m) <==>
      !(!Standing(st, false, m) || exists d :: d in st.down && Accepts(d, m.uuid))
  {
  }

  lemma WithdrawalFrame(cfg: Config, s: Net, step: EdgeStep, e: Edge, subject: string)
    requires Shape(cfg, s) && ValidConfig(cfg) && e in cfg.edges && EdgeEnabled(s, e, step) && subject != ""
    requires Withdraws(s, EdgeDoes(e, step), e, subject)
    ensures
      var n := EdgeApply(cfg, s, e, step);
      && !Joined(cfg, n, e, subject) && e in n.edges && n.edges[e].out == s.edges[e].out && n.names == s.names
      && (forall d :: d in n.edges[e].down ==> d in s.edges[e].down || Answers(d, s.edges[e].up[0]))
      && (forall d :: d in s.edges[e].down ==> d in n.edges[e].down)
  {
    hide RequestOf, DoRouterUnsubscribe, ListsKeys, Live, SameAgents, SameOwners;
    RouterUnsubscribeFrame(PopUp(s, e), cfg.uplink(e), e, s.edges[e].up[0], subject, step.replyId, step.written);
  }

  ghost predicate EverUntracked(cfg: Config, run: seq<Net>, k: nat, n: nat, e: Edge, subject: string, uuid: string)
    requires n < |run|
  {
    exists i :: k < i <= n && !TrackedIn(cfg, run[i], e, subject, uuid)
  }

  ghost predicate EverLosesTrack(run: seq<Net>, steps: seq<Step>, k: nat, n: nat, e: Edge, subject: string, m: Message)
    requires n <= |steps| < |run|
  {
    exists i :: k < i < n && LosesTrack(run[i], steps[i], e, subject, m)
  }

  lemma UntrackedMore(cfg: Config, run: seq<Net>, steps: seq<Step>, k: nat, n: nat, e: Edge, subject: string,
                      uuid: string, m: Message)
    requires k + 1 < n <= |steps| < |run|
    ensures EverUntracked(cfg, run, k, n, e, subject, uuid) <==>
      EverUntracked(cfg, run, k, n - 1, e, subject, uuid) || !TrackedIn(cfg, run[n], e, subject, uuid)
    ensures EverLosesTrack(run, steps, k, n, e, subject, m) <==>
      EverLosesTrack(run, steps, k, n - 1, e, subject, m) || LosesTrack(run[n - 1], steps[n - 1], e, subject, m)
    ensures !TrackedIn(cfg, run[n - 1], e, subject, uuid) ==> EverUntracked(cfg, run, k, n - 1, e, subject, uuid)
  {
    hide TrackedIn, LosesTrack;
  }

  /** In every run: from its first Subscribe on, a subject is ever without coverage if and only if some step meets the
      condition. */
  lemma {:induction false} RunCoverageExactly(cfg: Config, run: seq<Net>, steps: seq<Step>, k: nat, n: nat, e: Edge,
                                              subject: string, uuid: string)
    requires IsRun(cfg, run, steps) && k < n < |run| && FirstSubscribe(cfg, run[k], steps[k], e, subject, uuid)
    ensures EverUntracked(cfg, run, k, n, e, subject, uuid) <==>
      EverLosesTrack(run, steps, k, n, e, subject, SubjectRequest(uuid, subject))
    decreases n
  {
    hide AllNamed, Init, Enabled, Apply, TrackedIn, FirstSubscribe, LosesTrack, SubjectRequest;
    RunNamed(cfg, run, steps, n - 1);
    if n == k + 1 {
      NewKeyTracked(cfg, run[k], steps[k], e, subject, uuid);
    } else {
      var m := SubjectRequest(uuid, subject);
      RunCoverageExactly(cfg, run, steps, k, n - 1, e, subject, uuid);
      UntrackedMore(cfg, run, steps, k, n, e, subject, uuid, m);
      FirstHasSubject(cfg, run[k], steps[k], e, subject, uuid);
      hide EverUntracked, EverLosesTrack;
      if TrackedIn(cfg, run[n - 1], e, subject, uuid) {
        CoverageLostExactly(cfg, run[n - 1], steps[n - 1], e, subject, uuid);
      }
    }
  }

  lemma FirstHasSubject(cfg: Config, s: Net, step: Step, e: Edge, subject: string, uuid: string)
    requires Enabled(cfg, s, step) && FirstSubscribe(cfg, s, step, e, subject, uuid)
    ensures subject != "" && e in cfg.edges
  {
  }
}
