/** The spreading of one Send ends: every step either leaves all its copies where they are, or lowers a weighted
    count of them, whatever the fan-out. */
module Dissemination {
  import opened Mmtp
  import opened MailboxSpec
  import opened Routing
  import opened Network
  import opened NetworkInvariant
  import opened NetworkSteps
  import opened Copies
  import opened PotentialSpec
  import opened PotentialSteps
  import opened AtMostOnce
  import opened Weighing

  // ---- where the copies are ----

  function EdgeOf(st: EdgeState, b: Box, t: SendId): EdgeCount {
    EdgeCount(Sum(st.out.queue, Tagged(t)), Sum(st.up, Tagged(t)), CountStore(b.messages, t), Sum(st.down, InReply(t)))
  }

  function RouterOf(r: Router, st: RouterState, t: SendId): RouterCount {
    RouterCount(Sum(st.out, Tagged(t)), Sum(st.pub, Foreign(r, t)), Sum(st.inbox, Tagged(t)))
  }

  function PlacesOf(s: Net, t: SendId): Places {
    Places(map e | e in s.edges && e in s.ebox :: EdgeOf(s.edges[e], s.ebox[e], t),
           map r | r in s.routers :: RouterOf(r, s.routers[r], t),
           map a | a in s.abox :: CountStore(s.abox[a].messages, t))
  }

  // ---- places of a changed network ----

  lemma PlacesSetEdge(s: Net, e: Edge, st: EdgeState, t: SendId)
    requires e in s.edges && e in s.ebox
    ensures
      var p := PlacesOf(s, t);
      PlacesOf(s.(edges := s.edges[e := st]), t) == p.(edge := p.edge[e := EdgeOf(st, s.ebox[e], t)])
  {
    hide EdgeOf, RouterOf, CountStore;
  }

  lemma PlacesSetBox(s: Net, e: Edge, b: Box, t: SendId)
    requires e in s.edges && e in s.ebox
    ensures
      var p := PlacesOf(s, t);
      PlacesOf(s.(ebox := s.ebox[e := b]), t) == p.(edge := p.edge[e := EdgeOf(s.edges[e], b, t)])
  {
    hide EdgeOf, RouterOf, CountStore;
  }

  lemma PlacesSetRouter(s: Net, r: Router, st: RouterState, t: SendId)
    requires r in s.routers
    ensures
      var p := PlacesOf(s, t);
      PlacesOf(s.(routers := s.routers[r := st]), t) == p.(router := p.router[r := RouterOf(r, st, t)])
  {
    hide EdgeOf, RouterOf, CountStore;
  }

  lemma PlacesSetAgent(s: Net, a: Agent, b: Box, delivered: map<Agent, seq<Store>>, t: SendId)
    requires a in s.abox
    ensures
      var p := PlacesOf(s, t);
      PlacesOf(s.(abox := s.abox[a := b], delivered := delivered), t)
      == p.(agent := p.agent[a := CountStore(b.messages, t)])
  {
    hide EdgeOf, RouterOf, CountStore;
  }

  lemma PlacesAt(s: Net, e: Edge, t: SendId)
    requires e in s.edges && e in s.ebox
    ensures e in PlacesOf(s, t).edge && PlacesOf(s, t).edge[e] == EdgeOf(s.edges[e], s.ebox[e], t)
    ensures PlacesOf(s, t).edge[e := EdgeOf(s.edges[e], s.ebox[e], t)] == PlacesOf(s, t).edge
  {
    hide EdgeOf, RouterOf, CountStore;
  }

  /** A change of the edge router's state that moves no copy. */
  lemma EdgeStill(s: Net, e: Edge, st: EdgeState, t: SendId)
    requires e in s.edges && e in s.ebox && EdgeOf(st, s.ebox[e], t) == EdgeOf(s.edges[e], s.ebox[e], t)
    ensures PlacesOf(s.(edges := s.edges[e := st]), t) == PlacesOf(s, t)
  {
    hide EdgeOf, PlacesOf;
    PlacesSetEdge(s, e, st, t);
    PlacesAt(s, e, t);
  }

  ghost predicate Lowers(cfg: Config, s: Net, n: Net, t: SendId) {
    || PlacesOf(n, t) == PlacesOf(s, t)
    || Measure(WeightsOf(cfg), PlacesOf(n, t)) < Measure(WeightsOf(cfg), PlacesOf(s, t))
  }

  lemma PushStill(s: Net, e: Edge, m: Message, t: SendId)
    requires e in s.edges && e in s.ebox && TagCount(m, t) == 0
    ensures PlacesOf(Push(s, e, m), t) == PlacesOf(s, t)
  {
    hide Sum, CountStore, TagCount;
    var st := s.edges[e].(out := s.edges[e].out.(queue := s.edges[e].out.queue + [m]));
    SumSnoc(s.edges[e].out.queue, m, Tagged(t));
    EdgeStill(s, e, st, t);
    NamesStill(s.(edges := s.edges[e := st]), s.names[m.uuid := m], t);
  }

  lemma NamesStill(s: Net, names: Store, t: SendId)
    ensures PlacesOf(s.(names := names), t) == PlacesOf(s, t)
  {
    hide EdgeOf, RouterOf, CountStore;
  }

  lemma TableStill(s: Net, e: Edge, table: Table<Agent>, t: SendId)
    requires e in s.edges && e in s.ebox
    ensures PlacesOf(SetTable(s, e, table), t) == PlacesOf(s, t)
  {
    hide Sum, CountStore;
    EdgeStill(s, e, s.edges[e].(subs := table), t);
  }

  lemma SubscribeStill(s: Net, e: Edge, a: Agent, subject: string, uuid: string, t: SendId)
    requires e in s.edges && e in s.ebox
    ensures PlacesOf(DoSubscribe(s, e, a, subject, uuid), t) == PlacesOf(s, t)
  {
    hide PlacesOf, Push, SetTable, AddSubscriber;
    PushStill(s, e, SubjectRequest(uuid, subject), t);
    var s1 := if subject in s.edges[e].subs then s else Push(s, e, SubjectRequest(uuid, subject));
    TableStill(s1, e, AddSubscriber(s.edges[e].subs, subject, a), t);
  }

  lemma OtherSendStill(cfg: Config, s: Net, e: Edge, a: Agent, uuid: string, app: AppMessage, t: SendId)
    requires Inv(cfg, s) && e in cfg.edges && FreshFor(s, uuid) && app.tag != t
    ensures PlacesOf(DoSend(cfg, s, e, a, uuid, app), t) == PlacesOf(s, t)
  {
    hide AllOk, SendTargets, FanOut, Push, PlacesOf, CountStore, TagCount, SendMessage;
    var m, targets := SendMessage(uuid, app), SendTargets(cfg, s.edges[e].subs, a, app);
    SendTag(uuid, app, t);
    PushStill(s, e, m, t);
    forall b | b in s.abox
      ensures CountStore(FanOut(s.abox, targets, m)[b].messages, t) == CountStore(s.abox[b].messages, t)
    {
      FreshCount(cfg, s, targets, uuid, app, b, t);
    }
    var s1 := Push(s, e, m);
    AgentsPlaces(s1, FanOut(s.abox, targets, m), s.sent[app.tag := app], t);
  }

  lemma FreshCount(cfg: Config, s: Net, targets: set<Agent>, uuid: string, app: AppMessage, b: Agent, t: SendId)
    requires Inv(cfg, s) && FreshFor(s, uuid) && b in s.abox
    ensures
      var m := SendMessage(uuid, app);
      && CountStore(FanOut(s.abox, targets, m)[b].messages, t) <= CountStore(s.abox[b].messages, t) + 1
      && (app.tag != t ==> CountStore(FanOut(s.abox, targets, m)[b].messages, t) == CountStore(s.abox[b].messages, t))
  {
    hide AllOk, CountStore, FanOut;
    AgentKeysNamed(cfg, s, b);
    CountFanOut(s.abox, targets, SendMessage(uuid, app), b, t);
  }

  lemma AgentsPlaces(s: Net, boxes: map<Agent, Box>, sent: map<SendId, AppMessage>, t: SendId)
    requires boxes.Keys == s.abox.Keys
    ensures
      var q := PlacesOf(s.(abox := boxes, sent := sent), t);
      && q.edge == PlacesOf(s, t).edge && q.router == PlacesOf(s, t).router && q.agent.Keys == s.abox.Keys
      && (forall a :: a in s.abox ==> q.agent[a] == CountStore(boxes[a].messages, t))
    ensures (forall a :: a in s.abox ==> CountStore(boxes[a].messages, t) == CountStore(s.abox[a].messages, t)) ==>
      PlacesOf(s.(abox := boxes, sent := sent), t) == PlacesOf(s, t)
  {
    hide EdgeOf, RouterOf, CountStore;
  }

  lemma TakeLowers(cfg: Config, s: Net, a: Agent, b: Box, delivered: map<Agent, seq<Store>>, t: SendId)
    requires a in s.abox && CountStore(b.messages, t) <= CountStore(s.abox[a].messages, t)
    ensures Lowers(cfg, s, s.(abox := s.abox[a := b], delivered := delivered), t)
  {
    PlacesSetAgent(s, a, b, delivered, t);
    var p, q := PlacesOf(s, t), PlacesOf(s.(abox := s.abox[a := b], delivered := delivered), t);
    hide CountStore, Measure;
    assert Taken(p, q, a);
    TakenLower(WeightsOf(cfg), p, q, a);
  }

  lemma ReceiveLowers(cfg: Config, s: Net, a: Agent, ids: seq<string>, written: bool, delivered: map<Agent, seq<Store>>,
                      t: SendId)
    requires a in s.abox
    ensures Lowers(cfg, s, s.(abox := s.abox[a := ReceiveSome(s.abox[a], ids, written)], delivered := delivered), t)
    ensures Lowers(cfg, s, s.(abox := s.abox[a := ReceiveAll(s.abox[a], s.now, written)], delivered := delivered), t)
    ensures Lowers(cfg, s, s.(abox := s.abox[a := Expire(s.abox[a], s.now)], delivered := delivered), t)
    ensures Lowers(cfg, s, s.(abox := s.abox[a := NotifyAll(s.abox[a], written)], delivered := delivered), t)
  {
    hide Lowers, CountStore, Live, Requested, TaggedKeys;
    var b := s.abox[a];
    ReceiveSomeCount(b, ids, written, t);
    CountEmpty(t);
    LiveCount(b.messages, s.now, t);
    TakeLowers(cfg, s, a, ReceiveSome(b, ids, written), delivered, t);
    TakeLowers(cfg, s, a, ReceiveAll(b, s.now, written), delivered, t);
    TakeLowers(cfg, s, a, Expire(b, s.now), delivered, t);
    TakeLowers(cfg, s, a, NotifyAll(b, written), delivered, t);
  }

  lemma AgentLowers(cfg: Config, s: Net, a: Agent, step: AgentStep, t: SendId)
    requires Inv(cfg, s) && a in cfg.agents && AgentEnabled(cfg, s, a, step)
    requires step.SendStep? ==> step.app.tag != t
    ensures Lowers(cfg, s, AgentApply(cfg, s, a, step), t)
  {
    hide AllOk, PlacesOf, Measure, Live, Requested, DoSubscribe, DoSend, Acceptable, Push, SetTable, TaggedKeys,
         ReceiveSome, ReceiveAll, Expire, NotifyAll, SubjectRequest, WithdrawRequest, DropSubscriber, Lowers,
         SameOwners, SameAgents;
    var e, b := cfg.home(a), s.abox[a];
    match step {
      case SubscribeStep(subject, uuid) =>
        SubscribeStill(s, e, a, subject, uuid, t);
        StillLowers(cfg, s, DoSubscribe(s, e, a, subject, uuid), t);
      case UnsubscribeStep(subject) =>
        TableStill(s, e, DropSubscriber(s.edges[e].subs, subject, a), t);
        StillLowers(cfg, s, SetTable(s, e, DropSubscriber(s.edges[e].subs, subject, a)), t);
      case SubscribeDirectStep(uuid) =>
        DirectStill(s, e, uuid, cfg.mrn(a), t);
        StillLowers(cfg, s, Push(s, e, SubjectRequest(uuid, cfg.mrn(a))), t);
      case UnsubscribeDirectStep(uuid) =>
        DirectStill(s, e, uuid, cfg.mrn(a), t);
        StillLowers(cfg, s, Push(s, e, WithdrawRequest(uuid, cfg.mrn(a))), t);
      case SendStep(uuid, app) =>
        OtherSendStill(cfg, s, e, a, uuid, app, t);
        StillLowers(cfg, s, DoSend(cfg, s, e, a, uuid, app), t);
      case NotifyStep(written) => ReceiveLowers(cfg, s, a, [], written, s.delivered, t);
      case ReceiveSomeStep(ids, written) =>
        var batch := if written then Requested(b.messages, ids) else map[];
        ReceiveLowers(cfg, s, a, ids, written, s.delivered[a := s.delivered[a] + [batch]], t);
      case ReceiveAllStep(written) =>
        var batch := if written then Live(b.messages, s.now) else map[];
        ReceiveLowers(cfg, s, a, [], written, s.delivered[a := s.delivered[a] + [batch]], t);
      case ExpireStep => ReceiveLowers(cfg, s, a, [], true, s.delivered, t);
    }
  }

  lemma DirectStill(s: Net, e: Edge, uuid: string, mrn: string, t: SendId)
    requires e in s.edges && e in s.ebox
    ensures PlacesOf(Push(s, e, SubjectRequest(uuid, mrn)), t) == PlacesOf(s, t)
    ensures PlacesOf(Push(s, e, WithdrawRequest(uuid, mrn)), t) == PlacesOf(s, t)
  {
    hide PlacesOf, Push;
    PushStill(s, e, SubjectRequest(uuid, mrn), t);
    PushStill(s, e, WithdrawRequest(uuid, mrn), t);
  }

  // ---- edge routers ----

  lemma WriteLowers(cfg: Config, s: Net, e: Edge, written: bool, t: SendId)
    requires Inv(cfg, s) && e in cfg.edges && s.edges[e].out.queue != []
    ensures Lowers(cfg, s, DoWrite(s, e, written), t)
  {
    hide AllOk, RequestOk, Sum, CountStore, WriteFirst, Measure, PlacesOf;
    var st, st' := s.edges[e], DoWrite(s, e, written).edges[e];
    HeadIsRequest(cfg, s, e);
    SendForm(PastOf(s), e, st.out.queue[0], t);
    WriteCounts(st.out, st.up, written, t);
    hide TagCount;
    PlacesSetEdge(s, e, st', t);
    PlacesAt(s, e, t);
    if written && TagCount(st.out.queue[0], t) == 1 {
      WrittenLower(WeightsOf(cfg), PlacesOf(s, t), PlacesOf(DoWrite(s, e, written), t), e);
    }
  }

  lemma SendDownPlaces(s: Net, e: Edge, m: Message, written: bool, t: SendId)
    requires e in s.edges && e in s.ebox
    ensures
      var p, x := PlacesOf(s, t), if written then InReply(t)(m) else 0;
      PlacesOf(SendDown(s, e, m, written), t) == p.(edge := p.edge[e := p.edge[e].(down := p.edge[e].down + x)])
  {
    hide PlacesOf, InReply, Sum;
    PlacesAt(s, e, t);
    if written {
      SumSnoc(s.edges[e].down, m, InReply(t));
      PlacesSetEdge(s, e, s.edges[e].(down := s.edges[e].down + [m]), t);
    }
  }

  /** Table work at the router, answered with an empty response. */
  lemma TableWorkStill(s: Net, r: Router, e: Edge, st: RouterState, reply: Message, written: bool, t: SendId)
    requires r in s.routers && e in s.edges && e in s.ebox && InReply(t)(reply) == 0
    requires st.out == s.routers[r].out && st.pub == s.routers[r].pub && st.inbox == s.routers[r].inbox
    ensures PlacesOf(SendDown(s.(routers := s.routers[r := st]), e, reply, written), t) == PlacesOf(s, t)
    ensures PlacesOf(SendDown(s, e, reply, written), t) == PlacesOf(s, t)
  {
    hide SendDown, InReply, CountStore, Sum;
    var s1 := s.(routers := s.routers[r := st]);
    assert PlacesOf(s1, t) == PlacesOf(s, t) by { PlacesSetRouter(s, r, st, t); }
    hide PlacesOf;
    SendDownPlaces(s1, e, reply, written, t);
    SendDownPlaces(s, e, reply, written, t);
    PlacesAt(s, e, t);
  }

  lemma SubscribeWorkStill(s: Net, r: Router, e: Edge, m: Message, subject: string, join: JoinResult, replyId: string,
                           written: bool, t: SendId)
    requires r in s.routers && e in s.edges && e in s.ebox
    ensures PlacesOf(DoRouterSubscribe(s, r, e, m, subject, join, replyId, written), t) == PlacesOf(s, t)
    ensures PlacesOf(DoRouterUnsubscribe(s, r, e, m, subject, replyId, written), t) == PlacesOf(s, t)
  {
    hide PlacesOf, SendDown, RouterSubscribe, DropSubscriber, InReply;
    EmptyReply(replyId, m.uuid, t);
    var (st, ok) := RouterSubscribe(s.routers[r], e, subject, join);
    SubscribeQueues(s.routers[r], e, subject, join);
    TableWorkStill(s, r, e, st, if ok then GoodReply(replyId, m.uuid, [], []) else ErrorReply(replyId, m.uuid), written,
                   t);
    var fewer := s.routers[r].(table := DropSubscriber(s.routers[r].table, subject, e));
    TableWorkStill(s, r, e, fewer, GoodReply(replyId, m.uuid, [], []), written, t);
    TableWorkStill(s, r, e, fewer, ErrorReply(replyId, m.uuid), written, t);
  }

  /** Fanning `m` out to edge routers raises each mailbox by at most its copy count. */
  lemma EdgeFanOutPlaces(cfg: Config, s: Net, targets: set<Edge>, m: Message, t: SendId)
    requires Inv(cfg, s) && m.uuid != "" && m.uuid in s.names && s.names[m.uuid] == m
    ensures
      var p, q := PlacesOf(s, t), PlacesOf(s.(ebox := FanOut(s.ebox, targets, m)), t);
      && q.router == p.router && q.agent == p.agent && BoxesRaised(p.edge, q.edge)
      && (TagCount(m, t) == 0 ==> q == p)
  {
    hide AllOk, CountStore, FanOut, Sum, RouterOf;
    forall e | e in cfg.edges
      ensures
        var queued := FanOut(s.ebox, targets, m)[e].messages;
        && CountStore(queued, t) <= CountStore(s.ebox[e].messages, t) + TagCount(m, t)
        && (TagCount(m, t) == 0 ==> CountStore(queued, t) == CountStore(s.ebox[e].messages, t))
    {
      EdgeQueueCount(cfg, s, targets, m, e, t);
    }
    hide Inv, TagCount;
    AtMostOneTag(m, t);
  }

  lemma RouterSendPlaces(cfg: Config, s: Net, r: Router, e: Edge, m: Message, app: AppMessage, replyId: string,
                         written: bool, t: SendId)
    requires Inv(cfg, s) && e in cfg.edges && r in cfg.routers && RequestOk(PastOf(s), e, m) && AppOf(m) == Some(app)
    ensures
      var p, q := PlacesOf(s, t), PlacesOf(DoRouterSend(s, r, e, m, app, replyId, written), t);
      var more := p.router[r].(out := p.router[r].out + TagCount(m, t));
      && q.router == p.router[r := more] && q.agent == p.agent && BoxesRaised(p.edge, q.edge)
      && (TagCount(m, t) == 0 ==> q == p)
  {
    hide AllOk, RequestOk, PlacesOf, FanOut, InReply, SendDown, SubjectOf, TagCount, Sum, Genuine, Subscribers;
    RequestNamed(PastOf(s), e, m);
    var st := s.routers[r].(out := s.routers[r].out + [m]);
    var targets := Subscribers(s.routers[r].table, SubjectOf(app)) - {e};
    EdgeFanOutPlaces(cfg, s, targets, m, t);
    var s1 := s.(ebox := FanOut(s.ebox, targets, m));
    SumSnoc(s.routers[r].out, m, Tagged(t));
    PlacesSetRouter(s1, r, st, t);
    var s2 := s1.(routers := s1.routers[r := st]);
    EmptyReply(replyId, m.uuid, t);
    SendDownPlaces(s2, e, GoodReply(replyId, m.uuid, [], []), written, t);
    PlacesAt(s2, e, t);
    RouterPlacesAt(s, r, t);
    RouterPlacesAt(s1, r, t);
  }

  lemma RouterPlacesAt(s: Net, r: Router, t: SendId)
    requires r in s.routers
    ensures r in PlacesOf(s, t).router && PlacesOf(s, t).router[r] == RouterOf(r, s.routers[r], t)
    ensures PlacesOf(s, t).router[r := RouterOf(r, s.routers[r], t)] == PlacesOf(s, t).router
  {
    hide EdgeOf, RouterOf, CountStore;
  }

  lemma ReceivePlaces(cfg: Config, s: Net, e: Edge, m: Message, ids: seq<string>, replyId: string, written: bool,
                      order: seq<string>, t: SendId)
    requires e in s.edges && e in s.ebox && ListsKeys(order, Live(s.ebox[e].messages, s.now))
    ensures Lowers(cfg, s, DoReceive(s, e, m, ids, replyId, written, order), t)
  {
    hide PlacesOf, CountStore, Sum, BoxAfterReceive, Answer, ListsKeys, Live, SendDown, TaggedKeys, Measure;
    var b, later := s.ebox[e], BoxAfterReceive(s.ebox[e], ids, s.now, written);
    AnswerStored(b, ids, s.now, order);
    var contents := ContentsFor(Answer(b, ids, order), b.messages);
    ReceiveCounts(b, ids, s.now, written, order, t);
    PlacesAt(s, e, t);
    PlacesSetBox(s, e, later, t);
    var s1 := s.(ebox := s.ebox[e := later]);
    SendDownPlaces(s1, e, GoodReply(replyId, m.uuid, [], contents), written, t);
    PlacesAt(s1, e, t);
    var x := if written then Sum(contents, InContent(t)) else 0;
    CollectedLower(WeightsOf(cfg), PlacesOf(s, t), PlacesOf(DoReceive(s, e, m, ids, replyId, written, order), t), e, x);
  }

  lemma PopUpPlaces(s: Net, e: Edge, t: SendId)
    requires e in s.edges && e in s.ebox && s.edges[e].up != []
    ensures
      var p := PlacesOf(s, t);
      && TagCount(s.edges[e].up[0], t) <= p.edge[e].up
      && PlacesOf(PopUp(s, e), t)
         == p.(edge := p.edge[e := p.edge[e].(up := p.edge[e].up - TagCount(s.edges[e].up[0], t))])
  {
    hide Sum, TagCount, CountStore, PlacesOf;
    PopSum(s.edges[e].up, t);
    PlacesAt(s, e, t);
    PlacesSetEdge(s, e, s.edges[e].(up := s.edges[e].up[1..]), t);
  }

  lemma ServeUntagged(cfg: Config, s: Net, e: Edge, r: Router, m: Message, replyId: string, written: bool,
                      join: JoinResult, order: seq<string>, t: SendId)
    requires Inv(cfg, s) && e in cfg.edges && r in cfg.routers && RequestOk(PastOf(s), e, m) && TagCount(m, t) == 0
    requires ListsKeys(order, Live(s.ebox[e].messages, s.now))
    ensures Lowers(cfg, s, Serve(s, e, r, m, replyId, written, join, order), t)
  {
    hide AllOk, RequestOk, Lowers, ListsKeys, Live, DoReceive, DoRouterSend, DoRouterSubscribe,
         DoRouterUnsubscribe, TagCount, RequestOf, PlacesOf;
    PassesItsOwn(m);
    StillLowers(cfg, s, s, t);
    match RequestOf(m) {
      case SubscribeTo(subject) =>
        SubscribeWorkStill(s, r, e, m, subject, join, replyId, written, t);
        StillLowers(cfg, s, DoRouterSubscribe(s, r, e, m, subject, join, replyId, written), t);
      case WithdrawFrom(subject) =>
        SubscribeWorkStill(s, r, e, m, subject, join, replyId, written, t);
        StillLowers(cfg, s, DoRouterUnsubscribe(s, r, e, m, subject, replyId, written), t);
      case PassOn(Some(app)) =>
        RouterSendPlaces(cfg, s, r, e, m, app, replyId, written, t);
        StillLowers(cfg, s, DoRouterSend(s, r, e, m, app, replyId, written), t);
      case Collect(ids) => ReceivePlaces(cfg, s, e, m, ids, replyId, written, order, t);
      case _ =>
    }
  }

  lemma FitsOf(cfg: Config, s: Net, t: SendId)
    requires Shape(cfg, s)
    ensures Fits(cfg, PlacesOf(s, t))
    ensures
      var p := PlacesOf(s, t);
      |p.edge| == |cfg.edges| && |p.router| == |cfg.routers| && |p.agent| == |cfg.agents|
  {
    hide EdgeOf, RouterOf, CountStore;
    var p := PlacesOf(s, t);
    assert |p.edge| == |p.edge.Keys| && |p.router| == |p.router.Keys| && |p.agent| == |p.agent.Keys|;
  }

  lemma ServeTagged(cfg: Config, s: Net, e: Edge, r: Router, replyId: string, written: bool, join: JoinResult,
                    order: seq<string>, t: SendId)
    requires Inv(cfg, s) && e in cfg.edges && r in cfg.routers && s.edges[e].up != []
    requires TagCount(s.edges[e].up[0], t) == 1 && ListsKeys(order, Live(s.ebox[e].messages, s.now))
    ensures Lowers(cfg, s, DoUplink(s, e, r, replyId, written, join, order), t)
  {
    hide AllOk, RequestOk, PlacesOf, Measure, ListsKeys, Live, DoRouterSend, TagCount, RequestOf, PopUp, BoxesRaised,
         WeightsOf;
    var m, s1 := s.edges[e].up[0], PopUp(s, e);
    PopUpOk(cfg, s, e);
    PopUpFrame(s, e);
    PopUpPlaces(s, e, t);
    UntaggedRequest(s, e, m, t);
    PassesItsOwn(m);
    RouterSendPlaces(cfg, s1, r, e, m, RequestOf(m).app.value, replyId, written, t);
    FitsOf(cfg, s, t);
    RouterPlacesAt(s, r, t);
    PassedLower(WeightsOf(cfg), PlacesOf(s, t), PlacesOf(DoUplink(s, e, r, replyId, written, join, order), t), e, r);
  }

  lemma UplinkLowers(cfg: Config, s: Net, e: Edge, r: Router, replyId: string, written: bool, join: JoinResult,
                     order: seq<string>, t: SendId)
    requires Inv(cfg, s) && e in cfg.edges && r in cfg.routers && s.edges[e].up != []
    requires ListsKeys(order, Live(s.ebox[e].messages, s.now))
    ensures Lowers(cfg, s, DoUplink(s, e, r, replyId, written, join, order), t)
  {
    hide AllOk, RequestOk, PlacesOf, Measure, ListsKeys, Live, TagCount, Serve, PopUp, WeightsOf;
    var m := s.edges[e].up[0];
    AtMostOneTag(m, t);
    if TagCount(m, t) == 1 {
      ServeTagged(cfg, s, e, r, replyId, written, join, order, t);
    } else {
      PopUpOk(cfg, s, e);
      PopUpFrame(s, e);
      PopUpPlaces(s, e, t);
      PlacesAt(s, e, t);
      ServeUntagged(cfg, PopUp(s, e), e, r, m, replyId, written, join, order, t);
    }
  }

  lemma PullStill(s: Net, e: Edge, written: bool, order: seq<string>, replyId: string, t: SendId)
    requires e in s.edges && e in s.ebox && ListsKeys(order, s.ebox[e].notifications)
    ensures PlacesOf(DoPull(s, e, written, order, replyId), t) == PlacesOf(s, t)
  {
    hide PlacesOf, CountStore, Sum, ListsKeys;
    var b := NotifyAll(s.ebox[e], written);
    PlacesSetBox(s, e, b, t);
    PlacesAt(s, e, t);
    if s.ebox[e].notifications != map[] && written {
      var s1, m := s.(ebox := s.ebox[e := b]), DoPull(s, e, written, order, replyId).edges[e].down[|s.edges[e].down|];
      NoEntries(m, t);
      SendDownPlaces(s1, e, m, written, t);
      PlacesAt(s1, e, t);
    }
  }

  lemma ExpireLowers(cfg: Config, s: Net, e: Edge, t: SendId)
    requires e in s.edges && e in s.ebox
    ensures Lowers(cfg, s, ExpireEdge(s, e), t)
  {
    hide PlacesOf, CountStore, Sum, Measure;
    LiveCount(s.ebox[e].messages, s.now, t);
    PlacesAt(s, e, t);
    PlacesSetBox(s, e, Expire(s.ebox[e], s.now), t);
    CollectedLower(WeightsOf(cfg), PlacesOf(s, t), PlacesOf(ExpireEdge(s, e), t), e, 0);
  }

  lemma {:induction false} DeliverKeeps(boxes: map<Agent, Box>, table: Table<Agent>, contents: seq<Content>,
                                        newIds: seq<string>, now: int, a: Agent)
    requires a in boxes && |newIds| == |contents| && forall u :: u in newIds ==> u !in boxes[a].messages
    ensures Within(boxes[a].messages, Deliver(boxes, table, map[], {}, contents, newIds, now)[a].messages)
  {
    if contents != [] {
      var n := |contents| - 1;
      assert newIds == newIds[..n] + [newIds[n]];
      DeliverKeeps(boxes, table, contents[..n], newIds[..n], now, a);
      hide LocalTargets, InWindow;
    }
  }

  lemma DeliveredCount(cfg: Config, s: Net, e: Edge, contents: seq<Content>, newIds: seq<string>, a: Agent, t: SendId)
    requires Inv(cfg, s) && a in cfg.agents && e in cfg.edges && |newIds| == |contents| && NewNames(s.names, newIds)
    ensures
      var later := CountStore(Deliver(s.abox, s.edges[e].subs, map[], {}, contents, newIds, s.now)[a].messages, t);
      && later <= CountStore(s.abox[a].messages, t) + Sum(contents, InContent(t))
      && CountStore(s.abox[a].messages, t) <= later
  {
    hide AllOk, CountStore, Sum, Deliver, Within;
    AgentKeysNamed(cfg, s, a);
    CountDeliver(s.abox, s.edges[e].subs, contents, newIds, s.now, a, t);
    DeliverKeeps(s.abox, s.edges[e].subs, contents, newIds, s.now, a);
    CountWithin(s.abox[a].messages, Deliver(s.abox, s.edges[e].subs, map[], {}, contents, newIds, s.now)[a].messages,
                t);
  }

  lemma SettleStill(cfg: Config, s: Net, e: Edge, response: Response, t: SendId)
    requires Inv(cfg, s) && e in cfg.edges
    ensures PlacesOf(SettleAt(s, e, response), t) == PlacesOf(s, t)
  {
    hide AllOk, PlacesOf, Sum, CountStore;
    var o := s.edges[e].out;
    if response.to in o.awaiting && !response.code.Good? {
      AwaitingIsNoSend(cfg, s, e, response.to);
      SumSnoc(o.queue, o.awaiting[response.to], Tagged(t));
    } else {
      assert o.queue + [] == o.queue;
    }
    EdgeStill(s, e, s.edges[e].(out := Settle(o, response)), t);
  }

  lemma PopDownPlaces(s: Net, e: Edge, t: SendId)
    requires e in s.edges && e in s.ebox && s.edges[e].down != []
    ensures
      var p, x := PlacesOf(s, t), InReply(t)(s.edges[e].down[0]);
      && x <= p.edge[e].down
      && PlacesOf(PopDown(s, e), t) == p.(edge := p.edge[e := p.edge[e].(down := p.edge[e].down - x)])
  {
    hide Sum, InReply, CountStore, PlacesOf;
    PopReply(s.edges[e].down, t);
    PlacesAt(s, e, t);
    PlacesSetEdge(s, e, s.edges[e].(down := s.edges[e].down[1..]), t);
  }

  lemma UnpackPlaces(cfg: Config, s: Net, e: Edge, m: Message, newIds: seq<string>, uuid: string, t: SendId)
    requires Inv(cfg, s) && e in cfg.edges && |newIds| == |Delivering(m)| && NewNames(s.names, newIds)
    ensures
      var p, q, x := PlacesOf(s, t), PlacesOf(Unpack(s, e, m, newIds, uuid), t), InReply(t)(m);
      && q.edge == p.edge && q.router == p.router && q.agent.Keys == p.agent.Keys
      && (forall a :: a in p.agent ==> q.agent[a] <= p.agent[a] + x)
      && (x == 0 ==> q.agent == p.agent)
  {
    hide AllOk, PlacesOf, CountStore, Deliver, NameRequeued, InReply, NewNames, SettleAt, Sum;
    match m.body {
      case Reply(response) => UnpackReplyPlaces(cfg, s, e, m, newIds, uuid, t);
      case Protocol(NotifyType, Notify(metadata)) =>
        NoEntries(m, t);
        PushStill(s, e, ReceiveRequest(uuid, MetadataIds(metadata)), t);
      case _ => NoEntries(m, t);
    }
  }

  lemma UnpackReplyPlaces(cfg: Config, s: Net, e: Edge, m: Message, newIds: seq<string>, uuid: string, t: SendId)
    requires Inv(cfg, s) && e in cfg.edges && |newIds| == |Delivering(m)| && NewNames(s.names, newIds) && m.body.Reply?
    ensures
      var p, q, x := PlacesOf(s, t), PlacesOf(Unpack(s, e, m, newIds, uuid), t), InReply(t)(m);
      && q.edge == p.edge && q.router == p.router && q.agent.Keys == p.agent.Keys
      && (forall a :: a in p.agent ==> q.agent[a] <= p.agent[a] + x)
      && (x == 0 ==> q.agent == p.agent)
  {
    hide AllOk, PlacesOf, CountStore, Deliver, NameRequeued, NewNames, SettleAt, Sum;
    var s1 := SettleAt(s, e, m.body.response);
    SettleStill(cfg, s, e, m.body.response, t);
    SettleFrame(s, e, m.body.response);
    var boxes := Deliver(s.abox, s.edges[e].subs, map[], {}, Delivering(m), newIds, s.now);
    forall a | a in s.abox
      ensures CountStore(boxes[a].messages, t) <= CountStore(s.abox[a].messages, t) + Sum(Delivering(m), InContent(t))
      ensures CountStore(s.abox[a].messages, t) <= CountStore(boxes[a].messages, t)
    {
      DeliveredCount(cfg, s, e, Delivering(m), newIds, a, t);
    }
    AgentsPlaces(s1, s1.abox, s1.sent, t);
    AgentsPlaces(s1, boxes, s1.sent, t);
    assert s1.(abox := s1.abox, sent := s1.sent) == s1;
    var s2 := s1.(abox := boxes, sent := s1.sent);
    NamesStill(s2, NameRequeued(s.names, Delivering(m), newIds), t);
  }

  lemma DownlinkLowers(cfg: Config, s: Net, e: Edge, newIds: seq<string>, uuid: string, t: SendId)
    requires Inv(cfg, s) && e in cfg.edges && DownReady(s, e, newIds, uuid)
    ensures Lowers(cfg, s, DoDownlink(s, e, newIds, uuid), t)
  {
    hide AllOk, PlacesOf, PopDown, DownOk, InReply, Unpack, Measure, WeightsOf;
    PopDownInv(cfg, s, e);
    PopDownFrame(s, e);
    PopDownPlaces(s, e, t);
    NewIdsNew(s, newIds, uuid);
    hide FreshFor, Distinct, NewNames;
    var m := s.edges[e].down[0];
    UnpackPlaces(cfg, PopDown(s, e), e, m, newIds, uuid, t);
    FitsOf(cfg, s, t);
    UnpackedLower(WeightsOf(cfg), PlacesOf(s, t), PlacesOf(DoDownlink(s, e, newIds, uuid), t), e, InReply(t)(m));
  }

  lemma EdgeLowers(cfg: Config, s: Net, e: Edge, step: EdgeStep, t: SendId)
    requires Inv(cfg, s) && e in cfg.edges && EdgeEnabled(s, e, step)
    ensures Lowers(cfg, s, EdgeApply(cfg, s, e, step), t)
  {
    hide AllOk, Lowers, DoWrite, DoUplink, DoPull, DoDownlink, ListsKeys, Distinct, Live, Delivering;
    match step {
      case WriteStep(written) => WriteLowers(cfg, s, e, written, t);
      case UplinkStep(replyId, written, join, order) =>
        UplinkLowers(cfg, s, e, cfg.uplink(e), replyId, written, join, order, t);
      case PullStep(replyId, written, order) =>
        PullStill(s, e, written, order, replyId, t);
        StillLowers(cfg, s, DoPull(s, e, written, order, replyId), t);
      case DownlinkStep(newIds, uuid) => DownlinkLowers(cfg, s, e, newIds, uuid, t);
      case ExpireEdgeStep => ExpireLowers(cfg, s, e, t);
    }
  }

  lemma StillLowers(cfg: Config, s: Net, n: Net, t: SendId)
    requires PlacesOf(n, t) == PlacesOf(s, t)
    ensures Lowers(cfg, s, n, t)
  {
  }

  // ---- routers ----

  lemma RoutersPlaces(s: Net, routers: map<Router, RouterState>, t: SendId)
    requires routers.Keys == s.routers.Keys
    ensures
      var p, q := PlacesOf(s, t), PlacesOf(s.(routers := routers), t);
      && q.edge == p.edge && q.agent == p.agent && q.router.Keys == s.routers.Keys
      && (forall r :: r in s.routers ==> q.router[r] == RouterOf(r, routers[r], t))
  {
    hide EdgeOf, RouterOf, CountStore;
  }

  /** What a publication does to the copies at one router. */
  lemma PublishedAt(cfg: Config, s: Net, r: Router, result: PublishResult, q: Router, t: SendId)
    requires Inv(cfg, s) && r in cfg.routers && q in cfg.routers && s.routers[r].out != []
    ensures
      var c, d := RouterOf(q, s.routers[q], t), RouterOf(q, AfterPublish(s.routers, r, result)[q], t);
      var x := TagCount(s.routers[r].out[0], t);
      && c.pub <= d.pub <= c.pub + x && d.inbox == c.inbox
      && d.out + (if q == r then x else 0) == c.out
  {
    hide AllOk, AfterPublish, Sum, TagCount, PublishWorks, SubjectCarried;
    PopSum(s.routers[r].out, t);
    PublishQueues(s, r, result, q);
    PublishCounts(cfg, s, r, result, q, t);
  }

  /** `x` copies, at most one, leave the outgoing channel of `r` for the overlay. */
  ghost predicate PublishedBy(p: Places, q: Places, r: Router, x: nat) {
    && x <= 1 && r in p.router && q.edge == p.edge && q.agent == p.agent && q.router.Keys == p.router.Keys
    && (forall f :: f in p.router ==>
         && p.router[f].pub <= q.router[f].pub <= p.router[f].pub + x && q.router[f].inbox == p.router[f].inbox
         && q.router[f].out + (if f == r then x else 0) == p.router[f].out)
  }

  lemma PublishedLower(w: Weights, p: Places, q: Places, r: Router, x: nat)
    requires PublishedBy(p, q, r, x) && w.out > Times(w.pub, |p.router|)
    ensures q == p || Measure(w, q) < Measure(w, p)
  {
    hide Measure, Times;
    if x == 0 {
      assert q.router == p.router;
    } else {
      MovedOutLower(w, p, q, r);
    }
  }

  lemma PublishLowers(cfg: Config, s: Net, r: Router, result: PublishResult, t: SendId)
    requires Inv(cfg, s) && r in cfg.routers && s.routers[r].out != []
    ensures Lowers(cfg, s, DoPublish(s, r, result), t)
  {
    hide AllOk, PlacesOf, AfterPublish, RouterOf, TagCount, Measure, WeightsOf, SameOwners, SameAgents;
    var m, routers := s.routers[r].out[0], AfterPublish(s.routers, r, result);
    AtMostOneTag(m, t);
    var p, q := PlacesOf(s, t), PlacesOf(DoPublish(s, r, result), t);
    RoutersPlaces(s, routers, t);
    RoutersPlaces(s, s.routers, t);
    assert s.(routers := s.routers) == s;
    FitsOf(cfg, s, t);
    assert PublishedBy(p, q, r, TagCount(m, t)) by {
      forall f | f in s.routers
        ensures
          var c, d, x := p.router[f], q.router[f], TagCount(m, t);
          && c.pub <= d.pub <= c.pub + x && d.inbox == c.inbox
          && d.out + (if f == r then x else 0) == c.out
      {
        PublishedAt(cfg, s, r, result, f, t);
      }
    }
    PublishedLower(WeightsOf(cfg), p, q, r, TagCount(m, t));
  }

  lemma ListenLowers(cfg: Config, s: Net, r: Router, t: SendId)
    requires Inv(cfg, s) && r in cfg.routers && s.routers[r].pub != []
    ensures Lowers(cfg, s, DoListen(cfg, s, r), t)
  {
    hide AllOk, Sum, TagCount, CarriesSend, Measure, PlacesOf, WeightsOf;
    var p, st, n := s.routers[r].pub[0], s.routers[r], DoListen(cfg, s, r);
    AtMostOneTag(p.m, t);
    PopPub(st.pub, r, t);
    SumSnoc(st.inbox, p.m, Tagged(t));
    PlacesSetRouter(s, r, n.routers[r], t);
    RouterPlacesAt(s, r, t);
    RouterPlacesAt(n, r, t);
    if p.from != r && TagCount(p.m, t) == 1 {
      HeededLower(WeightsOf(cfg), PlacesOf(s, t), PlacesOf(n, t), r);
    }
  }

  lemma IncomingLowers(cfg: Config, s: Net, r: Router, t: SendId)
    requires Inv(cfg, s) && r in cfg.routers && s.routers[r].inbox != []
    ensures Lowers(cfg, s, DoIncoming(s, r), t)
  {
    hide AllOk, Sum, Genuine, TagCount, FanOut, CountStore, SubjectOf, InWindow, PlacesOf, Measure, WeightsOf,
         Subscribers, BoxesRaised;
    var m, st, n := s.routers[r].inbox[0], s.routers[r], DoIncoming(s, r);
    InboxHead(cfg, s, r);
    AtMostOneTag(m, t);
    PopSum(st.inbox, t);
    var targets, less := Subscribers(st.table, SubjectOf(AppOf(m).value)), st.(inbox := st.inbox[1..]);
    EdgeFanOutPlaces(cfg, s, targets, m, t);
    EdgeFanOutPlaces(cfg, s, {}, m, t);
    FanOutNobody(s.ebox, m);
    var s1 := s.(ebox := FanOut(s.ebox, targets, m));
    PlacesSetRouter(s, r, less, t);
    PlacesSetRouter(s1, r, less, t);
    RouterPlacesAt(s, r, t);
    RouterPlacesAt(s1, r, t);
    FitsOf(cfg, s, t);
    assert s.(ebox := s.ebox) == s;
    if TagCount(m, t) == 1 {
      SpreadLower(WeightsOf(cfg), PlacesOf(s, t), PlacesOf(n, t), r);
    }
  }

  lemma RouterLowers(cfg: Config, s: Net, r: Router, step: RouterStep, t: SendId)
    requires Inv(cfg, s) && r in cfg.routers && RouterEnabled(s, r, step)
    ensures Lowers(cfg, s, RouterApply(cfg, s, r, step), t)
  {
    hide AllOk, Lowers, DoPublish, DoListen, DoIncoming;
    match step {
      case PublishStep(result) => PublishLowers(cfg, s, r, result, t);
      case ListenStep => ListenLowers(cfg, s, r, t);
      case IncomingStep => IncomingLowers(cfg, s, r, t);
    }
  }

  // ---- runs ----

  /** Every step but the Send itself leaves the copies where they are or lowers their weight. */
  lemma StepLowers(cfg: Config, s: Net, step: Step, t: SendId)
    requires Inv(cfg, s) && Enabled(cfg, s, step) && !Sends(step, t)
    ensures Lowers(cfg, s, Apply(cfg, s, step), t)
  {
    hide AllOk, Lowers, AgentApply, EdgeApply, RouterApply, AgentEnabled, EdgeEnabled, RouterEnabled;
    match step {
      case AgentDoes(a, agent) => AgentLowers(cfg, s, a, agent, t);
      case EdgeDoes(e, edge) => EdgeLowers(cfg, s, e, edge, t);
      case RouterDoes(r, router) => RouterLowers(cfg, s, r, router, t);
      case Tick(now) => TickLowers(cfg, s, now, t);
    }
  }

  lemma TickLowers(cfg: Config, s: Net, now: int, t: SendId)
    ensures Lowers(cfg, s.(now := now), s, t) && Lowers(cfg, s, s.(now := now), t)
  {
    hide Measure, CountStore, EdgeOf, RouterOf;
  }

  lemma EmptyPlaces(cfg: Config, s: Net, t: SendId)
    requires Init(cfg, s)
    ensures
      var p := PlacesOf(s, t);
      && (forall e :: e in p.edge ==> p.edge[e] == EdgeCount(0, 0, 0, 0))
      && (forall r :: r in p.router ==> p.router[r] == RouterCount(0, 0, 0))
      && (forall a :: a in p.agent ==> p.agent[a] == 0)
  {
    CountEmpty(t);
    hide CountStore;
  }

  lemma NothingAtFirst(cfg: Config, s: Net, t: SendId)
    requires Init(cfg, s)
    ensures Measure(WeightsOf(cfg), PlacesOf(s, t)) == 0
  {
    EmptyPlaces(cfg, s, t);
    hide WeightsOf, Init, PlacesOf, EdgeWeight, RouterWeight;
    var p, w := PlacesOf(s, t), WeightsOf(cfg);
    Nothing(w);
    TotalNothing(p.edge, EdgeWeight(w));
    TotalNothing(p.router, RouterWeight(w));
    TotalNothing(p.agent, AgentWeight());
  }

  lemma Nothing(w: Weights)
    ensures EdgeWeight(w)(EdgeCount(0, 0, 0, 0)) == 0 && RouterWeight(w)(RouterCount(0, 0, 0)) == 0
  {
  }

  lemma {:induction false} TotalNothing<K, V>(m: map<K, V>, weight: V -> nat)
    requires forall k :: k in m ==> weight(m[k]) == 0
    ensures Total(m, weight) == 0
    decreases |m|
  {
    if m != map[] {
      var k :| k in m;
      TotalAt(m, weight, k);
      TotalNothing(m - {k}, weight);
    }
  }

  /** What one Send may weigh: its copy in the outgoing channel, and one for every local subscriber. */
  function Budget(cfg: Config): nat {
    WeightsOf(cfg).queue + |cfg.agents|
  }

  lemma PushWeighs(w: Weights, s: Net, e: Edge, m: Message, t: SendId)
    requires e in s.edges && e in s.ebox && TagCount(m, t) == 1
    ensures Measure(w, PlacesOf(Push(s, e, m), t)) == Measure(w, PlacesOf(s, t)) + w.queue
    ensures PlacesOf(Push(s, e, m), t).agent == PlacesOf(s, t).agent
  {
    hide PlacesOf, Sum, CountStore, TagCount, Times, Total, RouterWeight;
    var st := s.edges[e].(out := s.edges[e].out.(queue := s.edges[e].out.queue + [m]));
    SumSnoc(s.edges[e].out.queue, m, Tagged(t));
    PlacesSetEdge(s, e, st, t);
    PlacesAt(s, e, t);
    NamesStill(s.(edges := s.edges[e := st]), s.names[m.uuid := m], t);
    var c := PlacesOf(s, t).edge[e];
    TotalSet(PlacesOf(s, t).edge, EdgeWeight(w), e, c.(queue := c.queue + 1));
    TimesNext(w.queue, c.queue);
  }

  lemma SendSpreads(cfg: Config, s: Net, e: Edge, a: Agent, uuid: string, app: AppMessage, t: SendId)
    requires Inv(cfg, s) && e in cfg.edges && FreshFor(s, uuid)
    ensures
      var p, q := PlacesOf(Push(s, e, SendMessage(uuid, app)), t), PlacesOf(DoSend(cfg, s, e, a, uuid, app), t);
      && q.edge == p.edge && q.router == p.router && q.agent.Keys == p.agent.Keys
      && (forall b :: b in p.agent ==> q.agent[b] <= p.agent[b] + 1)
  {
    hide AllOk, SendTargets, FanOut, PlacesOf, CountStore, SendMessage, Push;
    var m, targets := SendMessage(uuid, app), SendTargets(cfg, s.edges[e].subs, a, app);
    var s1, boxes := Push(s, e, m), FanOut(s.abox, targets, m);
    forall b | b in s.abox ensures CountStore(boxes[b].messages, t) <= CountStore(s.abox[b].messages, t) + 1 {
      FreshCount(cfg, s, targets, uuid, app, b, t);
    }
    AgentsPlaces(s1, s1.abox, s1.sent, t);
    AgentsPlaces(s1, boxes, s.sent[app.tag := app], t);
    assert s1.(abox := s1.abox, sent := s1.sent) == s1;
  }

  lemma AgentsWeigh(w: Weights, p: Places, q: Places)
    requires q.edge == p.edge && q.router == p.router && q.agent.Keys == p.agent.Keys
    requires forall b :: b in p.agent ==> q.agent[b] <= p.agent[b] + 1
    ensures Measure(w, q) <= Measure(w, p) + |p.agent|
  {
    hide Total, Times;
    TotalRaised(p.agent, q.agent, AgentWeight(), 1);
    TimesSwap(1, |p.agent|);
    TimesOne(|p.agent|);
  }

  lemma SendTag(uuid: string, app: AppMessage, t: SendId)
    ensures TagCount(SendMessage(uuid, app), t) == if app.tag == t then 1 else 0
  {
  }

  lemma SendWeighs(cfg: Config, s: Net, e: Edge, a: Agent, uuid: string, app: AppMessage, t: SendId)
    requires Inv(cfg, s) && e in cfg.edges && FreshFor(s, uuid) && app.tag == t
    ensures Measure(WeightsOf(cfg), PlacesOf(DoSend(cfg, s, e, a, uuid, app), t))
         <= Measure(WeightsOf(cfg), PlacesOf(s, t)) + Budget(cfg)
  {
    hide AllOk, PlacesOf, TagCount, WeightsOf, SendMessage, Measure, Push, DoSend, SameOwners, SameAgents, FreshFor;
    var m, w := SendMessage(uuid, app), WeightsOf(cfg);
    SendTag(uuid, app, t);
    PushWeighs(w, s, e, m, t);
    SendSpreads(cfg, s, e, a, uuid, app, t);
    FitsOf(cfg, s, t);
    AgentsWeigh(w, PlacesOf(Push(s, e, m), t), PlacesOf(DoSend(cfg, s, e, a, uuid, app), t));
  }

  lemma TimesOne(n: nat)
    ensures Times(n, 1) == n
  {
  }

  /** The number of steps before the `n`-th that changed where the copies of `t` are, not counting the Send. */
  ghost function Moves(run: seq<Net>, steps: seq<Step>, n: nat, t: SendId): nat
    requires |run| == |steps| + 1 && n <= |steps|
  {
    if n == 0 then 0
    else Moves(run, steps, n - 1, t)
         + if !Sends(steps[n - 1], t) && PlacesOf(run[n], t) != PlacesOf(run[n - 1], t) then 1 else 0
  }

  lemma SendStepWeighs(cfg: Config, s: Net, step: Step, t: SendId)
    requires Inv(cfg, s) && Enabled(cfg, s, step) && Sends(step, t)
    ensures Measure(WeightsOf(cfg), PlacesOf(Apply(cfg, s, step), t))
         <= Measure(WeightsOf(cfg), PlacesOf(s, t)) + Budget(cfg)
  {
    hide AllOk, DoSend, Acceptable, Measure, WeightsOf, PlacesOf, Budget;
    SendWeighs(cfg, s, cfg.home(step.a), step.a, step.agent.uuid, step.agent.app, t);
  }

  /** Dissemination ends: in every run, of any number of agents, edge routers and routers, the steps that move or
      drop a copy of a Send, and what its remaining copies still weigh, stay within a budget that depends on the
      size of the network alone. */
  lemma {:induction false} DisseminationEnds(cfg: Config, run: seq<Net>, steps: seq<Step>, n: nat, t: SendId)
    requires IsRun(cfg, run, steps) && n < |run|
    ensures Moves(run, steps, n, t) + Measure(WeightsOf(cfg), PlacesOf(run[n], t))
         <= if t in run[n].sent then Budget(cfg) else 0
  {
    hide Init, AllOk, Enabled, Apply, Measure, PlacesOf, WeightsOf, Sends, Budget;
    RunInv(cfg, run, steps, n);
    if n == 0 {
      NothingAtFirst(cfg, run[0], t);
    } else {
      DisseminationEnds(cfg, run, steps, n - 1, t);
      RunInv(cfg, run, steps, n - 1);
      SentStep(cfg, run[n - 1], steps[n - 1], t);
      if Sends(steps[n - 1], t) {
        SendStepWeighs(cfg, run[n - 1], steps[n - 1], t);
      } else {
        StepLowers(cfg, run[n - 1], steps[n - 1], t);
      }
    }
  }
}
