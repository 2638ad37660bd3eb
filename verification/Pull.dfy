/** The Notify, Receive, deliver loop between a router and its edge routers leaves nothing behind: as long as no
    response to a Receive fails to be written, whatever waits at the router is announced or asked for. */
module Pull {
  import opened Mmtp
  import opened MailboxSpec
  import opened Routing
  import opened Network
  import opened NetworkInvariant
  import opened NetworkSteps
  import opened Copies
  import opened PotentialSpec
  import opened PotentialSteps
  import opened AtMostOnce

  /** `m` is a Notify that mentions `u`. */
  predicate Told(m: Message, u: string) {
    m.body.Protocol? && m.body.kind.NotifyType? && m.body.payload.Notify? && u in MetadataIds(m.body.payload.metadata)
  }

  /** `m` is a Receive that asks for `u`. */
  predicate Asked(m: Message, u: string) {
    RequestOf(m).Collect? && u in RequestOf(m).ids
  }

  /** `u` is announced to the edge router, or asked for by it. */
  ghost predicate Underway(st: EdgeState, u: string) {
    || (exists m :: m in st.down && Told(m, u))
    || (exists m :: m in st.out.queue && Asked(m, u))
    || (exists m :: m in st.up && Asked(m, u))
  }

  /** If `u` is stored, it is due for a notification, announced, or asked for. */
  ghost predicate Covered(st: EdgeState, b: Box, u: string) {
    u in b.messages ==> u in b.notifications || Underway(st, u)
  }

  ghost predicate CoveredAt(cfg: Config, s: Net, f: Edge, u: string) {
    Shape(cfg, s) && f in cfg.edges && Covered(s.edges[f], s.ebox[f], u)
  }

  /** The step is a response to a Receive whose write fails. */
  ghost predicate FailsReceive(s: Net, step: Step) {
    && step.EdgeDoes? && step.edge.UplinkStep? && !step.edge.written
    && step.e in s.edges && s.edges[step.e].up != [] && RequestOf(s.edges[step.e].up[0]).Collect?
  }

  /** The response to a Receive for `ids`, or for everything, has `u`. */
  predicate AnsweredWith(b: Box, ids: seq<string>, now: int, u: string) {
    if ids == [] then u in Live(b.messages, now) else u in ids
  }

  /** A response for the edge router `f` fails to be written, and `u`, which it stores, is not to be announced and not
      otherwise under way: its notification is gone, or goes because the response has it. */
  ghost predicate Strands(s: Net, step: Step, f: Edge, u: string) {
    && FailsReceive(s, step) && step.e == f && f in s.ebox && u in s.ebox[f].messages
    && (u in s.ebox[f].notifications ==> AnsweredWith(s.ebox[f], RequestOf(s.edges[f].up[0]).ids, s.now, u))
    && !Underway(s.edges[f].(up := s.edges[f].up[1..]), u)
  }

  /** Queues only grow, and the table may change. */
  ghost predicate Grows(st: EdgeState, n: EdgeState) {
    && (forall m :: m in st.out.queue ==> m in n.out.queue)
    && (forall m :: m in st.up ==> m in n.up)
    && (forall m :: m in st.down ==> m in n.down)
  }

  lemma GrowsCovered(st: EdgeState, n: EdgeState, b: Box, u: string)
    requires Covered(st, b, u) && Grows(st, n)
    ensures Covered(n, b, u)
  {
  }

  lemma SetEdgeCovered(cfg: Config, s: Net, e: Edge, st: EdgeState, b: Box, f: Edge, u: string)
    requires CoveredAt(cfg, s, f, u) && e in cfg.edges && (e == f ==> Covered(st, b, u))
    ensures CoveredAt(cfg, s.(edges := s.edges[e := st], ebox := s.ebox[e := b]), f, u)
  {
    hide Covered;
  }

  lemma GrownCovered(cfg: Config, s: Net, e: Edge, st: EdgeState, f: Edge, u: string)
    requires CoveredAt(cfg, s, f, u) && e in cfg.edges && Grows(s.edges[e], st)
    ensures CoveredAt(cfg, s.(edges := s.edges[e := st]), f, u)
  {
    hide Covered, Grows;
    if e == f { GrowsCovered(s.edges[e], st, s.ebox[e], u); }
  }

  /** A message that is queued is due for a notification. */
  lemma FanOutCovered(cfg: Config, s: Net, targets: set<Edge>, m: Message, f: Edge, u: string)
    requires CoveredAt(cfg, s, f, u)
    ensures CoveredAt(cfg, s.(ebox := FanOut(s.ebox, targets, m)), f, u)
  {
    hide Underway;
  }

  // ---- the steps ----

  lemma PushCovered(cfg: Config, s: Net, e: Edge, m: Message, f: Edge, u: string)
    requires CoveredAt(cfg, s, f, u) && e in cfg.edges
    ensures CoveredAt(cfg, Push(s, e, m), f, u)
  {
    hide Covered;
    var st := s.edges[e];
    GrownCovered(cfg, s, e, st.(out := st.out.(queue := st.out.queue + [m])), f, u);
  }

  lemma SendDownCovered(cfg: Config, s: Net, e: Edge, m: Message, written: bool, f: Edge, u: string)
    requires CoveredAt(cfg, s, f, u) && e in cfg.edges
    ensures CoveredAt(cfg, SendDown(s, e, m, written), f, u)
  {
    hide Covered;
    GrownCovered(cfg, s, e, s.edges[e].(down := s.edges[e].down + [m]), f, u);
  }

  lemma SetTableCovered(cfg: Config, s: Net, e: Edge, table: Table<Agent>, f: Edge, u: string)
    requires CoveredAt(cfg, s, f, u) && e in cfg.edges
    ensures CoveredAt(cfg, SetTable(s, e, table), f, u)
  {
    hide Covered;
    GrownCovered(cfg, s, e, s.edges[e].(subs := table), f, u);
  }

  lemma SubscribeCovered(cfg: Config, s: Net, e: Edge, a: Agent, subject: string, uuid: string, f: Edge, u: string)
    requires CoveredAt(cfg, s, f, u) && e in cfg.edges
    ensures CoveredAt(cfg, DoSubscribe(s, e, a, subject, uuid), f, u)
  {
    PushCovered(cfg, s, e, SubjectRequest(uuid, subject), f, u);
    hide CoveredAt, Push, SetTable, AddSubscriber, SubjectRequest;
    var s1 := if subject in s.edges[e].subs then s else Push(s, e, SubjectRequest(uuid, subject));
    SetTableCovered(cfg, s1, e, AddSubscriber(s.edges[e].subs, subject, a), f, u);
  }

  lemma SendCovered(cfg: Config, s: Net, e: Edge, a: Agent, uuid: string, app: AppMessage, f: Edge, u: string)
    requires CoveredAt(cfg, s, f, u) && e in cfg.edges
    ensures CoveredAt(cfg, DoSend(cfg, s, e, a, uuid, app), f, u)
  {
    hide Covered, Push, FanOut, SendMessage;
    PushCovered(cfg, s, e, SendMessage(uuid, app), f, u);
  }

  lemma AgentCovered(cfg: Config, s: Net, a: Agent, step: AgentStep, f: Edge, u: string)
    requires CoveredAt(cfg, s, f, u) && ValidConfig(cfg) && a in cfg.agents && AgentEnabled(cfg, s, a, step)
    ensures CoveredAt(cfg, AgentApply(cfg, s, a, step), f, u)
  {
    if OwnBox(step) {
      hide AgentApply, AgentEnabled, Covered;
      OwnBoxFrame(cfg, s, a, step);
      assert Shape(cfg, AgentApply(cfg, s, a, step));
    } else {
      TableCovered(cfg, s, a, step, f, u);
    }
  }

  lemma TableCovered(cfg: Config, s: Net, a: Agent, step: AgentStep, f: Edge, u: string)
    requires CoveredAt(cfg, s, f, u) && ValidConfig(cfg) && a in cfg.agents && AgentEnabled(cfg, s, a, step)
    requires !OwnBox(step)
    ensures CoveredAt(cfg, AgentApply(cfg, s, a, step), f, u)
  {
    hide CoveredAt, Push, SetTable, DoSubscribe, DoSend, Acceptable, SubjectRequest, WithdrawRequest, DropSubscriber;
    InShape(cfg, s, f, u);
    var e := cfg.home(a);
    match step {
      case SubscribeStep(subject, uuid) => SubscribeCovered(cfg, s, e, a, subject, uuid, f, u);
      case UnsubscribeStep(subject) => SetTableCovered(cfg, s, e, DropSubscriber(s.edges[e].subs, subject, a), f, u);
      case SubscribeDirectStep(uuid) => PushCovered(cfg, s, e, SubjectRequest(uuid, cfg.mrn(a)), f, u);
      case UnsubscribeDirectStep(uuid) => PushCovered(cfg, s, e, WithdrawRequest(uuid, cfg.mrn(a)), f, u);
      case SendStep(uuid, app) => SendCovered(cfg, s, e, a, uuid, app, f, u);
    }
  }

  lemma InShape(cfg: Config, s: Net, f: Edge, u: string)
    requires CoveredAt(cfg, s, f, u)
    ensures Shape(cfg, s)
  {
  }

  lemma WriteFirstCovered(st: EdgeState, b: Box, written: bool, u: string)
    requires Covered(st, b, u) && st.out.queue != []
    ensures
      var m := st.out.queue[0];
      var up := if written && m.msgType.ProtocolMessage? then st.up + [m] else st.up;
      Covered(st.(out := WriteFirst(st.out, written), up := up), b, u)
  {
    var m := st.out.queue[0];
    var n := st.(out := WriteFirst(st.out, written),
                 up := if written && m.msgType.ProtocolMessage? then st.up + [m] else st.up);
    if x :| x in st.out.queue && Asked(x, u) {
      assert x == m || x in st.out.queue[1..];
      assert x in n.out.queue || x in n.up;
    }
  }

  /** After a Receive that was answered, `u` is covered; when the response failed, unless that strands it. */
  lemma CollectedCovered(st: EdgeState, b: Box, now: int, written: bool, u: string)
    requires Covered(st, b, u) && st.up != [] && RequestOf(st.up[0]).Collect?
    ensures
      var ids, n := RequestOf(st.up[0]).ids, st.(up := st.up[1..]);
      Covered(n, BoxAfterReceive(b, ids, now, written), u) <==>
        !(!written && u in b.messages && (u in b.notifications ==> AnsweredWith(b, ids, now, u)) && !Underway(n, u))
  {
    var m, ids, n := st.up[0], RequestOf(st.up[0]).ids, st.(up := st.up[1..]);
    assert u in SetOf(ids) <==> u in ids;
    if x :| x in st.up && Asked(x, u) {
      assert x == m || x in n.up;
    }
    hide RequestOf;
  }

  lemma PoppedCovered(st: EdgeState, b: Box, u: string)
    requires Covered(st, b, u) && st.up != [] && !RequestOf(st.up[0]).Collect?
    ensures Covered(st.(up := st.up[1..]), b, u)
  {
    if x :| x in st.up && Asked(x, u) {
      assert x != st.up[0];
      assert x in st.up[1..];
    }
  }

  lemma UplinkCovered(cfg: Config, s: Net, e: Edge, r: Router, replyId: string, written: bool, join: JoinResult,
                      order: seq<string>, f: Edge, u: string)
    requires CoveredAt(cfg, s, f, u) && e in cfg.edges && r in cfg.routers && s.edges[e].up != []
    requires ListsKeys(order, Live(s.ebox[e].messages, s.now))
    ensures
      var step := EdgeDoes(e, UplinkStep(replyId, written, join, order));
      CoveredAt(cfg, DoUplink(s, e, r, replyId, written, join, order), f, u) <==> !Strands(s, step, f, u)
  {
    hide Covered, Underway, RequestOf, ListsKeys, Live, SendDown, BoxAfterReceive, RouterSubscribe, DropSubscriber,
         FanOut, Answer;
    hide AnsweredWith;
    var m, b, st := s.edges[e].up[0], s.ebox[e], s.edges[e].(up := s.edges[e].up[1..]);
    if RequestOf(m).Collect? {
      var c := BoxAfterReceive(b, RequestOf(m).ids, s.now, written);
      if e == f { CollectedCovered(s.edges[e], b, s.now, written, u); }
      CollectAt(cfg, s, e, r, replyId, written, join, order, f, u);
    } else {
      if e == f { PoppedCovered(s.edges[e], b, u); }
      SetEdgeCovered(cfg, s, e, st, b, f, u);
      assert s.ebox[e := b] == s.ebox;
      ServedCovered(cfg, PopUp(s, e), e, r, m, replyId, written, join, order, f, u);
    }
  }

  /** What a Receive does to the edge routers: the one that asked has a shorter link, another mailbox, and the
      response. */
  lemma CollectAt(cfg: Config, s: Net, e: Edge, r: Router, replyId: string, written: bool, join: JoinResult,
                  order: seq<string>, f: Edge, u: string)
    requires CoveredAt(cfg, s, f, u) && e in cfg.edges && r in cfg.routers && s.edges[e].up != []
    requires ListsKeys(order, Live(s.ebox[e].messages, s.now)) && RequestOf(s.edges[e].up[0]).Collect?
    ensures
      var st := s.edges[e];
      var n, c := st.(up := st.up[1..]), BoxAfterReceive(s.ebox[e], RequestOf(st.up[0]).ids, s.now, written);
      CoveredAt(cfg, DoUplink(s, e, r, replyId, written, join, order), f, u) <==> (e == f ==> Covered(n, c, u))
  {
    hide Covered, RequestOf, ListsKeys, Live, BoxAfterReceive, Answer;
    var m, b, st := s.edges[e].up[0], s.ebox[e], s.edges[e].(up := s.edges[e].up[1..]);
    var ids := RequestOf(m).ids;
    AnswerStored(b, ids, s.now, order);
    var reply := GoodReply(replyId, m.uuid, [], ContentsFor(Answer(b, ids, order), b.messages));
    ReplyTellsNothing(st, BoxAfterReceive(b, ids, s.now, written), reply, u);
  }

  lemma ReplyTellsNothing(st: EdgeState, b: Box, m: Message, u: string)
    requires m.body.Reply?
    ensures Covered(st.(down := st.down + [m]), b, u) <==> Covered(st, b, u)
  {
  }

  lemma PassedOnCovered(cfg: Config, s: Net, e: Edge, r: Router, m: Message, app: AppMessage, replyId: string,
                        written: bool, f: Edge, u: string)
    requires CoveredAt(cfg, s, f, u) && e in cfg.edges && r in cfg.routers
    ensures CoveredAt(cfg, DoRouterSend(s, r, e, m, app, replyId, written), f, u)
  {
    hide Covered, SendDown, FanOut;
    var st := s.routers[r];
    var s1 := s.(routers := s.routers[r := st.(out := st.out + [m])]);
    FanOutCovered(cfg, s1, Subscribers(st.table, SubjectOf(app)) - {e}, m, f, u);
    SendDownCovered(cfg, s1.(ebox := FanOut(s.ebox, Subscribers(st.table, SubjectOf(app)) - {e}, m)), e,
                    GoodReply(replyId, m.uuid, [], []), written, f, u);
  }

  lemma ServedCovered(cfg: Config, s: Net, e: Edge, r: Router, m: Message, replyId: string, written: bool,
                      join: JoinResult, order: seq<string>, f: Edge, u: string)
    requires CoveredAt(cfg, s, f, u) && e in cfg.edges && r in cfg.routers && !RequestOf(m).Collect?
    requires ListsKeys(order, Live(s.ebox[e].messages, s.now))
    ensures CoveredAt(cfg, Serve(s, e, r, m, replyId, written, join, order), f, u)
  {
    hide Covered, RequestOf, ListsKeys, Live, SendDown, RouterSubscribe, DropSubscriber, DoRouterSend, DoReceive;
    match RequestOf(m) {
      case SubscribeTo(subject) =>
        var (st, ok) := RouterSubscribe(s.routers[r], e, subject, join);
        var reply := if ok then GoodReply(replyId, m.uuid, [], []) else ErrorReply(replyId, m.uuid);
        SendDownCovered(cfg, s.(routers := s.routers[r := st]), e, reply, written, f, u);
      case WithdrawFrom(subject) =>
        var st := s.routers[r];
        SendDownCovered(cfg, s, e, ErrorReply(replyId, m.uuid), written, f, u);
        SendDownCovered(cfg, s.(routers := s.routers[r := st.(table := DropSubscriber(st.table, subject, e))]), e,
                        GoodReply(replyId, m.uuid, [], []), written, f, u);
      case PassOn(Some(app)) => PassedOnCovered(cfg, s, e, r, m, app, replyId, written, f, u);
      case _ =>
    }
  }

  /** A written Notify mentions everything that was due. */
  lemma PulledCovered(st: EdgeState, b: Box, order: seq<string>, m: Message, u: string)
    requires Covered(st, b, u) && ListsKeys(order, b.notifications)
    requires m.body.Protocol? && m.body.kind.NotifyType? && m.body.payload.Notify?
    requires MetadataIds(m.body.payload.metadata) == order
    ensures Covered(st.(down := st.down + [m]), NotifyAll(b, true), u)
  {
    var n := st.(down := st.down + [m]);
    if u in b.notifications {
      assert u in SetOf(order);
      assert m in n.down && Told(m, u);
    }
  }

  lemma PullCovered(cfg: Config, s: Net, e: Edge, written: bool, order: seq<string>, replyId: string, f: Edge,
                    u: string)
    requires CoveredAt(cfg, s, f, u) && e in cfg.edges && ListsKeys(order, s.ebox[e].notifications)
    ensures CoveredAt(cfg, DoPull(s, e, written, order, replyId), f, u)
  {
    hide Covered;
    var b := s.ebox[e];
    if b.notifications != map[] && written {
      var n := DoPull(s, e, written, order, replyId);
      var m := n.edges[e].down[|s.edges[e].down|];
      assert MetadataIds(m.body.payload.metadata) == order;
      if e == f { PulledCovered(s.edges[e], b, order, m, u); }
      SetEdgeCovered(cfg, s, e, s.edges[e].(down := s.edges[e].down + [m]), NotifyAll(b, true), f, u);
    } else {
      assert s.ebox[e := b] == s.ebox;
    }
  }

  /** The Receive that answers a Notify asks for everything the Notify mentions. */
  lemma UnpackedCovered(st: EdgeState, b: Box, uuid: string, more: seq<Message>, u: string)
    requires Covered(st, b, u) && st.down != []
    requires
      var m := st.down[0];
      m.body.Protocol? && m.body.kind.NotifyType? && m.body.payload.Notify? ==>
        ReceiveRequest(uuid, MetadataIds(m.body.payload.metadata)) in more
    ensures Covered(st.(down := st.down[1..], out := st.out.(queue := st.out.queue + more)), b, u)
  {
    var m := st.down[0];
    if x :| x in st.down && Told(x, u) {
      if x == m {
        assert Asked(ReceiveRequest(uuid, MetadataIds(m.body.payload.metadata)), u);
      } else {
        assert x in st.down[1..];
      }
    }
  }

  /** What unpacking a message adds to the outgoing channel. */
  function Requeued(o: Outbox, m: Message, uuid: string): seq<Message> {
    match m.body
    case Reply(response) => Retried(o, response)
    case Protocol(NotifyType, Notify(metadata)) => [ReceiveRequest(uuid, MetadataIds(metadata))]
    case _ => []
  }

  lemma DeliverAtFrame(s: Net, e: Edge, contents: seq<Content>, newIds: seq<string>)
    requires e in s.edges && |newIds| == |contents|
    ensures
      var n := DeliverAt(s, e, contents, newIds);
      n.ebox == s.ebox && n.edges == s.edges && n.routers == s.routers && n.now == s.now
  {
    hide Deliver, NameRequeued;
  }

  lemma UnpackFrame(s: Net, e: Edge, m: Message, newIds: seq<string>, uuid: string)
    requires e in s.edges && |newIds| == |Delivering(m)|
    ensures
      var n, st := Unpack(s, e, m, newIds, uuid), s.edges[e];
      && n.ebox == s.ebox && n.edges == s.edges[e := n.edges[e]]
      && n.edges[e].down == st.down && n.edges[e].up == st.up
      && n.edges[e].out.queue == st.out.queue + Requeued(st.out, m, uuid)
  {
    hide DeliverAt, Delivering, MetadataIds, SameOwners, SameAgents, ReceiveRequest, ContentIds;
    match m.body {
      case Reply(response) => DeliverAtFrame(SettleAt(s, e, response), e, Delivering(m), newIds);
      case _ => assert s.edges[e := s.edges[e]] == s.edges;
    }
  }

  lemma DownlinkCovered(cfg: Config, s: Net, e: Edge, newIds: seq<string>, uuid: string, f: Edge, u: string)
    requires CoveredAt(cfg, s, f, u) && e in cfg.edges && DownReady(s, e, newIds, uuid)
    ensures CoveredAt(cfg, DoDownlink(s, e, newIds, uuid), f, u)
  {
    hide Covered, Unpack, Requeued, Distinct, FreshFor, Delivering;
    var m, st, n := s.edges[e].down[0], s.edges[e], DoDownlink(s, e, newIds, uuid).edges[e];
    UnpackFrame(PopDown(s, e), e, m, newIds, uuid);
    var more := Requeued(st.out, m, uuid);
    NotifyAsks(st.out, m, uuid);
    if e == f {
      UnpackedCovered(st, s.ebox[e], uuid, more, u);
      GrowsCovered(st.(down := st.down[1..], out := st.out.(queue := st.out.queue + more)), n, s.ebox[e], u);
    }
    SetEdgeCovered(cfg, s, e, n, s.ebox[e], f, u);
    assert s.ebox[e := s.ebox[e]] == s.ebox;
    var d := DoDownlink(s, e, newIds, uuid);
    assert d.edges == s.edges[e := n];
  }

  lemma NotifyAsks(o: Outbox, m: Message, uuid: string)
    ensures m.body.Protocol? && m.body.kind.NotifyType? && m.body.payload.Notify? ==>
      ReceiveRequest(uuid, MetadataIds(m.body.payload.metadata)) in Requeued(o, m, uuid)
  {
  }

  lemma ExpiredCovered(cfg: Config, s: Net, e: Edge, f: Edge, u: string)
    requires CoveredAt(cfg, s, f, u) && e in cfg.edges
    ensures CoveredAt(cfg, ExpireEdge(s, e), f, u)
  {
    hide Underway;
    SetEdgeCovered(cfg, s, e, s.edges[e], Expire(s.ebox[e], s.now), f, u);
    assert s.edges[e := s.edges[e]] == s.edges;
  }

  lemma EdgeCovered(cfg: Config, s: Net, e: Edge, step: EdgeStep, f: Edge, u: string)
    requires CoveredAt(cfg, s, f, u) && ValidConfig(cfg) && e in cfg.edges && EdgeEnabled(s, e, step)
    ensures CoveredAt(cfg, EdgeApply(cfg, s, e, step), f, u) <==> !Strands(s, EdgeDoes(e, step), f, u)
  {
    hide Covered, DoUplink, DoPull, DoDownlink, ExpireEdge, ListsKeys, Live, DownReady, RequestOf, WriteFirst, Underway,
         AnsweredWith;
    match step {
      case WriteStep(written) =>
        if e == f { WriteFirstCovered(s.edges[e], s.ebox[e], written, u); }
        SetEdgeCovered(cfg, s, e, DoWrite(s, e, written).edges[e], s.ebox[e], f, u);
        assert s.ebox[e := s.ebox[e]] == s.ebox;
      case UplinkStep(replyId, written, join, order) =>
        UplinkCovered(cfg, s, e, cfg.uplink(e), replyId, written, join, order, f, u);
      case PullStep(replyId, written, order) => PullCovered(cfg, s, e, written, order, replyId, f, u);
      case DownlinkStep(newIds, uuid) => DownlinkCovered(cfg, s, e, newIds, uuid, f, u);
      case ExpireEdgeStep => ExpiredCovered(cfg, s, e, f, u);
    }
  }

  lemma RouterCovered(cfg: Config, s: Net, r: Router, step: RouterStep, f: Edge, u: string)
    requires CoveredAt(cfg, s, f, u) && r in cfg.routers && RouterEnabled(s, r, step)
    ensures CoveredAt(cfg, RouterApply(cfg, s, r, step), f, u)
  {
    hide Covered, AfterPublish, FanOut;
    if step.IncomingStep? && AppOf(s.routers[r].inbox[0]).Some? {
      var m, st := s.routers[r].inbox[0], s.routers[r].(inbox := s.routers[r].inbox[1..]);
      FanOutCovered(cfg, s.(routers := s.routers[r := st]), Subscribers(st.table, SubjectOf(AppOf(m).value)), m, f, u);
    }
  }

  /** Exactly when a step leaves a stored message without a notification, an announcement or a request for it. */
  lemma StrandsExactly(cfg: Config, s: Net, step: Step, f: Edge, u: string)
    requires CoveredAt(cfg, s, f, u) && Enabled(cfg, s, step)
    ensures CoveredAt(cfg, Apply(cfg, s, step), f, u) <==> !Strands(s, step, f, u)
  {
    hide AgentEnabled, EdgeEnabled, RouterEnabled, AgentApply, EdgeApply, RouterApply, Covered, Underway, AnsweredWith,
         RequestOf;
    match step {
      case AgentDoes(a, agent) => AgentCovered(cfg, s, a, agent, f, u);
      case EdgeDoes(e, edge) => EdgeCovered(cfg, s, e, edge, f, u);
      case RouterDoes(r, router) => RouterCovered(cfg, s, r, router, f, u);
      case Tick(now) =>
    }
  }

  ghost predicate EverStranded(cfg: Config, run: seq<Net>, n: nat, f: Edge, u: string)
    requires n < |run|
  {
    exists i :: 0 <= i <= n && !CoveredAt(cfg, run[i], f, u)
  }

  ghost predicate EverStrands(run: seq<Net>, steps: seq<Step>, n: nat, f: Edge, u: string)
    requires n <= |steps| < |run|
  {
    exists i :: 0 <= i < n && Strands(run[i], steps[i], f, u)
  }

  lemma StrandedMore(cfg: Config, run: seq<Net>, steps: seq<Step>, n: nat, f: Edge, u: string)
    requires 0 < n <= |steps| < |run|
    ensures EverStranded(cfg, run, n, f, u) <==> EverStranded(cfg, run, n - 1, f, u) || !CoveredAt(cfg, run[n], f, u)
    ensures EverStrands(run, steps, n, f, u) <==>
      EverStrands(run, steps, n - 1, f, u) || Strands(run[n - 1], steps[n - 1], f, u)
    ensures !CoveredAt(cfg, run[n - 1], f, u) ==> EverStranded(cfg, run, n - 1, f, u)
  {
    hide CoveredAt, Strands;
  }

  lemma StartCovered(cfg: Config, s: Net, f: Edge, u: string)
    requires Init(cfg, s) && f in cfg.edges
    ensures CoveredAt(cfg, s, f, u)
  {
  }

  /** In every run: a message in a router's mailbox is ever left neither due, nor announced, nor asked for, if and only
      if some step strands it. */
  lemma {:induction false} RunCovered(cfg: Config, run: seq<Net>, steps: seq<Step>, n: nat, f: Edge, u: string)
    requires IsRun(cfg, run, steps) && n < |run| && f in cfg.edges
    ensures EverStranded(cfg, run, n, f, u) <==> EverStrands(run, steps, n, f, u)
  {
    hide Init, Enabled, Apply, CoveredAt, Strands;
    if n == 0 {
      StartCovered(cfg, run[0], f, u);
    } else {
      RunCovered(cfg, run, steps, n - 1, f, u);
      StrandedMore(cfg, run, steps, n, f, u);
      hide EverStranded, EverStrands;
      if CoveredAt(cfg, run[n - 1], f, u) {
        StrandsExactly(cfg, run[n - 1], steps[n - 1], f, u);
      }
    }
  }

  /** No message was stranded in the mailbox of any edge router. */
  ghost predicate NothingStranded(cfg: Config, run: seq<Net>, steps: seq<Step>, n: nat)
    requires n <= |steps| < |run|
  {
    forall f, u :: f in cfg.edges ==> !EverStrands(run, steps, n, f, u)
  }

  /** That is so when no response to a Receive failed. */
  lemma NoFailureNoneStranded(cfg: Config, run: seq<Net>, steps: seq<Step>, n: nat)
    requires n <= |steps| < |run| && forall i :: 0 <= i < n ==> !FailsReceive(run[i], steps[i])
    ensures NothingStranded(cfg, run, steps, n)
  {
    hide FailsReceive;
  }

  /** No channel, link or overlay queue holds anything, and no notification is due for an edge router. */
  ghost predicate Idle(cfg: Config, s: Net)
    requires ValidConfig(cfg) && Shape(cfg, s)
  {
    && (forall e :: e in cfg.edges ==>
         s.edges[e].out.queue == [] && s.edges[e].up == [] && s.edges[e].down == [] && s.ebox[e].notifications == map[])
    && (forall r :: r in cfg.routers ==>
         s.routers[r].out == [] && s.routers[r].pub == [] && s.routers[r].inbox == [])
  }

  /** A run never stops for want of an owner's state. */
  lemma {:induction false} RunShape(cfg: Config, run: seq<Net>, steps: seq<Step>, n: nat)
    requires IsRun(cfg, run, steps) && n < |run|
    ensures ValidConfig(cfg) && Shape(cfg, run[n])
  {
    hide Enabled, Apply, Shape;
    if n > 0 {
      RunShape(cfg, run, steps, n - 1);
      ShapeStep(cfg, run[n - 1], steps[n - 1]);
    }
  }

  /** When all is idle, what is left in a router's mailbox was stranded. */
  lemma IdleMeansEmptied(cfg: Config, run: seq<Net>, steps: seq<Step>, n: nat, e: Edge, u: string)
    requires IsRun(cfg, run, steps) && n < |run| && e in cfg.edges
    ensures ValidConfig(cfg) && Shape(cfg, run[n])
    ensures Idle(cfg, run[n]) && u in run[n].ebox[e].messages ==> EverStrands(run, steps, n, e, u)
  {
    RunShape(cfg, run, steps, n);
    RunCovered(cfg, run, steps, n, e, u);
    hide IsRun, EverStrands, Shape;
    if Idle(cfg, run[n]) && u in run[n].ebox[e].messages {
      assert Shape(cfg, run[n]);
      IdleUncovered(cfg, run[n], e, u);
    }
  }

  lemma IdleUncovered(cfg: Config, s: Net, e: Edge, u: string)
    requires ValidConfig(cfg) && Shape(cfg, s) && Idle(cfg, s) && e in cfg.edges && u in s.ebox[e].messages
    ensures !CoveredAt(cfg, s, e, u)
  {
  }

  lemma IdleIsQuiet(cfg: Config, s: Net, t: SendId)
    requires ValidConfig(cfg) && Shape(cfg, s) && Idle(cfg, s)
    requires forall e :: e in cfg.edges ==> s.ebox[e].messages == map[]
    ensures Quiet(cfg, s, t)
  {
    CountEmpty(t);
  }

  /** An idle network that stranded nothing is quiet. */
  lemma IdleMeansQuiet(cfg: Config, run: seq<Net>, steps: seq<Step>, n: nat, t: SendId)
    requires IsRun(cfg, run, steps) && n < |run|
    ensures ValidConfig(cfg) && Shape(cfg, run[n])
    ensures Idle(cfg, run[n]) && NothingStranded(cfg, run, steps, n) ==> Quiet(cfg, run[n], t)
  {
    hide Init, Enabled, Apply, Idle, EverStrands, Quiet;
    RunShape(cfg, run, steps, n);
    if Idle(cfg, run[n]) && NothingStranded(cfg, run, steps, n) {
      forall e, u | e in cfg.edges ensures u !in run[n].ebox[e].messages { IdleMeansEmptied(cfg, run, steps, n, e, u); }
      IdleIsQuiet(cfg, run[n], t);
    }
  }

  /** Exactly once when the network is idle: queues, links and notifications have drained, nothing was stranded, and the
      agent was served since the Send. */
  lemma ExactlyOnceWhenIdle(cfg: Config, run: seq<Net>, steps: seq<Step>, k: nat, n: nat, a: Agent, t: SendId)
    requires IsRun(cfg, run, steps) && a in cfg.agents && ServedThroughout(cfg, run, steps, k, n, a, t)
    requires cfg.home(a) != t.edge || cfg.mrn(a) != cfg.mrn(steps[k].a)
    ensures Has(cfg, run[n], a)
    ensures Idle(cfg, run[n]) && NothingStranded(cfg, run, steps, n) ==> AgentCopies(run[n], a, t) == 1
  {
    ServedBound(cfg, run, steps, k, n, a, t);
    hide IsRun, Idle, NothingStranded, Quiet, ServedThroughout, AgentCopies;
    ExactlyOnce(cfg, run, steps, k, n, a, t);
    IdleMeansQuiet(cfg, run, steps, n, t);
  }

  lemma ServedBound(cfg: Config, run: seq<Net>, steps: seq<Step>, k: nat, n: nat, a: Agent, t: SendId)
    requires |run| == |steps| + 1 && ServedThroughout(cfg, run, steps, k, n, a, t)
    ensures n < |run|
  {
  }
}
