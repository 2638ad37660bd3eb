/** The potential under the steps of edge routers and routers. */
module PotentialSteps {
  import opened Mmtp
  import opened MailboxSpec
  import opened Routing
  import opened Network
  import opened NetworkInvariant
  import opened NetworkSteps
  import opened Copies
  import opened PotentialSpec

  // ---- what each change of state does to the potential ----

  lemma WritePotential(cfg: Config, s: Net, e: Edge, written: bool, a: Agent, t: SendId)
    requires Inv(cfg, s) && a in cfg.agents && e in cfg.edges && s.edges[e].out.queue != []
    ensures Potential(cfg, DoWrite(s, e, written), a, t) == Potential(cfg, s, a, t)
  {
    hide AllOk, RequestOk, Sum, CountStore, Potential, WriteFirst, TagCount;
    var st := s.edges[e];
    HeadIsRequest(cfg, s, e);
    SendForm(PastOf(s), e, st.out.queue[0], t);
    WriteCounts(st.out, st.up, written, t);
    EdgeFrame(cfg, s, e, DoWrite(s, e, written).edges[e], a, t);
  }

  lemma HeadIsRequest(cfg: Config, s: Net, e: Edge)
    requires Inv(cfg, s) && e in cfg.edges && s.edges[e].out.queue != []
    ensures RequestOk(PastOf(s), e, s.edges[e].out.queue[0])
  {
    hide RouterOk, EdgeBoxOk, AgentBoxOk, DeliveredOk, TableOk, RequestOk, DownOk;
    assert EdgeOk(cfg, PastOf(s), e, s.edges[e]);
  }

  lemma SendForm(h: Past, e: Edge, m: Message, t: SendId)
    requires RequestOk(h, e, m)
    ensures TagCount(m, t) == 1 ==>
      && m.msgType.ProtocolMessage? && t.edge == e && m == SendMessage(m.uuid, AppOf(m).value)
      && m.uuid != "" && m.uuid in h.names && h.names[m.uuid] == m && Genuine(h, AppOf(m).value)
  {
  }

  lemma PopUpPotential(cfg: Config, s: Net, e: Edge, a: Agent, t: SendId)
    requires Has(cfg, s, a) && e in cfg.edges && s.edges[e].up != []
    requires TagCount(s.edges[e].up[0], t) == 1 ==> t.edge == e
    ensures Potential(cfg, PopUp(s, e), a, t) + (if cfg.home(a) != e then TagCount(s.edges[e].up[0], t) else 0)
         == Potential(cfg, s, a, t)
  {
    hide CountStore, Sum, TagCount;
    AtMostOneTag(s.edges[e].up[0], t);
    PopSum(s.edges[e].up, t);
  }

  lemma SendDownPotential(cfg: Config, s: Net, e: Edge, m: Message, written: bool, a: Agent, t: SendId)
    requires Has(cfg, s, a) && e in cfg.edges
    ensures Potential(cfg, SendDown(s, e, m, written), a, t)
         == Potential(cfg, s, a, t) + (if written && cfg.home(a) == e then InReply(t)(m) else 0)
  {
    hide CountStore, Sum, InReply;
    SumSnoc(s.edges[e].down, m, InReply(t));
  }

  lemma RouterFrame(cfg: Config, s: Net, r: Router, st: RouterState, a: Agent, t: SendId)
    requires Has(cfg, s, a) && r in cfg.routers
    requires st.pub == s.routers[r].pub && st.inbox == s.routers[r].inbox
    ensures
      var counts := r == cfg.uplink(t.edge) && cfg.uplink(cfg.home(a)) != r;
      Potential(cfg, s.(routers := s.routers[r := st]), a, t) + (if counts then Sum(s.routers[r].out, Tagged(t)) else 0)
      == Potential(cfg, s, a, t) + (if counts then Sum(st.out, Tagged(t)) else 0)
  {
    hide CountStore, Sum;
  }

  lemma EdgeBoxesPotential(cfg: Config, s: Net, boxes: map<Edge, Box>, a: Agent, t: SendId)
    requires Has(cfg, s, a) && boxes.Keys == s.ebox.Keys
    ensures Potential(cfg, s.(ebox := boxes), a, t) + CountStore(s.ebox[cfg.home(a)].messages, t)
         == Potential(cfg, s, a, t) + CountStore(boxes[cfg.home(a)].messages, t)
  {
    hide CountStore, Sum;
  }

  lemma EmptyReply(replyId: string, to: string, t: SendId)
    ensures InReply(t)(GoodReply(replyId, to, [], [])) == 0 && InReply(t)(ErrorReply(replyId, to)) == 0
  {
  }

  // ---- what is stored for an edge router ----

  lemma EdgeEntriesNamed(cfg: Config, s: Net, e: Edge)
    requires Inv(cfg, s) && e in cfg.edges
    ensures forall u :: u in s.ebox[e].messages ==>
      s.ebox[e].messages[u].uuid == u && u in s.names && s.names[u] == s.ebox[e].messages[u]
  {
    hide EdgeOk, RouterOk, AgentBoxOk, DeliveredOk, Genuine;
    assert EdgeBoxOk(PastOf(s), e, s.ebox[e]);
  }

  /** Queueing a message under the UUID that names it adds a copy unless one is there. */
  lemma EdgeQueueCount(cfg: Config, s: Net, targets: set<Edge>, m: Message, e: Edge, t: SendId)
    requires Inv(cfg, s) && e in cfg.edges && m.uuid != "" && m.uuid in s.names && s.names[m.uuid] == m
    ensures
      var before, later := CountStore(s.ebox[e].messages, t), CountStore(FanOut(s.ebox, targets, m)[e].messages, t);
      && later <= before + TagCount(m, t)
      && (e !in targets ==> later == before)
      && (TagCount(m, t) == 0 ==> later == before)
      && (e in targets && before == 0 ==> later == TagCount(m, t))
  {
    hide AllOk;
    EdgeEntriesNamed(cfg, s, e);
    CountFanOut(s.ebox, targets, m, e, t);
    if m.uuid in s.ebox[e].messages && TagCount(m, t) == 1 {
      CountPositive(s.ebox[e].messages, m.uuid, t);
    }
  }

  // ---- the router serves a link ----

  /** The potential grows by at most `due`, and by `due` while `a` is served and holds at most one copy. */
  ghost predicate Passes(cfg: Config, s: Net, n: Net, due: nat, a: Agent, t: SendId) {
    && Has(cfg, s, a) && Has(cfg, n, a) && Potential(cfg, n, a, t) <= Potential(cfg, s, a, t) + due
    && (Served(cfg, s, a, t) && Potential(cfg, s, a, t) + due <= 1 ==>
         Potential(cfg, n, a, t) == Potential(cfg, s, a, t) + due)
  }

  lemma RouterSendPotential(cfg: Config, s: Net, r: Router, e: Edge, m: Message, app: AppMessage, replyId: string,
                            written: bool, a: Agent, t: SendId)
    requires Inv(cfg, s) && a in cfg.agents && e in cfg.edges && r == cfg.uplink(e)
    requires RequestOk(PastOf(s), e, m) && AppOf(m) == Some(app)
    ensures
      var due := if cfg.home(a) != e then TagCount(m, t) else 0;
      Passes(cfg, s, DoRouterSend(s, r, e, m, app, replyId, written), due, a, t)
  {
    hide AllOk, RequestOk, Genuine, Potential, Served, CountStore, Sum, FanOut, InReply, SendDown, SubjectOf;
    var st, h := s.routers[r], cfg.home(a);
    assert TagCount(m, t) == if app.tag == t then 1 else 0;
    hide TagCount;
    RequestNamed(PastOf(s), e, m);
    TableEdges(cfg, s, r);
    hide Subscribers;
    var targets := Subscribers(st.table, SubjectOf(app)) - {e};
    SumSnoc(st.out, m, Tagged(t));
    var s1 := s.(routers := s.routers[r := st.(out := st.out + [m])]);
    RouterFrame(cfg, s, r, st.(out := st.out + [m]), a, t);
    EdgeQueueCount(cfg, s, targets, m, h, t);
    EdgeBoxesPotential(cfg, s1, FanOut(s.ebox, targets, m), a, t);
    EmptyReply(replyId, m.uuid, t);
    SendDownPotential(cfg, s1.(ebox := FanOut(s.ebox, targets, m)), e, GoodReply(replyId, m.uuid, [], []), written, a,
                      t);
    PotentialCoversBox(cfg, s, a, t);
    ServedHere(cfg, s, app, a, t);
  }

  lemma RequestNamed(h: Past, e: Edge, m: Message)
    requires RequestOk(h, e, m) && AppOf(m).Some?
    ensures m.uuid != "" && m.uuid in h.names && h.names[m.uuid] == m && Genuine(h, AppOf(m).value)
    ensures m.msgType.ProtocolMessage? && AppOf(m).value.tag.edge == e
  {
  }

  lemma TableEdges(cfg: Config, s: Net, r: Router)
    requires Inv(cfg, s) && r in cfg.routers
    ensures forall subject, e :: e in Subscribers(s.routers[r].table, subject) ==> cfg.uplink(e) == r
  {
    hide EdgeOk, EdgeBoxOk, AgentBoxOk, DeliveredOk, TopicsAgree, CarriesSend;
    assert RouterOk(cfg, PastOf(s), r, s.routers[r]);
  }

  lemma PotentialCoversBox(cfg: Config, s: Net, a: Agent, t: SendId)
    requires Has(cfg, s, a)
    ensures CountStore(s.ebox[cfg.home(a)].messages, t) <= Potential(cfg, s, a, t)
  {
    hide CountStore, Sum;
  }

  /** The edge router of a served agent is in its router's table, unless it accepted the Send itself. */
  lemma ServedHere(cfg: Config, s: Net, app: AppMessage, a: Agent, t: SendId)
    requires Has(cfg, s, a) && Genuine(PastOf(s), app)
    ensures Served(cfg, s, a, t) && app.tag == t ==>
      && InWindow(app, s.now) && AddressOf(app).Subject?
      && a in Subscribers(s.edges[cfg.home(a)].subs, SubjectOf(app))
      && (cfg.home(a) != t.edge ==>
           cfg.home(a) in Subscribers(s.routers[cfg.uplink(cfg.home(a))].table, SubjectOf(app)))
  {
  }

  lemma ReceiveCounts(b: Box, ids: seq<string>, now: int, written: bool, order: seq<string>, t: SendId)
    requires ListsKeys(order, Live(b.messages, now))
    requires forall u :: u in Answer(b, ids, order) ==> u in b.messages
    ensures
      var out := if written then Sum(ContentsFor(Answer(b, ids, order), b.messages), InContent(t)) else 0;
      var left := CountStore(BoxAfterReceive(b, ids, now, written).messages, t);
      && left + out <= CountStore(b.messages, t)
      && (TaggedKeys(b.messages, t) <= Live(b.messages, now).Keys ==> left + out == CountStore(b.messages, t))
  {
    var sel := Answer(b, ids, order);
    AnswerStored(b, ids, now, order);
    CountContents(sel, b.messages, t);
    if ids == [] {
      assert b.messages - SetOf(order) == b.messages - Live(b.messages, now).Keys;
      CountEmpty(t);
      if TaggedKeys(b.messages, t) <= Live(b.messages, now).Keys {
        assert TaggedKeys(b.messages - SetOf(order), t) == {};
      }
    } else {
      SelectedExact(ids, b.messages.Keys);
      assert b.messages - SetOf(sel) == b.messages - SetOf(ids);
    }
  }

  lemma ReceivePotential(cfg: Config, s: Net, e: Edge, m: Message, ids: seq<string>, replyId: string, written: bool,
                         order: seq<string>, a: Agent, t: SendId)
    requires Inv(cfg, s) && a in cfg.agents && e in cfg.edges && ListsKeys(order, Live(s.ebox[e].messages, s.now))
    ensures Passes(cfg, s, DoReceive(s, e, m, ids, replyId, written, order), 0, a, t)
  {
    hide AllOk, Potential, Served, CountStore, Sum, BoxAfterReceive, Answer, ListsKeys, TaggedKeys, Live, SendDown;
    var b, later := s.ebox[e], BoxAfterReceive(s.ebox[e], ids, s.now, written);
    AnswerStored(b, ids, s.now, order);
    var reply := GoodReply(replyId, m.uuid, [], ContentsFor(Answer(b, ids, order), b.messages));
    ReceiveCounts(b, ids, s.now, written, order, t);
    if Served(cfg, s, a, t) { EdgeCopiesLive(cfg, s, a, e, t); }
    EdgeBoxesPotential(cfg, s, s.ebox[e := later], a, t);
    SendDownPotential(cfg, s.(ebox := s.ebox[e := later]), e, reply, written, a, t);
  }

  lemma PopServed(cfg: Config, s: Net, e: Edge, a: Agent, t: SendId)
    requires Has(cfg, s, a) && e in cfg.edges
    ensures s.edges[e].up != [] ==> (Served(cfg, PopUp(s, e), a, t) <==> Served(cfg, s, a, t))
    ensures s.edges[e].down != [] ==> (Served(cfg, PopDown(s, e), a, t) <==> Served(cfg, s, a, t))
  {
  }

  /** Table work at the router leaves the potential. */
  lemma RouterTablePotential(cfg: Config, s: Net, r: Router, e: Edge, st: RouterState, reply: Message, written: bool,
                             a: Agent, t: SendId)
    requires Has(cfg, s, a) && e in cfg.edges && r in cfg.routers
    requires st.out == s.routers[r].out && st.pub == s.routers[r].pub && st.inbox == s.routers[r].inbox
    requires InReply(t)(reply) == 0
    ensures Potential(cfg, SendDown(s.(routers := s.routers[r := st]), e, reply, written), a, t)
         == Potential(cfg, s, a, t)
    ensures Potential(cfg, SendDown(s, e, reply, written), a, t) == Potential(cfg, s, a, t)
  {
    hide Potential, SendDown, InReply, Sum;
    RouterFrame(cfg, s, r, st, a, t);
    SendDownPotential(cfg, s.(routers := s.routers[r := st]), e, reply, written, a, t);
    SendDownPotential(cfg, s, e, reply, written, a, t);
  }

  lemma SubscribeQueues(st: RouterState, e: Edge, subject: string, join: JoinResult)
    ensures
      var n := RouterSubscribe(st, e, subject, join).0;
      n.out == st.out && n.pub == st.pub && n.inbox == st.inbox
  {
  }

  lemma RouterSubscribePotential(cfg: Config, s: Net, r: Router, e: Edge, m: Message, subject: string, join: JoinResult,
                                 replyId: string, written: bool, a: Agent, t: SendId)
    requires Has(cfg, s, a) && e in cfg.edges && r in cfg.routers
    ensures Passes(cfg, s, DoRouterSubscribe(s, r, e, m, subject, join, replyId, written), 0, a, t)
  {
    hide Potential, Served, SendDown, RouterSubscribe, InReply;
    EmptyReply(replyId, m.uuid, t);
    var (st, ok) := RouterSubscribe(s.routers[r], e, subject, join);
    SubscribeQueues(s.routers[r], e, subject, join);
    var reply := if ok then GoodReply(replyId, m.uuid, [], []) else ErrorReply(replyId, m.uuid);
    RouterTablePotential(cfg, s, r, e, st, reply, written, a, t);
  }

  lemma RouterUnsubscribePotential(cfg: Config, s: Net, r: Router, e: Edge, m: Message, subject: string,
                                   replyId: string, written: bool, a: Agent, t: SendId)
    requires Has(cfg, s, a) && e in cfg.edges && r in cfg.routers
    ensures Passes(cfg, s, DoRouterUnsubscribe(s, r, e, m, subject, replyId, written), 0, a, t)
  {
    hide Potential, Served, SendDown, DropSubscriber, InReply;
    EmptyReply(replyId, m.uuid, t);
    var fewer := s.routers[r].(table := DropSubscriber(s.routers[r].table, subject, e));
    RouterTablePotential(cfg, s, r, e, fewer, GoodReply(replyId, m.uuid, [], []), written, a, t);
    RouterTablePotential(cfg, s, r, e, fewer, ErrorReply(replyId, m.uuid), written, a, t);
  }

  /** Serving a request: a Send that was counted at its origin is counted on as much. */
  lemma ServePotential(cfg: Config, s: Net, e: Edge, r: Router, m: Message, replyId: string, written: bool,
                       join: JoinResult, order: seq<string>, a: Agent, t: SendId)
    requires Inv(cfg, s) && a in cfg.agents && e in cfg.edges && r == cfg.uplink(e) && RequestOk(PastOf(s), e, m)
    requires ListsKeys(order, Live(s.ebox[e].messages, s.now))
    ensures
      var due := if cfg.home(a) != e then TagCount(m, t) else 0;
      Passes(cfg, s, Serve(s, e, r, m, replyId, written, join, order), due, a, t)
  {
    hide AllOk, RequestOk, Passes, ListsKeys, Live, DoReceive, DoRouterSend, DoRouterSubscribe,
         DoRouterUnsubscribe, TagCount, RequestOf;
    PassesNothing(cfg, s, a, t);
    UntaggedRequest(s, e, m, t);
    PassesItsOwn(m);
    match RequestOf(m) {
      case SubscribeTo(subject) => RouterSubscribePotential(cfg, s, r, e, m, subject, join, replyId, written, a, t);
      case WithdrawFrom(subject) => RouterUnsubscribePotential(cfg, s, r, e, m, subject, replyId, written, a, t);
      case PassOn(Some(app)) => RouterSendPotential(cfg, s, r, e, m, app, replyId, written, a, t);
      case Collect(ids) => ReceivePotential(cfg, s, e, m, ids, replyId, written, order, a, t);
      case _ =>
    }
  }

  /** Only a Send that the router passes on is a copy of anything. */
  lemma UntaggedRequest(s: Net, e: Edge, m: Message, t: SendId)
    requires RequestOk(PastOf(s), e, m)
    ensures !(RequestOf(m).PassOn? && RequestOf(m).app.Some?) ==> TagCount(m, t) == 0
  {
  }

  lemma PassesNothing(cfg: Config, s: Net, a: Agent, t: SendId)
    requires Has(cfg, s, a)
    ensures Passes(cfg, s, s, 0, a, t)
  {
  }

  lemma UplinkPotential(cfg: Config, s: Net, e: Edge, r: Router, replyId: string, written: bool, join: JoinResult,
                        order: seq<string>, a: Agent, t: SendId)
    requires Inv(cfg, s) && a in cfg.agents && e in cfg.edges && r == cfg.uplink(e) && s.edges[e].up != []
    requires ListsKeys(order, Live(s.ebox[e].messages, s.now))
    ensures
      var n := DoUplink(s, e, r, replyId, written, join, order);
      Has(cfg, n, a) && Holds(cfg, s, n, a, t)
  {
    hide AllOk, RequestOk, Potential, Served, ListsKeys, Live, PopUp, TagCount, Serve;
    PopUpOk(cfg, s, e);
    PopUpFrame(s, e);
    PopServed(cfg, s, e, a, t);
    SendForm(PastOf(s), e, s.edges[e].up[0], t);
    PopUpPotential(cfg, s, e, a, t);
    ServePotential(cfg, PopUp(s, e), e, r, s.edges[e].up[0], replyId, written, join, order, a, t);
  }

  // ---- notifications and expiry at the router ----

  lemma PullPotential(cfg: Config, s: Net, e: Edge, written: bool, order: seq<string>, replyId: string, a: Agent,
                      t: SendId)
    requires Has(cfg, s, a) && e in cfg.edges && ListsKeys(order, s.ebox[e].notifications)
    ensures Potential(cfg, DoPull(s, e, written, order, replyId), a, t) == Potential(cfg, s, a, t)
  {
    hide Potential, CountStore, Sum;
    EdgeBoxesPotential(cfg, s, s.ebox[e := NotifyAll(s.ebox[e], written)], a, t);
    if s.ebox[e].notifications != map[] && written {
      var m := DoPull(s, e, written, order, replyId).edges[e].down[|s.edges[e].down|];
      NoEntries(m, t);
      SendDownPotential(cfg, s.(ebox := s.ebox[e := NotifyAll(s.ebox[e], written)]), e, m, written, a, t);
    }
  }

  lemma NoEntries(m: Message, t: SendId)
    requires !m.body.Reply?
    ensures InReply(t)(m) == 0
  {
  }

  lemma ExpireEdgePotential(cfg: Config, s: Net, e: Edge, a: Agent, t: SendId)
    requires Inv(cfg, s) && a in cfg.agents && e in cfg.edges
    ensures
      var n := ExpireEdge(s, e);
      && Potential(cfg, n, a, t) <= Potential(cfg, s, a, t)
      && (Served(cfg, s, a, t) ==> Potential(cfg, n, a, t) == Potential(cfg, s, a, t))
  {
    hide AllOk, Potential, Served, CountStore, TaggedKeys, Live;
    LiveCount(s.ebox[e].messages, s.now, t);
    if Served(cfg, s, a, t) { EdgeCopiesLive(cfg, s, a, e, t); }
    EdgeBoxesPotential(cfg, s, s.ebox[e := Expire(s.ebox[e], s.now)], a, t);
  }

  // ---- the edge router unpacks what comes down ----

  lemma PopDownPotential(cfg: Config, s: Net, e: Edge, a: Agent, t: SendId)
    requires Has(cfg, s, a) && e in cfg.edges && s.edges[e].down != []
    ensures Potential(cfg, PopDown(s, e), a, t) + (if cfg.home(a) == e then InReply(t)(s.edges[e].down[0]) else 0)
         == Potential(cfg, s, a, t)
  {
    hide CountStore, Sum, InReply;
    PopReply(s.edges[e].down, t);
  }

  lemma SettlePotential(cfg: Config, s: Net, e: Edge, response: Response, a: Agent, t: SendId)
    requires Inv(cfg, s) && a in cfg.agents && e in cfg.edges
    ensures Potential(cfg, SettleAt(s, e, response), a, t) == Potential(cfg, s, a, t)
  {
    hide AllOk, Potential, Sum;
    var o := s.edges[e].out;
    if response.to in o.awaiting && !response.code.Good? {
      AwaitingIsNoSend(cfg, s, e, response.to);
      SumSnoc(o.queue, o.awaiting[response.to], Tagged(t));
    } else {
      assert o.queue + [] == o.queue;
    }
    EdgeFrame(cfg, s, e, s.edges[e].(out := Settle(o, response)), a, t);
  }

  lemma AwaitingIsNoSend(cfg: Config, s: Net, e: Edge, u: string)
    requires Inv(cfg, s) && e in cfg.edges && u in s.edges[e].out.awaiting
    ensures AppOf(s.edges[e].out.awaiting[u]).None?
  {
    hide RouterOk, EdgeBoxOk, AgentBoxOk, DeliveredOk, TableOk, RequestOk, DownOk;
    assert EdgeOk(cfg, PastOf(s), e, s.edges[e]);
  }

  /** The entries of a response at the edge router of a served agent are all for that agent. */
  lemma ServedGetsAll(cfg: Config, s: Net, m: Message, a: Agent, t: SendId)
    requires Has(cfg, s, a) && DownOk(PastOf(s), cfg.home(a), m) && Served(cfg, s, a, t)
    ensures GetsAll(s.edges[cfg.home(a)].subs, a, Delivering(m), t, s.now)
  {
    forall c | c in Delivering(m) && c.app.Some? && c.app.value.tag == t
      ensures InWindow(c.app.value, s.now)
      ensures a in LocalTargets(s.edges[cfg.home(a)].subs, map[], {}, AddressOf(c.app.value))
    {
      ServedHere(cfg, s, c.app.value, a, t);
    }
  }

  /** Delivering the entries of a response of `e`. */
  lemma DeliverCounts(cfg: Config, s: Net, e: Edge, m: Message, newIds: seq<string>, a: Agent, t: SendId)
    requires Inv(cfg, s) && a in cfg.agents && e in cfg.edges && DownOk(PastOf(s), e, m)
    requires |newIds| == |Delivering(m)| && NewNames(s.names, newIds)
    ensures
      var later := CountStore(Deliver(s.abox, s.edges[e].subs, map[], {}, Delivering(m), newIds, s.now)[a].messages, t);
      var before, got := CountStore(s.abox[a].messages, t), if cfg.home(a) == e then InReply(t)(m) else 0;
      && later <= before + got
      && (Served(cfg, s, a, t) ==> later == before + got)
  {
    hide AllOk, Served, CountStore, Sum, Deliver, DownOk;
    CountDeliver(s.abox, s.edges[e].subs, Delivering(m), newIds, s.now, a, t);
    InvTable(cfg, s, e);
    AgentKeysNamed(cfg, s, a);
    if cfg.home(a) != e {
      assert forall subject :: a !in Subscribers(s.edges[e].subs, subject);
    } else if Served(cfg, s, a, t) {
      ServedGetsAll(cfg, s, m, a, t);
      CountDeliverExact(s.abox, s.edges[e].subs, Delivering(m), newIds, s.now, a, t);
    }
  }

  lemma UnpackPotential(cfg: Config, s: Net, e: Edge, m: Message, newIds: seq<string>, uuid: string, a: Agent,
                        t: SendId)
    requires Inv(cfg, s) && a in cfg.agents && e in cfg.edges && DownOk(PastOf(s), e, m)
    requires |newIds| == |Delivering(m)| && NewNames(s.names, newIds)
    ensures
      var n, due := Unpack(s, e, m, newIds, uuid), if cfg.home(a) == e then InReply(t)(m) else 0;
      && Has(cfg, n, a) && Potential(cfg, n, a, t) <= Potential(cfg, s, a, t) + due
      && (Served(cfg, s, a, t) ==> Potential(cfg, n, a, t) == Potential(cfg, s, a, t) + due)
  {
    hide AllOk, Potential, Served, CountStore, Deliver, NameRequeued, DownOk, InReply, NewNames, SettleAt;
    match m.body {
      case Reply(response) =>
        SettlePotential(cfg, s, e, response, a, t);
        SettleFrame(s, e, response);
        DeliverCounts(cfg, s, e, m, newIds, a, t);
        var s2 := SettleAt(s, e, response);
        var boxes := Deliver(s.abox, s.edges[e].subs, map[], {}, Delivering(m), newIds, s.now);
        FanOutPotential(cfg, s2, boxes, a, t);
        PastPotential(cfg, s2.(abox := boxes), NameRequeued(s.names, Delivering(m), newIds), s2.sent, a, t);
      case Protocol(NotifyType, Notify(metadata)) =>
        NoEntries(m, t);
        PushPotential(cfg, s, e, ReceiveRequest(uuid, MetadataIds(metadata)), a, t);
      case _ => NoEntries(m, t);
    }
  }

  lemma DownlinkPotential(cfg: Config, s: Net, e: Edge, newIds: seq<string>, uuid: string, a: Agent, t: SendId)
    requires Inv(cfg, s) && a in cfg.agents && e in cfg.edges && DownReady(s, e, newIds, uuid)
    ensures
      var n := DoDownlink(s, e, newIds, uuid);
      Has(cfg, n, a) && Holds(cfg, s, n, a, t)
  {
    hide AllOk, Potential, Served, PopDown, DownOk, InReply, Unpack;
    PopDownInv(cfg, s, e);
    PopDownFrame(s, e);
    PopServed(cfg, s, e, a, t);
    PopDownPotential(cfg, s, e, a, t);
    NewIdsNew(s, newIds, uuid);
    hide FreshFor, Distinct, NewNames;
    UnpackPotential(cfg, PopDown(s, e), e, s.edges[e].down[0], newIds, uuid, a, t);
  }

  lemma EdgePotential(cfg: Config, s: Net, e: Edge, step: EdgeStep, a: Agent, t: SendId)
    requires Inv(cfg, s) && a in cfg.agents && e in cfg.edges && EdgeEnabled(s, e, step)
    ensures
      var n := EdgeApply(cfg, s, e, step);
      Has(cfg, n, a) && Holds(cfg, s, n, a, t)
  {
    hide AllOk, Potential, Served, DoWrite, DoUplink, DoPull, DoDownlink, ListsKeys, Distinct, Live, Delivering;
    match step {
      case WriteStep(written) => WritePotential(cfg, s, e, written, a, t);
      case UplinkStep(replyId, written, join, order) =>
        UplinkPotential(cfg, s, e, cfg.uplink(e), replyId, written, join, order, a, t);
      case PullStep(replyId, written, order) => PullPotential(cfg, s, e, written, order, replyId, a, t);
      case DownlinkStep(newIds, uuid) => DownlinkPotential(cfg, s, e, newIds, uuid, a, t);
      case ExpireEdgeStep => ExpireEdgePotential(cfg, s, e, a, t);
    }
  }

  // ---- routers ----

  lemma HeardCounts(st: RouterState, subject: string, p: Publication, r: Router, t: SendId)
    requires TopicsAgree(st)
    ensures Sum(st.pub + Heard(st, subject, p), Foreign(r, t))
         == Sum(st.pub, Foreign(r, t)) + (if subject in st.table then Foreign(r, t)(p) else 0)
  {
    SumConcat(st.pub, Heard(st, subject, p), Foreign(r, t));
    SumRepeat(p, st.listeners[subject], Foreign(r, t));
  }

  predicate PublishWorks(st: RouterState, m: Message, result: PublishResult) {
    && m.msgType.ProtocolMessage? && AppOf(m).Some? && AddressOf(AppOf(m).value).Subject?
    && !result.PublishFailed? && !(result.PublishJoinFailed? && SubjectCarried(m) !in st.topics)
  }

  /** What a publication does to the queues of one router. */
  lemma PublishQueues(s: Net, r: Router, result: PublishResult, q: Router)
    requires r in s.routers && q in s.routers && s.routers[r].out != []
    ensures
      var m, n := s.routers[r].out[0], AfterPublish(s.routers, r, result)[q];
      && n.out == (if q == r then s.routers[r].out[1..] else s.routers[q].out)
      && n.inbox == s.routers[q].inbox && n.table == s.routers[q].table
      && n.pub == if PublishWorks(s.routers[r], m, result)
                  then s.routers[q].pub + Heard(s.routers[q], SubjectCarried(m), Publication(r, m))
                  else s.routers[q].pub
  {
    var m := s.routers[r].out[0];
    var st := s.routers[r].(out := s.routers[r].out[1..]);
    HeardAlike(s.routers[r], JoinTopic(st, SubjectCarried(m)), SubjectCarried(m), Publication(r, m));
    hide Heard;
  }

  lemma PublishCounts(cfg: Config, s: Net, r: Router, result: PublishResult, q: Router, t: SendId)
    requires Inv(cfg, s) && r in cfg.routers && q in cfg.routers && s.routers[r].out != []
    ensures
      var m, n := s.routers[r].out[0], AfterPublish(s.routers, r, result)[q];
      Sum(n.pub, Foreign(q, t)) == Sum(s.routers[q].pub, Foreign(q, t))
         + (if PublishWorks(s.routers[r], m, result) && SubjectCarried(m) in s.routers[q].table && q != r
            then TagCount(m, t) else 0)
  {
    RouterTopics(cfg, s, q);
    hide AllOk, Heard, Sum, TopicsAgree, TagCount, AfterPublish, PublishWorks;
    PublishQueues(s, r, result, q);
    var m := s.routers[r].out[0];
    HeardCounts(s.routers[q], SubjectCarried(m), Publication(r, m), q, t);
  }

  lemma RouterTopics(cfg: Config, s: Net, r: Router)
    requires Inv(cfg, s) && r in cfg.routers
    ensures TopicsAgree(s.routers[r])
  {
    hide EdgeOk, EdgeBoxOk, AgentBoxOk, DeliveredOk, TopicsAgree, CarriesSend;
    assert RouterOk(cfg, PastOf(s), r, s.routers[r]);
  }

  lemma RoutersPotential(cfg: Config, s: Net, routers: map<Router, RouterState>, a: Agent, t: SendId)
    requires Has(cfg, s, a) && routers.Keys == s.routers.Keys
    ensures
      var q, o, n := cfg.uplink(cfg.home(a)), cfg.uplink(t.edge), s.(routers := routers);
      var counts := q != o && o in s.routers;
      Potential(cfg, n, a, t) + (if counts then Sum(s.routers[o].out, Tagged(t)) else 0) + AtRouter(s, q, t)
      == Potential(cfg, s, a, t) + (if counts then Sum(routers[o].out, Tagged(t)) else 0) + AtRouter(n, q, t)
  {
    hide CountStore, Sum;
  }

  lemma OutHead(cfg: Config, s: Net, r: Router)
    requires Inv(cfg, s) && r in cfg.routers && s.routers[r].out != []
    ensures
      var m := s.routers[r].out[0];
      && AppOf(m).Some? && cfg.uplink(AppOf(m).value.tag.edge) == r
      && m.msgType.ProtocolMessage? && Genuine(PastOf(s), AppOf(m).value)
  {
    hide EdgeOk, EdgeBoxOk, AgentBoxOk, DeliveredOk, TopicsAgree, RouterTableOk, Genuine;
    assert RouterOk(cfg, PastOf(s), r, s.routers[r]);
  }

  /** When `m` is a copy of `t`, its subject is the Send's; the edge router of a served agent that did not accept
      the Send is in the table for it. */
  lemma ServedTable(cfg: Config, s: Net, m: Message, a: Agent, t: SendId)
    requires Has(cfg, s, a) && AppOf(m).Some? && Genuine(PastOf(s), AppOf(m).value)
    ensures AddressOf(AppOf(m).value).Subject? && SubjectCarried(m) == SubjectOf(AppOf(m).value)
    ensures TagCount(m, t) == 1 && Served(cfg, s, a, t) && cfg.home(a) != t.edge ==>
      SubjectCarried(m) in s.routers[cfg.uplink(cfg.home(a))].table
  {
  }

  lemma WorksUnlessLost(s: Net, r: Router, result: PublishResult, t: SendId)
    requires r in s.routers && s.routers[r].out != []
    ensures
      var m := s.routers[r].out[0];
      m.msgType.ProtocolMessage? && AppOf(m).Some? && AddressOf(AppOf(m).value).Subject? && TagCount(m, t) == 1 ==>
        (PublishWorks(s.routers[r], m, result) <==> !LosesPublication(s, RouterDoes(r, PublishStep(result)), t))
  {
  }

  lemma PublishPotential(cfg: Config, s: Net, r: Router, result: PublishResult, a: Agent, t: SendId)
    requires Inv(cfg, s) && a in cfg.agents && r in cfg.routers && s.routers[r].out != []
    ensures
      var n := DoPublish(s, r, result);
      && Has(cfg, n, a) && Potential(cfg, n, a, t) <= Potential(cfg, s, a, t)
      && (Served(cfg, s, a, t) && !LosesPublication(s, RouterDoes(r, PublishStep(result)), t) ==>
           Potential(cfg, n, a, t) == Potential(cfg, s, a, t))
  {
    hide AllOk, Potential, Served, LosesPublication, PublishWorks, AfterPublish, Sum, CarriesSend, Genuine, TagCount,
         SubjectCarried;
    var m, q, o := s.routers[r].out[0], cfg.uplink(cfg.home(a)), cfg.uplink(t.edge);
    OutHead(cfg, s, r);
    ServedTable(cfg, s, m, a, t);
    WorksUnlessLost(s, r, result, t);
    TagIs(m, t);
    PublishCounts(cfg, s, r, result, q, t);
    PublishQueues(s, r, result, q);
    if o in s.routers { PublishQueues(s, r, result, o); }
    PopSum(s.routers[r].out, t);
    RoutersPotential(cfg, s, AfterPublish(s.routers, r, result), a, t);
  }

  /** A lost publication costs an agent of another router the copy, and an agent of the publishing router nothing. */
  lemma LostPublication(cfg: Config, s: Net, r: Router, result: PublishResult, a: Agent, t: SendId)
    requires Inv(cfg, s) && a in cfg.agents && r in cfg.routers && s.routers[r].out != []
    requires LosesPublication(s, RouterDoes(r, PublishStep(result)), t)
    ensures
      var n := DoPublish(s, r, result);
      && Has(cfg, n, a)
      && Potential(cfg, n, a, t) + (if cfg.uplink(cfg.home(a)) != cfg.uplink(t.edge) then 1 else 0)
         == Potential(cfg, s, a, t)
  {
    var m, q, o := s.routers[r].out[0], cfg.uplink(cfg.home(a)), cfg.uplink(t.edge);
    LostHead(s, r, result, t);
    hide AllOk, Potential, LosesPublication, PublishWorks, AfterPublish, Sum, CarriesSend, Genuine, TagCount,
         SubjectCarried;
    OutHead(cfg, s, r);
    OutSubject(cfg, s, r);
    TagIs(m, t);
    WorksUnlessLost(s, r, result, t);
    PublishQueues(s, r, result, q);
    PublishQueues(s, r, result, r);
    PopSum(s.routers[r].out, t);
    RoutersPotential(cfg, s, AfterPublish(s.routers, r, result), a, t);
  }

  lemma LostHead(s: Net, r: Router, result: PublishResult, t: SendId)
    requires LosesPublication(s, RouterDoes(r, PublishStep(result)), t)
    ensures r in s.routers && s.routers[r].out != [] && TagCount(s.routers[r].out[0], t) == 1
  {
  }

  lemma OutSubject(cfg: Config, s: Net, r: Router)
    requires Inv(cfg, s) && r in cfg.routers && s.routers[r].out != []
    ensures AppOf(s.routers[r].out[0]).Some? && AddressOf(AppOf(s.routers[r].out[0]).value).Subject?
  {
    hide AllOk, Genuine;
    OutHead(cfg, s, r);
    ServedAddress(PastOf(s), AppOf(s.routers[r].out[0]).value);
  }

  lemma TagIs(m: Message, t: SendId)
    requires AppOf(m).Some?
    ensures TagCount(m, t) == if AppOf(m).value.tag == t then 1 else 0
  {
  }

  lemma PopSum(q: seq<Message>, t: SendId)
    requires q != []
    ensures Sum(q, Tagged(t)) == TagCount(q[0], t) + Sum(q[1..], Tagged(t))
  {
  }

  lemma ListenPotential(cfg: Config, s: Net, r: Router, a: Agent, t: SendId)
    requires Inv(cfg, s) && a in cfg.agents && r in cfg.routers && s.routers[r].pub != []
    ensures
      var n := DoListen(cfg, s, r);
      && Has(cfg, n, a) && Potential(cfg, n, a, t) <= Potential(cfg, s, a, t)
      && (Served(cfg, s, a, t) ==> Potential(cfg, n, a, t) == Potential(cfg, s, a, t))
  {
    hide AllOk, Potential, Served, Sum, CarriesSend, Genuine, TagCount;
    var p, st := s.routers[r].pub[0], s.routers[r];
    PubHead(cfg, s, r, a, t);
    PopPub(st.pub, r, t);
    SumSnoc(st.inbox, p.m, Tagged(t));
    RoutersPotential(cfg, s, DoListen(cfg, s, r).routers, a, t);
  }

  lemma PopPub(q: seq<Publication>, r: Router, t: SendId)
    requires q != []
    ensures Sum(q, Foreign(r, t)) == (if q[0].from != r then TagCount(q[0].m, t) else 0) + Sum(q[1..], Foreign(r, t))
  {
  }

  lemma PubHead(cfg: Config, s: Net, r: Router, a: Agent, t: SendId)
    requires Inv(cfg, s) && a in cfg.agents && r in cfg.routers && s.routers[r].pub != []
    ensures
      var m := s.routers[r].pub[0].m;
      && (TagCount(m, t) == 1 ==> m.msgType.ProtocolMessage? && m.body.Protocol? && m.body.payload.Send?)
      && (TagCount(m, t) == 1 && Served(cfg, s, a, t) ==> cfg.v4(m.uuid))
      && TagCount(m, t) <= 1
  {
    hide EdgeOk, EdgeBoxOk, AgentBoxOk, DeliveredOk, TopicsAgree, RouterTableOk;
    assert RouterOk(cfg, PastOf(s), r, s.routers[r]);
    var p := s.routers[r].pub[0];
    assert p in s.routers[r].pub;
  }

  lemma InboxHead(cfg: Config, s: Net, r: Router)
    requires Inv(cfg, s) && r in cfg.routers && s.routers[r].inbox != []
    ensures
      var m := s.routers[r].inbox[0];
      && AppOf(m).Some? && cfg.uplink(AppOf(m).value.tag.edge) != r && m.msgType.ProtocolMessage?
      && Genuine(PastOf(s), AppOf(m).value) && m.uuid != "" && m.uuid in s.names && s.names[m.uuid] == m
      && SubjectOf(AppOf(m).value) in s.routers[r].table
  {
    hide EdgeOk, EdgeBoxOk, AgentBoxOk, DeliveredOk, TopicsAgree, RouterTableOk, Genuine;
    assert RouterOk(cfg, PastOf(s), r, s.routers[r]);
    assert s.routers[r].inbox[0] in s.routers[r].inbox;
  }

  lemma IncomingPotential(cfg: Config, s: Net, r: Router, a: Agent, t: SendId)
    requires Inv(cfg, s) && a in cfg.agents && r in cfg.routers && s.routers[r].inbox != []
    ensures
      var n := DoIncoming(s, r);
      Has(cfg, n, a) && Holds(cfg, s, n, a, t)
  {
    hide AllOk, Potential, Served, Sum, Genuine, TagCount, FanOut, CountStore, SubjectOf, InWindow;
    var m, st, h := s.routers[r].inbox[0], s.routers[r], cfg.home(a);
    InboxHead(cfg, s, r);
    TagIs(m, t);
    TableEdges(cfg, s, r);
    hide Subscribers;
    ServedHere(cfg, s, AppOf(m).value, a, t);
    ServedAddress(PastOf(s), AppOf(m).value);
    PopSum(st.inbox, t);
    var targets := Subscribers(st.table, SubjectOf(AppOf(m).value));
    var s1 := s.(routers := s.routers[r := st.(inbox := st.inbox[1..])]);
    RoutersPotential(cfg, s, s1.routers, a, t);
    EdgeQueueCount(cfg, s, targets, m, h, t);
    EdgeBoxesPotential(cfg, s1, FanOut(s.ebox, targets, m), a, t);
    PotentialCoversBox(cfg, s1, a, t);
  }

  lemma ServedAddress(h: Past, app: AppMessage)
    requires Genuine(h, app)
    ensures AddressOf(app).Subject?
  {
  }

  // ---- every step ----

  lemma RouterPotential(cfg: Config, s: Net, r: Router, step: RouterStep, a: Agent, t: SendId)
    requires Inv(cfg, s) && a in cfg.agents && r in cfg.routers && RouterEnabled(s, r, step)
    ensures
      var n := RouterApply(cfg, s, r, step);
      && Has(cfg, n, a) && Potential(cfg, n, a, t) <= Potential(cfg, s, a, t)
      && (!LosesPublication(s, RouterDoes(r, step), t) ==> Holds(cfg, s, n, a, t))
  {
    hide AllOk, Potential, Served, LosesPublication, DoPublish, DoListen, DoIncoming;
    match step {
      case PublishStep(result) => PublishPotential(cfg, s, r, result, a, t);
      case ListenStep => ListenPotential(cfg, s, r, a, t);
      case IncomingStep => IncomingPotential(cfg, s, r, a, t);
    }
  }

  ghost predicate Sends(step: Step, t: SendId) {
    step.AgentDoes? && step.agent.SendStep? && step.agent.app.tag == t
  }

  /** No step but the Send itself raises the potential, and only a lost publication lowers it for an agent that
      is served. */
  lemma StepPotential(cfg: Config, s: Net, step: Step, a: Agent, t: SendId)
    requires Inv(cfg, s) && a in cfg.agents && Enabled(cfg, s, step) && !Sends(step, t)
    ensures
      var n := Apply(cfg, s, step);
      && Has(cfg, n, a) && Potential(cfg, n, a, t) <= Potential(cfg, s, a, t)
      && (!LosesPublication(s, step, t) ==> Holds(cfg, s, n, a, t))
  {
    hide AllOk, Potential, Served, LosesPublication, AgentApply, EdgeApply, RouterApply, AgentEnabled, EdgeEnabled,
         RouterEnabled;
    match step {
      case AgentDoes(b, agent) => AgentPotential(cfg, s, b, agent, a, t);
      case EdgeDoes(e, edge) => EdgePotential(cfg, s, e, edge, a, t);
      case RouterDoes(r, router) => RouterPotential(cfg, s, r, router, a, t);
      case Tick(now) => TickPotential(cfg, s, now, a, t);
    }
  }

  lemma TickPotential(cfg: Config, s: Net, now: int, a: Agent, t: SendId)
    requires Has(cfg, s, a)
    ensures Has(cfg, s.(now := now), a) && Potential(cfg, s.(now := now), a, t) == Potential(cfg, s, a, t)
  {
    hide CountStore, Sum;
  }
}
