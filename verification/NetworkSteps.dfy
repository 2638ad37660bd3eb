/** The steps of edge routers and routers keep the network invariant, and so it holds in every run. */
module NetworkSteps {
  import opened Mmtp
  import opened MailboxSpec
  import opened Routing
  import opened Network
  import opened NetworkInvariant

  // ---- writing to the router ----

  lemma WriteFirstOk(h: Past, e: Edge, o: Outbox, written: bool)
    requires OutboxOk(h, e, o) && o.queue != []
    ensures OutboxOk(h, e, WriteFirst(o, written))
    ensures RequestOk(h, e, o.queue[0])
  {
  }

  lemma WriteInv(cfg: Config, s: Net, e: Edge, written: bool)
    requires Inv(cfg, s) && e in cfg.edges && s.edges[e].out.queue != []
    ensures Inv(cfg, DoWrite(s, e, written))
  {
    hide RouterOk, EdgeBoxOk, AgentBoxOk, DeliveredOk, OutboxOk, TableOk, RequestOk, DownOk, WriteFirst;
    var h, st := PastOf(s), s.edges[e];
    assert EdgeOk(cfg, h, e, st);
    WriteFirstOk(h, e, st.out, written);
    SetEdgeOk(cfg, h, s, e, DoWrite(s, e, written).edges[e]);
    hide AllOk;
  }

  // ---- the router serves a link ----

  lemma PopUpOk(cfg: Config, s: Net, e: Edge)
    requires Inv(cfg, s) && e in cfg.edges && s.edges[e].up != []
    ensures Inv(cfg, PopUp(s, e)) && RequestOk(PastOf(s), e, s.edges[e].up[0])
  {
    hide RouterOk, EdgeBoxOk, AgentBoxOk, DeliveredOk, OutboxOk, TableOk, RequestOk, DownOk;
    assert EdgeOk(cfg, PastOf(s), e, s.edges[e]);
    SetEdgeOk(cfg, PastOf(s), s, e, PopUp(s, e).edges[e]);
    hide AllOk;
  }

  lemma SendDownInv(cfg: Config, s: Net, e: Edge, m: Message, written: bool)
    requires Inv(cfg, s) && e in cfg.edges && DownOk(PastOf(s), e, m)
    ensures Inv(cfg, SendDown(s, e, m, written))
  {
    hide RouterOk, EdgeBoxOk, AgentBoxOk, DeliveredOk, OutboxOk, TableOk, RequestOk, DownOk;
    assert EdgeOk(cfg, PastOf(s), e, s.edges[e]);
    var st := s.edges[e].(down := s.edges[e].down + [m]);
    SetEdgeOk(cfg, PastOf(s), s, e, st);
    hide AllOk;
  }

  lemma SubscribeKeepsTable(cfg: Config, r: Router, st: RouterState, e: Edge, subject: string, join: JoinResult)
    requires RouterTableOk(cfg, r, st.table) && e in cfg.edges && cfg.uplink(e) == r
    ensures
      var n := RouterSubscribe(st, e, subject, join).0;
      && RouterTableOk(cfg, r, n.table) && st.table.Keys <= n.table.Keys
      && n.out == st.out && n.pub == st.pub && n.inbox == st.inbox
  {
    var n := RouterSubscribe(st, e, subject, join).0;
    forall t, f | f in Subscribers(n.table, t) ensures f == e || f in Subscribers(st.table, t) {}
  }

  lemma RouterSubscribeOk(cfg: Config, h: Past, r: Router, st: RouterState, e: Edge, subject: string, join: JoinResult)
    requires RouterOk(cfg, h, r, st) && e in cfg.edges && cfg.uplink(e) == r
    ensures RouterOk(cfg, h, r, RouterSubscribe(st, e, subject, join).0)
  {
    hide CarriesSend, TopicsAgree, RouterTableOk, RouterSubscribe;
    SubscribeKeepsTopics(st, e, subject, join);
    SubscribeKeepsTable(cfg, r, st, e, subject, join);
  }

  lemma RouterUnsubscribeOk(cfg: Config, h: Past, r: Router, st: RouterState, e: Edge, subject: string)
    requires RouterOk(cfg, h, r, st)
    ensures RouterOk(cfg, h, r, st.(table := DropSubscriber(st.table, subject, e)))
  {
    hide CarriesSend;
    var n := DropSubscriber(st.table, subject, e);
    forall t, f | f in Subscribers(n, t) ensures f in Subscribers(st.table, t) {}
  }

  lemma RouterQueueOk(cfg: Config, h: Past, r: Router, st: RouterState, m: Message)
    requires RouterOk(cfg, h, r, st) && CarriesSend(h, m) && cfg.uplink(AppOf(m).value.tag.edge) == r
    ensures RouterOk(cfg, h, r, st.(out := st.out + [m]))
  {
    hide CarriesSend, TopicsAgree;
    TopicsKept(st, st.(out := st.out + [m]));
  }

  lemma SetRouterInv(cfg: Config, s: Net, r: Router, st: RouterState)
    requires Inv(cfg, s) && r in cfg.routers && RouterOk(cfg, PastOf(s), r, st)
    ensures Inv(cfg, s.(routers := s.routers[r := st]))
  {
    hide RouterOk;
    SetRouterOk(cfg, PastOf(s), s, r, st);
    hide AllOk;
  }

  lemma DoRouterSubscribeInv(cfg: Config, s: Net, r: Router, e: Edge, m: Message, subject: string, join: JoinResult,
                             replyId: string, written: bool)
    requires Inv(cfg, s) && e in cfg.edges && r == cfg.uplink(e)
    ensures Inv(cfg, DoRouterSubscribe(s, r, e, m, subject, join, replyId, written))
  {
    hide EdgeOk, EdgeBoxOk, AgentBoxOk, DeliveredOk, RouterOk, RouterSubscribe;
    var st := s.routers[r];
    var (n, ok) := RouterSubscribe(st, e, subject, join);
    RouterSubscribeOk(cfg, PastOf(s), r, st, e, subject, join);
    hide AllOk;
    SetRouterInv(cfg, s, r, n);
    var reply := if ok then GoodReply(replyId, m.uuid, [], []) else ErrorReply(replyId, m.uuid);
    hide Inv;
    SendDownInv(cfg, s.(routers := s.routers[r := n]), e, reply, written);
  }

  lemma DoRouterUnsubscribeInv(cfg: Config, s: Net, r: Router, e: Edge, m: Message, subject: string,
                               replyId: string, written: bool)
    requires Inv(cfg, s) && e in cfg.edges && r == cfg.uplink(e)
    ensures Inv(cfg, DoRouterUnsubscribe(s, r, e, m, subject, replyId, written))
  {
    hide EdgeOk, EdgeBoxOk, AgentBoxOk, DeliveredOk, RouterOk, DropSubscriber;
    var st := s.routers[r];
    var n := st.(table := DropSubscriber(st.table, subject, e));
    RouterUnsubscribeOk(cfg, PastOf(s), r, st, e, subject);
    hide AllOk;
    SetRouterInv(cfg, s, r, n);
    hide Inv;
    if subject == "" {
      SendDownInv(cfg, s, e, ErrorReply(replyId, m.uuid), written);
    } else {
      SendDownInv(cfg, s.(routers := s.routers[r := n]), e, GoodReply(replyId, m.uuid, [], []), written);
    }
  }

  lemma DoRouterSendInv(cfg: Config, s: Net, r: Router, e: Edge, m: Message, app: AppMessage,
                        replyId: string, written: bool)
    requires Inv(cfg, s) && e in cfg.edges && r == cfg.uplink(e)
    requires RequestOk(PastOf(s), e, m) && AppOf(m) == Some(app)
    ensures Inv(cfg, DoRouterSend(s, r, e, m, app, replyId, written))
  {
    hide EdgeOk, EdgeBoxOk, AgentBoxOk, DeliveredOk, RouterOk, Subscribers, FanOut, Genuine;
    var h, st := PastOf(s), s.routers[r];
    RouterQueueOk(cfg, h, r, st, m);
    var s1 := s.(routers := s.routers[r := st.(out := st.out + [m])]);
    SetRouterOk(cfg, h, s, r, st.(out := st.out + [m]));
    hide AllOk;
    FanOutToEdgesOk(cfg, h, s1, Subscribers(st.table, SubjectOf(app)) - {e}, m);
    SendDownInv(cfg, s1.(ebox := FanOut(s1.ebox, Subscribers(st.table, SubjectOf(app)) - {e}, m)), e,
                GoodReply(replyId, m.uuid, [], []), written);
  }

  /** A mailbox that lost entries, and the response made of some of them. */
  lemma ReceiveOk(h: Past, e: Edge, b: Box, ids: seq<string>, now: int, written: bool, sel: seq<string>, reply: Message)
    requires EdgeBoxOk(h, e, b) && forall u :: u in sel ==> u in b.messages
    requires reply.body.Reply? && Delivering(reply) == ContentsFor(sel, b.messages)
    ensures EdgeBoxOk(h, e, BoxAfterReceive(b, ids, now, written)) && DownOk(h, e, reply)
  {
    forall c | c in Delivering(reply) ensures c.app.Some? && Genuine(h, c.app.value) && c.app.value.tag.edge != e {
      var i :| 0 <= i < |sel| && c == ContentsFor(sel, b.messages)[i];
      assert sel[i] in sel;
    }
  }

  lemma SetEdgeBoxInv(cfg: Config, s: Net, e: Edge, b: Box)
    requires Inv(cfg, s) && e in cfg.edges && EdgeBoxOk(PastOf(s), e, b)
    ensures Inv(cfg, s.(ebox := s.ebox[e := b]))
  {
    hide EdgeBoxOk;
    SetEdgeBoxOk(cfg, PastOf(s), s, e, b);
    hide AllOk;
  }

  lemma DoReceiveInv(cfg: Config, s: Net, e: Edge, m: Message, ids: seq<string>, replyId: string, written: bool,
                     order: seq<string>)
    requires Inv(cfg, s) && e in cfg.edges && ListsKeys(order, Live(s.ebox[e].messages, s.now))
    ensures Inv(cfg, DoReceive(s, e, m, ids, replyId, written, order))
  {
    hide EdgeOk, EdgeBoxOk, AgentBoxOk, DeliveredOk, RouterOk, BoxAfterReceive, Answer, ListsKeys;
    var b := s.ebox[e];
    AnswerStored(b, ids, s.now, order);
    var sel := Answer(b, ids, order);
    var reply := GoodReply(replyId, m.uuid, [], ContentsFor(sel, b.messages));
    ReceiveOk(PastOf(s), e, b, ids, s.now, written, sel, reply);
    hide AllOk;
    SetEdgeBoxInv(cfg, s, e, BoxAfterReceive(b, ids, s.now, written));
    SendDownInv(cfg, s.(ebox := s.ebox[e := BoxAfterReceive(b, ids, s.now, written)]), e, reply, written);
  }

  lemma ServeInv(cfg: Config, s: Net, e: Edge, r: Router, m: Message, replyId: string, written: bool, join: JoinResult,
                 order: seq<string>)
    requires Inv(cfg, s) && e in cfg.edges && r == cfg.uplink(e) && RequestOk(PastOf(s), e, m)
    requires ListsKeys(order, Live(s.ebox[e].messages, s.now))
    ensures Inv(cfg, Serve(s, e, r, m, replyId, written, join, order))
  {
    hide AllOk, ListsKeys, RequestOk, Live, DoRouterSubscribe, DoRouterUnsubscribe, DoRouterSend, DoReceive, RequestOf;
    PassesItsOwn(m);
    match RequestOf(m) {
      case SubscribeTo(subject) => DoRouterSubscribeInv(cfg, s, r, e, m, subject, join, replyId, written);
      case WithdrawFrom(subject) => DoRouterUnsubscribeInv(cfg, s, r, e, m, subject, replyId, written);
      case PassOn(Some(app)) => DoRouterSendInv(cfg, s, r, e, m, app, replyId, written);
      case Collect(ids) => DoReceiveInv(cfg, s, e, m, ids, replyId, written, order);
      case _ =>
    }
  }

  lemma UplinkInv(cfg: Config, s: Net, e: Edge, r: Router, replyId: string, written: bool, join: JoinResult,
                  order: seq<string>)
    requires Inv(cfg, s) && e in cfg.edges && r == cfg.uplink(e) && s.edges[e].up != []
    requires ListsKeys(order, Live(s.ebox[e].messages, s.now))
    ensures Inv(cfg, DoUplink(s, e, r, replyId, written, join, order))
  {
    hide AllOk, ListsKeys, RequestOk, Live, Serve;
    PopUpOk(cfg, s, e);
    PopUpFrame(s, e);
    ServeInv(cfg, PopUp(s, e), e, r, s.edges[e].up[0], replyId, written, join, order);
  }

  lemma PopUpFrame(s: Net, e: Edge)
    requires e in s.edges && s.edges[e].up != []
    ensures
      var n := PopUp(s, e);
      PastOf(n) == PastOf(s) && n.ebox == s.ebox && n.routers == s.routers && n.now == s.now
  {
  }

  lemma NotifiedOk(h: Past, e: Edge, b: Box, written: bool)
    requires EdgeBoxOk(h, e, b)
    ensures EdgeBoxOk(h, e, NotifyAll(b, written))
  {
  }

  lemma PullInv(cfg: Config, s: Net, e: Edge, written: bool, order: seq<string>, replyId: string)
    requires Inv(cfg, s) && e in cfg.edges && ListsKeys(order, s.ebox[e].notifications)
    ensures Inv(cfg, DoPull(s, e, written, order, replyId))
  {
    hide EdgeOk, AgentBoxOk, DeliveredOk, RouterOk, EdgeBoxOk, CarriesSend, NotifyAll;
    var b := NotifyAll(s.ebox[e], written);
    NotifiedOk(PastOf(s), e, s.ebox[e], written);
    hide AllOk;
    SetEdgeBoxInv(cfg, s, e, b);
    if s.ebox[e].notifications != map[] && written {
      var m := DoPull(s, e, written, order, replyId).edges[e].down[|s.edges[e].down|];
      SendDownInv(cfg, s.(ebox := s.ebox[e := b]), e, m, written);
    }
  }

  lemma ExpireEdgeInv(cfg: Config, s: Net, e: Edge)
    requires Inv(cfg, s) && e in cfg.edges
    ensures Inv(cfg, ExpireEdge(s, e))
  {
    hide EdgeOk, AgentBoxOk, DeliveredOk, RouterOk, CarriesSend;
    assert EdgeBoxOk(PastOf(s), e, s.ebox[e]);
    assert EdgeBoxOk(PastOf(s), e, Expire(s.ebox[e], s.now));
    hide AllOk, EdgeBoxOk;
    SetEdgeBoxInv(cfg, s, e, Expire(s.ebox[e], s.now));
  }

  // ---- the edge router unpacks what comes down ----

  lemma SettleOk(h: Past, e: Edge, o: Outbox, response: Response)
    requires OutboxOk(h, e, o)
    ensures OutboxOk(h, e, Settle(o, response))
  {
    hide RequestOk;
  }

  ghost predicate NewNames(names: Store, newIds: seq<string>) {
    Distinct(newIds) && forall u :: u in newIds ==> u != "" && u !in names
  }

  lemma PrefixNew(names: Store, newIds: seq<string>, n: nat)
    requires NewNames(names, newIds) && n < |newIds|
    ensures NewNames(names, newIds[..n]) && newIds[n] !in names && newIds[n] !in newIds[..n] && newIds[n] != ""
  {
    assert newIds[n] in newIds;
    assert forall u :: u in newIds[..n] ==> u in newIds;
  }

  /** Old names stay, and the new ones are those of entries that are there. */
  ghost predicate NamesGrown(names: Store, k: Store, contents: seq<Content>, newIds: seq<string>) {
    && |newIds| == |contents|
    && (forall u :: u in names ==> u in k && k[u] == names[u])
    && (forall u :: u in k ==> u in names || u in newIds)
    && (forall i :: 0 <= i < |contents| && contents[i].app.Some? ==> newIds[i] in k)
  }

  lemma NamesGrowMore(names: Store, k: Store, n: Store, contents: seq<Content>, newIds: seq<string>, c: Content,
                      id: string)
    requires NamesGrown(names, k, contents, newIds) && id !in names
    requires n == if c.app.None? then k else k[id := SendMessage(id, c.app.value)]
    ensures NamesGrown(names, n, contents + [c], newIds + [id])
  {
  }

  lemma {:induction false} NameRequeuedGrows(names: Store, contents: seq<Content>, newIds: seq<string>)
    requires |newIds| == |contents| && NewNames(names, newIds)
    ensures NamesGrown(names, NameRequeued(names, contents, newIds), contents, newIds)
  {
    if contents != [] {
      var n := |contents| - 1;
      PrefixNew(names, newIds, n);
      hide NamesGrown;
      NameRequeuedGrows(names, contents[..n], newIds[..n]);
      assert newIds == newIds[..n] + [newIds[n]] && contents == contents[..n] + [contents[n]];
      NamesGrowMore(names, NameRequeued(names, contents[..n], newIds[..n]), NameRequeued(names, contents, newIds),
                    contents[..n], newIds[..n], contents[n], newIds[n]);
    }
  }

  ghost predicate BoxesOk(cfg: Config, h: Past, boxes: map<Agent, Box>) {
    forall a :: a in boxes ==> AgentBoxOk(cfg, h, a, boxes[a])
  }

  /** Every entry is right for every agent of `e`, and its new UUID is taken. */
  ghost predicate EntriesOk(cfg: Config, h: Past, e: Edge, contents: seq<Content>, newIds: seq<string>) {
    && |newIds| == |contents|
    && (forall i :: 0 <= i < |contents| && contents[i].app.Some? ==>
         && Genuine(h, contents[i].app.value) && contents[i].app.value.tag.edge != e
         && newIds[i] in h.names && newIds[i] != "")
  }

  lemma DeliverOneOk(cfg: Config, h: Past, e: Edge, table: Table<Agent>, boxes: map<Agent, Box>, c: Content,
                     newId: string, now: int)
    requires BoxesOk(cfg, h, boxes) && TableOk(cfg, e, table)
    requires EntriesOk(cfg, h, e, [c], [newId])
    ensures BoxesOk(cfg, h, DeliverOne(boxes, table, map[], {}, c, newId, now))
  {
    if c.app.Some? && InWindow(c.app.value, now) {
      assert Genuine(h, [c][0].app.value) && [newId][0] in h.names;
      var m := SendMessage(newId, c.app.value);
      var targets := LocalTargets(table, map[], {}, AddressOf(c.app.value));
      forall a | a in targets ensures ForAgent(cfg, h, a, m) {
        assert a in Subscribers(table, AddressOf(c.app.value).subject);
      }
      forall a | a in boxes ensures AgentBoxOk(cfg, h, a, FanOut(boxes, targets, m)[a]) {
        hide ForAgent;
        assert AgentBoxOk(cfg, h, a, boxes[a]);
      }
    }
  }

  lemma {:induction false} DeliverOk(cfg: Config, h: Past, e: Edge, table: Table<Agent>, boxes: map<Agent, Box>,
                                     contents: seq<Content>, newIds: seq<string>, now: int)
    requires BoxesOk(cfg, h, boxes) && TableOk(cfg, e, table) && EntriesOk(cfg, h, e, contents, newIds)
    ensures BoxesOk(cfg, h, Deliver(boxes, table, map[], {}, contents, newIds, now))
  {
    if contents != [] {
      var n := |contents| - 1;
      assert EntriesOk(cfg, h, e, contents[..n], newIds[..n]);
      DeliverOk(cfg, h, e, table, boxes, contents[..n], newIds[..n], now);
      assert EntriesOk(cfg, h, e, [contents[n]], [newIds[n]]);
      hide BoxesOk, TableOk, EntriesOk, DeliverOne;
      DeliverOneOk(cfg, h, e, table, Deliver(boxes, table, map[], {}, contents[..n], newIds[..n], now),
                   contents[n], newIds[n], now);
    }
  }

  lemma SetBoxesOk(cfg: Config, h: Past, s: Net, boxes: map<Agent, Box>, names: Store)
    requires AllOk(cfg, h, s) && BoxesOk(cfg, h, boxes)
    ensures AllOk(cfg, h, s.(abox := boxes, names := names))
  {
    hide EdgeOk, RouterOk, EdgeBoxOk, AgentBoxOk, DeliveredOk;
  }

  lemma PopDownInv(cfg: Config, s: Net, e: Edge)
    requires Inv(cfg, s) && e in cfg.edges && s.edges[e].down != []
    ensures Inv(cfg, PopDown(s, e)) && DownOk(PastOf(s), e, s.edges[e].down[0])
  {
    hide RouterOk, EdgeBoxOk, AgentBoxOk, DeliveredOk, OutboxOk, TableOk, RequestOk, DownOk;
    assert EdgeOk(cfg, PastOf(s), e, s.edges[e]);
    SetEdgeOk(cfg, PastOf(s), s, e, PopDown(s, e).edges[e]);
    hide AllOk;
  }

  lemma SettleInv(cfg: Config, s: Net, e: Edge, response: Response)
    requires Inv(cfg, s) && e in cfg.edges
    ensures Inv(cfg, SettleAt(s, e, response))
  {
    hide RouterOk, EdgeBoxOk, AgentBoxOk, DeliveredOk, OutboxOk, TableOk, RequestOk, DownOk, Settle;
    var st := s.edges[e];
    assert EdgeOk(cfg, PastOf(s), e, st);
    SettleOk(PastOf(s), e, st.out, response);
    SetEdgeOk(cfg, PastOf(s), s, e, st.(out := Settle(st.out, response)));
    hide AllOk;
  }

  lemma DeliverInv(cfg: Config, s: Net, e: Edge, contents: seq<Content>, newIds: seq<string>)
    requires Inv(cfg, s) && e in cfg.edges && |newIds| == |contents| && NewNames(s.names, newIds)
    requires forall c :: c in contents && c.app.Some? ==> Genuine(PastOf(s), c.app.value) && c.app.value.tag.edge != e
    ensures Inv(cfg, DeliverAt(s, e, contents, newIds))
  {
    hide EdgeOk, RouterOk, EdgeBoxOk, AgentBoxOk, DeliveredOk, Deliver, NameRequeued;
    var names := NameRequeued(s.names, contents, newIds);
    var k := Past(names, s.sent);
    NameRequeuedGrows(s.names, contents, newIds);
    AllOkLater(cfg, PastOf(s), k, s);
    InvTable(cfg, s, e);
    assert EntriesOk(cfg, k, e, contents, newIds) by {
      forall i | 0 <= i < |contents| ensures contents[i] in contents && newIds[i] in newIds {}
    }
    var boxes := Deliver(s.abox, s.edges[e].subs, map[], {}, contents, newIds, s.now);
    hide TableOk, EntriesOk, Genuine, NewNames;
    DeliverOk(cfg, k, e, s.edges[e].subs, s.abox, contents, newIds, s.now);
    SetBoxesOk(cfg, k, s, boxes, names);
    hide AllOk;
  }

  lemma UnpackInv(cfg: Config, s: Net, e: Edge, m: Message, newIds: seq<string>, uuid: string)
    requires Inv(cfg, s) && e in cfg.edges && DownOk(PastOf(s), e, m)
    requires |newIds| == |Delivering(m)| && NewNames(s.names, newIds) && FreshFor(s, uuid)
    ensures Inv(cfg, Unpack(s, e, m, newIds, uuid))
  {
    hide AllOk, SettleAt, DeliverAt, Push, NewNames, Genuine;
    match m.body {
      case Reply(response) =>
        SettleInv(cfg, s, e, response);
        SettleFrame(s, e, response);
        DeliverInv(cfg, SettleAt(s, e, response), e, Delivering(m), newIds);
      case Protocol(NotifyType, Notify(metadata)) =>
        PushInv(cfg, s, e, ReceiveRequest(uuid, MetadataIds(metadata)));
      case _ =>
    }
  }

  lemma DownlinkInv(cfg: Config, s: Net, e: Edge, newIds: seq<string>, uuid: string)
    requires Inv(cfg, s) && e in cfg.edges && DownReady(s, e, newIds, uuid)
    ensures Inv(cfg, DoDownlink(s, e, newIds, uuid))
  {
    hide AllOk, Unpack, PopDown, DownOk;
    PopDownInv(cfg, s, e);
    PopDownFrame(s, e);
    NewIdsNew(s, newIds, uuid);
    hide Distinct;
    UnpackInv(cfg, PopDown(s, e), e, s.edges[e].down[0], newIds, uuid);
  }

  lemma NewIdsNew(s: Net, newIds: seq<string>, uuid: string)
    requires Distinct(newIds + [uuid]) && forall u :: u in newIds + [uuid] ==> FreshFor(s, u)
    ensures NewNames(s.names, newIds) && FreshFor(s, uuid)
  {
    assert uuid in newIds + [uuid];
    assert forall i :: 0 <= i < |newIds| ==> (newIds + [uuid])[i] == newIds[i];
    assert forall u :: u in newIds ==> u in newIds + [uuid];
  }

  lemma SettleFrame(s: Net, e: Edge, response: Response)
    requires e in s.edges
    ensures
      var n := SettleAt(s, e, response);
      && PastOf(n) == PastOf(s) && n.abox == s.abox && n.names == s.names && n.now == s.now
      && n.edges[e].subs == s.edges[e].subs
  {
  }

  lemma PopDownFrame(s: Net, e: Edge)
    requires e in s.edges && s.edges[e].down != []
    ensures
      var n := PopDown(s, e);
      && PastOf(n) == PastOf(s) && n.abox == s.abox && n.names == s.names && n.now == s.now
      && n.edges[e].subs == s.edges[e].subs && n.edges[e].out == s.edges[e].out
  {
  }

  lemma EdgeInv(cfg: Config, s: Net, e: Edge, step: EdgeStep)
    requires Inv(cfg, s) && e in cfg.edges && EdgeEnabled(s, e, step)
    ensures Inv(cfg, EdgeApply(cfg, s, e, step))
  {
    hide AllOk, DoWrite, DoUplink, DoPull, DoDownlink, ListsKeys, Distinct, Live;
    match step {
      case WriteStep(written) => WriteInv(cfg, s, e, written);
      case UplinkStep(replyId, written, join, order) =>
        UplinkInv(cfg, s, e, cfg.uplink(e), replyId, written, join, order);
      case PullStep(replyId, written, order) => PullInv(cfg, s, e, written, order, replyId);
      case DownlinkStep(newIds, uuid) => DownlinkInv(cfg, s, e, newIds, uuid);
      case ExpireEdgeStep => ExpireEdgeInv(cfg, s, e);
    }
  }

  // ---- routers ----

  lemma JoinKeepsTopics(st: RouterState, subject: string)
    requires TopicsAgree(st)
    ensures TopicsAgree(JoinTopic(st, subject))
  {
  }

  /** What a router hears is on a topic that its table has. */
  lemma HeardOk(cfg: Config, h: Past, r: Router, st: RouterState, subject: string, p: Publication)
    requires RouterOk(cfg, h, r, st) && CarriesSend(h, p.m)
    requires cfg.uplink(AppOf(p.m).value.tag.edge) == p.from && SubjectOf(AppOf(p.m).value) == subject
    ensures RouterOk(cfg, h, r, st.(pub := st.pub + Heard(st, subject, p)))
  {
    hide CarriesSend;
    assert forall q :: q in Heard(st, subject, p) ==> q == p && subject in st.table;
  }

  lemma TakeOutOk(cfg: Config, h: Past, r: Router, st: RouterState, subject: string)
    requires RouterOk(cfg, h, r, st) && st.out != []
    ensures RouterOk(cfg, h, r, st.(out := st.out[1..]))
    ensures RouterOk(cfg, h, r, JoinTopic(st.(out := st.out[1..]), subject))
    ensures CarriesSend(h, st.out[0]) && cfg.uplink(AppOf(st.out[0]).value.tag.edge) == r
  {
    hide CarriesSend, TopicsAgree;
    var n := st.(out := st.out[1..]);
    TopicsKept(st, n);
    JoinKeepsTopics(n, subject);
    assert CarriesSend(h, st.out[0]);
  }

  /** One router after the publication of another, or its own. */
  lemma AfterPublishOk(cfg: Config, h: Past, s: Net, r: Router, result: PublishResult, q: Router)
    requires r in s.routers && q in s.routers && s.routers[r].out != []
    requires RouterOk(cfg, h, r, s.routers[r]) && RouterOk(cfg, h, q, s.routers[q])
    ensures RouterOk(cfg, h, q, AfterPublish(s.routers, r, result)[q])
  {
    hide RouterOk, CarriesSend, JoinTopic, Heard;
    var m := s.routers[r].out[0];
    var subject := if AppOf(m).Some? then SubjectOf(AppOf(m).value) else "";
    TakeOutOk(cfg, h, r, s.routers[r], subject);
    CarriesApp(h, m);
    var st := if q == r then JoinTopic(s.routers[r].(out := s.routers[r].out[1..]), subject) else s.routers[q];
    HeardOk(cfg, h, q, st, subject, Publication(r, m));
  }

  lemma PublishInv(cfg: Config, s: Net, r: Router, result: PublishResult)
    requires Inv(cfg, s) && r in cfg.routers && s.routers[r].out != []
    ensures Inv(cfg, DoPublish(s, r, result))
  {
    hide EdgeOk, RouterOk, EdgeBoxOk, AgentBoxOk, DeliveredOk, AfterPublish;
    var n := DoPublish(s, r, result);
    forall q | q in n.routers ensures RouterOk(cfg, PastOf(s), q, n.routers[q]) {
      AfterPublishOk(cfg, PastOf(s), s, r, result, q);
    }
  }

  lemma CarriesApp(h: Past, m: Message)
    requires CarriesSend(h, m)
    ensures AppOf(m).Some?
  {
  }

  lemma ListenOk(cfg: Config, h: Past, r: Router, st: RouterState)
    requires RouterOk(cfg, h, r, st) && st.pub != []
    ensures RouterOk(cfg, h, r, st.(pub := st.pub[1..]))
    ensures st.pub[0].from != r ==>
      RouterOk(cfg, h, r, st.(pub := st.pub[1..], inbox := st.inbox + [st.pub[0].m]))
  {
    hide CarriesSend, TopicsAgree;
    assert CarriesSend(h, st.pub[0].m);
    TopicsKept(st, st.(pub := st.pub[1..]));
    TopicsKept(st, st.(pub := st.pub[1..], inbox := st.inbox + [st.pub[0].m]));
  }

  lemma ListenInv(cfg: Config, s: Net, r: Router)
    requires Inv(cfg, s) && r in cfg.routers && s.routers[r].pub != []
    ensures Inv(cfg, DoListen(cfg, s, r))
  {
    hide EdgeOk, RouterOk, EdgeBoxOk, AgentBoxOk, DeliveredOk;
    ListenOk(cfg, PastOf(s), r, s.routers[r]);
    hide AllOk;
    SetRouterInv(cfg, s, r, DoListen(cfg, s, r).routers[r]);
  }

  lemma TakeInboxOk(cfg: Config, h: Past, r: Router, st: RouterState)
    requires RouterOk(cfg, h, r, st) && st.inbox != []
    ensures RouterOk(cfg, h, r, st.(inbox := st.inbox[1..]))
    ensures CarriesSend(h, st.inbox[0]) && cfg.uplink(AppOf(st.inbox[0]).value.tag.edge) != r
    ensures forall e, subject :: e in Subscribers(st.table, subject) ==> cfg.uplink(e) == r
  {
    hide CarriesSend, TopicsAgree;
    assert CarriesSend(h, st.inbox[0]);
    TopicsKept(st, st.(inbox := st.inbox[1..]));
  }

  lemma IncomingInv(cfg: Config, s: Net, r: Router)
    requires Inv(cfg, s) && r in cfg.routers && s.routers[r].inbox != []
    ensures Inv(cfg, DoIncoming(s, r))
  {
    hide EdgeOk, RouterOk, EdgeBoxOk, AgentBoxOk, DeliveredOk, CarriesSend, Subscribers, FanOut;
    var h, m, st := PastOf(s), s.routers[r].inbox[0], s.routers[r].(inbox := s.routers[r].inbox[1..]);
    TakeInboxOk(cfg, h, r, s.routers[r]);
    var s1 := s.(routers := s.routers[r := st]);
    SetRouterOk(cfg, h, s, r, st);
    hide AllOk;
    if AppOf(m).Some? {
      FanOutToEdgesOk(cfg, h, s1, Subscribers(st.table, SubjectOf(AppOf(m).value)), m);
    }
  }

  lemma RouterInv(cfg: Config, s: Net, r: Router, step: RouterStep)
    requires Inv(cfg, s) && r in cfg.routers && RouterEnabled(s, r, step)
    ensures Inv(cfg, RouterApply(cfg, s, r, step))
  {
    hide AllOk, DoPublish, DoListen, DoIncoming;
    match step {
      case PublishStep(result) => PublishInv(cfg, s, r, result);
      case ListenStep => ListenInv(cfg, s, r);
      case IncomingStep => IncomingInv(cfg, s, r);
    }
  }

  // ---- every run ----

  lemma StepInv(cfg: Config, s: Net, step: Step)
    requires Inv(cfg, s) && Enabled(cfg, s, step)
    ensures Inv(cfg, Apply(cfg, s, step))
  {
    hide AgentApply, EdgeApply, RouterApply, AgentEnabled, EdgeEnabled, RouterEnabled;
    match step {
      case AgentDoes(a, agent) => hide AllOk; AgentInv(cfg, s, a, agent);
      case EdgeDoes(e, edge) => hide AllOk; EdgeInv(cfg, s, e, edge);
      case RouterDoes(r, router) => hide AllOk; RouterInv(cfg, s, r, router);
      case Tick(now) => hide EdgeOk, RouterOk, EdgeBoxOk, AgentBoxOk, DeliveredOk;
    }
  }

  lemma EmptyOk(cfg: Config, h: Past, e: Edge, r: Router, a: Agent)
    ensures EdgeOk(cfg, h, e, EdgeState(map[], Outbox([], map[], []), [], []))
    ensures RouterOk(cfg, h, r, RouterState(map[], {}, multiset{}, [], [], [], multiset{}))
    ensures EdgeBoxOk(h, e, Box(map[], map[])) && AgentBoxOk(cfg, h, a, Box(map[], map[])) && DeliveredOk(cfg, h, a, [])
  {
  }

  lemma InitInv(cfg: Config, s: Net)
    requires Init(cfg, s)
    ensures Inv(cfg, s)
  {
    hide EdgeOk, RouterOk, EdgeBoxOk, AgentBoxOk, DeliveredOk;
    var h := PastOf(s);
    forall e | e in s.edges ensures EdgeOk(cfg, h, e, s.edges[e]) { EmptyOk(cfg, h, e, 0, 0); }
    forall r | r in s.routers ensures RouterOk(cfg, h, r, s.routers[r]) { EmptyOk(cfg, h, "", r, 0); }
    forall e | e in s.ebox ensures EdgeBoxOk(h, e, s.ebox[e]) { EmptyOk(cfg, h, e, 0, 0); }
    forall a | a in s.abox ensures AgentBoxOk(cfg, h, a, s.abox[a]) { EmptyOk(cfg, h, "", 0, a); }
    forall a | a in s.delivered ensures DeliveredOk(cfg, h, a, s.delivered[a]) { EmptyOk(cfg, h, "", 0, a); }
  }

  lemma {:induction false} RunInv(cfg: Config, run: seq<Net>, steps: seq<Step>, i: nat)
    requires IsRun(cfg, run, steps) && i < |run|
    ensures Inv(cfg, run[i])
  {
    hide Init, Inv, Enabled, Apply;
    if i == 0 {
      InitInv(cfg, run[0]);
    } else {
      RunInv(cfg, run, steps, i - 1);
      StepInv(cfg, run[i - 1], steps[i - 1]);
    }
  }
}
