/** The network steps do what the handlers of the objects do: on the values that the contracts of the classes speak of,
    both compute the same. */
module Agreement {
  import opened Mmtp
  import opened MailboxSpec
  import opened Routing
  import opened Network
  import opened Outboxes
  import opened Consumers
  import E = EdgeRouters
  import R = Routers

  // ---- edge routers ----

  // An edge router's object knows its agents by the UUIDs `id` that it gave them, and holds no others.

  function Named(id: Agent -> string, agents: set<Agent>): set<string> {
    set a | a in agents :: id(a)
  }

  /** The mailboxes of an object are those of the agents at `e`. */
  ghost predicate BoxesAlike(cfg: Config, e: Edge, id: Agent -> string, abox: map<Agent, Box>,
                             boxes: map<string, Box>)
  {
    && (forall a, b :: a in abox && b in abox && cfg.home(a) == cfg.home(b) == e && id(a) == id(b) ==> a == b)
    && (forall u :: u in boxes ==> exists a :: a in abox && cfg.home(a) == e && u == id(a))
    && (forall a :: a in abox && cfg.home(a) == e ==> id(a) in boxes && boxes[id(a)] == abox[a])
  }

  /** So are the subscribers in its table. */
  ghost predicate TablesAlike(cfg: Config, e: Edge, id: Agent -> string, agents: set<Agent>, subs: Table<Agent>,
                              table: Table<string>) {
    && subs.Keys == table.Keys
    && forall subject :: subject in subs ==>
         && table[subject] == Named(id, subs[subject])
         && forall a :: a in subs[subject] ==> a in agents && cfg.home(a) == e
  }

  /** No agent of another edge router notices. */
  ghost predicate OthersAlike(cfg: Config, e: Edge, abox: map<Agent, Box>, n: map<Agent, Box>) {
    n.Keys == abox.Keys && forall a :: a in abox && cfg.home(a) != e ==> n[a] == abox[a]
  }

  lemma FanOutAlike(cfg: Config, e: Edge, id: Agent -> string, abox: map<Agent, Box>, boxes: map<string, Box>,
                    targets: set<Agent>, m: Message)
    requires BoxesAlike(cfg, e, id, abox, boxes)
    requires forall a :: a in targets ==> a in abox && cfg.home(a) == e
    ensures BoxesAlike(cfg, e, id, FanOut(abox, targets, m), FanOut(boxes, Named(id, targets), m))
    ensures OthersAlike(cfg, e, abox, FanOut(abox, targets, m))
  {
    hide Queue;
    forall a | a in abox && cfg.home(a) == e ensures a in targets <==> id(a) in Named(id, targets) {}
  }

  lemma SubscribersAlike(cfg: Config, e: Edge, id: Agent -> string, agents: set<Agent>, subs: Table<Agent>,
                         table: Table<string>, subject: string)
    requires TablesAlike(cfg, e, id, agents, subs, table)
    ensures Subscribers(table, subject) == Named(id, Subscribers(subs, subject))
    ensures forall a :: a in Subscribers(subs, subject) ==> a in agents && cfg.home(a) == e
  {
  }

  /** A Send is queued for the agents that the handler addresses. */
  lemma AddresseesAgree(cfg: Config, e: Edge, id: Agent -> string, agents: set<Agent>, subs: Table<Agent>,
                        table: Table<string>, index: map<string, string>, direct: set<string>, mrn: string -> string,
                        a: Agent, app: AppMessage)
    requires TablesAlike(cfg, e, id, agents, subs, table) && AddressOf(app).Subject?
    requires forall b :: b in agents && cfg.home(b) == e ==> mrn(id(b)) == cfg.mrn(b)
    ensures Named(id, SendTargets(cfg, subs, a, app))
         == SentTo(table, index, direct, mrn, cfg.mrn(a), AddressOf(app))
    ensures forall b :: b in SendTargets(cfg, subs, a, app) ==> b in agents && cfg.home(b) == e
  {
    SubscribersAlike(cfg, e, id, agents, subs, table, SubjectOf(app));
  }

  /** The step for a Send pushes it and queues it as the handler does, and does nothing else to the edge router. */
  lemma SendAgrees(cfg: Config, s: Net, e: Edge, id: Agent -> string, table: Table<string>, boxes: map<string, Box>,
                   index: map<string, string>, direct: set<string>, mrn: string -> string, a: Agent, uuid: string,
                   app: AppMessage)
    requires e in s.edges && AddressOf(app).Subject? && BoxesAlike(cfg, e, id, s.abox, boxes)
    requires TablesAlike(cfg, e, id, s.abox.Keys, s.edges[e].subs, table)
    requires forall b :: b in s.abox && cfg.home(b) == e ==> mrn(id(b)) == cfg.mrn(b)
    ensures
      var n, st, m := DoSend(cfg, s, e, a, uuid, app), s.edges[e], SendMessage(uuid, app);
      var due := SentTo(table, index, direct, mrn, cfg.mrn(a), AddressIn(m));
      && BoxesAlike(cfg, e, id, n.abox, FanOut(boxes, due, m)) && OthersAlike(cfg, e, s.abox, n.abox)
      && n.edges == s.edges[e := st.(out := Pushed(History(st.out, [], false), [m]).o)]
  {
    hide FanOut, BoxesAlike, TablesAlike, OthersAlike, SentTo, SendTargets;
    AddresseesAgree(cfg, e, id, s.abox.Keys, s.edges[e].subs, table, index, direct, mrn, a, app);
    FanOutAlike(cfg, e, id, s.abox, boxes, SendTargets(cfg, s.edges[e].subs, a, app), SendMessage(uuid, app));
  }

  /** What a Subscribe pushes and enters. */
  lemma SubscribeAgrees(cfg: Config, s: Net, e: Edge, id: Agent -> string, table: Table<string>, a: Agent,
                        subject: string, uuid: string)
    requires e in s.edges && a in s.abox && cfg.home(a) == e
    requires TablesAlike(cfg, e, id, s.abox.Keys, s.edges[e].subs, table)
    ensures
      var n, st, m := DoSubscribe(s, e, a, subject, uuid), s.edges[e], SubjectRequest(uuid, subject);
      var pushed := Pushed(History(st.out, [], false), if subject in table then [] else [m]).o;
      && TablesAlike(cfg, e, id, s.abox.Keys, n.edges[e].subs, AddSubscriber(table, subject, id(a)))
      && n.edges == s.edges[e := st.(subs := n.edges[e].subs, out := pushed)]
  {
    SubscribersAlike(cfg, e, id, s.abox.Keys, s.edges[e].subs, table, subject);
    NamedMore(id, Subscribers(s.edges[e].subs, subject), a);
    hide Named;
    var n, st, m := DoSubscribe(s, e, a, subject, uuid), s.edges[e], SubjectRequest(uuid, subject);
    assert st.out.queue + [] == st.out.queue;
    var out := if subject in table then st.out else st.out.(queue := st.out.queue + [m]);
    assert n.edges[e] == st.(subs := n.edges[e].subs, out := out);
  }

  lemma NamedMore(id: Agent -> string, agents: set<Agent>, a: Agent)
    ensures Named(id, agents + {a}) == Named(id, agents) + {id(a)}
  {
  }

  /** What an Unsubscribe takes out. */
  lemma UnsubscribeAgrees(cfg: Config, s: Net, e: Edge, id: Agent -> string, table: Table<string>,
                          boxes: map<string, Box>, a: Agent, subject: string)
    requires e in s.edges && a in s.abox && cfg.home(a) == e && BoxesAlike(cfg, e, id, s.abox, boxes)
    requires TablesAlike(cfg, e, id, s.abox.Keys, s.edges[e].subs, table)
    ensures TablesAlike(cfg, e, id, s.abox.Keys, DropSubscriber(s.edges[e].subs, subject, a),
                        DropSubscriber(table, subject, id(a)))
  {
    if subject in table {
      NamedLess(cfg, e, id, s.abox, boxes, s.edges[e].subs[subject], a);
    }
  }

  lemma NamedLess(cfg: Config, e: Edge, id: Agent -> string, abox: map<Agent, Box>, boxes: map<string, Box>,
                  agents: set<Agent>, a: Agent)
    requires BoxesAlike(cfg, e, id, abox, boxes) && a in abox && cfg.home(a) == e
    requires forall b :: b in agents ==> b in abox && cfg.home(b) == e
    ensures Named(id, agents - {a}) == Named(id, agents) - {id(a)}
  {
    forall b | b in agents && b != a ensures id(b) != id(a) {}
  }

  /** Entries that carry subject-casts. */
  predicate SubjectCasts(contents: seq<Content>) {
    forall c :: c in contents && c.app.Some? ==> AddressOf(c.app.value).Subject?
  }

  lemma DeliverOneAlike(cfg: Config, e: Edge, id: Agent -> string, abox: map<Agent, Box>, boxes: map<string, Box>,
                        subs: Table<Agent>, table: Table<string>, index: map<string, string>, direct: set<string>,
                        c: Content, newId: string, now: int)
    requires BoxesAlike(cfg, e, id, abox, boxes) && TablesAlike(cfg, e, id, abox.Keys, subs, table)
    requires c.app.Some? ==> AddressOf(c.app.value).Subject?
    ensures BoxesAlike(cfg, e, id, DeliverOne(abox, subs, map[], {}, c, newId, now),
                       DeliverOne(boxes, table, index, direct, c, newId, now))
    ensures OthersAlike(cfg, e, abox, DeliverOne(abox, subs, map[], {}, c, newId, now))
  {
    hide FanOut, BoxesAlike, TablesAlike;
    if c.app.Some? {
      var subject := SubjectOf(c.app.value);
      SubscribersAlike(cfg, e, id, abox.Keys, subs, table, subject);
      FanOutAlike(cfg, e, id, abox, boxes, Subscribers(subs, subject), SendMessage(newId, c.app.value));
    }
  }

  /** The entries of a response are queued for the same agents, whatever the index and the direct receivers. */
  lemma {:induction false} DeliverAgrees(cfg: Config, e: Edge, id: Agent -> string, abox: map<Agent, Box>,
                                         boxes: map<string, Box>, subs: Table<Agent>, table: Table<string>,
                                         index: map<string, string>, direct: set<string>, contents: seq<Content>,
                                         newIds: seq<string>, now: int)
    requires BoxesAlike(cfg, e, id, abox, boxes) && TablesAlike(cfg, e, id, abox.Keys, subs, table)
    requires |newIds| == |contents| && SubjectCasts(contents)
    ensures BoxesAlike(cfg, e, id, Deliver(abox, subs, map[], {}, contents, newIds, now),
                       Deliver(boxes, table, index, direct, contents, newIds, now))
    ensures OthersAlike(cfg, e, abox, Deliver(abox, subs, map[], {}, contents, newIds, now))
  {
    if contents != [] {
      var n := |contents| - 1;
      hide BoxesAlike, TablesAlike, DeliverOne;
      DeliverAgrees(cfg, e, id, abox, boxes, subs, table, index, direct, contents[..n], newIds[..n], now);
      DeliverOneAlike(cfg, e, id, Deliver(abox, subs, map[], {}, contents[..n], newIds[..n], now),
                      Deliver(boxes, table, index, direct, contents[..n], newIds[..n], now), subs, table, index, direct,
                      contents[n], newIds[n], now);
    }
  }

  /** A message that came down the link changes the channel and the mailboxes as `HandleIncoming` does. */
  lemma UnpackAgrees(cfg: Config, s: Net, e: Edge, id: Agent -> string, table: Table<string>, boxes: map<string, Box>,
                     index: map<string, string>, direct: set<string>, m: Message, newIds: seq<string>, uuid: string)
    requires e in s.edges && |newIds| == |Delivering(m)| && SubjectCasts(Delivering(m))
    requires BoxesAlike(cfg, e, id, s.abox, boxes) && TablesAlike(cfg, e, id, s.abox.Keys, s.edges[e].subs, table)
    requires m.body.Protocol? && m.body.kind.NotifyType? ==> m.body.payload.Notify?
    ensures
      var n, st := Unpack(s, e, m, newIds, uuid), s.edges[e];
      var h := History(st.out, [], false);
      && n.edges == s.edges[e := st.(out :=
           if m.body.Reply? then Answered(h, m.body.response).o
           else if m.body.Protocol? && m.body.kind.NotifyType? then
             Pushed(h, [ReceiveRequest(uuid, MetadataIds(m.body.payload.metadata))]).o
           else st.out)]
      && BoxesAlike(cfg, e, id, n.abox, Deliver(boxes, table, index, direct, Delivering(m), newIds, s.now))
      && OthersAlike(cfg, e, s.abox, n.abox)
  {
    hide BoxesAlike, TablesAlike, MetadataIds, Settle;
    if m.body.Reply? {
      DeliverAgrees(cfg, e, id, s.abox, boxes, s.edges[e].subs, table, index, direct, Delivering(m), newIds, s.now);
    } else {
      E.DeliverNothing(boxes, table, index, direct, s.now);
      assert newIds == [];
    }
  }

  /** A Receive of an agent leaves its mailbox as the consumer's handler does, and what counts as delivered are the
      messages that the response lists, if it was written. */
  lemma AgentReceiveAgrees(cfg: Config, s: Net, a: Agent, request: Message, written: bool, out: Outcome)
    requires request.body.Protocol? && request.body.payload.Receive? && cfg.home(a) in s.edges
    requires a in s.abox && a in s.delivered && AnswersReceive(s.abox[a], request, s.now, written, out)
    ensures
      var b, ids := s.abox[a], request.body.payload.filter;
      var step := if ids == [] then ReceiveAllStep(written) else ReceiveSomeStep(ids, written);
      var n := AgentApply(cfg, s, a, step);
      && n.abox == s.abox[a := AfterReceive(b, request, s.now, written)]
      && |n.delivered[a]| == |s.delivered[a]| + 1 && n.delivered[a][..|s.delivered[a]|] == s.delivered[a]
      && var batch := n.delivered[a][|s.delivered[a]|];
      && batch.Keys == (if written then SetOf(ContentIds(out.reply.body.response.contents)) else {})
      && forall u :: u in batch ==> u in b.messages && batch[u] == b.messages[u]
  {
    var ids := request.body.payload.filter;
    AnsweredKeys(s.abox[a], request, s.now, written, out);
    AgentReceives(cfg, s, a, ids, written);
    assert AfterReceive(s.abox[a], request, s.now, written) == BoxAfterReceive(s.abox[a], ids, s.now, written);
    hide AgentApply, BoxAfterReceive, SameOwners, AnswersReceive, Selected;
  }

  lemma AgentReceives(cfg: Config, s: Net, a: Agent, ids: seq<string>, written: bool)
    requires cfg.home(a) in s.edges && a in s.abox && a in s.delivered
    ensures
      var b := s.abox[a];
      var batch := if ids == [] then Live(b.messages, s.now) else Requested(b.messages, ids);
      AgentApply(cfg, s, a, if ids == [] then ReceiveAllStep(written) else ReceiveSomeStep(ids, written))
        == DeliverTo(s, a, BoxAfterReceive(b, ids, s.now, written), if written then batch else map[])
  {
    hide Live, Requested, ReceiveSome, ReceiveAll, DeliverTo, SameOwners;
  }

  lemma AnsweredKeys(b: Box, request: Message, now: int, written: bool, out: Outcome)
    requires request.body.Protocol? && request.body.payload.Receive? && AnswersReceive(b, request, now, written, out)
    ensures out.Outcome? && out.reply.body.Reply?
    ensures
      var ids := request.body.payload.filter;
      SetOf(ContentIds(out.reply.body.response.contents))
        == if ids == [] then Live(b.messages, now).Keys else Requested(b.messages, ids).Keys
  {
    SelectedExact(request.body.payload.filter, b.messages.Keys);
  }

  // ---- routers ----

  /** A Send that the network lets through is one that the edge router's handler accepts. */
  lemma AcceptanceAgrees(cfg: Config, a: Agent, uuid: string, app: AppMessage)
    requires Acceptable(cfg, a, app)
    ensures E.SendAccepted(true, cfg.mrn(a), SendMessage(uuid, app), true)
    ensures AddressIn(SendMessage(uuid, app)) == AddressOf(app)
  {
  }

  /** A Subscribe that came up a link leaves the router as `HandleSubscribe` does, and is answered alike. */
  lemma RouterSubscribeAgrees(s: Net, e: Edge, r: Router, m: Message, replyId: string, written: bool, join: JoinResult,
                              order: seq<string>)
    requires e in s.edges && e in s.ebox && r in s.routers && ListsKeys(order, Live(s.ebox[e].messages, s.now))
    requires RequestOf(m).SubscribeTo?
    ensures m.body.Protocol? && m.body.payload.Subscribe?
    ensures
      var n, st := Serve(s, e, r, m, replyId, written, join, order), s.edges[e];
      var done := RouterSubscribe(s.routers[r], e, SubjectIn(m.body.payload.interest), join);
      var reply := if done.1 then GoodReply(replyId, m.uuid, [], []) else ErrorReply(replyId, m.uuid);
      n == s.(routers := s.routers[r := done.0],
              edges := s.edges[e := st.(down := st.down + if written then [reply] else [])])
  {
    hide ListsKeys, Live, RouterSubscribe;
    var st := s.edges[e];
    assert st.down + [] == st.down && s.edges == s.edges[e := st];
  }

  /** So does an Unsubscribe. */
  lemma RouterUnsubscribeAgrees(s: Net, e: Edge, r: Router, m: Message, replyId: string, written: bool,
                                join: JoinResult, order: seq<string>)
    requires e in s.edges && e in s.ebox && r in s.routers && ListsKeys(order, Live(s.ebox[e].messages, s.now))
    requires RequestOf(m).WithdrawFrom?
    ensures
      var n, st := Serve(s, e, r, m, replyId, written, join, order), s.edges[e];
      var withdraws := m.body.Protocol? && m.body.payload.Unsubscribe?;
      var subject := if withdraws then SubjectIn(m.body.payload.interest) else "";
      var table := s.routers[r].table;
      var reply := if subject != "" then GoodReply(replyId, m.uuid, [], []) else ErrorReply(replyId, m.uuid);
      var left := if subject != "" then DropSubscriber(table, subject, e) else table;
      n == s.(routers := s.routers[r := s.routers[r].(table := left)],
              edges := s.edges[e := st.(down := st.down + if written then [reply] else [])])
  {
    hide ListsKeys, Live, DropSubscriber;
    var st, rs := s.edges[e], s.routers[r];
    assert st.down + [] == st.down && s.edges == s.edges[e := st];
    assert s.routers == s.routers[r := rs.(table := rs.table)];
  }

  /** The router queues a subject-cast for the same edge routers. */
  lemma RouterSendAgrees(s: Net, r: Router, e: Edge, m: Message, app: AppMessage, replyId: string, written: bool)
    requires r in s.routers && e in s.edges && AppOf(m) == Some(app) && AddressOf(app).Subject?
    ensures
      var n, st := DoRouterSend(s, r, e, m, app, replyId, written), s.routers[r];
      && n.routers[r] == st.(out := st.out + [m])
      && n.ebox == FanOut(s.ebox, R.Addressed(st.table, AddressIn(m)) - {e}, m)
  {
    hide FanOut;
  }

  /** The dispatcher queues an incoming subject-cast for the same edge routers, and finds every entry it looks up. */
  lemma IncomingAgrees(s: Net, r: Router)
    requires r in s.routers && s.routers[r].inbox != []
    requires
      var m := s.routers[r].inbox[0];
      AppOf(m).Some? && AddressOf(AppOf(m).value).Subject? && SubjectOf(AppOf(m).value) in s.routers[r].table
    ensures
      var n, st, m := DoIncoming(s, r), s.routers[r], s.routers[r].inbox[0];
      var due := m.msgType.ProtocolMessage? && InWindow(AppOf(m).value, s.now);
      && n.routers[r] == st.(inbox := st.inbox[1..])
      && n.ebox == FanOut(s.ebox, if due then R.Reached(st.table, AddressIn(m)) else {}, m)
      && R.AllListed(st.table, AddressIn(m))
  {
    FanOutNobody(s.ebox, s.routers[r].inbox[0]);
    hide FanOut;
  }

  /** The publisher leaves the same state, and what it published is what the listeners of the topic hear. */
  lemma PublishAgrees(routers: map<Router, RouterState>, r: Router, result: PublishResult, q: Router)
    requires r in routers && routers[r].out != [] && q in routers
    requires
      var m := routers[r].out[0];
      m.msgType.ProtocolMessage? && AppOf(m).Some? && AddressOf(AppOf(m).value).Subject?
    ensures
      var m, st := routers[r].out[0], routers[r].(out := routers[r].out[1..]);
      var (st', sent) := R.PublishEach(st, R.TopicsFor(m), m, [result]);
      var n, subject := AfterPublish(routers, r, result), SubjectOf(AppOf(m).value);
      && R.TopicsFor(m) == [subject] && (sent == [] || sent == [R.Posting(subject, m)])
      && n[r].(pub := st'.pub) == st'
      && n[q].pub == routers[q].pub + (if sent == [] then [] else Heard(routers[q], subject, Publication(r, m)))
  {
    hide Heard;
    var m, st := routers[r].out[0], routers[r].(out := routers[r].out[1..]);
    var subject := SubjectOf(AppOf(m).value);
    R.PublishEachSnoc(st, [subject], m, [result], 0);
    R.PublishNothing(st, [subject], m, [result]);
    assert [subject][..1] == [subject] && [result][..1] == [result];
    assert [R.Posting(subject, m)] != [];
    HeardAlike(routers[r], JoinTopic(st, subject), subject, Publication(r, m));
  }

  /** The listener keeps what `Listen` keeps. */
  lemma ListenAgrees(cfg: Config, s: Net, r: Router)
    requires r in s.routers && s.routers[r].pub != []
    ensures
      var n, st, p := DoListen(cfg, s, r), s.routers[r], s.routers[r].pub[0];
      var send := p.m.msgType.ProtocolMessage? && p.m.body.Protocol? && p.m.body.payload.Send?;
      var kept := p.from != r && cfg.v4(p.m.uuid) && send;
      n == s.(routers := s.routers[r := st.(pub := st.pub[1..], inbox := st.inbox + if kept then [p.m] else [])])
  {
    assert s.routers[r].inbox + [] == s.routers[r].inbox;
  }

  /** The writer leaves the channel as `WriteOutgoing` does, and the link gains what was written. */
  lemma WriteAgrees(s: Net, e: Edge, written: bool)
    requires e in s.edges && s.edges[e].out.queue != []
    ensures
      var n, st := DoWrite(s, e, written).edges[e], s.edges[e];
      var o := Wrote(History(st.out, [], false), written).o;
      && |st.out.written| <= |o.written|
      && n == st.(out := o, up := st.up + o.written[|st.out.written|..])
  {
  }

  /** The notifier of a router leaves the mailbox as `CheckNewMessages` does, and its Notify is one that announces what
      is due. */
  lemma PullAgrees(s: Net, e: Edge, written: bool, order: seq<string>, replyId: string)
    requires e in s.edges && e in s.ebox && ListsKeys(order, s.ebox[e].notifications)
    ensures
      var n, b, st := DoPull(s, e, written, order, replyId), s.ebox[e], s.edges[e];
      if b.notifications == map[] then n == s && AnnouncesDue(b, written, NoOutcome)
      else
        exists reply :: AnnouncesDue(b, written, Outcome(reply, written))
          && n == s.(ebox := s.ebox[e := NotifyAll(b, written)],
                     edges := s.edges[e := st.(down := st.down + if written then [reply] else [])])
  {
    var b, st := s.ebox[e], s.edges[e];
    if b.notifications != map[] {
      assert forall i :: 0 <= i < |order| ==> order[i] in SetOf(order);
      var metadata := seq(|order|, i requires 0 <= i < |order| =>
        Metadata(order[i], HeaderOf(b.notifications[order[i]])));
      assert MetadataIds(metadata) == order;
      var reply := Message(ProtocolMessage, replyId, Protocol(NotifyType, Notify(metadata)));
      assert AnnouncesDue(b, written, Outcome(reply, written));
      assert st.down + [] == st.down && s.edges == s.edges[e := st];
    }
  }

  /** So does the router's handler of a Receive. */
  lemma ReceiveAgrees(s: Net, e: Edge, r: Router, m: Message, replyId: string, written: bool, join: JoinResult,
                      order: seq<string>)
    requires e in s.edges && e in s.ebox && r in s.routers && ListsKeys(order, Live(s.ebox[e].messages, s.now))
    requires RequestOf(m).Collect?
    ensures
      var n, b, st := Serve(s, e, r, m, replyId, written, join, order), s.ebox[e], s.edges[e];
      exists reply :: AnswersReceive(b, m, s.now, written, Outcome(reply, written))
        && n == s.(ebox := s.ebox[e := AfterReceive(b, m, s.now, written)],
                   edges := s.edges[e := st.(down := st.down + if written then [reply] else [])])
  {
    var b, st, ids := s.ebox[e], s.edges[e], m.body.payload.filter;
    AnswerStored(b, ids, s.now, order);
    var contents := ContentsFor(Network.Answer(b, ids, order), b.messages);
    assert ContentIds(contents) == Network.Answer(b, ids, order);
    var reply := GoodReply(replyId, m.uuid, [], contents);
    assert AnswersReceive(b, m, s.now, written, Outcome(reply, written));
    assert st.down + [] == st.down && s.edges == s.edges[e := st];
  }
}
