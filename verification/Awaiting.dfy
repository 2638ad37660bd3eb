/** What becomes of a Subscribe that was written: its answer comes, or it is awaited for ever. An edge router asks again
    only after an answer, so a refusal whose reply is lost leaves its subscribers without the subject. */
module Awaiting {
  import opened Mmtp
  import opened MailboxSpec
  import opened Routing
  import opened Network
  import opened NetworkInvariant
  import opened NetworkSteps
  import opened Copies
  import opened Coverage

  function Same(m: Message): Message -> nat {
    (x: Message) => if x == m then 1 else 0
  }

  function AnswerTo(m: Message): Message -> nat {
    (d: Message) => if Answers(d, m) then 1 else 0
  }

  /** How often `m` is queued or on the link, or an answer to it on its way back. */
  function Places(st: EdgeState, m: Message): nat {
    Sum(st.out.queue, Same(m)) + Sum(st.up, Same(m)) + Sum(st.down, AnswerTo(m))
  }

  predicate Awaited(st: EdgeState, m: Message) {
    m.uuid in st.out.awaiting && st.out.awaiting[m.uuid] == m
  }

  /** A request is in one place at most, and once written it is awaited. */
  ghost predicate Single(st: EdgeState, m: Message) {
    Places(st, m) <= 1 && (Sum(st.up, Same(m)) + Sum(st.down, AnswerTo(m)) > 0 ==> Awaited(st, m))
  }

  /** An answer to `m` is awaited, and nothing is under way that could bring one. */
  predicate Waiting(st: EdgeState, m: Message) {
    Awaited(st, m) && Places(st, m) == 0
  }

  /** The router handles `m`, and its reply fails to be written. */
  ghost predicate Unheard(s: Net, step: Step, e: Edge, m: Message) {
    && step.EdgeDoes? && step.e == e && step.edge.UplinkStep? && !step.edge.written
    && e in s.edges && s.edges[e].up != [] && s.edges[e].up[0] == m
  }

  // ---- one edge router ----

  lemma {:induction false} SumNone(q: seq<Message>, w: Message -> nat)
    requires forall x :: x in q ==> w(x) == 0
    ensures Sum(q, w) == 0
  {
    if q != [] { SumNone(q[1..], w); }
  }

  lemma SumPop(q: seq<Message>, w: Message -> nat)
    requires q != []
    ensures Sum(q, w) == w(q[0]) + Sum(q[1..], w)
  {
  }

  lemma PushSingle(st: EdgeState, n: EdgeState, x: Message, m: Message)
    requires Single(st, m) && x != m
    requires n.out.queue == st.out.queue + [x] && n.out.awaiting == st.out.awaiting && n.up == st.up
    requires n.down == st.down
    ensures Single(n, m) && (Waiting(n, m) <==> Waiting(st, m))
  {
    SumSnoc(st.out.queue, x, Same(m));
  }

  lemma WriteSingle(st: EdgeState, n: EdgeState, written: bool, m: Message)
    requires Single(st, m) && st.out.queue != [] && m.msgType.ProtocolMessage? && IsSubscription(m)
    requires st.out.queue[0] != m ==> st.out.queue[0].uuid != m.uuid
    requires n.out == WriteFirst(st.out, written) && n.down == st.down
    requires
      var x := st.out.queue[0];
      n.up == if written && x.msgType.ProtocolMessage? then st.up + [x] else st.up
    ensures Single(n, m) && (Waiting(n, m) <==> Waiting(st, m))
  {
    var x := st.out.queue[0];
    SumPop(st.out.queue, Same(m));
    SumSnoc(st.out.queue[1..], x, Same(m));
    SumSnoc(st.up, x, Same(m));
    hide Sum;
  }

  lemma ServeSingle(st: EdgeState, n: EdgeState, m: Message)
    requires Single(st, m) && st.up != [] && (st.up[0] != m ==> st.up[0].uuid != m.uuid)
    requires n.out == st.out && n.up == st.up[1..]
    requires n.down == st.down || exists d :: n.down == st.down + [d] && Answers(d, st.up[0])
    ensures Single(n, m)
    ensures Waiting(n, m) <==> Waiting(st, m) || (st.up[0] == m && n.down == st.down)
  {
    SumPop(st.up, Same(m));
    if d :| n.down == st.down + [d] && Answers(d, st.up[0]) {
      SumSnoc(st.down, d, AnswerTo(m));
    }
    hide Sum;
  }

  lemma NotifySingle(st: EdgeState, n: EdgeState, m: Message)
    requires Single(st, m) && n.out == st.out && n.up == st.up
    requires n.down == st.down || exists d :: n.down == st.down + [d] && d.body.Protocol?
    ensures Single(n, m) && (Waiting(n, m) <==> Waiting(st, m))
  {
    if d :| n.down == st.down + [d] && d.body.Protocol? {
      SumSnoc(st.down, d, AnswerTo(m));
    }
    hide Sum;
  }

  lemma ReplySingle(st: EdgeState, n: EdgeState, m: Message)
    requires Single(st, m) && st.down != [] && st.down[0].body.Reply?
    requires forall u :: u in st.out.awaiting && u != m.uuid ==> st.out.awaiting[u] != m
    requires n.up == st.up && n.down == st.down[1..] && n.out == Settle(st.out, st.down[0].body.response)
    ensures Single(n, m) && (Waiting(n, m) <==> Waiting(st, m))
  {
    var d := st.down[0];
    SumPop(st.down, AnswerTo(m));
    var again := Retried(st.out, d.body.response);
    assert st.out.queue + [] == st.out.queue;
    if again != [] { SumSnoc(st.out.queue, again[0], Same(m)); }
    hide Sum;
  }

  lemma OtherSingle(st: EdgeState, n: EdgeState, m: Message)
    requires Single(st, m) && st.down != [] && !st.down[0].body.Reply?
    requires n.up == st.up && n.down == st.down[1..] && n.out.awaiting == st.out.awaiting
    requires n.out.queue == st.out.queue || exists x :: x != m && n.out.queue == st.out.queue + [x]
    ensures Single(n, m) && (Waiting(n, m) <==> Waiting(st, m))
  {
    SumPop(st.down, AnswerTo(m));
    if x :| x != m && n.out.queue == st.out.queue + [x] {
      SumSnoc(st.out.queue, x, Same(m));
    }
    hide Sum;
  }

  /** A request that is pushed for the first time. */
  lemma NewSingle(st: EdgeState, n: EdgeState, m: Message)
    requires m !in st.out.queue && m !in st.up && forall d :: d in st.down ==> !Answers(d, m)
    requires n.out.queue == st.out.queue + [m] && n.up == st.up && n.down == st.down
    ensures Single(n, m) && !Waiting(n, m)
  {
    SumNone(st.out.queue, Same(m));
    SumNone(st.up, Same(m));
    SumNone(st.down, AnswerTo(m));
    SumSnoc(st.out.queue, m, Same(m));
  }

  // ---- the steps of the network ----

  /** `m` is a Subscribe that its UUID names, and single. */
  ghost predicate SingleIn(s: Net, e: Edge, m: Message) {
    && e in s.edges && m.uuid in s.names && s.names[m.uuid] == m && Single(s.edges[e], m)
    && m.msgType.ProtocolMessage? && IsSubscription(m) && RequestOf(m).SubscribeTo?
  }

  ghost predicate WaitingIn(s: Net, e: Edge, m: Message) {
    e in s.edges && Waiting(s.edges[e], m)
  }

  lemma SameSingle(s: Net, n: Net, e: Edge, m: Message)
    requires SingleIn(s, e, m) && e in n.edges && n.edges[e] == s.edges[e] && Within(s.names, n.names)
    ensures SingleIn(n, e, m) && (WaitingIn(n, e, m) <==> WaitingIn(s, e, m))
  {
    hide Single, Waiting;
  }

  /** The outgoing channel gets at most one message, whose UUID is new. */
  ghost predicate PushesNew(st: EdgeState, n: EdgeState, names: Store) {
    && n.out.awaiting == st.out.awaiting && n.up == st.up && n.down == st.down
    && (n.out.queue == st.out.queue || exists x :: n.out.queue == st.out.queue + [x] && x.uuid !in names)
  }

  lemma PushesNewSingle(st: EdgeState, n: EdgeState, names: Store, m: Message)
    requires Single(st, m) && PushesNew(st, n, names) && m.uuid in names
    ensures Single(n, m) && (Waiting(n, m) <==> Waiting(st, m))
  {
    if x :| n.out.queue == st.out.queue + [x] && x.uuid !in names {
      PushSingle(st, n, x, m);
    }
  }

  lemma AgentFrame(cfg: Config, s: Net, a: Agent, step: AgentStep)
    requires Shape(cfg, s) && ValidConfig(cfg) && a in cfg.agents && AgentEnabled(cfg, s, a, step)
    ensures
      var n, f := AgentApply(cfg, s, a, step), cfg.home(a);
      && f in s.edges && f in n.edges && n.edges == s.edges[f := n.edges[f]] && Within(s.names, n.names)
      && PushesNew(s.edges[f], n.edges[f], s.names) && n.routers == s.routers
  {
    if OwnBox(step) {
      hide AgentApply, AgentEnabled;
      OwnBoxFrame(cfg, s, a, step);
      assert s.edges[cfg.home(a) := s.edges[cfg.home(a)]] == s.edges;
    } else {
      hide PushesNew;
      PushFrame(cfg, s, a, step);
    }
  }

  lemma PushFrame(cfg: Config, s: Net, a: Agent, step: AgentStep)
    requires Shape(cfg, s) && ValidConfig(cfg) && a in cfg.agents && AgentEnabled(cfg, s, a, step) && !OwnBox(step)
    ensures
      var n, f := AgentApply(cfg, s, a, step), cfg.home(a);
      && f in s.edges && f in n.edges && n.edges == s.edges[f := n.edges[f]] && Within(s.names, n.names)
      && PushesNew(s.edges[f], n.edges[f], s.names) && n.routers == s.routers
  {
    hide Acceptable, FanOut, SendTargets, SameAgents, AddSubscriber, DropSubscriber, SameOwners, PushesNew, Push,
         SubjectRequest, WithdrawRequest, Within;
    var f := cfg.home(a);
    match step {
      case SubscribeStep(subject, uuid) => SubscribeFrame(s, f, a, subject, uuid);
      case UnsubscribeStep(subject) => SetTableFrame(s, f, DropSubscriber(s.edges[f].subs, subject, a));
      case SubscribeDirectStep(uuid) =>
        SubjectRequestForm(uuid, cfg.mrn(a));
        PushFrameOne(s, f, SubjectRequest(uuid, cfg.mrn(a)));
      case UnsubscribeDirectStep(uuid) =>
        WithdrawRequestUuid(uuid, cfg.mrn(a));
        PushFrameOne(s, f, WithdrawRequest(uuid, cfg.mrn(a)));
      case SendStep(uuid, app) => PushFrameOne(s, f, SendMessage(uuid, app));
    }
  }

  lemma WithdrawRequestUuid(uuid: string, mrn: string)
    ensures WithdrawRequest(uuid, mrn).uuid == uuid
  {
  }

  lemma PushFrameOne(s: Net, f: Edge, x: Message)
    requires f in s.edges && FreshFor(s, x.uuid)
    ensures
      var n := Push(s, f, x);
      && f in n.edges && n.edges == s.edges[f := n.edges[f]] && Within(s.names, n.names) && n.routers == s.routers
      && PushesNew(s.edges[f], n.edges[f], s.names)
  {
  }

  lemma SetTableFrame(s: Net, f: Edge, table: Table<Agent>)
    requires f in s.edges
    ensures
      var n := SetTable(s, f, table);
      && f in n.edges && n.edges == s.edges[f := n.edges[f]] && Within(s.names, n.names) && n.routers == s.routers
      && PushesNew(s.edges[f], n.edges[f], s.names)
  {
  }

  lemma SubscribeFrame(s: Net, f: Edge, a: Agent, subject: string, uuid: string)
    requires f in s.edges && FreshFor(s, uuid)
    ensures
      var n := DoSubscribe(s, f, a, subject, uuid);
      && f in n.edges && n.edges == s.edges[f := n.edges[f]] && Within(s.names, n.names) && n.routers == s.routers
      && PushesNew(s.edges[f], n.edges[f], s.names)
  {
    hide AddSubscriber;
  }

  lemma AgentSingle(cfg: Config, s: Net, a: Agent, step: AgentStep, e: Edge, m: Message)
    requires Shape(cfg, s) && ValidConfig(cfg) && a in cfg.agents && AgentEnabled(cfg, s, a, step) && SingleIn(s, e, m)
    ensures
      var n := AgentApply(cfg, s, a, step);
      SingleIn(n, e, m) && (WaitingIn(n, e, m) <==> WaitingIn(s, e, m))
  {
    hide AgentApply, AgentEnabled, PushesNew, Single, Waiting;
    AgentFrame(cfg, s, a, step);
    var n := AgentApply(cfg, s, a, step);
    if cfg.home(a) == e {
      PushesNewSingle(s.edges[e], n.edges[e], s.names, m);
    }
  }

  /** A written reply joins the link down; a Subscribe always gets one. */
  ghost predicate Replies(s: Net, n: Net, e: Edge, m: Message, written: bool) {
    && e in s.edges && e in n.edges
    && (n.edges[e].down == s.edges[e].down
        || exists d :: n.edges[e].down == s.edges[e].down + [d] && Answers(d, m))
    && (!written ==> n.edges[e].down == s.edges[e].down)
    && (written && RequestOf(m).SubscribeTo? ==> n.edges[e].down != s.edges[e].down)
  }

  lemma RepliesOne(s: Net, s1: Net, e: Edge, m: Message, reply: Message, written: bool)
    requires e in s.edges && s1.edges == s.edges && Answers(reply, m)
    ensures Replies(s, SendDown(s1, e, reply, written), e, m, written)
  {
    hide RequestOf;
    SendDownFrame(s1, e, reply, written);
  }

  lemma ServeReplies(s: Net, e: Edge, r: Router, m: Message, replyId: string, written: bool, join: JoinResult,
                     order: seq<string>)
    requires e in s.edges && e in s.ebox && r in s.routers && ListsKeys(order, Live(s.ebox[e].messages, s.now))
    ensures Replies(s, Serve(s, e, r, m, replyId, written, join, order), e, m, written)
  {
    hide RequestOf, ListsKeys, Live, SendDown, RouterSubscribe, DropSubscriber, FanOut, BoxAfterReceive, Answer,
         ContentsFor, SameOwners, SameAgents, Replies, Subscribers;
    match RequestOf(m) {
      case SubscribeTo(subject) =>
        var (st, ok) := RouterSubscribe(s.routers[r], e, subject, join);
        RepliesOne(s, s.(routers := s.routers[r := st]), e, m,
                   if ok then GoodReply(replyId, m.uuid, [], []) else ErrorReply(replyId, m.uuid), written);
      case WithdrawFrom(subject) =>
        var st := s.routers[r];
        RepliesOne(s, s, e, m, ErrorReply(replyId, m.uuid), written);
        RepliesOne(s, s.(routers := s.routers[r := st.(table := DropSubscriber(st.table, subject, e))]), e, m,
                   GoodReply(replyId, m.uuid, [], []), written);
      case PassOn(Some(app)) =>
        var st := s.routers[r];
        var targets := Subscribers(st.table, SubjectOf(app)) - {e};
        RepliesOne(s, s.(routers := s.routers[r := st.(out := st.out + [m])], ebox := FanOut(s.ebox, targets, m)), e, m,
                   GoodReply(replyId, m.uuid, [], []), written);
      case Collect(ids) =>
        AnswerStored(s.ebox[e], ids, s.now, order);
        var contents := ContentsFor(Answer(s.ebox[e], ids, order), s.ebox[e].messages);
        RepliesOne(s, s.(ebox := s.ebox[e := BoxAfterReceive(s.ebox[e], ids, s.now, written)]), e, m,
                   GoodReply(replyId, m.uuid, [], contents), written);
      case _ => NoReply(s, e, m, written);
    }
  }

  lemma NoReply(s: Net, e: Edge, m: Message, written: bool)
    requires e in s.edges && !RequestOf(m).SubscribeTo?
    ensures Replies(s, s, e, m, written)
  {
  }

  lemma UplinkSingle(cfg: Config, s: Net, f: Edge, replyId: string, written: bool, join: JoinResult,
                     order: seq<string>, e: Edge, m: Message)
    requires AllNamed(cfg, s) && ValidConfig(cfg) && f in cfg.edges && s.edges[f].up != [] && SingleIn(s, e, m)
    requires ListsKeys(order, Live(s.ebox[f].messages, s.now))
    ensures
      var n := DoUplink(s, f, cfg.uplink(f), replyId, written, join, order);
      && SingleIn(n, e, m)
      && (WaitingIn(n, e, m) <==>
           WaitingIn(s, e, m) || Unheard(s, EdgeDoes(f, UplinkStep(replyId, written, join, order)), e, m))
  {
    hide RequestOf, DoUplink, ListsKeys, Live, Single, Waiting, IsSubscription;
    var r, n := cfg.uplink(f), DoUplink(s, f, cfg.uplink(f), replyId, written, join, order);
    UplinkFrame(s, f, r, replyId, written, join, order);
    if f == e {
      UplinkReplies(s, e, r, replyId, written, join, order);
      assert RequestNamed(cfg, s.names, s.edges[e].up[0]);
      ServeSingle(s.edges[e], n.edges[e], m);
    }
  }

  lemma UplinkReplies(s: Net, e: Edge, r: Router, replyId: string, written: bool, join: JoinResult, order: seq<string>)
    requires e in s.edges && e in s.ebox && r in s.routers && s.edges[e].up != []
    requires ListsKeys(order, Live(s.ebox[e].messages, s.now))
    ensures Replies(s, DoUplink(s, e, r, replyId, written, join, order), e, s.edges[e].up[0], written)
  {
    hide RequestOf, Serve, ListsKeys, Live, SameOwners, SameAgents;
    ServeReplies(PopUp(s, e), e, r, s.edges[e].up[0], replyId, written, join, order);
  }

  lemma PullSingle(cfg: Config, s: Net, f: Edge, replyId: string, written: bool, order: seq<string>, e: Edge,
                   m: Message)
    requires Shape(cfg, s) && f in cfg.edges && SingleIn(s, e, m) && ListsKeys(order, s.ebox[f].notifications)
    ensures
      var n := DoPull(s, f, written, order, replyId);
      SingleIn(n, e, m) && (WaitingIn(n, e, m) <==> WaitingIn(s, e, m))
  {
    hide ListsKeys, Single, Waiting, SameAgents, SameOwners, RequestOf, IsSubscription;
    PullFrame(s, f, written, order, replyId);
    if f == e {
      NotifySingle(s.edges[e], DoPull(s, f, written, order, replyId).edges[e], m);
    }
  }

  lemma DownlinkSingle(cfg: Config, s: Net, f: Edge, newIds: seq<string>, newId: string, e: Edge, m: Message)
    requires AllNamed(cfg, s) && f in cfg.edges && DownReady(s, f, newIds, newId) && SingleIn(s, e, m)
    ensures
      var n := DoDownlink(s, f, newIds, newId);
      SingleIn(n, e, m) && (WaitingIn(n, e, m) <==> WaitingIn(s, e, m))
  {
    hide RequestNamed, DoDownlink, Delivering, SameAgents, Settle, RequestOf, Single, Waiting, IsSubscription, Distinct;
    DownlinkFrame(s, f, newIds, newId);
    if f == e {
      var n, st := DoDownlink(s, e, newIds, newId).edges[e], s.edges[e];
      if st.down[0].body.Reply? {
        ReplySingle(st, n, m);
      } else {
        OtherSingle(st, n, m);
      }
    }
  }

  lemma EdgeSingle(cfg: Config, s: Net, f: Edge, step: EdgeStep, e: Edge, m: Message)
    requires AllNamed(cfg, s) && ValidConfig(cfg) && f in cfg.edges && EdgeEnabled(s, f, step) && SingleIn(s, e, m)
    ensures
      var n := EdgeApply(cfg, s, f, step);
      && SingleIn(n, e, m)
      && (WaitingIn(n, e, m) <==> WaitingIn(s, e, m) || Unheard(s, EdgeDoes(f, step), e, m))
  {
    hide DoUplink, DoPull, DoDownlink, Expire, ListsKeys, Live, DownReady, WriteFirst, SameAgents, SameOwners, Single,
         Waiting, RequestOf, IsSubscription;
    match step {
      case WriteStep(written) =>
        if f == e {
          assert RequestNamed(cfg, s.names, s.edges[e].out.queue[0]);
          WriteSingle(s.edges[e], DoWrite(s, e, written).edges[e], written, m);
        }
      case UplinkStep(replyId, written, join, order) =>
        UplinkSingle(cfg, s, f, replyId, written, join, order, e, m);
      case PullStep(replyId, written, order) => PullSingle(cfg, s, f, replyId, written, order, e, m);
      case DownlinkStep(newIds, newId) => DownlinkSingle(cfg, s, f, newIds, newId, e, m);
      case ExpireEdgeStep =>
    }
  }

  /** A step leaves `m` awaited with nothing under way exactly when its reply fails to be written, or it was so. */
  lemma StepSingle(cfg: Config, s: Net, step: Step, e: Edge, m: Message)
    requires AllNamed(cfg, s) && Enabled(cfg, s, step) && SingleIn(s, e, m)
    ensures
      var n := Apply(cfg, s, step);
      SingleIn(n, e, m) && (WaitingIn(n, e, m) <==> WaitingIn(s, e, m) || Unheard(s, step, e, m))
  {
    hide RequestsNamed, AgentApply, EdgeApply, AgentEnabled, EdgeEnabled, RouterEnabled, Single, Waiting, AfterPublish,
         FanOut, RequestOf, IsSubscription;
    match step {
      case AgentDoes(a, agent) => AgentSingle(cfg, s, a, agent, e, m);
      case EdgeDoes(f, edge) => EdgeSingle(cfg, s, f, edge, e, m);
      case RouterDoes(r, router) =>
      case Tick(now) =>
    }
  }

  // ---- when the router has the edge router ----

  /** The router accepts a Subscribe of `e` for the subject. */
  ghost predicate JoinsAnew(cfg: Config, s: Net, step: Step, e: Edge, subject: string) {
    && step.EdgeDoes? && step.e == e && step.edge.UplinkStep?
    && e in s.edges && s.edges[e].up != [] && RequestOf(s.edges[e].up[0]) == SubscribeTo(subject)
    && cfg.uplink(e) in s.routers && RouterSubscribe(s.routers[cfg.uplink(e)], e, subject, step.edge.join).1
  }

  lemma SubscribersAfter(st: RouterState, f: Edge, t: string, join: JoinResult, e: Edge, subject: string)
    ensures
      var (n, ok) := RouterSubscribe(st, f, t, join);
      && (e in Subscribers(n.table, subject) <==> e in Subscribers(st.table, subject) || (f == e && t == subject && ok))
      && (subject != "" && e in Subscribers(st.table, subject) ==> RouterSubscribe(st, e, subject, join).1)
  {
  }

  lemma SubscribersWithout(table: Table<Edge>, f: Edge, t: string, e: Edge, subject: string)
    ensures e in Subscribers(DropSubscriber(table, t, f), subject) <==>
      e in Subscribers(table, subject) && !(f == e && t == subject)
  {
  }

  lemma ServeJoined(cfg: Config, s: Net, f: Edge, r: Router, m: Message, replyId: string, written: bool,
                    join: JoinResult, order: seq<string>, e: Edge, subject: string)
    requires f in s.edges && f in s.ebox && r in s.routers && ListsKeys(order, Live(s.ebox[f].messages, s.now))
    requires subject != "" && (f == e ==> r == cfg.uplink(e))
    ensures
      var n := Serve(s, f, r, m, replyId, written, join, order);
      Joined(cfg, n, e, subject) <==>
        || (Joined(cfg, s, e, subject) && !(f == e && RequestOf(m) == WithdrawFrom(subject)))
        || (f == e && RequestOf(m) == SubscribeTo(subject) && RouterSubscribe(s.routers[r], e, subject, join).1)
  {
    hide RequestOf, DoRouterSubscribe, DoRouterUnsubscribe, DoRouterSend, DoReceive, ListsKeys, Live, SameAgents,
         SameOwners, Subscribers, RouterSubscribe, DropSubscriber;
    match RequestOf(m) {
      case SubscribeTo(t) =>
        RouterSubscribeFrame(s, r, f, m, t, join, replyId, written);
        SubscribersAfter(s.routers[r], f, t, join, e, subject);
      case WithdrawFrom(t) =>
        RouterUnsubscribeFrame(s, r, f, m, t, replyId, written);
        SubscribersWithout(s.routers[r].table, f, t, e, subject);
      case _ => OthersFrame(s, f, r, m, replyId, written, join, order);
    }
  }

  lemma UplinkJoins(cfg: Config, s: Net, f: Edge, replyId: string, written: bool, join: JoinResult,
                    order: seq<string>, e: Edge, subject: string)
    requires Shape(cfg, s) && ValidConfig(cfg) && f in cfg.edges && s.edges[f].up != [] && subject != ""
    requires ListsKeys(order, Live(s.ebox[f].messages, s.now))
    ensures
      var n, step := DoUplink(s, f, cfg.uplink(f), replyId, written, join, order),
                     EdgeDoes(f, UplinkStep(replyId, written, join, order));
      Joined(cfg, n, e, subject) <==>
        (Joined(cfg, s, e, subject) && !Withdraws(s, step, e, subject)) || JoinsAnew(cfg, s, step, e, subject)
  {
    hide RequestOf, Serve, ListsKeys, Live, SameAgents, Subscribers, RouterSubscribe;
    ServeJoined(cfg, PopUp(s, f), f, cfg.uplink(f), s.edges[f].up[0], replyId, written, join, order, e, subject);
  }

  lemma EdgeJoins(cfg: Config, s: Net, f: Edge, step: EdgeStep, e: Edge, subject: string)
    requires Shape(cfg, s) && ValidConfig(cfg) && f in cfg.edges && EdgeEnabled(s, f, step) && subject != ""
    ensures
      var n := EdgeApply(cfg, s, f, step);
      Joined(cfg, n, e, subject) <==>
        || (Joined(cfg, s, e, subject) && !Withdraws(s, EdgeDoes(f, step), e, subject))
        || JoinsAnew(cfg, s, EdgeDoes(f, step), e, subject)
  {
    hide DoUplink, DoPull, DoDownlink, Expire, ListsKeys, Live, DownReady, WriteFirst, SameAgents, SameOwners,
         RequestOf, Subscribers, RouterSubscribe;
    match step {
      case UplinkStep(replyId, written, join, order) =>
        UplinkJoins(cfg, s, f, replyId, written, join, order, e, subject);
      case PullStep(replyId, written, order) => PullFrame(s, f, written, order, replyId);
      case DownlinkStep(newIds, newId) => DownlinkFrame(s, f, newIds, newId);
      case _ =>
    }
  }

  lemma RouterJoins(cfg: Config, s: Net, r: Router, step: RouterStep, e: Edge, subject: string)
    requires r in s.routers && RouterEnabled(s, r, step)
    ensures Joined(cfg, RouterApply(cfg, s, r, step), e, subject) <==> Joined(cfg, s, e, subject)
  {
    hide Subscribers, AfterPublish, FanOut;
    if step.PublishStep? && cfg.uplink(e) in s.routers { PublishTables(s.routers, r, step.result, cfg.uplink(e)); }
  }

  /** The router's table gains the edge router when it accepts its Subscribe, and loses it when it handles its
      Unsubscribe, and at no other step. */
  lemma JoinedStep(cfg: Config, s: Net, step: Step, e: Edge, subject: string)
    requires Enabled(cfg, s, step) && subject != ""
    ensures Joined(cfg, Apply(cfg, s, step), e, subject) <==>
      (Joined(cfg, s, e, subject) && !Withdraws(s, step, e, subject)) || JoinsAnew(cfg, s, step, e, subject)
  {
    hide AgentApply, EdgeApply, RouterApply, AgentEnabled, EdgeEnabled, RouterEnabled, Subscribers, RequestOf,
         RouterSubscribe;
    match step {
      case AgentDoes(a, agent) => AgentFrame(cfg, s, a, agent);
      case EdgeDoes(f, edge) => EdgeJoins(cfg, s, f, edge, e, subject);
      case RouterDoes(r, router) => RouterJoins(cfg, s, r, router, e, subject);
      case Tick(_) =>
    }
  }

  // ---- a Subscribe that is given up ----

  /** An answer is awaited, none can come, and the router does not have the edge router for the subject. */
  ghost predicate Missed(cfg: Config, s: Net, e: Edge, subject: string, m: Message) {
    WaitingIn(s, e, m) && !Joined(cfg, s, e, subject)
  }

  /** The router refuses the Subscribe and its reply fails to be written; or it handles an Unsubscribe for the subject
      while the Subscribe, accepted with a reply that was lost, is still awaited. */
  ghost predicate GivesUp(cfg: Config, s: Net, step: Step, e: Edge, subject: string, m: Message) {
    || (Unheard(s, step, e, m) && !JoinsAnew(cfg, s, step, e, subject))
    || (WaitingIn(s, e, m) && Joined(cfg, s, e, subject) && Withdraws(s, step, e, subject))
  }

  lemma RefusedNotJoined(cfg: Config, s: Net, step: Step, e: Edge, subject: string, uuid: string)
    requires Enabled(cfg, s, step) && subject != "" && Unheard(s, step, e, SubjectRequest(uuid, subject))
    ensures !JoinsAnew(cfg, s, step, e, subject) ==> !Joined(cfg, s, e, subject)
    ensures !Withdraws(s, step, e, subject)
  {
    SubjectRequestForm(uuid, subject);
    hide RequestOf, SubjectRequest, RouterSubscribe, Subscribers, EdgeEnabled;
    SubscribersAfter(s.routers[cfg.uplink(e)], e, subject, step.edge.join, e, subject);
  }

  /** Exactly when a step leaves a Subscribe awaited for nothing, and exactly when that ends. */
  lemma MissedExactly(cfg: Config, s: Net, step: Step, e: Edge, subject: string, uuid: string)
    requires AllNamed(cfg, s) && Enabled(cfg, s, step) && subject != "" && SingleIn(s, e, SubjectRequest(uuid, subject))
    ensures
      var m, n := SubjectRequest(uuid, subject), Apply(cfg, s, step);
      Missed(cfg, n, e, subject, m) <==>
        if Missed(cfg, s, e, subject, m) then !JoinsAnew(cfg, s, step, e, subject)
        else GivesUp(cfg, s, step, e, subject, m)
  {
    hide AllNamed, Apply, Enabled, SubjectRequest, SingleIn, WaitingIn, Joined, Withdraws, JoinsAnew, Unheard;
    var m := SubjectRequest(uuid, subject);
    StepSingle(cfg, s, step, e, m);
    JoinedStep(cfg, s, step, e, subject);
    WithdrawsApart(cfg, s, step, e, subject);
    if Unheard(s, step, e, m) { RefusedNotJoined(cfg, s, step, e, subject, uuid); }
  }

  lemma WithdrawsApart(cfg: Config, s: Net, step: Step, e: Edge, subject: string)
    ensures !(Withdraws(s, step, e, subject) && JoinsAnew(cfg, s, step, e, subject))
  {
  }

  lemma FirstSingle(cfg: Config, s: Net, step: Step, e: Edge, subject: string, uuid: string)
    requires AllNamed(cfg, s) && Enabled(cfg, s, step) && FirstSubscribe(cfg, s, step, e, subject, uuid)
    ensures
      var m, n := SubjectRequest(uuid, subject), Apply(cfg, s, step);
      SingleIn(n, e, m) && !WaitingIn(n, e, m)
  {
    SubjectRequestForm(uuid, subject);
    hide AddSubscriber, Subscribers, SubjectRequest, Single, Waiting, RequestOf, IsSubscription;
    var m, st, n := SubjectRequest(uuid, subject), s.edges[e], Apply(cfg, s, step);
    assert RequestsNamed(cfg, s.names, st);
    NewSingle(st, n.edges[e], m);
  }

  lemma {:induction false} RunSingle(cfg: Config, run: seq<Net>, steps: seq<Step>, k: nat, n: nat, e: Edge,
                                     subject: string, uuid: string)
    requires IsRun(cfg, run, steps) && k < n < |run| && FirstSubscribe(cfg, run[k], steps[k], e, subject, uuid)
    ensures SingleIn(run[n], e, SubjectRequest(uuid, subject)) && AllNamed(cfg, run[n])
    decreases n
  {
    hide AllNamed, Init, Enabled, Apply, FirstSubscribe, SubjectRequest, SingleIn, WaitingIn;
    RunNamed(cfg, run, steps, n - 1);
    RunNamed(cfg, run, steps, n);
    if n == k + 1 {
      FirstSingle(cfg, run[k], steps[k], e, subject, uuid);
    } else {
      RunSingle(cfg, run, steps, k, n - 1, e, subject, uuid);
      StepSingle(cfg, run[n - 1], steps[n - 1], e, SubjectRequest(uuid, subject));
    }
  }

  ghost predicate EverMissed(cfg: Config, run: seq<Net>, k: nat, n: nat, e: Edge, subject: string, m: Message)
    requires n < |run|
  {
    exists i :: k < i <= n && Missed(cfg, run[i], e, subject, m)
  }

  ghost predicate EverGivesUp(cfg: Config, run: seq<Net>, steps: seq<Step>, k: nat, n: nat, e: Edge, subject: string,
                              m: Message)
    requires n <= |steps| < |run|
  {
    exists i :: k < i < n && GivesUp(cfg, run[i], steps[i], e, subject, m)
  }

  lemma MissedMore(cfg: Config, run: seq<Net>, steps: seq<Step>, k: nat, n: nat, e: Edge, subject: string, m: Message)
    requires k + 1 < n <= |steps| < |run|
    ensures EverMissed(cfg, run, k, n, e, subject, m) <==>
      EverMissed(cfg, run, k, n - 1, e, subject, m) || Missed(cfg, run[n], e, subject, m)
    ensures EverGivesUp(cfg, run, steps, k, n, e, subject, m) <==>
      EverGivesUp(cfg, run, steps, k, n - 1, e, subject, m) || GivesUp(cfg, run[n - 1], steps[n - 1], e, subject, m)
    ensures Missed(cfg, run[n - 1], e, subject, m) ==> EverMissed(cfg, run, k, n - 1, e, subject, m)
  {
    hide Missed, GivesUp;
  }

  /** In every run: a first Subscribe is ever left awaited for nothing if and only if some step gives it up. */
  lemma {:induction false} RunMissedExactly(cfg: Config, run: seq<Net>, steps: seq<Step>, k: nat, n: nat, e: Edge,
                                            subject: string, uuid: string)
    requires IsRun(cfg, run, steps) && k < n < |run| && FirstSubscribe(cfg, run[k], steps[k], e, subject, uuid)
    ensures
      var m := SubjectRequest(uuid, subject);
      EverMissed(cfg, run, k, n, e, subject, m) <==> EverGivesUp(cfg, run, steps, k, n, e, subject, m)
    decreases n
  {
    hide AllNamed, Init, Enabled, Apply, FirstSubscribe, SubjectRequest, SingleIn, WaitingIn, GivesUp, Joined;
    var m := SubjectRequest(uuid, subject);
    if n == k + 1 {
      RunNamed(cfg, run, steps, k);
      FirstSingle(cfg, run[k], steps[k], e, subject, uuid);
    } else {
      RunMissedExactly(cfg, run, steps, k, n - 1, e, subject, uuid);
      MissedMore(cfg, run, steps, k, n, e, subject, m);
      hide EverMissed, EverGivesUp, Missed;
      RunSingle(cfg, run, steps, k, n - 1, e, subject, uuid);
      FirstHasSubject(cfg, run[k], steps[k], e, subject, uuid);
      MissedExactly(cfg, run[n - 1], steps[n - 1], e, subject, uuid);
    }
  }

  // ---- a subject that is no agent's MRN ----

  /** Only these of the edge router's requests ask for the subject. */
  ghost predicate Asks(st: EdgeState, subject: string, allowed: set<Message>) {
    && (forall x :: x in st.out.queue && RequestOf(x) == SubscribeTo(subject) ==> x in allowed)
    && (forall x :: x in st.up && RequestOf(x) == SubscribeTo(subject) ==> x in allowed)
    && (forall u :: u in st.out.awaiting && RequestOf(st.out.awaiting[u]) == SubscribeTo(subject) ==>
          st.out.awaiting[u] in allowed)
  }

  lemma WriteAsks(st: EdgeState, n: EdgeState, written: bool, subject: string, allowed: set<Message>)
    requires Asks(st, subject, allowed) && st.out.queue != [] && n.out == WriteFirst(st.out, written)
    requires
      var x := st.out.queue[0];
      n.up == if written && x.msgType.ProtocolMessage? then st.up + [x] else st.up
    ensures Asks(n, subject, allowed)
  {
    hide RequestOf;
    assert forall x :: x in st.out.queue ==> x == st.out.queue[0] || x in st.out.queue[1..];
  }

  lemma LessAsks(st: EdgeState, n: EdgeState, subject: string, allowed: set<Message>)
    requires Asks(st, subject, allowed)
    requires forall x :: x in n.up ==> x in st.up
    requires forall u :: u in n.out.awaiting ==> u in st.out.awaiting && n.out.awaiting[u] == st.out.awaiting[u]
    requires forall x :: x in n.out.queue ==>
      || x in st.out.queue || RequestOf(x) != SubscribeTo(subject)
      || exists u :: u in st.out.awaiting && st.out.awaiting[u] == x
    ensures Asks(n, subject, allowed)
  {
    hide RequestOf;
  }

  lemma EdgeAsks(cfg: Config, s: Net, f: Edge, step: EdgeStep, e: Edge, subject: string, allowed: set<Message>)
    requires AllNamed(cfg, s) && ValidConfig(cfg) && f in cfg.edges && e in cfg.edges && EdgeEnabled(s, f, step)
    requires Asks(s.edges[e], subject, allowed)
    ensures Asks(EdgeApply(cfg, s, f, step).edges[e], subject, allowed)
  {
    hide DoUplink, DoPull, DoDownlink, Expire, ListsKeys, Live, DownReady, WriteFirst, SameAgents, RequestOf, Asks,
         RequestsNamed;
    var n := EdgeApply(cfg, s, f, step);
    match step {
      case WriteStep(written) =>
        if f == e { WriteAsks(s.edges[e], n.edges[e], written, subject, allowed); }
      case UplinkStep(replyId, written, join, order) =>
        UplinkFrame(s, f, cfg.uplink(f), replyId, written, join, order);
        if f == e { LessAsks(s.edges[e], n.edges[e], subject, allowed); }
      case PullStep(replyId, written, order) =>
        PullFrame(s, f, written, order, replyId);
        if f == e { LessAsks(s.edges[e], n.edges[e], subject, allowed); }
      case DownlinkStep(newIds, newId) =>
        if f == e { UnpackAsks(s, e, newIds, newId, subject, allowed); } else { DownlinkFrame(s, f, newIds, newId); }
      case ExpireEdgeStep =>
    }
  }

  lemma UnpackAsks(s: Net, e: Edge, newIds: seq<string>, newId: string, subject: string, allowed: set<Message>)
    requires e in s.edges && DownReady(s, e, newIds, newId) && Asks(s.edges[e], subject, allowed)
    ensures
      var n := DoDownlink(s, e, newIds, newId);
      e in n.edges && Asks(n.edges[e], subject, allowed)
  {
    hide DoDownlink, Distinct, FreshFor, Delivering, Asks, Settle, PushesReceive, SameOwners, SameAgents;
    DownlinkFrame(s, e, newIds, newId);
    var n := DoDownlink(s, e, newIds, newId);
    DownlinkAsks(s.edges[e], n.edges[e], n.names, newId, subject, allowed);
  }

  lemma DownlinkAsks(st: EdgeState, n: EdgeState, names: Store, newId: string, subject: string, allowed: set<Message>)
    requires Asks(st, subject, allowed) && st.down != [] && n.up == st.up
    requires
      if st.down[0].body.Reply? then n.out == Settle(st.out, st.down[0].body.response)
      else n.out == st.out || PushesReceive(st.out, n.out, names, newId)
    ensures Asks(n, subject, allowed)
  {
    hide RequestOf, Asks;
    LessAsks(st, n, subject, allowed);
  }

  /** What an agent's step makes its edge router push asks for the subject only when it is the first Subscribe. */
  lemma AgentAsks(cfg: Config, s: Net, a: Agent, step: AgentStep, e: Edge, subject: string, allowed: set<Message>)
    requires Shape(cfg, s) && ValidConfig(cfg) && a in cfg.agents && e in cfg.edges && AgentEnabled(cfg, s, a, step)
    requires Asks(s.edges[e], subject, allowed) && cfg.mrn(a) != subject
    requires forall uuid :: FirstSubscribe(cfg, s, AgentDoes(a, step), e, subject, uuid) ==>
      SubjectRequest(uuid, subject) in allowed
    ensures Asks(AgentApply(cfg, s, a, step).edges[e], subject, allowed)
  {
    if OwnBox(step) {
      hide AgentApply, AgentEnabled, Asks;
      OwnBoxFrame(cfg, s, a, step);
    } else {
      PushAsks(cfg, s, a, step, e, subject, allowed);
    }
  }

  lemma PushAsks(cfg: Config, s: Net, a: Agent, step: AgentStep, e: Edge, subject: string, allowed: set<Message>)
    requires Shape(cfg, s) && ValidConfig(cfg) && a in cfg.agents && e in cfg.edges && AgentEnabled(cfg, s, a, step)
    requires Asks(s.edges[e], subject, allowed) && cfg.mrn(a) != subject && !OwnBox(step)
    requires forall uuid :: FirstSubscribe(cfg, s, AgentDoes(a, step), e, subject, uuid) ==>
      SubjectRequest(uuid, subject) in allowed
    ensures Asks(AgentApply(cfg, s, a, step).edges[e], subject, allowed)
  {
    hide Acceptable, FanOut, SendTargets, SameAgents, DoSubscribe, DropSubscriber, SubjectRequest, WithdrawRequest,
         SendMessage, RequestOf, Asks, FreshFor, FirstSubscribe, Push;
    match step {
      case SubscribeStep(t, uuid) => SubscribeAsks(cfg, s, a, t, uuid, e, subject, allowed);
      case UnsubscribeStep(t) =>
        LessAsks(s.edges[e], AgentApply(cfg, s, a, step).edges[e], subject, allowed);
      case SubscribeDirectStep(uuid) =>
        SubjectRequestForm(uuid, cfg.mrn(a));
        PushAsksOne(s, cfg.home(a), SubjectRequest(uuid, cfg.mrn(a)), e, subject, allowed);
      case UnsubscribeDirectStep(uuid) =>
        OthersAskNot(uuid, cfg.mrn(a), AppMessage(None, SendId("", 0)), subject);
        PushAsksOne(s, cfg.home(a), WithdrawRequest(uuid, cfg.mrn(a)), e, subject, allowed);
      case SendStep(uuid, app) =>
        OthersAskNot(uuid, "", app, subject);
        PushAsksOne(s, cfg.home(a), SendMessage(uuid, app), e, subject, allowed);
    }
  }

  lemma PushAsksOne(s: Net, f: Edge, x: Message, e: Edge, subject: string, allowed: set<Message>)
    requires f in s.edges && e in s.edges && Asks(s.edges[e], subject, allowed) && RequestOf(x) != SubscribeTo(subject)
    ensures
      var n := Push(s, f, x);
      e in n.edges && Asks(n.edges[e], subject, allowed)
  {
    hide RequestOf, Asks;
    MoreAsks(s.edges[e], Push(s, f, x).edges[e], x, subject, allowed);
  }

  lemma SubscribeAsks(cfg: Config, s: Net, a: Agent, t: string, uuid: string, e: Edge, subject: string,
                      allowed: set<Message>)
    requires Shape(cfg, s) && ValidConfig(cfg) && a in cfg.agents && e in cfg.edges
    requires Asks(s.edges[e], subject, allowed)
    requires FirstSubscribe(cfg, s, AgentDoes(a, SubscribeStep(t, uuid)), e, subject, uuid) ==>
      SubjectRequest(uuid, subject) in allowed
    ensures
      var n := DoSubscribe(s, cfg.home(a), a, t, uuid);
      e in n.edges && Asks(n.edges[e], subject, allowed)
  {
    hide SameAgents, SameOwners, AddSubscriber, SubjectRequest, RequestOf, Asks;
    SubjectRequestForm(uuid, t);
    MoreAsks(s.edges[e], DoSubscribe(s, cfg.home(a), a, t, uuid).edges[e], SubjectRequest(uuid, t), subject, allowed);
  }

  lemma OthersAskNot(uuid: string, mrn: string, app: AppMessage, subject: string)
    ensures RequestOf(WithdrawRequest(uuid, mrn)) != SubscribeTo(subject)
    ensures RequestOf(SendMessage(uuid, app)) != SubscribeTo(subject)
  {
  }

  lemma MoreAsks(st: EdgeState, n: EdgeState, x: Message, subject: string, allowed: set<Message>)
    requires Asks(st, subject, allowed)
    requires n.up == st.up && n.out.awaiting == st.out.awaiting
    requires n.out.queue == st.out.queue || n.out.queue == st.out.queue + [x]
    requires n.out.queue != st.out.queue && RequestOf(x) == SubscribeTo(subject) ==> x in allowed
    ensures Asks(n, subject, allowed)
  {
    hide RequestOf;
  }

  lemma StepAsks(cfg: Config, s: Net, step: Step, e: Edge, subject: string, allowed: set<Message>)
    requires AllNamed(cfg, s) && Enabled(cfg, s, step) && e in cfg.edges && Asks(s.edges[e], subject, allowed)
    requires forall a :: a in cfg.agents ==> cfg.mrn(a) != subject
    requires forall uuid :: FirstSubscribe(cfg, s, step, e, subject, uuid) ==> SubjectRequest(uuid, subject) in allowed
    ensures e in Apply(cfg, s, step).edges && Asks(Apply(cfg, s, step).edges[e], subject, allowed)
  {
    hide RequestsNamed, AgentApply, EdgeApply, RouterApply, AgentEnabled, EdgeEnabled, RouterEnabled, Asks,
         SubjectRequest, FirstSubscribe;
    match step {
      case AgentDoes(a, agent) => AgentAsks(cfg, s, a, agent, e, subject, allowed);
      case EdgeDoes(f, edge) => EdgeAsks(cfg, s, f, edge, e, subject, allowed);
      case RouterDoes(r, router) => RouterKeys(cfg, s, r, router, e);
      case Tick(now) =>
    }
  }

  lemma AsksMore(st: EdgeState, subject: string, m: Message)
    requires Asks(st, subject, {})
    ensures Asks(st, subject, {m})
  {
  }

  lemma StartAsks(cfg: Config, s: Net, e: Edge, subject: string)
    requires Init(cfg, s) && e in cfg.edges
    ensures e in s.edges && Asks(s.edges[e], subject, {})
  {
  }

  /** As long as a subject is no key, nothing asks for it. */
  lemma {:induction false} NoneAsks(cfg: Config, run: seq<Net>, steps: seq<Step>, n: nat, e: Edge, subject: string)
    requires IsRun(cfg, run, steps) && n < |run| && e in cfg.edges && !HasKey(run[n], e, subject)
    requires forall a :: a in cfg.agents ==> cfg.mrn(a) != subject
    ensures e in run[n].edges && Asks(run[n].edges[e], subject, {})
  {
    hide Init, Enabled, Apply, Asks, HasKey, AllNamed, FirstSubscribe;
    if n == 0 {
      StartAsks(cfg, run[0], e, subject);
    } else {
      KeyStep(cfg, run[n - 1], steps[n - 1], e, subject);
      NoneAsks(cfg, run, steps, n - 1, e, subject);
      RunNamed(cfg, run, steps, n - 1);
      StepAsks(cfg, run[n - 1], steps[n - 1], e, subject, {});
    }
  }

  lemma FirstOnly(cfg: Config, s: Net, step: Step, e: Edge, subject: string, uuid: string, other: string)
    requires FirstSubscribe(cfg, s, step, e, subject, uuid) && FirstSubscribe(cfg, s, step, e, subject, other)
    ensures other == uuid
  {
  }

  lemma FirstOpens(cfg: Config, s: Net, step: Step, e: Edge, subject: string, uuid: string)
    requires Enabled(cfg, s, step) && FirstSubscribe(cfg, s, step, e, subject, uuid)
    ensures !HasKey(s, e, subject) && HasKey(Apply(cfg, s, step), e, subject)
  {
    hide Apply, Enabled;
    KeyStep(cfg, s, step, e, subject);
    assert Opens(cfg, s, step, e, subject);
  }

  /** From the first Subscribe on, it is the only request for the subject. */
  lemma {:induction false} OneAsks(cfg: Config, run: seq<Net>, steps: seq<Step>, k: nat, n: nat, e: Edge,
                                   subject: string, uuid: string)
    requires IsRun(cfg, run, steps) && k < n < |run| && FirstSubscribe(cfg, run[k], steps[k], e, subject, uuid)
    requires forall a :: a in cfg.agents ==> cfg.mrn(a) != subject
    ensures e in run[n].edges && Asks(run[n].edges[e], subject, {SubjectRequest(uuid, subject)})
    decreases n
  {
    hide Init, Enabled, Apply, Asks, HasKey, AllNamed, FirstSubscribe, SubjectRequest;
    RunNamed(cfg, run, steps, n - 1);
    FirstHasSubject(cfg, run[k], steps[k], e, subject, uuid);
    FirstOpens(cfg, run[k], steps[k], e, subject, uuid);
    if n == k + 1 {
      NoneAsks(cfg, run, steps, k, e, subject);
      AsksMore(run[k].edges[e], subject, SubjectRequest(uuid, subject));
      forall other | FirstSubscribe(cfg, run[k], steps[k], e, subject, other) ensures other == uuid {
        FirstOnly(cfg, run[k], steps[k], e, subject, uuid, other);
      }
    } else {
      OneAsks(cfg, run, steps, k, n - 1, e, subject, uuid);
      KeysGrow(cfg, run, steps, k + 1, n - 1, e, subject);
      KeyStep(cfg, run[n - 1], steps[n - 1], e, subject);
    }
    StepAsks(cfg, run[n - 1], steps[n - 1], e, subject, {SubjectRequest(uuid, subject)});
  }

  /** Nothing else asks for it, so what is given up stays so. */
  lemma StaysMissed(cfg: Config, s: Net, step: Step, e: Edge, subject: string, m: Message)
    requires Missed(cfg, s, e, subject, m) && Asks(s.edges[e], subject, {m})
    ensures !JoinsAnew(cfg, s, step, e, subject)
  {
    hide RequestOf;
    var st := s.edges[e];
    if st.up != [] && st.up[0] == m { SumPop(st.up, Same(m)); }
  }

  lemma {:induction false} MissedForEver(cfg: Config, run: seq<Net>, steps: seq<Step>, k: nat, i: nat, n: nat, e: Edge,
                                         subject: string, uuid: string)
    requires IsRun(cfg, run, steps) && k < i <= n < |run| && FirstSubscribe(cfg, run[k], steps[k], e, subject, uuid)
    requires forall a :: a in cfg.agents ==> cfg.mrn(a) != subject
    requires Missed(cfg, run[i], e, subject, SubjectRequest(uuid, subject))
    ensures Missed(cfg, run[n], e, subject, SubjectRequest(uuid, subject))
    decreases n
  {
    hide Init, Enabled, Apply, Asks, AllNamed, FirstSubscribe, SubjectRequest, Missed, SingleIn, GivesUp, JoinsAnew;
    if i < n {
      MissedForEver(cfg, run, steps, k, i, n - 1, e, subject, uuid);
      OneAsks(cfg, run, steps, k, n - 1, e, subject, uuid);
      RunSingle(cfg, run, steps, k, n - 1, e, subject, uuid);
      FirstHasSubject(cfg, run[k], steps[k], e, subject, uuid);
      StaysMissed(cfg, run[n - 1], steps[n - 1], e, subject, SubjectRequest(uuid, subject));
      MissedExactly(cfg, run[n - 1], steps[n - 1], e, subject, uuid);
    }
  }

  /** Whether a subject that is no agent's MRN is covered, once and for all: when its first Subscribe is neither queued
      nor on the link, and no answer to it is on its way, the router has the edge router for the subject if and only if
      the Subscribe was never refused with a reply that was lost. */
  lemma AcceptedUnlessGivenUp(cfg: Config, run: seq<Net>, steps: seq<Step>, k: nat, n: nat, e: Edge, subject: string,
                              uuid: string)
    requires IsRun(cfg, run, steps) && k < n < |run| && FirstSubscribe(cfg, run[k], steps[k], e, subject, uuid)
    requires forall a :: a in cfg.agents ==> cfg.mrn(a) != subject
    ensures e in run[n].edges
    ensures
      var m := SubjectRequest(uuid, subject);
      && (EverGivesUp(cfg, run, steps, k, n, e, subject, m) ==> !Joined(cfg, run[n], e, subject))
      && (Places(run[n].edges[e], m) == 0 ==>
           (Joined(cfg, run[n], e, subject) <==> !EverGivesUp(cfg, run, steps, k, n, e, subject, m)))
  {
    var m := SubjectRequest(uuid, subject);
    OneAsks(cfg, run, steps, k, n, e, subject, uuid);
    RunMissedExactly(cfg, run, steps, k, n, e, subject, uuid);
    SubjectsApart(cfg, run, steps, n, e, subject);
    FirstSubscribeStays(cfg, run, steps, k, n, e, subject, uuid);
    hide IsRun, FirstSubscribe, NoWithdrawal, Asks, EverGivesUp, SubjectRequest, Joined, Places;
    if EverMissed(cfg, run, k, n, e, subject, m) {
      var i :| k < i <= n && Missed(cfg, run[i], e, subject, m);
      MissedForEver(cfg, run, steps, k, i, n, e, subject, uuid);
    } else if Places(run[n].edges[e], m) == 0 {
      NotQueued(run[n].edges[e], m);
      assert !Missed(cfg, run[n], e, subject, m);
      SubjectRequestForm(uuid, subject);
    }
  }

  /** No local subscriber of such a subject is missed, unless the edge router's first Subscribe was given up. */
  lemma SubscribersReached(cfg: Config, run: seq<Net>, steps: seq<Step>, n: nat, e: Edge, a: Agent, subject: string)
    returns (k: nat, uuid: string)
    requires IsRun(cfg, run, steps) && n < |run| && e in run[n].edges && a in Subscribers(run[n].edges[e].subs, subject)
    requires forall b :: b in cfg.agents ==> cfg.mrn(b) != subject
    ensures k < n && FirstAt(cfg, run, steps, k, e, subject, uuid)
    ensures
      var m := SubjectRequest(uuid, subject);
      Places(run[n].edges[e], m) == 0 ==>
        (Joined(cfg, run[n], e, subject) <==> !EverGivesUp(cfg, run, steps, k, n, e, subject, m))
  {
    hide IsRun, FirstSubscribe, Joined, Places, EverGivesUp, SubjectRequest;
    k, uuid := KeyHasFirst(cfg, run, steps, n, e, subject);
    AcceptedUnlessGivenUp(cfg, run, steps, k, n, e, subject, uuid);
  }

  lemma {:induction false} SumHas(q: seq<Message>, m: Message)
    requires m in q
    ensures Sum(q, Same(m)) > 0
  {
    if q[0] != m { SumHas(q[1..], m); }
  }

  lemma NotQueued(st: EdgeState, m: Message)
    requires Places(st, m) == 0
    ensures m !in st.out.queue
  {
    if m in st.out.queue { SumHas(st.out.queue, m); }
  }
}
