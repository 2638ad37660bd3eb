/** The potential of an accepted Send `t` for an agent `a`: the copies the agent holds or was given, and those
    on the way that can still become one. No step raises it; and while the subject's tables serve the agent and
    the message is live, only a failed publication lowers it. */
module PotentialSpec {
  import opened Mmtp
  import opened MailboxSpec
  import opened Routing
  import opened Network
  import opened NetworkInvariant
  import opened NetworkSteps
  import opened Copies

  /** Copies in the outgoing channel and on the link of the edge router that accepted the Send. */
  function AtOrigin(s: Net, t: SendId): nat {
    if t.edge in s.edges then Sum(s.edges[t.edge].out.queue, Tagged(t)) + Sum(s.edges[t.edge].up, Tagged(t)) else 0
  }

  /** Copies waiting for publication at the router of that edge router. */
  function AtFirstRouter(cfg: Config, s: Net, t: SendId): nat {
    if cfg.uplink(t.edge) in s.routers then Sum(s.routers[cfg.uplink(t.edge)].out, Tagged(t)) else 0
  }

  /** Copies published to router `r` and not yet fanned out there. */
  function AtRouter(s: Net, r: Router, t: SendId): nat
    requires r in s.routers
  {
    Sum(s.routers[r].pub, Foreign(r, t)) + Sum(s.routers[r].inbox, Tagged(t))
  }

  /** Copies in the mailbox of `e` at its router and on the link down to `e`. */
  function ForEdge(s: Net, e: Edge, t: SendId): nat
    requires e in s.edges && e in s.ebox
  {
    CountStore(s.ebox[e].messages, t) + Sum(s.edges[e].down, InReply(t))
  }

  /** Copies in the mailbox of the agent and copies it was given. */
  function AgentCopies(s: Net, a: Agent, t: SendId): nat
    requires a in s.abox && a in s.delivered
  {
    CountStore(s.abox[a].messages, t) + Sum(s.delivered[a], InStore(t))
  }

  ghost predicate Has(cfg: Config, s: Net, a: Agent) {
    ValidConfig(cfg) && Shape(cfg, s) && a in cfg.agents
  }

  ghost function Potential(cfg: Config, s: Net, a: Agent, t: SendId): nat
    requires Has(cfg, s, a)
  {
    var e := cfg.home(a);
    var r := cfg.uplink(e);
    (if e != t.edge then AtOrigin(s, t) else 0)
    + (if r != cfg.uplink(t.edge) then AtFirstRouter(cfg, s, t) else 0)
    + AtRouter(s, r, t) + ForEdge(s, e, t) + AgentCopies(s, a, t)
  }

  /** In this state the tables serve `a` with the subject of `t`, the message is live and within the expiry
      limit, and the UUIDs of its copies are of version 4. */
  ghost predicate Served(cfg: Config, s: Net, a: Agent, t: SendId)
    requires Has(cfg, s, a)
  {
    var e := cfg.home(a);
    && t in s.sent && InWindow(s.sent[t], s.now)
    && a in Subscribers(s.edges[e].subs, SubjectOf(s.sent[t]))
    && (e != t.edge ==> e in Subscribers(s.routers[cfg.uplink(e)].table, SubjectOf(s.sent[t])))
    && (forall u :: u in s.names && TagCount(s.names[u], t) == 1 ==> cfg.v4(u))
  }

  function SubjectCarried(m: Message): string {
    if AppOf(m).Some? then SubjectOf(AppOf(m).value) else ""
  }

  /** The step is a publication of a copy of `t` that fails. */
  ghost predicate LosesPublication(s: Net, step: Step, t: SendId) {
    && step.RouterDoes? && step.router.PublishStep?
    && step.r in s.routers && s.routers[step.r].out != []
    && TagCount(s.routers[step.r].out[0], t) == 1
    && match step.router.result
       case Published => false
       case PublishFailed => true
       case PublishJoinFailed => SubjectCarried(s.routers[step.r].out[0]) !in s.routers[step.r].topics
  }

  /** What a step may do to the potential: never raise it, and keep it while `a` is served and holds at most
      one copy. */
  ghost predicate Holds(cfg: Config, s: Net, n: Net, a: Agent, t: SendId)
    requires Has(cfg, s, a) && Has(cfg, n, a)
  {
    && Potential(cfg, n, a, t) <= Potential(cfg, s, a, t)
    && (Served(cfg, s, a, t) && Potential(cfg, s, a, t) <= 1 ==> Potential(cfg, n, a, t) == Potential(cfg, s, a, t))
  }

  // ---- the five parts, when a step leaves them alone ----

  lemma EdgeFrame(cfg: Config, s: Net, e: Edge, st: EdgeState, a: Agent, t: SendId)
    requires Has(cfg, s, a) && e in cfg.edges
    requires Sum(st.out.queue, Tagged(t)) + Sum(st.up, Tagged(t))
          == Sum(s.edges[e].out.queue, Tagged(t)) + Sum(s.edges[e].up, Tagged(t))
    requires Sum(st.down, InReply(t)) == Sum(s.edges[e].down, InReply(t))
    ensures Potential(cfg, s.(edges := s.edges[e := st]), a, t) == Potential(cfg, s, a, t)
  {
    hide CountStore, Sum;
  }

  /** Pushing a request adds to the potential at most at the origin of the Send. */
  lemma PushPotential(cfg: Config, s: Net, e: Edge, m: Message, a: Agent, t: SendId)
    requires Has(cfg, s, a) && e in cfg.edges && (TagCount(m, t) == 1 ==> t.edge == e)
    ensures Potential(cfg, Push(s, e, m), a, t)
         == Potential(cfg, s, a, t) + (if cfg.home(a) != e then TagCount(m, t) else 0)
  {
    SumSnoc(s.edges[e].out.queue, m, Tagged(t));
    hide CountStore, Sum, TagCount;
  }

  /** Fanning out to agents changes the potential by what it changes in the mailbox of `a`. */
  lemma FanOutPotential(cfg: Config, s: Net, boxes: map<Agent, Box>, a: Agent, t: SendId)
    requires Has(cfg, s, a) && boxes.Keys == s.abox.Keys
    ensures Potential(cfg, s.(abox := boxes), a, t) + CountStore(s.abox[a].messages, t)
         == Potential(cfg, s, a, t) + CountStore(boxes[a].messages, t)
  {
    hide CountStore, Sum;
  }

  lemma PastPotential(cfg: Config, s: Net, names: Store, sent: map<SendId, AppMessage>, a: Agent, t: SendId)
    requires Has(cfg, s, a)
    ensures Potential(cfg, s.(names := names, sent := sent), a, t) == Potential(cfg, s, a, t)
  {
    hide CountStore, Sum;
  }

  // ---- the agent's own steps ----

  lemma SendPotential(cfg: Config, s: Net, e: Edge, b: Agent, uuid: string, app: AppMessage, a: Agent, t: SendId)
    requires Inv(cfg, s) && b in cfg.agents && e == cfg.home(b) && a in cfg.agents
    requires AgentEnabled(cfg, s, b, SendStep(uuid, app))
    ensures
      var n := DoSend(cfg, s, e, b, uuid, app);
      && (app.tag != t ==> Potential(cfg, n, a, t) == Potential(cfg, s, a, t))
      && (app.tag == t ==> Potential(cfg, n, a, t) <= Potential(cfg, s, a, t) + 1)
      && (app.tag == t && (cfg.home(a) != e || a in SendTargets(cfg, s.edges[e].subs, b, app)) ==>
           Potential(cfg, n, a, t) == Potential(cfg, s, a, t) + 1)
  {
    hide AllOk, CountStore, Sum, FanOut, SendTargets, Potential;
    var m, targets := SendMessage(uuid, app), SendTargets(cfg, s.edges[e].subs, b, app);
    TargetsAtHome(cfg, s, e, b, app, a);
    AgentKeysNamed(cfg, s, a);
    CountFanOut(s.abox, targets, m, a, t);
    PushPotential(cfg, s, e, m, a, t);
    var s1 := Push(s, e, m);
    var boxes := FanOut(s.abox, targets, m);
    FanOutPotential(cfg, s1, boxes, a, t);
    PastPotential(cfg, s1.(abox := boxes), s1.names, s.sent[app.tag := app], a, t);
  }

  lemma TargetsAtHome(cfg: Config, s: Net, e: Edge, b: Agent, app: AppMessage, a: Agent)
    requires Inv(cfg, s) && e in cfg.edges
    ensures a in SendTargets(cfg, s.edges[e].subs, b, app) ==> cfg.home(a) == e
  {
    hide AllOk;
    InvTable(cfg, s, e);
  }

  lemma AgentKeysNamed(cfg: Config, s: Net, a: Agent)
    requires Inv(cfg, s) && a in cfg.agents
    ensures forall u :: u in s.abox[a].messages ==> u in s.names
  {
    hide EdgeOk, RouterOk, EdgeBoxOk, DeliveredOk, ForAgent;
    assert AgentBoxOk(cfg, PastOf(s), a, s.abox[a]);
  }

  /** A live Send has only live copies in an agent's mailbox. */
  lemma AgentCopiesLive(cfg: Config, s: Net, a: Agent, b: Agent, t: SendId)
    requires Inv(cfg, s) && a in cfg.agents && b in cfg.agents && Served(cfg, s, a, t)
    ensures TaggedKeys(s.abox[b].messages, t) <= Live(s.abox[b].messages, s.now).Keys
  {
    hide EdgeOk, RouterOk, EdgeBoxOk, DeliveredOk;
    assert AgentBoxOk(cfg, PastOf(s), b, s.abox[b]);
  }

  lemma EdgeCopiesLive(cfg: Config, s: Net, a: Agent, e: Edge, t: SendId)
    requires Inv(cfg, s) && a in cfg.agents && e in cfg.edges && Served(cfg, s, a, t)
    ensures TaggedKeys(s.ebox[e].messages, t) <= Live(s.ebox[e].messages, s.now).Keys
  {
    hide EdgeOk, RouterOk, AgentBoxOk, DeliveredOk;
    assert EdgeBoxOk(PastOf(s), e, s.ebox[e]);
  }

  lemma AgentsPotential(cfg: Config, s: Net, boxes: map<Agent, Box>, delivered: map<Agent, seq<Store>>, a: Agent,
                        t: SendId)
    requires Has(cfg, s, a) && boxes.Keys == s.abox.Keys && delivered.Keys == s.delivered.Keys
    ensures
      var n := s.(abox := boxes, delivered := delivered);
      Potential(cfg, n, a, t) + AgentCopies(s, a, t) == Potential(cfg, s, a, t) + AgentCopies(n, a, t)
  {
    hide CountStore, Sum;
  }

  /** Moving copies from the mailbox to the agent. */
  lemma DeliverPotential(cfg: Config, s: Net, b: Agent, box: Box, batch: Store, a: Agent, t: SendId)
    requires Has(cfg, s, a) && b in cfg.agents
    requires CountStore(box.messages, t) + CountStore(batch, t) <= CountStore(s.abox[b].messages, t)
    ensures Potential(cfg, DeliverTo(s, b, box, batch), a, t) <= Potential(cfg, s, a, t)
    ensures CountStore(box.messages, t) + CountStore(batch, t) == CountStore(s.abox[b].messages, t) ==>
      Potential(cfg, DeliverTo(s, b, box, batch), a, t) == Potential(cfg, s, a, t)
  {
    hide Potential, CountStore, Sum;
    SumSnoc(s.delivered[b], batch, InStore(t));
    AgentsPotential(cfg, s, s.abox[b := box], s.delivered[b := s.delivered[b] + [batch]], a, t);
  }

  lemma ReceiveSomeCount(b: Box, ids: seq<string>, written: bool, t: SendId)
    ensures CountStore(ReceiveSome(b, ids, written).messages, t)
          + CountStore(if written then Requested(b.messages, ids) else map[], t) == CountStore(b.messages, t)
  {
    CountEmpty(t);
    if written {
      CountSplit(b.messages, Requested(b.messages, ids), b.messages - SetOf(ids), t);
    }
  }

  lemma LiveCount(msgs: Store, now: int, t: SendId)
    ensures CountStore(Live(msgs, now), t) <= CountStore(msgs, t)
    ensures TaggedKeys(msgs, t) <= Live(msgs, now).Keys ==> CountStore(Live(msgs, now), t) == CountStore(msgs, t)
  {
    CountWithin(Live(msgs, now), msgs, t);
  }

  lemma AgentBoxPotential(cfg: Config, s: Net, b: Agent, box: Box, a: Agent, t: SendId)
    requires Has(cfg, s, a) && b in cfg.agents
    requires CountStore(box.messages, t) <= CountStore(s.abox[b].messages, t)
    ensures Potential(cfg, s.(abox := s.abox[b := box]), a, t) <= Potential(cfg, s, a, t)
    ensures CountStore(box.messages, t) == CountStore(s.abox[b].messages, t) ==>
      Potential(cfg, s.(abox := s.abox[b := box]), a, t) == Potential(cfg, s, a, t)
  {
    hide CountStore, Sum;
  }

  lemma TablePotential(cfg: Config, s: Net, e: Edge, table: Table<Agent>, a: Agent, t: SendId)
    requires Has(cfg, s, a) && e in cfg.edges
    ensures Potential(cfg, SetTable(s, e, table), a, t) == Potential(cfg, s, a, t)
  {
    EdgeFrame(cfg, s, e, s.edges[e].(subs := table), a, t);
    hide Potential;
  }

  lemma SubscribePotential(cfg: Config, s: Net, e: Edge, b: Agent, subject: string, uuid: string, a: Agent, t: SendId)
    requires Has(cfg, s, a) && e in cfg.edges
    ensures Potential(cfg, DoSubscribe(s, e, b, subject, uuid), a, t) == Potential(cfg, s, a, t)
  {
    hide Potential;
    if subject !in s.edges[e].subs { PushPotential(cfg, s, e, SubjectRequest(uuid, subject), a, t); }
    var s1 := if subject in s.edges[e].subs then s else Push(s, e, SubjectRequest(uuid, subject));
    TablePotential(cfg, s1, e, AddSubscriber(s.edges[e].subs, subject, b), a, t);
  }

  /** A written or failed Receive of the agent `b`: copies only move from its mailbox to what it was given. */
  lemma AgentReceivePotential(cfg: Config, s: Net, b: Agent, ids: seq<string>, written: bool, a: Agent, t: SendId)
    requires Inv(cfg, s) && a in cfg.agents && b in cfg.agents
    ensures
      var some := DeliverTo(s, b, ReceiveSome(s.abox[b], ids, written),
                            if written then Requested(s.abox[b].messages, ids) else map[]);
      Has(cfg, some, a) && Holds(cfg, s, some, a, t)
    ensures
      var all := DeliverTo(s, b, ReceiveAll(s.abox[b], s.now, written),
                           if written then Live(s.abox[b].messages, s.now) else map[]);
      Has(cfg, all, a) && Holds(cfg, s, all, a, t)
  {
    hide AllOk, Potential, Served, CountStore, TaggedKeys, Live, Requested;
    ReceiveSomeCount(s.abox[b], ids, written, t);
    DeliverPotential(cfg, s, b, ReceiveSome(s.abox[b], ids, written),
                     if written then Requested(s.abox[b].messages, ids) else map[], a, t);
    CountEmpty(t);
    LiveCount(s.abox[b].messages, s.now, t);
    if Served(cfg, s, a, t) { AgentCopiesLive(cfg, s, a, b, t); }
    DeliverPotential(cfg, s, b, ReceiveAll(s.abox[b], s.now, written),
                     if written then Live(s.abox[b].messages, s.now) else map[], a, t);
  }

  lemma ExpirePotential(cfg: Config, s: Net, b: Agent, written: bool, a: Agent, t: SendId)
    requires Inv(cfg, s) && a in cfg.agents && b in cfg.agents
    ensures
      var n := s.(abox := s.abox[b := Expire(s.abox[b], s.now)]);
      Has(cfg, n, a) && Holds(cfg, s, n, a, t)
    ensures
      var n := s.(abox := s.abox[b := NotifyAll(s.abox[b], written)]);
      Has(cfg, n, a) && Holds(cfg, s, n, a, t)
  {
    hide AllOk, Potential, Served, CountStore, TaggedKeys, Live;
    AgentBoxPotential(cfg, s, b, NotifyAll(s.abox[b], written), a, t);
    LiveCount(s.abox[b].messages, s.now, t);
    if Served(cfg, s, a, t) { AgentCopiesLive(cfg, s, a, b, t); }
    AgentBoxPotential(cfg, s, b, Expire(s.abox[b], s.now), a, t);
  }

  /** Of the steps of agents, only the Send of `t` raises the potential. */
  lemma AgentPotential(cfg: Config, s: Net, b: Agent, step: AgentStep, a: Agent, t: SendId)
    requires Inv(cfg, s) && a in cfg.agents && b in cfg.agents && AgentEnabled(cfg, s, b, step)
    requires step.SendStep? ==> step.app.tag != t
    ensures Has(cfg, AgentApply(cfg, s, b, step), a) && Holds(cfg, s, AgentApply(cfg, s, b, step), a, t)
  {
    hide AllOk, Potential, Served, Holds, SameOwners, SameAgents, Live, Requested, DoSubscribe, DoSend, Acceptable,
         Push, SetTable, DeliverTo, ReceiveSome, ReceiveAll, Expire, NotifyAll, SubjectRequest, WithdrawRequest,
         DropSubscriber;
    var e := cfg.home(b);
    match step {
      case SubscribeStep(subject, uuid) => SubscribePotential(cfg, s, e, b, subject, uuid, a, t);
      case UnsubscribeStep(subject) => TablePotential(cfg, s, e, DropSubscriber(s.edges[e].subs, subject, b), a, t);
      case SubscribeDirectStep(uuid) => DirectPotential(cfg, s, e, uuid, cfg.mrn(b), a, t);
      case UnsubscribeDirectStep(uuid) => DirectPotential(cfg, s, e, uuid, cfg.mrn(b), a, t);
      case SendStep(uuid, app) => SendPotential(cfg, s, e, b, uuid, app, a, t);
      case NotifyStep(written) => ExpirePotential(cfg, s, b, written, a, t);
      case ReceiveSomeStep(ids, written) => AgentReceivePotential(cfg, s, b, ids, written, a, t);
      case ReceiveAllStep(written) => AgentReceivePotential(cfg, s, b, [], written, a, t);
      case ExpireStep => ExpirePotential(cfg, s, b, true, a, t);
    }
    if !step.NotifyStep? && !step.ReceiveSomeStep? && !step.ReceiveAllStep? && !step.ExpireStep? {
      AgentShape(cfg, s, b, step);
      SameHolds(cfg, s, AgentApply(cfg, s, b, step), a, t);
    }
  }

  lemma AgentShape(cfg: Config, s: Net, b: Agent, step: AgentStep)
    requires Shape(cfg, s) && ValidConfig(cfg) && b in cfg.agents && AgentEnabled(cfg, s, b, step)
    ensures Shape(cfg, AgentApply(cfg, s, b, step))
  {
    var n := AgentApply(cfg, s, b, step);
    assert SameOwners(s, n);
  }

  lemma SameHolds(cfg: Config, s: Net, n: Net, a: Agent, t: SendId)
    requires Has(cfg, s, a) && Has(cfg, n, a) && Potential(cfg, n, a, t) == Potential(cfg, s, a, t)
    ensures Holds(cfg, s, n, a, t)
  {
    hide Potential;
  }


  lemma DirectPotential(cfg: Config, s: Net, e: Edge, uuid: string, mrn: string, a: Agent, t: SendId)
    requires Has(cfg, s, a) && e in cfg.edges
    ensures Potential(cfg, Push(s, e, SubjectRequest(uuid, mrn)), a, t) == Potential(cfg, s, a, t)
    ensures Potential(cfg, Push(s, e, WithdrawRequest(uuid, mrn)), a, t) == Potential(cfg, s, a, t)
  {
    hide Potential, Push;
    PushPotential(cfg, s, e, SubjectRequest(uuid, mrn), a, t);
    PushPotential(cfg, s, e, WithdrawRequest(uuid, mrn), a, t);
  }
}
