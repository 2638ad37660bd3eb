/** An agent that does not subscribe to the subject of a Send gets no copy of it. */
module NobodyElse {
  import opened Mmtp
  import opened MailboxSpec
  import opened Routing
  import opened Network
  import opened NetworkInvariant
  import opened NetworkSteps
  import opened Copies
  import opened PotentialSpec
  import opened PotentialSteps
  import opened AtMostOnce

  ghost predicate Subscribes(cfg: Config, s: Net, a: Agent, subject: string)
    requires Has(cfg, s, a)
  {
    a in Subscribers(s.edges[cfg.home(a)].subs, subject)
  }

  /** No entry that is a copy of `t` is for `a`. */
  ghost predicate GetsNone(table: Table<Agent>, a: Agent, contents: seq<Content>, t: SendId) {
    forall c :: c in contents && c.app.Some? && c.app.value.tag == t ==>
      a !in LocalTargets(table, map[], {}, AddressOf(c.app.value))
  }

  lemma {:induction false} CountDeliverNone(boxes: map<Agent, Box>, table: Table<Agent>, contents: seq<Content>,
                                            newIds: seq<string>, now: int, a: Agent, t: SendId)
    requires a in boxes && |newIds| == |contents| && GetsNone(table, a, contents, t)
    ensures CountStore(Deliver(boxes, table, map[], {}, contents, newIds, now)[a].messages, t)
         <= CountStore(boxes[a].messages, t)
  {
    if contents != [] {
      var n := |contents| - 1;
      var c := contents[n];
      assert contents == contents[..n] + [c];
      CountDeliverNone(boxes, table, contents[..n], newIds[..n], now, a, t);
      var mid := Deliver(boxes, table, map[], {}, contents[..n], newIds[..n], now);
      if c.app.Some? && InWindow(c.app.value, now) {
        CountFanOut(mid, LocalTargets(table, map[], {}, AddressOf(c.app.value)), SendMessage(newIds[n], c.app.value), a,
                    t);
      }
    }
  }

  lemma NoEntryFor(cfg: Config, s: Net, e: Edge, m: Message, a: Agent, t: SendId)
    requires Has(cfg, s, a) && e in cfg.edges && DownOk(PastOf(s), e, m) && TableOk(cfg, e, s.edges[e].subs)
    requires t in s.sent ==> !Subscribes(cfg, s, a, SubjectOf(s.sent[t]))
    ensures GetsNone(s.edges[e].subs, a, Delivering(m), t)
  {
    forall c | c in Delivering(m) && c.app.Some? && c.app.value.tag == t
      ensures a !in LocalTargets(s.edges[e].subs, map[], {}, AddressOf(c.app.value))
    {
      ServedAddress(PastOf(s), c.app.value);
    }
  }

  lemma DownlinkCopies(cfg: Config, s: Net, e: Edge, newIds: seq<string>, uuid: string, a: Agent, t: SendId)
    requires Inv(cfg, s) && a in cfg.agents && e in cfg.edges && DownReady(s, e, newIds, uuid)
    requires t in s.sent ==> !Subscribes(cfg, s, a, SubjectOf(s.sent[t]))
    ensures
      var n := DoDownlink(s, e, newIds, uuid);
      Has(cfg, n, a) && AgentCopies(n, a, t) <= AgentCopies(s, a, t)
  {
    hide AllOk, PopDown, DownOk, TableOk, Deliver, NameRequeued, CountStore, Sum, SettleAt, GetsNone, Subscribes,
         Distinct;
    PopDownInv(cfg, s, e);
    PopDownFrame(s, e);
    InvTable(cfg, s, e);
    var m, s1 := s.edges[e].down[0], PopDown(s, e);
    NoEntryFor(cfg, s, e, m, a, t);
    if m.body.Reply? {
      SettleFrame(s1, e, m.body.response);
      CountDeliverNone(s.abox, s.edges[e].subs, Delivering(m), newIds, s.now, a, t);
    }
  }

  lemma SendCopies(cfg: Config, s: Net, b: Agent, uuid: string, app: AppMessage, a: Agent, t: SendId)
    requires Inv(cfg, s) && a in cfg.agents && b in cfg.agents
    requires app.tag == t ==> !Subscribes(cfg, s, a, SubjectOf(app))
    ensures AgentCopies(DoSend(cfg, s, cfg.home(b), b, uuid, app), a, t) <= AgentCopies(s, a, t)
  {
    hide AllOk, CountStore, Sum, FanOut;
    TargetsAtHome(cfg, s, cfg.home(b), b, app, a);
    CountFanOut(s.abox, SendTargets(cfg, s.edges[cfg.home(b)].subs, b, app), SendMessage(uuid, app), a, t);
    TagIs(SendMessage(uuid, app), t);
  }

  lemma DeliverCopies(s: Net, b: Agent, box: Box, batch: Store, a: Agent, t: SendId)
    requires a in s.abox && a in s.delivered && b in s.abox && b in s.delivered
    requires CountStore(box.messages, t) + CountStore(batch, t) <= CountStore(s.abox[b].messages, t)
    ensures AgentCopies(DeliverTo(s, b, box, batch), a, t) <= AgentCopies(s, a, t)
  {
    hide CountStore, Sum;
    SumSnoc(s.delivered[b], batch, InStore(t));
  }

  lemma ReceiveCopies(s: Net, b: Agent, ids: seq<string>, written: bool, a: Agent, t: SendId)
    requires a in s.abox && a in s.delivered && b in s.abox && b in s.delivered
    ensures
      var some := DeliverTo(s, b, ReceiveSome(s.abox[b], ids, written),
                            if written then Requested(s.abox[b].messages, ids) else map[]);
      AgentCopies(some, a, t) <= AgentCopies(s, a, t)
    ensures
      var all := DeliverTo(s, b, ReceiveAll(s.abox[b], s.now, written),
                           if written then Live(s.abox[b].messages, s.now) else map[]);
      AgentCopies(all, a, t) <= AgentCopies(s, a, t)
  {
    hide CountStore, Live, Requested, AgentCopies;
    ReceiveSomeCount(s.abox[b], ids, written, t);
    DeliverCopies(s, b, ReceiveSome(s.abox[b], ids, written),
                  if written then Requested(s.abox[b].messages, ids) else map[], a, t);
    CountEmpty(t);
    LiveCount(s.abox[b].messages, s.now, t);
    DeliverCopies(s, b, ReceiveAll(s.abox[b], s.now, written),
                  if written then Live(s.abox[b].messages, s.now) else map[], a, t);
  }

  lemma ShrunkCopies(s: Net, b: Agent, written: bool, a: Agent, t: SendId)
    requires a in s.abox && a in s.delivered && b in s.abox
    ensures AgentCopies(s.(abox := s.abox[b := Expire(s.abox[b], s.now)]), a, t) <= AgentCopies(s, a, t)
    ensures AgentCopies(s.(abox := s.abox[b := NotifyAll(s.abox[b], written)]), a, t) <= AgentCopies(s, a, t)
  {
    hide CountStore, Sum, Live;
    LiveCount(s.abox[b].messages, s.now, t);
  }

  lemma SameCopies(s: Net, n: Net, a: Agent, t: SendId)
    requires a in s.abox && a in s.delivered && SameAgents(s, n)
    ensures AgentCopies(n, a, t) == AgentCopies(s, a, t)
  {
    hide CountStore, Sum;
  }

  lemma AgentStepCopies(cfg: Config, s: Net, b: Agent, step: AgentStep, a: Agent, t: SendId)
    requires Inv(cfg, s) && a in cfg.agents && b in cfg.agents && AgentEnabled(cfg, s, b, step)
    requires step.SendStep? && step.app.tag == t ==> !Subscribes(cfg, s, a, SubjectOf(step.app))
    ensures
      var n := AgentApply(cfg, s, b, step);
      Has(cfg, n, a) && AgentCopies(n, a, t) <= AgentCopies(s, a, t)
  {
    hide AllOk, AgentCopies, Live, Requested, DoSend, SetTable, DoSubscribe, Push, Acceptable, Subscribes, DeliverTo,
         ReceiveSome, ReceiveAll, Expire, NotifyAll, DropSubscriber, SubjectRequest, WithdrawRequest, SameAgents,
         SameOwners;
    match step {
      case SendStep(uuid, app) => SendCopies(cfg, s, b, uuid, app, a, t);
      case ReceiveSomeStep(ids, written) => ReceiveCopies(s, b, ids, written, a, t);
      case ReceiveAllStep(written) => ReceiveCopies(s, b, [], written, a, t);
      case ExpireStep => ShrunkCopies(s, b, true, a, t);
      case NotifyStep(written) => ShrunkCopies(s, b, written, a, t);
      case _ => SameCopies(s, AgentApply(cfg, s, b, step), a, t);
    }
    AgentShape(cfg, s, b, step);
  }

  lemma StepCopies(cfg: Config, s: Net, step: Step, a: Agent, t: SendId)
    requires Inv(cfg, s) && a in cfg.agents && Enabled(cfg, s, step)
    requires t in s.sent ==> !Subscribes(cfg, s, a, SubjectOf(s.sent[t]))
    requires Sends(step, t) ==> !Subscribes(cfg, s, a, SubjectOf(step.agent.app))
    ensures
      var n := Apply(cfg, s, step);
      Has(cfg, n, a) && AgentCopies(n, a, t) <= AgentCopies(s, a, t)
  {
    hide AllOk, AgentApply, DoDownlink, RouterApply, AgentEnabled, Subscribes, DoUplink, DoWrite, DoPull, ExpireEdge;
    match step {
      case AgentDoes(b, agent) => AgentStepCopies(cfg, s, b, agent, a, t);
      case EdgeDoes(e, edge) =>
        if edge.DownlinkStep? { DownlinkCopies(cfg, s, e, edge.newIds, edge.uuid, a, t); }
      case RouterDoes(_, _) =>
      case Tick(_) =>
    }
  }

  /** An agent that never subscribed to the subject of `t` while the Send was around has no copy of it. */
  lemma {:induction false} NoneForOthers(cfg: Config, run: seq<Net>, steps: seq<Step>, n: nat, a: Agent, t: SendId)
    requires IsRun(cfg, run, steps) && n < |run| && a in cfg.agents
    requires forall i :: 0 <= i <= n && t in run[i].sent ==>
      Has(cfg, run[i], a) && !Subscribes(cfg, run[i], a, SubjectOf(run[i].sent[t]))
    ensures Has(cfg, run[n], a) && AgentCopies(run[n], a, t) == 0
  {
    hide Init, AllOk, Enabled, Apply, Subscribes, AgentCopies, Sends;
    RunInv(cfg, run, steps, n);
    if n == 0 {
      AtMostOneCopy(cfg, run, steps, 0, a, t);
      InitPotential(cfg, run[0], a, t);
    } else {
      NoneForOthers(cfg, run, steps, n - 1, a, t);
      RunInv(cfg, run, steps, n - 1);
      if Sends(steps[n - 1], t) { SendKeepsTables(cfg, run[n - 1], steps[n - 1], a, t); }
      assert run[n] == Apply(cfg, run[n - 1], steps[n - 1]);
      StepCopies(cfg, run[n - 1], steps[n - 1], a, t);
    }
  }

  lemma SendKeepsTables(cfg: Config, s: Net, step: Step, a: Agent, t: SendId)
    requires Inv(cfg, s) && a in cfg.agents && Enabled(cfg, s, step) && Sends(step, t)
    ensures
      var n := Apply(cfg, s, step);
      && t in n.sent && n.sent[t] == step.agent.app
      && Has(cfg, n, a)
      && (Subscribes(cfg, n, a, SubjectOf(n.sent[t])) <==> Subscribes(cfg, s, a, SubjectOf(n.sent[t])))
  {
    hide AllOk, Acceptable, SendTargets, FanOut;
  }
}
