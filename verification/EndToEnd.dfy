/** From a settled subscription to delivery: an agent whose subscription its router has accepted gets a Send of the
    subject exactly once, with no assumption on what tables hold later. */
module EndToEnd {
  import opened Mmtp
  import opened MailboxSpec
  import opened Routing
  import opened Network
  import opened NetworkInvariant
  import opened NetworkSteps
  import opened Copies
  import opened PotentialSpec
  import opened PotentialSteps
  import opened AtMostOnce
  import opened Pull
  import opened Coverage
  import opened Awaiting

  /** The agent leaves the subject. */
  ghost predicate Unsubscribes(step: Step, a: Agent, subject: string) {
    step == AgentDoes(a, UnsubscribeStep(subject))
  }

  ghost predicate IsSubscribed(cfg: Config, s: Net, a: Agent, subject: string) {
    cfg.home(a) in s.edges && a in Subscribers(s.edges[cfg.home(a)].subs, subject)
  }

  /** A subscriber stays one until it unsubscribes. */
  lemma SubscribedStep(cfg: Config, s: Net, step: Step, a: Agent, subject: string)
    requires Enabled(cfg, s, step) && IsSubscribed(cfg, s, a, subject) && !Unsubscribes(step, a, subject)
    ensures IsSubscribed(cfg, Apply(cfg, s, step), a, subject)
  {
    hide AgentApply, EdgeApply, RouterApply, AgentEnabled, EdgeEnabled, RouterEnabled, Subscribers;
    match step {
      case AgentDoes(b, agent) => AgentSubscribed(cfg, s, b, agent, a, subject);
      case EdgeDoes(f, edge) => EdgeTables(cfg, s, f, edge, cfg.home(a));
      case RouterDoes(r, router) => RouterKeys(cfg, s, r, router, cfg.home(a));
      case Tick(_) =>
    }
  }

  lemma AgentSubscribed(cfg: Config, s: Net, b: Agent, step: AgentStep, a: Agent, subject: string)
    requires Shape(cfg, s) && ValidConfig(cfg) && b in cfg.agents && AgentEnabled(cfg, s, b, step)
    requires IsSubscribed(cfg, s, a, subject) && !(a == b && step == UnsubscribeStep(subject))
    ensures IsSubscribed(cfg, AgentApply(cfg, s, b, step), a, subject)
  {
    hide AgentApply, AgentEnabled, Subscribers, AddSubscriber, DropSubscriber;
    if OwnBox(step) {
      OwnBoxFrame(cfg, s, b, step);
    } else {
      SubsAfter(cfg, s, b, step, cfg.home(a));
      StillSubscribed(s.edges[cfg.home(a)].subs, b, step, a, subject);
    }
  }

  /** The subject table after a step of `b` at its edge router. */
  function Subs(table: Table<Agent>, b: Agent, step: AgentStep): Table<Agent> {
    match step
    case SubscribeStep(t, _) => AddSubscriber(table, t, b)
    case UnsubscribeStep(t) => DropSubscriber(table, t, b)
    case _ => table
  }

  lemma SubsAfter(cfg: Config, s: Net, b: Agent, step: AgentStep, e: Edge)
    requires Shape(cfg, s) && ValidConfig(cfg) && b in cfg.agents && AgentEnabled(cfg, s, b, step) && !OwnBox(step)
    requires e in s.edges
    ensures
      var n := AgentApply(cfg, s, b, step);
      e in n.edges && n.edges[e].subs == if e == cfg.home(b) then Subs(s.edges[e].subs, b, step) else s.edges[e].subs
  {
    hide Acceptable, FanOut, SendTargets, SameAgents, SubjectRequest, WithdrawRequest, SendMessage, FreshFor,
         AddSubscriber, DropSubscriber;
  }

  lemma StillSubscribed(table: Table<Agent>, b: Agent, step: AgentStep, a: Agent, subject: string)
    requires a in Subscribers(table, subject) && !(a == b && step == UnsubscribeStep(subject))
    ensures a in Subscribers(Subs(table, b, step), subject)
  {
  }

  lemma EdgeTables(cfg: Config, s: Net, f: Edge, step: EdgeStep, e: Edge)
    requires Shape(cfg, s) && ValidConfig(cfg) && f in cfg.edges && e in cfg.edges && EdgeEnabled(s, f, step)
    ensures EdgeApply(cfg, s, f, step).edges[e].subs == s.edges[e].subs
  {
    hide DoUplink, DoPull, DoDownlink, Expire, ListsKeys, Live, DownReady, WriteFirst, SameAgents;
    match step {
      case UplinkStep(replyId, written, join, order) => UplinkFrame(s, f, cfg.uplink(f), replyId, written, join, order);
      case PullStep(replyId, written, order) => PullFrame(s, f, written, order, replyId);
      case DownlinkStep(newIds, newId) => DownlinkFrame(s, f, newIds, newId);
      case _ =>
    }
  }

  /** Time goes on, and UUIDs keep their messages. */
  lemma StepGrows(cfg: Config, s: Net, step: Step)
    requires Enabled(cfg, s, step)
    ensures s.now <= Apply(cfg, s, step).now && Within(s.names, Apply(cfg, s, step).names)
  {
    hide AgentApply, EdgeApply, AgentEnabled, EdgeEnabled, AfterPublish, FanOut;
    match step {
      case AgentDoes(a, agent) =>
        AgentFrame(cfg, s, a, agent);
        AgentTime(cfg, s, a, agent);
      case EdgeDoes(f, edge) => EdgeGrows(cfg, s, f, edge);
      case RouterDoes(r, router) =>
      case Tick(_) =>
    }
  }

  lemma AgentTime(cfg: Config, s: Net, a: Agent, step: AgentStep)
    requires Shape(cfg, s) && ValidConfig(cfg) && a in cfg.agents && AgentEnabled(cfg, s, a, step)
    ensures AgentApply(cfg, s, a, step).now == s.now
  {
    hide Acceptable, FanOut, SendTargets, SubjectRequest, WithdrawRequest, SendMessage, ReceiveSome, ReceiveAll, Expire,
         NotifyAll, Live, Requested, AddSubscriber, DropSubscriber, SameOwners, SameAgents;
  }

  lemma EdgeGrows(cfg: Config, s: Net, f: Edge, step: EdgeStep)
    requires Shape(cfg, s) && ValidConfig(cfg) && f in cfg.edges && EdgeEnabled(s, f, step)
    ensures EdgeApply(cfg, s, f, step).now == s.now && Within(s.names, EdgeApply(cfg, s, f, step).names)
  {
    hide DoUplink, DoPull, DoDownlink, Expire, ListsKeys, Live, DownReady, WriteFirst, SameAgents, SameOwners;
    match step {
      case UplinkStep(replyId, written, join, order) =>
        UplinkFrame(s, f, cfg.uplink(f), replyId, written, join, order);
        UplinkTime(s, f, cfg.uplink(f), replyId, written, join, order);
      case PullStep(replyId, written, order) =>
        PullFrame(s, f, written, order, replyId);
        PullTime(s, f, written, order, replyId);
      case DownlinkStep(newIds, newId) =>
        DownlinkFrame(s, f, newIds, newId);
        DownlinkTime(s, f, newIds, newId);
      case _ =>
    }
  }

  lemma UplinkTime(s: Net, e: Edge, r: Router, replyId: string, written: bool, join: JoinResult, order: seq<string>)
    requires e in s.edges && e in s.ebox && r in s.routers && s.edges[e].up != []
    requires ListsKeys(order, Live(s.ebox[e].messages, s.now))
    ensures DoUplink(s, e, r, replyId, written, join, order).now == s.now
  {
    hide RequestOf, Serve, ListsKeys, Live, SameOwners, SameAgents;
    ServeTime(PopUp(s, e), e, r, s.edges[e].up[0], replyId, written, join, order);
  }

  lemma ServeTime(s: Net, e: Edge, r: Router, m: Message, replyId: string, written: bool, join: JoinResult,
                  order: seq<string>)
    requires e in s.edges && e in s.ebox && r in s.routers && ListsKeys(order, Live(s.ebox[e].messages, s.now))
    ensures Serve(s, e, r, m, replyId, written, join, order).now == s.now
  {
    hide RequestOf, ListsKeys, Live, RouterSubscribe, DropSubscriber, FanOut, BoxAfterReceive, Answer, ContentsFor,
         SameOwners, SameAgents, Subscribers, DoReceive;
    if RequestOf(m).Collect? { ReceiveTime(s, e, m, RequestOf(m).ids, replyId, written, order); }
  }

  lemma ReceiveTime(s: Net, e: Edge, m: Message, ids: seq<string>, replyId: string, written: bool, order: seq<string>)
    requires e in s.edges && e in s.ebox && ListsKeys(order, Live(s.ebox[e].messages, s.now))
    ensures DoReceive(s, e, m, ids, replyId, written, order).now == s.now
  {
    hide ListsKeys, Live, BoxAfterReceive, Answer, ContentsFor, SameOwners, SameAgents;
  }

  lemma PullTime(s: Net, e: Edge, written: bool, order: seq<string>, replyId: string)
    requires e in s.edges && e in s.ebox && ListsKeys(order, s.ebox[e].notifications)
    ensures DoPull(s, e, written, order, replyId).now == s.now
  {
    hide ListsKeys, SameOwners, SameAgents;
  }

  lemma DownlinkTime(s: Net, e: Edge, newIds: seq<string>, uuid: string)
    requires e in s.edges && DownReady(s, e, newIds, uuid)
    ensures DoDownlink(s, e, newIds, uuid).now == s.now
  {
    hide Distinct, FreshFor, Settle, Delivering, Deliver, NameRequeued, SameOwners, SameAgents, MetadataIds;
  }

  // ---- the subscription holds ----

  /** What is known of the agent's subscription in a state after the Send of `app`. */
  ghost predicate StillServed(cfg: Config, s: Net, a: Agent, t: SendId, app: AppMessage) {
    && Has(cfg, s, a) && t in s.sent && s.sent[t] == app
    && IsSubscribed(cfg, s, a, SubjectOf(app))
    && (cfg.home(a) != t.edge ==> Joined(cfg, s, cfg.home(a), SubjectOf(app)))
  }

  lemma SendServed(cfg: Config, s: Net, step: Step, a: Agent, t: SendId)
    requires Enabled(cfg, s, step) && Sends(step, t) && a in cfg.agents
    requires IsSubscribed(cfg, s, a, SubjectOf(step.agent.app))
    requires cfg.home(a) != t.edge ==> Joined(cfg, s, cfg.home(a), SubjectOf(step.agent.app))
    ensures StillServed(cfg, Apply(cfg, s, step), a, t, step.agent.app) && SubjectOf(step.agent.app) != ""
  {
    hide SendTargets, FanOut, SendMessage, Subscribers;
  }

  ghost predicate NoMrn(cfg: Config, subject: string) {
    forall b :: b in cfg.agents ==> cfg.mrn(b) != subject
  }

  lemma ServedStep(cfg: Config, s: Net, step: Step, a: Agent, t: SendId, app: AppMessage)
    requires AllNamed(cfg, s) && Enabled(cfg, s, step) && StillServed(cfg, s, a, t, app) && SubjectOf(app) != ""
    requires !Unsubscribes(step, a, SubjectOf(app)) && NoMrn(cfg, SubjectOf(app))
    ensures StillServed(cfg, Apply(cfg, s, step), a, t, app)
  {
    hide Apply, Enabled, AllNamed, IsSubscribed, Joined, JoinsAnew, Withdraws, SubjectOf, Shape;
    var e, subject := cfg.home(a), SubjectOf(app);
    ShapeStep(cfg, s, step);
    EnabledValid(cfg, s, step);
    SentStep(cfg, s, step, t);
    SubscribedStep(cfg, s, step, a, subject);
    JoinedStep(cfg, s, step, e, subject);
    NamedApart(cfg, s, step, e, subject);
  }

  lemma EnabledValid(cfg: Config, s: Net, step: Step)
    requires Enabled(cfg, s, step)
    ensures ValidConfig(cfg)
  {
  }

  /** The agent is a subscriber when the Send of `app` is accepted, and its edge router's subscription is accepted or
      settled. */
  ghost predicate ServedAtSend(cfg: Config, s: Net, step: Step, a: Agent, t: SendId, app: AppMessage) {
    && Sends(step, t) && step.agent.app == app && a in cfg.agents && IsSubscribed(cfg, s, a, SubjectOf(app))
    && (cfg.home(a) != t.edge ==>
         Joined(cfg, s, cfg.home(a), SubjectOf(app)) || Settled(s.edges[cfg.home(a)], SubjectOf(app)))
  }

  /** After step `k` and up to state `n`, the agent does not leave the subject. */
  ghost predicate Stays(steps: seq<Step>, k: nat, n: nat, a: Agent, subject: string) {
    forall i :: k < i < n <= |steps| ==> !Unsubscribes(steps[i], a, subject)
  }

  lemma StaysLess(steps: seq<Step>, k: nat, i: nat, n: nat, a: Agent, subject: string)
    requires Stays(steps, k, n, a, subject) && k < i <= n <= |steps|
    ensures Stays(steps, k, i, a, subject) && (k < i < n ==> !Unsubscribes(steps[i], a, subject))
  {
  }

  lemma SettledJoined(cfg: Config, run: seq<Net>, steps: seq<Step>, k: nat, e: Edge, a: Agent, subject: string)
    requires IsRun(cfg, run, steps) && k < |run| && e == cfg.home(a) && IsSubscribed(cfg, run[k], a, subject)
    requires Settled(run[k].edges[e], subject) && NoMrn(cfg, subject)
    ensures Joined(cfg, run[k], e, subject)
  {
    hide IsRun, Settled;
    SettledMeansAccepted(cfg, run, steps, k, e, a, subject);
  }

  lemma FirstServed(cfg: Config, run: seq<Net>, steps: seq<Step>, k: nat, a: Agent, t: SendId, app: AppMessage)
    requires IsRun(cfg, run, steps) && k < |steps| && ServedAtSend(cfg, run[k], steps[k], a, t, app)
    requires NoMrn(cfg, SubjectOf(app))
    ensures StillServed(cfg, run[k + 1], a, t, app) && SubjectOf(app) != ""
  {
    var e := cfg.home(a);
    hide Init, Enabled, Apply, Joined, Settled, SubjectOf, NoMrn, IsSubscribed, StillServed;
    if e != t.edge && !Joined(cfg, run[k], e, SubjectOf(app)) {
      SettledJoined(cfg, run, steps, k, e, a, SubjectOf(app));
    }
    SendServed(cfg, run[k], steps[k], a, t);
  }

  lemma {:induction false} ServedSince(cfg: Config, run: seq<Net>, steps: seq<Step>, k: nat, n: nat, a: Agent,
                                       t: SendId, app: AppMessage)
    requires IsRun(cfg, run, steps) && k < n < |run| && ServedAtSend(cfg, run[k], steps[k], a, t, app)
    requires NoMrn(cfg, SubjectOf(app)) && Stays(steps, k, n, a, SubjectOf(app))
    ensures StillServed(cfg, run[n], a, t, app)
    decreases n
  {
    hide Init, Enabled, Apply, AllNamed, StillServed, ServedAtSend, SubjectOf, Unsubscribes, NoMrn, Stays;
    FirstServed(cfg, run, steps, k, a, t, app);
    if n > k + 1 {
      StaysLess(steps, k, n - 1, n, a, SubjectOf(app));
      ServedSince(cfg, run, steps, k, n - 1, a, t, app);
      RunNamed(cfg, run, steps, n - 1);
      ServedStep(cfg, run[n - 1], steps[n - 1], a, t, app);
    }
  }

  lemma {:induction false} NamesSince(cfg: Config, run: seq<Net>, steps: seq<Step>, i: nat, n: nat)
    requires IsRun(cfg, run, steps) && i <= n < |run|
    ensures run[i].now <= run[n].now && Within(run[i].names, run[n].names)
    decreases n
  {
    hide Init, Enabled, Apply;
    if i < n {
      NamesSince(cfg, run, steps, i, n - 1);
      StepGrows(cfg, run[n - 1], steps[n - 1]);
    }
  }

  /** The message is within the expiry limit when it is sent and live at the end, and its copies have UUIDs of
      version 4. */
  ghost predicate InTime(cfg: Config, first: Net, last: Net, t: SendId, app: AppMessage) {
    && AppExpires(app) <= first.now + EXPIRATION_LIMIT && last.now <= AppExpires(app)
    && (forall u :: u in last.names && TagCount(last.names[u], t) == 1 ==> cfg.v4(u))
  }

  lemma ServedNow(cfg: Config, first: Net, s: Net, last: Net, a: Agent, t: SendId, app: AppMessage)
    requires StillServed(cfg, s, a, t, app) && InTime(cfg, first, last, t, app)
    requires first.now <= s.now <= last.now && Within(s.names, last.names)
    ensures Has(cfg, s, a) && Served(cfg, s, a, t)
  {
    hide TagCount, Subscribers;
  }

  /** The tables serve the agent from the Send on: nothing has to be assumed of them. */
  lemma ServedUntil(cfg: Config, run: seq<Net>, steps: seq<Step>, k: nat, n: nat, i: nat, a: Agent, t: SendId,
                    app: AppMessage)
    requires IsRun(cfg, run, steps) && k < i <= n < |run| && ServedAtSend(cfg, run[k], steps[k], a, t, app)
    requires NoMrn(cfg, SubjectOf(app)) && Stays(steps, k, n, a, SubjectOf(app))
    requires InTime(cfg, run[k + 1], run[n], t, app)
    ensures Has(cfg, run[i], a) && Served(cfg, run[i], a, t)
  {
    assert n <= |steps|;
    hide IsRun, ServedAtSend, Stays, StillServed, InTime, NoMrn, Served, SubjectOf, Has, Within;
    StaysLess(steps, k, i, n, a, SubjectOf(app));
    ServedSince(cfg, run, steps, k, i, a, t, app);
    NamesSince(cfg, run, steps, k + 1, i);
    NamesSince(cfg, run, steps, i, n);
    ServedNow(cfg, run[k + 1], run[i], run[n], a, t, app);
  }

  lemma ServedAllAlong(cfg: Config, run: seq<Net>, steps: seq<Step>, k: nat, n: nat, a: Agent, t: SendId,
                       app: AppMessage)
    requires IsRun(cfg, run, steps) && k < n < |run| && ServedAtSend(cfg, run[k], steps[k], a, t, app)
    requires NoMrn(cfg, SubjectOf(app)) && Stays(steps, k, n, a, SubjectOf(app))
    requires InTime(cfg, run[k + 1], run[n], t, app)
    ensures ServedFrom(cfg, run, steps, k, n, a, t)
  {
    assert |run| == |steps| + 1;
    hide ServedAtSend, Stays, InTime, Has, Served, NoMrn, IsRun, ServedFrom, Sends;
    forall i | k < i <= n ensures Has(cfg, run[i], a) && Served(cfg, run[i], a, t) {
      ServedUntil(cfg, run, steps, k, n, i, a, t, app);
    }
    SendsIt(cfg, run[k], steps[k], a, t, app);
    ServedFromIs(cfg, run, steps, k, n, a, t);
  }

  lemma SendsIt(cfg: Config, s: Net, step: Step, a: Agent, t: SendId, app: AppMessage)
    requires ServedAtSend(cfg, s, step, a, t, app)
    ensures Sends(step, t)
  {
  }

  lemma ServedFromIs(cfg: Config, run: seq<Net>, steps: seq<Step>, k: nat, n: nat, a: Agent, t: SendId)
    requires |run| == |steps| + 1 && k < n < |run| && Sends(steps[k], t)
    requires forall i :: k < i <= n ==> Has(cfg, run[i], a) && Served(cfg, run[i], a, t)
    ensures ServedFrom(cfg, run, steps, k, n, a, t)
  {
    hide Has, Served, Sends;
  }

  /** Exactly once, end to end: an agent that is a subscriber when a Send is accepted, and whose edge router's
      subscription to the subject is accepted by then or at least settled, has exactly one copy when the network is
      idle and nothing was stranded, if it does not leave the subject, the subject is nobody's MRN, and the message
      stays live. Only a lost publication can cost it the copy, and only at another router than the sender's. */
  lemma SubscriberGetsOne(cfg: Config, run: seq<Net>, steps: seq<Step>, k: nat, n: nat, a: Agent, t: SendId,
                          app: AppMessage)
    requires IsRun(cfg, run, steps) && k < n < |run| && ServedAtSend(cfg, run[k], steps[k], a, t, app)
    requires NoMrn(cfg, SubjectOf(app)) && Stays(steps, k, n, a, SubjectOf(app))
    requires InTime(cfg, run[k + 1], run[n], t, app)
    requires cfg.home(a) != t.edge || cfg.mrn(a) != SenderOf(app)
    ensures Has(cfg, run[n], a)
    ensures Idle(cfg, run[n]) && NothingStranded(cfg, run, steps, n) ==>
      AgentCopies(run[n], a, t) == LeftOf(cfg, a, t, EverLost(run, steps, k, n, t))
  {
    ServedAllAlong(cfg, run, steps, k, n, a, t, app);
    SenderIs(cfg, run[k], steps[k], t);
    hide IsRun, ServedFrom, EverLost, Has, Idle, NothingStranded, AgentCopies, Settled, Joined, Quiet, InTime;
    CopiesExactly(cfg, run, steps, k, n, a, t);
    IdleMeansQuiet(cfg, run, steps, n, t);
  }

  lemma SenderIs(cfg: Config, s: Net, step: Step, t: SendId)
    requires Enabled(cfg, s, step) && Sends(step, t)
    ensures cfg.mrn(step.a) == SenderOf(step.agent.app)
  {
  }
}
