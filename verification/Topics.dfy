/** What every run keeps at the routers: topics, listeners and tables agree, what is dispatched has a table entry,
    and the links carry only what either side expects. */
module Topics {
  import opened Mmtp
  import opened MailboxSpec
  import opened Routing
  import opened Network
  import opened NetworkInvariant
  import opened NetworkSteps

  lemma RouterOfRun(cfg: Config, run: seq<Net>, steps: seq<Step>, n: nat, r: Router)
    requires IsRun(cfg, run, steps) && n < |run| && r in cfg.routers
    ensures r in run[n].routers && RouterOk(cfg, PastOf(run[n]), r, run[n].routers[r])
  {
    RunInv(cfg, run, steps, n);
    hide IsRun, EdgeOk, RouterOk, EdgeBoxOk, AgentBoxOk, DeliveredOk;
  }

  /** Each topic is joined at most once, and exactly when its handle is there; a subject of the table has its topic
      handle and exactly one listener, and nothing else has a listener. */
  lemma TopicsAndTablesAgree(cfg: Config, run: seq<Net>, steps: seq<Step>, n: nat, r: Router, subject: string)
    requires IsRun(cfg, run, steps) && n < |run| && r in cfg.routers
    ensures r in run[n].routers
    ensures
      var st := run[n].routers[r];
      && st.joins[subject] <= 1 && (st.joins[subject] == 1 <==> subject in st.topics)
      && (subject in st.table ==> subject in st.topics)
      && st.listeners[subject] <= 1 && (st.listeners[subject] == 1 <==> subject in st.table)
  {
    hide IsRun, CarriesSend, RouterTableOk;
    RouterOfRun(cfg, run, steps, n, r);
  }

  /** Every message in an incoming channel is a subject-cast Send of another router's edge router, and its subject
      has an entry in the table when it is dispatched. */
  lemma DispatchedHasEntry(cfg: Config, run: seq<Net>, steps: seq<Step>, n: nat, r: Router, m: Message)
    requires IsRun(cfg, run, steps) && n < |run| && r in cfg.routers && r in run[n].routers
    requires m in run[n].routers[r].inbox
    ensures AppOf(m).Some? && AddressOf(AppOf(m).value).Subject? && SubjectOf(AppOf(m).value) in run[n].routers[r].table
    ensures cfg.uplink(AppOf(m).value.tag.edge) != r
  {
    hide IsRun, TopicsAgree, RouterTableOk;
    RouterOfRun(cfg, run, steps, n, r);
    assert CarriesSend(PastOf(run[n]), m);
  }

  /** Up a link go Subscribes, Unsubscribes, Receives, and Sends that the edge router itself accepted; down come
      responses and Notifies. */
  lemma LinkTraffic(cfg: Config, run: seq<Net>, steps: seq<Step>, n: nat, e: Edge, m: Message)
    requires IsRun(cfg, run, steps) && n < |run| && e in cfg.edges && e in run[n].edges
    ensures m in run[n].edges[e].up ==>
      Ordinary(m) && (RequestOf(m).PassOn? ==> RequestOf(m).app.value.tag.edge == e)
    ensures m in run[n].edges[e].down ==> m.body.Reply? || IsNotify(m)
  {
    hide IsRun, SendOk, Genuine, TableOk, OutboxOk, RequestOf;
    EdgeOfRun(cfg, run, steps, n, e);
    PassesItsOwn(m);
  }

  lemma EdgeOfRun(cfg: Config, run: seq<Net>, steps: seq<Step>, n: nat, e: Edge)
    requires IsRun(cfg, run, steps) && n < |run| && e in cfg.edges
    ensures e in run[n].edges && EdgeOk(cfg, PastOf(run[n]), e, run[n].edges[e])
  {
    RunInv(cfg, run, steps, n);
    hide IsRun, EdgeOk, RouterOk, EdgeBoxOk, AgentBoxOk, DeliveredOk;
  }
}
