/** What the network promises for a subject-cast Send, in every run: no agent ever has more than one copy, none
    echoes, and when nothing is under way every agent that was served has exactly one. */
module AtMostOnce {
  import opened Mmtp
  import opened MailboxSpec
  import opened Routing
  import opened Network
  import opened NetworkInvariant
  import opened NetworkSteps
  import opened Copies
  import opened PotentialSpec
  import opened PotentialSteps

  lemma SentStep(cfg: Config, s: Net, step: Step, t: SendId)
    requires Enabled(cfg, s, step)
    ensures Sends(step, t) ==> t !in s.sent && t in Apply(cfg, s, step).sent
    ensures !Sends(step, t) ==> (t in Apply(cfg, s, step).sent <==> t in s.sent)
    ensures t in s.sent ==> t in Apply(cfg, s, step).sent && Apply(cfg, s, step).sent[t] == s.sent[t]
  {
    hide EdgeApply, RouterApply;
  }

  lemma InitPotential(cfg: Config, s: Net, a: Agent, t: SendId)
    requires Init(cfg, s) && a in cfg.agents
    ensures Potential(cfg, s, a, t) == 0
  {
    CountEmpty(t);
  }

  lemma SendsPotential(cfg: Config, s: Net, step: Step, a: Agent, t: SendId)
    requires Inv(cfg, s) && a in cfg.agents && Enabled(cfg, s, step) && Sends(step, t)
    ensures Has(cfg, Apply(cfg, s, step), a)
    ensures Potential(cfg, Apply(cfg, s, step), a, t) <= Potential(cfg, s, a, t) + 1
  {
    hide AllOk, Potential, DoSend, Acceptable;
    SendPotential(cfg, s, cfg.home(step.a), step.a, step.agent.uuid, step.agent.app, a, t);
  }

  lemma {:induction false} PotentialBound(cfg: Config, run: seq<Net>, steps: seq<Step>, i: nat, a: Agent, t: SendId)
    requires IsRun(cfg, run, steps) && i < |run| && a in cfg.agents
    ensures Inv(cfg, run[i]) && Potential(cfg, run[i], a, t) <= 1
    ensures t !in run[i].sent ==> Potential(cfg, run[i], a, t) == 0
  {
    hide Init, AllOk, Enabled, Apply, Potential, Sends;
    RunInv(cfg, run, steps, i);
    if i == 0 {
      InitPotential(cfg, run[0], a, t);
    } else {
      PotentialBound(cfg, run, steps, i - 1, a, t);
      SentStep(cfg, run[i - 1], steps[i - 1], t);
      if Sends(steps[i - 1], t) {
        SendsPotential(cfg, run[i - 1], steps[i - 1], a, t);
      } else {
        StepPotential(cfg, run[i - 1], steps[i - 1], a, t);
      }
    }
  }

  /** At most once, end to end: in every run, with writes, joins and publications that fail at will, one accepted
      subject-cast Send gives an agent at most one copy, held or received. Copies under way count too. */
  lemma AtMostOneCopy(cfg: Config, run: seq<Net>, steps: seq<Step>, i: nat, a: Agent, t: SendId)
    requires IsRun(cfg, run, steps) && i < |run| && a in cfg.agents
    ensures Has(cfg, run[i], a)
    ensures AgentCopies(run[i], a, t) <= Potential(cfg, run[i], a, t) <= 1
  {
    PotentialBound(cfg, run, steps, i, a, t);
    hide IsRun, AllOk, CountStore, Sum;
  }

  // ---- no echo ----

  lemma {:induction false} NoneDelivered(batches: seq<Store>, t: SendId)
    requires forall i, u :: 0 <= i < |batches| && u in batches[i] ==> TagCount(batches[i][u], t) == 0
    ensures Sum(batches, InStore(t)) == 0
  {
    if batches != [] {
      assert TaggedKeys(batches[0], t) == {};
      NoneDelivered(batches[1..], t);
    }
  }

  lemma NoEchoAt(cfg: Config, s: Net, a: Agent, t: SendId)
    requires Inv(cfg, s) && a in cfg.agents && t in s.sent
    requires cfg.home(a) == t.edge && cfg.mrn(a) == SenderOf(s.sent[t])
    ensures AgentCopies(s, a, t) == 0
  {
    hide EdgeOk, RouterOk, EdgeBoxOk;
    assert AgentBoxOk(cfg, PastOf(s), a, s.abox[a]) && DeliveredOk(cfg, PastOf(s), a, s.delivered[a]);
    assert TaggedKeys(s.abox[a].messages, t) == {};
    NoneDelivered(s.delivered[a], t);
  }

  /** No agent with the sender's MRN at the edge router that accepted a Send ever gets a copy of it. */
  lemma NoEcho(cfg: Config, run: seq<Net>, steps: seq<Step>, i: nat, a: Agent, t: SendId)
    requires IsRun(cfg, run, steps) && i < |run| && a in cfg.agents && t in run[i].sent
    requires cfg.home(a) == t.edge && cfg.mrn(a) == SenderOf(run[i].sent[t])
    ensures a in run[i].abox && a in run[i].delivered && AgentCopies(run[i], a, t) == 0
  {
    RunInv(cfg, run, steps, i);
    hide IsRun, AllOk, CountStore, Sum;
    NoEchoAt(cfg, run[i], a, t);
  }

  // ---- exactly once ----

  /** From the Send at step `k` up to state `n`, the tables serve `a` and the message stays live. */
  ghost predicate ServedFrom(cfg: Config, run: seq<Net>, steps: seq<Step>, k: nat, n: nat, a: Agent, t: SendId)
    requires |run| == |steps| + 1
  {
    && k < n < |run| && Sends(steps[k], t)
    && (forall i :: k < i <= n ==> Has(cfg, run[i], a) && Served(cfg, run[i], a, t))
  }

  /** A publication of the Send was lost. */
  ghost predicate EverLost(run: seq<Net>, steps: seq<Step>, k: nat, n: nat, t: SendId)
    requires n <= |steps| < |run|
  {
    exists i :: k < i < n && LosesPublication(run[i], steps[i], t)
  }

  /** ... and no publication of it is lost. */
  ghost predicate ServedThroughout(cfg: Config, run: seq<Net>, steps: seq<Step>, k: nat, n: nat, a: Agent, t: SendId)
    requires |run| == |steps| + 1
  {
    ServedFrom(cfg, run, steps, k, n, a, t) && !EverLost(run, steps, k, n, t)
  }

  lemma SendReaches(cfg: Config, s: Net, step: Step, a: Agent, t: SendId)
    requires Inv(cfg, s) && a in cfg.agents && Enabled(cfg, s, step) && Sends(step, t)
    requires Has(cfg, Apply(cfg, s, step), a) && Served(cfg, Apply(cfg, s, step), a, t)
    requires cfg.home(a) != t.edge || cfg.mrn(a) != cfg.mrn(step.a)
    ensures Potential(cfg, Apply(cfg, s, step), a, t) == Potential(cfg, s, a, t) + 1
  {
    hide AllOk, Potential;
    SendPotential(cfg, s, cfg.home(step.a), step.a, step.agent.uuid, step.agent.app, a, t);
  }

  /** The copies that a served agent ends with: one, or none when it is at another router than the sender and the
      publication was lost. */
  function LeftOf(cfg: Config, a: Agent, t: SendId, lost: bool): nat {
    if cfg.uplink(cfg.home(a)) != cfg.uplink(t.edge) && lost then 0 else 1
  }

  lemma LostMore(run: seq<Net>, steps: seq<Step>, k: nat, n: nat, t: SendId)
    requires k + 1 < n <= |steps| < |run|
    ensures EverLost(run, steps, k, n, t) <==>
      EverLost(run, steps, k, n - 1, t) || LosesPublication(run[n - 1], steps[n - 1], t)
  {
    hide LosesPublication;
  }

  lemma ServedLess(cfg: Config, run: seq<Net>, steps: seq<Step>, k: nat, n: nat, a: Agent, t: SendId)
    requires |run| == |steps| + 1 && k + 1 < n && ServedFrom(cfg, run, steps, k, n, a, t)
    ensures ServedFrom(cfg, run, steps, k, n - 1, a, t)
    ensures Has(cfg, run[n - 1], a) && Served(cfg, run[n - 1], a, t) && Has(cfg, run[n], a)
  {
    hide Has, Served, Sends;
  }

  /** From the Send on, for a served agent: one copy is under way or there, unless the agent is at another router than
      the sender and the publication was lost. */
  lemma {:induction false} PotentialExactly(cfg: Config, run: seq<Net>, steps: seq<Step>, k: nat, n: nat, a: Agent,
                                            t: SendId)
    requires IsRun(cfg, run, steps) && a in cfg.agents && ServedFrom(cfg, run, steps, k, n, a, t)
    requires cfg.home(a) != t.edge || cfg.mrn(a) != cfg.mrn(steps[k].a)
    ensures Has(cfg, run[n], a) && Potential(cfg, run[n], a, t) == LeftOf(cfg, a, t, EverLost(run, steps, k, n, t))
    decreases n
  {
    hide Init, Inv, Enabled, Apply, Potential, Sends, Served, LosesPublication, ServedFrom, EverLost, Has, LeftOf;
    FirstSends(cfg, run, steps, k, n, a, t);
    PotentialBound(cfg, run, steps, n - 1, a, t);
    if n == k + 1 {
      SendExactly(cfg, run, steps, k, a, t);
    } else {
      ServedLess(cfg, run, steps, k, n, a, t);
      LostMore(run, steps, k, n, t);
      PotentialExactly(cfg, run, steps, k, n - 1, a, t);
      SentSince(cfg, run, steps, k, n - 1, t);
      LeftAfter(cfg, a, t, EverLost(run, steps, k, n - 1, t), LosesPublication(run[n - 1], steps[n - 1], t));
      StepExactly(cfg, run[n - 1], steps[n - 1], a, t);
    }
  }

  lemma SendExactly(cfg: Config, run: seq<Net>, steps: seq<Step>, k: nat, a: Agent, t: SendId)
    requires IsRun(cfg, run, steps) && a in cfg.agents && ServedFrom(cfg, run, steps, k, k + 1, a, t)
    requires cfg.home(a) != t.edge || cfg.mrn(a) != cfg.mrn(steps[k].a)
    ensures Has(cfg, run[k + 1], a)
    ensures Potential(cfg, run[k + 1], a, t) == LeftOf(cfg, a, t, EverLost(run, steps, k, k + 1, t))
  {
    hide Init, Inv, Enabled, Apply, Potential, Served, LosesPublication;
    PotentialBound(cfg, run, steps, k, a, t);
    assert Has(cfg, run[k + 1], a) && run[k + 1] == Apply(cfg, run[k], steps[k]);
    SentStep(cfg, run[k], steps[k], t);
    SendReaches(cfg, run[k], steps[k], a, t);
  }

  lemma LeftAfter(cfg: Config, a: Agent, t: SendId, before: bool, loses: bool)
    ensures
      var costs := cfg.uplink(cfg.home(a)) != cfg.uplink(t.edge) && loses;
      LeftOf(cfg, a, t, before || loses)
      == if costs && LeftOf(cfg, a, t, before) == 1 then 0 else LeftOf(cfg, a, t, before)
  {
  }

  lemma FirstSends(cfg: Config, run: seq<Net>, steps: seq<Step>, k: nat, n: nat, a: Agent, t: SendId)
    requires |run| == |steps| + 1 && ServedFrom(cfg, run, steps, k, n, a, t)
    ensures k < n < |run| && Sends(steps[k], t)
  {
  }

  lemma StepExactly(cfg: Config, s: Net, step: Step, a: Agent, t: SendId)
    requires Inv(cfg, s) && a in cfg.agents && Enabled(cfg, s, step) && t in s.sent
    requires Has(cfg, s, a) && Served(cfg, s, a, t) && Potential(cfg, s, a, t) <= 1
    ensures
      var n := Apply(cfg, s, step);
      var costs := cfg.uplink(cfg.home(a)) != cfg.uplink(t.edge) && LosesPublication(s, step, t);
      Has(cfg, n, a) && Potential(cfg, n, a, t) + (if costs then 1 else 0) == Potential(cfg, s, a, t)
  {
    hide AllOk, Potential, Served, DoPublish, AgentEnabled, EdgeEnabled, AgentApply, EdgeApply, LosesPublication;
    SentStep(cfg, s, step, t);
    if LosesPublication(s, step, t) {
      LosesIs(s, step, t);
      LostPublication(cfg, s, step.r, step.router.result, a, t);
    } else {
      StepPotential(cfg, s, step, a, t);
    }
  }

  lemma LosesIs(s: Net, step: Step, t: SendId)
    requires LosesPublication(s, step, t)
    ensures step.RouterDoes? && step.router.PublishStep?
  {
  }

  lemma PotentialIsOne(cfg: Config, run: seq<Net>, steps: seq<Step>, k: nat, n: nat, a: Agent, t: SendId)
    requires IsRun(cfg, run, steps) && a in cfg.agents && ServedThroughout(cfg, run, steps, k, n, a, t)
    requires cfg.home(a) != t.edge || cfg.mrn(a) != cfg.mrn(steps[k].a)
    ensures Has(cfg, run[n], a) && Potential(cfg, run[n], a, t) == 1
  {
    hide IsRun, ServedFrom, EverLost;
    PotentialExactly(cfg, run, steps, k, n, a, t);
  }

  lemma {:induction false} SentSince(cfg: Config, run: seq<Net>, steps: seq<Step>, k: nat, n: nat, t: SendId)
    requires IsRun(cfg, run, steps) && k < n < |run| && Sends(steps[k], t)
    ensures t in run[n].sent
    decreases n
  {
    hide Init, Enabled;
    if n == k + 1 {
      hide EdgeApply, RouterApply;
    } else {
      hide Apply;
      SentSince(cfg, run, steps, k, n - 1, t);
      SentStep(cfg, run[n - 1], steps[n - 1], t);
    }
  }

  /** Nothing of `t` is under way: not in a channel, on a link, in the overlay or in a router's mailbox. */
  ghost predicate Quiet(cfg: Config, s: Net, t: SendId)
    requires ValidConfig(cfg) && Shape(cfg, s)
  {
    && AtOrigin(s, t) == 0 && AtFirstRouter(cfg, s, t) == 0
    && (forall r :: r in cfg.routers ==> AtRouter(s, r, t) == 0)
    && (forall e :: e in cfg.edges ==> ForEdge(s, e, t) == 0)
  }

  /** Exactly once at quiescence: when nothing of the Send is under way any more, an agent that was served since
      it was accepted, and is not an agent of the sender's MRN at the sender's edge router, has exactly one copy.
      Writes may have failed on the way. */
  lemma ExactlyOnce(cfg: Config, run: seq<Net>, steps: seq<Step>, k: nat, n: nat, a: Agent, t: SendId)
    requires IsRun(cfg, run, steps) && a in cfg.agents && ServedThroughout(cfg, run, steps, k, n, a, t)
    requires cfg.home(a) != t.edge || cfg.mrn(a) != cfg.mrn(steps[k].a)
    ensures Has(cfg, run[n], a) && (Quiet(cfg, run[n], t) ==> AgentCopies(run[n], a, t) == 1)
  {
    hide Init, AllOk, Enabled, Apply, Potential, Served, Sends, LosesPublication, Quiet, AgentCopies;
    PotentialIsOne(cfg, run, steps, k, n, a, t);
    if Quiet(cfg, run[n], t) { QuietPotential(cfg, run[n], a, t); }
  }

  /** What a lost publication costs: when nothing of the Send is under way any more, an agent that was served since has
      no copy exactly when it is at another router than the sender and a publication of the Send was lost, and one copy
      otherwise. */
  lemma CopiesExactly(cfg: Config, run: seq<Net>, steps: seq<Step>, k: nat, n: nat, a: Agent, t: SendId)
    requires IsRun(cfg, run, steps) && a in cfg.agents && ServedFrom(cfg, run, steps, k, n, a, t)
    requires cfg.home(a) != t.edge || cfg.mrn(a) != cfg.mrn(steps[k].a)
    ensures Has(cfg, run[n], a)
    ensures Quiet(cfg, run[n], t) ==> AgentCopies(run[n], a, t) == LeftOf(cfg, a, t, EverLost(run, steps, k, n, t))
  {
    PotentialExactly(cfg, run, steps, k, n, a, t);
    hide IsRun, ServedFrom, EverLost, Potential, Quiet, AgentCopies, Has, LeftOf;
    if Quiet(cfg, run[n], t) { QuietPotential(cfg, run[n], a, t); }
  }

  lemma QuietPotential(cfg: Config, s: Net, a: Agent, t: SendId)
    requires Has(cfg, s, a) && Quiet(cfg, s, t)
    ensures Potential(cfg, s, a, t) == AgentCopies(s, a, t)
  {
    hide AtOrigin, AtFirstRouter, AtRouter, ForEdge, AgentCopies;
  }
}
