/** What a lost refusal costs: a run after which nothing is on its way, and the router never gets to know that the edge
    router has a subscriber. */
module AwaitingGap {
  import opened Mmtp
  import opened MailboxSpec
  import opened Routing
  import opened Network
  import opened NetworkInvariant
  import opened Copies
  import opened Coverage
  import opened Awaiting
  import opened PotentialSpec
  import opened Pull
  import opened PullGap

  /** The Subscribe was written, refused, and the refusal was not written. */
  ghost predicate Refused(s: Net) {
    Looks(s, NEW_EDGE, Receiver([], map["u" := Sub()], [Sub()], [], []), Relay(false, [], []), NO_BOX, false, {"u"})
  }

  lemma RefusesUnheard(s: Net) returns (n: Net)
    requires At2(s)
    ensures Refused(n) && Enabled(Pair(), s, EdgeDoes("f", UplinkStep("y", false, JoinFailed, [])))
    ensures n == Apply(Pair(), s, EdgeDoes("f", UplinkStep("y", false, JoinFailed, [])))
  {
    hide RequestOf, BoxAfterReceive, DoReceive, DoRouterSend, DoRouterUnsubscribe, ListsKeys, Live;
    AskRequests();
    NothingListed();
    n := DoUplink(s, "f", 0, "y", false, JoinFailed, []);
    assert [Sub()][1..] == [];
  }

  lemma NothingUnderWay(s: Net)
    requires Refused(s)
    ensures Shape(Pair(), s) && ValidConfig(Pair()) && Idle(Pair(), s) && 1 in Subscribers(s.edges["f"].subs, "s")
    ensures Missed(Pair(), s, "f", "s", Sub())
  {
    hide Missed, Sub;
    RefusedMissed(s);
  }

  lemma RefusedMissed(s: Net)
    requires Refused(s)
    ensures Missed(Pair(), s, "f", "s", Sub())
  {
    hide Waiting, Sub, Receiver;
    NoAnswerComes();
  }

  lemma NoAnswerComes()
    ensures Waiting(Receiver([], map["u" := Sub()], [Sub()], [], []), Sub())
  {
  }

  /** The run: the subject's only Subscribe is refused because the topic cannot be joined, and the refusal is lost. The
      network is idle, the agent is a subscriber, and the router has no entry for its edge router; as the subject is
      nobody's MRN, that is so in every state of every continuation. */
  lemma NeverAccepted(start: Net) returns (run: seq<Net>, steps: seq<Step>)
    requires Init(Pair(), start) && start.now == 0
    ensures IsRun(Pair(), run, steps) && |steps| == 3 && FirstAt(Pair(), run, steps, 0, "f", "s", "u")
    ensures Shape(Pair(), run[3]) && ValidConfig(Pair()) && Idle(Pair(), run[3])
    ensures 1 in Subscribers(run[3].edges["f"].subs, "s") && Missed(Pair(), run[3], "f", "s", Sub())
    ensures EverGivesUp(Pair(), run, steps, 0, 3, "f", "s", Sub())
  {
    hide Enabled, Apply, Init, At0, At1, At2, Refused, Going, Missed, EverGivesUp, Idle, FirstSubscribe, Shape;
    StartLooks(start);
    run, steps := [start], [];
    StartsSubscribing(start);
    var n := Subscribes(start);
    run, steps := Longer(run, steps, AgentDoes(1, SubscribeStep("s", "u")), n);
    n := WritesSub(n);
    run, steps := Longer(run, steps, EdgeDoes("f", WriteStep(true)), n);
    n := RefusesUnheard(n);
    run, steps := Longer(run, steps, EdgeDoes("f", UplinkStep("y", false, JoinFailed, [])), n);
    NothingUnderWay(n);
    GivenUp(run, steps);
  }

  lemma StartsSubscribing(s: Net)
    requires At0(s)
    ensures FirstSubscribe(Pair(), s, AgentDoes(1, SubscribeStep("s", "u")), "f", "s", "u")
  {
  }

  lemma GivenUp(run: seq<Net>, steps: seq<Step>)
    requires Going(run, steps) && |steps| == 3 && |run| == 4
    requires FirstSubscribe(Pair(), run[0], steps[0], "f", "s", "u") && Missed(Pair(), run[3], "f", "s", Sub())
    ensures IsRun(Pair(), run, steps) && EverGivesUp(Pair(), run, steps, 0, 3, "f", "s", Sub())
  {
    hide Enabled, Apply, Init, Missed, GivesUp, FirstSubscribe, Serves, LosesPublication;
    RunMissedExactly(Pair(), run, steps, 0, 3, "f", "s", "u");
  }
}
