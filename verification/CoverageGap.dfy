/** A subject that is also an agent's MRN: leaving direct messages withdraws the subject as well, and a local
    subscriber of it is missed from then on. */
module CoverageGap {
  import opened Mmtp
  import opened MailboxSpec
  import opened Routing
  import opened Network
  import opened Coverage

  /** One agent, whose MRN is "m", at one edge router at one router. */
  function Single(): Config {
    Config({0}, {"e"}, {0}, _ => "e", _ => "m", _ => 0, _ => true)
  }

  function Sub(): Message {
    SubjectRequest("u", "m")
  }

  function Unsub(): Message {
    WithdrawRequest("v", "m")
  }

  /** What of a state matters here: the edge router, the router, and which UUIDs are taken. */
  ghost predicate Looks(s: Net, edge: EdgeState, router: RouterState, taken: set<string>) {
    && Shape(Single(), s) && s.now == 0 && s.edges["e"] == edge && s.routers[0] == router
    && s.ebox["e"] == Box(map[], map[]) && s.names.Keys == taken
  }

  const NEW_EDGE := EdgeState(map[], Outbox([], map[], []), [], [])
  const NEW_ROUTER := RouterState(map[], {}, multiset{}, [], [], [], multiset{})

  function Table(): Table<Agent> {
    AddSubscriber(map[], "m", 0)
  }

  /** The edge router when the queue, the link and the answers are these. */
  function Edge(queue: seq<Message>, awaiting: Store, written: seq<Message>, up: seq<Message>,
                down: seq<Message>): EdgeState { EdgeState(Table(), Outbox(queue, awaiting, written), up, down) }

  function Subscribed(): RouterState {
    RouterSubscribe(NEW_ROUTER, "e", "m", JoinWorks).0
  }

  function Withdrawn(): RouterState {
    Subscribed().(table := DropSubscriber(Subscribed().table, "m", "e"))
  }

  function Accepted(to: string, replyId: string): Message {
    GoodReply(replyId, to, [], [])
  }

  lemma Subscribes(s: Net) returns (n: Net)
    requires Looks(s, NEW_EDGE, NEW_ROUTER, {})
    ensures
      var step := AgentDoes(0, SubscribeStep("m", "u"));
      && Enabled(Single(), s, step) && n == Apply(Single(), s, step)
      && Looks(n, Edge([Sub()], map[], [], [], []), NEW_ROUTER, {"u"})
  {
    n := DoSubscribe(s, "e", 0, "m", "u");
  }

  lemma Leaves(s: Net) returns (n: Net)
    requires Looks(s, Edge([Sub()], map[], [], [], []), NEW_ROUTER, {"u"})
    ensures
      var step := AgentDoes(0, UnsubscribeDirectStep("v"));
      && Enabled(Single(), s, step) && n == Apply(Single(), s, step)
      && Looks(n, Edge([Sub(), Unsub()], map[], [], [], []), NEW_ROUTER, {"u", "v"})
  {
    n := Push(s, "e", Unsub());
  }

  lemma WritesSub(s: Net) returns (n: Net)
    requires Looks(s, Edge([Sub(), Unsub()], map[], [], [], []), NEW_ROUTER, {"u", "v"})
    ensures
      var step := EdgeDoes("e", WriteStep(true));
      && Enabled(Single(), s, step) && n == Apply(Single(), s, step)
      && Looks(n, Edge([Unsub()], map["u" := Sub()], [Sub()], [Sub()], []), NEW_ROUTER, {"u", "v"})
  {
    n := DoWrite(s, "e", true);
    assert [Sub(), Unsub()][1..] == [Unsub()];
  }

  lemma WritesUnsub(s: Net) returns (n: Net)
    requires Looks(s, Edge([Unsub()], map["u" := Sub()], [Sub()], [Sub()], []), NEW_ROUTER, {"u", "v"})
    ensures
      var step := EdgeDoes("e", WriteStep(true));
      && Enabled(Single(), s, step) && n == Apply(Single(), s, step)
      && Looks(n, Edge([], map["u" := Sub(), "v" := Unsub()], [Sub(), Unsub()], [Sub(), Unsub()], []),
               NEW_ROUTER, {"u", "v"})
  {
    n := DoWrite(s, "e", true);
    assert [Unsub()][1..] == [];
  }

  lemma Accepts(s: Net) returns (n: Net)
    requires Looks(s, Edge([], map["u" := Sub(), "v" := Unsub()], [Sub(), Unsub()], [Sub(), Unsub()], []),
                   NEW_ROUTER, {"u", "v"})
    ensures
      var step := EdgeDoes("e", UplinkStep("x", true, JoinWorks, []));
      && Enabled(Single(), s, step) && n == Apply(Single(), s, step)
      && Looks(n, Edge([], map["u" := Sub(), "v" := Unsub()], [Sub(), Unsub()], [Unsub()], [Accepted("u", "x")]),
               Subscribed(), {"u", "v"})
  {
    NothingListed();
    n := DoUplink(s, "e", 0, "x", true, JoinWorks, []);
    assert [Sub(), Unsub()][1..] == [Unsub()];
  }

  lemma Drops(s: Net) returns (n: Net)
    requires Looks(s, Edge([], map["u" := Sub(), "v" := Unsub()], [Sub(), Unsub()], [Unsub()], [Accepted("u", "x")]),
                   Subscribed(), {"u", "v"})
    ensures
      var step := EdgeDoes("e", UplinkStep("y", true, JoinWorks, []));
      && Enabled(Single(), s, step) && n == Apply(Single(), s, step)
      && Looks(n, Edge([], map["u" := Sub(), "v" := Unsub()], [Sub(), Unsub()], [],
                       [Accepted("u", "x"), Accepted("v", "y")]),
               Withdrawn(), {"u", "v"})
  {
    NothingListed();
    n := DoUplink(s, "e", 0, "y", true, JoinWorks, []);
    assert [Unsub()][1..] == [];
  }

  lemma FirstSettled()
    ensures
      var o := Outbox([], map["u" := Sub(), "v" := Unsub()], [Sub(), Unsub()]);
      && Settle(o, Accepted("u", "x").body.response) == o.(awaiting := o.awaiting - {"u"})
      && Delivering(Accepted("u", "x")) == []
  {
  }

  lemma Hears(s: Net) returns (n: Net)
    requires Looks(s, Edge([], map["u" := Sub(), "v" := Unsub()], [Sub(), Unsub()], [],
                           [Accepted("u", "x"), Accepted("v", "y")]),
                   Withdrawn(), {"u", "v"})
    ensures
      var step := EdgeDoes("e", DownlinkStep([], "w"));
      && Enabled(Single(), s, step) && n == Apply(Single(), s, step)
      && Looks(n, Edge([], map["u" := Sub(), "v" := Unsub()] - {"u"}, [Sub(), Unsub()], [], [Accepted("v", "y")]),
               Withdrawn(), {"u", "v"})
  {
    hide Settle, Delivering, Deliver, DoUplink, DoPull, DoWrite, ExpireEdge, RequestOf;
    FirstSettled();
    n := DoDownlink(s, "e", [], "w");
    assert [Accepted("u", "x"), Accepted("v", "y")][1..] == [Accepted("v", "y")];
  }

  lemma StartLooks(s: Net)
    requires Init(Single(), s) && s.now == 0
    ensures Looks(s, NEW_EDGE, NEW_ROUTER, {})
  {
  }

  lemma EndLooks(s: Net)
    requires Looks(s, Edge([], map["u" := Sub(), "v" := Unsub()] - {"u"}, [Sub(), Unsub()], [], [Accepted("v", "y")]),
                   Withdrawn(), {"u", "v"})
    ensures
      && "e" in s.edges && 0 in Subscribers(s.edges["e"].subs, "m")
      && s.edges["e"].out.queue == [] && "u" !in s.edges["e"].out.awaiting
      && !Joined(Single(), s, "e", "m")
  {
  }

  /** The run: the agent subscribes to its own MRN as a subject and later unsubscribes from direct messages. In the end
      it is a subscriber at its edge router still, nothing is to be written, no answer about the subject is awaited, and
      the router has no entry for the edge router. */
  lemma MissesSubscriber(start: Net) returns (run: seq<Net>, steps: seq<Step>)
    requires Init(Single(), start) && start.now == 0
    ensures IsRun(Single(), run, steps) && |steps| == 7 && EverLosesTrack(run, steps, 0, 7, "e", "m", Sub())
    ensures
      var s := run[7];
      && "e" in s.edges && 0 in Subscribers(s.edges["e"].subs, "m")
      && s.edges["e"].out.queue == [] && "u" !in s.edges["e"].out.awaiting
      && !Joined(Single(), s, "e", "m")
  {
    hide Looks, IsRun, FirstSubscribe, EverLosesTrack, Enabled, Apply, Edge, Sub, Unsub, Accepted, Withdrawn,
         Subscribed;
    StartLooks(start);
    StartsSubscribing(start);
    Alone(start);
    run, steps := [start], [];
    var n := Subscribes(start);
    run, steps := Longer(run, steps, AgentDoes(0, SubscribeStep("m", "u")), n);
    n := Leaves(n);
    run, steps := Longer(run, steps, AgentDoes(0, UnsubscribeDirectStep("v")), n);
    n := WritesSub(n);
    run, steps := Longer(run, steps, EdgeDoes("e", WriteStep(true)), n);
    n := WritesUnsub(n);
    run, steps := Longer(run, steps, EdgeDoes("e", WriteStep(true)), n);
    n := Accepts(n);
    run, steps := Longer(run, steps, EdgeDoes("e", UplinkStep("x", true, JoinWorks, [])), n);
    n := Drops(n);
    run, steps := Longer(run, steps, EdgeDoes("e", UplinkStep("y", true, JoinWorks, [])), n);
    n := Hears(n);
    run, steps := Longer(run, steps, EdgeDoes("e", DownlinkStep([], "w")), n);
    EndLooks(n);
    LosesTrackOnce(run, steps);
  }

  lemma StartsSubscribing(s: Net)
    requires Looks(s, NEW_EDGE, NEW_ROUTER, {})
    ensures FirstSubscribe(Single(), s, AgentDoes(0, SubscribeStep("m", "u")), "e", "m", "u")
  {
  }

  /** In the end the Subscribe is not tracked, so some step lost track of it. */
  lemma LosesTrackOnce(run: seq<Net>, steps: seq<Step>)
    requires IsRun(Single(), run, steps) && |steps| == 7 && |run| == 8
    requires FirstSubscribe(Single(), run[0], steps[0], "e", "m", "u")
    requires
      var s := run[7];
      && "e" in s.edges && s.edges["e"].out.queue == [] && "u" !in s.edges["e"].out.awaiting
      && !Joined(Single(), s, "e", "m")
    ensures EverLosesTrack(run, steps, 0, 7, "e", "m", Sub())
  {
    hide IsRun, FirstSubscribe, Joined, LosesTrack;
    assert !TrackedIn(Single(), run[7], "e", "m", "u");
    RunCoverageExactly(Single(), run, steps, 0, 7, "e", "m", "u");
  }

  lemma Alone(start: Net)
    requires Init(Single(), start)
    ensures IsRun(Single(), [start], [])
  {
  }

  lemma Longer(run: seq<Net>, steps: seq<Step>, step: Step, n: Net) returns (run': seq<Net>, steps': seq<Step>)
    requires IsRun(Single(), run, steps)
    requires Enabled(Single(), run[|steps|], step) && n == Apply(Single(), run[|steps|], step)
    ensures IsRun(Single(), run', steps') && |run'| == |run| + 1 && |steps'| == |steps| + 1 && run'[|steps'|] == n
    ensures run'[0] == run[0] && steps'[0] == if steps == [] then step else steps[0]
  {
    hide Init, Enabled, Apply;
    run', steps' := run + [n], steps + [step];
  }
}
