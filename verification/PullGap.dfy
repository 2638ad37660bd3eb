/** What a failed response to a Receive can cost: a run in which a subscriber that the tables serve all along never gets
    a message, although no message is on its way any more. */
module PullGap {
  import opened Mmtp
  import opened MailboxSpec
  import opened Routing
  import opened Network
  import opened Copies
  import opened PotentialSpec
  import opened AtMostOnce
  import opened Pull

  /** Agent 0, "a", at the edge router "e" and agent 1, "b", at "f"; both edge routers at one router. */
  function Pair(): Config {
    Config({0, 1}, {"e", "f"}, {0},
           a => if a == 0 then "e" else "f", a => if a == 0 then "a" else "b", _ => 0, _ => true)
  }

  const SEND := SendId("e", 0)
  const APP := AppMessage(Some(Header(Subject("s"), 0, "a")), SEND)

  function Sub(): Message {
    SubjectRequest("u", "s")
  }

  function Msg(): Message {
    SendMessage("v", APP)
  }

  function Note(): Message {
    Message(ProtocolMessage, "w", Protocol(NotifyType, Notify([Metadata("v", HeaderOf(Msg()))])))
  }

  function Ask(): Message {
    ReceiveRequest("x", ["v"])
  }

  const NO_BOX := Box(map[], map[])
  const NEW_EDGE := EdgeState(map[], Outbox([], map[], []), [], [])

  /** The edge router "e" when it has this to write and this on its link. */
  function Sender(queue: seq<Message>, written: seq<Message>, up: seq<Message>): EdgeState {
    EdgeState(map[], Outbox(queue, map[], written), up, [])
  }

  /** The edge router "f", with its one subscriber. */
  function Receiver(queue: seq<Message>, awaiting: Store, written: seq<Message>, up: seq<Message>,
                    down: seq<Message>): EdgeState
  {
    EdgeState(map["s" := {1}], Outbox(queue, awaiting, written), up, down)
  }

  /** The router, once "f" has subscribed there or before. */
  function Relay(subscribed: bool, out: seq<Message>, pub: seq<Publication>): RouterState {
    if subscribed then RouterState(map["s" := {"f"}], {"s"}, multiset{"s"}, out, pub, [], multiset{"s"})
    else RouterState(map[], {}, multiset{}, out, pub, [], multiset{})
  }

  /** What of a state matters here. */
  ghost predicate Looks(s: Net, e: EdgeState, f: EdgeState, r: RouterState, box: Box, sent: bool, taken: set<string>) {
    && Shape(Pair(), s) && s.now == 0 && s.edges["e"] == e && s.edges["f"] == f && s.routers[0] == r
    && s.ebox["e"] == NO_BOX && s.ebox["f"] == box && s.abox[1] == NO_BOX && s.delivered[1] == []
    && s.names.Keys == taken && s.sent == if sent then map[SEND := APP] else map[]
  }

  /** Agent 1 is served with the Send in this state. */
  ghost predicate Serves(s: Net) {
    Has(Pair(), s, 1) && Served(Pair(), s, 1, SEND)
  }

  lemma OneListed(msgs: Store)
    requires msgs.Keys == {"v"}
    ensures ListsKeys(["v"], msgs)
  {
  }

  // ---- the states ----

  lemma AskRequests()
    ensures RequestOf(Ask()) == Collect(["v"]) && RequestOf(Msg()) == PassOn(Some(APP))
    ensures RequestOf(Sub()) == SubscribeTo("s")
    ensures AppOf(Msg()) == Some(APP) && AddressOf(APP) == Subject("s") && SubjectOf(APP) == "s" && AppOf(Ask()) == None
    ensures Note().body.Protocol? && Note().body.kind.NotifyType? && Note().body.payload.Notify?
    ensures MetadataIds(Note().body.payload.metadata) == ["v"] && Delivering(Note()) == []
  {
    assert MetadataIds(Note().body.payload.metadata) == ["v"];
  }

  /** A failed response leaves the message and drops its notification. */
  lemma BoxWhenFailed(b: Box)
    requires b == Box(map["v" := Msg()], map[])
    ensures BoxAfterReceive(b, ["v"], 0, false) == b && Live(b.messages, 0) == b.messages
  {
    assert b.notifications - (SetOf(["v"]) * b.messages.Keys) == map[];
  }

  lemma FirstAccepted()
    ensures RouterSubscribe(Relay(false, [], []), "f", "s", JoinWorks) == (Relay(true, [], []), true)
  {
    var st, none: set<Edge> := Relay(false, [], []), {};
    assert none + {"f"} == {"f"} && st.topics + {"s"} == {"s"};
    assert st.listeners + multiset{"s"} == multiset{"s"} && st.joins + multiset{"s"} == multiset{"s"};
  }

  lemma NoteUnpacked(s: Net)
    requires "f" in s.edges && Delivering(Note()) == []
    ensures Unpack(s, "f", Note(), [], "x") == Push(s, "f", Ask())
  {
    AskRequests();
  }

  ghost predicate At0(s: Net) {
    Looks(s, NEW_EDGE, NEW_EDGE,
          Relay(false, [], []), NO_BOX, false, {})
  }

  ghost predicate At1(s: Net) {
    Looks(s, NEW_EDGE, Receiver([Sub()], map[], [], [], []),
          Relay(false, [], []), NO_BOX, false, {"u"})
  }

  ghost predicate At2(s: Net) {
    Looks(s, NEW_EDGE, Receiver([], map["u" := Sub()], [Sub()], [Sub()], []),
          Relay(false, [], []), NO_BOX, false, {"u"})
  }

  ghost predicate At3(s: Net) {
    Looks(s, NEW_EDGE, Receiver([], map["u" := Sub()], [Sub()], [], []),
          Relay(true, [], []), NO_BOX, false, {"u"})
  }

  ghost predicate At4(s: Net) {
    Looks(s, Sender([Msg()], [], []), Receiver([], map["u" := Sub()], [Sub()], [], []),
          Relay(true, [], []), NO_BOX, true, {"u", "v"})
  }

  ghost predicate At5(s: Net) {
    Looks(s, Sender([], [Msg()], [Msg()]), Receiver([], map["u" := Sub()], [Sub()], [], []),
          Relay(true, [], []), NO_BOX, true, {"u", "v"})
  }

  ghost predicate At6(s: Net) {
    Looks(s, Sender([], [Msg()], []), Receiver([], map["u" := Sub()], [Sub()], [], []),
          Relay(true, [Msg()], []), Box(map["v" := Msg()], map["v" := Msg()]), true, {"u", "v"})
  }

  ghost predicate At7(s: Net) {
    Looks(s, Sender([], [Msg()], []), Receiver([], map["u" := Sub()], [Sub()], [], [Note()]),
          Relay(true, [Msg()], []), Box(map["v" := Msg()], map[]), true, {"u", "v"})
  }

  ghost predicate At8(s: Net) {
    Looks(s, Sender([], [Msg()], []), Receiver([Ask()], map["u" := Sub()], [Sub()], [], []),
          Relay(true, [Msg()], []), Box(map["v" := Msg()], map[]), true, {"u", "v", "x"})
  }

  ghost predicate At9(s: Net) {
    Looks(s, Sender([], [Msg()], []), Receiver([], map["u" := Sub()], [Sub(), Ask()], [Ask()], []),
          Relay(true, [Msg()], []), Box(map["v" := Msg()], map[]), true, {"u", "v", "x"})
  }

  ghost predicate At10(s: Net) {
    Looks(s, Sender([], [Msg()], []), Receiver([], map["u" := Sub()], [Sub(), Ask()], [], []),
          Relay(true, [Msg()], []), Box(map["v" := Msg()], map[]), true, {"u", "v", "x"})
  }

  ghost predicate At11(s: Net) {
    Looks(s, Sender([], [Msg()], []), Receiver([], map["u" := Sub()], [Sub(), Ask()], [], []),
          Relay(true, [], [Publication(0, Msg())]), Box(map["v" := Msg()], map[]), true, {"u", "v", "x"})
  }

  ghost predicate At12(s: Net) {
    Looks(s, Sender([], [Msg()], []), Receiver([], map["u" := Sub()], [Sub(), Ask()], [], []),
          Relay(true, [], []), Box(map["v" := Msg()], map[]), true, {"u", "v", "x"})
  }

  // ---- the steps ----

  lemma Subscribes(s: Net) returns (n: Net)
    requires At0(s)
    ensures At1(n) && Enabled(Pair(), s, AgentDoes(1, SubscribeStep("s", "u")))
    ensures n == Apply(Pair(), s, AgentDoes(1, SubscribeStep("s", "u")))
  {
    hide DoUplink, DoPull, DoDownlink, DoSend, DoWrite;
    var none: set<Agent> := {};
    assert none + {1} == {1};
    assert AddSubscriber(map[], "s", 1) == map["s" := {1}];
    n := DoSubscribe(s, "f", 1, "s", "u");
  }

  lemma WritesSub(s: Net) returns (n: Net)
    requires At1(s)
    ensures At2(n) && Enabled(Pair(), s, EdgeDoes("f", WriteStep(true)))
    ensures n == Apply(Pair(), s, EdgeDoes("f", WriteStep(true)))
  {
    assert [Sub()][1..] == [];
    n := DoWrite(s, "f", true);
  }

  lemma Accepts(s: Net) returns (n: Net)
    requires At2(s)
    ensures At3(n) && Enabled(Pair(), s, EdgeDoes("f", UplinkStep("y", false, JoinWorks, [])))
    ensures n == Apply(Pair(), s, EdgeDoes("f", UplinkStep("y", false, JoinWorks, [])))
  {
    hide RequestOf, BoxAfterReceive, DoReceive, DoRouterSend, DoRouterUnsubscribe, ListsKeys, Live, RouterSubscribe;
    AskRequests();
    NothingListed();
    FirstAccepted();
    n := DoUplink(s, "f", 0, "y", false, JoinWorks, []);
    assert [Sub()][1..] == [];
  }

  lemma SendAcceptable()
    ensures Acceptable(Pair(), 0, APP) && SendTargets(Pair(), map[], 0, APP) == {}
  {
  }

  lemma SendsMsg(s: Net) returns (n: Net)
    requires At3(s)
    ensures At4(n) && Enabled(Pair(), s, AgentDoes(0, SendStep("v", APP)))
    ensures n == Apply(Pair(), s, AgentDoes(0, SendStep("v", APP)))
  {
    hide DoSubscribe, DoUplink, DoPull, DoDownlink, DoWrite, DoPublish, DoListen, DoIncoming, ExpireEdge, FanOut,
         Acceptable, SendTargets;
    SendAcceptable();
    FanOutNobody(s.abox, Msg());
    n := DoSend(Pair(), s, "e", 0, "v", APP);
  }

  lemma WritesMsg(s: Net) returns (n: Net)
    requires At4(s)
    ensures At5(n) && Enabled(Pair(), s, EdgeDoes("e", WriteStep(true)))
    ensures n == Apply(Pair(), s, EdgeDoes("e", WriteStep(true)))
  {
    assert [Msg()][1..] == [];
    n := DoWrite(s, "e", true);
  }

  lemma PassesOn(s: Net) returns (n: Net)
    requires At5(s)
    ensures At6(n) && Enabled(Pair(), s, EdgeDoes("e", UplinkStep("y", false, JoinWorks, [])))
    ensures n == Apply(Pair(), s, EdgeDoes("e", UplinkStep("y", false, JoinWorks, [])))
  {
    hide RequestOf, BoxAfterReceive, DoReceive, DoRouterSubscribe, DoRouterUnsubscribe, ListsKeys, Live, Acceptable;
    AskRequests();
    NothingListed();
    n := DoUplink(s, "e", 0, "y", false, JoinWorks, []);
    assert [Msg()][1..] == [];
    assert {"f"} - {"e"} == {"f"};
  }

  lemma Announces(s: Net) returns (n: Net)
    requires At6(s)
    ensures At7(n) && Enabled(Pair(), s, EdgeDoes("f", PullStep("w", true, ["v"])))
    ensures n == Apply(Pair(), s, EdgeDoes("f", PullStep("w", true, ["v"])))
  {
    hide RequestOf, DoUplink, Live, DoDownlink, DoWrite, ExpireEdge;
    var due := s.ebox["f"].notifications;
    OneListed(due);
    n := DoPull(s, "f", true, ["v"], "w");
    assert n.edges["f"].down == [n.edges["f"].down[0]];
    var metadata := n.edges["f"].down[0].body.payload.metadata;
    assert metadata == [metadata[0]] && metadata[0] == Metadata("v", HeaderOf(Msg()));
  }

  lemma Requests(s: Net) returns (n: Net)
    requires At7(s)
    ensures At8(n) && Enabled(Pair(), s, EdgeDoes("f", DownlinkStep([], "x")))
    ensures n == Apply(Pair(), s, EdgeDoes("f", DownlinkStep([], "x")))
  {
    hide RequestOf, DoUplink, DoPull, Live, DoWrite, ExpireEdge, Unpack, Delivering;
    AskRequests();
    assert [Note()][1..] == [];
    NoteUnpacked(PopDown(s, "f"));
    n := Push(PopDown(s, "f"), "f", Ask());
  }

  lemma WritesAsk(s: Net) returns (n: Net)
    requires At8(s)
    ensures At9(n) && Enabled(Pair(), s, EdgeDoes("f", WriteStep(true)))
    ensures n == Apply(Pair(), s, EdgeDoes("f", WriteStep(true)))
  {
    assert [Ask()][1..] == [];
    n := DoWrite(s, "f", true);
  }

  lemma Fails(s: Net) returns (n: Net)
    requires At9(s)
    ensures At10(n) && Enabled(Pair(), s, EdgeDoes("f", UplinkStep("y", false, JoinWorks, ["v"])))
    ensures n == Apply(Pair(), s, EdgeDoes("f", UplinkStep("y", false, JoinWorks, ["v"])))
  {
    hide RequestOf, DoPull, DoDownlink, Live, DoWrite, ExpireEdge, BoxAfterReceive, Answer, ContentsFor, DoRouterSend,
         DoRouterSubscribe, DoRouterUnsubscribe;
    AskRequests();
    BoxWhenFailed(s.ebox["f"]);
    OneListed(s.ebox["f"].messages);
    assert [Ask()][1..] == [];
    n := DoReceive(PopUp(s, "f"), "f", Ask(), ["v"], "y", false, ["v"]);
    assert n == DoUplink(s, "f", 0, "y", false, JoinWorks, ["v"]);
  }

  lemma Publishes(s: Net) returns (n: Net)
    requires At10(s)
    ensures At11(n) && Enabled(Pair(), s, RouterDoes(0, PublishStep(Published)))
    ensures n == Apply(Pair(), s, RouterDoes(0, PublishStep(Published)))
  {
    assert [Msg()][1..] == [];
    n := DoPublish(s, 0, Published);
  }

  lemma Discards(s: Net) returns (n: Net)
    requires At11(s)
    ensures At12(n) && Enabled(Pair(), s, RouterDoes(0, ListenStep))
    ensures n == Apply(Pair(), s, RouterDoes(0, ListenStep))
  {
    assert [Publication(0, Msg())][1..] == [];
    n := DoListen(Pair(), s, 0);
  }

  // ---- the run ----

  /** The run so far: agent 1 is served in every state since the Send, and no publication has failed. */
  ghost predicate Going(run: seq<Net>, steps: seq<Step>) {
    && IsRun(Pair(), run, steps)
    && (|steps| > 3 ==> steps[3] == AgentDoes(0, SendStep("v", APP)))
    && (forall i :: 3 < i < |run| ==> Serves(run[i]))
    && (forall i :: 3 < i < |steps| ==> !LosesPublication(run[i], steps[i], SEND))
  }

  lemma NotLost(s: Net, step: Step)
    requires step.RouterDoes? && step.router.PublishStep? ==> step.router.result.Published?
    ensures !LosesPublication(s, step, SEND)
  {
  }

  lemma Longer(run: seq<Net>, steps: seq<Step>, step: Step, n: Net) returns (run': seq<Net>, steps': seq<Step>)
    requires Going(run, steps) && Enabled(Pair(), run[|steps|], step) && n == Apply(Pair(), run[|steps|], step)
    requires |steps| == 3 ==> step == AgentDoes(0, SendStep("v", APP))
    requires |steps| >= 3 ==> Serves(n)
    requires step.RouterDoes? && step.router.PublishStep? ==> step.router.result.Published?
    ensures Going(run', steps') && |steps'| == |steps| + 1 && |run'| == |run| + 1 && run'[|steps'|] == n
    ensures run'[0] == run[0] && steps'[0] == if steps == [] then step else steps[0]
  {
    hide Init, Enabled, Apply, Serves, LosesPublication;
    NotLost(run[|steps|], step);
    run', steps' := run + [n], steps + [step];
  }

  lemma ServedHere(s: Net, e: EdgeState, f: EdgeState, r: RouterState, box: Box, taken: set<string>)
    requires Looks(s, e, f, r, box, true, taken) && f.subs == map["s" := {1}] && r.table == map["s" := {"f"}]
    ensures Serves(s)
  {
  }

  lemma ServedSince(s: Net)
    requires At4(s) || At5(s) || At6(s) || At7(s) || At8(s) || At9(s) || At10(s) || At11(s) || At12(s)
    ensures Serves(s)
  {
    hide Serves, Looks;
    var b1, b2 := Box(map["v" := Msg()], map["v" := Msg()]), Box(map["v" := Msg()], map[]);
    var wrote, aw := Sender([], [Msg()], []), map["u" := Sub()];
    if At4(s) {
      ServedHere(s, Sender([Msg()], [], []), Receiver([], aw, [Sub()], [], []), Relay(true, [], []), NO_BOX,
                 {"u", "v"});
    } else if At5(s) {
      ServedHere(s, Sender([], [Msg()], [Msg()]), Receiver([], aw, [Sub()], [], []), Relay(true, [], []), NO_BOX,
                 {"u", "v"});
    } else if At6(s) {
      ServedHere(s, wrote, Receiver([], aw, [Sub()], [], []), Relay(true, [Msg()], []), b1, {"u", "v"});
    } else if At7(s) {
      ServedHere(s, wrote, Receiver([], aw, [Sub()], [], [Note()]), Relay(true, [Msg()], []), b2, {"u", "v"});
    } else if At8(s) {
      ServedHere(s, wrote, Receiver([Ask()], aw, [Sub()], [], []), Relay(true, [Msg()], []), b2, {"u", "v", "x"});
    } else if At9(s) {
      ServedHere(s, wrote, Receiver([], aw, [Sub(), Ask()], [Ask()], []), Relay(true, [Msg()], []), b2,
                 {"u", "v", "x"});
    } else {
      var f := Receiver([], aw, [Sub(), Ask()], [], []);
      var r := if At10(s) then Relay(true, [Msg()], [])
               else Relay(true, [], if At11(s) then [Publication(0, Msg())] else []);
      ServedHere(s, wrote, f, r, b2, {"u", "v", "x"});
    }
  }

  lemma StartLooks(s: Net)
    requires Init(Pair(), s) && s.now == 0
    ensures At0(s) && Going([s], [])
  {
  }

  lemma NoCopy(s: Net)
    requires 1 in s.abox && 1 in s.delivered && s.abox[1] == NO_BOX && s.delivered[1] == []
    ensures AgentCopies(s, 1, SEND) == 0
  {
    CountEmpty(SEND);
  }

  /** In the end nothing is on its way, the message is in the mailbox of "f", and agent 1 has no copy. */
  lemma EndLooks(s: Net)
    requires At12(s)
    ensures Has(Pair(), s, 1) && Idle(Pair(), s) && AgentCopies(s, 1, SEND) == 0 && "v" in s.ebox["f"].messages
  {
    hide AgentCopies, Sub, Msg, Ask;
    NoCopy(s);
  }

  /** Up to the Send. */
  lemma Beginning(start: Net) returns (run: seq<Net>, steps: seq<Step>)
    requires Init(Pair(), start) && start.now == 0
    ensures Going(run, steps) && |steps| == 6 && |run| == 7 && At6(run[6])
  {
    hide Going, Enabled, Apply, Init, Serves, At0, At1, At2, At3, At4, At5, At6;
    StartLooks(start);
    run, steps := [start], [];
    var n := Subscribes(start);
    run, steps := Longer(run, steps, AgentDoes(1, SubscribeStep("s", "u")), n);
    n := WritesSub(n);
    run, steps := Longer(run, steps, EdgeDoes("f", WriteStep(true)), n);
    n := Accepts(n);
    run, steps := Longer(run, steps, EdgeDoes("f", UplinkStep("y", false, JoinWorks, [])), n);
    n := SendsMsg(n);
    ServedSince(n);
    run, steps := Longer(run, steps, AgentDoes(0, SendStep("v", APP)), n);
    n := WritesMsg(n);
    ServedSince(n);
    run, steps := Longer(run, steps, EdgeDoes("e", WriteStep(true)), n);
    n := PassesOn(n);
    ServedSince(n);
    run, steps := Longer(run, steps, EdgeDoes("e", UplinkStep("y", false, JoinWorks, [])), n);
  }

  /** The run: an agent at "e" sends to a subject that the agent at "f" subscribed to, the Notify and the Receive go
      through, the response fails. Everything drains, every table serves the agent all along, and it has no copy. */
  lemma NeverDelivered(start: Net) returns (run: seq<Net>, steps: seq<Step>)
    requires Init(Pair(), start) && start.now == 0
    ensures IsRun(Pair(), run, steps) && |steps| == 12
    ensures ServedThroughout(Pair(), run, steps, 3, 12, 1, SEND)
    ensures Has(Pair(), run[12], 1) && Idle(Pair(), run[12]) && AgentCopies(run[12], 1, SEND) == 0
    ensures EverStrands(run, steps, 12, "f", "v")
  {
    hide Going, Enabled, Apply, Init, Serves, Idle, At6, At7, At8, At9, At10, At11, At12;
    run, steps := Beginning(start);
    var n := Announces(run[6]);
    ServedSince(n);
    run, steps := Longer(run, steps, EdgeDoes("f", PullStep("w", true, ["v"])), n);
    n := Requests(n);
    ServedSince(n);
    run, steps := Longer(run, steps, EdgeDoes("f", DownlinkStep([], "x")), n);
    n := WritesAsk(n);
    ServedSince(n);
    run, steps := Longer(run, steps, EdgeDoes("f", WriteStep(true)), n);
    n := Fails(n);
    ServedSince(n);
    run, steps := Longer(run, steps, EdgeDoes("f", UplinkStep("y", false, JoinWorks, ["v"])), n);
    n := Publishes(n);
    ServedSince(n);
    run, steps := Longer(run, steps, RouterDoes(0, PublishStep(Published)), n);
    n := Discards(n);
    ServedSince(n);
    run, steps := Longer(run, steps, RouterDoes(0, ListenStep), n);
    EndLooks(n);
    Ends(run, steps);
  }

  lemma GoingOn(run: seq<Net>, steps: seq<Step>)
    requires Going(run, steps) && |steps| == 12
    ensures IsRun(Pair(), run, steps) && |run| == 13 && ServedThroughout(Pair(), run, steps, 3, 12, 1, SEND)
  {
    hide Enabled, Apply, Init, Served, LosesPublication, Has;
    forall i | 3 < i <= 12 ensures Has(Pair(), run[i], 1) && Served(Pair(), run[i], 1, SEND) { assert Serves(run[i]); }
  }

  lemma Ends(run: seq<Net>, steps: seq<Step>)
    requires Going(run, steps) && |steps| == 12 && |run| == 13
    requires Has(Pair(), run[12], 1) && Idle(Pair(), run[12]) && "v" in run[12].ebox["f"].messages
    ensures IsRun(Pair(), run, steps) && ServedThroughout(Pair(), run, steps, 3, 12, 1, SEND)
    ensures EverStrands(run, steps, 12, "f", "v")
  {
    hide Going, Idle, EverStrands, IsRun, ServedThroughout;
    GoingOn(run, steps);
    IdleMeansEmptied(Pair(), run, steps, 12, "f", "v");
  }
}
