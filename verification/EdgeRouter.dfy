/** The edge router of edgerouter/edgerouter.go, run with TLS: objects whose methods update tables, mailboxes and the
    outgoing channel in place. Each method is proved against the value-level operations of Routing. */
module EdgeRouters {
  import opened Mmtp
  import opened MailboxSpec
  import opened Routing
  import opened Interests
  import opened Consumers
  import opened Outboxes

  class Agent {
    const consumer: Consumer
    const agentUuid: string
    const authenticated: bool
    var directMessages: bool

    constructor (mrn: string, agentUuid: string, authenticated: bool)
      ensures fresh(consumer) && consumer.mrn == mrn && consumer.View() == Box(map[], map[]) && consumer.interests == []
      ensures this.agentUuid == agentUuid && this.authenticated == authenticated && !directMessages
    {
      consumer := new Consumer(mrn);
      this.agentUuid, this.authenticated, directMessages := agentUuid, authenticated, false;
    }
  }

  class Subscription {
    const interest: string
    var subscribers: map<string, Agent>

    constructor (interest: string)
      ensures this.interest == interest && subscribers == map[]
    {
      this.interest, subscribers := interest, map[];
    }

    method AddSubscriber(agent: Agent)
      modifies this`subscribers
      ensures subscribers == old(subscribers)[agent.agentUuid := agent]
    {
      subscribers := subscribers[agent.agentUuid := agent];
    }

    method DeleteSubscriber(agent: Agent)
      modifies this`subscribers
      ensures subscribers == old(subscribers) - {agent.agentUuid}
    {
      subscribers := subscribers - {agent.agentUuid};
    }

    method SnapshotSubscribers() returns (agents: seq<Agent>)
      ensures forall a :: a in agents <==> a in subscribers.Values
    {
      agents := [];
      var todo := subscribers.Keys;
      while todo != {}
        invariant todo <= subscribers.Keys
        invariant forall a :: a in agents <==> exists u :: u in subscribers && u !in todo && subscribers[u] == a
        decreases todo
      {
        var u :| u in todo;
        agents := agents + [subscribers[u]];
        todo := todo - {u};
      }
    }
  }

  // ---- what mailboxes hold ----

  predicate ToRecipients(m: Message) {
    AddressIn(m).Recipients?
  }

  /** A message addressed to recipients lists `mrn` among them. */
  predicate Lists(mrn: string, m: Message) {
    ToRecipients(m) ==> mrn != "" && mrn in AddressIn(m).recipients
  }

  /** `m` may be in the mailbox of the holder of `mrn`, who was sent `notes` while taking direct messages. */
  ghost predicate MayHold(mrn: string, notes: set<Message>, m: Message) {
    Lists(mrn, m) && (ToRecipients(m) ==> m in notes)
  }

  /** A well-formed mailbox whose recipient-addressed messages are for the owner's MRN and came while the owner took
      direct messages. */
  ghost predicate Admitted(mrn: string, notes: set<Message>, b: Box) {
    && WellFormed(b)
    && (forall u :: u in b.messages ==> MayHold(mrn, notes, b.messages[u]))
    && (forall u :: u in b.notifications ==> MayHold(mrn, notes, b.notifications[u]))
  }

  type Notes = map<string, set<Message>>

  /** The history of what consumers were sent while they took direct messages, after `m` was queued for `targets`. */
  function Noted(notes: Notes, targets: set<string>, direct: set<string>, m: Message): (r: Notes)
    ensures r.Keys == notes.Keys
  {
    map u | u in notes :: if m.uuid != "" && u in targets && u in direct then notes[u] + {m} else notes[u]
  }

  lemma NotedNobody(notes: Notes, direct: set<string>, m: Message)
    ensures Noted(notes, {}, direct, m) == notes
  {
  }

  lemma NotedTwice(notes: Notes, targets: set<string>, more: set<string>, direct: set<string>, m: Message)
    ensures Noted(Noted(notes, targets, direct, m), more, direct, m) == Noted(notes, targets + more, direct, m)
  {
  }

  ghost predicate AllAdmitted(mrns: map<string, string>, notes: Notes, boxes: map<string, Box>) {
    boxes.Keys == mrns.Keys == notes.Keys && forall u :: u in boxes ==> Admitted(mrns[u], notes[u], boxes[u])
  }

  lemma QueueAdmitted(mrn: string, notes: set<Message>, more: set<Message>, b: Box, m: Message)
    requires Admitted(mrn, notes, b) && notes <= more && (m.uuid != "" ==> MayHold(mrn, more, m) && HeaderOf(m).Some?)
    ensures Admitted(mrn, more, Queue(b, m)) && Admitted(mrn, more, b)
  {
  }

  lemma NewcomerAdmitted(mrns: map<string, string>, notes: Notes, boxes: map<string, Box>, u: string, mrn: string)
    requires AllAdmitted(mrns, notes, boxes)
    ensures AllAdmitted(mrns[u := mrn], notes[u := {}], boxes[u := Box(map[], map[])])
  {
  }

  lemma LessAdmitted(mrn: string, notes: set<Message>, b: Box, c: Box)
    requires Admitted(mrn, notes, b) && WellFormed(c) && Less(c, b)
    ensures Admitted(mrn, notes, c)
  {
  }

  /** Fan-out keeps the mailboxes in order when every target may get the message. */
  lemma FanOutAdmitted(mrns: map<string, string>, notes: Notes, boxes: map<string, Box>, targets: set<string>,
                       direct: set<string>, m: Message)
    requires AllAdmitted(mrns, notes, boxes) && (targets != {} ==> HeaderOf(m).Some?)
    requires forall u :: u in targets && u in mrns ==> Lists(mrns[u], m) && (ToRecipients(m) ==> u in direct)
    ensures AllAdmitted(mrns, Noted(notes, targets, direct, m), FanOut(boxes, targets, m))
  {
    var later := Noted(notes, targets, direct, m);
    forall u | u in boxes ensures Admitted(mrns[u], later[u], FanOut(boxes, targets, m)[u]) {
      if u in targets { QueueAdmitted(mrns[u], notes[u], later[u], boxes[u], m); }
    }
  }

  /** The index finds under an MRN only a consumer of that MRN, and only those with an MRN take direct messages. */
  ghost predicate IndexRight(mrns: map<string, string>, index: map<string, string>, direct: set<string>) {
    && (forall mrn :: mrn in index ==> mrn != "" && index[mrn] in mrns && mrns[index[mrn]] == mrn)
    && (forall u :: u in direct ==> u in mrns && mrns[u] != "")
  }

  lemma TargetsListed(mrns: map<string, string>, table: Table<string>, index: map<string, string>, direct: set<string>,
                      m: Message, u: string)
    requires IndexRight(mrns, index, direct)
    requires u in LocalTargets(table, index, direct, AddressIn(m)) && u in mrns
    ensures Lists(mrns[u], m) && (ToRecipients(m) ==> u in direct)
  {
  }

  function NotedOne(notes: Notes, table: Table<string>, index: map<string, string>, direct: set<string>, c: Content,
                    newId: string, now: int): (r: Notes)
    ensures r.Keys == notes.Keys
  {
    if c.app.None? || !InWindow(c.app.value, now) then notes
    else
      var targets := LocalTargets(table, index, direct, AddressOf(c.app.value));
      Noted(notes, targets, direct, SendMessage(newId, c.app.value))
  }

  /** That history after the entries of a response were queued, one after the other. */
  function NotedAll(notes: Notes, table: Table<string>, index: map<string, string>, direct: set<string>,
                    contents: seq<Content>, newIds: seq<string>, now: int): (r: Notes)
    requires |newIds| == |contents|
    ensures r.Keys == notes.Keys
  {
    if contents == [] then notes
    else
      var n := |contents| - 1;
      NotedOne(NotedAll(notes, table, index, direct, contents[..n], newIds[..n], now),
               table, index, direct, contents[n], newIds[n], now)
  }

  lemma DeliverOneAdmitted(mrns: map<string, string>, notes: Notes, boxes: map<string, Box>, table: Table<string>,
                           index: map<string, string>, direct: set<string>, c: Content, newId: string, now: int)
    requires AllAdmitted(mrns, notes, boxes) && IndexRight(mrns, index, direct)
    ensures AllAdmitted(mrns, NotedOne(notes, table, index, direct, c, newId, now),
                        DeliverOne(boxes, table, index, direct, c, newId, now))
  {
    hide AllAdmitted, Noted, FanOut, LocalTargets, Lists, ToRecipients, IndexRight;
    if c.app.Some? && InWindow(c.app.value, now) {
      var m, targets := SendMessage(newId, c.app.value), LocalTargets(table, index, direct, AddressOf(c.app.value));
      TargetsHaveHeader(table, index, direct, m);
      forall u | u in targets && u in mrns ensures Lists(mrns[u], m) && (ToRecipients(m) ==> u in direct) {
        TargetsListed(mrns, table, index, direct, m, u);
      }
      FanOutAdmitted(mrns, notes, boxes, targets, direct, m);
    }
  }

  lemma TargetsHaveHeader(table: Table<string>, index: map<string, string>, direct: set<string>, m: Message)
    ensures LocalTargets(table, index, direct, AddressIn(m)) != {} ==> HeaderOf(m).Some?
  {
  }

  lemma {:induction false} DeliverAdmitted(mrns: map<string, string>, notes: Notes, boxes: map<string, Box>,
                                           table: Table<string>, index: map<string, string>, direct: set<string>,
                                           contents: seq<Content>, newIds: seq<string>, now: int)
    requires AllAdmitted(mrns, notes, boxes) && IndexRight(mrns, index, direct) && |newIds| == |contents|
    ensures AllAdmitted(mrns, NotedAll(notes, table, index, direct, contents, newIds, now),
                        Deliver(boxes, table, index, direct, contents, newIds, now))
  {
    if contents != [] {
      var n := |contents| - 1;
      hide AllAdmitted, IndexRight;
      DeliverAdmitted(mrns, notes, boxes, table, index, direct, contents[..n], newIds[..n], now);
      DeliverOneAdmitted(mrns, NotedAll(notes, table, index, direct, contents[..n], newIds[..n], now),
                         Deliver(boxes, table, index, direct, contents[..n], newIds[..n], now), table, index, direct,
                         contents[n], newIds[n], now);
    }
  }

  /** Delivery adds recipient-addressed messages only to the mailboxes of consumers that take direct messages. */
  lemma {:induction false} DeliversDirectOnly(boxes: map<string, Box>, table: Table<string>, index: map<string, string>,
                                              direct: set<string>, contents: seq<Content>, newIds: seq<string>,
                                              now: int, u: string, key: string)
    requires |newIds| == |contents| && u in boxes
    ensures
      var b, c := boxes[u], Deliver(boxes, table, index, direct, contents, newIds, now)[u];
      key in c.messages && ToRecipients(c.messages[key]) ==>
        (key in b.messages && c.messages[key] == b.messages[key]) || u in direct
  {
    if contents != [] {
      var n := |contents| - 1;
      DeliversDirectOnly(boxes, table, index, direct, contents[..n], newIds[..n], now, u, key);
    }
  }

  /** So does the fan-out of a local agent's Send. */
  lemma SendsDirectOnly(boxes: map<string, Box>, table: Table<string>, index: map<string, string>, direct: set<string>,
                        mrn: string -> string, sender: string, m: Message, u: string, key: string)
    requires u in boxes
    ensures
      var b, c := boxes[u], FanOut(boxes, SentTo(table, index, direct, mrn, sender, AddressIn(m)), m)[u];
      key in c.messages && ToRecipients(c.messages[key]) ==>
        (key in b.messages && c.messages[key] == b.messages[key]) || u in direct
  {
    hide HeaderOf;
    var targets := SentTo(table, index, direct, mrn, sender, AddressIn(m));
    assert ToRecipients(m) && u in targets ==> u in direct;
  }

  lemma DeliverMore(boxes: map<string, Box>, notes: Notes, table: Table<string>, index: map<string, string>,
                    direct: set<string>, contents: seq<Content>, newIds: seq<string>, k: nat, now: int)
    requires |newIds| == |contents| && k < |contents|
    ensures Deliver(boxes, table, index, direct, contents[..k + 1], newIds[..k + 1], now)
         == DeliverOne(Deliver(boxes, table, index, direct, contents[..k], newIds[..k], now),
                       table, index, direct, contents[k], newIds[k], now)
    ensures NotedAll(notes, table, index, direct, contents[..k + 1], newIds[..k + 1], now)
         == NotedOne(NotedAll(notes, table, index, direct, contents[..k], newIds[..k], now),
                     table, index, direct, contents[k], newIds[k], now)
  {
    assert contents[..k + 1][..k] == contents[..k] && newIds[..k + 1][..k] == newIds[..k];
  }

  lemma NoteNothing(notes: Notes, table: Table<string>, index: map<string, string>, direct: set<string>, now: int)
    ensures NotedAll(notes, table, index, direct, [], [], now) == notes
  {
  }

  lemma FanOutOne(boxes: map<string, Box>, u: string, m: Message)
    requires u in boxes
    ensures FanOut(boxes, {u}, m) == boxes[u := Queue(boxes[u], m)]
  {
  }

  lemma DeliverNothing(boxes: map<string, Box>, table: Table<string>, index: map<string, string>, direct: set<string>,
                       now: int)
    ensures Deliver(boxes, table, index, direct, [], [], now) == boxes
  {
  }

  // ---- one mailbox changes ----

  ghost predicate Less(c: Box, b: Box) {
    && (forall u :: u in c.messages ==> u in b.messages && c.messages[u] == b.messages[u])
    && (forall u :: u in c.notifications ==> u in b.notifications && c.notifications[u] == b.notifications[u])
  }

  lemma ReceiveLess(b: Box, request: Message, now: int, written: bool)
    ensures Less(AfterReceive(b, request, now, written), b)
  {
  }

  lemma NotifyLess(b: Box, written: bool)
    requires WellFormed(b)
    ensures Less(NotifyAll(b, written), b) && WellFormed(NotifyAll(b, written))
  {
  }

  lemma SetAdmitted(mrns: map<string, string>, notes: Notes, boxes: map<string, Box>, u: string, c: Box)
    requires AllAdmitted(mrns, notes, boxes) && u in boxes && Less(c, boxes[u]) && WellFormed(c)
    ensures AllAdmitted(mrns, notes, boxes[u := c])
  {
    LessAdmitted(mrns[u], notes[u], boxes[u], c);
  }

  // ---- interest lists ----

  /** The subjects that have the consumer as a subscriber. */
  function SubjectsOf(table: Table<string>, u: string): set<string> {
    set s | s in table && u in table[s]
  }

  /** Each consumer's subscriptions and list of interests are what its Subscribes and Unsubscribes made of them. */
  ghost predicate InterestsRight(lists: map<string, seq<string>>, table: Table<string>,
                                 changes: map<string, seq<Change>>, fold: string -> string)
  {
    && lists.Keys == changes.Keys
    && forall u :: u in lists ==> Membership(SubjectsOf(table, u), lists[u]) == Interests.After(changes[u], fold)
  }

  lemma ChangeMore(changes: seq<Change>, c: Change, fold: string -> string)
    ensures Interests.After(changes + [c], fold) == Interests.Next(Interests.After(changes, fold), c, fold)
  {
    assert (changes + [c])[..|changes|] == changes;
  }

  lemma SubjectsChange(table: Table<string>, subject: string, u: string, v: string)
    ensures SubjectsOf(AddSubscriber(table, subject, u), v)
         == if u == v then SubjectsOf(table, v) + {subject} else SubjectsOf(table, v)
    ensures SubjectsOf(DropSubscriber(table, subject, u), v)
         == if u == v then SubjectsOf(table, v) - {subject} else SubjectsOf(table, v)
  {
  }

  /** A subscription to a subject is the step `Joins` of the consumer's membership, and nobody else's. */
  lemma JoinRight(lists: map<string, seq<string>>, table: Table<string>, changes: map<string, seq<Change>>,
                  fold: string -> string, u: string, subject: string)
    requires InterestsRight(lists, table, changes, fold) && u in lists
    ensures InterestsRight(lists[u := lists[u] + [subject]], AddSubscriber(table, subject, u),
                           changes[u := changes[u] + [Joins(subject)]], fold)
  {
    hide AddSubscriber, SubjectsOf, Interests.After;
    ChangeMore(changes[u], Joins(subject), fold);
    forall v | v in lists
      ensures SubjectsOf(AddSubscriber(table, subject, u), v)
           == if u == v then SubjectsOf(table, v) + {subject} else SubjectsOf(table, v)
    {
      SubjectsChange(table, subject, u, v);
    }
  }

  /** Leaving a subject is the step `Quits`. */
  lemma QuitRight(lists: map<string, seq<string>>, table: Table<string>, changes: map<string, seq<Change>>,
                  fold: string -> string, u: string, subject: string)
    requires InterestsRight(lists, table, changes, fold) && u in lists
    ensures InterestsRight(lists[u := WithoutFirst(lists[u], subject, fold)], DropSubscriber(table, subject, u),
                           changes[u := changes[u] + [Quits(subject)]], fold)
  {
    hide DropSubscriber, SubjectsOf, Interests.After, WithoutFirst;
    ChangeMore(changes[u], Quits(subject), fold);
    forall v | v in lists
      ensures SubjectsOf(DropSubscriber(table, subject, u), v)
           == if u == v then SubjectsOf(table, v) - {subject} else SubjectsOf(table, v)
    {
      SubjectsChange(table, subject, u, v);
    }
  }

  lemma NewcomerRight(lists: map<string, seq<string>>, table: Table<string>, changes: map<string, seq<Change>>,
                      fold: string -> string, u: string)
    requires InterestsRight(lists, table, changes, fold) && forall s :: s in table ==> u !in table[s]
    ensures InterestsRight(lists[u := []], table, changes[u := []], fold)
  {
    assert SubjectsOf(table, u) == {};
  }

  function UuidsOf(agents: seq<Agent>): set<string> {
    set a | a in agents :: a.agentUuid
  }

  lemma NoUuids()
    ensures UuidsOf([]) == {}
  {
  }

  lemma UuidsSnoc(agents: seq<Agent>, a: Agent)
    ensures UuidsOf(agents + [a]) == UuidsOf(agents) + {a.agentUuid}
  {
  }

  /** The UUIDs of the agents with another MRN. */
  function OthersOf(agents: seq<Agent>, mrn: string): set<string> {
    set a | a in agents && a.consumer.mrn != mrn :: a.agentUuid
  }

  lemma NoOthers(mrn: string)
    ensures OthersOf([], mrn) == {}
  {
  }

  lemma OthersSnoc(agents: seq<Agent>, a: Agent, mrn: string)
    ensures OthersOf(agents + [a], mrn)
         == if a.consumer.mrn != mrn then OthersOf(agents, mrn) + {a.agentUuid} else OthersOf(agents, mrn)
  {
  }

  /** The consumers found under the recipients' MRNs that take direct messages. */
  function Holders(index: map<string, string>, direct: set<string>, recipients: seq<string>): set<string> {
    LocalTargets(map[], index, direct, Recipients(recipients))
  }

  lemma NoHolders(index: map<string, string>, direct: set<string>)
    ensures Holders(index, direct, []) == {}
  {
  }

  function HolderOf(index: map<string, string>, direct: set<string>, r: string): set<string> {
    if r in index && index[r] in direct then {index[r]} else {}
  }

  lemma HoldersSnoc(index: map<string, string>, direct: set<string>, recipients: seq<string>, r: string)
    ensures Holders(index, direct, recipients + [r]) == Holders(index, direct, recipients) + HolderOf(index, direct, r)
  {
  }

  function SenderIn(m: Message): string {
    if HeaderOf(m).Some? then HeaderOf(m).value.sender else ""
  }

  predicate Sends(m: Message) {
    m.body.Protocol? && m.body.payload.Send?
  }

  /** The outcome is a response with this code to the message with the UUID `to`. */
  predicate Replies(out: Outcome, to: string, code: ResponseCode) {
    && out.Outcome? && out.reply.msgType.ResponseMessage?
    && out.reply.body.Reply? && out.reply.body.response.to == to && out.reply.body.response.code == code
  }

  predicate SendAccepted(authenticated: bool, mrn: string, m: Message, signatureOk: bool) {
    && authenticated && mrn == SenderIn(m) && signatureOk
    && (AddressIn(m).Subject? ==> |AddressIn(m).subject| <= 100)
  }

  // ---- what the tables of an edge router keep ----

  ghost function BoxesOf(known: map<string, Agent>): (boxes: map<string, Box>)
    reads (set u | u in known :: known[u].consumer)`messages, (set u | u in known :: known[u].consumer)`notifications
    ensures boxes.Keys == known.Keys
  {
    map u | u in known :: known[u].consumer.View()
  }

  ghost function ListsOf(known: map<string, Agent>): (lists: map<string, seq<string>>)
    reads (set u | u in known :: known[u].consumer)`interests
    ensures lists.Keys == known.Keys
  {
    map u | u in known :: known[u].consumer.interests
  }

  ghost function MrnsOf(known: map<string, Agent>): map<string, string> {
    map u | u in known :: known[u].consumer.mrn
  }

  ghost function DirectOf(known: map<string, Agent>): set<string>
    reads known.Values`directMessages
  {
    set u | u in known && known[u].directMessages
  }

  lemma ViewsGrow(known: map<string, Agent>, a: Agent)
    requires a.agentUuid !in known && a.consumer.View() == Box(map[], map[]) && !a.directMessages
    requires a.consumer.interests == []
    ensures
      var more := known[a.agentUuid := a];
      && ListsOf(more) == ListsOf(known)[a.agentUuid := []]
      && BoxesOf(more) == BoxesOf(known)[a.agentUuid := Box(map[], map[])]
      && MrnsOf(more) == MrnsOf(known)[a.agentUuid := a.consumer.mrn] && DirectOf(more) == DirectOf(known)
  {
  }

  ghost predicate IsKnown(known: map<string, Agent>, a: Agent) {
    a.agentUuid in known && known[a.agentUuid] == a
  }

  /** Agents have their own UUIDs and mailboxes; with TLS, authenticated ones are those with an MRN. */
  ghost predicate AgentsRight(known: map<string, Agent>) {
    && (forall u :: u in known ==> known[u].agentUuid == u && (known[u].authenticated <==> known[u].consumer.mrn != ""))
    && (forall u, v :: u in known && v in known && u != v ==> known[u].consumer != known[v].consumer)
  }

  /** Reconnect tokens lead to agents, and an MRN to an agent of that MRN. */
  ghost predicate SessionsRight(known: map<string, Agent>, agents: map<string, Agent>, mrnToAgent: map<string, Agent>) {
    && (forall token :: token in agents ==> IsKnown(known, agents[token]))
    && (forall mrn :: mrn in mrnToAgent ==>
          IsKnown(known, mrnToAgent[mrn]) && mrnToAgent[mrn].consumer.mrn == mrn && mrn != "")
  }

  /** An agent with an MRN is found under it from now on. */
  function Indexed(mrnToAgent: map<string, Agent>, mrn: string, agent: Agent): map<string, Agent> {
    if mrn == "" then mrnToAgent else mrnToAgent[mrn := agent]
  }

  /** The subscription `sub` has the interest `subject` and these agents as subscribers. */
  ghost predicate EntryRight(known: map<string, Agent>, subject: string, sub: Subscription, members: set<string>)
    reads sub`subscribers
  {
    && sub.interest == subject && sub.subscribers.Keys == members
    && (forall u :: u in members ==> u in known && sub.subscribers[u] == known[u])
  }

  /** The subscriptions are what `table` says. */
  ghost predicate TableRight(known: map<string, Agent>, subscriptions: map<string, Subscription>, table: Table<string>)
    reads (set s | s in subscriptions :: subscriptions[s])`subscribers
  {
    && table.Keys == subscriptions.Keys && "" !in table
    && (forall s :: s in subscriptions ==> EntryRight(known, s, subscriptions[s], table[s]))
  }

  /** Direct messages go to authenticated agents with an MRN only. */
  ghost predicate DirectRight(known: map<string, Agent>)
    reads known.Values`directMessages
  {
    forall u :: u in known && known[u].directMessages ==> known[u].authenticated && known[u].consumer.mrn != ""
  }

  lemma AgentsGrow(known: map<string, Agent>, a: Agent)
    requires AgentsRight(known) && a.agentUuid !in known && (a.authenticated <==> a.consumer.mrn != "")
    requires forall u :: u in known ==> known[u].consumer != a.consumer
    ensures AgentsRight(known[a.agentUuid := a])
  {
  }

  lemma SessionsGrow(known: map<string, Agent>, agents: map<string, Agent>, mrnToAgent: map<string, Agent>, a: Agent)
    requires SessionsRight(known, agents, mrnToAgent) && a.agentUuid !in known
    ensures
      var mrn, more := a.consumer.mrn, known[a.agentUuid := a];
      SessionsRight(more, agents, Indexed(mrnToAgent, mrn, a))
  {
  }

  lemma TableGrows(known: map<string, Agent>, subscriptions: map<string, Subscription>, table: Table<string>, a: Agent)
    requires TableRight(known, subscriptions, table) && a.agentUuid !in known
    ensures TableRight(known[a.agentUuid := a], subscriptions, table)
  {
    forall s | s in subscriptions ensures EntryRight(known[a.agentUuid := a], s, subscriptions[s], table[s]) {
      assert EntryRight(known, s, subscriptions[s], table[s]);
    }
  }

  lemma StrangersUnlisted(known: map<string, Agent>, subscriptions: map<string, Subscription>, table: Table<string>,
                          u: string)
    requires TableRight(known, subscriptions, table) && u !in known
    ensures forall s :: s in table ==> u !in table[s]
  {
    forall s | s in table ensures u !in table[s] { assert EntryRight(known, s, subscriptions[s], table[s]); }
  }

  lemma TableEntries(known: map<string, Agent>, subscriptions: map<string, Subscription>, table: Table<string>)
    requires TableRight(known, subscriptions, table)
    ensures table.Keys == subscriptions.Keys && "" !in table
    ensures forall s :: s in subscriptions ==> EntryRight(known, s, subscriptions[s], table[s])
  {
    hide EntryRight;
  }

  lemma TableOf(known: map<string, Agent>, subscriptions: map<string, Subscription>, table: Table<string>)
    requires table.Keys == subscriptions.Keys && "" !in table
    requires forall s :: s in subscriptions ==> EntryRight(known, s, subscriptions[s], table[s])
    ensures TableRight(known, subscriptions, table)
  {
    hide EntryRight;
  }

  lemma TableHasKeys(known: map<string, Agent>, subscriptions: map<string, Subscription>, table: Table<string>)
    requires TableRight(known, subscriptions, table)
    ensures table.Keys == subscriptions.Keys && "" !in table
  {
  }

  /** The other subscriptions are other objects. */
  lemma OtherEntries(known: map<string, Agent>, subscriptions: map<string, Subscription>, table: Table<string>,
                     subject: string)
    requires TableRight(known, subscriptions, table) && subject in subscriptions
    ensures table.Keys == subscriptions.Keys && "" !in table
    ensures EntryRight(known, subject, subscriptions[subject], table[subject])
    ensures forall s :: s in subscriptions && s != subject ==> EntryRight(known, s, subscriptions[s], table[s])
    ensures forall s :: s in subscriptions && s != subject ==> subscriptions[s] != subscriptions[subject]
  {
    assert EntryRight(known, subject, subscriptions[subject], table[subject]);
    forall s | s in subscriptions && s != subject ensures subscriptions[s] != subscriptions[subject] {
      assert EntryRight(known, s, subscriptions[s], table[s]);
    }
  }

  lemma TableFrom(known: map<string, Agent>, subscriptions: map<string, Subscription>, before: Table<string>,
                  later: Table<string>, subject: string)
    requires before.Keys == subscriptions.Keys && "" !in before && subject in subscriptions
    requires later.Keys == before.Keys && forall s :: s in before && s != subject ==> later[s] == before[s]
    requires EntryRight(known, subject, subscriptions[subject], later[subject])
    requires forall s :: s in subscriptions && s != subject ==> EntryRight(known, s, subscriptions[s], before[s])
    ensures TableRight(known, subscriptions, later)
  {
    hide EntryRight;
  }

  lemma DirectGrows(known: map<string, Agent>, a: Agent)
    requires DirectRight(known) && !a.directMessages
    ensures DirectRight(known[a.agentUuid := a])
  {
  }

  // ---- recipient lists are sets ----

  /** Order and repetition in a recipient list make no difference. */
  lemma RecipientListIsSet(boxes: map<string, Box>, index: map<string, string>, direct: set<string>, rs: seq<string>,
                           qs: seq<string>, m: Message)
    requires forall r :: r in rs <==> r in qs
    ensures FanOut(boxes, Holders(index, direct, rs), m) == FanOut(boxes, Holders(index, direct, qs), m)
  {
    assert Holders(index, direct, rs) == Holders(index, direct, qs);
  }

  /** Exactly the mailboxes of the listed holders that take direct messages get the message, one entry each. */
  lemma RecipientFanOutExact(boxes: map<string, Box>, index: map<string, string>, direct: set<string>, rs: seq<string>,
                             m: Message, u: string)
    requires u in boxes && m.uuid != ""
    ensures
      var b, c := boxes[u], FanOut(boxes, Holders(index, direct, rs), m)[u];
      if exists r :: r in rs && r in index && index[r] == u && u in direct then
        && c.messages.Keys == b.messages.Keys + {m.uuid} && c.messages[m.uuid] == m
        && (forall v :: v in b.messages && v != m.uuid ==> c.messages[v] == b.messages[v])
        && m.uuid in c.notifications
      else c == b
  {
    assert u in Holders(index, direct, rs) <==> exists r :: r in rs && r in index && index[r] == u && u in direct;
  }

  // ---- the edge router ----

  datatype ConnectResult = Refused | Connected(agent: Agent, resumed: bool)

  class EdgeRouter {
    const fold: string -> string             // case folding
    var subscriptions: map<string, Subscription>
    var agents: map<string, Agent>           // by reconnect token
    var mrnToAgent: map<string, Agent>
    var outgoing: seq<Message>
    var awaitResponse: Store
    ghost var known: map<string, Agent>      // every agent that ever connected, by UUID
    ghost var table: Table<string>           // subscribers' UUIDs by subject
    // history
    ghost var written: seq<Message>          // what was written to the router
    ghost var pushed: seq<Message>           // what was pushed to the outgoing channel
    ghost var failed: bool                   // whether a write to the router failed
    ghost var noted: Notes                   // by UUID, what agents were sent while they took direct messages
    ghost var changes: map<string, seq<Change>>  // by UUID, the subjects that agents joined and left

    // ---- abstraction ----

    ghost function Mailboxes(): set<Consumer>
      reads this`known
    {
      set u | u in known :: known[u].consumer
    }

    ghost function Boxes(): (boxes: map<string, Box>)
      reads this`known, Mailboxes()`messages, Mailboxes()`notifications
      ensures boxes.Keys == known.Keys
    {
      BoxesOf(known)
    }

    ghost function Mrns(): map<string, string>
      reads this`known
    {
      MrnsOf(known)
    }

    ghost function MrnOf(): string -> string
      reads this`known
    {
      var mrns := Mrns();
      (u: string) => if u in mrns then mrns[u] else ""
    }

    ghost function SubscriptionObjects(): set<Subscription>
      reads this`subscriptions
    {
      set s | s in subscriptions :: subscriptions[s]
    }

    ghost function Index(): map<string, string>
      reads this`mrnToAgent
    {
      map mrn | mrn in mrnToAgent :: mrnToAgent[mrn].agentUuid
    }

    ghost function Direct(): set<string>
      reads this`known, known.Values`directMessages
    {
      DirectOf(known)
    }

    /** The outgoing channel with its history. */
    ghost function Channel(): History
      reads this`outgoing, this`awaitResponse, this`written, this`pushed, this`failed
    {
      History(Outbox(outgoing, awaitResponse, written), pushed, failed)
    }

    ghost function InterestLists(): map<string, seq<string>>
      reads this`known, Mailboxes()`interests
    {
      ListsOf(known)
    }

    /** The agent is one of this edge router's. */
    ghost predicate Knows(a: Agent)
      reads this`known
    {
      a.agentUuid in known && known[a.agentUuid] == a
    }

    ghost predicate AgentsValid()
      reads this`known
    {
      AgentsRight(known)
    }

    ghost predicate SessionsValid()
      reads this`known, this`agents, this`mrnToAgent
    {
      SessionsRight(known, agents, mrnToAgent)
    }

    ghost predicate TableValid()
      reads this`known, this`subscriptions, this`table, SubscriptionObjects()`subscribers
    {
      TableRight(known, subscriptions, table)
    }

    ghost predicate DirectValid()
      reads this`known, known.Values`directMessages
    {
      DirectRight(known)
    }

    ghost predicate AdmissionValid()
      reads this`known, this`noted, Mailboxes()`messages, Mailboxes()`notifications
    {
      AllAdmitted(Mrns(), noted, Boxes())
    }

    ghost predicate ChannelValid()
      reads this`outgoing, this`awaitResponse, this`written, this`pushed, this`failed
    {
      ChannelRight(Channel())
    }

    ghost predicate InterestsValid()
      reads this`known, this`table, this`changes, Mailboxes()`interests
    {
      InterestsRight(InterestLists(), table, changes, fold)
    }

    ghost predicate Valid()
      reads this`known, this`agents, this`mrnToAgent, this`subscriptions, this`table, this`noted, this`changes
      reads this`outgoing, this`awaitResponse, this`written, this`pushed, this`failed
      reads SubscriptionObjects()`subscribers, known.Values`directMessages
      reads Mailboxes()`messages, Mailboxes()`notifications, Mailboxes()`interests
    {
      && AgentsValid() && SessionsValid() && TableValid() && DirectValid()
      && AdmissionValid() && ChannelValid() && InterestsValid()
    }

    constructor (fold: string -> string)
      ensures Valid() && known == map[] && subscriptions == map[] && agents == map[] && mrnToAgent == map[]
      ensures Channel() == NEW_CHANNEL && noted == map[] && changes == map[] && this.fold == fold
    {
      subscriptions, agents, mrnToAgent, outgoing, awaitResponse := map[], map[], map[], [], map[];
      this.fold, known, table, noted, changes := fold, map[], map[], map[], map[];
      written, pushed, failed := [], [], false;
    }

    lemma IndexIsRight()
      requires AgentsValid() && SessionsValid() && DirectValid()
      ensures IndexRight(Mrns(), Index(), Direct())
    {
    }

    // ---- queueing ----

    /** One mailbox gets the message, the others are untouched. */
    method QueueFor(a: Agent, m: Message)
      requires AgentsValid() && Knows(a)
      modifies this`noted, a.consumer`messages, a.consumer`notifications
      ensures Boxes() == FanOut(old(Boxes()), {a.agentUuid}, m)
      ensures noted == Noted(old(noted), {a.agentUuid}, Direct(), m)
    {
      hide AgentsRight, BoxesOf, FanOut;
      var queued := QueueIn(a, m);
      if queued && a.directMessages {
        noted := Noted(noted, {a.agentUuid}, Direct(), m);
      }
    }

    method QueueIn(a: Agent, m: Message) returns (queued: bool)
      requires AgentsValid() && Knows(a)
      modifies a.consumer`messages, a.consumer`notifications
      ensures Boxes() == FanOut(old(Boxes()), {a.agentUuid}, m)
      ensures queued <==> m.uuid != ""
    {
      hide AgentsRight, BoxesOf, FanOut, Queue;
      InBoxes(a);
      FanOutOne(Boxes(), a.agentUuid, m);
      var result := Consumer.QueueMessage(a.consumer, m);
      OneBox(a);
      queued := result.Queued?;
    }

    lemma InBoxes(agent: Agent)
      requires Knows(agent)
      ensures agent.consumer in Mailboxes() && agent.agentUuid in Boxes()
      ensures Boxes()[agent.agentUuid] == agent.consumer.View()
    {
    }

    /** Only the mailbox of `agent` is another one than before. */
    twostate lemma OneBox(agent: Agent)
      requires AgentsValid() && Knows(agent) && known == old(known)
      requires forall c :: c in old(Mailboxes()) && c != agent.consumer ==> c.View() == old(c.View())
      ensures Boxes() == old(Boxes())[agent.agentUuid := agent.consumer.View()]
    {
      var later := old(Boxes())[agent.agentUuid := agent.consumer.View()];
      forall u | u in known ensures Boxes()[u] == later[u] {
        assert known[u].consumer in old(Mailboxes());
      }
    }

    method QueueForAll(targets: seq<Agent>, m: Message)
      requires AgentsValid() && forall a :: a in targets ==> Knows(a)
      modifies this`noted, Mailboxes()`messages, Mailboxes()`notifications
      ensures Boxes() == FanOut(old(Boxes()), UuidsOf(targets), m)
      ensures noted == Noted(old(noted), UuidsOf(targets), Direct(), m)
    {
      hide Noted, FanOut, UuidsOf, AgentsRight, BoxesOf;
      FanOutNobody(Boxes(), m);
      NotedNobody(noted, Direct(), m);
      NoUuids();
      for k := 0 to |targets|
        invariant Boxes() == FanOut(old(Boxes()), UuidsOf(targets[..k]), m)
        invariant noted == Noted(old(noted), UuidsOf(targets[..k]), Direct(), m)
      {
        FanOutOneMore(old(Boxes()), UuidsOf(targets[..k]), targets[k].agentUuid, m);
        NotedTwice(old(noted), UuidsOf(targets[..k]), {targets[k].agentUuid}, Direct(), m);
        UuidsSnoc(targets[..k], targets[k]);
        assert targets[..k + 1] == targets[..k] + [targets[k]];
        assert Knows(targets[k]);
        QueueFor(targets[k], m);
      }
      assert targets[..|targets|] == targets;
    }

    method QueueForOthers(targets: seq<Agent>, mrn: string, m: Message)
      requires AgentsValid() && forall a :: a in targets ==> Knows(a)
      modifies this`noted, Mailboxes()`messages, Mailboxes()`notifications
      ensures Boxes() == FanOut(old(Boxes()), OthersOf(targets, mrn), m)
      ensures noted == Noted(old(noted), OthersOf(targets, mrn), Direct(), m)
    {
      hide Noted, FanOut, OthersOf, AgentsRight, BoxesOf;
      FanOutNobody(Boxes(), m);
      NotedNobody(noted, Direct(), m);
      NoOthers(mrn);
      for k := 0 to |targets|
        invariant Boxes() == FanOut(old(Boxes()), OthersOf(targets[..k], mrn), m)
        invariant noted == Noted(old(noted), OthersOf(targets[..k], mrn), Direct(), m)
      {
        OthersSnoc(targets[..k], targets[k], mrn);
        assert targets[..k + 1] == targets[..k] + [targets[k]];
        if targets[k].consumer.mrn != mrn {
          FanOutOneMore(old(Boxes()), OthersOf(targets[..k], mrn), targets[k].agentUuid, m);
          NotedTwice(old(noted), OthersOf(targets[..k], mrn), {targets[k].agentUuid}, Direct(), m);
          assert Knows(targets[k]);
          QueueFor(targets[k], m);
        }
      }
      assert targets[..|targets|] == targets;
    }

    lemma HolderIs(mrn: string)
      requires AgentsValid() && SessionsValid()
      ensures mrn in mrnToAgent && mrnToAgent[mrn].directMessages ==>
        Knows(mrnToAgent[mrn]) && HolderOf(Index(), Direct(), mrn) == {mrnToAgent[mrn].agentUuid}
      ensures mrn !in mrnToAgent || !mrnToAgent[mrn].directMessages ==> HolderOf(Index(), Direct(), mrn) == {}
    {
    }

    method QueueForRecipient(r: string, m: Message)
      requires AgentsValid() && SessionsValid()
      modifies this`noted, Mailboxes()`messages, Mailboxes()`notifications
      ensures Boxes() == FanOut(old(Boxes()), HolderOf(Index(), Direct(), r), m)
      ensures noted == Noted(old(noted), HolderOf(Index(), Direct(), r), Direct(), m)
    {
      hide Noted, FanOut, HolderOf, AgentsRight, Index, DirectOf, BoxesOf;
      HolderIs(r);
      FanOutNobody(Boxes(), m);
      NotedNobody(noted, Direct(), m);
      if r in mrnToAgent && mrnToAgent[r].directMessages {
        QueueFor(mrnToAgent[r], m);
      }
    }

    /** The loop over a recipient list, whatever its order and repetitions: exactly the mailboxes of the holders of
        the listed MRNs that subscribe to direct messages get the message, once. */
    method QueueForRecipients(recipients: seq<string>, m: Message)
      requires AgentsValid() && SessionsValid()
      modifies this`noted, Mailboxes()`messages, Mailboxes()`notifications
      ensures Boxes() == FanOut(old(Boxes()), Holders(Index(), Direct(), recipients), m)
      ensures noted == Noted(old(noted), Holders(Index(), Direct(), recipients), Direct(), m)
    {
      hide Noted, FanOut, Holders, HolderOf, AgentsRight, SessionsRight, Index, DirectOf, BoxesOf;
      FanOutNobody(Boxes(), m);
      NotedNobody(noted, Direct(), m);
      ghost var index, direct := Index(), Direct();
      NoHolders(index, direct);
      for k := 0 to |recipients|
        invariant Index() == index && Direct() == direct
        invariant Boxes() == FanOut(old(Boxes()), Holders(index, direct, recipients[..k]), m)
        invariant noted == Noted(old(noted), Holders(index, direct, recipients[..k]), direct, m)
      {
        var r := recipients[k];
        HoldersSnoc(index, direct, recipients[..k], r);
        assert recipients[..k + 1] == recipients[..k] + [r];
        FanOutTwice(old(Boxes()), Holders(index, direct, recipients[..k]), HolderOf(index, direct, r), m);
        NotedTwice(old(noted), Holders(index, direct, recipients[..k]), HolderOf(index, direct, r), direct, m);
        QueueForRecipient(r, m);
      }
      assert recipients[..|recipients|] == recipients;
    }

    // ---- connecting and disconnecting ----

    /** A client connects with its MRN, and resumes a session when its token is one that was handed out. `certified`
        says whether the certificate checks of the connection passed. */
    method Connect(ownMrn: string, token: string, certified: bool, lower: string -> string, newUuid: string,
                   newToken: string)
      returns (result: ConnectResult)
      requires Valid() && newUuid !in known
      modifies this`agents, this`mrnToAgent, this`known, this`noted, this`changes, Mailboxes()`reconnectToken
      ensures Valid()
      ensures result.Refused? <==> lower(ownMrn) != "" && !certified
      ensures result.Refused? ==>
        agents == old(agents) && mrnToAgent == old(mrnToAgent) && known == old(known)
        && noted == old(noted) && changes == old(changes)
      ensures result.Connected? ==>
        && result.resumed == (token in old(agents))
        && agents == old(agents)[newToken := result.agent] && result.agent.consumer.reconnectToken == newToken
      ensures result.Connected? && result.resumed ==>
        && result.agent == old(agents[token])
        && known == old(known) && mrnToAgent == old(mrnToAgent) && Boxes() == old(Boxes()) && Direct() == old(Direct())
        && noted == old(noted) && changes == old(changes)
      ensures result.Connected? && !result.resumed ==>
        && fresh(result.agent) && result.agent.consumer.mrn == lower(ownMrn) && result.agent.agentUuid == newUuid
        && result.agent.consumer.interests == [] && !result.agent.directMessages
        && known == old(known)[newUuid := result.agent]
        && fresh(result.agent.consumer)
        && mrnToAgent == (if lower(ownMrn) == "" then old(mrnToAgent)
                          else old(mrnToAgent)[lower(ownMrn) := result.agent])
        && Boxes() == old(Boxes())[newUuid := Box(map[], map[])] && Direct() == old(Direct())
        && noted == old(noted)[newUuid := {}] && changes == old(changes)[newUuid := []]
    {
      hide AgentsRight, SessionsRight, TableRight, DirectRight, AllAdmitted, BoxesOf, MrnsOf, DirectOf, ChannelRight,
           InterestsRight, ListsOf;
      var mrn := lower(ownMrn);
      if mrn != "" && !certified {
        return Refused;
      }
      var agent: Agent;
      if token in agents {
        agent := agents[token];
        TokenKnown(token);
        result := Connected(agent, true);
      } else {
        agent := NewSession(mrn, newUuid);
        result := Connected(agent, false);
      }
      Remember(agent, newToken);
    }

    lemma TokenKnown(token: string)
      requires SessionsValid() && token in agents
      ensures Knows(agents[token]) && agents[token].consumer in Mailboxes()
    {
      assert IsKnown(known, agents[token]);
    }

    method Remember(agent: Agent, newToken: string)
      requires Valid() && Knows(agent)
      modifies this`agents, agent.consumer`reconnectToken
      ensures Valid() && Boxes() == old(Boxes()) && Direct() == old(Direct())
      ensures agents == old(agents)[newToken := agent] && agent.consumer.reconnectToken == newToken
    {
      hide AgentsRight, SessionsRight, TableRight, DirectRight, AllAdmitted, BoxesOf, MrnsOf, DirectOf, ChannelRight,
           InterestsRight, ListsOf;
      HandOut(agent, newToken);
    }

    method HandOut(agent: Agent, newToken: string)
      requires SessionsValid() && Knows(agent)
      modifies this`agents, agent.consumer`reconnectToken
      ensures SessionsValid()
      ensures agents == old(agents)[newToken := agent] && agent.consumer.reconnectToken == newToken
    {
      agent.consumer.reconnectToken := newToken;
      agents := agents[newToken := agent];
    }

    method NewSession(mrn: string, newUuid: string) returns (agent: Agent)
      requires Valid() && newUuid !in known
      modifies this`mrnToAgent, this`known, this`noted, this`changes
      ensures Valid()
      ensures fresh(agent) && fresh(agent.consumer) && agent.consumer.mrn == mrn && agent.agentUuid == newUuid
      ensures agent.consumer.interests == [] && !agent.directMessages
      ensures known == old(known)[newUuid := agent]
      ensures mrnToAgent == Indexed(old(mrnToAgent), mrn, agent)
      ensures Boxes() == old(Boxes())[newUuid := Box(map[], map[])] && Direct() == old(Direct())
      ensures noted == old(noted)[newUuid := {}] && changes == old(changes)[newUuid := []]
    {
      hide ChannelRight, InterestsRight, ListsOf, AgentsRight, SessionsRight, TableRight, DirectRight, AllAdmitted,
           BoxesOf, MrnsOf, DirectOf;
      assert forall c :: c in Mailboxes() ==> allocated(c);
      assert forall s :: s in SubscriptionObjects() ==> allocated(s);
      agent := new Agent(mrn, newUuid, mrn != "");
      Admit(agent);
    }

    /** With one more agent, everything is as it should be. */
    lemma OneMoreAgent(agent: Agent)
      requires Valid() && agent.agentUuid !in known && agent.consumer !in Mailboxes()
      requires agent.consumer.View() == Box(map[], map[]) && !agent.directMessages && agent.consumer.interests == []
      requires agent.authenticated <==> agent.consumer.mrn != ""
      ensures
        var u, mrn := agent.agentUuid, agent.consumer.mrn;
        var more := known[u := agent];
        && BoxesOf(more) == BoxesOf(known)[u := Box(map[], map[])] && DirectOf(more) == DirectOf(known)
        && AgentsRight(more) && SessionsRight(more, agents, Indexed(mrnToAgent, mrn, agent))
        && TableRight(more, subscriptions, table) && DirectRight(more)
        && AllAdmitted(MrnsOf(more), noted[u := {}], BoxesOf(more))
        && InterestsRight(ListsOf(more), table, changes[u := []], fold)
    {
      hide AgentsRight, SessionsRight, TableRight, DirectRight, AllAdmitted, BoxesOf, MrnsOf, DirectOf, ChannelRight,
           InterestsRight, ListsOf;
      ViewsGrow(known, agent);
      NewcomerAdmitted(Mrns(), noted, Boxes(), agent.agentUuid, agent.consumer.mrn);
      StrangersUnlisted(known, subscriptions, table, agent.agentUuid);
      NewcomerRight(InterestLists(), table, changes, fold, agent.agentUuid);
      AgentsGrow(known, agent);
      SessionsGrow(known, agents, mrnToAgent, agent);
      TableGrows(known, subscriptions, table, agent);
      DirectGrows(known, agent);
    }

    /** Registers a new agent. */
    method Admit(agent: Agent)
      requires Valid() && agent.agentUuid !in known && agent.consumer !in Mailboxes()
      requires agent.consumer.View() == Box(map[], map[]) && !agent.directMessages && agent.consumer.interests == []
      requires agent.authenticated <==> agent.consumer.mrn != ""
      modifies this`mrnToAgent, this`known, this`noted, this`changes
      ensures Valid()
      ensures known == old(known)[agent.agentUuid := agent]
      ensures mrnToAgent == Indexed(old(mrnToAgent), agent.consumer.mrn, agent)
      ensures Boxes() == old(Boxes())[agent.agentUuid := Box(map[], map[])] && Direct() == old(Direct())
      ensures noted == old(noted)[agent.agentUuid := {}] && changes == old(changes)[agent.agentUuid := []]
    {
      hide AgentsRight, SessionsRight, TableRight, DirectRight, AllAdmitted, BoxesOf, MrnsOf, DirectOf, ChannelRight,
           InterestsRight, ListsOf;
      OneMoreAgent(agent);
      ghost var more := known[agent.agentUuid := agent];
      Register(agent);
      assert BoxesOf(more) == old(BoxesOf(known[agent.agentUuid := agent]));
      assert AgentsValid();
      assert SessionsValid();
      assert TableValid();
      assert DirectValid();
      assert AdmissionValid();
      assert ChannelValid();
      assert InterestsValid();
    }

    method Register(agent: Agent)
      modifies this`mrnToAgent, this`known, this`noted, this`changes
      ensures known == old(known)[agent.agentUuid := agent]
      ensures mrnToAgent == Indexed(old(mrnToAgent), agent.consumer.mrn, agent)
      ensures noted == old(noted)[agent.agentUuid := {}] && changes == old(changes)[agent.agentUuid := []]
    {
      known := known[agent.agentUuid := agent];
      noted, changes := noted[agent.agentUuid := {}], changes[agent.agentUuid := []];
      if agent.consumer.mrn != "" {
        mrnToAgent := mrnToAgent[agent.consumer.mrn := agent];
      }
    }

    /** A Disconnect that is answered ends the session: its MRN and its current token are forgotten. Earlier tokens of
        the session and the mailbox stay. */
    method HandleDisconnect(m: Message, agent: Agent, replyId: string, written: bool) returns (out: Outcome)
      requires Valid() && Knows(agent)
      modifies this`agents, this`mrnToAgent
      ensures Valid()
      ensures
        var leaves := m.body.Protocol? && m.body.payload.Disconnect?;
        && out == Outcome(if leaves then GoodReply(replyId, m.uuid, [], []) else ErrorReply(replyId, m.uuid), written)
        && mrnToAgent == (if leaves && written then old(mrnToAgent) - {agent.consumer.mrn} else old(mrnToAgent))
        && agents == (if leaves && written then old(agents) - {agent.consumer.reconnectToken} else old(agents))
    {
      hide AgentsRight, SessionsRight, TableRight, DirectRight, AllAdmitted, BoxesOf, MrnsOf, DirectOf, ChannelRight,
           InterestsRight, ListsOf;
      var leaves := m.body.Protocol? && m.body.payload.Disconnect?;
      out := Outcome(if leaves then GoodReply(replyId, m.uuid, [], []) else ErrorReply(replyId, m.uuid), written);
      if leaves && written {
        Forget(agent);
      }
    }

    method Forget(agent: Agent)
      requires SessionsValid()
      modifies this`agents, this`mrnToAgent
      ensures SessionsValid()
      ensures mrnToAgent == old(mrnToAgent) - {agent.consumer.mrn}
      ensures agents == old(agents) - {agent.consumer.reconnectToken}
    {
      mrnToAgent := mrnToAgent - {agent.consumer.mrn};
      agents := agents - {agent.consumer.reconnectToken};
    }

    // ---- subscriptions ----

    /** The dispatcher passes on what is a protocol message. */
    method HandleSubscribe(m: Message, agent: Agent, certified: bool, newId: string, replyId: string, written: bool)
      returns (out: Outcome)
      requires Valid() && Knows(agent) && m.msgType.ProtocolMessage?
      modifies this`subscriptions, this`table, this`outgoing, this`pushed, this`changes
      modifies SubscriptionObjects()`subscribers, agent`directMessages, agent.consumer`interests
      ensures Valid()
      ensures
        var payload := if m.body.Protocol? then m.body.payload else NoPayload;
        if payload.Subscribe? && payload.interest.OnSubject? then
          Direct() == old(Direct()) && SubscribedTo(m, payload.interest.subject, agent, replyId, written, out)
        else
          && table == old(table) && changes == old(changes) && agent.consumer.interests == old(agent.consumer.interests)
          && if payload.Subscribe? && payload.interest.OnDirectMessages? then
               var granted := payload.interest.flag && agent.consumer.mrn != "" && certified;
               var request := SubjectRequest(newId, agent.consumer.mrn);
               && out.Outcome? && out.written == written
               && out.reply == (if granted then GoodReply(replyId, m.uuid, [], []) else ErrorReply(replyId, m.uuid))
               && Channel() == Pushed(old(Channel()), if granted then [request] else [])
               && Direct() == old(Direct()) + (if granted then {agent.agentUuid} else {})
             else
               out.NoOutcome? && Channel() == old(Channel()) && Direct() == old(Direct())
    {
      hide AgentsRight, SessionsRight, TableRight, DirectRight, AllAdmitted, BoxesOf, MrnsOf, DirectOf, ChannelRight,
           InterestsRight, ListsOf;
      out := NoOutcome;
      if m.body.Protocol? && m.body.payload.Subscribe? {
        match m.body.payload.interest {
          case OnSubject(subject) => out := HandleSubscribeSubject(m, subject, agent, replyId, written);
          case OnDirectMessages(flag) =>
            out := HandleSubscribeDirect(m, flag, agent, certified, newId, replyId, written);
          case NoInterest =>
        }
      }
    }

    method HandleSubscribeDirect(m: Message, flag: bool, agent: Agent, certified: bool, newId: string, replyId: string,
                                 written: bool)
      returns (out: Outcome)
      requires Valid() && Knows(agent)
      modifies this`outgoing, this`pushed, agent`directMessages
      ensures Valid()
      ensures
        var granted := flag && agent.consumer.mrn != "" && certified;
        var request := SubjectRequest(newId, agent.consumer.mrn);
        && out.Outcome? && out.written == written
        && out.reply == (if granted then GoodReply(replyId, m.uuid, [], []) else ErrorReply(replyId, m.uuid))
        && Channel() == Pushed(old(Channel()), if granted then [request] else [])
        && Direct() == old(Direct()) + (if granted then {agent.agentUuid} else {})
    {
      hide AgentsRight, SessionsRight, TableRight, DirectRight, AllAdmitted, BoxesOf, MrnsOf, DirectOf, ChannelRight,
           InterestsRight, ListsOf;
      if !flag || agent.consumer.mrn == "" || !certified {
        return Outcome(ErrorReply(replyId, m.uuid), written);
      }
      assert forall s :: s in SubscriptionObjects() ==> allocated(s);
      TakeDirect(agent, newId);
      assert AgentsValid() && SessionsValid();
      assert TableValid();
      assert AdmissionValid();
      assert InterestsValid();
      out := Outcome(GoodReply(replyId, m.uuid, [], []), written);
    }

    /** The edge router subscribes for the agent's MRN, and the agent takes direct messages. */
    method TakeDirect(agent: Agent, newId: string)
      requires AgentsValid() && DirectValid() && ChannelValid() && Knows(agent) && agent.consumer.mrn != ""
      modifies this`outgoing, this`pushed, agent`directMessages
      ensures DirectValid() && Direct() == old(Direct()) + {agent.agentUuid}
      ensures ChannelValid() && Channel() == Pushed(old(Channel()), [SubjectRequest(newId, agent.consumer.mrn)])
    {
      hide AgentsRight, DirectRight, DirectOf, ChannelRight;
      Push(SubjectRequest(newId, agent.consumer.mrn));
      GrantDirect(agent);
    }

    /** A protocol message joins the outgoing channel. */
    method Push(m: Message)
      requires ChannelValid() && m.msgType.ProtocolMessage?
      modifies this`outgoing, this`pushed
      ensures ChannelValid() && Channel() == Pushed(old(Channel()), [m])
    {
      hide ChannelRight;
      PushRight(Channel(), [m]);
      outgoing, pushed := outgoing + [m], pushed + [m];
    }

    /** The agent joins the subject's subscribers; the first one makes the Subscribe go on to the router. */
    twostate predicate SubscribedTo(m: Message, subject: string, agent: Agent, replyId: string, written: bool,
                                    out: Outcome)
      reads this, SubscriptionObjects()`subscribers, agent.consumer
    {
      if subject == "" then
        && out == Outcome(ErrorReply(replyId, m.uuid), written) && Channel() == old(Channel()) && table == old(table)
        && agent.consumer.interests == old(agent.consumer.interests) && changes == old(changes)
      else
        && out == Outcome(GoodReply(replyId, m.uuid, [], []), written)
        && table == AddSubscriber(old(table), subject, agent.agentUuid)
        && Channel() == Pushed(old(Channel()), if subject in old(table) then [] else [m])
        && agent.consumer.interests == old(agent.consumer.interests) + [subject]
        && agent.agentUuid in old(changes)
        && changes == old(changes)[agent.agentUuid := old(changes)[agent.agentUuid] + [Joins(subject)]]
    }

    /** Adds the agent to the subject's subscribers, and says whether it is the subject's first. */
    method Enroll(subject: string, agent: Agent) returns (first: bool)
      requires subject != "" && TableValid() && Knows(agent)
      modifies this`subscriptions, this`table, SubscriptionObjects()`subscribers
      ensures TableValid() && table == AddSubscriber(old(table), subject, agent.agentUuid)
      ensures first <==> subject !in old(table)
    {
      hide TableRight;
      TableHasKeys(known, subscriptions, table);
      first := subject !in subscriptions;
      if first {
        EnrollFirst(subject, agent);
      } else {
        EnrollMore(subject, subscriptions[subject], agent);
      }
    }

    method EnrollFirst(subject: string, agent: Agent)
      requires subject != "" && TableValid() && Knows(agent) && subject !in subscriptions
      modifies this`subscriptions, this`table
      ensures TableValid() && table == AddSubscriber(old(table), subject, agent.agentUuid)
    {
      hide TableRight, EntryRight;
      TableEntries(known, subscriptions, table);
      assert forall s :: s in SubscriptionObjects() ==> allocated(s);
      var sub := NewEntry(subject, agent);
      subscriptions := subscriptions[subject := sub];
      table := AddSubscriber(table, subject, agent.agentUuid);
      TableOf(known, subscriptions, table);
    }

    method NewEntry(subject: string, agent: Agent) returns (sub: Subscription)
      requires Knows(agent)
      ensures fresh(sub) && EntryRight(known, subject, sub, {} + {agent.agentUuid})
    {
      sub := new Subscription(subject);
      sub.AddSubscriber(agent);
    }

    method EnrollMore(subject: string, sub: Subscription, agent: Agent)
      requires TableValid() && Knows(agent) && subject in subscriptions && sub == subscriptions[subject]
      modifies sub`subscribers, this`table
      ensures TableValid() && table == AddSubscriber(old(table), subject, agent.agentUuid)
    {
      hide EntryRight, TableRight;
      OtherEntries(known, subscriptions, table, subject);
      AddTo(subject, sub, table[subject], agent);
      table := AddSubscriber(table, subject, agent.agentUuid);
      TableFrom(known, subscriptions, old(table), table, subject);
    }

    method AddTo(subject: string, sub: Subscription, ghost members: set<string>, agent: Agent)
      requires EntryRight(known, subject, sub, members) && Knows(agent)
      modifies sub`subscribers
      ensures EntryRight(known, subject, sub, members + {agent.agentUuid})
    {
      sub.AddSubscriber(agent);
    }

    method TakeFrom(subject: string, sub: Subscription, ghost members: set<string>, agent: Agent)
      requires EntryRight(known, subject, sub, members)
      modifies sub`subscribers
      ensures EntryRight(known, subject, sub, members - {agent.agentUuid})
    {
      sub.DeleteSubscriber(agent);
    }

    method GrantDirect(agent: Agent)
      requires AgentsValid() && DirectValid() && Knows(agent) && agent.consumer.mrn != ""
      modifies agent`directMessages
      ensures DirectValid() && Direct() == old(Direct()) + {agent.agentUuid}
    {
      agent.directMessages := true;
    }

    /** The subject, which the table has the agent for by now, enters the agent's list. */
    method NoteInterest(agent: Agent, subject: string, ghost before: Table<string>)
      requires AgentsValid() && Knows(agent) && InterestsRight(InterestLists(), before, changes, fold)
      requires table == AddSubscriber(before, subject, agent.agentUuid)
      modifies agent.consumer`interests, this`changes
      ensures InterestsValid() && agent.consumer.interests == old(agent.consumer.interests) + [subject]
      ensures agent.agentUuid in old(changes)
      ensures changes == old(changes)[agent.agentUuid := old(changes)[agent.agentUuid] + [Joins(subject)]]
    {
      hide AddSubscriber, SubjectsOf, Interests.After;
      JoinRight(InterestLists(), before, changes, fold, agent.agentUuid, subject);
      agent.consumer.interests := agent.consumer.interests + [subject];
      changes := changes[agent.agentUuid := changes[agent.agentUuid] + [Joins(subject)]];
      assert InterestLists() == old(InterestLists())[agent.agentUuid := agent.consumer.interests];
    }

    method HandleSubscribeSubject(m: Message, subject: string, agent: Agent, replyId: string, written: bool)
      returns (out: Outcome)
      requires Valid() && Knows(agent) && m.msgType.ProtocolMessage?
      modifies this`subscriptions, this`table, this`outgoing, this`pushed, this`changes
      modifies SubscriptionObjects()`subscribers, agent.consumer`interests
      ensures Valid()
      ensures out == Outcome(if subject == "" then ErrorReply(replyId, m.uuid) else GoodReply(replyId, m.uuid, [], []),
                             written)
      ensures table == if subject == "" then old(table) else AddSubscriber(old(table), subject, agent.agentUuid)
      ensures Channel() == Pushed(old(Channel()), if subject == "" || subject in old(table) then [] else [m])
      ensures agent.consumer.interests == old(agent.consumer.interests) + (if subject == "" then [] else [subject])
      ensures
        if subject == "" then changes == old(changes)
        else
          && agent.agentUuid in old(changes)
          && changes == old(changes)[agent.agentUuid := old(changes)[agent.agentUuid] + [Joins(subject)]]
    {
      hide AgentsRight, SessionsRight, TableRight, DirectRight, AllAdmitted, BoxesOf, MrnsOf, DirectOf, ChannelRight,
           InterestsRight, ListsOf;
      if subject == "" {
        return Outcome(ErrorReply(replyId, m.uuid), written);
      }
      Join(m, subject, agent);
      assert AgentsValid() && SessionsValid();
      assert DirectValid() && AdmissionValid();
      out := Outcome(GoodReply(replyId, m.uuid, [], []), written);
    }

    method Join(m: Message, subject: string, agent: Agent)
      requires AgentsValid() && TableValid() && ChannelValid() && InterestsValid()
      requires Knows(agent) && m.msgType.ProtocolMessage? && subject != ""
      modifies this`subscriptions, this`table, this`outgoing, this`pushed, this`changes
      modifies SubscriptionObjects()`subscribers, agent.consumer`interests
      ensures TableValid() && ChannelValid() && InterestsValid()
      ensures table == AddSubscriber(old(table), subject, agent.agentUuid)
      ensures Channel() == Pushed(old(Channel()), if subject in old(table) then [] else [m])
      ensures agent.consumer.interests == old(agent.consumer.interests) + [subject]
      ensures agent.agentUuid in old(changes)
      ensures changes == old(changes)[agent.agentUuid := old(changes)[agent.agentUuid] + [Joins(subject)]]
    {
      hide AgentsRight, TableRight, ChannelRight, InterestsRight, ListsOf, AddSubscriber, Pushed;
      EnrollAndPush(m, subject, agent);
      assert InterestLists() == old(InterestLists());
      NoteInterest(agent, subject, old(table));
      assert TableValid();
      assert ChannelValid();
    }

    method EnrollAndPush(m: Message, subject: string, agent: Agent)
      requires TableValid() && ChannelValid() && Knows(agent) && m.msgType.ProtocolMessage? && subject != ""
      modifies this`subscriptions, this`table, this`outgoing, this`pushed, SubscriptionObjects()`subscribers
      ensures TableValid() && table == AddSubscriber(old(table), subject, agent.agentUuid)
      ensures ChannelValid() && Channel() == Pushed(old(Channel()), if subject in old(table) then [] else [m])
    {
      hide TableRight, ChannelRight, AddSubscriber;
      var first := Enroll(subject, agent);
      if first {
        Push(m);
        assert TableValid();
      }
    }

    method HandleUnsubscribe(m: Message, agent: Agent, newId: string, replyId: string, written: bool)
      returns (out: Outcome)
      requires Valid() && Knows(agent)
      modifies this`table, this`outgoing, this`pushed, this`changes
      modifies SubscriptionObjects()`subscribers, agent`directMessages, agent.consumer`interests
      ensures Valid()
      ensures
        var payload, mrn := if m.body.Protocol? then m.body.payload else NoPayload, agent.consumer.mrn;
        if payload.Unsubscribe? && payload.interest.OnSubject? then
          && Channel() == old(Channel()) && Direct() == old(Direct())
          && UnsubscribedFrom(m, payload.interest.subject, agent, replyId, written, out)
        else
          && table == old(table) && changes == old(changes) && agent.consumer.interests == old(agent.consumer.interests)
          && if payload.Unsubscribe? && payload.interest.OnDirectMessages? && !payload.interest.flag then
               && out == Outcome(ErrorReply(replyId, m.uuid), written) && Channel() == old(Channel())
               && Direct() == old(Direct())
             else if payload.Unsubscribe? && payload.interest.OnDirectMessages? && mrn != "" then
               && out == Outcome(GoodReply(replyId, m.uuid, [], []), written)
               && Channel() == Pushed(old(Channel()), [WithdrawRequest(newId, mrn)])
               && Direct() == old(Direct()) - {agent.agentUuid}
             else
               out.NoOutcome? && Channel() == old(Channel()) && Direct() == old(Direct())
    {
      hide AgentsRight, SessionsRight, TableRight, DirectRight, AllAdmitted, BoxesOf, MrnsOf, DirectOf, ChannelRight,
           InterestsRight, ListsOf;
      out := NoOutcome;
      if m.body.Protocol? && m.body.payload.Unsubscribe? {
        match m.body.payload.interest {
          case OnSubject(subject) => out := HandleUnsubscribeSubject(m, subject, agent, replyId, written);
          case OnDirectMessages(flag) => out := HandleUnsubscribeDirect(m, flag, agent, newId, replyId, written);
          case NoInterest =>
        }
      }
    }

    method HandleUnsubscribeDirect(m: Message, flag: bool, agent: Agent, newId: string, replyId: string, written: bool)
      returns (out: Outcome)
      requires Valid() && Knows(agent)
      modifies this`outgoing, this`pushed, agent`directMessages
      ensures Valid()
      ensures
        if !flag then
          && out == Outcome(ErrorReply(replyId, m.uuid), written)
          && Channel() == old(Channel()) && Direct() == old(Direct())
        else if agent.consumer.mrn != "" then
          && out == Outcome(GoodReply(replyId, m.uuid, [], []), written)
          && Channel() == Pushed(old(Channel()), [WithdrawRequest(newId, agent.consumer.mrn)])
          && Direct() == old(Direct()) - {agent.agentUuid}
        else
          out.NoOutcome? && Channel() == old(Channel()) && Direct() == old(Direct())
    {
      hide AgentsRight, SessionsRight, TableRight, DirectRight, AllAdmitted, BoxesOf, MrnsOf, DirectOf, ChannelRight,
           InterestsRight, ListsOf;
      if !flag {
        return Outcome(ErrorReply(replyId, m.uuid), written);
      }
      out := NoOutcome;
      if agent.consumer.mrn != "" {
        assert forall s :: s in SubscriptionObjects() ==> allocated(s);
        LeaveDirect(agent, newId);
        assert AgentsValid() && SessionsValid();
        assert TableValid();
        assert AdmissionValid();
        assert InterestsValid();
        out := Outcome(GoodReply(replyId, m.uuid, [], []), written);
      }
    }

    method LeaveDirect(agent: Agent, newId: string)
      requires AgentsValid() && DirectValid() && ChannelValid() && Knows(agent)
      modifies this`outgoing, this`pushed, agent`directMessages
      ensures DirectValid() && Direct() == old(Direct()) - {agent.agentUuid}
      ensures ChannelValid() && Channel() == Pushed(old(Channel()), [WithdrawRequest(newId, agent.consumer.mrn)])
    {
      hide AgentsRight, DirectRight, DirectOf, ChannelRight;
      Push(WithdrawRequest(newId, agent.consumer.mrn));
      RevokeDirect(agent);
    }

    method RevokeDirect(agent: Agent)
      requires AgentsValid() && DirectValid() && Knows(agent)
      modifies agent`directMessages
      ensures DirectValid() && Direct() == old(Direct()) - {agent.agentUuid}
    {
      agent.directMessages := false;
    }

    /** The agent leaves the subject's subscribers, and the subject its list of interests. The router is not told. */
    twostate predicate UnsubscribedFrom(m: Message, subject: string, agent: Agent, replyId: string, written: bool,
                                        out: Outcome)
      reads this, SubscriptionObjects()`subscribers, agent.consumer
    {
      if subject == "" then
        && out == Outcome(ErrorReply(replyId, m.uuid), written) && table == old(table)
        && agent.consumer.interests == old(agent.consumer.interests) && changes == old(changes)
      else
        && out == Outcome(GoodReply(replyId, m.uuid, [], []), written)
        && table == DropSubscriber(old(table), subject, agent.agentUuid)
        && agent.consumer.interests == WithoutFirst(old(agent.consumer.interests), subject, fold)
        && agent.agentUuid in old(changes)
        && changes == old(changes)[agent.agentUuid := old(changes)[agent.agentUuid] + [Quits(subject)]]
    }

    method HandleUnsubscribeSubject(m: Message, subject: string, agent: Agent, replyId: string,
                                    written: bool)
      returns (out: Outcome)
      requires Valid() && Knows(agent)
      modifies this`table, this`changes, SubscriptionObjects()`subscribers, agent.consumer`interests
      ensures Valid()
      ensures out == Outcome(if subject == "" then ErrorReply(replyId, m.uuid) else GoodReply(replyId, m.uuid, [], []),
                             written)
      ensures table == if subject == "" then old(table) else DropSubscriber(old(table), subject, agent.agentUuid)
      ensures agent.consumer.interests
           == if subject == "" then old(agent.consumer.interests)
              else WithoutFirst(old(agent.consumer.interests), subject, fold)
      ensures
        if subject == "" then changes == old(changes)
        else
          && agent.agentUuid in old(changes)
          && changes == old(changes)[agent.agentUuid := old(changes)[agent.agentUuid] + [Quits(subject)]]
    {
      hide AgentsRight, SessionsRight, TableRight, DirectRight, AllAdmitted, BoxesOf, MrnsOf, DirectOf, ChannelRight,
           InterestsRight, ListsOf;
      hide WithoutFirst;
      if subject == "" {
        return Outcome(ErrorReply(replyId, m.uuid), written);
      }
      Quit(subject, agent);
      out := Outcome(GoodReply(replyId, m.uuid, [], []), written);
    }

    method Quit(subject: string, agent: Agent)
      requires AgentsValid() && TableValid() && InterestsValid() && Knows(agent)
      modifies this`table, this`changes, SubscriptionObjects()`subscribers, agent.consumer`interests
      ensures TableValid() && InterestsValid()
      ensures table == DropSubscriber(old(table), subject, agent.agentUuid)
      ensures agent.consumer.interests == WithoutFirst(old(agent.consumer.interests), subject, fold)
      ensures agent.agentUuid in old(changes)
      ensures changes == old(changes)[agent.agentUuid := old(changes)[agent.agentUuid] + [Quits(subject)]]
    {
      hide AgentsRight, TableRight, InterestsRight, ListsOf, WithoutFirst;
      TableHasKeys(known, subscriptions, table);
      if subject in subscriptions {
        Withdraw(subject, subscriptions[subject], agent);
      }
      assert forall s :: s in SubscriptionObjects() ==> allocated(s);
      ForgetInterest(agent, subject, old(table));
    }

    method Withdraw(subject: string, sub: Subscription, agent: Agent)
      requires TableValid() && Knows(agent) && subject in subscriptions && sub == subscriptions[subject]
      modifies sub`subscribers, this`table
      ensures TableValid() && table == DropSubscriber(old(table), subject, agent.agentUuid)
    {
      hide EntryRight, TableRight;
      OtherEntries(known, subscriptions, table, subject);
      TakeFrom(subject, sub, table[subject], agent);
      table := DropSubscriber(table, subject, agent.agentUuid);
      TableFrom(known, subscriptions, old(table), table, subject);
    }

    /** The subject, which the table does not have the agent for any more, leaves the agent's list. */
    method ForgetInterest(agent: Agent, subject: string, ghost before: Table<string>)
      requires AgentsValid() && Knows(agent)
      requires InterestsRight(InterestLists(), before, changes, fold)
      requires table == DropSubscriber(before, subject, agent.agentUuid)
      modifies agent.consumer`interests, this`changes
      ensures InterestsValid() && agent.consumer.interests == WithoutFirst(old(agent.consumer.interests), subject, fold)
      ensures agent.agentUuid in old(changes)
      ensures changes == old(changes)[agent.agentUuid := old(changes)[agent.agentUuid] + [Quits(subject)]]
    {
      hide DropSubscriber, SubjectsOf, Interests.After, WithoutFirst;
      QuitRight(InterestLists(), before, changes, fold, agent.agentUuid, subject);
      agent.consumer.DropInterest(subject, fold);
      changes := changes[agent.agentUuid := changes[agent.agentUuid] + [Quits(subject)]];
      assert InterestLists() == old(InterestLists())[agent.agentUuid := agent.consumer.interests];
    }

    // ---- sending ----

    /** A Send of a local agent: refused unless the agent is authenticated, is the sender, signed it, and keeps the
        subject within 100 characters. An accepted one goes on to the router and is queued for its local addressees. */
    method HandleSend(m: Message, agent: Agent, signatureOk: bool, replyId: string,
                      written: bool) returns (out: Outcome)
      requires Valid() && Knows(agent) && m.msgType.ProtocolMessage?
      modifies this`outgoing, this`pushed, this`noted, Mailboxes()`messages, Mailboxes()`notifications
      ensures Valid()
      ensures
        if !m.body.Protocol? || !m.body.payload.Send? then
          out.NoOutcome? && Channel() == old(Channel()) && Boxes() == old(Boxes()) && noted == old(noted)
        else if SendAccepted(agent.authenticated, agent.consumer.mrn, m, signatureOk) then
          && out == Outcome(GoodReply(replyId, m.uuid, [], []), written) && Channel() == Pushed(old(Channel()), [m])
          && Boxes() == FanOut(old(Boxes()), Addressees(m, agent), m)
          && noted == Noted(old(noted), Addressees(m, agent), Direct(), m)
        else
          && out == Outcome(ErrorReply(replyId, m.uuid), written) && Channel() == old(Channel())
          && Boxes() == old(Boxes()) && noted == old(noted)
      ensures Sends(m) && !agent.authenticated ==> Replies(out, m.uuid, Error)
      ensures Sends(m) && agent.consumer.mrn != (if HeaderOf(m).Some? then HeaderOf(m).value.sender else "") ==>
        Replies(out, m.uuid, Error)
      ensures Sends(m) && !signatureOk ==> Replies(out, m.uuid, Error)
      ensures Sends(m) && HeaderOf(m).Some? && HeaderOf(m).value.address.Subject?
              && |HeaderOf(m).value.address.subject| > 100 ==>
        Replies(out, m.uuid, Error)
      ensures Sends(m) && !Replies(out, m.uuid, Error) ==> Replies(out, m.uuid, Good)
      ensures Sends(m) && agent.authenticated && signatureOk && HeaderOf(m).Some?
              && HeaderOf(m).value.sender == agent.consumer.mrn
              && (HeaderOf(m).value.address.Subject? ==> |HeaderOf(m).value.address.subject| <= 100) ==>
        Replies(out, m.uuid, Good)
      ensures Replies(out, m.uuid, Error) ==>
        pushed == old(pushed) && outgoing == old(outgoing)
        && forall u :: u in known ==> known[u].consumer.View() == old(known[u].consumer.View())
      ensures Replies(out, m.uuid, Good) ==> pushed == old(pushed) + [m] && outgoing == old(outgoing) + [m]
    {
      hide AgentsRight, SessionsRight, TableRight, DirectRight, AllAdmitted, BoxesOf, MrnsOf, DirectOf, ChannelRight,
           InterestsRight, ListsOf;
      hide FanOut, Addressees, Noted;
      if !m.body.Protocol? || !m.body.payload.Send? {
        return NoOutcome;
      }
      if !agent.authenticated || agent.consumer.mrn != SenderIn(m) || !signatureOk
         || (AddressIn(m).Subject? && |AddressIn(m).subject| > 100) {
        return Outcome(ErrorReply(replyId, m.uuid), written);
      }
      AuthenticatedSender(m, agent);
      AcceptSend(m, agent);
      out := Outcome(GoodReply(replyId, m.uuid, [], []), written);
    }

    method AcceptSend(m: Message, agent: Agent)
      requires Valid() && Knows(agent) && HeaderOf(m).Some? && m.msgType.ProtocolMessage?
      modifies this`outgoing, this`pushed, this`noted, Mailboxes()`messages, Mailboxes()`notifications
      ensures Valid() && Channel() == Pushed(old(Channel()), [m])
      ensures Boxes() == FanOut(old(Boxes()), Addressees(m, agent), m)
      ensures noted == Noted(old(noted), Addressees(m, agent), Direct(), m)
    {
      hide AgentsRight, SessionsRight, TableRight, DirectRight, AllAdmitted, BoxesOf, MrnsOf, DirectOf, ChannelRight,
           InterestsRight, ListsOf, FanOut, Addressees, Noted;
      assert forall s :: s in SubscriptionObjects() ==> allocated(s);
      PassOn(m, agent);
      assert AgentsValid() && SessionsValid();
      assert TableValid();
      assert DirectValid();
      assert InterestsValid();
    }

    method PassOn(m: Message, agent: Agent)
      requires AgentsValid() && SessionsValid() && TableValid() && DirectValid() && AdmissionValid() && ChannelValid()
      requires Knows(agent) && HeaderOf(m).Some? && m.msgType.ProtocolMessage?
      modifies this`outgoing, this`pushed, this`noted, Mailboxes()`messages, Mailboxes()`notifications
      ensures ChannelValid() && Channel() == Pushed(old(Channel()), [m])
      ensures AdmissionValid() && Boxes() == FanOut(old(Boxes()), Addressees(m, agent), m)
      ensures noted == Noted(old(noted), Addressees(m, agent), Direct(), m)
    {
      hide AgentsRight, SessionsRight, TableRight, DirectRight, AllAdmitted, BoxesOf, MrnsOf, DirectOf, ChannelRight,
           FanOut, Addressees, Noted;
      Push(m);
      QueueSent(m, agent);
    }

    /** Whom a Send of `agent` is queued for at once. */
    ghost function Addressees(m: Message, agent: Agent): set<string>
      reads this`known, this`table, this`mrnToAgent, known.Values`directMessages
    {
      SentTo(table, Index(), Direct(), MrnOf(), agent.consumer.mrn, AddressIn(m))
    }

    method QueueSent(m: Message, agent: Agent)
      requires AgentsValid() && SessionsValid() && TableValid() && DirectValid() && AdmissionValid()
      requires Knows(agent) && HeaderOf(m).Some?
      modifies this`noted, Mailboxes()`messages, Mailboxes()`notifications
      ensures AdmissionValid() && Boxes() == FanOut(old(Boxes()), Addressees(m, agent), m)
      ensures noted == Noted(old(noted), Addressees(m, agent), Direct(), m)
    {
      hide AgentsRight, SessionsRight, TableRight, DirectRight, AllAdmitted, BoxesOf, MrnsOf, DirectOf, FanOut,
           Addressees, Index, Noted;
      SentAdmitted(m, agent);
      QueueAddressed(m, agent);
    }

    lemma SentAdmitted(m: Message, agent: Agent)
      requires AgentsValid() && SessionsValid() && DirectValid() && AdmissionValid() && HeaderOf(m).Some?
      ensures
        var targets := Addressees(m, agent);
        AllAdmitted(Mrns(), Noted(noted, targets, Direct(), m), FanOut(Boxes(), targets, m))
    {
      hide AgentsRight, SessionsRight, DirectRight, AllAdmitted, BoxesOf, MrnsOf, DirectOf, FanOut, Addressees, Index,
           Noted, Lists, ToRecipients, IndexRight;
      IndexIsRight();
      AddresseesListed(m, agent);
      FanOutAdmitted(Mrns(), noted, Boxes(), Addressees(m, agent), Direct(), m);
    }

    method QueueAddressed(m: Message, agent: Agent)
      requires AgentsValid() && SessionsValid() && TableValid()
      modifies this`noted, Mailboxes()`messages, Mailboxes()`notifications
      ensures Boxes() == FanOut(old(Boxes()), Addressees(m, agent), m)
      ensures noted == Noted(old(noted), Addressees(m, agent), Direct(), m)
    {
      hide Noted, AgentsRight, SessionsRight, TableRight, BoxesOf, DirectOf, FanOut, Addressees, Index, Holders,
           OthersOf, MrnOf;
      AddresseesAre(m, agent);
      match AddressIn(m) {
        case Recipients(recipients) =>
          QueueForRecipients(recipients, m);
        case Subject(subject) =>
          QueueForSubject(subject, agent.consumer.mrn, m);
        case NoAddress =>
          FanOutNobody(Boxes(), m);
          NotedNobody(noted, Direct(), m);
      }
    }

    method QueueForSubject(subject: string, mrn: string, m: Message)
      requires AgentsValid() && TableValid()
      modifies this`noted, Mailboxes()`messages, Mailboxes()`notifications
      ensures Boxes() == FanOut(old(Boxes()), OtherSubscribers(subject, mrn), m)
      ensures noted == Noted(old(noted), OtherSubscribers(subject, mrn), Direct(), m)
    {
      hide Noted, AgentsRight, TableRight, BoxesOf, DirectOf, FanOut, OthersOf, MrnOf, OtherSubscribers;
      FanOutNobody(Boxes(), m);
      NotedNobody(noted, Direct(), m);
      TableHasKeys(known, subscriptions, table);
      NoSubscribers(subject, mrn);
      if subject != "" && subject in subscriptions {
        var targets := AgentsOf(subject, mrn);
        QueueForOthers(targets, mrn, m);
      }
    }

    /** A snapshot of the subject's subscribers. */
    method AgentsOf(subject: string, ghost mrn: string) returns (targets: seq<Agent>)
      requires AgentsValid() && TableValid() && subject in subscriptions
      ensures forall a :: a in targets ==> Knows(a)
      ensures subject in table && UuidsOf(targets) == table[subject]
      ensures OthersOf(targets, mrn) == OtherSubscribers(subject, mrn)
    {
      hide AgentsRight, TableRight, OthersOf, UuidsOf, MrnOf, OtherSubscribers;
      TableHasKeys(known, subscriptions, table);
      targets := subscriptions[subject].SnapshotSubscribers();
      SnapshotIs(targets, subject, mrn);
    }

    /** The subject's subscribers with another MRN. */
    ghost function OtherSubscribers(subject: string, mrn: string): set<string>
      reads this`known, this`table
    {
      set u | u in Subscribers(table, subject) && MrnOf()(u) != mrn
    }

    lemma NoSubscribers(subject: string, mrn: string)
      ensures subject !in table ==> OtherSubscribers(subject, mrn) == {}
    {
    }

    lemma AddresseesListed(m: Message, agent: Agent)
      requires IndexRight(Mrns(), Index(), Direct()) && HeaderOf(m).Some?
      ensures forall u :: u in Addressees(m, agent) && u in Mrns() ==>
        Lists(Mrns()[u], m) && (ToRecipients(m) ==> u in Direct())
    {
    }

    lemma AddresseesAre(m: Message, agent: Agent)
      ensures AddressIn(m).NoAddress? ==> Addressees(m, agent) == {}
      ensures AddressIn(m).Recipients? ==> Addressees(m, agent) == Holders(Index(), Direct(), AddressIn(m).recipients)
      ensures AddressIn(m).Subject? ==>
        Addressees(m, agent) == OtherSubscribers(AddressIn(m).subject, agent.consumer.mrn)
    {
      hide EntryRight, Index, DirectOf, MrnsOf;
    }

    /** The snapshot of a subject's subscribers, without those of one MRN, as UUIDs. */
    lemma SnapshotIs(targets: seq<Agent>, subject: string, mrn: string)
      requires AgentsValid() && TableValid() && subject in subscriptions
      requires forall a :: a in targets <==> a in subscriptions[subject].subscribers.Values
      ensures forall a :: a in targets ==> Knows(a)
      ensures UuidsOf(targets) == table[subject]
      ensures OthersOf(targets, mrn) == OtherSubscribers(subject, mrn)
    {
      var sub := subscriptions[subject];
      assert EntryRight(known, subject, sub, table[subject]);
      forall u | u in table[subject]
        ensures known[u] in targets && known[u].agentUuid == u && MrnOf()(u) == known[u].consumer.mrn
      {
        assert sub.subscribers[u] == known[u];
      }
      forall a | a in targets ensures Knows(a) && a.agentUuid in table[subject] {
        var u :| u in sub.subscribers && sub.subscribers[u] == a;
      }
    }

    lemma AuthenticatedSender(m: Message, agent: Agent)
      requires AgentsValid() && Knows(agent) && agent.authenticated && agent.consumer.mrn == SenderIn(m)
      ensures HeaderOf(m).Some?
    {
    }

    // ---- the link to the router ----

    /** The writer takes the first message of the outgoing channel. */
    method WriteOutgoing(success: bool)
      requires Valid() && outgoing != []
      modifies this`outgoing, this`awaitResponse, this`written, this`failed
      ensures Valid() && Channel() == Wrote(old(Channel()), success)
    {
      hide AgentsRight, SessionsRight, TableRight, DirectRight, AllAdmitted, BoxesOf, MrnsOf, DirectOf, ChannelRight,
           InterestsRight, ListsOf;
      WriteRight(Channel(), success);
      WriteNext(success);
    }

    method WriteNext(success: bool)
      requires outgoing != []
      modifies this`outgoing, this`awaitResponse, this`written, this`failed
      ensures Channel() == Wrote(old(Channel()), success)
    {
      var m := outgoing[0];
      outgoing, failed := outgoing[1..], failed || !success;
      if m.msgType.ProtocolMessage? {
        if !success {
          outgoing := outgoing + [m];
          return;
        }
        written := written + [m];
        if IsSubscription(m) {
          awaitResponse := awaitResponse[m.uuid := m];
        }
      }
    }

    /** A Notify is answered with a Receive for everything it mentions. */
    method HandleNotify(metadata: seq<Metadata>, newId: string)
      requires Valid()
      modifies this`outgoing, this`pushed
      ensures Valid() && Channel() == Pushed(old(Channel()), [ReceiveRequest(newId, MetadataIds(metadata))])
    {
      hide ChannelRight, InterestsRight, ListsOf, AgentsRight, SessionsRight, TableRight, DirectRight, AllAdmitted,
           BoxesOf, MrnsOf;
      var filter := [];
      for k := 0 to |metadata|
        invariant filter == MetadataIds(metadata)[..k]
      {
        filter := filter + [metadata[k].uuid];
      }
      assert filter == MetadataIds(metadata);
      Push(ReceiveRequest(newId, filter));
    }

    /** A message from the router. `parsed` says whether its UUID is one; `newIds` are the fresh UUIDs under which the
        entries of a response are queued, and `newId` is the one for an answer to a Notify. */
    method HandleIncoming(m: Message, parsed: bool, newIds: seq<string>, newId: string, now: int)
      requires Valid() && |newIds| == |Delivering(m)|
      modifies this`outgoing, this`awaitResponse, this`pushed, this`noted, Mailboxes()`messages
      modifies Mailboxes()`notifications
      ensures Valid()
      ensures
        if parsed && m.body.Reply? then
          && Channel() == Answered(old(Channel()), m.body.response)
          && Boxes() == Deliver(old(Boxes()), table, Index(), Direct(), Delivering(m), newIds, now)
          && noted == NotedAll(old(noted), table, Index(), Direct(), Delivering(m), newIds, now)
        else if parsed && m.body.Protocol? && m.body.kind.NotifyType? then
          var metadata := if m.body.payload.Notify? then m.body.payload.metadata else [];
          && Channel() == Pushed(old(Channel()), [ReceiveRequest(newId, MetadataIds(metadata))])
          && Boxes() == old(Boxes()) && noted == old(noted)
        else
          Channel() == old(Channel()) && Boxes() == old(Boxes()) && noted == old(noted)
    {
      hide AgentsRight, SessionsRight, TableRight, DirectRight, AllAdmitted, BoxesOf, MrnsOf, DirectOf, ChannelRight,
           InterestsRight, ListsOf;
      hide Deliver, NotedAll;
      if !parsed {
        return;
      }
      match m.body {
        case Reply(response) =>
          HandleReply(m, newIds, now);
        case Protocol(NotifyType, payload) =>
          HandleNotify(if payload.Notify? then payload.metadata else [], newId);
        case _ =>
      }
    }

    /** The bookkeeping of a response, and its entries unless it is an error. */
    method HandleReply(m: Message, newIds: seq<string>, now: int)
      requires Valid() && m.body.Reply? && |newIds| == |Delivering(m)|
      modifies this`outgoing, this`awaitResponse, this`pushed, this`noted, Mailboxes()`messages
      modifies Mailboxes()`notifications
      ensures Valid() && Channel() == Answered(old(Channel()), m.body.response)
      ensures Boxes() == Deliver(old(Boxes()), table, Index(), Direct(), Delivering(m), newIds, now)
      ensures noted == NotedAll(old(noted), table, Index(), Direct(), Delivering(m), newIds, now)
    {
      hide AgentsRight, SessionsRight, TableRight, DirectRight, AllAdmitted, BoxesOf, MrnsOf, DirectOf, ChannelRight,
           InterestsRight, ListsOf;
      hide Deliver, NotedAll, Index;
      assert forall s :: s in SubscriptionObjects() ==> allocated(s);
      Unpack(m, newIds, now);
      assert AgentsValid() && SessionsValid() && AdmissionValid() && ChannelValid();
      assert TableValid();
      assert DirectValid();
      assert InterestsValid();
    }

    method Unpack(m: Message, newIds: seq<string>, now: int)
      requires AgentsValid() && SessionsValid() && TableValid() && DirectValid() && AdmissionValid() && ChannelValid()
      requires m.body.Reply? && |newIds| == |Delivering(m)|
      modifies this`outgoing, this`awaitResponse, this`pushed, this`noted, Mailboxes()`messages
      modifies Mailboxes()`notifications
      ensures ChannelValid() && Channel() == Answered(old(Channel()), m.body.response)
      ensures AdmissionValid() && Boxes() == Deliver(old(Boxes()), table, Index(), Direct(), Delivering(m), newIds, now)
      ensures noted == NotedAll(old(noted), table, Index(), Direct(), Delivering(m), newIds, now)
    {
      hide AgentsRight, SessionsRight, TableRight, DirectRight, AllAdmitted, BoxesOf, MrnsOf, DirectOf, ChannelRight,
           Deliver, NotedAll, Index, Answered;
      SettleResponse(m.body.response);
      assert AgentsValid() && SessionsValid() && TableValid() && DirectValid() && AdmissionValid();
      if m.body.response.code.Good? {
        DeliverContents(m.body.response.contents, newIds, now);
      } else {
        DeliverNothing(Boxes(), table, Index(), Direct(), now);
        NoteNothing(noted, table, Index(), Direct(), now);
      }
    }

    /** The request that a response answers is forgotten, and repeated after an error. */
    method SettleResponse(response: Response)
      requires ChannelValid()
      modifies this`outgoing, this`awaitResponse, this`pushed
      ensures ChannelValid() && Channel() == Answered(old(Channel()), response)
    {
      hide ChannelRight;
      AnswerRight(Channel(), response);
      if response.to in awaitResponse {
        var m := awaitResponse[response.to];
        awaitResponse := awaitResponse - {response.to};
        if !response.code.Good? {
          outgoing, pushed := outgoing + [m], pushed + [m];
        }
      } else {
        awaitResponse := awaitResponse - {response.to};
      }
      assert Channel() == Answered(old(Channel()), response) by {
        assert outgoing == old(outgoing) + Retried(old(Channel()).o, response);
      }
    }

    /** Queues the entries of a response, one after the other. */
    method DeliverContents(contents: seq<Content>, newIds: seq<string>, now: int)
      requires AgentsValid() && SessionsValid() && TableValid() && DirectValid() && AdmissionValid()
      requires |newIds| == |contents|
      modifies this`noted, Mailboxes()`messages, Mailboxes()`notifications
      ensures AdmissionValid()
      ensures Boxes() == Deliver(old(Boxes()), table, Index(), Direct(), contents, newIds, now)
      ensures noted == NotedAll(old(noted), table, Index(), Direct(), contents, newIds, now)
    {
      hide AgentsRight, SessionsRight, TableRight, DirectRight, AllAdmitted, BoxesOf, MrnsOf, DirectOf, Index,
           DeliverOne, NotedOne, Deliver, NotedAll;
      DeliverNothing(Boxes(), table, Index(), Direct(), now);
      NoteNothing(noted, table, Index(), Direct(), now);
      ghost var direct, index := Direct(), Index();
      for k := 0 to |contents|
        invariant AdmissionValid() && TableValid() && Direct() == direct && Index() == index
        invariant Boxes() == Deliver(old(Boxes()), table, Index(), Direct(), contents[..k], newIds[..k], now)
        invariant noted == NotedAll(old(noted), table, Index(), Direct(), contents[..k], newIds[..k], now)
      {
        DeliverMore(old(Boxes()), old(noted), table, index, direct, contents, newIds, k, now);
        DeliverContent(contents[k], newIds[k], now);
      }
      assert contents[..|contents|] == contents && newIds[..|contents|] == newIds;
    }

    method DeliverContent(c: Content, newId: string, now: int)
      requires AgentsValid() && SessionsValid() && TableValid() && DirectValid() && AdmissionValid()
      modifies this`noted, Mailboxes()`messages, Mailboxes()`notifications
      ensures AdmissionValid()
      ensures Boxes() == DeliverOne(old(Boxes()), table, Index(), Direct(), c, newId, now)
      ensures noted == NotedOne(old(noted), table, Index(), Direct(), c, newId, now)
    {
      hide AgentsRight, SessionsRight, TableRight, DirectRight, AllAdmitted, BoxesOf, MrnsOf, DirectOf, FanOut,
           LocalTargets, Index, Noted;
      hide IndexRight;
      IndexIsRight();
      DeliverOneAdmitted(Mrns(), noted, Boxes(), table, Index(), Direct(), c, newId, now);
      if c.app.None? || now > AppExpires(c.app.value) || AppExpires(c.app.value) > now + EXPIRATION_LIMIT {
        return;
      }
      ghost var direct, index := Direct(), Index();
      QueueIncoming(SendMessage(newId, c.app.value), AddressOf(c.app.value));
      assert Direct() == direct && Index() == index;
      assert Boxes() == DeliverOne(old(Boxes()), table, Index(), Direct(), c, newId, now);
      assert noted == NotedOne(old(noted), table, Index(), Direct(), c, newId, now);
    }

    method QueueIncoming(m: Message, address: Address)
      requires AgentsValid() && SessionsValid() && TableValid()
      modifies this`noted, Mailboxes()`messages, Mailboxes()`notifications
      ensures Boxes() == FanOut(old(Boxes()), LocalTargets(table, Index(), Direct(), address), m)
      ensures noted == Noted(old(noted), LocalTargets(table, Index(), Direct(), address), Direct(), m)
    {
      hide Noted, ChannelRight, InterestsRight, ListsOf, AgentsRight, SessionsRight, TableRight, BoxesOf, DirectOf,
           FanOut, Index, UuidsOf, MrnOf;
      FanOutNobody(Boxes(), m);
      NotedNobody(noted, Direct(), m);
      TableHasKeys(known, subscriptions, table);
      match address {
        case Subject(subject) =>
          if subject in subscriptions {
            var targets := AgentsOf(subject, "");
            QueueForAll(targets, m);
          }
        case Recipients(recipients) =>
          QueueForRecipients(recipients, m);
        case NoAddress =>
      }
    }

    // ---- receiving, fetching, notifying, collecting ----

    lemma MailboxOf(agent: Agent)
      requires AgentsValid() && AdmissionValid() && Knows(agent)
      ensures WellFormed(agent.consumer.View()) && agent.agentUuid in Boxes()
      ensures Boxes()[agent.agentUuid] == agent.consumer.View() && agent.consumer in Mailboxes()
      ensures forall u :: u in known && u != agent.agentUuid ==> known[u].consumer != agent.consumer
    {
      assert Admitted(Mrns()[agent.agentUuid], noted[agent.agentUuid], Boxes()[agent.agentUuid]);
    }

    /** The mailbox of `agent` has no more in it than before, and the others are the same. */
    twostate lemma OneMailbox(agent: Agent)
      requires AgentsValid() && old(AdmissionValid()) && Knows(agent)
      requires known == old(known) && noted == old(noted) && WellFormed(agent.consumer.View())
      requires Less(agent.consumer.View(), old(agent.consumer.View()))
      requires forall c :: c in old(Mailboxes()) && c != agent.consumer ==> c.View() == old(c.View())
      ensures AdmissionValid() && Boxes() == old(Boxes())[agent.agentUuid := agent.consumer.View()]
    {
      hide AllAdmitted, Less, AgentsRight, BoxesOf, MrnsOf, WellFormed;
      OneBox(agent);
      WasInBoxes(agent);
      SetAdmitted(Mrns(), noted, old(Boxes()), agent.agentUuid, agent.consumer.View());
    }

    twostate lemma WasInBoxes(agent: Agent)
      requires Knows(agent) && known == old(known)
      ensures agent.agentUuid in old(Boxes()) && old(Boxes())[agent.agentUuid] == old(agent.consumer.View())
    {
    }

    /** An agent asks for messages. */
    method Receive(agent: Agent, request: Message, uuid: string, now: int, written: bool) returns (out: Outcome)
      requires Valid() && Knows(agent)
      modifies agent.consumer`messages, agent.consumer`notifications
      ensures Valid()
      ensures
        var b := old(agent.consumer.View());
        Boxes() == old(Boxes())[agent.agentUuid := AfterReceive(b, request, now, written)]
      ensures AnswersReceive(old(agent.consumer.View()), request, now, written, out)
    {
      hide AgentsRight, SessionsRight, TableRight, DirectRight, AllAdmitted, BoxesOf, MrnsOf, DirectOf, ChannelRight,
           InterestsRight, ListsOf;
      hide WellFormed, AfterReceive, AnswersReceive, Less;
      MailboxOf(agent);
      ReceiveLess(agent.consumer.View(), request, now, written);
      out := agent.consumer.HandleReceive(request, uuid, now, written);
      OneMailbox(agent);
    }

    /** An agent asks for the headers of its messages. */
    method FetchHeaders(agent: Agent, request: Message, uuid: string, now: int, written: bool) returns (out: Outcome)
      requires Valid() && Knows(agent)
      modifies agent.consumer`messages
      ensures Valid()
      ensures
        var asked, b := request.body.Protocol? && request.body.payload.Fetch?, old(agent.consumer.View());
        Boxes() == old(Boxes())[agent.agentUuid := if asked then Expire(b, now) else b]
      ensures AnswersFetch(old(agent.consumer.View()), request, now, written, out)
    {
      hide AgentsRight, SessionsRight, TableRight, DirectRight, AllAdmitted, BoxesOf, MrnsOf, DirectOf, ChannelRight,
           InterestsRight, ListsOf;
      hide WellFormed, AnswersFetch;
      MailboxOf(agent);
      out := agent.consumer.HandleFetch(request, uuid, now, written);
      OneMailbox(agent);
    }

    /** One round of an agent's notifier. */
    method Notify(agent: Agent, uuid: string, written: bool) returns (out: Outcome)
      requires Valid() && Knows(agent)
      modifies agent.consumer`notifications
      ensures Valid()
      ensures Boxes() == old(Boxes())[agent.agentUuid := NotifyAll(old(agent.consumer.View()), written)]
      ensures AnnouncesDue(old(agent.consumer.View()), written, out)
    {
      hide AgentsRight, SessionsRight, TableRight, DirectRight, AllAdmitted, BoxesOf, MrnsOf, DirectOf, ChannelRight,
           InterestsRight, ListsOf;
      hide WellFormed, AnnouncesDue, Less, NotifyAll;
      MailboxOf(agent);
      NotifyLess(agent.consumer.View(), written);
      out := agent.consumer.CheckNewMessages(uuid, written);
      OneMailbox(agent);
    }

    /** The UUIDs of the agents that some reconnect token leads to. */
    ghost function Sessions(tokens: set<string>): set<string>
      requires tokens <= agents.Keys
      reads this`agents
    {
      set token | token in tokens :: agents[token].agentUuid
    }

    /** A round of garbage collection goes over the reconnect tokens, several of which may lead to the same agent: it
        deletes the expired messages of every agent that has one, and nothing else. */
    method MessageGC(now: int)
      requires Valid()
      modifies Mailboxes()`messages
      ensures Valid()
      ensures Boxes() == ExpireFor(old(Boxes()), Sessions(agents.Keys), now)
      ensures forall u :: u in known ==>
        var c := known[u].consumer;
        && c.notifications == old(c.notifications)
        && if exists token :: token in agents && agents[token] == known[u]
           then Collected(old(c.messages), c.messages, now) else c.messages == old(c.messages)
    {
      assert AgentsValid() && SessionsValid();
      hide Valid, AgentsRight, SessionsRight, BoxesOf, ExpireFor, Sessions, Collected;
      CollectEvery(now);
      EveryOneCollected(now);
    }

    method CollectEvery(now: int)
      requires Valid()
      modifies Mailboxes()`messages
      ensures Valid() && Boxes() == ExpireFor(old(Boxes()), Sessions(agents.Keys), now)
    {
      hide AgentsRight, SessionsRight, TableRight, DirectRight, AllAdmitted, BoxesOf, MrnsOf, DirectOf, ChannelRight,
           InterestsRight, ListsOf;
      hide ExpireFor, Sessions;
      assert forall s :: s in SubscriptionObjects() ==> allocated(s);
      CollectAll(now);
    }

    /** What the round did to each mailbox. */
    twostate lemma EveryOneCollected(now: int)
      requires AgentsValid() && SessionsValid() && known == old(known) && agents == old(agents)
      requires Boxes() == ExpireFor(old(Boxes()), Sessions(agents.Keys), now)
      ensures forall u :: u in known ==>
        var c := known[u].consumer;
        && c.notifications == old(c.notifications)
        && if exists token :: token in agents && agents[token] == known[u]
           then Collected(old(c.messages), c.messages, now) else c.messages == old(c.messages)
    {
      hide Collected;
      forall u | u in known
        ensures
          var c := known[u].consumer;
          && c.notifications == old(c.notifications)
          && if exists token :: token in agents && agents[token] == known[u]
             then Collected(old(c.messages), c.messages, now) else c.messages == old(c.messages)
      {
        assert Boxes()[u] == known[u].consumer.View() && old(Boxes())[u] == old(known[u].consumer.View());
        CollectedFrom(old(Boxes()), Sessions(agents.Keys), now, u);
        SessionsOf(u);
      }
    }

    lemma SessionsOf(u: string)
      requires AgentsValid() && SessionsValid() && u in known
      ensures u in Sessions(agents.Keys) <==> exists token :: token in agents && agents[token] == known[u]
    {
      forall token | token in agents ensures IsKnown(known, agents[token]) {}
    }

    method CollectAll(now: int)
      requires AgentsValid() && SessionsValid() && AdmissionValid()
      modifies Mailboxes()`messages
      ensures AdmissionValid() && Boxes() == ExpireFor(old(Boxes()), Sessions(agents.Keys), now)
    {
      hide AgentsRight, AllAdmitted, BoxesOf, MrnsOf, ExpireFor, IsKnown;
      ghost var done: set<string> := {};
      var todo := agents.Keys;
      ExpireNobody(Boxes(), now);
      assert Sessions(done) == {};
      while todo != {}
        invariant todo <= agents.Keys && done == agents.Keys - todo
        invariant AdmissionValid()
        invariant Boxes() == ExpireFor(old(Boxes()), Sessions(done), now)
        decreases todo
      {
        var token :| token in todo;
        assert IsKnown(known, agents[token]);
        AgentMailbox(agents[token]);
        ExpireOneMore(old(Boxes()), Sessions(done), agents[token].agentUuid, now);
        assert Sessions(done + {token}) == Sessions(done) + {agents[token].agentUuid};
        CollectFor(agents[token], now);
        todo := todo - {token};
        done := done + {token};
      }
      assert done == agents.Keys;
    }

    lemma AgentMailbox(agent: Agent)
      requires IsKnown(known, agent)
      ensures agent.consumer in Mailboxes()
    {
    }

    method CollectFor(agent: Agent, now: int)
      requires AgentsValid() && AdmissionValid() && IsKnown(known, agent)
      modifies agent.consumer`messages
      ensures AdmissionValid()
      ensures Boxes() == ExpireFor(old(Boxes()), {agent.agentUuid}, now)
    {
      hide AgentsRight, AllAdmitted, WellFormed, MrnsOf;
      MailboxOf(agent);
      agent.consumer.CollectGarbage(now);
      OneMailbox(agent);
    }
  }

  /** What the contracts speak of is what the objects hold: mailboxes, the index, the receivers of direct messages, the
      subscribers of each subject, and the channel. */
  lemma AbstractionIs(er: EdgeRouter, u: string, s: string)
    requires er.Valid()
    ensures er.Boxes().Keys == er.known.Keys
    ensures u in er.known ==>
      var a := er.known[u];
      && er.Boxes()[u].messages == a.consumer.messages && er.Boxes()[u].notifications == a.consumer.notifications
      && er.MrnOf()(u) == a.consumer.mrn && (u in er.Direct() <==> a.directMessages)
    ensures u in er.Direct() ==> u in er.known
    ensures s in er.Index() <==> s in er.mrnToAgent
    ensures s in er.mrnToAgent ==> er.Index()[s] in er.known && er.known[er.Index()[s]] == er.mrnToAgent[s]
    ensures u in Subscribers(er.table, s) <==> s in er.subscriptions && u in er.subscriptions[s].subscribers
    ensures s in er.subscriptions && u in er.subscriptions[s].subscribers ==>
      u in er.known && er.subscriptions[s].subscribers[u] == er.known[u]
    ensures er.Channel().o.queue == er.outgoing && er.Channel().o.awaiting == er.awaitResponse
    ensures er.Channel().o.written == er.written && er.Channel().pushed == er.pushed
  {
    hide AgentsRight, DirectRight, AllAdmitted, ChannelRight, InterestsRight, EntryRight;
    SubscribersAre(er, u, s);
    hide TableRight;
    if s in er.mrnToAgent { assert IsKnown(er.known, er.mrnToAgent[s]); }
  }

  lemma SubscribersAre(er: EdgeRouter, u: string, s: string)
    requires TableRight(er.known, er.subscriptions, er.table)
    ensures u in Subscribers(er.table, s) <==> s in er.subscriptions && u in er.subscriptions[s].subscribers
    ensures s in er.subscriptions && u in er.subscriptions[s].subscribers ==>
      u in er.known && er.subscriptions[s].subscribers[u] == er.known[u]
  {
    if s in er.subscriptions { assert EntryRight(er.known, s, er.subscriptions[s], er.table[s]); }
  }

  /** Whom an accepted Send is queued for. */
  lemma AddressedAgents(er: EdgeRouter, m: Message, agent: Agent, u: string)
    requires er.Valid() && HeaderOf(m).Some? && u in er.known
    ensures u in er.Addressees(m, agent) <==>
      var address, a := HeaderOf(m).value.address, er.known[u];
      || (address.Subject? && address.subject in er.subscriptions && u in er.subscriptions[address.subject].subscribers
          && a.consumer.mrn != agent.consumer.mrn)
      || (address.Recipients? && a.directMessages
          && exists r :: r in address.recipients && r in er.mrnToAgent && er.mrnToAgent[r] == a)
  {
    hide DirectRight, AllAdmitted, ChannelRight, InterestsRight, TableRight;
    var address := HeaderOf(m).value.address;
    SubscribersAre(er, u, if address.Subject? then address.subject else "");
    forall r | r in er.mrnToAgent ensures IsKnown(er.known, er.mrnToAgent[r]) {}
  }

  /** Direct-message admission: whatever was addressed to recipients and is in an agent's mailbox lists that agent's
      MRN, which is not empty, and was queued while the agent took direct messages; the index finds an agent under its
      own MRN only; and whoever takes direct messages is authenticated. */
  lemma DirectMessageAdmission(er: EdgeRouter, u: string, key: string)
    requires er.Valid() && u in er.known
    ensures er.known[u].directMessages ==> er.known[u].authenticated && er.known[u].consumer.mrn != ""
    ensures forall mrn :: mrn in er.mrnToAgent ==> er.mrnToAgent[mrn].consumer.mrn == mrn
    ensures u in er.noted
    ensures
      var c := er.known[u].consumer;
      key in c.messages && AddressIn(c.messages[key]).Recipients? ==>
        && c.mrn != "" && c.mrn in AddressIn(c.messages[key]).recipients
        && c.messages[key] in er.noted[u]
  {
    hide AgentsRight, TableRight, ChannelRight, InterestsRight;
    assert er.Boxes()[u] == er.known[u].consumer.View();
    assert Admitted(er.Mrns()[u], er.noted[u], er.Boxes()[u]);
  }

  /** Every message in an agent's mailbox is a Send with a header, under its own non-empty UUID. */
  lemma StoredWellFormed(er: EdgeRouter, u: string, key: string)
    requires er.Valid() && u in er.known
    ensures
      var c := er.known[u].consumer;
      && (key in c.messages ==> Storable(key, c.messages[key]))
      && (key in c.notifications ==> Storable(key, c.notifications[key]))
  {
    hide AgentsRight, SessionsRight, TableRight, DirectRight, ChannelRight, InterestsRight;
    assert er.Boxes()[u] == er.known[u].consumer.View();
    assert Admitted(er.Mrns()[u], er.noted[u], er.Boxes()[u]);
  }

  /** An agent that a subject has as a subscriber has the subject on its list of interests, as long as no two subjects
      that it joined or left differ by case only. */
  lemma SubscribersListed(er: EdgeRouter, u: string, subject: string)
    requires er.Valid() && u in er.known && u in Subscribers(er.table, subject)
    ensures u in er.changes && (CasesApart(er.changes[u], er.fold) ==> subject in er.known[u].consumer.interests)
  {
    hide AgentsRight, SessionsRight, TableRight, DirectRight, ChannelRight, AllAdmitted, CasesApart, Interests.After;
    var subscribed, interests := SubjectsOf(er.table, u), er.known[u].consumer.interests;
    assert er.InterestLists()[u] == interests;
    assert Membership(subscribed, interests) == Interests.After(er.changes[u], er.fold);
    if CasesApart(er.changes[u], er.fold) {
      ListedAlways(er.changes[u], er.fold);
      assert subject in subscribed;
    }
  }

  /** The outgoing channel of every edge router, whatever its handlers did: protocol messages only; what awaits an
      answer is a written request; what was pushed is written or queued, and in order if no write failed. */
  lemma ChannelKept(er: EdgeRouter)
    requires er.Valid()
    ensures forall m :: m in er.outgoing || m in er.written ==> m.msgType.ProtocolMessage?
    ensures forall u :: u in er.awaitResponse ==>
      er.awaitResponse[u] in er.written && IsSubscription(er.awaitResponse[u])
    ensures multiset(er.pushed) == multiset(er.written) + multiset(er.outgoing)
    ensures !er.failed ==> er.pushed == er.written + er.outgoing
  {
    hide AgentsRight, SessionsRight, TableRight, DirectRight, AllAdmitted, InterestsRight;
  }
}
