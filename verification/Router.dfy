/** The router of router/router.go: an object whose methods update tables, topic handles, mailboxes and two channels in
    place. Each method is proved against the value-level operations of Routing. One session per edge router MRN. */
module Routers {
  import opened Mmtp
  import opened MailboxSpec
  import opened Routing
  import opened Interests
  import opened Consumers

  /** The handle of a joined topic of the overlay. */
  class Topic {
    const subject: string

    constructor (subject: string)
      ensures this.subject == subject
    {
      this.subject := subject;
    }
  }

  class Subscription {
    const interest: string
    const topic: Topic
    var subscribers: map<string, Consumer>

    constructor (interest: string, topic: Topic)
      ensures this.interest == interest && this.topic == topic && subscribers == map[]
    {
      this.interest, this.topic, subscribers := interest, topic, map[];
    }

    method AddSubscriber(e: Consumer)
      modifies this`subscribers
      ensures subscribers == old(subscribers)[e.mrn := e]
    {
      subscribers := subscribers[e.mrn := e];
    }

    method DeleteSubscriber(e: Consumer)
      modifies this`subscribers
      ensures subscribers == old(subscribers) - {e.mrn}
    {
      subscribers := subscribers - {e.mrn};
    }
  }

  // ---- whom a message is queued for ----

  /** The subscribers of the subject, or of any of the MRNs that a recipient-cast lists. */
  function Addressed(table: Table<Edge>, address: Address): set<Edge> {
    match address
    case NoAddress => {}
    case Subject(s) => Subscribers(table, s)
    case Recipients(rs) => set r, e | r in rs && e in Subscribers(table, r) :: e
  }

  lemma AddressedSnoc(table: Table<Edge>, rs: seq<string>, r: string)
    ensures Addressed(table, Recipients(rs + [r])) == Addressed(table, Recipients(rs)) + Subscribers(table, r)
  {
  }

  lemma AddressedNobody(table: Table<Edge>)
    ensures Addressed(table, Recipients([])) == {}
  {
  }

  /** Joins the topic if need be and publishes on it: the state, and whether the publication went out. */
  function PublishOn(st: RouterState, subject: string, result: PublishResult): (RouterState, bool) {
    if subject !in st.topics && result.PublishJoinFailed? then (st, false)
    else (JoinTopic(st, subject), !result.PublishFailed?)
  }

  datatype Posting = Posting(subject: string, m: Message)

  /** The publications of a recipient-cast, one topic after the other. */
  function PublishEach(st: RouterState, rs: seq<string>, m: Message,
                       results: seq<PublishResult>): (RouterState, seq<Posting>)
    requires |results| == |rs|
  {
    if rs == [] then (st, [])
    else
      var n := |rs| - 1;
      var (st1, sent) := PublishEach(st, rs[..n], m, results[..n]);
      var (st2, went) := PublishOn(st1, rs[n], results[n]);
      (st2, if went then sent + [Posting(rs[n], m)] else sent)
  }

  lemma {:induction false} PublishKeepsTopics(st: RouterState, rs: seq<string>, m: Message, results: seq<PublishResult>)
    requires |results| == |rs| && TopicsAgree(st)
    ensures TopicsAgree(PublishEach(st, rs, m, results).0)
  {
    if rs != [] {
      PublishKeepsTopics(st, rs[..|rs| - 1], m, results[..|rs| - 1]);
    }
  }

  lemma PublishNothing(st: RouterState, rs: seq<string>, m: Message, results: seq<PublishResult>)
    requires |results| == |rs|
    ensures PublishEach(st, rs[..0], m, results[..0]) == (st, [])
  {
  }

  lemma PublishEachSnoc(st: RouterState, rs: seq<string>, m: Message, results: seq<PublishResult>, k: nat)
    requires |results| == |rs| && k < |rs|
    ensures
      var (st1, sent) := PublishEach(st, rs[..k], m, results[..k]);
      var (st2, went) := PublishOn(st1, rs[k], results[k]);
      PublishEach(st, rs[..k + 1], m, results[..k + 1]) == (st2, if went then sent + [Posting(rs[k], m)] else sent)
  {
    assert rs[..k + 1][..k] == rs[..k] && results[..k + 1][..k] == results[..k];
  }

  /** The topics that a message is published on. */
  function TopicsFor(m: Message): seq<string> {
    if !m.msgType.ProtocolMessage? then []
    else match AddressIn(m)
      case NoAddress => []
      case Subject(s) => [s]
      case Recipients(rs) => rs
  }

  /** One posting for each recipient. */
  function PostAll(rs: seq<string>, m: Message): (sent: seq<Posting>)
    ensures |sent| == |rs| && forall i :: 0 <= i < |rs| ==> sent[i] == Posting(rs[i], m)
  {
    seq(|rs|, i requires 0 <= i < |rs| => Posting(rs[i], m))
  }

  lemma {:induction false} AllPosted(st: RouterState, rs: seq<string>, m: Message, results: seq<PublishResult>)
    requires |results| == |rs| && forall i :: 0 <= i < |rs| ==> results[i].Published?
    ensures PublishEach(st, rs, m, results).1 == PostAll(rs, m)
  {
    if rs != [] {
      var n := |rs| - 1;
      AllPosted(st, rs[..n], m, results[..n]);
      assert PostAll(rs, m) == PostAll(rs[..n], m) + [Posting(rs[n], m)];
    }
  }

  /** The router has the handle of the topic of `rs[i]` after it tried the recipients up to `i`. */
  ghost predicate HasHandle(topics: set<string>, rs: seq<string>, results: seq<PublishResult>, i: nat)
    requires i < |rs| == |results|
  {
    rs[i] in topics || exists j :: 0 <= j <= i && rs[j] == rs[i] && !results[j].PublishJoinFailed?
  }

  /** `sent` are the postings for the recipients at the places `at`, which are in order and are exactly those for which
      the router had or could join the topic, and the overlay took the publication. */
  ghost predicate PostedAt(topics: set<string>, rs: seq<string>, results: seq<PublishResult>, m: Message,
                           sent: seq<Posting>, at: seq<nat>)
    requires |results| == |rs|
  {
    && |at| == |sent| && (forall k, l :: 0 <= k < l < |at| ==> at[k] < at[l])
    && (forall k :: 0 <= k < |at| ==> at[k] < |rs| && sent[k] == Posting(rs[at[k]], m))
    && (forall i :: 0 <= i < |rs| ==>
         (i in at <==> HasHandle(topics, rs, results, i) && !results[i].PublishFailed?))
  }

  lemma HandlesOfPrefix(topics: set<string>, rs: seq<string>, results: seq<PublishResult>, n: nat, i: nat)
    requires i < n <= |rs| == |results|
    ensures HasHandle(topics, rs[..n], results[..n], i) == HasHandle(topics, rs, results, i)
  {
  }

  lemma PostedMore(topics: set<string>, rs: seq<string>, results: seq<PublishResult>, m: Message, sent: seq<Posting>,
                   at: seq<nat>, n: nat, went: bool)
    requires |rs| == |results| == n + 1 && PostedAt(topics, rs[..n], results[..n], m, sent, at)
    requires went <==> HasHandle(topics, rs, results, n) && !results[n].PublishFailed?
    ensures if went then PostedAt(topics, rs, results, m, sent + [Posting(rs[n], m)], at + [n])
            else PostedAt(topics, rs, results, m, sent, at)
  {
    forall i: nat | i < n
      ensures HasHandle(topics, rs[..n], results[..n], i) == HasHandle(topics, rs, results, i)
    {
      HandlesOfPrefix(topics, rs, results, n, i);
    }
    hide HasHandle;
    assert n !in at;
    forall i | 0 <= i <= n ensures i in at + [n] <==> i in at || i == n {}
  }

  /** What is published of a message, whatever fails: one posting for each recipient whose topic the router has or
      joins and whose publication goes out, in the order of the recipients; and which topics it has then. */
  lemma {:induction false} PublishedExactly(st: RouterState, rs: seq<string>, m: Message, results: seq<PublishResult>)
    returns (at: seq<nat>)
    requires |results| == |rs|
    ensures PostedAt(st.topics, rs, results, m, PublishEach(st, rs, m, results).1, at)
    ensures forall t :: t in PublishEach(st, rs, m, results).0.topics <==>
      t in st.topics || exists i :: 0 <= i < |rs| && rs[i] == t && !results[i].PublishJoinFailed?
  {
    at := [];
    if rs != [] {
      var n := |rs| - 1;
      at := PublishedExactly(st, rs[..n], m, results[..n]);
      var (st1, sent) := PublishEach(st, rs[..n], m, results[..n]);
      var (st2, went) := PublishOn(st1, rs[n], results[n]);
      TopicsMore(st.topics, st1.topics, rs, results, n);
      PostedMore(st.topics, rs, results, m, sent, at, n,
                 HasHandle(st.topics, rs, results, n) && !results[n].PublishFailed?);
      if went { at := at + [n]; }
    }
  }

  lemma TopicsMore(topics: set<string>, later: set<string>, rs: seq<string>, results: seq<PublishResult>, n: nat)
    requires |rs| == |results| == n + 1
    requires forall t :: t in later <==>
      t in topics || exists i :: 0 <= i < n && rs[..n][i] == t && !results[..n][i].PublishJoinFailed?
    ensures HasHandle(topics, rs, results, n) <==> rs[n] in later || !results[n].PublishJoinFailed?
    ensures forall t :: (t in topics || exists i :: 0 <= i <= n && rs[i] == t && !results[i].PublishJoinFailed?) <==>
      t in later || (t == rs[n] && !results[n].PublishJoinFailed?)
  {
    forall i | 0 <= i < n ensures rs[..n][i] == rs[i] && results[..n][i] == results[i] {}
  }

  /** The topics of a message, and what is published on them when all goes well. */
  lemma PublicationsOf(m: Message, st: RouterState, results: seq<PublishResult>)
    requires |results| == |TopicsFor(m)|
    ensures
      var (n, sent) := PublishEach(st, TopicsFor(m), m, results);
      && (m.msgType.ProtocolMessage? && AddressIn(m).Recipients? ==>
            var rs := AddressIn(m).recipients;
            && |results| == |rs|
            && (forall i :: 0 <= i < |rs| && !results[i].PublishJoinFailed? ==> rs[i] in n.topics)
            && ((forall i :: 0 <= i < |rs| ==> results[i].Published?) ==> sent == PostAll(rs, m)))
      && (m.msgType.ProtocolMessage? && AddressIn(m).Subject? && results == [Published] ==>
            AddressIn(m).subject in n.topics && sent == [Posting(AddressIn(m).subject, m)])
      && (!m.msgType.ProtocolMessage? || AddressIn(m).NoAddress? ==> sent == [] && n == st)
  {
    hide PublishEach;
    var at := PublishedExactly(st, TopicsFor(m), m, results);
    if m.msgType.ProtocolMessage? && AddressIn(m).Recipients? {
      assert TopicsFor(m) == AddressIn(m).recipients;
      if forall i :: 0 <= i < |results| ==> results[i].Published? { AllPosted(st, TopicsFor(m), m, results); }
    } else if m.msgType.ProtocolMessage? && AddressIn(m).Subject? && results == [Published] {
      AllPosted(st, TopicsFor(m), m, results);
      assert TopicsFor(m) == [AddressIn(m).subject] && TopicsFor(m)[0] == AddressIn(m).subject;
    } else if !m.msgType.ProtocolMessage? || AddressIn(m).NoAddress? {
      PublishNothing(st, TopicsFor(m), m, results);
      assert TopicsFor(m)[..0] == TopicsFor(m) && results[..0] == results;
    }
  }

  /** How many of the recipients, from the first on, have a table entry. */
  function KnownPrefix(table: Table<Edge>, rs: seq<string>): (k: nat)
    ensures k <= |rs| && (forall i :: 0 <= i < k ==> rs[i] in table) && (k < |rs| ==> rs[k] !in table)
  {
    if rs == [] || rs[0] !in table then 0 else 1 + KnownPrefix(table, rs[1..])
  }

  lemma KnownPrefixIs(table: Table<Edge>, rs: seq<string>, k: nat)
    requires k <= |rs| && (forall i :: 0 <= i < k ==> rs[i] in table) && (k < |rs| ==> rs[k] !in table)
    ensures KnownPrefix(table, rs) == k
  {
    var j := KnownPrefix(table, rs);
    assert j < |rs| ==> rs[j] !in table;
  }

  /** Whom an incoming message is queued for: the subscribers of its subject, or of its recipients up to the first
      that has no entry. */
  function Reached(table: Table<Edge>, address: Address): set<Edge> {
    match address
    case Recipients(rs) => Addressed(table, Recipients(rs[..KnownPrefix(table, rs)]))
    case _ => Addressed(table, address)
  }

  /** Every table entry that the dispatcher looks up is there. */
  predicate AllListed(table: Table<Edge>, address: Address) {
    match address
    case NoAddress => true
    case Subject(s) => s in table
    case Recipients(rs) => forall r :: r in rs ==> r in table
  }

  lemma NoHeaderNoneReached(table: Table<Edge>, m: Message)
    ensures Reached(table, AddressIn(m)) != {} ==> HeaderOf(m).Some?
  {
  }

  // ---- what the router keeps ----

  ghost predicate SessionsRight(edgeRouters: map<string, Consumer>) {
    forall mrn :: mrn in edgeRouters ==> mrn != "" && edgeRouters[mrn].mrn == mrn
  }

  ghost predicate HandlesRight(topicHandles: map<string, Topic>) {
    forall s :: s in topicHandles ==> topicHandles[s].subject == s
  }

  /** The subscription holds the sessions of these edge routers and the handle of its topic. */
  ghost predicate EntryRight(edgeRouters: map<string, Consumer>, topicHandles: map<string, Topic>, subject: string,
                             sub: Subscription, members: set<string>)
    reads sub`subscribers
  {
    && sub.interest == subject && subject in topicHandles && sub.topic == topicHandles[subject]
    && sub.subscribers.Keys == members
    && (forall e :: e in members ==> e in edgeRouters && sub.subscribers[e] == edgeRouters[e])
  }

  ghost predicate TableRight(edgeRouters: map<string, Consumer>, topicHandles: map<string, Topic>,
                             subscriptions: map<string, Subscription>, table: Table<Edge>)
    reads (set s | s in subscriptions :: subscriptions[s])`subscribers
  {
    && table.Keys == subscriptions.Keys && "" !in table
    && (forall s :: s in subscriptions ==> EntryRight(edgeRouters, topicHandles, s, subscriptions[s], table[s]))
  }

  ghost function BoxesOf(edgeRouters: map<string, Consumer>): (boxes: map<string, Box>)
    reads (set e | e in edgeRouters :: edgeRouters[e])`messages
    reads (set e | e in edgeRouters :: edgeRouters[e])`notifications
    ensures boxes.Keys == edgeRouters.Keys
  {
    map e | e in edgeRouters :: edgeRouters[e].View()
  }

  lemma BoxesGrow(edgeRouters: map<string, Consumer>, e: Consumer)
    requires e.mrn !in edgeRouters && e.View() == Box(map[], map[])
    ensures BoxesOf(edgeRouters[e.mrn := e]) == BoxesOf(edgeRouters)[e.mrn := Box(map[], map[])]
    ensures AllWellFormed(BoxesOf(edgeRouters)) ==> AllWellFormed(BoxesOf(edgeRouters[e.mrn := e]))
  {
  }

  ghost predicate AllWellFormed(boxes: map<string, Box>) {
    forall e :: e in boxes ==> WellFormed(boxes[e])
  }

  lemma FanOutWellFormed(boxes: map<string, Box>, targets: set<string>, m: Message)
    requires AllWellFormed(boxes) && (targets != {} ==> HeaderOf(m).Some?)
    ensures AllWellFormed(FanOut(boxes, targets, m))
  {
    forall e | e in boxes ensures WellFormed(FanOut(boxes, targets, m)[e]) {
      assert WellFormed(boxes[e]);
    }
  }

  lemma ExpiredWellFormed(boxes: map<string, Box>, owners: set<string>, now: int)
    requires AllWellFormed(boxes)
    ensures AllWellFormed(ExpireFor(boxes, owners, now))
  {
    forall e | e in boxes ensures WellFormed(ExpireFor(boxes, owners, now)[e]) {
      assert WellFormed(boxes[e]);
    }
  }

  lemma EntryOf(edgeRouters: map<string, Consumer>, topicHandles: map<string, Topic>,
                subscriptions: map<string, Subscription>, table: Table<Edge>, subject: string)
    requires TableRight(edgeRouters, topicHandles, subscriptions, table)
    ensures table.Keys == subscriptions.Keys && "" !in table
    ensures forall s :: s in subscriptions ==> EntryRight(edgeRouters, topicHandles, s, subscriptions[s], table[s])
    ensures subject in subscriptions ==>
      forall s :: s in subscriptions && s != subject ==> subscriptions[s] != subscriptions[subject]
  {
    forall s | s in subscriptions ensures subscriptions[s].interest == s {
      assert EntryRight(edgeRouters, topicHandles, s, subscriptions[s], table[s]);
    }
  }

  lemma NoAnonymous(edgeRouters: map<string, Consumer>, topicHandles: map<string, Topic>,
                    subscriptions: map<string, Subscription>, table: Table<Edge>)
    requires SessionsRight(edgeRouters) && TableRight(edgeRouters, topicHandles, subscriptions, table)
    ensures forall s :: s in table ==> "" !in table[s]
  {
    forall s | s in table ensures "" !in table[s] {
      assert EntryRight(edgeRouters, topicHandles, s, subscriptions[s], table[s]);
    }
  }

  lemma TableFrom(edgeRouters: map<string, Consumer>, topicHandles: map<string, Topic>,
                  subscriptions: map<string, Subscription>, table: Table<Edge>)
    requires table.Keys == subscriptions.Keys && "" !in table
    requires forall s :: s in subscriptions ==> EntryRight(edgeRouters, topicHandles, s, subscriptions[s], table[s])
    ensures TableRight(edgeRouters, topicHandles, subscriptions, table)
  {
    hide EntryRight;
  }

  /** More topic handles and more sessions leave the table right. */
  lemma TableLater(edgeRouters: map<string, Consumer>, topicHandles: map<string, Topic>,
                   subscriptions: map<string, Subscription>, table: Table<Edge>,
                   edgeRouters': map<string, Consumer>, topicHandles': map<string, Topic>)
    requires TableRight(edgeRouters, topicHandles, subscriptions, table)
    requires forall e :: e in edgeRouters ==> e in edgeRouters' && edgeRouters'[e] == edgeRouters[e]
    requires forall s :: s in topicHandles ==> s in topicHandles' && topicHandles'[s] == topicHandles[s]
    ensures TableRight(edgeRouters', topicHandles', subscriptions, table)
  {
    forall s | s in subscriptions ensures EntryRight(edgeRouters', topicHandles', s, subscriptions[s], table[s]) {
      assert EntryRight(edgeRouters, topicHandles, s, subscriptions[s], table[s]);
    }
  }

  lemma SubscribesAgain(st: RouterState, e: Edge, subject: string, join: JoinResult)
    requires subject != ""
    ensures subject in st.table ==>
      RouterSubscribe(st, e, subject, join) == (st.(table := AddSubscriber(st.table, subject, e)), true)
  {
  }

  lemma DropKeepsTopics(st: RouterState, subject: string, e: Edge)
    requires TopicsAgree(st)
    ensures TopicsAgree(st.(table := DropSubscriber(st.table, subject, e)))
  {
  }

  lemma NoHeaderNoTargets(table: Table<Edge>, m: Message)
    ensures Addressed(table, AddressIn(m)) != {} ==> HeaderOf(m).Some?
  {
  }

  lemma AddressedMore(table: Table<Edge>, rs: seq<string>, k: nat)
    requires k <= |rs|
    ensures Addressed(table, Recipients(rs[..k])) <= Addressed(table, Recipients(rs))
  {
  }

  // ---- the router ----

  class MMSRouter {
    var subscriptions: map<string, Subscription>
    var edgeRouters: map<string, Consumer>
    var topicHandles: map<string, Topic>
    var incoming: seq<Message>
    var outgoing: seq<Message>
    ghost var table: Table<Edge>             // subscribers' MRNs by subject
    ghost var listeners: multiset<string>    // one for every running listener of a topic
    ghost var joins: multiset<string>        // history of the successful joins
    ghost var published: seq<Posting>      // history of the publications

    ghost function Mailboxes(): set<Consumer>
      reads this`edgeRouters
    {
      set e | e in edgeRouters :: edgeRouters[e]
    }

    ghost function Boxes(): (boxes: map<string, Box>)
      reads this`edgeRouters, Mailboxes()`messages, Mailboxes()`notifications
      ensures boxes.Keys == edgeRouters.Keys
    {
      BoxesOf(edgeRouters)
    }

    ghost function SubscriptionObjects(): set<Subscription>
      reads this`subscriptions
    {
      set s | s in subscriptions :: subscriptions[s]
    }

    /** The router's part of the network state; publications on their way are not part of the object. */
    ghost function State(): RouterState
      reads this`table, this`topicHandles, this`listeners, this`joins, this`incoming, this`outgoing
    {
      RouterState(table, topicHandles.Keys, listeners, outgoing, [], incoming, joins)
    }

    ghost predicate Knows(e: Consumer)
      reads this`edgeRouters
    {
      e.mrn in edgeRouters && edgeRouters[e.mrn] == e
    }

    ghost predicate TableValid()
      reads this`edgeRouters, this`topicHandles, this`subscriptions, this`table, SubscriptionObjects()`subscribers
    {
      TableRight(edgeRouters, topicHandles, subscriptions, table)
    }

    ghost predicate Valid()
      reads this`edgeRouters, this`topicHandles, this`subscriptions, this`table, this`listeners, this`joins
      reads this`incoming, this`outgoing
      reads SubscriptionObjects()`subscribers, Mailboxes()`messages, Mailboxes()`notifications
    {
      && SessionsRight(edgeRouters) && HandlesRight(topicHandles) && TableValid() && TopicsAgree(State())
      && AllWellFormed(Boxes())
    }

    constructor ()
      ensures Valid() && subscriptions == map[] && edgeRouters == map[] && published == []
      ensures State() == RouterState(map[], {}, multiset{}, [], [], [], multiset{})
    {
      subscriptions, edgeRouters, topicHandles, incoming, outgoing := map[], map[], map[], [], [];
      table, listeners, joins, published := map[], multiset{}, multiset{}, [];
    }

    /** An edge router whose certificate checks passed connects without a reconnect token: a new session, the only one
        of its MRN. */
    method Connect(mrn: string, newToken: string) returns (e: Consumer)
      requires Valid() && mrn != "" && mrn !in edgeRouters
      modifies this`edgeRouters
      ensures Valid() && fresh(e) && e.mrn == mrn && e.reconnectToken == newToken
      ensures edgeRouters == old(edgeRouters)[mrn := e] && Boxes() == old(Boxes())[mrn := Box(map[], map[])]
    {
      hide SessionsRight, HandlesRight, TableRight, TopicsAgree, AllWellFormed, BoxesOf;
      assert forall c :: c in Mailboxes() ==> allocated(c);
      assert forall s :: s in SubscriptionObjects() ==> allocated(s);
      e := new Consumer(mrn);
      e.reconnectToken := newToken;
      Admit(e);
    }

    method Admit(e: Consumer)
      requires Valid() && e.mrn != "" && e.mrn !in edgeRouters && e.View() == Box(map[], map[])
      modifies this`edgeRouters
      ensures Valid() && edgeRouters == old(edgeRouters)[e.mrn := e]
      ensures Boxes() == old(Boxes())[e.mrn := Box(map[], map[])]
    {
      hide HandlesRight, TableRight, TopicsAgree, AllWellFormed, BoxesOf;
      TableLater(edgeRouters, topicHandles, subscriptions, table, edgeRouters[e.mrn := e], topicHandles);
      BoxesGrow(edgeRouters, e);
      edgeRouters := edgeRouters[e.mrn := e];
    }

    // ---- subscriptions ----

    /** Joins the topic of the subject unless its handle is there. */
    method Join(subject: string, fails: bool) returns (topic: Topic?)
      requires HandlesRight(topicHandles) && TableValid()
      modifies this`topicHandles, this`joins
      ensures HandlesRight(topicHandles) && TableValid()
      ensures topic == null <==> fails && subject !in old(topicHandles)
      ensures topic != null ==> subject in topicHandles && topicHandles[subject] == topic
      ensures State() == if topic == null then old(State()) else JoinTopic(old(State()), subject)
    {
      hide TableRight;
      if subject in topicHandles {
        return topicHandles[subject];
      }
      if fails {
        return null;
      }
      assert forall s :: s in SubscriptionObjects() ==> allocated(s);
      var t := new Topic(subject);
      TableLater(edgeRouters, topicHandles, subscriptions, table, edgeRouters, topicHandles[subject := t]);
      topicHandles := topicHandles[subject := t];
      joins := joins + multiset{subject};
      topic := t;
    }

    /** A Subscribe of an edge router. `join` says what becomes of the calls to the overlay. */
    method HandleSubscribe(m: Message, e: Consumer, join: JoinResult, replyId: string,
                           written: bool) returns (out: Outcome)
      requires Valid() && Knows(e)
      modifies this`subscriptions, this`table, this`topicHandles, this`joins, this`listeners
      modifies SubscriptionObjects()`subscribers, e`interests
      ensures Valid()
      ensures
        if m.body.Protocol? && m.body.payload.Subscribe? then
          var subject := SubjectIn(m.body.payload.interest);
          var done := RouterSubscribe(old(State()), e.mrn, subject, join);
          && State() == done.0
          && out == Outcome(if done.1 then GoodReply(replyId, m.uuid, [], []) else ErrorReply(replyId, m.uuid), written)
          && e.interests == old(e.interests) + (if done.1 then [subject] else [])
        else
          out.NoOutcome? && State() == old(State()) && e.interests == old(e.interests)
    {
      hide SessionsRight, HandlesRight, TableRight, TopicsAgree, AllWellFormed, BoxesOf;
      if !m.body.Protocol? || !m.body.payload.Subscribe? {
        return NoOutcome;
      }
      var subject := SubjectIn(m.body.payload.interest);
      if subject == "" {
        return Outcome(ErrorReply(replyId, m.uuid), written);
      }
      var ok := Enroll(subject, e, join);
      if !ok {
        return Outcome(ErrorReply(replyId, m.uuid), written);
      }
      assert forall c :: c in Mailboxes() ==> allocated(c);
      e.interests := e.interests + [subject];
      out := Outcome(GoodReply(replyId, m.uuid, [], []), written);
    }

    method Enroll(subject: string, e: Consumer, join: JoinResult) returns (ok: bool)
      requires Valid() && Knows(e) && subject != ""
      modifies this`subscriptions, this`table, this`topicHandles, this`joins, this`listeners
      modifies SubscriptionObjects()`subscribers
      ensures Valid()
      ensures (State(), ok) == RouterSubscribe(old(State()), e.mrn, subject, join)
    {
      hide SessionsRight, HandlesRight, TableRight, EntryRight, TopicsAgree, AllWellFormed, BoxesOf, RouterSubscribe,
           AddSubscriber;
      assert forall c :: c in Mailboxes() ==> allocated(c);
      EntryOf(edgeRouters, topicHandles, subscriptions, table, subject);
      SubscribeKeepsTopics(State(), e.mrn, subject, join);
      SubscribesAgain(State(), e.mrn, subject, join);
      if subject !in subscriptions {
        ok := EnrollNew(subject, e, join);
      } else {
        EnrollMore(subject, subscriptions[subject], e);
        ok := true;
      }
    }

    method EnrollNew(subject: string, e: Consumer, join: JoinResult) returns (ok: bool)
      requires HandlesRight(topicHandles) && TableValid() && Knows(e) && subject != ""
      requires subject !in subscriptions && subject !in table
      modifies this`subscriptions, this`table, this`topicHandles, this`joins, this`listeners
      ensures HandlesRight(topicHandles) && TableValid()
      ensures (State(), ok) == RouterSubscribe(old(State()), e.mrn, subject, join)
    {
      hide HandlesRight, TableRight;
      var topic := Join(subject, join.JoinFailed?);
      if topic == null || join.SubscribeFailed? {
        return false;
      }
      EnrollFirst(subject, topic, e);
      ok := true;
    }

    method EnrollFirst(subject: string, topic: Topic, e: Consumer)
      requires subject != "" && TableValid() && Knows(e) && subject !in subscriptions
      requires subject in topicHandles && topicHandles[subject] == topic
      modifies this`subscriptions, this`table, this`listeners
      ensures TableValid() && table == AddSubscriber(old(table), subject, e.mrn)
      ensures listeners == old(listeners) + multiset{subject}
    {
      hide TableRight, EntryRight;
      EntryOf(edgeRouters, topicHandles, subscriptions, table, subject);
      assert forall s :: s in SubscriptionObjects() ==> allocated(s);
      var sub := NewEntry(subject, topic, e);
      listeners := listeners + multiset{subject};
      subscriptions := subscriptions[subject := sub];
      table := AddSubscriber(table, subject, e.mrn);
      TableFrom(edgeRouters, topicHandles, subscriptions, table);
    }

    method NewEntry(subject: string, topic: Topic, e: Consumer) returns (sub: Subscription)
      requires Knows(e) && subject in topicHandles && topicHandles[subject] == topic
      ensures fresh(sub) && EntryRight(edgeRouters, topicHandles, subject, sub, {} + {e.mrn})
    {
      sub := new Subscription(subject, topic);
      sub.AddSubscriber(e);
    }

    method EnrollMore(subject: string, sub: Subscription, e: Consumer)
      requires TableValid() && Knows(e) && subject in subscriptions && sub == subscriptions[subject]
      modifies sub`subscribers, this`table
      ensures TableValid() && table == AddSubscriber(old(table), subject, e.mrn)
    {
      hide EntryRight, TableRight;
      EntryOf(edgeRouters, topicHandles, subscriptions, table, subject);
      AddTo(subject, sub, table[subject], e);
      table := AddSubscriber(table, subject, e.mrn);
      TableFrom(edgeRouters, topicHandles, subscriptions, table);
    }

    method AddTo(subject: string, sub: Subscription, ghost members: set<string>, e: Consumer)
      requires EntryRight(edgeRouters, topicHandles, subject, sub, members) && Knows(e)
      modifies sub`subscribers
      ensures EntryRight(edgeRouters, topicHandles, subject, sub, members + {e.mrn})
    {
      sub.AddSubscriber(e);
    }

    method TakeFrom(subject: string, sub: Subscription, ghost members: set<string>, e: Consumer)
      requires EntryRight(edgeRouters, topicHandles, subject, sub, members)
      modifies sub`subscribers
      ensures EntryRight(edgeRouters, topicHandles, subject, sub, members - {e.mrn})
    {
      sub.DeleteSubscriber(e);
    }

    /** An Unsubscribe of an edge router: its table entry and its interest go, the topic and the listener stay. */
    method HandleUnsubscribe(m: Message, e: Consumer, fold: string -> string, replyId: string, written: bool)
      returns (out: Outcome)
      requires Valid() && Knows(e)
      modifies this`table, SubscriptionObjects()`subscribers, e`interests
      ensures Valid()
      ensures
        var withdraws := m.body.Protocol? && m.body.payload.Unsubscribe?;
        var subject := if withdraws then SubjectIn(m.body.payload.interest) else "";
        if subject != "" then
          && State() == old(State()).(table := DropSubscriber(old(table), subject, e.mrn))
          && e.interests == WithoutFirst(old(e.interests), subject, fold)
          && out == Outcome(GoodReply(replyId, m.uuid, [], []), written)
        else
          && State() == old(State()) && e.interests == old(e.interests)
          && out == Outcome(ErrorReply(replyId, m.uuid), written)
    {
      hide SessionsRight, HandlesRight, TableRight, TopicsAgree, AllWellFormed, BoxesOf, WithoutFirst;
      if !m.body.Protocol? || !m.body.payload.Unsubscribe? || SubjectIn(m.body.payload.interest) == "" {
        return Outcome(ErrorReply(replyId, m.uuid), written);
      }
      var subject := SubjectIn(m.body.payload.interest);
      Withdraw(subject, e);
      assert forall c :: c in Mailboxes() ==> allocated(c);
      assert forall s :: s in SubscriptionObjects() ==> allocated(s);
      e.DropInterest(subject, fold);
      out := Outcome(GoodReply(replyId, m.uuid, [], []), written);
    }

    method Withdraw(subject: string, e: Consumer)
      requires Valid() && Knows(e)
      modifies this`table, SubscriptionObjects()`subscribers
      ensures Valid() && table == DropSubscriber(old(table), subject, e.mrn)
    {
      hide SessionsRight, HandlesRight, EntryRight, TableRight, TopicsAgree, AllWellFormed, BoxesOf;
      assert forall c :: c in Mailboxes() ==> allocated(c);
      EntryOf(edgeRouters, topicHandles, subscriptions, table, subject);
      DropKeepsTopics(State(), subject, e.mrn);
      if subject in subscriptions {
        TakeFrom(subject, subscriptions[subject], table[subject], e);
        table := DropSubscriber(table, subject, e.mrn);
        TableFrom(edgeRouters, topicHandles, subscriptions, table);
      }
    }

    // ---- sending ----

    method QueueFor(e: Consumer, m: Message) returns (result: QueueResult)
      requires SessionsRight(edgeRouters) && Knows(e)
      modifies e`messages, e`notifications
      ensures Boxes() == FanOut(old(Boxes()), {e.mrn}, m)
      ensures result == if m.uuid == "" then MissingUuid else Queued
    {
      result := Consumer.QueueMessage(e, m);
    }

    /** The loop over the subscribers of one subject, without one MRN; it ends at the first that cannot be queued for,
        which is so for a message without a UUID. */
    method QueueForSubscribers(subject: string, except: string, m: Message) returns (ok: bool)
      requires SessionsRight(edgeRouters) && TableValid() && subject in subscriptions
      modifies Mailboxes()`messages, Mailboxes()`notifications
      ensures subject in table && Boxes() == FanOut(old(Boxes()), table[subject] - {except}, m)
      ensures ok <==> m.uuid != "" || table[subject] - {except} == {}
    {
      hide FanOut, BoxesOf, TableRight, SessionsRight;
      EntryOf(edgeRouters, topicHandles, subscriptions, table, subject);
      assert forall s :: s in SubscriptionObjects() ==> allocated(s);
      var sub := subscriptions[subject];
      assert forall u :: u in sub.subscribers ==> u in edgeRouters && sub.subscribers[u] == edgeRouters[u];
      ok := true;
      ghost var done: set<string> := {};
      var todo := sub.subscribers.Keys;
      FanOutNobody(Boxes(), m);
      assert done - {except} == {};
      while todo != {} && ok
        invariant todo + done == table[subject] && todo !! done
        invariant Boxes() == FanOut(old(Boxes()), done - {except}, m)
        invariant ok <==> m.uuid != "" || done - {except} == {}
        decreases todo
      {
        var u :| u in todo;
        todo, done := todo - {u}, done + {u};
        if u != except {
          SessionOf(u);
          FanOutOneMore(old(Boxes()), done - {u} - {except}, u, m);
          assert done - {except} == (done - {u} - {except}) + {u};
          var result := QueueFor(sub.subscribers[u], m);
          ok := result.Queued?;
        } else {
          assert done - {except} == done - {u} - {except};
        }
      }
      FanOutMissing(old(Boxes()), done - {except}, table[subject] - {except}, m);
    }

    lemma SessionOf(e: string)
      requires SessionsRight(edgeRouters) && e in edgeRouters
      ensures Knows(edgeRouters[e]) && edgeRouters[e].mrn == e && edgeRouters[e] in Mailboxes()
    {
    }

    /** A Send of an edge router: published later, and queued at once for the other edge routers it addresses. A message
        without a UUID that addresses any of them is never answered. */
    method HandleSend(m: Message, e: Consumer, replyId: string, written: bool) returns (out: Outcome)
      requires Valid() && Knows(e)
      modifies this`outgoing, Mailboxes()`messages, Mailboxes()`notifications
      ensures Valid()
      ensures
        if m.body.Protocol? && m.body.payload.Send? then
          var targets := Addressed(table, AddressIn(m)) - {e.mrn};
          && State() == old(State()).(out := old(outgoing) + [m])
          && Boxes() == FanOut(old(Boxes()), targets, m)
          && out == if m.uuid == "" && targets != {} then NoOutcome
                    else Outcome(GoodReply(replyId, m.uuid, [], []), written)
        else
          out.NoOutcome? && State() == old(State()) && Boxes() == old(Boxes())
    {
      hide FanOut, SessionsRight, HandlesRight, TableRight, TopicsAgree, AllWellFormed, BoxesOf, Addressed;
      if !m.body.Protocol? || !m.body.payload.Send? {
        return NoOutcome;
      }
      outgoing := outgoing + [m];
      TopicsKept(old(State()), State());
      assert forall s :: s in SubscriptionObjects() ==> allocated(s);
      NoHeaderNoTargets(table, m);
      FanOutWellFormed(Boxes(), Addressed(table, AddressIn(m)) - {e.mrn}, m);
      var ok := QueueSent(m, e.mrn);
      if !ok {
        return NoOutcome;
      }
      out := Outcome(GoodReply(replyId, m.uuid, [], []), written);
    }

    method QueueSent(m: Message, except: string) returns (ok: bool)
      requires SessionsRight(edgeRouters) && TableValid()
      modifies Mailboxes()`messages, Mailboxes()`notifications
      ensures Boxes() == FanOut(old(Boxes()), Addressed(table, AddressIn(m)) - {except}, m)
      ensures ok <==> m.uuid != "" || Addressed(table, AddressIn(m)) - {except} == {}
    {
      hide FanOut, SessionsRight, TableRight, BoxesOf;
      EntryOf(edgeRouters, topicHandles, subscriptions, table, "");
      FanOutNobody(Boxes(), m);
      assert Addressed(table, NoAddress) - {except} == {};
      assert forall s :: s !in table ==> Addressed(table, Subject(s)) - {except} == {};
      ok := true;
      match AddressIn(m) {
        case Recipients(recipients) =>
          ok := QueueForRecipients(recipients, except, m);
        case Subject(subject) =>
          if subject != "" && subject in subscriptions {
            ok := QueueForSubscribers(subject, except, m);
          }
        case NoAddress =>
      }
    }

    /** The loop over a recipient list, whatever its order and repetitions. */
    method QueueForRecipients(recipients: seq<string>, except: string, m: Message) returns (ok: bool)
      requires SessionsRight(edgeRouters) && TableValid()
      modifies Mailboxes()`messages, Mailboxes()`notifications
      ensures Boxes() == FanOut(old(Boxes()), Addressed(table, Recipients(recipients)) - {except}, m)
      ensures ok <==> m.uuid != "" || Addressed(table, Recipients(recipients)) - {except} == {}
    {
      hide FanOut, SessionsRight, TableRight, BoxesOf, Addressed;
      EntryOf(edgeRouters, topicHandles, subscriptions, table, "");
      FanOutNobody(Boxes(), m);
      AddressedNobody(table);
      assert Addressed(table, Recipients(recipients[..0])) - {except} == {};
      ok := true;
      for k := 0 to |recipients|
        invariant Boxes() == FanOut(old(Boxes()), Addressed(table, Recipients(recipients[..k])) - {except}, m)
        invariant ok && (m.uuid != "" || Addressed(table, Recipients(recipients[..k])) - {except} == {})
      {
        var r := recipients[k];
        AddressedSnoc(table, recipients[..k], r);
        assert recipients[..k + 1] == recipients[..k] + [r];
        ghost var before := Addressed(table, Recipients(recipients[..k])) - {except};
        if r in subscriptions {
          FanOutTwice(old(Boxes()), before, table[r] - {except}, m);
          assert Addressed(table, Recipients(recipients[..k + 1])) - {except} == before + (table[r] - {except});
          ok := QueueForSubscribers(r, except, m);
          if !ok {
            AddressedMore(table, recipients, k + 1);
            FanOutMissing(old(Boxes()), Addressed(table, Recipients(recipients[..k + 1])) - {except},
                          Addressed(table, Recipients(recipients)) - {except}, m);
            return;
          }
        } else {
          assert Addressed(table, Recipients(recipients[..k + 1])) - {except} == before;
        }
      }
      assert recipients[..|recipients|] == recipients;
    }

    // ---- the overlay ----

    /** A listener takes a publication: it keeps the Sends of other routers with a version 4 UUID. */
    method Listen(p: Publication, self: Router, v4: bool)
      requires Valid()
      modifies this`incoming
      ensures Valid()
      ensures
        var send := p.m.msgType.ProtocolMessage? && p.m.body.Protocol? && p.m.body.payload.Send?;
        var kept := p.from != self && v4 && send;
        State() == old(State()).(inbox := old(incoming) + (if kept then [p.m] else []))
    {
      hide SessionsRight, HandlesRight, TableRight, TopicsAgree, AllWellFormed, BoxesOf;
      if p.from != self && v4 && p.m.msgType.ProtocolMessage? && p.m.body.Protocol? && p.m.body.payload.Send? {
        incoming := incoming + [p.m];
      }
      TopicsKept(old(State()), State());
    }

    /** The dispatcher takes the first message of the incoming channel, and queues it for the subscribers it addresses
        when it is within the expiry window. It looks the entry of a subject, or of each recipient, up without asking
        whether there is one: `ok` says whether there was. */
    method HandleIncoming(now: int) returns (ok: bool)
      requires Valid() && incoming != []
      modifies this`incoming, Mailboxes()`messages, Mailboxes()`notifications
      ensures Valid() && State() == old(State()).(inbox := old(incoming)[1..])
      ensures
        var m := old(incoming)[0];
        var due := m.msgType.ProtocolMessage? && AppOf(m).Some? && InWindow(AppOf(m).value, now);
        && Boxes() == FanOut(old(Boxes()), if due then Reached(table, AddressIn(m)) else {}, m)
        && (ok <==> due ==> AllListed(table, AddressIn(m)))
    {
      hide FanOut, SessionsRight, HandlesRight, TableRight, TopicsAgree, AllWellFormed, BoxesOf, Reached, AllListed;
      var m := incoming[0];
      incoming := incoming[1..];
      TopicsKept(old(State()), State());
      FanOutNobody(Boxes(), m);
      ok := true;
      if m.msgType.ProtocolMessage? && AppOf(m).Some? && now <= AppExpires(AppOf(m).value) <= now + EXPIRATION_LIMIT {
        NoHeaderNoneReached(table, m);
        FanOutWellFormed(Boxes(), Reached(table, AddressIn(m)), m);
        assert forall s :: s in SubscriptionObjects() ==> allocated(s);
        ok := QueueIncoming(m);
      }
    }

    method QueueIncoming(m: Message) returns (ok: bool)
      requires SessionsRight(edgeRouters) && TableValid()
      modifies Mailboxes()`messages, Mailboxes()`notifications
      ensures Boxes() == FanOut(old(Boxes()), Reached(table, AddressIn(m)), m)
      ensures ok <==> AllListed(table, AddressIn(m))
    {
      hide FanOut, SessionsRight, TableRight, BoxesOf;
      EntryOf(edgeRouters, topicHandles, subscriptions, table, "");
      FanOutNobody(Boxes(), m);
      match AddressIn(m) {
        case NoAddress => ok := true;
        case Subject(subject) =>
          if subject !in subscriptions {
            return false;
          }
          QueueForEvery(subject, m);
          ok := true;
        case Recipients(recipients) =>
          ok := QueueForListed(recipients, m);
      }
    }

    /** Queues for all subscribers: no session has the empty MRN. */
    method QueueForEvery(subject: string, m: Message)
      requires SessionsRight(edgeRouters) && TableValid() && subject in subscriptions
      modifies Mailboxes()`messages, Mailboxes()`notifications
      ensures subject in table && Boxes() == FanOut(old(Boxes()), table[subject], m)
    {
      hide FanOut, SessionsRight, TableRight, BoxesOf;
      EntryOf(edgeRouters, topicHandles, subscriptions, table, subject);
      NoAnonymous(edgeRouters, topicHandles, subscriptions, table);
      var queued := QueueForSubscribers(subject, "", m);
      assert table[subject] - {""} == table[subject];
    }

    /** The loop over a recipient list, up to the first that has no entry. */
    method QueueForListed(recipients: seq<string>, m: Message) returns (ok: bool)
      requires SessionsRight(edgeRouters) && TableValid()
      modifies Mailboxes()`messages, Mailboxes()`notifications
      ensures
        var listed := recipients[..KnownPrefix(table, recipients)];
        Boxes() == FanOut(old(Boxes()), Addressed(table, Recipients(listed)), m)
      ensures ok <==> KnownPrefix(table, recipients) == |recipients|
    {
      hide FanOut, SessionsRight, TableRight, BoxesOf, Addressed;
      EntryOf(edgeRouters, topicHandles, subscriptions, table, "");
      FanOutNobody(Boxes(), m);
      AddressedNobody(table);
      assert recipients[..0] == [];
      for k := 0 to |recipients|
        invariant forall i :: 0 <= i < k ==> recipients[i] in table
        invariant Boxes() == FanOut(old(Boxes()), Addressed(table, Recipients(recipients[..k])), m)
      {
        var r := recipients[k];
        if r !in subscriptions {
          KnownPrefixIs(table, recipients, k);
          return false;
        }
        AddressedSnoc(table, recipients[..k], r);
        assert recipients[..k + 1] == recipients[..k] + [r];
        FanOutTwice(old(Boxes()), Addressed(table, Recipients(recipients[..k])), table[r], m);
        QueueForEvery(r, m);
      }
      KnownPrefixIs(table, recipients, |recipients|);
      ok := true;
    }

    /** The publisher takes the first message of the outgoing channel and publishes it on the topic of its subject, or
        of each of its recipients. `results` says what becomes of each publication. */
    method HandleOutgoing(results: seq<PublishResult>)
      requires Valid() && outgoing != [] && |results| == |TopicsFor(outgoing[0])|
      modifies this`outgoing, this`topicHandles, this`joins, this`published
      ensures Valid()
      ensures
        var m, st := old(outgoing)[0], old(State()).(out := old(outgoing)[1..]);
        var (st', sent) := PublishEach(st, TopicsFor(m), m, results);
        State() == st' && published == old(published) + sent
      ensures
        var m := old(outgoing)[0];
        m.msgType.ProtocolMessage? && AddressIn(m).Recipients? ==>
          var rs := AddressIn(m).recipients;
          && |results| == |rs|
          && (forall i :: 0 <= i < |rs| && !results[i].PublishJoinFailed? ==> rs[i] in topicHandles)
          && ((forall i :: 0 <= i < |rs| ==> results[i].Published?) ==>
                published == old(published) + PostAll(rs, m))
      ensures
        var m := old(outgoing)[0];
        m.msgType.ProtocolMessage? && AddressIn(m).Subject? && results == [Published] ==>
          AddressIn(m).subject in topicHandles && published == old(published) + [Posting(AddressIn(m).subject, m)]
      ensures
        var m := old(outgoing)[0];
        !m.msgType.ProtocolMessage? || AddressIn(m).NoAddress? ==>
          published == old(published) && topicHandles.Keys == old(topicHandles.Keys)
    {
      hide SessionsRight, HandlesRight, TableRight, TopicsAgree, AllWellFormed, BoxesOf, PublishEach, PublishOn,
           TopicsFor;
      assert forall s :: s in SubscriptionObjects() ==> allocated(s);
      assert forall c :: c in Mailboxes() ==> allocated(c);
      var m := outgoing[0];
      var topics := TopicsFor(m);
      outgoing := outgoing[1..];
      ghost var st := State();
      TopicsKept(old(State()), st);
      PublishKeepsTopics(st, topics, m, results);
      PublishNothing(st, topics, m, results);
      for k := 0 to |topics|
        invariant HandlesRight(topicHandles) && TableValid()
        invariant State() == PublishEach(st, topics[..k], m, results[..k]).0
        invariant published == old(published) + PublishEach(st, topics[..k], m, results[..k]).1
      {
        PublishEachSnoc(st, topics, m, results, k);
        PublishOne(topics[k], m, results[k]);
      }
      assert topics[..|topics|] == topics && results[..|topics|] == results;
      PublicationsOf(m, st, results);
    }

    method PublishOne(subject: string, m: Message, result: PublishResult)
      requires HandlesRight(topicHandles) && TableValid()
      modifies this`topicHandles, this`joins, this`published
      ensures HandlesRight(topicHandles) && TableValid()
      ensures
        var (st, went) := PublishOn(old(State()), subject, result);
        State() == st && published == old(published) + (if went then [Posting(subject, m)] else [])
    {
      hide HandlesRight, TableRight;
      var topic := Join(subject, result.PublishJoinFailed?);
      if topic != null && !result.PublishFailed? {
        published := published + [Posting(subject, m)];
      }
    }

    /** A round of garbage collection over the mailboxes of all edge routers. */
    method MessageGC(now: int)
      requires Valid()
      modifies Mailboxes()`messages
      ensures Valid() && Boxes() == ExpireFor(old(Boxes()), edgeRouters.Keys, now)
      ensures forall e :: e in edgeRouters ==>
        var c := edgeRouters[e];
        c.notifications == old(c.notifications) && Collected(old(c.messages), c.messages, now)
    {
      hide HandlesRight, TableRight, TopicsAgree, AllWellFormed, BoxesOf, ExpireFor, SessionsRight;
      assert forall s :: s in SubscriptionObjects() ==> allocated(s);
      ghost var done: set<string> := {};
      var todo := edgeRouters.Keys;
      ExpireNobody(Boxes(), now);
      while todo != {}
        invariant todo <= edgeRouters.Keys && done == edgeRouters.Keys - todo
        invariant Valid()
        invariant Boxes() == ExpireFor(old(Boxes()), done, now)
        decreases todo
      {
        var e :| e in todo;
        SessionOf(e);
        ExpireOneMore(old(Boxes()), done, e, now);
        CollectFor(edgeRouters[e], now);
        todo, done := todo - {e}, done + {e};
      }
      assert done == edgeRouters.Keys;
      EveryOneCollected(now);
    }

    twostate lemma EveryOneCollected(now: int)
      requires edgeRouters == old(edgeRouters)
      requires Boxes() == ExpireFor(old(Boxes()), edgeRouters.Keys, now)
      ensures forall e :: e in edgeRouters ==>
        var c := edgeRouters[e];
        c.notifications == old(c.notifications) && Collected(old(c.messages), c.messages, now)
    {
      hide Collected;
      forall e | e in edgeRouters
        ensures
          var c := edgeRouters[e];
          c.notifications == old(c.notifications) && Collected(old(c.messages), c.messages, now)
      {
        assert Boxes()[e] == edgeRouters[e].View() && old(Boxes())[e] == old(edgeRouters[e].View());
        CollectedFrom(old(Boxes()), edgeRouters.Keys, now, e);
      }
    }

    method CollectFor(e: Consumer, now: int)
      requires Valid() && Knows(e)
      modifies e`messages
      ensures Valid() && Boxes() == ExpireFor(old(Boxes()), {e.mrn}, now)
    {
      hide SessionsRight, HandlesRight, TableRight, TopicsAgree, AllWellFormed, BoxesOf, ExpireFor;
      assert forall s :: s in SubscriptionObjects() ==> allocated(s);
      ExpiredWellFormed(Boxes(), {e.mrn}, now);
      CollectOne(e, now);
    }

    method CollectOne(e: Consumer, now: int)
      requires SessionsRight(edgeRouters) && AllWellFormed(Boxes()) && Knows(e)
      modifies e`messages
      ensures Boxes() == ExpireFor(old(Boxes()), {e.mrn}, now)
    {
      hide WellFormed, Expire;
      assert Boxes()[e.mrn] == e.View();
      e.CollectGarbage(now);
    }
  }

  /** What the contracts speak of is what the object holds. */
  lemma AbstractionIs(r: MMSRouter, e: string, s: string)
    requires r.Valid()
    ensures r.Boxes().Keys == r.edgeRouters.Keys
    ensures e in r.edgeRouters ==>
      && r.Boxes()[e].messages == r.edgeRouters[e].messages
      && r.Boxes()[e].notifications == r.edgeRouters[e].notifications && r.edgeRouters[e].mrn == e
    ensures e in Subscribers(r.table, s) <==> s in r.subscriptions && e in r.subscriptions[s].subscribers
    ensures s in r.subscriptions && e in r.subscriptions[s].subscribers ==>
      e in r.edgeRouters && r.subscriptions[s].subscribers[e] == r.edgeRouters[e]
    ensures s in r.State().topics <==> s in r.topicHandles
    ensures s in r.subscriptions ==> s in r.topicHandles && r.subscriptions[s].topic == r.topicHandles[s]
    ensures r.State().table == r.table && r.State().out == r.outgoing && r.State().inbox == r.incoming
  {
    hide TopicsAgree, AllWellFormed;
    if s in r.subscriptions { assert EntryRight(r.edgeRouters, r.topicHandles, s, r.subscriptions[s], r.table[s]); }
  }

  /** Every message in a mailbox of a router is a Send with a header, under its own non-empty UUID. */
  lemma StoredWellFormed(r: MMSRouter, e: string, key: string)
    requires r.Valid() && e in r.edgeRouters
    ensures key in r.edgeRouters[e].messages ==> Storable(key, r.edgeRouters[e].messages[key])
    ensures key in r.edgeRouters[e].notifications ==> Storable(key, r.edgeRouters[e].notifications[key])
  {
    hide SessionsRight, HandlesRight, TableRight, TopicsAgree;
    assert r.Boxes()[e] == r.edgeRouters[e].View();
  }

  /** A recipient-cast that lists an MRN nobody has subscribed for beside one that has an entry. */
  function HalfKnown(): Message {
    SendMessage("u", AppMessage(Some(Header(Recipients(["r1", "r2"]), 0, "mrn")), SendId("e", 0)))
  }

  lemma HalfReached(st: RouterState)
    requires st == RouterState(map[], {}, multiset{}, [], [], [], multiset{})
    ensures
      var (n, ok) := RouterSubscribe(st, "er", "r1", JoinWorks);
      && ok && Reached(n.table, AddressIn(HalfKnown())) == {"er"} && !AllListed(n.table, AddressIn(HalfKnown()))
  {
    var table := RouterSubscribe(st, "er", "r1", JoinWorks).0.table;
    KnownPrefixIs(table, ["r1", "r2"], 1);
    assert ["r1", "r2"][..1] == ["r1"];
    assert "r2" in ["r1", "r2"];
    assert "er" in Subscribers(table, "r1") && "r1" in ["r1"];
  }

  lemma HalfQueued(boxes: map<string, Box>)
    requires boxes == map["er" := Box(map[], map[])]
    ensures FanOut(boxes, {"er"}, HalfKnown())["er"].messages == map["u" := HalfKnown()]
  {
  }

  method NewRouter() returns (r: MMSRouter, e: Consumer)
    ensures fresh(r) && fresh(e) && e.mrn == "er" && r.Valid() && r.edgeRouters == map["er" := e]
    ensures r.subscriptions == map[] && r.Boxes() == map["er" := Box(map[], map[])]
    ensures r.State() == RouterState(map[], {}, multiset{}, [], [], [], multiset{})
  {
    hide SessionsRight, HandlesRight, TableRight, TopicsAgree, AllWellFormed, BoxesOf;
    r := new MMSRouter();
    e := r.Connect("er", "token");
  }

  method HalfSubscribed() returns (r: MMSRouter, e: Consumer)
    ensures fresh(r) && fresh(e) && r.Valid() && r.edgeRouters == map["er" := e]
    ensures r.Boxes() == map["er" := Box(map[], map[])]
    ensures r.incoming == [] && Reached(r.table, AddressIn(HalfKnown())) == {"er"}
    ensures !AllListed(r.table, AddressIn(HalfKnown()))
  {
    hide SessionsRight, HandlesRight, TableRight, TopicsAgree, AllWellFormed, BoxesOf, RouterSubscribe, Reached,
         AllListed, HalfKnown;
    r, e := NewRouter();
    HalfReached(r.State());
    var out := r.HandleSubscribe(SubjectRequest("s", "r1"), e, JoinWorks, "x", true);
  }

  lemma HalfIsDue()
    ensures
      var m := HalfKnown();
      && m.msgType.ProtocolMessage? && m.body.Protocol? && m.body.payload.Send?
      && AppOf(m).Some? && InWindow(AppOf(m).value, 0)
  {
  }

  method HalfHeard() returns (r: MMSRouter, e: Consumer)
    ensures fresh(r) && fresh(e) && r.Valid() && r.edgeRouters == map["er" := e]
    ensures r.Boxes() == map["er" := Box(map[], map[])]
    ensures r.incoming == [HalfKnown()]
    ensures Reached(r.table, AddressIn(HalfKnown())) == {"er"} && !AllListed(r.table, AddressIn(HalfKnown()))
  {
    hide SessionsRight, HandlesRight, TableRight, TopicsAgree, AllWellFormed, BoxesOf, Reached, AllListed, HalfKnown;
    r, e := HalfSubscribed();
    HalfIsDue();
    r.Listen(Publication(1, HalfKnown()), 0, true);
  }

  /** The dispatcher of a router at which one edge router subscribed for "r1" meets such a message: the lookup of "r2"
      finds no entry. The subscribers of "r1" have the message by then. */
  method MissingEntry() returns (ok: bool, e: Consumer)
    ensures !ok && e.messages == map["u" := HalfKnown()]
  {
    hide SessionsRight, HandlesRight, TableRight, TopicsAgree, AllWellFormed, FanOut, Queue, Reached, AllListed,
         HalfKnown;
    var r: MMSRouter;
    r, e := HalfHeard();
    HalfIsDue();
    HalfQueued(r.Boxes());
    ok := r.HandleIncoming(0);
    assert r.Boxes()["er"] == e.View();
  }
}
