/** What the handlers do to mailboxes, tables and channels, said of their contents: which keys they hold afterwards, and
    what is stored under them. The functions that the handlers are proved against are on the left of these statements
    only. */
module Effects {
  import opened Mmtp
  import opened MailboxSpec
  import opened Routing
  import opened Consumers
  import opened Outboxes
  import opened GarbageCollection
  import E = EdgeRouters
  import R = Routers

  // ---- mailboxes and messages ----

  /** `m` is a Send of an application message with the header `h`. */
  ghost predicate Carries(m: Message, h: Header) {
    && m.msgType.ProtocolMessage? && m.body.Protocol? && m.body.payload.Send?
    && m.body.payload.app.Some? && m.body.payload.app.value.header == Some(h)
  }

  /** What the nil-tolerant getters read of a Send. */
  lemma GettersRead(m: Message, h: Header)
    requires Carries(m, h)
    ensures AppOf(m) == m.body.payload.app && HeaderOf(m) == Some(h) && ExpiresOf(m) == h.expires
    ensures AddressIn(m) == h.address && AddressOf(m.body.payload.app.value) == h.address
    ensures AppExpires(m.body.payload.app.value) == h.expires
  {
  }

  /** Nothing changes under `key`. */
  ghost predicate Kept(b: Box, c: Box, key: string) {
    && (key in c.messages <==> key in b.messages) && (key in c.messages ==> c.messages[key] == b.messages[key])
    && (key in c.notifications <==> key in b.notifications)
    && (key in c.notifications ==> c.notifications[key] == b.notifications[key])
  }

  /** `m` is stored and due under `key`. */
  ghost predicate Holds(c: Box, key: string, m: Message) {
    && key in c.messages && c.messages[key] == m
    && key in c.notifications && c.notifications[key] == m
  }

  ghost predicate HasNone(c: Box, key: string) {
    key !in c.messages && key !in c.notifications
  }

  /** `m` is put under its UUID, if it has one, and all else stays. */
  ghost predicate Gains(b: Box, c: Box, m: Message) {
    && (m.uuid != "" ==> Holds(c, m.uuid, m))
    && (forall key :: key != m.uuid || m.uuid == "" ==> Kept(b, c, key))
  }

  // ---- what an edge router queues ----

  /** The consumer `u` subscribes to the subject, or holds a listed MRN and takes direct messages. */
  ghost predicate IsFor<A>(table: Table<A>, index: map<string, A>, direct: set<A>, address: Address, u: A) {
    match address
    case NoAddress => false
    case Subject(s) => s in table && u in table[s]
    case Recipients(rs) => u in direct && exists r :: r in rs && r in index && index[r] == u
  }

  /** The entry is within the expiry window, which reaches 30 days ahead, and is for the consumer `u`. */
  ghost predicate IsDue<A>(table: Table<A>, index: map<string, A>, direct: set<A>, c: Content, now: int, u: A) {
    && c.app.Some? && c.app.value.header.Some?
    && now <= c.app.value.header.value.expires <= now + 2592000
    && IsFor(table, index, direct, c.app.value.header.value.address, u)
  }

  lemma FanOutAt<A>(boxes: map<A, Box>, targets: set<A>, m: Message, u: A)
    requires u in boxes
    ensures if u in targets then Gains(boxes[u], FanOut(boxes, targets, m)[u], m)
            else FanOut(boxes, targets, m)[u] == boxes[u]
  {
  }

  lemma TargetsAre<A>(table: Table<A>, index: map<string, A>, direct: set<A>, address: Address, u: A)
    ensures u in LocalTargets(table, index, direct, address) <==> IsFor(table, index, direct, address, u)
  {
  }

  lemma OneDelivered<A>(boxes: map<A, Box>, table: Table<A>, index: map<string, A>, direct: set<A>, c: Content,
                        id: string, now: int, u: A)
    requires u in boxes
    ensures
      var d := DeliverOne(boxes, table, index, direct, c, id, now);
      if IsDue(table, index, direct, c, now, u) then
        Gains(boxes[u], d[u], Message(ProtocolMessage, id, Protocol(SendType, Send(c.app))))
      else d[u] == boxes[u]
  {
    if c.app.Some? {
      var address := AddressOf(c.app.value);
      TargetsAre(table, index, direct, address, u);
      FanOutAt(boxes, LocalTargets(table, index, direct, address), SendMessage(id, c.app.value), u);
      hide FanOut, LocalTargets, Gains;
    }
  }

  /** What is in a mailbox after the entries of a response were handled: each entry that is due for the consumer, under
      its own new UUID, as a message and as a notification, and nothing else that was not there before. */
  lemma {:induction false} DeliveredExactly<A>(boxes: map<A, Box>, table: Table<A>, index: map<string, A>,
                                               direct: set<A>, contents: seq<Content>, newIds: seq<string>, now: int,
                                               u: A)
    requires u in boxes && |newIds| == |contents| && Distinct(newIds) && "" !in newIds
    requires forall id :: id in newIds ==> HasNone(boxes[u], id)
    ensures
      var b, c := boxes[u], Deliver(boxes, table, index, direct, contents, newIds, now)[u];
      && (forall k :: 0 <= k < |contents| ==>
           if IsDue(table, index, direct, contents[k], now, u) then
             Holds(c, newIds[k], Message(ProtocolMessage, newIds[k], Protocol(SendType, Send(contents[k].app))))
           else HasNone(c, newIds[k]))
      && (forall key :: key !in newIds ==> Kept(b, c, key))
  {
    if contents != [] {
      var n := |contents| - 1;
      hide IsDue, DeliverOne;
      assert newIds == newIds[..n] + [newIds[n]];
      forall id | id in newIds[..n] ensures id in newIds && id != newIds[n] {}
      DeliveredExactly(boxes, table, index, direct, contents[..n], newIds[..n], now, u);
      var before := Deliver(boxes, table, index, direct, contents[..n], newIds[..n], now);
      OneDelivered(before, table, index, direct, contents[n], newIds[n], now, u);
      OneMore(boxes[u], before[u], DeliverOne(before, table, index, direct, contents[n], newIds[n], now)[u],
              contents, newIds, now, u, table, index, direct);
    }
  }

  lemma OneMore<A>(b: Box, before: Box, c: Box, contents: seq<Content>, newIds: seq<string>, now: int, u: A,
                   table: Table<A>, index: map<string, A>, direct: set<A>)
    requires |newIds| == |contents| > 0 && Distinct(newIds) && "" !in newIds
    requires forall id :: id in newIds ==> HasNone(b, id)
    requires
      var n := |contents| - 1;
      && (forall k :: 0 <= k < n ==>
           if IsDue(table, index, direct, contents[..n][k], now, u) then
             Holds(before, newIds[..n][k],
                   Message(ProtocolMessage, newIds[..n][k], Protocol(SendType, Send(contents[..n][k].app))))
           else HasNone(before, newIds[..n][k]))
      && (forall key :: key !in newIds[..n] ==> Kept(b, before, key))
      && if IsDue(table, index, direct, contents[n], now, u) then
           Gains(before, c, Message(ProtocolMessage, newIds[n], Protocol(SendType, Send(contents[n].app))))
         else c == before
    ensures forall k :: 0 <= k < |contents| ==>
      if IsDue(table, index, direct, contents[k], now, u) then
        Holds(c, newIds[k], Message(ProtocolMessage, newIds[k], Protocol(SendType, Send(contents[k].app))))
      else HasNone(c, newIds[k])
    ensures forall key :: key !in newIds ==> Kept(b, c, key)
  {
    hide IsDue;
    var n := |contents| - 1;
    assert newIds == newIds[..n] + [newIds[n]];
    forall key | key != newIds[n] ensures Kept(before, c, key) {}
    forall k | 0 <= k < n
      ensures if IsDue(table, index, direct, contents[k], now, u) then
                Holds(c, newIds[k], Message(ProtocolMessage, newIds[k], Protocol(SendType, Send(contents[k].app))))
              else HasNone(c, newIds[k])
    {
      assert contents[..n][k] == contents[k] && newIds[..n][k] == newIds[k] && newIds[k] != newIds[n];
      assert Kept(before, c, newIds[k]);
    }
    assert newIds[n] in newIds && newIds[n] !in newIds[..n];
    assert Kept(b, before, newIds[n]) && HasNone(b, newIds[n]);
    forall key | key !in newIds ensures Kept(b, c, key) {
      assert key !in newIds[..n] && key != newIds[n];
      assert Kept(b, before, key) && Kept(before, c, key);
    }
  }

  /** Every entry that is live and lists the MRN is stored and due. */
  ghost predicate HearsAll(b: Box, mrn: string, contents: seq<Content>, newIds: seq<string>, now: int)
    requires |newIds| == |contents|
  {
    forall k :: 0 <= k < |contents| && ListsMrn(contents[k], mrn, now) ==>
      Holds(b, newIds[k], Message(ProtocolMessage, newIds[k], Protocol(SendType, Send(contents[k].app))))
  }

  ghost predicate ListsMrn(c: Content, mrn: string, now: int) {
    && c.app.Some? && c.app.value.header.Some?
    && now <= c.app.value.header.value.expires <= now + 2592000
    && c.app.value.header.value.address.Recipients? && mrn in c.app.value.header.value.address.recipients
  }

  lemma DirectReceiverHears(boxes: map<string, Box>, table: Table<string>, index: map<string, string>,
                            direct: set<string>, contents: seq<Content>, newIds: seq<string>, now: int, mrn: string,
                            u: string)
    requires u in boxes && |newIds| == |contents| && Distinct(newIds) && "" !in newIds
    requires mrn in index && index[mrn] == u && u in direct
    requires forall id :: id in newIds ==> HasNone(boxes[u], id)
    ensures HearsAll(Deliver(boxes, table, index, direct, contents, newIds, now)[u], mrn, contents, newIds, now)
  {
    DeliveredExactly(boxes, table, index, direct, contents, newIds, now, u);
    hide Deliver, Holds;
    forall k | 0 <= k < |contents| && ListsMrn(contents[k], mrn, now)
      ensures IsDue(table, index, direct, contents[k], now, u)
    {
    }
  }

  /** The index finds the agent under its MRN, and it takes direct messages. */
  ghost predicate TakesDirect(er: E.EdgeRouter, agent: E.Agent, mrn: string)
    reads er`known, er`mrnToAgent, agent`directMessages
  {
    er.Knows(agent) && mrn in er.mrnToAgent && er.mrnToAgent[mrn] == agent && agent.directMessages
  }

  lemma DirectIs(er: E.EdgeRouter, agent: E.Agent, mrn: string)
    requires er.Knows(agent) && mrn in er.mrnToAgent && er.mrnToAgent[mrn] == agent
    ensures mrn in er.Index() && er.Index()[mrn] == agent.agentUuid
    ensures TakesDirect(er, agent, mrn) <==> agent.agentUuid in er.Direct()
  {
  }

  /** An agent with an MRN that connects and then subscribes to direct messages is found under its MRN, also when
      another session had it before. */
  method BecomesDirectReceiver(er: E.EdgeRouter, ownMrn: string, token: string, lower: string -> string,
                               newUuid: string, newToken: string, request: Message, newId: string, replyId: string,
                               written: bool) returns (agent: E.Agent)
    requires er.Valid() && newUuid !in er.known && token !in er.agents && lower(ownMrn) != ""
    requires request.msgType.ProtocolMessage? && request.body.Protocol?
    requires request.body.payload == Subscribe(OnDirectMessages(true))
    modifies er, er.Mailboxes()`reconnectToken, er.SubscriptionObjects()`subscribers
    ensures er.Valid() && fresh(agent) && agent.consumer.mrn == lower(ownMrn) && TakesDirect(er, agent, lower(ownMrn))
    ensures agent.consumer.View() == Box(map[], map[])
  {
    hide E.AgentsRight, E.SessionsRight, E.TableRight, E.DirectRight, E.AllAdmitted, E.BoxesOf, E.MrnsOf, E.DirectOf,
         ChannelRight, E.InterestsRight, E.ListsOf, Pushed;
    var result := er.Connect(ownMrn, token, true, lower, newUuid, newToken);
    agent := result.agent;
    er.InBoxes(agent);
    var out := er.HandleSubscribe(request, agent, true, newId, replyId, written);
    DirectIs(er, agent, lower(ownMrn));
  }

  method GetsResponse(er: E.EdgeRouter, m: Message, newIds: seq<string>, newId: string, now: int)
    requires er.Valid() && m.body.Reply? && m.body.response.code.Good? && |newIds| == |m.body.response.contents|
    modifies er`outgoing, er`awaitResponse, er`pushed, er`noted, er.Mailboxes()`messages, er.Mailboxes()`notifications
    ensures er.Valid()
    ensures er.Boxes() == Deliver(old(er.Boxes()), er.table, old(er.Index()), old(er.Direct()),
                                  m.body.response.contents, newIds, now)
  {
    hide E.AgentsRight, E.SessionsRight, E.TableRight, E.DirectRight, E.AllAdmitted, E.BoxesOf, E.MrnsOf, E.DirectOf,
         ChannelRight, E.InterestsRight, E.ListsOf, Deliver, E.NotedAll, Answered, Pushed;
    er.HandleIncoming(m, true, newIds, newId, now);
  }

  /** When a Good response comes from the router, such an agent has every message in it that is live and lists its
      MRN. */
  method DirectReceiverGets(er: E.EdgeRouter, agent: E.Agent, mrn: string, m: Message, newIds: seq<string>,
                            newId: string, now: int)
    requires er.Valid() && TakesDirect(er, agent, mrn)
    requires m.body.Reply? && m.body.response.code.Good? && |newIds| == |m.body.response.contents|
    requires Distinct(newIds) && "" !in newIds && forall id :: id in newIds ==> HasNone(agent.consumer.View(), id)
    modifies er`outgoing, er`awaitResponse, er`pushed, er`noted, er.Mailboxes()`messages, er.Mailboxes()`notifications
    ensures er.Valid() && HearsAll(agent.consumer.View(), mrn, m.body.response.contents, newIds, now)
  {
    hide E.AgentsRight, E.SessionsRight, E.TableRight, E.DirectRight, E.AllAdmitted, E.BoxesOf, E.MrnsOf, E.DirectOf,
         ChannelRight, E.InterestsRight, E.ListsOf, Deliver, E.NotedAll, HearsAll, Answered, Distinct, HasNone;
    er.InBoxes(agent);
    DirectIs(er, agent, mrn);
    ghost var boxes, u := er.Boxes(), agent.agentUuid;
    DirectReceiverHears(boxes, er.table, er.Index(), er.Direct(), m.body.response.contents, newIds, now, mrn, u);
    hide TakesDirect, E.EdgeRouter.Valid;
    GetsResponse(er, m, newIds, newId, now);
    assert agent.consumer.View() == er.Boxes()[u] by { er.InBoxes(agent); }
  }

  /** A Send of a local agent: a subject's subscribers with another MRN get it, or the holders of the listed MRNs that
      take direct messages; nobody else's mailbox changes. */
  lemma SentExactly<A>(boxes: map<A, Box>, table: Table<A>, index: map<string, A>, direct: set<A>, mrn: A -> string,
                       sender: string, m: Message, h: Header, u: A)
    requires u in boxes && Carries(m, h)
    ensures
      var c := FanOut(boxes, SentTo(table, index, direct, mrn, sender, AddressIn(m)), m)[u];
      if IsFor(table, index, direct, h.address, u) && (h.address.Subject? ==> mrn(u) != sender)
      then Gains(boxes[u], c, m) else c == boxes[u]
  {
    GettersRead(m, h);
    TargetsAre(table, index, direct, h.address, u);
    FanOutAt(boxes, SentTo(table, index, direct, mrn, sender, AddressIn(m)), m, u);
    hide FanOut, Gains;
  }

  // ---- what a router queues ----

  /** The edge router subscribed for the subject, or for one of the listed MRNs. */
  ghost predicate Wants(table: Table<Edge>, address: Address, e: Edge) {
    match address
    case NoAddress => false
    case Subject(s) => s in table && e in table[s]
    case Recipients(rs) => exists r :: r in rs && r in table && e in table[r]
  }

  /** A Send of the edge router `origin`. */
  lemma RouterSentExactly(boxes: map<Edge, Box>, table: Table<Edge>, origin: Edge, m: Message, h: Header, e: Edge)
    requires e in boxes && Carries(m, h)
    ensures
      var c := FanOut(boxes, R.Addressed(table, AddressIn(m)) - {origin}, m)[e];
      if Wants(table, h.address, e) && e != origin then Gains(boxes[e], c, m) else c == boxes[e]
  {
    GettersRead(m, h);
    AddressedAre(table, h.address, e);
    FanOutAt(boxes, R.Addressed(table, AddressIn(m)) - {origin}, m, e);
    hide FanOut, Gains, Wants, R.Addressed;
  }

  lemma AddressedAre(table: Table<Edge>, address: Address, e: Edge)
    ensures e in R.Addressed(table, address) <==> Wants(table, address, e)
  {
    match address
    case NoAddress =>
    case Subject(s) =>
    case Recipients(rs) =>
      if r :| r in rs && r in table && e in table[r] { assert e in Subscribers(table, r); }
  }

  /** A dispatched message: within the window, which reaches 30 days ahead, the subject's subscribers get it, or those
      of each listed MRN as long as it and all before it have a table entry. The dispatcher meets no missing entry
      exactly when the subject has one, or all of the listed MRNs have. */
  lemma DispatchedExactly(boxes: map<Edge, Box>, table: Table<Edge>, m: Message, h: Header, now: int, e: Edge)
    requires e in boxes && Carries(m, h)
    ensures
      var due := m.msgType.ProtocolMessage? && AppOf(m).Some? && InWindow(AppOf(m).value, now);
      var c := FanOut(boxes, if due then R.Reached(table, AddressIn(m)) else {}, m)[e];
      && (due <==> now <= h.expires <= now + 2592000)
      && if due && ((h.address.Subject? && h.address.subject in table && e in table[h.address.subject])
                    || (h.address.Recipients? && exists i :: ListedAt(table, h.address.recipients, e, i)))
         then Gains(boxes[e], c, m) else c == boxes[e]
    ensures R.AllListed(table, AddressIn(m)) <==>
      match h.address
      case NoAddress => true
      case Subject(s) => s in table
      case Recipients(rs) => forall i :: 0 <= i < |rs| ==> rs[i] in table
  {
    GettersRead(m, h);
    var due := m.msgType.ProtocolMessage? && AppOf(m).Some? && InWindow(AppOf(m).value, now);
    FanOutAt(boxes, if due then R.Reached(table, AddressIn(m)) else {}, m, e);
    hide FanOut, Gains;
    if h.address.Recipients? { ReachedIs(table, h.address.recipients, e); }
  }

  /** `e` subscribed for the recipient at the place `i`, and all recipients up to there have an entry. */
  ghost predicate ListedAt(table: Table<Edge>, rs: seq<string>, e: Edge, i: int) {
    0 <= i < |rs| && (forall j :: 0 <= j <= i ==> rs[j] in table) && e in table[rs[i]]
  }

  lemma ReachedIs(table: Table<Edge>, rs: seq<string>, e: Edge)
    ensures e in R.Reached(table, Recipients(rs)) <==> exists i :: ListedAt(table, rs, e, i)
  {
    var n := R.KnownPrefix(table, rs);
    if e in R.Reached(table, Recipients(rs)) {
      var r :| r in rs[..n] && e in Subscribers(table, r);
      var i :| 0 <= i < n && rs[..n][i] == r;
      assert ListedAt(table, rs, e, i);
    }
    if i :| ListedAt(table, rs, e, i) {
      assert i < n;
      assert rs[..n][i] == rs[i];
      assert rs[i] in rs[..n] && e in Subscribers(table, rs[i]);
    }
  }

  // ---- tables ----

  ghost predicate Enrolled<A>(table: Table<A>, subject: string, a: A) {
    subject in table && a in table[subject]
  }

  /** A subscription adds one member of one subject; leaving takes it out, and keeps the subject's entry. */
  lemma MembersAfter<A>(table: Table<A>, subject: string, a: A, s: string, b: A)
    ensures Enrolled(AddSubscriber(table, subject, a), s, b) <==> Enrolled(table, s, b) || (s == subject && b == a)
    ensures s in AddSubscriber(table, subject, a) <==> s in table || s == subject
    ensures Enrolled(DropSubscriber(table, subject, a), s, b) <==> Enrolled(table, s, b) && !(s == subject && b == a)
    ensures s in DropSubscriber(table, subject, a) <==> s in table
  {
  }

  /** What a router makes of a Subscribe. It succeeds unless the subject is empty, or is new and the overlay lets the
      join or the subscription fail. Then the edge router is enrolled and the subject has its listener; a failed
      subscription leaves the joined topic behind, and nothing else. */
  lemma EnrolledExactly(st: RouterState, e: Edge, subject: string, join: JoinResult, s: string, f: Edge)
    ensures
      var (n, ok) := RouterSubscribe(st, e, subject, join);
      var isNew := subject != "" && subject !in st.table;
      var joined := isNew && (subject in st.topics || !join.JoinFailed?);
      && (ok <==> subject != "" && (isNew ==> joined && !join.SubscribeFailed?))
      && (Enrolled(n.table, s, f) <==> Enrolled(st.table, s, f) || (ok && s == subject && f == e))
      && (s in n.table <==> s in st.table || (ok && s == subject))
      && (s in n.topics <==> s in st.topics || (joined && s == subject))
      && n.listeners[s] == st.listeners[s] + (if ok && isNew && s == subject then 1 else 0)
      && n.out == st.out && n.pub == st.pub && n.inbox == st.inbox
  {
  }

  // ---- what a consumer's handlers leave ----

  /** A Receive. A filtered one takes what it names, a written response to an unfiltered one takes everything; a
      notification goes with the message that was answered, written or not. */
  lemma ReceivedExactly(b: Box, request: Message, now: int, written: bool, key: string)
    requires request.body.Protocol? && request.body.payload.Receive?
    ensures
      var c, ids := AfterReceive(b, request, now, written), request.body.payload.filter;
      && (key in c.messages <==> key in b.messages && !(written && (ids == [] || key in ids)))
      && (key in c.notifications <==>
           && key in b.notifications
           && !(key in b.messages && if ids == [] then now <= ExpiresOf(b.messages[key]) else key in ids))
      && (key in c.messages ==> c.messages[key] == b.messages[key])
      && (key in c.notifications ==> c.notifications[key] == b.notifications[key])
  {
    assert key in request.body.payload.filter <==> key in SetOf(request.body.payload.filter);
  }

  /** Its answer: what is stored of the named UUIDs, or what has not expired, with the stored application message. */
  lemma ReceivedAnswer(b: Box, request: Message, now: int, written: bool, out: Outcome, key: string)
    requires AnswersReceive(b, request, now, written, out) && request.body.Protocol? && request.body.payload.Receive?
    ensures out.Outcome? && out.reply.body.Reply? && out.reply.body.response.to == request.uuid
    ensures
      var ids, contents := request.body.payload.filter, out.reply.body.response.contents;
      && (forall i, j :: 0 <= i < j < |contents| ==> contents[i].uuid != contents[j].uuid)
      && (forall c :: c in contents ==> c.uuid in b.messages && c.app == AppOf(b.messages[c.uuid]))
      && ((exists c :: c in contents && c.uuid == key) <==>
           key in b.messages && if ids == [] then now <= ExpiresOf(b.messages[key]) else key in ids)
  {
    var ids, contents := request.body.payload.filter, out.reply.body.response.contents;
    SelectedExact(ids, b.messages.Keys);
    ContentsNamed(contents, key);
    if ids != [] {
      assert key in ContentIds(contents) <==> key in SetOf(ContentIds(contents));
      assert key in ids <==> key in SetOf(ids);
    } else {
      assert key in ContentIds(contents) <==> key in SetOf(ContentIds(contents));
    }
    forall i, j | 0 <= i < j < |contents| ensures contents[i].uuid != contents[j].uuid {
      assert ContentIds(contents)[i] != ContentIds(contents)[j];
    }
  }

  lemma ContentsNamed(contents: seq<Content>, key: string)
    ensures key in ContentIds(contents) <==> exists c :: c in contents && c.uuid == key
  {
    if key in ContentIds(contents) {
      var i :| 0 <= i < |contents| && ContentIds(contents)[i] == key;
      assert contents[i] in contents;
    }
    if c :| c in contents && c.uuid == key {
      var i :| 0 <= i < |contents| && contents[i] == c;
      assert ContentIds(contents)[i] == key;
    }
  }

  lemma MetadataNamed(metadata: seq<Metadata>, key: string)
    ensures key in SetOf(MetadataIds(metadata)) <==> exists d :: d in metadata && d.uuid == key
  {
    if key in MetadataIds(metadata) {
      var i :| 0 <= i < |metadata| && MetadataIds(metadata)[i] == key;
      assert metadata[i] in metadata;
    }
    if d :| d in metadata && d.uuid == key {
      var i :| 0 <= i < |metadata| && metadata[i] == d;
      assert MetadataIds(metadata)[i] == key;
    }
  }

  /** A Fetch: exactly the expired messages go and no notification does; the headers of all others are listed, each
      once. */
  lemma FetchedExactly(b: Box, request: Message, now: int, written: bool, out: Outcome, key: string)
    requires AnswersFetch(b, request, now, written, out) && request.body.Protocol? && request.body.payload.Fetch?
    ensures Expire(b, now).notifications == b.notifications && Collected(b.messages, Expire(b, now).messages, now)
    ensures out.Outcome? && out.reply.body.Reply? && out.reply.body.response.to == request.uuid
    ensures
      var metadata := out.reply.body.response.metadata;
      && (forall i, j :: 0 <= i < j < |metadata| ==> metadata[i].uuid != metadata[j].uuid)
      && (forall d :: d in metadata ==> d.uuid in b.messages && d.header == HeaderOf(b.messages[d.uuid]))
      && ((exists d :: d in metadata && d.uuid == key) <==>
           key in b.messages && now <= ExpiresOf(b.messages[key]))
  {
    var metadata := out.reply.body.response.metadata;
    MetadataNamed(metadata, key);
    forall i, j | 0 <= i < j < |metadata| ensures metadata[i].uuid != metadata[j].uuid {
      assert MetadataIds(metadata)[i] != MetadataIds(metadata)[j];
    }
  }

  /** A round of the notifier: every due notification is listed once, and a written Notify clears them all; the messages
      stay. */
  lemma NotifiedExactly(b: Box, written: bool, out: Outcome, key: string)
    requires AnnouncesDue(b, written, out)
    ensures
      var c := NotifyAll(b, written);
      c.messages == b.messages && c.notifications == if written then map[] else b.notifications
    ensures key in b.notifications ==> out.Outcome?
    ensures out.Outcome? ==>
      && out.written == written && out.reply.body.Protocol? && out.reply.body.payload.Notify?
      && var metadata := out.reply.body.payload.metadata;
      && (forall d :: d in metadata ==> d.uuid in b.notifications && d.header == HeaderOf(b.notifications[d.uuid]))
      && ((exists d :: d in metadata && d.uuid == key) <==> key in b.notifications)
  {
    if out.Outcome? { MetadataNamed(out.reply.body.payload.metadata, key); }
  }

  // ---- garbage collection ----

  /** What the runs of GarbageCollection show is what the handlers answer: the keys of `Shown` are those listed. */
  lemma ShownIsAnswered(b: Box, request: Message, now: int, written: bool, out: Outcome, key: string)
    ensures AnswersFetch(b, request, now, written, out) && out.Outcome? ==>
      ((exists d :: d in out.reply.body.response.metadata && d.uuid == key) <==>
        key in Shown(b, Event(now, FetchOp(written))))
    ensures AnswersReceive(b, request, now, written, out) && out.Outcome? ==>
      var ids := request.body.payload.filter;
      ((exists c :: c in out.reply.body.response.contents && c.uuid == key) <==>
        key in Shown(b, Event(now, if ids == [] then ReceiveAllOp(written) else ReceiveSomeOp(ids, written))))
    ensures AnnouncesDue(b, written, out) && out.Outcome? ==>
      ((exists d :: d in out.reply.body.payload.metadata && d.uuid == key) <==>
        key in Shown(b, Event(now, NotifyOp(written))))
  {
    hide AnswersFetch, AnswersReceive, AnnouncesDue;
    FetchOrNone(b, request, now, written, out);
    if AnswersFetch(b, request, now, written, out) && out.Outcome? {
      FetchedExactly(b, request, now, written, out, key);
    }
    if AnswersReceive(b, request, now, written, out) && out.Outcome? {
      ReceivedAnswer(b, request, now, written, out, key);
      assert key in request.body.payload.filter <==> key in SetOf(request.body.payload.filter);
    }
    if AnnouncesDue(b, written, out) && out.Outcome? {
      NotifiedExactly(b, written, out, key);
    }
  }

  lemma FetchOrNone(b: Box, request: Message, now: int, written: bool, out: Outcome)
    ensures AnswersFetch(b, request, now, written, out) && out.Outcome? ==>
      request.body.Protocol? && request.body.payload.Fetch? && out.reply.body.Reply?
    ensures AnswersReceive(b, request, now, written, out) && out.Outcome? ==>
      request.body.Protocol? && request.body.payload.Receive? && out.reply.body.Reply?
    ensures AnnouncesDue(b, written, out) && out.Outcome? ==>
      out.reply.body.Protocol? && out.reply.body.payload.Notify?
  {
  }

  /** The mailbox after an event of such a run: what a collection or a fetch leaves, and a Receive. */
  lemma EventsAreHandlers(b: Box, now: int, ids: seq<string>, written: bool, m: Message)
    ensures Gains(b, GarbageCollection.Step(b, Event(now, QueueOp(m))), m)
    ensures forall op :: op == CollectOp || op == FetchOp(written) ==>
      var c := GarbageCollection.Step(b, Event(now, op));
      c.notifications == b.notifications && Collected(b.messages, c.messages, now)
    ensures
      var op := if ids == [] then ReceiveAllOp(written) else ReceiveSomeOp(ids, written);
      GarbageCollection.Step(b, Event(now, op)) == BoxAfterReceive(b, ids, now, written)
    ensures
      var c := GarbageCollection.Step(b, Event(now, NotifyOp(written)));
      c.messages == b.messages && c.notifications == if written then map[] else b.notifications
  {
  }

  // ---- the outgoing channel ----

  /** The router reads the edge router's requests as what they were pushed for. */
  lemma RequestsRead(uuid: string, subject: string, ids: seq<string>, app: AppMessage)
    ensures RequestOf(SubjectRequest(uuid, subject)) == SubscribeTo(subject)
    ensures RequestOf(WithdrawRequest(uuid, subject)) == WithdrawFrom(subject)
    ensures RequestOf(ReceiveRequest(uuid, ids)) == Collect(ids)
    ensures RequestOf(SendMessage(uuid, app)) == PassOn(Some(app))
    ensures SubjectRequest(uuid, subject).uuid == WithdrawRequest(uuid, subject).uuid == uuid
    ensures ReceiveRequest(uuid, ids).uuid == SendMessage(uuid, app).uuid == uuid
  {
  }

  /** The writer and the first message `m`: what is no protocol message is dropped, what fails to be written goes to the
      back, and a written Subscribe or Unsubscribe, and nothing else, is awaited from then on. */
  lemma WrittenExactly(o: Outbox, success: bool, u: string)
    requires o.queue != []
    ensures
      var m, n := o.queue[0], WriteFirst(o, success);
      var goes := m.msgType.ProtocolMessage? && success;
      var waits := goes && m.body.Protocol? && (m.body.kind == SubscribeType || m.body.kind == UnsubscribeType);
      && n.written == o.written + (if goes then [m] else [])
      && n.queue == o.queue[1..] + (if m.msgType.ProtocolMessage? && !success then [m] else [])
      && (u in n.awaiting <==> u in o.awaiting || (waits && u == m.uuid))
      && (u in n.awaiting ==> n.awaiting[u] == if waits && u == m.uuid then m else o.awaiting[u])
  {
  }

  /** A response: the request that it answers is awaited no more, and is queued once more exactly when the response is
      not Good. */
  lemma AnsweredExactly(o: Outbox, response: Response, u: string)
    ensures
      var n := Settle(o, response);
      && n.written == o.written
      && n.queue == o.queue +
           (if response.to in o.awaiting && response.code != Good then [o.awaiting[response.to]] else [])
      && (u in n.awaiting <==> u in o.awaiting && u != response.to)
      && (u in n.awaiting ==> n.awaiting[u] == o.awaiting[u])
  {
  }
}
