/** The consumer of consumer/consumer.go: an object whose methods update two maps in place. Each method is
    proved against the value-level operations of MailboxSpec. A write to the socket is a Boolean that the
    environment chooses; the locks are the subject of the modules MailboxRuns and Locks. */
module Consumers {
  import opened Mmtp
  import opened MailboxSpec
  import opened Interests

  datatype QueueResult = Queued | MissingUuid | NilConsumer

  /** The reply a handler tried to write, and whether the write went through. */
  datatype Outcome = NoOutcome | Outcome(reply: Message, written: bool)

  /** `contents` lists what `msgs` holds, one entry a key, in some order. */
  ghost predicate ListsContents(contents: seq<Content>, msgs: Store) {
    && Distinct(ContentIds(contents))
    && SetOf(ContentIds(contents)) == msgs.Keys
    && forall i :: 0 <= i < |contents| ==>
         contents[i].uuid in msgs && contents[i].app == AppOf(msgs[contents[i].uuid])
  }

  /** `metadata` lists the headers of what `msgs` holds, one entry a key, in some order. */
  ghost predicate ListsMetadata(metadata: seq<Metadata>, msgs: Store) {
    && Distinct(MetadataIds(metadata))
    && SetOf(MetadataIds(metadata)) == msgs.Keys
    && forall i :: 0 <= i < |metadata| ==>
         metadata[i].uuid in msgs && metadata[i].header == HeaderOf(msgs[metadata[i].uuid])
  }

  lemma SetOfSnoc(ids: seq<string>, x: string)
    ensures SetOf(ids + [x]) == SetOf(ids) + {x}
  {
  }

  /** One more requested UUID adds itself to the answer exactly when it is stored and new. */
  lemma SelectedSnoc(ids: seq<string>, x: string, keys: set<string>)
    ensures Selected(ids + [x], keys) ==
      if x in keys - SetOf(ids) then Selected(ids, keys) + [x] else Selected(ids, keys)
  {
    SelectedExact(ids, keys);
    assert (ids + [x])[..|ids|] == ids;
    assert x in Selected(ids, keys) <==> x in SetOf(Selected(ids, keys));
  }

  lemma ListsNothing()
    ensures ListsMetadata([], map[]) && ListsContents([], map[])
  {
  }

  lemma ListsMetadataMore(metadata: seq<Metadata>, msgs: Store, u: string, m: Message)
    requires ListsMetadata(metadata, msgs) && u !in msgs
    ensures ListsMetadata(metadata + [Metadata(u, HeaderOf(m))], msgs[u := m])
  {
    var before, later := MetadataIds(metadata), MetadataIds(metadata + [Metadata(u, HeaderOf(m))]);
    assert later == before + [u];
    SetOfSnoc(before, u);
    assert forall i :: 0 <= i < |metadata| ==> before[i] in SetOf(before);
  }

  lemma ListsContentsMore(contents: seq<Content>, msgs: Store, u: string, m: Message)
    requires ListsContents(contents, msgs) && u !in msgs
    ensures ListsContents(contents + [Content(u, AppOf(m))], msgs[u := m])
  {
    var before, later := ContentIds(contents), ContentIds(contents + [Content(u, AppOf(m))]);
    assert later == before + [u];
    SetOfSnoc(before, u);
    assert forall i :: 0 <= i < |contents| ==> before[i] in SetOf(before);
  }

  /** Visiting one more message adds it to the live ones exactly when it is live. */
  lemma LiveMore(msgs: Store, todo: set<string>, u: string, now: int)
    requires u in todo && u in msgs
    ensures u !in Live(msgs - todo, now)
    ensures Live(msgs - (todo - {u}), now)
         == if now <= ExpiresOf(msgs[u]) then Live(msgs - todo, now)[u := msgs[u]] else Live(msgs - todo, now)
  {
  }

  lemma LiveIs(msgs: Store, left: Store, now: int)
    requires left.Keys == Live(msgs, now).Keys && forall u :: u in left ==> u in msgs && left[u] == msgs[u]
    ensures left == Live(msgs, now)
  {
  }

  lemma LiveEnds(msgs: Store, now: int)
    ensures Live(msgs - msgs.Keys, now) == map[] && Live(msgs - {}, now) == Live(msgs, now)
  {
    assert msgs - {} == msgs;
  }

  /** `taken` and `contents` are the messages of `msgs` that a filtered receive for `ids` selects, in its order. */
  ghost predicate Takes(ids: seq<string>, msgs: Store, taken: seq<Message>, contents: seq<Content>) {
    && ContentIds(contents) == Selected(ids, msgs.Keys)
    && |taken| == |contents|
    && forall i :: 0 <= i < |contents| ==>
         contents[i].uuid in msgs && taken[i] == msgs[contents[i].uuid] && contents[i].app == AppOf(taken[i])
  }

  lemma TakesMore(ids: seq<string>, u: string, msgs: Store, taken: seq<Message>, contents: seq<Content>)
    requires Takes(ids, msgs, taken, contents)
    ensures
      if u in msgs.Keys - SetOf(ids) then
        Takes(ids + [u], msgs, taken + [msgs[u]], contents + [Content(u, AppOf(msgs[u]))])
      else Takes(ids + [u], msgs, taken, contents)
  {
    SelectedSnoc(ids, u, msgs.Keys);
    if u in msgs {
      assert ContentIds(contents + [Content(u, AppOf(msgs[u]))]) == ContentIds(contents) + [u];
    }
  }

  lemma TakesNothing(b: Box)
    ensures Takes([], b.messages, [], []) && ReceiveSome(b, [], true) == b
  {
    assert ReceiveSome(b, [], true).messages == b.messages;
    assert ReceiveSome(b, [], true).notifications == b.notifications;
  }

  lemma StillStored(b: Box, ids: seq<string>, u: string)
    ensures
      var c := ReceiveSome(b, ids, true);
      u in c.messages ==> u in b.messages && c.messages[u] == b.messages[u]
  {
  }

  lemma ReceiveSomeMore(b: Box, ids: seq<string>, u: string)
    ensures
      var c := ReceiveSome(b, ids, true);
      ReceiveSome(b, ids + [u], true) == if u in c.messages then Box(c.messages - {u}, c.notifications - {u}) else c
    ensures u in ReceiveSome(b, ids, true).messages <==> u in b.messages.Keys - SetOf(ids)
  {
    SetOfSnoc(ids, u);
    var c, d := ReceiveSome(b, ids, true), ReceiveSome(b, ids + [u], true);
    assert d.messages == c.messages - {u};
    assert u in c.messages || c.messages - {u} == c.messages;
    assert d.notifications == if u in c.messages then c.notifications - {u} else c.notifications;
  }

  /** The mailbox after a Receive. */
  ghost function AfterReceive(b: Box, request: Message, now: int, written: bool): Box {
    if !request.body.Protocol? || !request.body.payload.Receive? then b
    else BoxAfterReceive(b, request.body.payload.filter, now, written)
  }

  /** The answer to a Receive: the requested messages in the order of the request, or every live one. What is no Receive
      is not answered. */
  ghost predicate AnswersReceive(b: Box, request: Message, now: int, written: bool, out: Outcome) {
    if request.body.Protocol? && request.body.payload.Receive? then
      var ids := request.body.payload.filter;
      && out.Outcome? && out.written == written
      && out.reply.body.Reply? && out.reply.body.response.to == request.uuid
      && out.reply.body.response.code == Good
      && var contents := out.reply.body.response.contents;
      if ids != [] then
        && ContentIds(contents) == Selected(ids, b.messages.Keys)
        && forall i :: 0 <= i < |contents| ==>
             contents[i].uuid in b.messages && contents[i].app == AppOf(b.messages[contents[i].uuid])
      else
        ListsContents(contents, Live(b.messages, now))
    else
      out.NoOutcome?
  }

  /** The answer to a Fetch: the headers of the live messages. */
  ghost predicate AnswersFetch(b: Box, request: Message, now: int, written: bool, out: Outcome) {
    if request.body.Protocol? && request.body.payload.Fetch? then
      && out.Outcome? && out.written == written
      && out.reply.body.Reply? && out.reply.body.response.to == request.uuid
      && out.reply.body.response.code == Good
      && ListsMetadata(out.reply.body.response.metadata, Live(b.messages, now))
    else
      out.NoOutcome?
  }

  /** What a round of the notifier tries to write: one Notify about every message in the notification map, if any. */
  ghost predicate AnnouncesDue(b: Box, written: bool, out: Outcome) {
    && (out.NoOutcome? <==> b.notifications == map[])
    && (out.Outcome? ==>
          && out.written == written
          && out.reply.body.Protocol? && out.reply.body.payload.Notify?
          && ListsMetadata(out.reply.body.payload.metadata, b.notifications))
  }

  /** The store with these messages put in one after the other, each under its UUID. */
  function Merge(msgs: Store, more: seq<Message>): Store {
    if more == [] then msgs
    else
      var m := more[|more| - 1];
      Merge(msgs, more[..|more| - 1])[m.uuid := m]
  }

  /** Putting back messages of a store into what is left of it. */
  lemma {:induction false} MergeBack(whole: Store, left: Store, more: seq<Message>)
    requires forall u :: u in left ==> u in whole && left[u] == whole[u]
    requires forall m :: m in more ==> m.uuid in whole && whole[m.uuid] == m
    ensures Merge(left, more).Keys == left.Keys + set m | m in more :: m.uuid
    ensures forall u :: u in Merge(left, more) ==> u in whole && Merge(left, more)[u] == whole[u]
  {
    if more != [] {
      var n := |more| - 1;
      assert more == more[..n] + [more[n]];
      MergeBack(whole, left, more[..n]);
    }
  }

  lemma TakenUuids(ids: seq<string>, msgs: Store, taken: seq<Message>, contents: seq<Content>)
    requires forall u :: u in msgs ==> Storable(u, msgs[u])
    requires Takes(ids, msgs, taken, contents)
    ensures (set m | m in taken :: m.uuid) == SetOf(Selected(ids, msgs.Keys))
    ensures forall m :: m in taken ==> m.uuid in msgs && msgs[m.uuid] == m
  {
    var sel := Selected(ids, msgs.Keys);
    assert forall i :: 0 <= i < |taken| ==> taken[i].uuid == contents[i].uuid == ContentIds(contents)[i] == sel[i];
    forall u | u in sel ensures exists m :: m in taken && m.uuid == u {
      var i :| 0 <= i < |sel| && sel[i] == u;
      assert taken[i] in taken && taken[i].uuid == u;
    }
  }

  /** Filtered receive is reversible: what it takes out, put back after a failed write, is the mailbox as it was. */
  lemma FailedReceiveRestores(ids: seq<string>, msgs: Store, taken: seq<Message>, contents: seq<Content>)
    requires forall u :: u in msgs ==> Storable(u, msgs[u])
    requires Takes(ids, msgs, taken, contents)
    ensures Merge(msgs - SetOf(ids), taken) == msgs
  {
    hide Takes, Merge, Selected, Storable;
    SelectedExact(ids, msgs.Keys);
    TakenUuids(ids, msgs, taken, contents);
    MergeBack(msgs, msgs - SetOf(ids), taken);
    assert (msgs - SetOf(ids)).Keys + SetOf(ids) * msgs.Keys == msgs.Keys;
  }

  class Consumer {
    const mrn: string
    var interests: seq<string>
    var messages: Store
    var notifications: Store
    var reconnectToken: string

    ghost function View(): Box
      reads this`messages, this`notifications
    {
      Box(messages, notifications)
    }

    constructor (mrn: string)
      ensures this.mrn == mrn && interests == [] && View() == Box(map[], map[])
    {
      this.mrn := mrn;
      interests, messages, notifications, reconnectToken := [], map[], map[], "";
    }

    /** Stores a message and asks for a notification about it. */
    static method QueueMessage(c: Consumer?, m: Message) returns (result: QueueResult)
      modifies (if c == null then {} else {c})`messages, (if c == null then {} else {c})`notifications
      ensures result == if c == null then NilConsumer else if m.uuid == "" then MissingUuid else Queued
      ensures c != null ==>
        c.View() == Queue(old(c.View()), m)
      ensures c != null && old(WellFormed(c.View())) && Storable(m.uuid, m) ==> WellFormed(c.View())
    {
      if c == null {
        return NilConsumer;
      }
      if m.uuid == "" {
        return MissingUuid;
      }
      c.messages := c.messages[m.uuid := m];
      c.notifications := c.notifications[m.uuid := m];
      return Queued;
    }

    /** Puts messages back after a failed write: no new notification is asked for. */
    method BulkQueueMessages(msgs: seq<Message>)
      modifies this`messages
      ensures messages == Merge(old(messages), msgs)
    {
      for k := 0 to |msgs|
        invariant messages == Merge(old(messages), msgs[..k])
      {
        messages := messages[msgs[k].uuid := msgs[k]];
        assert msgs[..k + 1][..k] == msgs[..k];
      }
      assert msgs[..|msgs|] == msgs;
    }

    /** Leaving a subject: the first case-insensitive match gives way to the last entry. */
    method DropInterest(subject: string, fold: string -> string)
      modifies this`interests
      ensures interests == WithoutFirst(old(interests), subject, fold)
    {
      var n := |interests|;
      for i := 0 to n
        invariant interests == old(interests)
        invariant forall k :: 0 <= k < i ==> fold(interests[k]) != fold(subject)
      {
        if fold(subject) == fold(interests[i]) {
          interests := interests[i := interests[n - 1]];
          interests := interests[..n - 1];
          return;
        }
      }
    }

    /** One round of the notifier: nothing to tell, or one Notify about everything in the notification map,
        which is cleared only when the Notify was written. */
    method CheckNewMessages(uuid: string, written: bool) returns (out: Outcome)
      requires WellFormed(View())
      modifies this`notifications
      ensures View() == NotifyAll(old(View()), written) && AnnouncesDue(old(View()), written, out)
    {
      if |notifications| == 0 {
        return NoOutcome;
      }
      var metadata := ListMetadata(notifications);
      out := Outcome(Message(ProtocolMessage, uuid, Protocol(NotifyType, Notify(metadata))), written);
      if written {
        var todo := notifications.Keys;
        while todo != {}
          invariant todo == notifications.Keys
          decreases todo
        {
          var u :| u in todo;
          notifications := notifications - {u};
          todo := todo - {u};
        }
      }
    }

    static method ListMetadata(msgs: Store) returns (metadata: seq<Metadata>)
      requires forall u :: u in msgs ==> Storable(u, msgs[u])
      ensures ListsMetadata(metadata, msgs)
    {
      hide ListsMetadata;
      metadata := [];
      ListsNothing();
      var todo := msgs.Keys;
      ghost var done: Store := map[];
      while todo != {}
        invariant todo <= msgs.Keys && done == msgs - todo
        invariant ListsMetadata(metadata, done)
        decreases todo
      {
        var u :| u in todo;
        ListsMetadataMore(metadata, done, u, msgs[u]);
        metadata := metadata + [Metadata(msgs[u].uuid, HeaderOf(msgs[u]))];
        done := done[u := msgs[u]];
        todo := todo - {u};
      }
      assert done == msgs;
    }

    /** Answers a Receive: by the requested UUIDs, or with every live message when none is requested. */
    method HandleReceive(request: Message, uuid: string, now: int, written: bool) returns (out: Outcome)
      requires WellFormed(View())
      modifies this`messages, this`notifications
      ensures WellFormed(View()) && View() == AfterReceive(old(View()), request, now, written)
      ensures AnswersReceive(old(View()), request, now, written, out)
    {
      if !request.body.Protocol? || !request.body.payload.Receive? {
        return NoOutcome;
      }
      if request.body.payload.filter != [] {
        out := ReceiveFiltered(request.body.payload.filter, uuid, request.uuid, written);
      } else {
        out := ReceiveEverything(uuid, request.uuid, now, written);
      }
    }

    /** The loop of a filtered receive: moves the requested messages out of both maps. */
    method TakeSelected(ids: seq<string>) returns (taken: seq<Message>, contents: seq<Content>)
      modifies this`messages, this`notifications
      ensures View() == ReceiveSome(old(View()), ids, true)
      ensures Takes(ids, old(messages), taken, contents)
    {
      hide Takes, ReceiveSome;
      taken, contents := [], [];
      TakesNothing(View());
      for k := 0 to |ids|
        invariant View() == ReceiveSome(old(View()), ids[..k], true)
        invariant Takes(ids[..k], old(messages), taken, contents)
      {
        var u := ids[k];
        TakesMore(ids[..k], u, old(messages), taken, contents);
        ReceiveSomeMore(old(View()), ids[..k], u);
        assert ids[..k + 1] == ids[..k] + [u];
        StillStored(old(View()), ids[..k], u);
        if u in messages {
          taken := taken + [messages[u]];
          contents := contents + [Content(u, AppOf(messages[u]))];
          messages := messages - {u};
          notifications := notifications - {u};
        }
      }
      assert ids[..|ids|] == ids;
    }

    method ReceiveFiltered(ids: seq<string>, uuid: string, to: string, written: bool) returns (out: Outcome)
      requires WellFormed(View())
      modifies this`messages, this`notifications
      ensures WellFormed(View())
      ensures View() == ReceiveSome(old(View()), ids, written)
      ensures out.Outcome? && out.written == written
      ensures out.reply.body.Reply? && out.reply.body.response.to == to && out.reply.body.response.code == Good
      ensures
        var contents := out.reply.body.response.contents;
        && ContentIds(contents) == Selected(ids, old(messages).Keys)
        && forall i :: 0 <= i < |contents| ==>
             contents[i].uuid in old(messages) && contents[i].app == AppOf(old(messages)[contents[i].uuid])
    {
      var taken, contents := TakeSelected(ids);
      out := Outcome(GoodReply(uuid, to, [], contents), written);
      if !written {
        FailedReceiveRestores(ids, old(messages), taken, contents);
        BulkQueueMessages(taken);
      }
    }

    method ReceiveEverything(uuid: string, to: string, now: int, written: bool) returns (out: Outcome)
      requires WellFormed(View())
      modifies this`messages, this`notifications
      ensures WellFormed(View())
      ensures View() == ReceiveAll(old(View()), now, written)
      ensures out.Outcome? && out.written == written
      ensures out.reply.body.Reply? && out.reply.body.response.to == to && out.reply.body.response.code == Good
      ensures ListsContents(out.reply.body.response.contents, Live(old(messages), now))
    {
      hide ListsContents;
      var contents := ListEverything(now);
      out := Outcome(GoodReply(uuid, to, [], contents), written);
      if written {
        messages := map[];
      }
    }

    /** The loop of an unfiltered receive: lists the live messages and drops their notifications. */
    method ListEverything(now: int) returns (contents: seq<Content>)
      requires WellFormed(View())
      modifies this`notifications
      ensures notifications == old(notifications) - Live(messages, now).Keys
      ensures ListsContents(contents, Live(messages, now))
    {
      hide ListsContents, Live;
      contents := [];
      ListsNothing();
      LiveEnds(messages, now);
      var todo := messages.Keys;
      while todo != {}
        invariant todo <= messages.Keys
        invariant ListsContents(contents, Live(messages - todo, now))
        invariant notifications == old(notifications) - Live(messages - todo, now).Keys
        decreases todo
      {
        var u :| u in todo;
        var m := messages[u];
        LiveMore(messages, todo, u, now);
        // the header dereference is defined because the mailbox is well formed
        if now <= HeaderOf(m).value.expires {
          ListsContentsMore(contents, Live(messages - todo, now), u, m);
          contents := contents + [Content(u, AppOf(m))];
          notifications := notifications - {u};
        }
        todo := todo - {u};
      }
    }

    /** Lists the headers of the live messages and deletes the expired ones. */
    method ListLive(now: int) returns (metadata: seq<Metadata>)
      requires WellFormed(View())
      modifies this`messages
      ensures messages == Live(old(messages), now) && ListsMetadata(metadata, messages)
    {
      hide ListsMetadata, Live;
      metadata := [];
      ListsNothing();
      LiveEnds(messages, now);
      var todo := messages.Keys;
      while todo != {}
        invariant todo <= old(messages).Keys
        invariant messages.Keys == Live(old(messages) - todo, now).Keys + todo
        invariant forall u :: u in messages ==> u in old(messages) && messages[u] == old(messages)[u]
        invariant ListsMetadata(metadata, Live(old(messages) - todo, now))
        decreases todo
      {
        var u :| u in todo;
        var m := messages[u];
        LiveMore(old(messages), todo, u, now);
        if HeaderOf(m).value.expires < now {
          messages := messages - {m.uuid};
        } else {
          ListsMetadataMore(metadata, Live(old(messages) - todo, now), u, m);
          metadata := metadata + [Metadata(m.uuid, HeaderOf(m))];
        }
        todo := todo - {u};
      }
      LiveIs(old(messages), messages, now);
    }

    /** Answers a Fetch with the headers of the live messages; the expired ones are deleted on the way. */
    method HandleFetch(request: Message, uuid: string, now: int, written: bool) returns (out: Outcome)
      requires WellFormed(View())
      modifies this`messages
      ensures WellFormed(View())
      ensures
        var asked := request.body.Protocol? && request.body.payload.Fetch?;
        View() == if asked then Expire(old(View()), now) else old(View())
      ensures AnswersFetch(old(View()), request, now, written, out)
    {
      if !request.body.Protocol? || !request.body.payload.Fetch? {
        return NoOutcome;
      }
      var metadata := ListLive(now);
      out := Outcome(GoodReply(uuid, request.uuid, metadata, []), written);
    }

    /** The share of one mailbox in a garbage collection round of an edge router or a router. */
    method CollectGarbage(now: int)
      requires WellFormed(View())
      modifies this`messages
      ensures WellFormed(View()) && View() == Expire(old(View()), now)
    {
      var todo := messages.Keys;
      while todo != {}
        invariant todo <= messages.Keys
        invariant messages.Keys == Live(old(messages), now).Keys + todo <= old(messages).Keys
        invariant forall u :: u in messages ==> messages[u] == old(messages)[u]
        decreases todo
      {
        var u :| u in todo;
        var m := messages[u];
        if now > ExpiresOf(m) {
          messages := messages - {m.uuid};
        }
        todo := todo - {u};
      }
    }
  }
}
