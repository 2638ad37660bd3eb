/** The outgoing channel of the edge router with its history, over all runs: it holds protocol messages only, and
    whatever writes fail, nothing that was pushed is lost or doubled; without failures the order is kept. */
module Outboxes {
  import opened Mmtp
  import opened MailboxSpec
  import opened Routing

  /** A channel, everything that was ever pushed to it, retries included, and whether a write ever failed. */
  datatype History = History(o: Outbox, pushed: seq<Message>, failed: bool)

  const NEW_CHANNEL := History(Outbox([], map[], []), [], false)

  function Pushed(h: History, ms: seq<Message>): History {
    h.(o := h.o.(queue := h.o.queue + ms), pushed := h.pushed + ms)
  }

  function Wrote(h: History, success: bool): History
    requires h.o.queue != []
  {
    History(WriteFirst(h.o, success), h.pushed, h.failed || !success)
  }

  function Answered(h: History, response: Response): History {
    h.(o := Settle(h.o, response), pushed := h.pushed + Retried(h.o, response))
  }

  // ---- what the channel keeps ----

  ghost predicate OnlyProtocol(o: Outbox) {
    && (forall m :: m in o.queue ==> m.msgType.ProtocolMessage?)
    && (forall m :: m in o.written ==> m.msgType.ProtocolMessage?)
    && (forall u :: u in o.awaiting ==> o.awaiting[u] in o.written && IsSubscription(o.awaiting[u]))
  }

  /** Protocol messages only; as multisets, what was pushed is what was written and what is queued; and in this order,
      as long as no write failed. */
  ghost predicate ChannelRight(h: History) {
    && OnlyProtocol(h.o)
    && multiset(h.pushed) == multiset(h.o.written) + multiset(h.o.queue)
    && (!h.failed ==> h.pushed == h.o.written + h.o.queue)
  }

  lemma PushRight(h: History, ms: seq<Message>)
    requires ChannelRight(h) && forall m :: m in ms ==> m.msgType.ProtocolMessage?
    ensures ChannelRight(Pushed(h, ms))
  {
    assert h.o.written + h.o.queue + ms == h.o.written + (h.o.queue + ms);
  }

  lemma WriteRight(h: History, success: bool)
    requires ChannelRight(h) && h.o.queue != []
    ensures ChannelRight(Wrote(h, success))
  {
    var m := h.o.queue[0];
    assert h.o.queue == [m] + h.o.queue[1..];
    assert h.o.written + h.o.queue == h.o.written + [m] + h.o.queue[1..];
  }

  lemma AnswerRight(h: History, response: Response)
    requires ChannelRight(h)
    ensures ChannelRight(Answered(h, response))
  {
    var again := Retried(h.o, response);
    PushRight(h, again);
  }

  // ---- runs ----

  /** What happens to the channel. An agent's message reaches a handler that may push it only when the dispatcher sees a
      protocol message; the other pushes are requests of the edge router itself. */
  datatype Event =
    | Forwards(m: Message)
    | JoinsDirect(uuid: string, mrn: string)
    | LeavesDirect(uuid: string, mrn: string)
    | Hears(uuid: string, metadata: seq<Metadata>)  // a Notify
    | Write(success: bool)
    | Answer(response: Response)

  function Next(h: History, e: Event): History {
    match e
    case Forwards(m) => if m.msgType.ProtocolMessage? then Pushed(h, [m]) else h
    case JoinsDirect(uuid, mrn) => Pushed(h, [SubjectRequest(uuid, mrn)])
    case LeavesDirect(uuid, mrn) => Pushed(h, [WithdrawRequest(uuid, mrn)])
    case Hears(uuid, metadata) => Pushed(h, [ReceiveRequest(uuid, MetadataIds(metadata))])
    case Write(success) => if h.o.queue == [] then h else Wrote(h, success)
    case Answer(response) => Answered(h, response)
  }

  function After(events: seq<Event>): History {
    if events == [] then NEW_CHANNEL else Next(After(events[..|events| - 1]), events[|events| - 1])
  }

  /** In every run of pushes, writes and answers. */
  lemma {:induction false} RunRight(events: seq<Event>)
    ensures ChannelRight(After(events))
  {
    if events != [] {
      var n := |events| - 1;
      var h := After(events[..n]);
      RunRight(events[..n]);
      hide ChannelRight;
      match events[n] {
        case Forwards(m) => if m.msgType.ProtocolMessage? { PushRight(h, [m]); }
        case JoinsDirect(uuid, mrn) => PushRight(h, [SubjectRequest(uuid, mrn)]);
        case LeavesDirect(uuid, mrn) => PushRight(h, [WithdrawRequest(uuid, mrn)]);
        case Hears(uuid, metadata) => PushRight(h, [ReceiveRequest(uuid, MetadataIds(metadata))]);
        case Write(success) => if h.o.queue != [] { WriteRight(h, success); }
        case Answer(response) => AnswerRight(h, response);
      }
    }
  }

  /** In every run the channel holds protocol messages only, and what awaits an answer is a written request. */
  lemma HoldsOnlyProtocol(events: seq<Event>)
    ensures OnlyProtocol(After(events).o)
  {
    RunRight(events);
  }

  /** Conservation: under any pattern of write failures, what was pushed is what was written and what is queued, as
      multisets. */
  lemma NothingLostOrDoubled(events: seq<Event>)
    ensures multiset(After(events).pushed) == multiset(After(events).o.written) + multiset(After(events).o.queue)
  {
    RunRight(events);
  }

  ghost predicate NeverFails(events: seq<Event>) {
    forall i :: 0 <= i < |events| ==> events[i] != Write(false)
  }

  lemma {:induction false} NoneFailed(events: seq<Event>)
    requires NeverFails(events)
    ensures !After(events).failed
  {
    if events != [] {
      NoneFailed(events[..|events| - 1]);
    }
  }

  /** First in, first out, as long as no write fails. */
  lemma KeepsOrder(events: seq<Event>)
    requires NeverFails(events)
    ensures After(events).pushed == After(events).o.written + After(events).o.queue
  {
    RunRight(events);
    NoneFailed(events);
  }
}
