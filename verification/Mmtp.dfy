/** Message shapes of the Maritime Messaging and Transfer Protocol (mmtp/mmtp.proto), and the
    nil-tolerant getters that the handlers read them with. */
module Mmtp {

  datatype Option<+T> = None | Some(value: T)

  datatype MsgType = UnspecifiedMessage | ProtocolMessage | ResponseMessage

  datatype ProtocolType =
    | UnspecifiedProtocol | SubscribeType | UnsubscribeType | SendType | ReceiveType
    | FetchType | DisconnectType | ConnectType | NotifyType

  datatype ResponseCode = UnspecifiedResponse | Good | Error

  /** The `SubjectOrRecipient` choice of an application message header. */
  datatype Address = NoAddress | Subject(subject: string) | Recipients(recipients: seq<string>)

  datatype Header = Header(address: Address, expires: int, sender: string)

  /** Names one accepted Send: the edge router that accepted it and a serial number. It stands for
      the body and signature, which no handler looks into and which travel unchanged. */
  datatype SendId = SendId(edge: string, serial: nat)

  datatype AppMessage = AppMessage(header: Option<Header>, tag: SendId)

  datatype Metadata = Metadata(uuid: string, header: Option<Header>)

  datatype Content = Content(uuid: string, app: Option<AppMessage>)

  /** What a Subscribe or an Unsubscribe asks for. */
  datatype Interest = NoInterest | OnSubject(subject: string) | OnDirectMessages(flag: bool)

  datatype Payload =
    | NoPayload
    | Subscribe(interest: Interest)
    | Unsubscribe(interest: Interest)
    | Send(app: Option<AppMessage>)
    | Receive(filter: seq<string>)  // an absent filter and an empty one read alike: []
    | Fetch
    | Disconnect
    | Connect(ownMrn: string, token: string)
    | Notify(metadata: seq<Metadata>)

  datatype Response = Response(to: string, code: ResponseCode, metadata: seq<Metadata>, contents: seq<Content>)

  datatype Body = NoBody | Protocol(kind: ProtocolType, payload: Payload) | Reply(response: Response)

  datatype Message = Message(msgType: MsgType, uuid: string, body: Body)

  function ContentIds(contents: seq<Content>): (ids: seq<string>)
    ensures |ids| == |contents| && forall i :: 0 <= i < |ids| ==> ids[i] == contents[i].uuid
  {
    seq(|contents|, i requires 0 <= i < |contents| => contents[i].uuid)
  }

  function MetadataIds(metadata: seq<Metadata>): (ids: seq<string>)
    ensures |ids| == |metadata| && forall i :: 0 <= i < |ids| ==> ids[i] == metadata[i].uuid
  {
    seq(|metadata|, i requires 0 <= i < |metadata| => metadata[i].uuid)
  }

  /** The application message a Send carries, if `m` is a Send that carries one. */
  function AppOf(m: Message): Option<AppMessage> {
    if m.body.Protocol? && m.body.payload.Send? then m.body.payload.app else None
  }

  function HeaderOf(m: Message): Option<Header> {
    match AppOf(m)
    case None => None
    case Some(app) => app.header
  }

  function AppExpires(app: AppMessage): int {
    if app.header.Some? then app.header.value.expires else 0
  }

  /** The expiry as the getters report it: 0 when the header is absent. */
  function ExpiresOf(m: Message): int {
    if HeaderOf(m).Some? then HeaderOf(m).value.expires else 0
  }

  /** True of a message that a mailbox may hold under the key `u`: the key is its own non-empty UUID,
      and it is a Send whose application message and header are there. */
  predicate Storable(u: string, m: Message) {
    u != "" && m.uuid == u && HeaderOf(m).Some?
  }

  function SendMessage(uuid: string, app: AppMessage): Message {
    Message(ProtocolMessage, uuid, Protocol(SendType, Send(Some(app))))
  }

  function GoodReply(uuid: string, to: string, metadata: seq<Metadata>, contents: seq<Content>): Message {
    Message(ResponseMessage, uuid, Reply(Response(to, Good, metadata, contents)))
  }

  function ErrorReply(uuid: string, to: string): Message {
    Message(ResponseMessage, uuid, Reply(Response(to, Error, [], [])))
  }
}
