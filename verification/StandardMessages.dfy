/** The one message type both wire protocols are parsed into and formatted from. */
module StandardMessages {
  import opened Basics
  import opened JsonTree

  datatype ClientInfo = ClientInfo(
    userAgent: string,
    platform: string,
    version: string,
    capabilities: seq<string>,
    screenResolution: string,
    devicePixelRatio: real,
    language: string)

  datatype ServerInfo = ServerInfo(version: string, capabilities: seq<string>, timestamp: int)

  datatype Metadata = Metadata(
    protocol: string,
    client: Option<ClientInfo>,
    server: Option<ServerInfo>,
    capabilities: seq<string>)

  datatype MessageError = MessageError(
    code: string,
    message: string,
    details: string,
    kind: string,
    recoverable: bool,
    suggestions: seq<string>)

  /** `data` is JNull when absent; a Go struct stands as the tree it marshals to. */
  datatype Message = Message(
    version: string,
    kind: string,
    id: string,
    timestamp: int,
    peerID: string,
    data: Json,
    metadata: Option<Metadata>,
    error: Option<MessageError>)

  const GSTREAMER: string := "1.0"
  const SELKIES: string := "selkies"

  const HELLO: string := "hello"
  const OFFER: string := "offer"
  const ANSWER: string := "answer"
  const ICE_CANDIDATE: string := "ice-candidate"
  const ERROR: string := "error"

  const NO_CLIENT: ClientInfo := ClientInfo("", "", "", [], "", 0.0, "")
  const NO_SERVER: ServerInfo := ServerInfo("", [], 0)
  const NO_METADATA: Metadata := Metadata("", None, None, [])
  const NO_ERROR: MessageError := MessageError("", "", "", "", false, [])

  /** The struct that the parsers fill in through a pointer. */
  class StandardMessage {
    var version: string
    var kind: string
    var id: string
    var timestamp: int
    var peerID: string
    var data: Json
    var metadata: Option<Metadata>
    var error: Option<MessageError>

    constructor ()
      ensures Value() == Message("", "", "", 0, "", JNull, None, None)
    {
      version, kind, id, timestamp, peerID := "", "", "", 0, "";
      data, metadata, error := JNull, None, None;
    }

    /** A new message as both constructors of the package fill it. */
    constructor New(kind: string, peerID: string, data: Json, freshId: string, now: int)
      ensures Value() == Message(GSTREAMER, kind, freshId, now, peerID, data, Some(NO_METADATA.(protocol := GSTREAMER)), None)
    {
      this.version, this.kind, this.id, this.timestamp, this.peerID := GSTREAMER, kind, freshId, now, peerID;
      this.data, this.metadata, this.error := data, Some(NO_METADATA.(protocol := GSTREAMER)), None;
    }

    function Value(): Message
      reads this
    {
      Message(version, kind, id, timestamp, peerID, data, metadata, error)
    }
  }

  /** A wire message: its length in bytes and either JSON or a line of text that is not JSON. */
  datatype Document = Document(length: nat, content: Content)
  datatype Content = Line(text: string) | Encoded(tree: Json)

  datatype Failure =
    | NilMessage | EmptyData | TooLarge | NotJson | MissingType | TypeNotString
    | MetadataNotObject | ErrorNotObject
    | InvalidData | MissingSdp | MissingCandidate | NoErrorInfo | UnsupportedType
    | UnknownProtocol | NilPointer

  datatype Result<+T> = Ok(value: T) | Err(failure: Failure)
}
