/**
 The standard protocol: FormatMessage builds a value tree from a message, ParseMessage fills a
 message from a tree. The methods follow the two formatters step by step; the functions beside
 them say per member what is printed and what is read, and the theorems are about the functions.
 */
module GStreamerAdapter {
  import opened Basics
  import opened GoInts
  import opened JsonTree
  import opened StandardMessages

  // ------------------------------------------------------------------ what is printed

  function ClientField(c: ClientInfo, k: Key): Option<Json> {
    match k
    case UserAgentKey => Text(c.userAgent)
    case PlatformKey => Text(c.platform)
    case VersionKey => Text(c.version)
    case CapabilitiesKey => List(c.capabilities)
    case _ => None
  }

  function ServerField(s: ServerInfo, k: Key): Option<Json> {
    match k
    case VersionKey => Text(s.version)
    case CapabilitiesKey => List(s.capabilities)
    case TimestampKey => if s.timestamp > 0 then Some(JInt(s.timestamp)) else None
    case _ => None
  }

  function NonEmpty(o: Object): Option<Json> {
    if o == map[] then None else Some(JObj(o))
  }

  const CLIENT_KEYS: set<Key> := {UserAgentKey, PlatformKey, VersionKey, CapabilitiesKey}
  const SERVER_KEYS: set<Key> := {VersionKey, CapabilitiesKey, TimestampKey}

  function ClientTree(c: ClientInfo): Object {
    map k | k in CLIENT_KEYS && ClientField(c, k).Some? :: ClientField(c, k).value
  }

  function ServerTree(s: ServerInfo): Object {
    map k | k in SERVER_KEYS && ServerField(s, k).Some? :: ServerField(s, k).value
  }

  function MetadataField(m: Metadata, k: Key): Option<Json> {
    match k
    case ProtocolKey => Some(JStr(m.protocol))
    case ClientInfoKey => if m.client.Some? then NonEmpty(ClientTree(m.client.value)) else None
    case ServerInfoKey => if m.server.Some? then NonEmpty(ServerTree(m.server.value)) else None
    case CapabilitiesKey => List(m.capabilities)
    case _ => None
  }

  const METADATA_KEYS: set<Key> := {ProtocolKey, ClientInfoKey, ServerInfoKey, CapabilitiesKey}

  function MetadataTree(m: Metadata): Object {
    map k | k in METADATA_KEYS && MetadataField(m, k).Some? :: MetadataField(m, k).value
  }

  function ErrorField(e: MessageError, k: Key): Option<Json> {
    match k
    case CodeKey => Some(JStr(e.code))
    case MessageKey => Some(JStr(e.message))
    case DetailsKey => Text(e.details)
    case TypeKey => Text(e.kind)
    case RecoverableKey => Some(JBool(e.recoverable))
    case SuggestionsKey => List(e.suggestions)
    case _ => None
  }

  const ERROR_KEYS: set<Key> := {CodeKey, MessageKey, DetailsKey, TypeKey, RecoverableKey, SuggestionsKey}

  function ErrorTree(e: MessageError): Object {
    map k | k in ERROR_KEYS && ErrorField(e, k).Some? :: ErrorField(e, k).value
  }

  function MessageField(m: Message, k: Key): Option<Json> {
    match k
    case VersionKey => Some(JStr(m.version))
    case TypeKey => Some(JStr(m.kind))
    case IdKey => Some(JStr(m.id))
    case TimestampKey => Some(JInt(m.timestamp))
    case PeerIdKey => Text(m.peerID)
    case DataKey => if m.data == JNull then None else Some(m.data)
    case MetadataKey => if m.metadata.Some? then Some(JObj(MetadataTree(m.metadata.value))) else None
    case ErrorKey => if m.error.Some? then Some(JObj(ErrorTree(m.error.value))) else None
    case _ => None
  }

  const MESSAGE_KEYS: set<Key> :=
    {VersionKey, TypeKey, IdKey, TimestampKey, PeerIdKey, DataKey, MetadataKey, ErrorKey}

  function MessageTree(m: Message): Object {
    map k | k in MESSAGE_KEYS && MessageField(m, k).Some? :: MessageField(m, k).value
  }

  // ------------------------------------------------------------------ what is read

  function ReadClient(v: Json): Option<ClientInfo> {
    if v.JObj? then
      var o := v.fields;
      Some(ClientInfo(StrOr(o, UserAgentKey, ""), StrOr(o, PlatformKey, ""), StrOr(o, VersionKey, ""),
                      StringsAt(o, CapabilitiesKey), "", 0.0, ""))
    else None
  }

  function ReadServer(v: Json): Option<ServerInfo> {
    if v.JObj? then
      var o := v.fields;
      Some(ServerInfo(StrOr(o, VersionKey, ""), StringsAt(o, CapabilitiesKey), IntOr(o, TimestampKey, 0)))
    else None
  }

  function ReadMetadata(o: Object): Metadata {
    Metadata(StrOr(o, ProtocolKey, ""),
             if ClientInfoKey in o then ReadClient(o[ClientInfoKey]) else None,
             if ServerInfoKey in o then ReadServer(o[ServerInfoKey]) else None,
             StringsAt(o, CapabilitiesKey))
  }

  function ReadError(o: Object): MessageError {
    MessageError(StrOr(o, CodeKey, ""), StrOr(o, MessageKey, ""), StrOr(o, DetailsKey, ""), StrOr(o, TypeKey, ""),
                 BoolAt(o, RecoverableKey), StringsAt(o, SuggestionsKey))
  }

  /** What makes a JSON object unreadable, in the order of the checks. */
  function Defect(o: Object): Option<Failure> {
    if TypeKey !in o then Some(MissingType)
    else if !o[TypeKey].JStr? then Some(TypeNotString)
    else if MetadataKey in o && !o[MetadataKey].JObj? then Some(MetadataNotObject)
    else if ErrorKey in o && !o[ErrorKey].JObj? then Some(ErrorNotObject)
    else None
  }

  /** The message an object without defects is read as; `freshId` and `now` are used if needed. */
  function ReadMessage(o: Object, freshId: string, now: int): Message {
    Message(StrOr(o, VersionKey, GSTREAMER), StrOr(o, TypeKey, ""), StrOr(o, IdKey, freshId),
            IntOr(o, TimestampKey, now), StrOr(o, PeerIdKey, ""),
            if DataKey in o then o[DataKey] else JNull, MetadataOf(o), ErrorOf(o))
  }

  function MetadataOf(o: Object): Option<Metadata> {
    if MetadataKey in o && o[MetadataKey].JObj? then Some(ReadMetadata(o[MetadataKey].fields)) else None
  }

  function ErrorOf(o: Object): Option<MessageError> {
    if ErrorKey in o && o[ErrorKey].JObj? then Some(ReadError(o[ErrorKey].fields)) else None
  }

  /** Unmarshalling into a map: `null` leaves the map nil, which reads as empty. */
  function RawObject(c: Content): Result<Object> {
    match c
    case Encoded(JObj(o)) => Ok(o)
    case Encoded(JNull) => Ok(map[])
    case _ => Err(NotJson)
  }

  function Read(c: Content, freshId: string, now: int): Result<Message> {
    match RawObject(c)
    case Err(f) => Err(f)
    case Ok(o) => if Defect(o).Some? then Err(Defect(o).value) else Ok(ReadMessage(o, freshId, now))
  }

  function Parsed(d: Document, maxSize: int, freshId: string, now: int): Result<Message> {
    if d.length == 0 then Err(EmptyData)
    else if d.length > maxSize then Err(TooLarge)
    else Read(d.content, freshId, now)
  }

  /** Texts are refused for their length first. */
  lemma LengthRefusals(d: Document, maxSize: int, freshId: string, now: int)
    ensures d.length == 0 ==> Parsed(d, maxSize, freshId, now) == Err(EmptyData)
    ensures d.length > maxSize && d.length > 0 ==> Parsed(d, maxSize, freshId, now) == Err(TooLarge)
    ensures 0 < d.length <= maxSize ==> Parsed(d, maxSize, freshId, now) == Read(d.content, freshId, now)
  {}

  /** Optional members are printed exactly if there is something to print. */
  lemma OptionalMembers(m: Message)
    ensures var o := MessageTree(m);
            && (PeerIdKey in o <==> m.peerID != "") && (DataKey in o <==> m.data != JNull)
            && (MetadataKey in o <==> m.metadata.Some?) && (ErrorKey in o <==> m.error.Some?)
            && VersionKey in o && TypeKey in o && IdKey in o && TimestampKey in o
  {}

  lemma OptionalClientMembers(c: ClientInfo)
    ensures var o := ClientTree(c);
            && (UserAgentKey in o <==> c.userAgent != "") && (PlatformKey in o <==> c.platform != "")
            && (VersionKey in o <==> c.version != "") && (CapabilitiesKey in o <==> c.capabilities != [])
  {}

  lemma OptionalServerMembers(s: ServerInfo)
    ensures var o := ServerTree(s);
            && (VersionKey in o <==> s.version != "") && (CapabilitiesKey in o <==> s.capabilities != [])
            && (TimestampKey in o <==> s.timestamp > 0)
  {}

  lemma OptionalMetadataMembers(m: Metadata)
    ensures var o := MetadataTree(m);
            && ProtocolKey in o && (CapabilitiesKey in o <==> m.capabilities != [])
            && (ClientInfoKey in o <==> m.client.Some? && ClientTree(m.client.value) != map[])
            && (ServerInfoKey in o <==> m.server.Some? && ServerTree(m.server.value) != map[])
  {}

  lemma OptionalErrorMembers(e: MessageError)
    ensures var o := ErrorTree(e);
            && CodeKey in o && MessageKey in o && RecoverableKey in o
            && (DetailsKey in o <==> e.details != "") && (TypeKey in o <==> e.kind != "")
            && (SuggestionsKey in o <==> e.suggestions != [])
  {}

  /** Parts of the metadata that are missing or not objects are left out. */
  lemma MetadataDefaults(o: Object)
    ensures var m := ReadMetadata(o);
            && (m.client.Some? <==> ClientInfoKey in o && o[ClientInfoKey].JObj?)
            && (m.server.Some? <==> ServerInfoKey in o && o[ServerInfoKey].JObj?)
            && (m.server.Some? && TimestampKey !in o[ServerInfoKey].fields ==> m.server.value.timestamp == 0)
            && (!IsText(o, ProtocolKey) ==> m.protocol == "")
  {}

  /** `length` gives the number of bytes a content is printed in. */
  function Formatted(m: Message, maxSize: int, length: Content -> nat): Result<Document> {
    var tree := JObj(MessageTree(m));
    var size := length(Encoded(tree));
    if size > maxSize then Err(TooLarge) else Ok(Document(size, Encoded(Wire(tree))))
  }

  /** A member is usable if it is there and of the right type. */
  predicate IsText(o: Object, k: Key) {
    k in o && o[k].JStr?
  }

  /** What stands in for basic members that are missing or of the wrong type. */
  lemma Defaults(o: Object, freshId: string, now: int)
    ensures var m := ReadMessage(o, freshId, now);
            && (if IsText(o, VersionKey) then o[VersionKey] == JStr(m.version) else m.version == "1.0")
            && (if IsText(o, IdKey) then o[IdKey] == JStr(m.id) else m.id == freshId)
            && (if IsText(o, PeerIdKey) then o[PeerIdKey] == JStr(m.peerID) else m.peerID == "")
            && (if TimestampKey !in o || (!o[TimestampKey].JNum? && !o[TimestampKey].JInt?) then m.timestamp == now
                else o[TimestampKey].JInt? ==> m.timestamp == o[TimestampKey].int64)
            && (if DataKey in o then m.data == o[DataKey] else m.data == JNull)
            && (MetadataKey !in o ==> m.metadata == None) && (ErrorKey !in o ==> m.error == None)
  {}

  /** A number is read as the integer it is nearest to on the side of zero, if that is an int64. */
  lemma NumberIsTruncated(o: Object, freshId: string, now: int)
    requires TimestampKey in o && o[TimestampKey].JNum?
    ensures var m, r := ReadMessage(o, freshId, now), o[TimestampKey].float64;
            if -9223372036854775809.0 < r < 9223372036854775808.0
            then -1.0 < r - m.timestamp as real < 1.0 && (r >= 0.0 ==> m.timestamp as real <= r) && (r <= 0.0 ==> m.timestamp as real >= r)
            else m.timestamp == -0x8000_0000_0000_0000
  {
    TruncateIs(o[TimestampKey].float64);
  }

  /** An object is refused exactly if its type is not a text, or its metadata or error is not an object. */
  lemma RefusedIff(o: Object, freshId: string, now: int)
    ensures Read(Encoded(JObj(o)), freshId, now).Err? <==>
            || !IsText(o, TypeKey)
            || (MetadataKey in o && !o[MetadataKey].JObj?) || (ErrorKey in o && !o[ErrorKey].JObj?)
    ensures Read(Encoded(JNull), freshId, now) == Err(MissingType)
    ensures forall c: Content :: c.Line? || (!c.tree.JObj? && !c.tree.JNull?) ==> Read(c, freshId, now) == Err(NotJson)
  {}

  // ------------------------------------------------------------------ the round trip

  function Normal(m: Message): Message {
    m.(data := Wire(m.data),
       metadata := if m.metadata.Some? then Some(NormalMetadata(m.metadata.value)) else None)
  }

  function NormalMetadata(m: Metadata): Metadata {
    m.(client := if m.client.Some? && !Blank(m.client.value) then Some(NormalClient(m.client.value)) else None,
       server := if m.server.Some? && !BlankServer(m.server.value) then Some(NormalServer(m.server.value)) else None)
  }

  function NormalClient(c: ClientInfo): ClientInfo {
    c.(screenResolution := "", devicePixelRatio := 0.0, language := "")
  }

  function NormalServer(s: ServerInfo): ServerInfo {
    s.(timestamp := if s.timestamp > 0 then s.timestamp else 0)
  }

  /** Nothing that is printed is set. */
  predicate Blank(c: ClientInfo) {
    c.userAgent == "" && c.platform == "" && c.version == "" && c.capabilities == []
  }

  predicate BlankServer(s: ServerInfo) {
    s.version == "" && s.capabilities == [] && s.timestamp <= 0
  }

  /** The same with every integer time rounded to a float64. */
  function Carried(m: Message): Message {
    m.(timestamp := Carry(m.timestamp),
       metadata := if m.metadata.Some? then Some(CarriedMetadata(m.metadata.value)) else None)
  }

  function CarriedMetadata(m: Metadata): Metadata {
    m.(server := if m.server.Some? then Some(CarriedServer(m.server.value)) else None)
  }

  function CarriedServer(s: ServerInfo): ServerInfo {
    s.(timestamp := Carry(s.timestamp))
  }

  predicate ServerTimeExact(m: Message) {
    m.metadata.Some? && m.metadata.value.server.Some? && m.metadata.value.server.value.timestamp > 0
    ==> Exact(m.metadata.value.server.value.timestamp)
  }

  /** Times are Go int64 values. */
  predicate TimesFit(m: Message) {
    && IsInt64(m.timestamp)
    && (m.metadata.Some? && m.metadata.value.server.Some? ==> IsInt64(m.metadata.value.server.value.timestamp))
  }

  /** Object `o` holds exactly the wired fields that are set. */
  predicate Holds(o: Object, k: Key, field: Option<Json>) {
    && (k in o <==> field.Some?)
    && (k in o ==> o[k] == Wire(field.value))
  }

  lemma ClientHolds(c: ClientInfo, k: Key)
    ensures Holds(Wire(JObj(ClientTree(c))).fields, k, ClientField(c, k))
  {}

  lemma ServerHolds(s: ServerInfo, k: Key)
    ensures Holds(Wire(JObj(ServerTree(s))).fields, k, ServerField(s, k))
  {}

  lemma MetadataHolds(m: Metadata, k: Key)
    ensures Holds(Wire(JObj(MetadataTree(m))).fields, k, MetadataField(m, k))
  {}

  lemma ErrorHolds(e: MessageError, k: Key)
    ensures Holds(Wire(JObj(ErrorTree(e))).fields, k, ErrorField(e, k))
  {}

  lemma MessageHolds(m: Message, k: Key)
    ensures Holds(Wire(JObj(MessageTree(m))).fields, k, MessageField(m, k))
  {}

  lemma ClientTrip(c: ClientInfo)
    ensures ReadClient(Wire(JObj(ClientTree(c)))) == Some(NormalClient(c))
  {
    forall k ensures Holds(Wire(JObj(ClientTree(c))).fields, k, ClientField(c, k)) { ClientHolds(c, k); }
    ReadClientBack(c, Wire(JObj(ClientTree(c))).fields);
  }

  lemma ReadClientBack(c: ClientInfo, o: Object)
    requires forall k :: Holds(o, k, ClientField(c, k))
    ensures ReadClient(JObj(o)) == Some(NormalClient(c))
  {
    StringsOfArray(c.capabilities);
    assert Holds(o, UserAgentKey, ClientField(c, UserAgentKey));
    assert Holds(o, PlatformKey, ClientField(c, PlatformKey));
    assert Holds(o, VersionKey, ClientField(c, VersionKey));
    assert Holds(o, CapabilitiesKey, ClientField(c, CapabilitiesKey));
  }

  lemma ServerTrip(s: ServerInfo)
    ensures ReadServer(Wire(JObj(ServerTree(s)))) == Some(CarriedServer(NormalServer(s)))
  {
    forall k ensures Holds(Wire(JObj(ServerTree(s))).fields, k, ServerField(s, k)) { ServerHolds(s, k); }
    ReadServerBack(s, Wire(JObj(ServerTree(s))).fields);
  }

  lemma ReadServerBack(s: ServerInfo, o: Object)
    requires forall k :: Holds(o, k, ServerField(s, k))
    ensures ReadServer(JObj(o)) == Some(CarriedServer(NormalServer(s)))
  {
    StringsOfArray(s.capabilities);
    assert Holds(o, VersionKey, ServerField(s, VersionKey));
    assert Holds(o, CapabilitiesKey, ServerField(s, CapabilitiesKey));
    assert Holds(o, TimestampKey, ServerField(s, TimestampKey));
    assert Carry(0) == 0;
  }

  lemma BlankTrees(c: ClientInfo, s: ServerInfo)
    ensures ClientTree(c) == map[] <==> Blank(c)
    ensures ServerTree(s) == map[] <==> BlankServer(s)
  {
    if !Blank(c) {
      var t := ClientTree(c);
      assert UserAgentKey in t || PlatformKey in t || VersionKey in t || CapabilitiesKey in t;
    }
    if !BlankServer(s) {
      var t := ServerTree(s);
      assert VersionKey in t || CapabilitiesKey in t || TimestampKey in t;
    }
  }

  /** A printed client or server object is read back; an absent one stays absent. */
  lemma PartsBack(m: Metadata)
    ensures var f := MetadataField(m, ClientInfoKey);
            NormalMetadata(m).client == if f.Some? then ReadClient(Wire(f.value)) else None
    ensures var f := MetadataField(m, ServerInfoKey);
            CarriedMetadata(NormalMetadata(m)).server == if f.Some? then ReadServer(Wire(f.value)) else None
  {
    BlankTrees(if m.client.Some? then m.client.value else NO_CLIENT, if m.server.Some? then m.server.value else NO_SERVER);
    if m.client.Some? {
      ClientTrip(m.client.value);
    }
    if m.server.Some? {
      ServerTrip(m.server.value);
    }
  }

  lemma MetadataTrip(m: Metadata)
    ensures ReadMetadata(Wire(JObj(MetadataTree(m))).fields) == CarriedMetadata(NormalMetadata(m))
  {
    forall k ensures Holds(Wire(JObj(MetadataTree(m))).fields, k, MetadataField(m, k)) { MetadataHolds(m, k); }
    ReadMetadataBack(m, Wire(JObj(MetadataTree(m))).fields);
  }

  lemma ReadMetadataBack(m: Metadata, o: Object)
    requires forall k :: Holds(o, k, MetadataField(m, k))
    ensures ReadMetadata(o) == CarriedMetadata(NormalMetadata(m))
  {
    StringsOfArray(m.capabilities);
    PartsBack(m);
    assert Holds(o, ProtocolKey, MetadataField(m, ProtocolKey));
    assert Holds(o, ClientInfoKey, MetadataField(m, ClientInfoKey));
    assert Holds(o, ServerInfoKey, MetadataField(m, ServerInfoKey));
    assert Holds(o, CapabilitiesKey, MetadataField(m, CapabilitiesKey));
  }

  lemma ErrorTrip(e: MessageError)
    ensures ReadError(Wire(JObj(ErrorTree(e))).fields) == e
  {
    forall k ensures Holds(Wire(JObj(ErrorTree(e))).fields, k, ErrorField(e, k)) { ErrorHolds(e, k); }
    ReadErrorBack(e, Wire(JObj(ErrorTree(e))).fields);
  }

  lemma ReadErrorBack(e: MessageError, o: Object)
    requires forall k :: Holds(o, k, ErrorField(e, k))
    ensures ReadError(o) == e
  {
    StringsOfArray(e.suggestions);
    assert Holds(o, CodeKey, ErrorField(e, CodeKey));
    assert Holds(o, MessageKey, ErrorField(e, MessageKey));
    assert Holds(o, DetailsKey, ErrorField(e, DetailsKey));
    assert Holds(o, TypeKey, ErrorField(e, TypeKey));
    assert Holds(o, RecoverableKey, ErrorField(e, RecoverableKey));
    assert Holds(o, SuggestionsKey, ErrorField(e, SuggestionsKey));
  }

  /** Reading back what was printed gives the normal form, with rounded times; it never fails. */
  lemma RoundTrip(m: Message, freshId: string, now: int)
    ensures Read(Encoded(Wire(JObj(MessageTree(m)))), freshId, now) == Ok(Carried(Normal(m)))
  {
    forall k ensures Holds(Wire(JObj(MessageTree(m))).fields, k, MessageField(m, k)) { MessageHolds(m, k); }
    ReadBack(m, Wire(JObj(MessageTree(m))).fields, freshId, now);
  }

  lemma ReadBack(m: Message, o: Object, freshId: string, now: int)
    requires forall k :: Holds(o, k, MessageField(m, k))
    ensures Defect(o) == None
    ensures ReadMessage(o, freshId, now) == Carried(Normal(m))
  {
    BasicsBack(m, o, freshId, now);
    assert Holds(o, MetadataKey, MessageField(m, MetadataKey));
    assert Holds(o, ErrorKey, MessageField(m, ErrorKey));
    MetadataBack(m.metadata, o);
    ErrorBack(m.error, o);
  }

  lemma BasicsBack(m: Message, o: Object, freshId: string, now: int)
    requires forall k :: Holds(o, k, MessageField(m, k))
    ensures TypeKey in o && o[TypeKey].JStr?
    ensures ReadMessage(o, freshId, now) ==
            Message(m.version, m.kind, m.id, Carry(m.timestamp), m.peerID, Wire(m.data), MetadataOf(o), ErrorOf(o))
  {
    assert Holds(o, VersionKey, MessageField(m, VersionKey));
    assert Holds(o, TypeKey, MessageField(m, TypeKey));
    assert Holds(o, IdKey, MessageField(m, IdKey));
    assert Holds(o, TimestampKey, MessageField(m, TimestampKey));
    assert Holds(o, PeerIdKey, MessageField(m, PeerIdKey));
    assert Holds(o, DataKey, MessageField(m, DataKey));
  }

  lemma MetadataBack(md: Option<Metadata>, o: Object)
    requires Holds(o, MetadataKey, if md.Some? then Some(JObj(MetadataTree(md.value))) else None)
    ensures MetadataKey in o ==> o[MetadataKey].JObj?
    ensures MetadataOf(o) == if md.Some? then Some(CarriedMetadata(NormalMetadata(md.value))) else None
  {
    if md.Some? {
      WireMember(MetadataTree(md.value), ProtocolKey);
      MetadataTrip(md.value);
    }
  }

  lemma ErrorBack(e: Option<MessageError>, o: Object)
    requires Holds(o, ErrorKey, if e.Some? then Some(JObj(ErrorTree(e.value))) else None)
    ensures ErrorKey in o ==> o[ErrorKey].JObj?
    ensures ErrorOf(o) == e
  {
    if e.Some? {
      WireMember(ErrorTree(e.value), CodeKey);
      ErrorTrip(e.value);
    }
  }

  // ------------------------------------------------------------------ what the trip loses

  /** The whole trip: printed, sent, and read by the same adapter. */
  function Trip(m: Message): Message {
    Carried(Normal(m))
  }

  lemma FormatThenParse(m: Message, maxSize: int, length: Content -> nat, freshId: string, now: int)
    requires length(Encoded(JObj(MessageTree(m)))) > 0
    ensures var sent := Formatted(m, maxSize, length);
            sent.Ok? ==> Parsed(sent.value, maxSize, freshId, now) == Ok(Trip(m))
  {
    RoundTrip(m, freshId, now);
  }

  /** Only the normal form is lost exactly when the printed times are float64 values. */
  lemma TripIsNormalIff(m: Message)
    requires TimesFit(m)
    ensures Trip(m) == Normal(m) <==> Exact(m.timestamp) && ServerTimeExact(Normal(m))
  {
    CarryExact(m.timestamp);
    assert Carry(0) == 0;
    var n := Normal(m);
    if n.metadata.Some? && n.metadata.value.server.Some? {
      CarryExact(n.metadata.value.server.value.timestamp);
      assert Exact(0);
    }
  }

  /** Times within 2^53 are always read back. */
  lemma TripWithin53(m: Message)
    requires -TWO_53 <= m.timestamp <= TWO_53
    requires m.metadata.Some? && m.metadata.value.server.Some? ==>
               m.metadata.value.server.value.timestamp <= TWO_53 && IsInt64(m.metadata.value.server.value.timestamp)
    ensures Trip(m) == Normal(m)
  {
    ExactUpTo53(m.timestamp);
    if m.metadata.Some? && m.metadata.value.server.Some? && m.metadata.value.server.value.timestamp > 0 {
      ExactUpTo53(m.metadata.value.server.value.timestamp);
    }
    TripIsNormalIff(m);
  }

  lemma NormalTwice(m: Message)
    ensures Normal(Normal(m)) == Normal(m)
  {
    WireTwice(m.data);
  }

  /** A message and its normal form are read as the same tree. */
  lemma NormalReadsAlike(m: Message)
    ensures Wire(JObj(MessageTree(Normal(m)))) == Wire(JObj(MessageTree(m)))
  {
    var n := Normal(m);
    var a, b := Wire(JObj(MessageTree(m))).fields, Wire(JObj(MessageTree(n))).fields;
    forall k ensures (k in a <==> k in b) && (k in a ==> a[k] == b[k]) {
      MessageHolds(m, k);
      MessageHolds(n, k);
      WireTwice(m.data);
      if k == DataKey {
        WireNull(m.data);
      }
      if m.metadata.Some? {
        MetadataPrintsAlike(m.metadata.value);
      }
    }
  }

  /**
   They are printed as the same tree up to the data, and altogether exactly if the data is a tree
   that could have been read: an integer above 2^53 in it has a text of its own.
   */
  lemma NormalPrintsAlikeIff(m: Message)
    ensures MessageTree(Normal(m).(data := m.data)) == MessageTree(m)
    ensures MessageTree(Normal(m)) == MessageTree(m) <==> Wire(m.data) == m.data
  {
    var n := Normal(m);
    if m.metadata.Some? {
      MetadataPrintsAlike(m.metadata.value);
    }
    SameButData(n.(data := m.data), m);
    WireNull(m.data);
    DataMember(n);
    DataMember(m);
    if Wire(m.data) == m.data {
      assert n == n.(data := m.data);
    }
  }

  lemma SameButData(a: Message, b: Message)
    requires a.metadata.Some? == b.metadata.Some? && a == b.(metadata := a.metadata)
    requires a.metadata.Some? ==> MetadataTree(a.metadata.value) == MetadataTree(b.metadata.value)
    ensures MessageTree(a) == MessageTree(b)
  {
    assert forall k :: MessageField(a, k) == MessageField(b, k);
  }

  lemma DataMember(m: Message)
    ensures DataKey in MessageTree(m) <==> m.data != JNull
    ensures m.data != JNull ==> MessageTree(m)[DataKey] == m.data
  {}

  lemma WireNull(v: Json)
    ensures Wire(v) == JNull <==> v == JNull
  {}

  lemma MetadataPrintsAlike(m: Metadata)
    ensures MetadataTree(NormalMetadata(m)) == MetadataTree(m)
  {
    var n := NormalMetadata(m);
    BlankTrees(if m.client.Some? then m.client.value else NO_CLIENT, if m.server.Some? then m.server.value else NO_SERVER);
    if m.client.Some? {
      ClientPrintsAlike(m.client.value);
    }
    if m.server.Some? {
      ServerPrintsAlike(m.server.value);
    }
    assert MetadataField(n, ClientInfoKey) == MetadataField(m, ClientInfoKey);
    assert MetadataField(n, ServerInfoKey) == MetadataField(m, ServerInfoKey);
  }

  lemma ClientPrintsAlike(c: ClientInfo)
    ensures ClientTree(NormalClient(c)) == ClientTree(c)
  {
    assert forall k :: ClientField(NormalClient(c), k) == ClientField(c, k);
  }

  lemma ServerPrintsAlike(s: ServerInfo)
    ensures ServerTree(NormalServer(s)) == ServerTree(s)
  {
    assert forall k :: ServerField(NormalServer(s), k) == ServerField(s, k);
  }

  /** The times that are printed are int64 values and float64 values at once. */
  predicate TimesExact(m: Message) {
    TimesFit(m) && Exact(m.timestamp) && ServerTimeExact(Normal(m))
  }

  /** Two messages with exact times are read as the same tree exactly when their normal forms are equal. */
  lemma SameOnTheWireIff(a: Message, b: Message)
    requires TimesExact(a) && TimesExact(b)
    ensures Wire(JObj(MessageTree(a))) == Wire(JObj(MessageTree(b))) <==> Normal(a) == Normal(b)
  {
    TripIsNormalIff(a);
    TripIsNormalIff(b);
    SameTripOnTheWire(a, b);
  }

  lemma SameTripOnTheWire(a: Message, b: Message)
    requires Trip(a) == Normal(a) && Trip(b) == Normal(b)
    ensures Wire(JObj(MessageTree(a))) == Wire(JObj(MessageTree(b))) <==> Normal(a) == Normal(b)
  {
    RoundTrip(a, "", 0);
    RoundTrip(b, "", 0);
    NormalReadsAlike(a);
    NormalReadsAlike(b);
  }

  /** A second trip changes nothing, unless rounding pushed a server time out of the int64 range. */
  lemma TripTwice(m: Message)
    requires TimesFit(m)
    ensures Trip(Trip(m)) == Trip(m) <==> !ServerTimeOverflows(m)
  {
    WireTwice(m.data);
    CarryTwice(m.timestamp);
    if m.metadata.Some? && m.metadata.value.server.Some? {
      ServerTripTwice(m.metadata.value.server.value);
    }
  }

  predicate ServerTimeOverflows(m: Message) {
    m.metadata.Some? && m.metadata.value.server.Some? && Nearest(m.metadata.value.server.value.timestamp) >= TWO_63
  }

  lemma ServerTripTwice(s: ServerInfo)
    requires IsInt64(s.timestamp)
    ensures var t := CarriedServer(NormalServer(s));
            && (Nearest(s.timestamp) < TWO_63 && !BlankServer(s) ==>
                  !BlankServer(t) && CarriedServer(NormalServer(t)) == t)
            && (Nearest(s.timestamp) >= TWO_63 ==> t.timestamp == -TWO_63 && s.timestamp > 0)
  {
    CarryTwice(s.timestamp);
    NearestPositive(s.timestamp);
    assert Carry(0) == 0;
  }

  lemma NearestPositive(n: int)
    ensures n > 0 <==> Nearest(n) > 0
  {
    if n > 0 {
      RoundPositive(n);
    }
  }

  lemma RoundPositive(a: nat)
    requires a > 0
    ensures RoundTo(a, Ulp(a)) > 0
  {
    if a >= TWO_53 {
      UlpBounds(a);
      RoundClose(a, Ulp(a));
    }
  }

  // ------------------------------------------------------------------ trees in the order of printing

  function Put(o: Object, k: Key, field: Option<Json>): Object {
    if field.Some? then o[k := field.value] else o
  }

  lemma MetadataInOrder(m: Metadata)
    ensures MetadataTree(m) ==
            Put(Put(Put(map[ProtocolKey := JStr(m.protocol)], ClientInfoKey, MetadataField(m, ClientInfoKey)),
                    ServerInfoKey, MetadataField(m, ServerInfoKey)),
                CapabilitiesKey, List(m.capabilities))
  {}

  function BasicTree(m: Message): Object {
    Put(Put(map[VersionKey := JStr(m.version), TypeKey := JStr(m.kind), IdKey := JStr(m.id),
                TimestampKey := JInt(m.timestamp)],
            PeerIdKey, Text(m.peerID)),
        DataKey, MessageField(m, DataKey))
  }

  lemma MessageInOrder(m: Message)
    ensures MessageTree(m) ==
            Put(Put(BasicTree(m), MetadataKey, MessageField(m, MetadataKey)), ErrorKey, MessageField(m, ErrorKey))
  {}

  // ------------------------------------------------------------------ the adapter

  class Adapter {
    const maxMessageSize: int

    constructor (maxMessageSize: int)
      ensures this.maxMessageSize == maxMessageSize
    {
      this.maxMessageSize := maxMessageSize;
    }

    method FormatClient(c: ClientInfo) returns (clientInfo: Object)
      ensures clientInfo == ClientTree(c)
    {
      clientInfo := map[];
      if c.userAgent != "" {
        clientInfo := clientInfo[UserAgentKey := JStr(c.userAgent)];
      }
      if c.platform != "" {
        clientInfo := clientInfo[PlatformKey := JStr(c.platform)];
      }
      if c.version != "" {
        clientInfo := clientInfo[VersionKey := JStr(c.version)];
      }
      if |c.capabilities| > 0 {
        clientInfo := clientInfo[CapabilitiesKey := Array(c.capabilities)];
      }
    }

    method FormatServer(s: ServerInfo) returns (serverInfo: Object)
      ensures serverInfo == ServerTree(s)
    {
      serverInfo := map[];
      if s.version != "" {
        serverInfo := serverInfo[VersionKey := JStr(s.version)];
      }
      if |s.capabilities| > 0 {
        serverInfo := serverInfo[CapabilitiesKey := Array(s.capabilities)];
      }
      if s.timestamp > 0 {
        serverInfo := serverInfo[TimestampKey := JInt(s.timestamp)];
      }
    }

    method FormatMetadata(m: Metadata) returns (metadata: Object)
      ensures metadata == MetadataTree(m)
    {
      metadata := map[ProtocolKey := JStr(m.protocol)];
      if m.client.Some? {
        var clientInfo := FormatClient(m.client.value);
        if |clientInfo| > 0 {
          metadata := metadata[ClientInfoKey := JObj(clientInfo)];
        }
      }
      assert metadata == Put(map[ProtocolKey := JStr(m.protocol)], ClientInfoKey, MetadataField(m, ClientInfoKey));
      ghost var before := metadata;
      if m.server.Some? {
        var serverInfo := FormatServer(m.server.value);
        if |serverInfo| > 0 {
          metadata := metadata[ServerInfoKey := JObj(serverInfo)];
        }
      }
      assert metadata == Put(before, ServerInfoKey, MetadataField(m, ServerInfoKey));
      if |m.capabilities| > 0 {
        metadata := metadata[CapabilitiesKey := Array(m.capabilities)];
      }
      MetadataInOrder(m);
    }

    method FormatError(e: MessageError) returns (errorInfo: Object)
      ensures errorInfo == ErrorTree(e)
    {
      errorInfo := map[CodeKey := JStr(e.code), MessageKey := JStr(e.message)];
      if e.details != "" {
        errorInfo := errorInfo[DetailsKey := JStr(e.details)];
      }
      if e.kind != "" {
        errorInfo := errorInfo[TypeKey := JStr(e.kind)];
      }
      errorInfo := errorInfo[RecoverableKey := JBool(e.recoverable)];
      if |e.suggestions| > 0 {
        errorInfo := errorInfo[SuggestionsKey := Array(e.suggestions)];
      }
    }

    method FormatBasicFields(msg: StandardMessage) returns (output: Object)
      ensures output == BasicTree(msg.Value())
    {
      output := map[VersionKey := JStr(msg.version), TypeKey := JStr(msg.kind), IdKey := JStr(msg.id),
                    TimestampKey := JInt(msg.timestamp)];
      if msg.peerID != "" {
        output := output[PeerIdKey := JStr(msg.peerID)];
      }
      if msg.data != JNull {
        output := output[DataKey := msg.data];
      }
    }

    method FormatMessage(msg: StandardMessage?, length: Content -> nat) returns (r: Result<Document>)
      ensures r == if msg == null then Err(NilMessage) else Formatted(msg.Value(), maxMessageSize, length)
    {
      if msg == null {
        return Err(NilMessage);
      }
      ghost var m := msg.Value();
      var output := FormatBasicFields(msg);
      if msg.metadata.Some? {
        var metadata := FormatMetadata(msg.metadata.value);
        assert |metadata| > 0 by { assert ProtocolKey in metadata; }
        if |metadata| > 0 {
          output := output[MetadataKey := JObj(metadata)];
        }
      }
      if msg.error.Some? {
        var errorInfo := FormatError(msg.error.value);
        output := output[ErrorKey := JObj(errorInfo)];
      }
      MessageInOrder(m);
      assert output == MessageTree(m);
      if length(Encoded(JObj(output))) > maxMessageSize {
        return Err(TooLarge);
      }
      r := Ok(Document(length(Encoded(JObj(output))), Encoded(Wire(JObj(output)))));
    }

    /** The strings of an array member, appended one by one. */
    method ReadStrings(o: Object, k: Key) returns (xs: seq<string>)
      ensures xs == StringsAt(o, k)
    {
      xs := [];
      if k in o && o[k].JArr? {
        var items := o[k].items;
        var i := 0;
        while i < |items|
          invariant 0 <= i <= |items|
          invariant xs == Strings(items[..i])
        {
          assert items[..i + 1][..i] == items[..i];
          if items[i].JStr? {
            xs := xs + [items[i].text];
          }
          i := i + 1;
        }
        assert items[..i] == items;
      }
    }

    method ParseBasicFields(raw: Object, msg: StandardMessage, freshId: string, now: int) returns (err: Option<Failure>)
      requires msg.peerID == ""
      modifies msg`version, msg`kind, msg`id, msg`timestamp, msg`peerID
      ensures TypeKey !in raw ==> err == Some(MissingType)
      ensures TypeKey in raw && !raw[TypeKey].JStr? ==> err == Some(TypeNotString)
      ensures TypeKey in raw && raw[TypeKey].JStr? ==>
                && err == None
                && msg.Value() == ReadMessage(raw, freshId, now).(data := msg.data, metadata := msg.metadata, error := msg.error)
    {
      msg.version := GSTREAMER;
      if VersionKey in raw && raw[VersionKey].JStr? {
        msg.version := raw[VersionKey].text;
      }
      if TypeKey !in raw {
        return Some(MissingType);
      }
      if !raw[TypeKey].JStr? {
        return Some(TypeNotString);
      }
      msg.kind := raw[TypeKey].text;
      msg.id := freshId;
      if IdKey in raw && raw[IdKey].JStr? {
        msg.id := raw[IdKey].text;
      }
      msg.timestamp := now;
      if TimestampKey in raw {
        match raw[TimestampKey]
        case JNum(ts) => msg.timestamp := Int64OfFloat(ts);
        case JInt(ts) => msg.timestamp := ts;
        case _ =>
      }
      if PeerIdKey in raw && raw[PeerIdKey].JStr? {
        msg.peerID := raw[PeerIdKey].text;
      }
      err := None;
    }

    method ParseClient(v: Json) returns (client: Option<ClientInfo>)
      ensures client == ReadClient(v)
    {
      if !v.JObj? {
        return None;
      }
      var c, o := NO_CLIENT, v.fields;
      if UserAgentKey in o && o[UserAgentKey].JStr? {
        c := c.(userAgent := o[UserAgentKey].text);
      }
      if PlatformKey in o && o[PlatformKey].JStr? {
        c := c.(platform := o[PlatformKey].text);
      }
      if VersionKey in o && o[VersionKey].JStr? {
        c := c.(version := o[VersionKey].text);
      }
      var capabilities := ReadStrings(o, CapabilitiesKey);
      client := Some(c.(capabilities := capabilities));
    }

    method ParseServer(v: Json) returns (server: Option<ServerInfo>)
      ensures server == ReadServer(v)
    {
      if !v.JObj? {
        return None;
      }
      var s, o := NO_SERVER, v.fields;
      if VersionKey in o && o[VersionKey].JStr? {
        s := s.(version := o[VersionKey].text);
      }
      var capabilities := ReadStrings(o, CapabilitiesKey);
      s := s.(capabilities := capabilities);
      if TimestampKey in o {
        match o[TimestampKey]
        case JNum(ts) => s := s.(timestamp := Int64OfFloat(ts));
        case JInt(ts) => s := s.(timestamp := ts);
        case _ =>
      }
      server := Some(s);
    }

    method ParseMetadata(raw: Object, msg: StandardMessage) returns (err: Option<Failure>)
      requires msg.metadata == None
      modifies msg`metadata
      ensures err == if MetadataKey in raw && !raw[MetadataKey].JObj? then Some(MetadataNotObject) else None
      ensures msg.metadata == MetadataOf(raw)
    {
      if MetadataKey !in raw {
        return None;
      }
      if !raw[MetadataKey].JObj? {
        return Some(MetadataNotObject);
      }
      var m, o := NO_METADATA, raw[MetadataKey].fields;
      if ProtocolKey in o && o[ProtocolKey].JStr? {
        m := m.(protocol := o[ProtocolKey].text);
      }
      if ClientInfoKey in o {
        var client := ParseClient(o[ClientInfoKey]);
        m := m.(client := client);
      }
      if ServerInfoKey in o {
        var server := ParseServer(o[ServerInfoKey]);
        m := m.(server := server);
      }
      var capabilities := ReadStrings(o, CapabilitiesKey);
      msg.metadata := Some(m.(capabilities := capabilities));
      err := None;
    }

    method ParseError(raw: Object, msg: StandardMessage) returns (err: Option<Failure>)
      requires msg.error == None
      modifies msg`error
      ensures err == if ErrorKey in raw && !raw[ErrorKey].JObj? then Some(ErrorNotObject) else None
      ensures msg.error == ErrorOf(raw)
    {
      if ErrorKey !in raw {
        return None;
      }
      if !raw[ErrorKey].JObj? {
        return Some(ErrorNotObject);
      }
      var e, o := NO_ERROR, raw[ErrorKey].fields;
      if CodeKey in o && o[CodeKey].JStr? {
        e := e.(code := o[CodeKey].text);
      }
      if MessageKey in o && o[MessageKey].JStr? {
        e := e.(message := o[MessageKey].text);
      }
      if DetailsKey in o && o[DetailsKey].JStr? {
        e := e.(details := o[DetailsKey].text);
      }
      if TypeKey in o && o[TypeKey].JStr? {
        e := e.(kind := o[TypeKey].text);
      }
      if RecoverableKey in o && o[RecoverableKey].JBool? {
        e := e.(recoverable := o[RecoverableKey].bit);
      }
      var suggestions := ReadStrings(o, SuggestionsKey);
      msg.error := Some(e.(suggestions := suggestions));
      err := None;
    }

    method ParseMessage(d: Document, freshId: string, now: int) returns (err: Option<Failure>, msg: StandardMessage?)
      ensures var r := Parsed(d, maxMessageSize, freshId, now);
              match r
              case Ok(m) => err == None && msg != null && fresh(msg) && msg.Value() == m
              case Err(f) => err == Some(f) && msg == null
    {
      if d.length == 0 {
        return Some(EmptyData), null;
      }
      if d.length > maxMessageSize {
        return Some(TooLarge), null;
      }
      var raw: Object := map[];
      match d.content {
        case Encoded(JObj(o)) => raw := o;
        case Encoded(JNull) =>
        case _ => return Some(NotJson), null;
      }
      var draft := new StandardMessage();
      err := ParseBasicFields(raw, draft, freshId, now);
      if err.Some? {
        return err, null;
      }
      if DataKey in raw {
        draft.data := raw[DataKey];
      }
      err := ParseMetadata(raw, draft);
      if err.Some? {
        return err, null;
      }
      err := ParseError(raw, draft);
      if err.Some? {
        return err, null;
      }
      msg := draft;
    }
  }
}
