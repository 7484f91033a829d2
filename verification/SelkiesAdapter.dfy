/**
 The Selkies protocol: text lines for hello and error, one-member objects for SDP and ICE, and a
 type/data object, named through a mapping, for the rest. Data is decoded into Go structs, so a
 member of the wrong type is an error, and a member that is absent or null is the zero value.
 */
module SelkiesAdapter {
  import opened Basics
  import opened GoInts
  import opened JsonTree
  import opened StandardMessages

  // ------------------------------------------------------------------ typed data

  datatype Sdp = Sdp(kind: string, text: string)

  datatype Candidate = Candidate(text: string, mid: Option<string>, line: Option<int>, fragment: Option<string>)

  /** The member, with `null` read as absent. */
  function Member(o: Object, k: Key): Json {
    if k in o then o[k] else JNull
  }

  predicate StringOrNull(v: Json) {
    v.JNull? || v.JStr?
  }

  function StringOf(v: Json): string {
    if v.JStr? then v.text else ""
  }

  function OptionOf(v: Json): Option<string> {
    if v.JStr? then Some(v.text) else None
  }

  /** A number that prints as an integer and fits Go's int. */
  predicate IntOrNull(v: Json) {
    match v
    case JNull => true
    case JInt(n) => IsInt64(n)
    case JNum(r) => r == r.Floor as real && IsInt64(r.Floor)
    case _ => false
  }

  function IntOf(v: Json): Option<int> {
    match v
    case JInt(n) => Some(n)
    case JNum(r) => Some(r.Floor)
    case _ => None
  }

  predicate ServerOk(v: Json) {
    v.JNull? ||
    (v.JObj? && StringOrNull(Member(v.fields, UsernameKey)) && StringOrNull(Member(v.fields, CredentialKey)) &&
     var urls := Member(v.fields, UrlsKey);
     urls.JNull? || (urls.JArr? && forall i :: 0 <= i < |urls.items| ==> StringOrNull(urls.items[i])))
  }

  predicate ServersOk(v: Json) {
    v.JNull? || (v.JArr? && forall i :: 0 <= i < |v.items| ==> ServerOk(v.items[i]))
  }

  /** An ICE server as Go's struct holds it. */
  datatype IceServer = IceServer(urls: seq<string>, username: string, credential: string)

  function ServerObject(v: IceServer): Json {
    JObj(map[UrlsKey := Array(v.urls), UsernameKey := JStr(v.username), CredentialKey := JStr(v.credential)])
  }

  /** Every list of servers that the struct can hold is accepted. */
  lemma TypedServersOk(vs: seq<IceServer>)
    ensures ServersOk(JArr(seq(|vs|, i requires 0 <= i < |vs| => ServerObject(vs[i]))))
  {}

  predicate NotText(o: Object, k: Key) {
    k in o && o[k] != JNull && !o[k].JStr?
  }

  /** The struct decoder reports this server. */
  predicate IllTyped(v: Json) {
    match v
    case JNull => false
    case JObj(o) =>
      || NotText(o, UsernameKey) || NotText(o, CredentialKey)
      || (UrlsKey in o && o[UrlsKey] != JNull &&
          (!o[UrlsKey].JArr? || exists i :: 0 <= i < |o[UrlsKey].items| && !StringOrNull(o[UrlsKey].items[i])))
    case _ => true
  }

  /** A list is refused exactly for a server that is not an object or has a member of the wrong type. */
  lemma ServersRefusedIff(items: seq<Json>)
    ensures !ServersOk(JArr(items)) <==> exists i :: 0 <= i < |items| && IllTyped(items[i])
  {
    forall i | 0 <= i < |items| ensures ServerOk(items[i]) <==> !IllTyped(items[i]) {}
  }

  /** Decoding into SDPData; no Sdp when its pointer stays nil. */
  function DecodeSdp(data: Json): Result<Option<Sdp>> {
    if !data.JObj? || !ServersOk(Member(data.fields, IceServersKey)) then Err(InvalidData)
    else
      match Member(data.fields, SdpKey)
      case JNull => Ok(None)
      case JObj(o) =>
        if StringOrNull(Member(o, TypeKey)) && StringOrNull(Member(o, SdpKey))
        then Ok(Some(Sdp(StringOf(Member(o, TypeKey)), StringOf(Member(o, SdpKey)))))
        else Err(InvalidData)
      case _ => Err(InvalidData)
  }

  /** Decoding into ICECandidateData. */
  function DecodeCandidate(data: Json): Result<Option<Candidate>> {
    if !data.JObj? then Err(InvalidData)
    else
      match Member(data.fields, CandidateKey)
      case JNull => Ok(None)
      case JObj(o) =>
        if StringOrNull(Member(o, CandidateKey)) && StringOrNull(Member(o, SdpMidKey))
           && IntOrNull(Member(o, SdpMLineIndexKey)) && StringOrNull(Member(o, UsernameFragmentKey))
        then Ok(Some(Candidate(StringOf(Member(o, CandidateKey)), OptionOf(Member(o, SdpMidKey)),
                               IntOf(Member(o, SdpMLineIndexKey)), OptionOf(Member(o, UsernameFragmentKey)))))
        else Err(InvalidData)
      case _ => Err(InvalidData)
  }

  /** A number decodes into a Go int exactly if it is an integer that fits one, and then into that integer. */
  lemma NumberDecodesIff(r: real)
    ensures IntOrNull(JNum(r)) <==> exists n :: IsInt64(n) && n as real == r
    ensures IntOrNull(JNum(r)) ==> IntOf(JNum(r)).Some? && IntOf(JNum(r)).value as real == r
  {
    if n :| IsInt64(n) && n as real == r {
      assert r.Floor == n;
    }
    if IntOrNull(JNum(r)) {
      assert IsInt64(r.Floor) && r.Floor as real == r;
    }
  }

  /** How data decodes: a wrong type anywhere is an error, and a missing or null member leaves nothing. */
  lemma DecodeSdpIs(data: Json)
    ensures var r, top := DecodeSdp(data), if data.JObj? then Member(data.fields, SdpKey) else JNull;
            if !data.JObj? || !ServersOk(Member(data.fields, IceServersKey)) then r == Err(InvalidData)
            else if top == JNull then r == Ok(None)
            else if !top.JObj? || NotText(top.fields, TypeKey) || NotText(top.fields, SdpKey) then r == Err(InvalidData)
            else r == Ok(Some(Sdp(StrOr(top.fields, TypeKey, ""), StrOr(top.fields, SdpKey, ""))))
  {}

  predicate NotIndex(o: Object) {
    SdpMLineIndexKey in o && o[SdpMLineIndexKey] != JNull && !IntOrNull(o[SdpMLineIndexKey])
  }

  lemma DecodeCandidateIs(data: Json)
    ensures var r, top := DecodeCandidate(data), if data.JObj? then Member(data.fields, CandidateKey) else JNull;
            if !data.JObj? then r == Err(InvalidData)
            else if top == JNull then r == Ok(None)
            else if !top.JObj? || NotText(top.fields, CandidateKey) || NotText(top.fields, SdpMidKey)
                    || NotText(top.fields, UsernameFragmentKey) || NotIndex(top.fields) then r == Err(InvalidData)
            else
              && r.Ok? && r.value.Some?
              && r.value.value.text == StrOr(top.fields, CandidateKey, "")
              && (r.value.value.mid.Some? <==> SdpMidKey in top.fields && top.fields[SdpMidKey].JStr?)
              && (r.value.value.line.Some? <==> Member(top.fields, SdpMLineIndexKey) != JNull)
              && (r.value.value.fragment.Some? <==> UsernameFragmentKey in top.fields && top.fields[UsernameFragmentKey].JStr?)
  {}

  // ------------------------------------------------------------------ trees

  function WithString(o: Object, k: Key, s: Option<string>): Object {
    if s.Some? then o[k := JStr(s.value)] else o
  }

  function WithInt(o: Object, k: Key, n: Option<int>): Object {
    if n.Some? then o[k := JInt(n.value)] else o
  }

  function WithPeer(o: Object, peerID: string): Object {
    if peerID == "" then o else o[PeerIdKey := JStr(peerID)]
  }

  function SdpObject(s: Sdp): Json {
    JObj(map[TypeKey := JStr(s.kind), SdpKey := JStr(s.text)])
  }

  function CandidateObject(c: Candidate): Json {
    JObj(WithString(WithInt(WithString(map[CandidateKey := JStr(c.text)], SdpMidKey, c.mid),
                            SdpMLineIndexKey, c.line),
                    UsernameFragmentKey, c.fragment))
  }

  /** SDPData and ICECandidateData as the parsers fill them. */
  function SdpData(s: Sdp): Json {
    JObj(map[SdpKey := SdpObject(s)])
  }

  function CandidateData(c: Candidate): Json {
    JObj(map[CandidateKey := CandidateObject(c)])
  }

  const HELLO_DATA: Json := JObj(map[ClientInfoKey := JObj(map[PlatformKey := JStr(SELKIES)])])

  // ------------------------------------------------------------------ reading

  /** A message as every Selkies parser leaves it. */
  function Incoming(kind: string, peerID: string, data: Json, freshId: string, now: int): Message {
    Message(SELKIES, kind, freshId, now, peerID, data, Some(NO_METADATA.(protocol := SELKIES)), None)
  }

  function KindOfSdp(kind: string): string {
    if kind == ANSWER then ANSWER else OFFER
  }

  /** Go's uint16(r), by way of a 32-bit integer as on amd64. */
  function Uint16OfFloat(r: real): int {
    var n := Truncate(r);
    if -0x8000_0000 <= n < 0x8000_0000 then n % 0x1_0000 else 0
  }

  function LineIndex(o: Object): Option<int> {
    match Member(o, SdpMLineIndexKey)
    case JNum(r) => Some(Uint16OfFloat(r))
    case JInt(n) => Some(n % 0x1_0000)
    case _ => None
  }

  function ReadSdp(sdpData: Json, raw: Object, freshId: string, now: int): Result<Message> {
    if !sdpData.JObj? then Err(InvalidData)
    else
      var s := Sdp(StrOr(sdpData.fields, TypeKey, ""), StrOr(sdpData.fields, SdpKey, ""));
      if s.text == "" then Err(MissingSdp)
      else Ok(Incoming(KindOfSdp(s.kind), StrOr(raw, PeerIdKey, ""), SdpData(s), freshId, now))
  }

  function ReadCandidate(iceData: Json, raw: Object, freshId: string, now: int): Result<Message> {
    if !iceData.JObj? then Err(InvalidData)
    else
      var o := iceData.fields;
      var c := Candidate(StrOr(o, CandidateKey, ""), Some(StrOr(o, SdpMidKey, "")), LineIndex(o),
                         Some(StrOr(o, UsernameFragmentKey, "")));
      if c.text == "" then Err(MissingCandidate)
      else Ok(Incoming(ICE_CANDIDATE, StrOr(raw, PeerIdKey, ""), CandidateData(c), freshId, now))
  }

  function ReadStandard(raw: Object, mapping: map<string, string>, freshId: string, now: int): Result<Message> {
    if TypeKey !in raw then Err(MissingType)
    else if !raw[TypeKey].JStr? then Err(TypeNotString)
    else if raw[TypeKey].text !in mapping then Err(UnsupportedType)
    else Ok(Incoming(mapping[raw[TypeKey].text], StrOr(raw, PeerIdKey, ""), Member(raw, DataKey), freshId, now))
  }

  const HELLO_PREFIX: string := "HELLO "

  predicate HasPrefix(text: string, prefix: string) {
    prefix <= text
  }

  /** The text before the first space. */
  function FirstWord(text: string): string {
    if text == "" || text[0] == ' ' then "" else [text[0]] + FirstWord(text[1..])
  }

  function Read(c: Content, mapping: map<string, string>, freshId: string, now: int): Result<Message> {
    match c
    case Line(text) =>
      if HasPrefix(text, HELLO_PREFIX)
      then Ok(Incoming(HELLO, FirstWord(text[|HELLO_PREFIX|..]), HELLO_DATA, freshId, now))
      else Err(NotJson)
    case Encoded(tree) =>
      if !tree.JObj? && !tree.JNull? then Err(NotJson)
      else
        var raw := if tree.JObj? then tree.fields else map[];
        if SdpKey in raw then ReadSdp(raw[SdpKey], raw, freshId, now)
        else if IceKey in raw then ReadCandidate(raw[IceKey], raw, freshId, now)
        else ReadStandard(raw, mapping, freshId, now)
  }

  /** Texts are refused for their length first. */
  lemma LengthRefusals(d: Document, maxSize: int, mapping: map<string, string>, freshId: string, now: int)
    ensures d.length == 0 ==> Parsed(d, maxSize, mapping, freshId, now) == Err(EmptyData)
    ensures d.length > maxSize && d.length > 0 ==> Parsed(d, maxSize, mapping, freshId, now) == Err(TooLarge)
    ensures 0 < d.length <= maxSize ==> Parsed(d, maxSize, mapping, freshId, now) == Read(d.content, mapping, freshId, now)
  {}

  /** Which texts the parser refuses, and as what. */
  lemma Refusals(c: Content, mapping: map<string, string>, freshId: string, now: int)
    ensures var r := Read(c, mapping, freshId, now);
            && (c.Line? && !("HELLO " <= c.text) ==> r == Err(NotJson))
            && (c.Encoded? && !c.tree.JObj? && !c.tree.JNull? ==> r == Err(NotJson))
            && (c.Encoded? && c.tree.JNull? ==> r == Err(MissingType))
  {}

  lemma ObjectRefusals(o: Object, mapping: map<string, string>, freshId: string, now: int)
    ensures var r := Read(Encoded(JObj(o)), mapping, freshId, now);
            && (SdpKey in o && !o[SdpKey].JObj? ==> r == Err(InvalidData))
            && (SdpKey in o && o[SdpKey].JObj? && StrOr(o[SdpKey].fields, SdpKey, "") == "" ==> r == Err(MissingSdp))
            && (SdpKey !in o && IceKey in o && !o[IceKey].JObj? ==> r == Err(InvalidData))
            && (SdpKey !in o && IceKey in o && o[IceKey].JObj? && StrOr(o[IceKey].fields, CandidateKey, "") == "" ==>
                  r == Err(MissingCandidate))
            && (SdpKey !in o && IceKey !in o ==>
                  && (TypeKey !in o ==> r == Err(MissingType))
                  && (TypeKey in o && !o[TypeKey].JStr? ==> r == Err(TypeNotString))
                  && (TypeKey in o && o[TypeKey].JStr? && o[TypeKey].text !in mapping ==> r == Err(UnsupportedType)))
  {}

  function Parsed(d: Document, maxSize: int, mapping: map<string, string>, freshId: string, now: int): Result<Message> {
    if d.length == 0 then Err(EmptyData)
    else if d.length > maxSize then Err(TooLarge)
    else Read(d.content, mapping, freshId, now)
  }

  // ------------------------------------------------------------------ printing

  /** Client info of hello data: not decodable, absent, or its base64 text. */
  datatype HelloMeta = Undecodable | Absent | Base64(text: string)

  function PrintHello(m: Message, meta: Json -> HelloMeta): Result<Content> {
    if m.data == JNull then Err(InvalidData)
    else
      match meta(m.data)
      case Undecodable => Err(InvalidData)
      case Absent => Ok(Line(HELLO_PREFIX + m.peerID))
      case Base64(text) => Ok(Line(HELLO_PREFIX + m.peerID + " " + text))
  }

  function PrintSdp(m: Message): Result<Content> {
    match DecodeSdp(m.data)
    case Err(f) => Err(f)
    case Ok(None) => Err(NilPointer)
    case Ok(Some(s)) => Ok(Encoded(JObj(WithPeer(map[SdpKey := SdpObject(s)], m.peerID))))
  }

  function PrintCandidate(m: Message): Result<Content> {
    match DecodeCandidate(m.data)
    case Err(f) => Err(f)
    case Ok(None) => Err(NilPointer)
    case Ok(Some(c)) => Ok(Encoded(JObj(WithPeer(map[IceKey := CandidateObject(c)], m.peerID))))
  }

  function PrintError(m: Message): Result<Content> {
    if m.error.Some? then Ok(Line("ERROR " + m.error.value.message)) else Err(NoErrorInfo)
  }

  /** `name` is the Selkies type that the map iteration met first, if any. */
  function PrintStandard(m: Message, name: Option<string>): Result<Content> {
    if name.None? || name.value == "" then Err(UnsupportedType)
    else
      var o := WithPeer(map[TypeKey := JStr(name.value)], m.peerID);
      Ok(Encoded(JObj(if m.data == JNull then o else o[DataKey := m.data])))
  }

  predicate IsNameOf(name: Option<string>, kind: string, mapping: map<string, string>) {
    match name
    case Some(n) => n in mapping && mapping[n] == kind
    case None => forall n :: n in mapping ==> mapping[n] != kind
  }

  lemma SomeName(kind: string, mapping: map<string, string>) returns (name: Option<string>)
    ensures IsNameOf(name, kind, mapping)
  {
    if n :| n in mapping && mapping[n] == kind {
      name := Some(n);
    } else {
      name := None;
    }
  }

  function Printed(m: Message, name: Option<string>, meta: Json -> HelloMeta): Result<Content> {
    if m.kind == HELLO then PrintHello(m, meta)
    else if m.kind == OFFER || m.kind == ANSWER then PrintSdp(m)
    else if m.kind == ICE_CANDIDATE then PrintCandidate(m)
    else if m.kind == ERROR then PrintError(m)
    else PrintStandard(m, name)
  }

  function WireContent(c: Content): Content {
    if c.Encoded? then Encoded(Wire(c.tree)) else c
  }

  function Formatted(m: Message, name: Option<string>, meta: Json -> HelloMeta, length: Content -> nat): Result<Document> {
    match Printed(m, name, meta)
    case Err(f) => Err(f)
    case Ok(c) => Ok(Document(length(c), WireContent(c)))
  }

  // ------------------------------------------------------------------ round trips

  lemma StringsOnTheWire(s: Sdp)
    ensures Wire(SdpObject(s)) == SdpObject(s)
    ensures Wire(SdpData(s)) == SdpData(s)
  {}

  lemma PeerOnTheWire(o: Object, peerID: string)
    requires PeerIdKey !in o
    ensures var w := Wire(JObj(WithPeer(o, peerID))).fields;
            && StrOr(w, PeerIdKey, "") == peerID
            && forall k :: k != PeerIdKey ==> (k in w <==> k in o) && (k in o ==> w[k] == Wire(o[k]))
  {}

  /** What the struct decoder gives back of the parsers' own data. */
  lemma DecodeSdpData(s: Sdp)
    ensures DecodeSdp(SdpData(s)) == Ok(Some(s))
  {}

  /** SDP text printed as Selkies is read as an offer or an answer by the SDP's own type. */
  lemma SdpTrip(m: Message, s: Sdp, mapping: map<string, string>, freshId: string, now: int)
    requires DecodeSdp(m.data) == Ok(Some(s))
    ensures PrintSdp(m).Ok?
    ensures Read(WireContent(PrintSdp(m).value), mapping, freshId, now) ==
            if s.text == "" then Err(MissingSdp) else Ok(Incoming(KindOfSdp(s.kind), m.peerID, SdpData(s), freshId, now))
  {
    var v := SdpObject(s);
    PeerOnTheWire(map[SdpKey := v], m.peerID);
    StringsOnTheWire(s);
    ReadSdpObject(Wire(JObj(WithPeer(map[SdpKey := v], m.peerID))).fields, s, m.peerID, mapping, freshId, now);
  }

  lemma ReadSdpObject(raw: Object, s: Sdp, peerID: string, mapping: map<string, string>, freshId: string, now: int)
    requires SdpKey in raw && raw[SdpKey] == SdpObject(s) && StrOr(raw, PeerIdKey, "") == peerID
    ensures Read(Encoded(JObj(raw)), mapping, freshId, now) ==
            if s.text == "" then Err(MissingSdp) else Ok(Incoming(KindOfSdp(s.kind), peerID, SdpData(s), freshId, now))
  {}

  /** The low 16 bits of what fits 32 bits, and 0 otherwise. */
  lemma Uint16Is(r: real)
    ensures var n := Truncate(r);
            if -0x8000_0000 <= n <= 0x7fff_ffff then 0 <= Uint16OfFloat(r) <= 0xffff && (n - Uint16OfFloat(r)) % 0x1_0000 == 0
            else Uint16OfFloat(r) == 0
  {}

  /** A line index survives exactly when it is absent or a uint16. */
  function LineAfter(line: Option<int>): Option<int> {
    if line.Some? then Some(Uint16OfFloat(Nearest(line.value) as real)) else None
  }

  lemma LineSurvivesIff(line: Option<int>)
    ensures LineAfter(line) == line <==> line.None? || 0 <= line.value < 0x1_0000
  {
    if line.Some? && 0 <= line.value < 0x1_0000 {
      ExactUpTo53(line.value);
      NearestExact(line.value);
    }
  }

  /** The candidate as it comes back: the two strings are always present. */
  function Returned(c: Candidate): Candidate {
    Candidate(c.text, Some(if c.mid.Some? then c.mid.value else ""), LineAfter(c.line),
              Some(if c.fragment.Some? then c.fragment.value else ""))
  }

  function StringMember(s: Option<string>): Json {
    if s.Some? then JStr(s.value) else JNull
  }

  /** Object `o` has the members of candidate `c`, with the line index as a float64. */
  predicate CandidateMembers(o: Object, c: Candidate) {
    && Member(o, CandidateKey) == JStr(c.text)
    && Member(o, SdpMidKey) == StringMember(c.mid)
    && Member(o, SdpMLineIndexKey) == (if c.line.Some? then JNum(Nearest(c.line.value) as real) else JNull)
    && Member(o, UsernameFragmentKey) == StringMember(c.fragment)
  }

  lemma CandidateOnTheWire(c: Candidate)
    ensures Wire(CandidateObject(c)).JObj? && CandidateMembers(Wire(CandidateObject(c)).fields, c)
  {}

  lemma ReadCandidateMembers(o: Object, c: Candidate, raw: Object, freshId: string, now: int)
    requires CandidateMembers(o, c)
    ensures ReadCandidate(JObj(o), raw, freshId, now) ==
            if c.text == "" then Err(MissingCandidate)
            else Ok(Incoming(ICE_CANDIDATE, StrOr(raw, PeerIdKey, ""), CandidateData(Returned(c)), freshId, now))
  {
    assert StrOr(o, CandidateKey, "") == c.text;
    assert LineIndex(o) == LineAfter(c.line);
  }

  lemma CandidateTrip(m: Message, c: Candidate, mapping: map<string, string>, freshId: string, now: int)
    requires DecodeCandidate(m.data) == Ok(Some(c))
    ensures PrintCandidate(m).Ok?
    ensures Read(WireContent(PrintCandidate(m).value), mapping, freshId, now) ==
            if c.text == "" then Err(MissingCandidate)
            else Ok(Incoming(ICE_CANDIDATE, m.peerID, CandidateData(Returned(c)), freshId, now))
  {
    var v := CandidateObject(c);
    CandidateOnTheWire(c);
    IceObjectTrip(v, c, m.peerID, mapping, freshId, now);
  }

  lemma IceObjectTrip(v: Json, c: Candidate, peerID: string, mapping: map<string, string>, freshId: string, now: int)
    requires Wire(v).JObj? && CandidateMembers(Wire(v).fields, c)
    ensures Read(Encoded(Wire(JObj(WithPeer(map[IceKey := v], peerID)))), mapping, freshId, now) ==
            if c.text == "" then Err(MissingCandidate)
            else Ok(Incoming(ICE_CANDIDATE, peerID, CandidateData(Returned(c)), freshId, now))
  {
    var raw := Wire(JObj(WithPeer(map[IceKey := v], peerID)));
    PeerOnTheWire(map[IceKey := v], peerID);
    ReadIceObject(raw.fields, Wire(v).fields, c, peerID, mapping, freshId, now);
  }

  lemma ReadIceObject(raw: Object, o: Object, c: Candidate, peerID: string,
                      mapping: map<string, string>, freshId: string, now: int)
    requires SdpKey !in raw && IceKey in raw && raw[IceKey] == JObj(o) && StrOr(raw, PeerIdKey, "") == peerID
    requires CandidateMembers(o, c)
    ensures Read(Encoded(JObj(raw)), mapping, freshId, now) ==
            if c.text == "" then Err(MissingCandidate)
            else Ok(Incoming(ICE_CANDIDATE, peerID, CandidateData(Returned(c)), freshId, now))
  {
    ReadCandidateMembers(o, c, raw, freshId, now);
  }

  lemma LineAfterTwice(line: Option<int>)
    ensures LineAfter(LineAfter(line)) == LineAfter(line)
  {
    LineSurvivesIff(LineAfter(line));
  }

  /** Whatever a candidate loses, it loses on the first trip. */
  lemma ReturnedTwice(c: Candidate)
    ensures Returned(Returned(c)) == Returned(c)
  {
    LineAfterTwice(c.line);
  }

  /** A candidate that came back survives the wire and the struct decoder. */
  lemma DecodeCandidateData(c: Candidate)
    requires c.line.Some? ==> 0 <= c.line.value < 0x1_0000
    ensures DecodeCandidate(Wire(CandidateData(c))) == Ok(Some(c))
  {
    LineSurvivesIff(c.line);
    if c.line.Some? {
      ExactUpTo53(c.line.value);
      NearestExact(c.line.value);
    }
    CandidateOnTheWire(c);
    DecodeCandidateMembers(Wire(CandidateObject(c)).fields, c);
    assert Wire(CandidateData(c)).fields == map[CandidateKey := Wire(CandidateObject(c))];
  }

  lemma DecodeCandidateMembers(o: Object, c: Candidate)
    requires CandidateMembers(o, c)
    requires c.line.Some? ==> Nearest(c.line.value) == c.line.value && IsInt64(c.line.value)
    ensures DecodeCandidate(JObj(map[CandidateKey := JObj(o)])) == Ok(Some(c))
  {}

  lemma StandardTrip(m: Message, name: Option<string>, mapping: map<string, string>, freshId: string, now: int)
    requires IsNameOf(name, m.kind, mapping)
    ensures PrintStandard(m, name).Ok? <==> name.Some? && name.value != ""
    ensures PrintStandard(m, name).Ok? ==>
              Read(WireContent(PrintStandard(m, name).value), mapping, freshId, now) ==
              Ok(Incoming(m.kind, m.peerID, Wire(m.data), freshId, now))
  {
    if PrintStandard(m, name).Ok? {
      var o := PrintStandard(m, name).value.tree.fields;
      WireMember(o, TypeKey);
      WireMember(o, PeerIdKey);
      WireMember(o, DataKey);
      WireMember(o, SdpKey);
      WireMember(o, IceKey);
      assert Wire(o[TypeKey]) == JStr(name.value);
      assert PeerIdKey in o ==> Wire(o[PeerIdKey]) == JStr(m.peerID);
    }
  }

  lemma {:induction false} FirstWordOf(a: string, rest: string)
    ensures FirstWord(a + rest) == (if ' ' in a then FirstWord(a) else a + FirstWord(rest))
    ensures FirstWord(a) == a <==> ' ' !in a
  {
    if a != "" {
      assert (a + rest)[1..] == a[1..] + rest;
      FirstWordOf(a[1..], rest);
      WordIsShort(a[1..]);
    } else {
      assert a + rest == rest;
    }
  }

  lemma {:induction false} WordIsShort(a: string)
    ensures |FirstWord(a)| <= |a|
  {
    if a != "" {
      WordIsShort(a[1..]);
    }
  }

  /** A hello keeps its peer id exactly when the id has no space; its data is replaced. */
  lemma HelloTrip(m: Message, meta: Json -> HelloMeta, mapping: map<string, string>, freshId: string, now: int)
    requires PrintHello(m, meta).Ok?
    ensures var r := Read(PrintHello(m, meta).value, mapping, freshId, now);
            && r.Ok? && r.value == Incoming(HELLO, r.value.peerID, r.value.data, freshId, now)
            && r.value.data == JObj(map[ClientInfoKey := JObj(map[PlatformKey := JStr("selkies")])])
            && (r.value.peerID == m.peerID <==> ' ' !in m.peerID)
  {
    var rest := if meta(m.data).Base64? then " " + meta(m.data).text else "";
    var text := PrintHello(m, meta).value.text;
    assert text == HELLO_PREFIX + (m.peerID + rest);
    assert text[|HELLO_PREFIX|..] == m.peerID + rest;
    FirstWordOf(m.peerID, rest);
    assert FirstWord(rest) == "";
  }

  /** What a message of each type looks like on the wire. */
  lemma WireForms(m: Message, name: Option<string>, meta: Json -> HelloMeta)
    requires Printed(m, name, meta).Ok?
    ensures var c := Printed(m, name, meta).value;
            if m.kind == "hello" then c.Line? && "HELLO " <= c.text
            else if m.kind == "error" then m.error.Some? && c == Line("ERROR " + m.error.value.message)
            else
              && c.Encoded? && c.tree.JObj?
              && var o := c.tree.fields;
                 && (PeerIdKey in o <==> m.peerID != "") && StrOr(o, PeerIdKey, "") == m.peerID
                 && (SdpKey in o <==> m.kind == "offer" || m.kind == "answer")
                 && (IceKey in o <==> m.kind == "ice-candidate")
                 && (TypeKey in o <==> SdpKey !in o && IceKey !in o)
                 && (TypeKey in o ==> name.Some? && o[TypeKey] == JStr(name.value) && Member(o, DataKey) == m.data)
  {
    assert "hello" == HELLO && "error" == ERROR && "offer" == OFFER && "answer" == ANSWER && "ice-candidate" == ICE_CANDIDATE;
  }

  /** When printing fails, and as what. */
  lemma PrintFailures(m: Message, name: Option<string>, meta: Json -> HelloMeta)
    ensures m.kind == "hello" ==> (Printed(m, name, meta).Err? <==> m.data == JNull || meta(m.data).Undecodable?)
    ensures m.kind == "error" ==> (Printed(m, name, meta).Err? <==> m.error.None?)
  {}

  /** An error line is not read back by the Selkies parser. */
  lemma ErrorIsNotRead(m: Message, mapping: map<string, string>, freshId: string, now: int)
    requires PrintError(m).Ok?
    ensures Read(PrintError(m).value, mapping, freshId, now) == Err(NotJson)
  {
    var text := PrintError(m).value.text;
    assert text[0] == 'E' && HELLO_PREFIX[0] == 'H';
  }

  // ------------------------------------------------------------------ the adapter

  class Adapter {
    const maxMessageSize: int
    const protocolMapping: map<string, string>

    constructor (maxMessageSize: int, protocolMapping: map<string, string>)
      ensures this.maxMessageSize == maxMessageSize && this.protocolMapping == protocolMapping
    {
      this.maxMessageSize, this.protocolMapping := maxMessageSize, protocolMapping;
    }

    method ParseMessage(d: Document, freshId: string, now: int) returns (err: Option<Failure>, msg: StandardMessage?)
      ensures match Parsed(d, maxMessageSize, protocolMapping, freshId, now)
              case Ok(m) => err == None && msg != null && fresh(msg) && msg.Value() == m
              case Err(f) => err == Some(f) && msg == null
    {
      if d.length == 0 {
        return Some(EmptyData), null;
      }
      if d.length > maxMessageSize {
        return Some(TooLarge), null;
      }
      match d.content {
        case Line(text) =>
          if !HasPrefix(text, HELLO_PREFIX) {
            return Some(NotJson), null;
          }
          msg := Receive(HELLO, FirstWord(text[|HELLO_PREFIX|..]), HELLO_DATA, freshId, now);
          err := None;
        case Encoded(JObj(raw)) =>
          err, msg := ParseObject(raw, freshId, now);
        case Encoded(JNull) =>
          err, msg := ParseObject(map[], freshId, now);
        case Encoded(_) =>
          err, msg := Some(NotJson), null;
      }
    }

    /** A new message, stamped with this protocol's version. */
    method Receive(kind: string, peerID: string, data: Json, freshId: string, now: int) returns (msg: StandardMessage)
      ensures fresh(msg) && msg.Value() == Incoming(kind, peerID, data, freshId, now)
    {
      msg := new StandardMessage.New(kind, peerID, data, freshId, now);
      msg.version := SELKIES;
      msg.metadata := Some(msg.metadata.value.(protocol := SELKIES));
    }

    method ParseObject(raw: Object, freshId: string, now: int) returns (err: Option<Failure>, msg: StandardMessage?)
      ensures match Read(Encoded(JObj(raw)), protocolMapping, freshId, now)
              case Ok(m) => err == None && msg != null && fresh(msg) && msg.Value() == m
              case Err(f) => err == Some(f) && msg == null
    {
      err, msg := None, null;
      if SdpKey in raw {
        if !raw[SdpKey].JObj? {
          return Some(InvalidData), null;
        }
        var kind, text := StrOr(raw[SdpKey].fields, TypeKey, ""), StrOr(raw[SdpKey].fields, SdpKey, "");
        if text == "" {
          return Some(MissingSdp), null;
        }
        msg := Receive(KindOfSdp(kind), StrOr(raw, PeerIdKey, ""), SdpData(Sdp(kind, text)), freshId, now);
      } else if IceKey in raw {
        if !raw[IceKey].JObj? {
          return Some(InvalidData), null;
        }
        var o := raw[IceKey].fields;
        var candidate := StrOr(o, CandidateKey, "");
        if candidate == "" {
          return Some(MissingCandidate), null;
        }
        var c := Candidate(candidate, Some(StrOr(o, SdpMidKey, "")), LineIndex(o), Some(StrOr(o, UsernameFragmentKey, "")));
        msg := Receive(ICE_CANDIDATE, StrOr(raw, PeerIdKey, ""), CandidateData(c), freshId, now);
      } else {
        if TypeKey !in raw {
          return Some(MissingType), null;
        }
        if !raw[TypeKey].JStr? {
          return Some(TypeNotString), null;
        }
        if raw[TypeKey].text !in protocolMapping {
          return Some(UnsupportedType), null;
        }
        msg := Receive(protocolMapping[raw[TypeKey].text], StrOr(raw, PeerIdKey, ""), Member(raw, DataKey), freshId, now);
      }
    }

    /** Some Selkies type of a standard type: map iteration may meet any of them first. */
    method FindName(kind: string) returns (name: Option<string>)
      ensures IsNameOf(name, kind, protocolMapping)
    {
      var rest := protocolMapping.Keys;
      while rest != {}
        invariant rest <= protocolMapping.Keys
        invariant forall n :: n in protocolMapping && n !in rest ==> protocolMapping[n] != kind
        decreases |rest|
      {
        var n :| n in rest;
        if protocolMapping[n] == kind {
          return Some(n);
        }
        rest := rest - {n};
      }
      name := None;
    }

    method FormatHello(msg: StandardMessage, meta: Json -> HelloMeta) returns (r: Result<Content>)
      ensures r == PrintHello(msg.Value(), meta)
    {
      if msg.data == JNull {
        return Err(InvalidData);
      }
      var info := meta(msg.data);
      if info.Undecodable? {
        return Err(InvalidData);
      }
      var helloMsg := HELLO_PREFIX + msg.peerID;
      if info.Base64? {
        helloMsg := helloMsg + " " + info.text;
      }
      r := Ok(Line(helloMsg));
    }

    method FormatSdp(msg: StandardMessage) returns (r: Result<Content>)
      ensures r == PrintSdp(msg.Value())
    {
      var sdpData := DecodeSdp(msg.data);
      if sdpData.Err? {
        return Err(sdpData.failure);
      }
      if sdpData.value.None? {
        return Err(NilPointer);
      }
      var sdp := sdpData.value.value;
      var output: Object := map[SdpKey := JObj(map[TypeKey := JStr(sdp.kind), SdpKey := JStr(sdp.text)])];
      if msg.peerID != "" {
        output := output[PeerIdKey := JStr(msg.peerID)];
      }
      r := Ok(Encoded(JObj(output)));
    }

    method FormatIce(msg: StandardMessage) returns (r: Result<Content>)
      ensures r == PrintCandidate(msg.Value())
    {
      var iceData := DecodeCandidate(msg.data);
      if iceData.Err? {
        return Err(iceData.failure);
      }
      if iceData.value.None? {
        return Err(NilPointer);
      }
      var candidate := iceData.value.value;
      var iceOutput: Object := map[CandidateKey := JStr(candidate.text)];
      if candidate.mid.Some? {
        iceOutput := iceOutput[SdpMidKey := JStr(candidate.mid.value)];
      }
      if candidate.line.Some? {
        iceOutput := iceOutput[SdpMLineIndexKey := JInt(candidate.line.value)];
      }
      if candidate.fragment.Some? {
        iceOutput := iceOutput[UsernameFragmentKey := JStr(candidate.fragment.value)];
      }
      var output: Object := map[IceKey := JObj(iceOutput)];
      if msg.peerID != "" {
        output := output[PeerIdKey := JStr(msg.peerID)];
      }
      r := Ok(Encoded(JObj(output)));
    }

    method FormatError(msg: StandardMessage) returns (r: Result<Content>)
      ensures r == PrintError(msg.Value())
    {
      if msg.error.None? {
        return Err(NoErrorInfo);
      }
      r := Ok(Line("ERROR " + msg.error.value.message));
    }

    method FormatStandard(msg: StandardMessage) returns (r: Result<Content>, name: Option<string>)
      ensures IsNameOf(name, msg.kind, protocolMapping) && r == PrintStandard(msg.Value(), name)
    {
      var selkiesType := FindName(msg.kind);
      name := selkiesType;
      if selkiesType.None? || selkiesType.value == "" {
        r := Err(UnsupportedType);
        return;
      }
      var output: Object := map[TypeKey := JStr(selkiesType.value)];
      if msg.peerID != "" {
        output := output[PeerIdKey := JStr(msg.peerID)];
      }
      if msg.data != JNull {
        output := output[DataKey := msg.data];
      }
      r := Ok(Encoded(JObj(output)));
    }

    method FormatMessage(msg: StandardMessage?, meta: Json -> HelloMeta, length: Content -> nat)
      returns (r: Result<Document>, ghost name: Option<string>)
      ensures msg == null ==> r == Err(NilMessage)
      ensures msg != null ==> IsNameOf(name, msg.kind, protocolMapping) && r == Formatted(msg.Value(), name, meta, length)
    {
      if msg == null {
        return Err(NilMessage), None;
      }
      name := SomeName(msg.kind, protocolMapping);
      var c: Result<Content>;
      if msg.kind == HELLO {
        c := FormatHello(msg, meta);
      } else if msg.kind == OFFER || msg.kind == ANSWER {
        c := FormatSdp(msg);
      } else if msg.kind == ICE_CANDIDATE {
        c := FormatIce(msg);
      } else if msg.kind == ERROR {
        c := FormatError(msg);
      } else {
        c, name := FormatStandard(msg);
      }
      assert c == Printed(msg.Value(), name, meta);
      match c
      case Ok(content) => r := Ok(Document(length(content), WireContent(content)));
      case Err(f) => r := Err(f);
    }
  }
}
