/**
 The manager: adapters by protocol name, and the conversion of a message from one protocol to the
 other. The theorems say what a conversion to Selkies and back keeps, and that a second round
 changes nothing but the id and the timestamp that every conversion draws anew.
 */
module ProtocolManager {
  import opened Basics
  import opened GoInts
  import opened JsonTree
  import opened StandardMessages
  import G = GStreamerAdapter
  import S = SelkiesAdapter

  datatype Adapter = Standard(g: G.Adapter) | Selkies(s: S.Adapter)

  /** What parsing one message draws from outside: an id and a clock reading. */
  datatype Stamp = Stamp(freshId: string, now: int)

  /** What is the same for all messages: the length of a text, and client info encoded as a text. */
  datatype Texts = Texts(length: Content -> nat, meta: Json -> S.HelloMeta)

  function Parsed(a: Adapter, d: Document, stamp: Stamp): Result<Message> {
    match a
    case Standard(g) => G.Parsed(d, g.maxMessageSize, stamp.freshId, stamp.now)
    case Selkies(s) => S.Parsed(d, s.maxMessageSize, s.protocolMapping, stamp.freshId, stamp.now)
  }

  /** `name` is the Selkies type chosen for a message without a format of its own. */
  ghost predicate FormatsTo(a: Adapter, m: Message, texts: Texts, r: Result<Document>) {
    match a
    case Standard(g) => r == G.Formatted(m, g.maxMessageSize, texts.length)
    case Selkies(s) =>
      exists name :: S.IsNameOf(name, m.kind, s.protocolMapping) && r == S.Formatted(m, name, texts.meta, texts.length)
  }

  /** Converting document `d`: parsed, stamped with the new version, and formatted. */
  ghost predicate ConvertsTo(from: Adapter, to: Adapter, version: string, d: Document, stamp: Stamp, texts: Texts,
                             r: Result<Document>)
  {
    match Parsed(from, d, stamp)
    case Err(f) => r == Err(f)
    case Ok(m) => FormatsTo(to, m.(version := version), texts, r)
  }

  class Manager {
    var adapters: map<string, Adapter>
    var defaultProtocol: string

    constructor (standard: G.Adapter, selkies: S.Adapter, defaultProtocol: string)
      ensures adapters == map[GSTREAMER := Standard(standard), SELKIES := Selkies(selkies)]
      ensures this.defaultProtocol == defaultProtocol
    {
      adapters := map[GSTREAMER := Standard(standard), SELKIES := Selkies(selkies)];
      this.defaultProtocol := defaultProtocol;
    }

    method RegisterAdapter(protocol: string, adapter: Adapter)
      modifies this`adapters
      ensures adapters == old(adapters)[protocol := adapter]
    {
      adapters := adapters[protocol := adapter];
    }

    method UnregisterAdapter(protocol: string)
      modifies this`adapters
      ensures adapters == old(adapters) - {protocol}
    {
      adapters := adapters - {protocol};
    }

    method SetDefaultProtocol(protocol: string) returns (ok: bool)
      modifies this`defaultProtocol
      ensures ok <==> protocol in adapters
      ensures defaultProtocol == if ok then protocol else old(defaultProtocol)
    {
      ok := protocol in adapters;
      if ok {
        defaultProtocol := protocol;
      }
    }

    /** An empty protocol name means the default one; detection always answers the default too. */
    function Target(protocol: string): (target: string)
      reads this
      ensures protocol == "" ==> target == defaultProtocol
      ensures protocol != "" ==> target == protocol
    {
      if protocol == "" then defaultProtocol else protocol
    }

    method ParseMessage(d: Document, protocol: string, stamp: Stamp) returns (err: Option<Failure>, msg: StandardMessage?)
      ensures Target(protocol) !in adapters ==> err == Some(UnknownProtocol) && msg == null
      ensures Target(protocol) in adapters ==>
                match Parsed(adapters[Target(protocol)], d, stamp)
                case Ok(m) => err == None && msg != null && fresh(msg) && msg.Value() == m
                case Err(f) => err == Some(f) && msg == null
      ensures protocol == "" && defaultProtocol in adapters ==>
                match Parsed(adapters[defaultProtocol], d, stamp)
                case Ok(m) => err == None && msg != null && msg.Value() == m
                case Err(f) => err == Some(f)
    {
      if Target(protocol) !in adapters {
        return Some(UnknownProtocol), null;
      }
      match adapters[Target(protocol)]
      case Standard(g) => err, msg := g.ParseMessage(d, stamp.freshId, stamp.now);
      case Selkies(s) => err, msg := s.ParseMessage(d, stamp.freshId, stamp.now);
    }

    method FormatMessage(msg: StandardMessage?, protocol: string, texts: Texts) returns (r: Result<Document>)
      ensures msg == null ==> r == Err(NilMessage)
      ensures msg != null ==>
                var target := if protocol != "" then protocol else Target(msg.version);
                if target in adapters then FormatsTo(adapters[target], msg.Value(), texts, r) else r == Err(UnknownProtocol)
    {
      if msg == null {
        return Err(NilMessage);
      }
      var target := if protocol != "" then protocol else Target(msg.version);
      if target !in adapters {
        return Err(UnknownProtocol);
      }
      match adapters[target] {
        case Standard(g) => r := g.FormatMessage(msg, texts.length);
        case Selkies(s) =>
          ghost var name;
          r, name := s.FormatMessage(msg, texts.meta, texts.length);
      }
    }

    method ConvertMessage(d: Document, from: string, to: string, stamp: Stamp, texts: Texts) returns (r: Result<Document>)
      ensures Target(from) !in adapters ==> r == Err(UnknownProtocol)
      ensures Target(from) in adapters && Target(to) in adapters ==>
                ConvertsTo(adapters[Target(from)], adapters[Target(to)], to, d, stamp, texts, r)
      ensures Target(from) in adapters && Target(to) !in adapters ==>
                r == match Parsed(adapters[Target(from)], d, stamp)
                     case Ok(_) => Err(UnknownProtocol)
                     case Err(f) => Err(f)
    {
      var err, msg := ParseMessage(d, from, stamp);
      if err.Some? {
        return Err(err.value);
      }
      msg.version := to;
      r := FormatMessage(msg, to, texts);
    }
  }

  // ------------------------------------------------------------------ there and back

  /** The two adapters that messages are converted between. */
  datatype Link = Link(g: G.Adapter, s: S.Adapter, texts: Texts)

  ghost predicate Sized(k: Link) {
    forall c :: k.texts.length(c) > 0
  }

  function Std(k: Link): Adapter {
    Standard(k.g)
  }

  function Sel(k: Link): Adapter {
    Selkies(k.s)
  }

  /** Converting from the standard protocol, and converting to it. */
  ghost predicate Goes(k: Link, d: Document, out: Stamp, r: Result<Document>) {
    ConvertsTo(Std(k), Sel(k), SELKIES, d, out, k.texts, r)
  }

  ghost predicate Returns(k: Link, there: Document, home: Stamp, r: Result<Document>) {
    ConvertsTo(Sel(k), Std(k), GSTREAMER, there, home, k.texts, r)
  }

  /**
   Document `d` converted to `there` in Selkies and on to `back` in the standard protocol. Each of
   the two conversions draws its own stamp.
   */
  ghost predicate RoundTrip(k: Link, d: Document, out: Stamp, home: Stamp, there: Document, back: Document) {
    Goes(k, d, out, Ok(there)) && Returns(k, there, home, Ok(back))
  }

  ghost predicate ComesBack(k: Link, d: Document, out: Stamp, home: Stamp) {
    exists there, back :: RoundTrip(k, d, out, home, there, back)
  }

  predicate IsOffer(m: Message) {
    m.kind == OFFER || m.kind == ANSWER
  }

  /** The message that an SDP or ICE message comes back as. */
  function Back(kind: string, peerID: string, data: Json, home: Stamp): Message {
    S.Incoming(kind, peerID, data, home.freshId, home.now).(version := GSTREAMER)
  }

  function OfferBackAs(peerID: string, s: S.Sdp, home: Stamp): Message {
    Back(S.KindOfSdp(s.kind), peerID, S.SdpData(s), home)
  }

  function CandidateBackAs(peerID: string, c: S.Candidate, home: Stamp): Message {
    Back(ICE_CANDIDATE, peerID, S.CandidateData(S.Returned(c)), home)
  }

  /** The same message with the id and the time of another conversion. */
  function Restamped(m: Message, home: Stamp): Message {
    m.(id := home.freshId, timestamp := Carry(home.now))
  }

  /** Printing such a message and reading it gives it back, up to rounded times, whoever reads it. */
  lemma BackIsRead(k: Link, kind: string, peerID: string, data: Json, home: Stamp, back: Document, reader: Stamp)
    requires Sized(k) && FormatsTo(Std(k), Back(kind, peerID, data, home), k.texts, Ok(back))
    ensures Parsed(Std(k), back, reader) == Ok(Restamped(Back(kind, peerID, Wire(data), home), home))
  {
    G.FormatThenParse(Back(kind, peerID, data, home), k.g.maxMessageSize, k.texts.length, reader.freshId, reader.now);
  }

  /** The document an SDP message of this peer is printed as. */
  function SdpDocument(k: Link, peerID: string, s: S.Sdp): Document {
    var c := Encoded(JObj(S.WithPeer(map[SdpKey := S.SdpObject(s)], peerID)));
    Document(k.texts.length(c), S.WireContent(c))
  }

  function IceDocument(k: Link, peerID: string, c: S.Candidate): Document {
    var i := Encoded(JObj(S.WithPeer(map[IceKey := S.CandidateObject(c)], peerID)));
    Document(k.texts.length(i), S.WireContent(i))
  }

  lemma KindsDiffer()
    ensures HELLO != OFFER && HELLO != ANSWER && OFFER != ICE_CANDIDATE && ANSWER != ICE_CANDIDATE
    ensures HELLO != ICE_CANDIDATE && OFFER != ANSWER
  {
    assert HELLO[0] == 'h' && OFFER[0] == 'o' && ANSWER[0] == 'a' && ICE_CANDIDATE[0] == 'i';
  }

  /**
   An offer or answer converts to Selkies exactly when its data decodes to SDPData with an SDP;
   with a nil SDP pointer the conversion crashes.
   */
  lemma OfferThere(k: Link, d: Document, out: Stamp, m: Message, r: Result<Document>)
    requires Parsed(Std(k), d, out) == Ok(m) && IsOffer(m) && Goes(k, d, out, r)
    ensures match S.DecodeSdp(m.data)
            case Ok(Some(s)) => r == Ok(SdpDocument(k, m.peerID, s))
            case Ok(None) => r == Err(NilPointer)
            case Err(f) => r == Err(f)
  {
    KindsDiffer();
  }

  lemma CandidateThere(k: Link, d: Document, out: Stamp, m: Message, r: Result<Document>)
    requires Parsed(Std(k), d, out) == Ok(m) && m.kind == ICE_CANDIDATE && Goes(k, d, out, r)
    ensures match S.DecodeCandidate(m.data)
            case Ok(Some(c)) => r == Ok(IceDocument(k, m.peerID, c))
            case Ok(None) => r == Err(NilPointer)
            case Err(f) => r == Err(f)
  {
    KindsDiffer();
  }

  /** The message is within the limit of the standard adapter's formatter. */
  predicate Fits(k: Link, m: Message) {
    k.texts.length(Encoded(JObj(G.MessageTree(m)))) <= k.g.maxMessageSize
  }

  /** The way back succeeds exactly if the SDP text is not empty and both texts are within the limits. */
  lemma OfferBack(k: Link, peerID: string, s: S.Sdp, home: Stamp, r: Result<Document>)
    requires Sized(k) && Returns(k, SdpDocument(k, peerID, s), home, r)
    ensures r.Ok? <==>
            s.text != "" && SdpDocument(k, peerID, s).length <= k.s.maxMessageSize && Fits(k, OfferBackAs(peerID, s, home))
    ensures r.Ok? ==> FormatsTo(Std(k), OfferBackAs(peerID, s, home), k.texts, r)
  {
    var m := Message("", OFFER, "", 0, peerID, S.SdpData(s), None, None);
    S.DecodeSdpData(s);
    S.SdpTrip(m, s, k.s.protocolMapping, home.freshId, home.now);
  }

  lemma CandidateBack(k: Link, m: Message, c: S.Candidate, home: Stamp, r: Result<Document>)
    requires Sized(k) && S.DecodeCandidate(m.data) == Ok(Some(c)) && Returns(k, IceDocument(k, m.peerID, c), home, r)
    ensures r.Ok? <==>
            && c.text != "" && IceDocument(k, m.peerID, c).length <= k.s.maxMessageSize
            && Fits(k, CandidateBackAs(m.peerID, c, home))
    ensures r.Ok? ==> FormatsTo(Std(k), CandidateBackAs(m.peerID, c, home), k.texts, r)
  {
    S.CandidateTrip(m, c, k.s.protocolMapping, home.freshId, home.now);
  }

  /** Every conversion has a result. */
  lemma SomeResult(from: Adapter, to: Adapter, version: string, d: Document, stamp: Stamp, texts: Texts)
    returns (r: Result<Document>)
    ensures ConvertsTo(from, to, version, d, stamp, texts, r)
  {
    match Parsed(from, d, stamp)
    case Err(f) => r := Err(f);
    case Ok(m) =>
      match to
      case Standard(g) => r := G.Formatted(m.(version := version), g.maxMessageSize, texts.length);
      case Selkies(s) =>
        var name := S.SomeName(m.kind, s.protocolMapping);
        r := S.Formatted(m.(version := version), name, texts.meta, texts.length);
  }

  /** What an offer or answer must be to get there and back, all of it known before the conversion. */
  predicate OfferConverts(k: Link, m: Message, home: Stamp) {
    match S.DecodeSdp(m.data)
    case Ok(Some(s)) =>
      && s.text != ""
      && SdpDocument(k, m.peerID, s).length <= k.s.maxMessageSize
      && Fits(k, OfferBackAs(m.peerID, s, home))
    case _ => false
  }

  predicate CandidateConverts(k: Link, m: Message, home: Stamp) {
    match S.DecodeCandidate(m.data)
    case Ok(Some(c)) =>
      && c.text != ""
      && IceDocument(k, m.peerID, c).length <= k.s.maxMessageSize
      && Fits(k, CandidateBackAs(m.peerID, c, home))
    case _ => false
  }

  /** An offer or answer gets there and back exactly if it has an SDP with text and the texts fit. */
  lemma OfferComesBackIff(k: Link, d: Document, out: Stamp, home: Stamp, m: Message)
    requires Sized(k) && Parsed(Std(k), d, out) == Ok(m) && IsOffer(m)
    ensures ComesBack(k, d, out, home) <==> OfferConverts(k, m, home)
  {
    if there, back :| RoundTrip(k, d, out, home, there, back) {
      OfferThere(k, d, out, m, Ok(there));
      OfferBack(k, m.peerID, S.DecodeSdp(m.data).value.value, home, Ok(back));
    } else if OfferConverts(k, m, home) {
      var s := S.DecodeSdp(m.data).value.value;
      var there := SomeResult(Std(k), Sel(k), SELKIES, d, out, k.texts);
      OfferThere(k, d, out, m, there);
      var back := SomeResult(Sel(k), Std(k), GSTREAMER, there.value, home, k.texts);
      OfferBack(k, m.peerID, s, home, back);
      assert RoundTrip(k, d, out, home, there.value, back.value);
    }
  }

  lemma CandidateComesBackIff(k: Link, d: Document, out: Stamp, home: Stamp, m: Message)
    requires Sized(k) && Parsed(Std(k), d, out) == Ok(m) && m.kind == ICE_CANDIDATE
    ensures ComesBack(k, d, out, home) <==> CandidateConverts(k, m, home)
  {
    if there, back :| RoundTrip(k, d, out, home, there, back) {
      CandidateThere(k, d, out, m, Ok(there));
      CandidateBack(k, m, S.DecodeCandidate(m.data).value.value, home, Ok(back));
    } else if CandidateConverts(k, m, home) {
      var c := S.DecodeCandidate(m.data).value.value;
      var there := SomeResult(Std(k), Sel(k), SELKIES, d, out, k.texts);
      CandidateThere(k, d, out, m, there);
      var back := SomeResult(Sel(k), Std(k), GSTREAMER, there.value, home, k.texts);
      CandidateBack(k, m, c, home, back);
      assert RoundTrip(k, d, out, home, there.value, back.value);
    }
  }

  // ------------------------------------------------------------------ what a round keeps

  /** The SDP of a message that came back, and everything about that document that a second round needs. */
  lemma OfferRound(k: Link, d: Document, out: Stamp, home: Stamp, there: Document, back: Document, m: Message, reader: Stamp)
    returns (s: S.Sdp)
    requires Sized(k) && RoundTrip(k, d, out, home, there, back) && Parsed(Std(k), d, out) == Ok(m) && IsOffer(m)
    ensures S.DecodeSdp(m.data) == Ok(Some(s)) && s.text != ""
    ensures there == SdpDocument(k, m.peerID, s) && there.length <= k.s.maxMessageSize
    ensures Parsed(Std(k), back, reader) == Ok(Restamped(OfferBackAs(m.peerID, s, home), home))
    ensures S.DecodeSdp(S.SdpData(s)) == Ok(Some(s))
  {
    OfferThere(k, d, out, m, Ok(there));
    s := S.DecodeSdp(m.data).value.value;
    OfferBack(k, m.peerID, s, home, Ok(back));
    BackIsRead(k, S.KindOfSdp(s.kind), m.peerID, S.SdpData(s), home, back, reader);
    S.StringsOnTheWire(s);
    S.DecodeSdpData(s);
  }

  /**
   An offer or answer that went to Selkies and back has the same peer, SDP type and SDP text, and
   the same message type exactly when the SDP's own type is an answer just if the message's is.
   */
  lemma OfferKept(k: Link, d: Document, out: Stamp, home: Stamp, there: Document, back: Document, m: Message, reader: Stamp)
    requires Sized(k) && RoundTrip(k, d, out, home, there, back) && Parsed(Std(k), d, out) == Ok(m) && IsOffer(m)
    ensures var r := Parsed(Std(k), back, reader);
            && r.Ok? && r.value.peerID == m.peerID
            && S.DecodeSdp(m.data).Ok? && S.DecodeSdp(m.data).value.Some?
            && S.DecodeSdp(r.value.data) == S.DecodeSdp(m.data)
            && r.value.kind == S.KindOfSdp(S.DecodeSdp(m.data).value.value.kind)
            && (r.value.kind == m.kind <==> (S.DecodeSdp(m.data).value.value.kind == ANSWER <==> m.kind == ANSWER))
  {
    var s := OfferRound(k, d, out, home, there, back, m, reader);
    KindsDiffer();
  }

  /**
   A second round of an offer or answer, with stamps of its own: the Selkies document is the very
   same, and the standard document reads as the first one with only id and timestamp drawn anew.
   */
  lemma OfferFixedPoint(k: Link, d: Document, out: Stamp, home: Stamp, there: Document, back: Document, m: Message,
                        out2: Stamp, home2: Stamp, there2: Document, back2: Document, reader: Stamp)
    requires Sized(k) && RoundTrip(k, d, out, home, there, back) && Parsed(Std(k), d, out) == Ok(m) && IsOffer(m)
    requires RoundTrip(k, back, out2, home2, there2, back2)
    ensures there2 == there
    ensures Parsed(Std(k), back, reader).Ok?
    ensures Parsed(Std(k), back2, reader) == Ok(Restamped(Parsed(Std(k), back, reader).value, home2))
    ensures home2.freshId != home.freshId ==> back2 != back
    ensures home2 == home ==> back2 == back
  {
    var s := OfferRound(k, d, out, home, there, back, m, reader);
    var s1 := OfferRound(k, d, out, home, there, back, m, out2);
    var n := Parsed(Std(k), back, out2).value;
    var s2 := OfferRound(k, back, out2, home2, there2, back2, n, reader);
    OfferBack(k, m.peerID, s, home, Ok(back));
    OfferBack(k, n.peerID, s2, home2, Ok(back2));
  }

  /** The second round succeeds exactly if the standard document fits with its own id and timestamp. */
  lemma OfferSecondRoundIff(k: Link, d: Document, out: Stamp, home: Stamp, there: Document, back: Document, m: Message,
                            out2: Stamp, home2: Stamp)
    requires Sized(k) && RoundTrip(k, d, out, home, there, back) && Parsed(Std(k), d, out) == Ok(m) && IsOffer(m)
    ensures S.DecodeSdp(m.data).Ok? && S.DecodeSdp(m.data).value.Some?
    ensures ComesBack(k, back, out2, home2) <==>
            Fits(k, OfferBackAs(m.peerID, S.DecodeSdp(m.data).value.value, home2))
  {
    var s := OfferRound(k, d, out, home, there, back, m, out2);
    KindsDiffer();
    OfferComesBackIff(k, back, out2, home2, Parsed(Std(k), back, out2).value);
  }

  lemma CandidateRound(k: Link, d: Document, out: Stamp, home: Stamp, there: Document, back: Document, m: Message,
                       reader: Stamp)
    returns (c: S.Candidate)
    requires Sized(k) && RoundTrip(k, d, out, home, there, back)
    requires Parsed(Std(k), d, out) == Ok(m) && m.kind == ICE_CANDIDATE
    ensures S.DecodeCandidate(m.data) == Ok(Some(c)) && c.text != "" && there == IceDocument(k, m.peerID, c)
    ensures Parsed(Std(k), back, reader) ==
            Ok(Restamped(Back(ICE_CANDIDATE, m.peerID, Wire(S.CandidateData(S.Returned(c))), home), home))
    ensures S.DecodeCandidate(Wire(S.CandidateData(S.Returned(c)))) == Ok(Some(S.Returned(c)))
    ensures FormatsTo(Std(k), CandidateBackAs(m.peerID, c, home), k.texts, Ok(back))
  {
    CandidateThere(k, d, out, m, Ok(there));
    c := S.DecodeCandidate(m.data).value.value;
    CandidateBack(k, m, c, home, Ok(back));
    BackIsRead(k, ICE_CANDIDATE, m.peerID, S.CandidateData(S.Returned(c)), home, back, reader);
    S.DecodeCandidateData(S.Returned(c));
  }

  /**
   An ICE message keeps its peer and candidate text, and its line index exactly when that is absent
   or a uint16; a missing sdpMid or usernameFragment comes back as the empty string.
   */
  lemma CandidateKept(k: Link, d: Document, out: Stamp, home: Stamp, there: Document, back: Document, m: Message,
                      reader: Stamp)
    requires Sized(k) && RoundTrip(k, d, out, home, there, back)
    requires Parsed(Std(k), d, out) == Ok(m) && m.kind == ICE_CANDIDATE
    ensures S.DecodeCandidate(m.data).Ok? && S.DecodeCandidate(m.data).value.Some?
    ensures var c := S.DecodeCandidate(m.data).value.value;
            var r := Parsed(Std(k), back, reader);
            && r.Ok? && r.value.peerID == m.peerID && r.value.kind == ICE_CANDIDATE
            && S.DecodeCandidate(r.value.data) == Ok(Some(S.Returned(c)))
            && (S.Returned(c).line == c.line <==> c.line.None? || 0 <= c.line.value < 0x1_0000)
  {
    var c := CandidateRound(k, d, out, home, there, back, m, reader);
    S.LineSurvivesIff(c.line);
  }

  /**
   Whatever an ICE message loses is lost on the first round: the second standard document reads as
   the first one with only id and timestamp drawn anew.
   */
  lemma CandidateFixedPoint(k: Link, d: Document, out: Stamp, home: Stamp, there: Document, back: Document, m: Message,
                            out2: Stamp, home2: Stamp, there2: Document, back2: Document, reader: Stamp)
    requires Sized(k) && RoundTrip(k, d, out, home, there, back)
    requires Parsed(Std(k), d, out) == Ok(m) && m.kind == ICE_CANDIDATE
    requires RoundTrip(k, back, out2, home2, there2, back2)
    ensures S.DecodeCandidate(m.data).Ok? && S.DecodeCandidate(m.data).value.Some?
    ensures there2 == IceDocument(k, m.peerID, S.Returned(S.DecodeCandidate(m.data).value.value))
    ensures Parsed(Std(k), back, reader).Ok?
    ensures Parsed(Std(k), back2, reader) == Ok(Restamped(Parsed(Std(k), back, reader).value, home2))
    ensures home2.freshId != home.freshId ==> back2 != back
    ensures home2 == home ==> back2 == back
  {
    var c := CandidateRound(k, d, out, home, there, back, m, reader);
    var c1 := CandidateRound(k, d, out, home, there, back, m, out2);
    var n := Parsed(Std(k), back, out2).value;
    var c2 := CandidateRound(k, back, out2, home2, there2, back2, n, reader);
    S.ReturnedTwice(c);
  }

  /**
   The second round of an ICE message succeeds exactly if the Selkies text with both optional
   strings filled in is within the limit, and the standard document with its own id and timestamp.
   */
  lemma CandidateSecondRoundIff(k: Link, d: Document, out: Stamp, home: Stamp, there: Document, back: Document, m: Message,
                                out2: Stamp, home2: Stamp)
    requires Sized(k) && RoundTrip(k, d, out, home, there, back)
    requires Parsed(Std(k), d, out) == Ok(m) && m.kind == ICE_CANDIDATE
    ensures S.DecodeCandidate(m.data).Ok? && S.DecodeCandidate(m.data).value.Some?
    ensures var c := S.DecodeCandidate(m.data).value.value;
            ComesBack(k, back, out2, home2) <==>
            && IceDocument(k, m.peerID, S.Returned(c)).length <= k.s.maxMessageSize
            && Fits(k, CandidateBackAs(m.peerID, c, home2))
  {
    var c := CandidateRound(k, d, out, home, there, back, m, out2);
    S.ReturnedTwice(c);
    CandidateComesBackIff(k, back, out2, home2, Parsed(Std(k), back, out2).value);
  }
}
