/**
 The sequence validator: a sliding window of messages that five rules rescan on every message.
 Clock readings are parameters; message timestamps are milliseconds, other times nanoseconds.
 */
module MessageValidator {
  import opened Basics
  import opened Division

  /** The types the sequence rules look at; any other type is told apart by its name only. */
  datatype MessageType = Hello | Offer | Answer | IceCandidate | Other(name: string)

  datatype Message = Message(kind: MessageType, id: string, peerID: string, timestamp: int)

  /** A history entry: the message and when it was validated. */
  datatype Entry = Entry(message: Message, time: int)

  // ------------------------------------------------------------------ session state, declared

  predicate Tracked(kind: MessageType) {
    !kind.Other?
  }

  /** The hello, offer, answer and ICE messages of one peer, in order. */
  function OwnMessages(history: seq<Entry>, peer: string): seq<MessageType> {
    if history == [] then []
    else
      var m := history[|history| - 1].message;
      OwnMessages(history[..|history| - 1], peer) + if m.peerID == peer && Tracked(m.kind) then [m.kind] else []
  }

  /** None, or a hello or an answer first and no hello later. */
  predicate ProperSession(own: seq<MessageType>) {
    own == [] || ((own[0] == Hello || own[0] == Answer) && Hello !in own[1..])
  }

  predicate PeerProper(history: seq<Entry>, peer: string) {
    ProperSession(OwnMessages(history, peer))
  }

  ghost predicate AllProper(history: seq<Entry>) {
    forall peer :: PeerProper(history, peer)
  }

  lemma OwnAppend(history: seq<Entry>, e: Entry, peer: string)
    ensures OwnMessages(history + [e], peer) ==
            OwnMessages(history, peer) +
            if e.message.peerID == peer && Tracked(e.message.kind) then [e.message.kind] else []
  {
    assert (history + [e])[..|history|] == history;
  }

  lemma {:induction false} OwnConcat(a: seq<Entry>, b: seq<Entry>, peer: string)
    ensures OwnMessages(a + b, peer) == OwnMessages(a, peer) + OwnMessages(b, peer)
  {
    if b == [] {
      assert a + b == a;
    } else {
      var n := |b| - 1;
      OwnConcat(a, b[..n], peer);
      assert (a + b)[..|a + b| - 1] == a + b[..n];
    }
  }

  /** An improper session does not become proper by more messages. */
  lemma ImproperStays(own: seq<MessageType>, more: seq<MessageType>)
    requires !ProperSession(own)
    ensures !ProperSession(own + more)
  {
    assert (own + more)[1..] == own[1..] + more;
  }

  // ------------------------------------------------------------------ session state, as scanned

  datatype SessionError =
    | NoError
    | HelloWhileConnected(peer: string)
    | OfferWithoutHandshake(peer: string)
    | IceWithoutHandshake(peer: string)

  datatype PeerState = Connecting | Negotiating | Disconnected

  /** The scan's verdict is about each peer's own messages only, however they interleave. */
  method SessionStateConsistency(history: seq<Entry>) returns (err: SessionError)
    ensures err == NoError <==> AllProper(history)
    ensures err != NoError ==> !PeerProper(history, err.peer)
  {
    var peerStates: map<string, PeerState> := map[];
    var i := 0;
    while i < |history|
      invariant i <= |history|
      invariant AllProper(history[..i]) && Tracks(peerStates, history[..i])
    {
      var peerID, kind := history[i].message.peerID, history[i].message.kind;
      var known := peerID in peerStates && peerStates[peerID] != Disconnected;
      ghost var own := OwnMessages(history[..i], peerID);
      assert known <==> own != [];
      ghost var before := peerStates;
      if kind == Hello {
        if known {
          ScanRejects(history, i);
          return HelloWhileConnected(peerID);
        }
        peerStates := peerStates[peerID := Connecting];
      } else if kind == Offer {
        if !known {
          ScanRejects(history, i);
          return OfferWithoutHandshake(peerID);
        }
        peerStates := peerStates[peerID := Negotiating];
      } else if kind == Answer {
        peerStates := peerStates[peerID := Negotiating];
      } else if kind == IceCandidate {
        if !known {
          ScanRejects(history, i);
          return IceWithoutHandshake(peerID);
        }
      }
      ScanAccepts(history, i, before, peerStates);
      i := i + 1;
    }
    assert history[..i] == history;
    err := NoError;
  }

  /** Whether message `m` may follow a peer's `own` messages. */
  predicate Fits(m: MessageType, own: seq<MessageType>) {
    match m
    case Hello => own == []
    case Offer => own != []
    case IceCandidate => own != []
    case Answer => true
    case Other(_) => true
  }

  lemma ProperAppend(own: seq<MessageType>, m: MessageType)
    requires ProperSession(own) && Tracked(m)
    ensures ProperSession(own + [m]) <==> Fits(m, own)
  {
    assert own != [] ==> (own + [m])[1..] == own[1..] + [m];
  }

  /** What message `i` does to every peer's own messages, and when it keeps them proper. */
  lemma ScanStep(history: seq<Entry>, i: nat)
    requires i < |history| && AllProper(history[..i])
    ensures var m := history[i].message;
            var own := OwnMessages(history[..i], m.peerID);
            && (forall p :: OwnMessages(history[..i + 1], p) ==
                            if p == m.peerID && Tracked(m.kind) then own + [m.kind] else OwnMessages(history[..i], p))
            && (AllProper(history[..i + 1]) <==> Fits(m.kind, own))
            && (PeerProper(history[..i + 1], m.peerID) <==> Fits(m.kind, own))
  {
    var m := history[i].message;
    var own := OwnMessages(history[..i], m.peerID);
    assert history[..i + 1] == history[..i] + [history[i]];
    forall p
      ensures OwnMessages(history[..i + 1], p) ==
              if p == m.peerID && Tracked(m.kind) then own + [m.kind] else OwnMessages(history[..i], p)
    {
      OwnAppend(history[..i], history[i], p);
    }
    assert PeerProper(history[..i], m.peerID);
    if Tracked(m.kind) {
      ProperAppend(own, m.kind);
    }
    assert PeerProper(history[..i + 1], m.peerID) <==> Fits(m.kind, own);
    var longer := history[..i + 1];
    forall p ensures p != m.peerID ==> PeerProper(longer, p) {
      assert PeerProper(history[..i], p);
    }
  }

  /** The peers in the map are those with messages of their own so far. */
  ghost predicate Tracks(peerStates: map<string, PeerState>, history: seq<Entry>) {
    && (forall p :: p in peerStates <==> OwnMessages(history, p) != [])
    && (forall p :: p in peerStates ==> peerStates[p] != Disconnected)
  }

  /** What the scan may do to the map on a message of this kind. */
  predicate Follows(before: map<string, PeerState>, after: map<string, PeerState>, m: Message) {
    if Tracked(m.kind)
    then m.peerID in after && after == before[m.peerID := after[m.peerID]] && after[m.peerID] != Disconnected
    else after == before
  }

  lemma ScanAccepts(history: seq<Entry>, i: nat, before: map<string, PeerState>, after: map<string, PeerState>)
    requires i < |history| && AllProper(history[..i]) && Tracks(before, history[..i])
    requires Fits(history[i].message.kind, OwnMessages(history[..i], history[i].message.peerID))
    requires Follows(before, after, history[i].message)
    ensures AllProper(history[..i + 1]) && Tracks(after, history[..i + 1])
  {
    ScanStep(history, i);
  }

  /** A message that does not fit makes its peer improper for good. */
  lemma ScanRejects(history: seq<Entry>, i: nat)
    requires i < |history| && AllProper(history[..i])
    requires !Fits(history[i].message.kind, OwnMessages(history[..i], history[i].message.peerID))
    ensures !PeerProper(history, history[i].message.peerID)
  {
    ScanStep(history, i);
    ScanError(history, i, history[i].message.peerID);
  }

  /** A peer found improper by message `i` is improper in the whole history. */
  lemma ScanError(history: seq<Entry>, i: nat, p: string)
    requires i < |history|
    ensures !PeerProper(history[..i + 1], p) ==> !PeerProper(history, p)
  {
    if !PeerProper(history[..i + 1], p) {
      OwnConcat(history[..i + 1], history[i + 1..], p);
      assert history == history[..i + 1] + history[i + 1..];
      ImproperStays(OwnMessages(history[..i + 1], p), OwnMessages(history[i + 1..], p));
    }
  }

  // ------------------------------------------------------------------ the other rules

  /** The last two messages are an offer and an answer of one peer. */
  ghost predicate HandshakeClash(history: seq<Entry>) {
    exists front, a, b ::
      history == front + [a, b] && a.message.kind == Offer && b.message.kind == Answer && a.message.peerID == b.message.peerID
  }

  method HandshakeSequence(history: seq<Entry>) returns (bad: bool)
    ensures bad <==> HandshakeClash(history)
  {
    if |history| < 2 {
      return false;
    }
    var recent := history[|history| - 2..];
    bad := false;
    assert history == history[..|history| - 2] + [recent[0], recent[1]];
    if recent[0].message.kind == Offer && recent[1].message.kind == Answer {
      if recent[0].message.peerID == recent[1].message.peerID {
        bad := true;
      }
    }
  }

  /** Some message is stamped at least 61 seconds before its predecessor. */
  ghost predicate TimestampDrop(history: seq<Entry>) {
    exists i :: 0 <= i < |history| - 1 && history[i].message.timestamp - history[i + 1].message.timestamp >= 61_000
  }

  method TimestampSequence(history: seq<Entry>) returns (bad: bool)
    ensures bad <==> TimestampDrop(history)
  {
    if |history| < 2 {
      return false;
    }
    var i := 1;
    while i < |history|
      invariant 1 <= i <= |history|
      invariant forall j :: 0 <= j < i - 1 ==>
                  history[j].message.timestamp - history[j + 1].message.timestamp < 61_000
    {
      var prev, curr := history[i - 1].message.timestamp, history[i].message.timestamp;
      if curr < prev {
        if TruncDiv(prev - curr, 1000) > 60 {
          assert history[i - 1].message.timestamp - history[i].message.timestamp >= 61_000;
          return true;
        }
      }
      i := i + 1;
    }
    bad := false;
  }

  /** The tenth message from the end was validated less than a second ago. */
  ghost predicate TooFast(history: seq<Entry>, now: int) {
    exists i :: 0 <= i == |history| - 10 && now < history[i].time + 1_000_000_000
  }

  method MessageRate(history: seq<Entry>, now: int) returns (bad: bool)
    ensures bad <==> TooFast(history, now)
  {
    if |history| < 10 {
      return false;
    }
    var recent := history[|history| - 10..];
    var timeSpan := now - recent[0].time;
    bad := timeSpan < 1_000_000_000;
    assert recent[0] == history[|history| - 10];
  }

  predicate Resembles(latest: Entry, prev: Entry) {
    || latest.message.id == prev.message.id
    || (latest.message.kind == prev.message.kind && latest.message.peerID == prev.message.peerID
        && latest.time - prev.time < 5_000_000_000)
  }

  /** The last message resembles one of the nine before it. */
  ghost predicate Duplicated(history: seq<Entry>) {
    exists i :: 0 <= i < |history| - 1 && i >= |history| - 10 && Resembles(history[|history| - 1], history[i])
  }

  method DuplicateDetection(history: seq<Entry>) returns (bad: bool)
    ensures bad <==> Duplicated(history)
  {
    if |history| < 2 {
      return false;
    }
    var latest := history[|history| - 1];
    var i := |history| - 2;
    while i >= 0 && i >= |history| - 10
      invariant -1 <= i <= |history| - 2
      invariant forall j :: i < j < |history| - 1 && j >= |history| - 10 ==> !Resembles(latest, history[j])
      decreases i + 1
    {
      var prev := history[i];
      if latest.message.id == prev.message.id {
        assert Resembles(latest, history[i]);
        return true;
      }
      if latest.message.kind == prev.message.kind && latest.message.peerID == prev.message.peerID
         && latest.time - prev.time < 5_000_000_000 {
        assert Resembles(latest, history[i]);
        return true;
      }
      i := i - 1;
    }
    bad := false;
  }

  // ------------------------------------------------------------------ the window

  /** Append, then drop the oldest entry if there are now too many. */
  function Retain(window: seq<Entry>, e: Entry, max: int): seq<Entry> {
    var longer := window + [e];
    if |longer| > max then longer[1..] else longer
  }

  function Replay(window: seq<Entry>, entries: seq<Entry>, max: int): seq<Entry> {
    if entries == [] then window
    else Retain(Replay(window, entries[..|entries| - 1], max), entries[|entries| - 1], max)
  }

  function Last(entries: seq<Entry>, k: int): seq<Entry>
    requires 0 <= k <= |entries|
  {
    entries[|entries| - k..]
  }

  function AtLeast0(a: int): nat {
    if a < 0 then 0 else a
  }

  /** Since a clear the window is exactly the last min(n, MaxHistorySize) messages. */
  lemma {:induction false} WindowIsLast(entries: seq<Entry>, max: int)
    ensures Replay([], entries, max) == Last(entries, Min(|entries|, AtLeast0(max)))
  {
    if entries != [] {
      var front, e := entries[..|entries| - 1], entries[|entries| - 1];
      WindowIsLast(front, max);
      RetainLast(front, e, max);
      assert entries == front + [e];
    }
  }

  lemma RetainLast(front: seq<Entry>, e: Entry, max: int)
    ensures var all := front + [e];
            Retain(Last(front, Min(|front|, AtLeast0(max))), e, max) == Last(all, Min(|all|, AtLeast0(max)))
  {
    var k := Min(|front|, AtLeast0(max));
    assert Last(front, k) + [e] == Last(front + [e], k + 1);
  }

  /**
   One entry is dropped per message, so a limit lowered below the window's length is never
   reached: the length stays within the limit exactly when it already was.
   */
  lemma {:induction false} LoweredLimit(window: seq<Entry>, entries: seq<Entry>, max: int)
    requires max >= 0
    ensures |window| > max ==> |Replay(window, entries, max)| == |window|
    ensures |window| <= max ==> |Replay(window, entries, max)| == Min(|window| + |entries|, max)
  {
    if entries != [] {
      LoweredLimit(window, entries[..|entries| - 1], max);
    }
  }

  /** An error about a peer lasts until one of that peer's own tracked messages is evicted. */
  lemma ErrorPersists(window: seq<Entry>, e: Entry, max: int, peer: string)
    requires !PeerProper(window, peer)
    requires |window| + 1 <= max || (window != [] && OwnMessages(window[..1], peer) == [])
    ensures !PeerProper(Retain(window, e, max), peer)
  {
    OwnAppend(window, e, peer);
    var own := OwnMessages(window, peer);
    var longer := window + [e];
    var more := if e.message.peerID == peer && Tracked(e.message.kind) then [e.message.kind] else [];
    ImproperStays(own, more);
    if |longer| > max {
      assert longer == window[..1] + longer[1..];
      OwnConcat(window[..1], longer[1..], peer);
    }
  }

  /** A replayed window is what is left of everything after the evicted front. */
  lemma {:induction false} ReplayIsSuffix(window: seq<Entry>, entries: seq<Entry>, max: int)
    ensures |Replay(window, entries, max)| <= |window| + |entries|
    ensures var all := window + entries;
            Replay(window, entries, max) == all[|all| - |Replay(window, entries, max)|..]
  {
    if entries == [] {
      assert window + entries == window;
    } else {
      var front, e := entries[..|entries| - 1], entries[|entries| - 1];
      ReplayIsSuffix(window, front, max);
      assert window + entries == (window + front) + [e];
      RetainSuffix(window + front, Replay(window, front, max), e, max);
    }
  }

  lemma RetainSuffix(all: seq<Entry>, w: seq<Entry>, e: Entry, max: int)
    requires |w| <= |all| && w == all[|all| - |w|..]
    ensures var r := Retain(w, e, max);
            |r| <= |all| + 1 && r == (all + [e])[|all| + 1 - |r|..]
  {}

  /** What a run of messages has evicted from the window and from those messages. */
  function EvictedBy(window: seq<Entry>, entries: seq<Entry>, max: int): seq<Entry> {
    var all, left := window + entries, Replay(window, entries, max);
    if |left| > |all| then [] else all[..|all| - |left|]
  }

  /** Over any number of messages an error about a peer lasts until one of its own messages is evicted. */
  lemma ErrorPersistsRun(window: seq<Entry>, entries: seq<Entry>, max: int, peer: string)
    requires !PeerProper(window, peer)
    requires OwnMessages(EvictedBy(window, entries, max), peer) == []
    ensures !PeerProper(Replay(window, entries, max), peer)
  {
    ReplayIsSuffix(window, entries, max);
    var all, gone, left := window + entries, EvictedBy(window, entries, max), Replay(window, entries, max);
    assert all == gone + left;
    OwnConcat(window, entries, peer);
    OwnConcat(gone, left, peer);
    ImproperStays(OwnMessages(window, peer), OwnMessages(entries, peer));
  }

  /** Evicting `gone` does not make peer `p` improper. */
  predicate Spares(gone: seq<Entry>, w: seq<Entry>, p: string) {
    OwnMessages(gone, p) == [] || OwnMessages(w, p) == [] || OwnMessages(w, p)[0] == Answer
  }

  /**
   Eviction itself makes errors: a proper peer stays proper exactly if it loses none of its own
   messages, keeps none, or the first one that it keeps is an answer.
   */
  lemma EvictionSparesIff(gone: seq<Entry>, w: seq<Entry>, p: string)
    requires PeerProper(gone + w, p)
    ensures PeerProper(w, p) <==> Spares(gone, w, p)
  {
    OwnConcat(gone, w, p);
    var g, own := OwnMessages(gone, p), OwnMessages(w, p);
    if g != [] && own != [] {
      assert (g + own)[1..] == g[1..] + own;
      assert Hello !in own;
    } else {
      assert g == [] ==> g + own == own;
    }
  }

  /** So a history in which every peer is proper is reported exactly if eviction does not spare some peer. */
  lemma WindowProperIff(entries: seq<Entry>, max: int)
    requires AllProper(entries)
    ensures var gone := |entries| - Min(|entries|, AtLeast0(max));
            AllProper(Replay([], entries, max)) <==> forall p :: Spares(entries[..gone], entries[gone..], p)
  {
    var gone := |entries| - Min(|entries|, AtLeast0(max));
    WindowIsLast(entries, max);
    var front, w := entries[..gone], entries[gone..];
    assert entries == front + w;
    forall p ensures PeerProper(w, p) <==> Spares(front, w, p) {
      assert PeerProper(entries, p);
      EvictionSparesIff(front, w, p);
    }
  }

  /**
   In particular a peer that says hello once and then only offers and ICE candidates is found
   proper exactly as long as its hello is still in the window.
   */
  lemma LongSessionFlaggedIff(entries: seq<Entry>, peer: string, max: int)
    requires max >= 1 && OneHello(entries, peer)
    ensures AllProper(Replay([], entries, max)) <==> |entries| <= max
  {
    OneHelloProper(entries, peer);
    WindowProperIff(entries, max);
    var gone := |entries| - Min(|entries|, max);
    var front, w := entries[..gone], entries[gone..];
    OnePeer(front, peer);
    OnePeer(w, peer);
    if gone > 0 {
      assert !Spares(front, w, peer);
    } else {
      forall p ensures Spares(front, w, p) {}
    }
  }

  /** One peer: a hello first, then only offers and ICE candidates. */
  predicate OneHello(entries: seq<Entry>, peer: string) {
    && entries != [] && entries[0].message.kind == Hello
    && (forall i :: 0 <= i < |entries| ==> entries[i].message.peerID == peer)
    && forall i :: 1 <= i < |entries| ==> entries[i].message.kind == Offer || entries[i].message.kind == IceCandidate
  }

  lemma OneHelloProper(entries: seq<Entry>, peer: string)
    requires OneHello(entries, peer)
    ensures AllProper(entries)
  {
    OnePeer(entries, peer);
    var own := OwnMessages(entries, peer);
    forall i | 0 <= i < |own[1..]| ensures own[1..][i] != Hello { assert own[1..][i] == own[i + 1]; }
    forall p ensures PeerProper(entries, p) {
      assert p != peer ==> OwnMessages(entries, p) == [];
    }
  }

  lemma {:induction false} OnePeer(w: seq<Entry>, peer: string)
    requires forall i :: 0 <= i < |w| ==> w[i].message.peerID == peer && Tracked(w[i].message.kind)
    ensures |OwnMessages(w, peer)| == |w|
    ensures forall i :: 0 <= i < |w| ==> OwnMessages(w, peer)[i] == w[i].message.kind
    ensures forall p :: p != peer ==> OwnMessages(w, p) == []
  {
    if w != [] {
      OnePeer(w[..|w| - 1], peer);
    }
  }

  // ------------------------------------------------------------------ the object

  /** What a finding is about: a sequence rule, or a format or content rule known by its code only. */
  datatype Rule = Handshake | Timestamps | Rate | Duplicates | SessionState | FormatOrContent(code: string)

  datatype ValidationResult = ValidationResult(valid: bool, errors: seq<Rule>, warnings: seq<Rule>, info: seq<Rule>)

  const CLEAN: ValidationResult := ValidationResult(true, [], [], [])

  const SEQUENCE_RULES: seq<Rule> := [Handshake, Timestamps, Rate, Duplicates, SessionState]

  ghost predicate Broken(rule: Rule, w: seq<Entry>, now: int) {
    match rule
    case Handshake => HandshakeClash(w)
    case Timestamps => TimestampDrop(w)
    case Rate => TooFast(w, now)
    case Duplicates => Duplicated(w)
    case SessionState => !AllProper(w)
    case FormatOrContent(_) => false
  }

  method CheckRule(rule: Rule, w: seq<Entry>, now: int) returns (broken: bool)
    ensures broken <==> Broken(rule, w, now)
  {
    match rule
    case Handshake => broken := HandshakeSequence(w);
    case Timestamps => broken := TimestampSequence(w);
    case Rate => broken := MessageRate(w, now);
    case Duplicates => broken := DuplicateDetection(w);
    case SessionState =>
      var err := SessionStateConsistency(w);
      broken := err != NoError;
    case FormatOrContent(_) => broken := false;
  }

  /** File a broken rule under its severity; only the session-state rule is an error. */
  function Noted(r: ValidationResult, rule: Rule): ValidationResult {
    match rule
    case SessionState => r.(errors := r.errors + [rule], valid := false)
    case Duplicates => r.(info := r.info + [rule])
    case _ => r.(warnings := r.warnings + [rule])
  }

  /** What the first `i` rules report about a window. */
  ghost function Collected(i: nat, w: seq<Entry>, now: int): ValidationResult
    requires i <= |SEQUENCE_RULES|
  {
    if i == 0 then CLEAN
    else
      var r := Collected(i - 1, w, now);
      if Broken(SEQUENCE_RULES[i - 1], w, now) then Noted(r, SEQUENCE_RULES[i - 1]) else r
  }

  function If(b: bool, rule: Rule): seq<Rule> {
    if b then [rule] else []
  }

  ghost function SequenceWarnings(w: seq<Entry>, now: int): seq<Rule> {
    If(HandshakeClash(w), Handshake) + If(TimestampDrop(w), Timestamps) + If(TooFast(w, now), Rate)
  }

  /** A sequence is valid exactly when every peer is proper; the other rules only warn or inform. */
  ghost predicate Reports(r: ValidationResult, w: seq<Entry>, now: int) {
    && (r.valid <==> AllProper(w))
    && r.errors == If(!AllProper(w), SessionState)
    && r.warnings == SequenceWarnings(w, now)
    && r.info == If(Duplicated(w), Duplicates)
  }

  /** A result is invalid exactly when it holds an error. */
  predicate Sound(r: ValidationResult) {
    r.valid <==> r.errors == []
  }

  lemma CollectedStep(i: nat, w: seq<Entry>, now: int)
    requires i < |SEQUENCE_RULES|
    ensures var r := Collected(i, w, now);
            Collected(i + 1, w, now) == if Broken(SEQUENCE_RULES[i], w, now) then Noted(r, SEQUENCE_RULES[i]) else r
  {}

  lemma AllRulesReport(w: seq<Entry>, now: int)
    ensures |SEQUENCE_RULES| == 5 && Reports(Collected(5, w, now), w, now)
  {
    CollectedStep(0, w, now);
    CollectedStep(1, w, now);
    CollectedStep(2, w, now);
    CollectedStep(3, w, now);
    CollectedStep(4, w, now);
    assert Collected(0, w, now) == CLEAN;
    var r3 := Collected(3, w, now);
    assert r3.warnings == SequenceWarnings(w, now);
  }

  class Validator {
    var messageHistory: seq<Entry>
    var maxHistorySize: int
    var enableSequenceCheck: bool

    constructor (maxHistorySize: int, enableSequenceCheck: bool)
      ensures messageHistory == []
      ensures this.maxHistorySize == maxHistorySize && this.enableSequenceCheck == enableSequenceCheck
    {
      messageHistory := [];
      this.maxHistorySize, this.enableSequenceCheck := maxHistorySize, enableSequenceCheck;
    }

    method AddToHistory(msg: Message, now: int)
      modifies this`messageHistory
      ensures messageHistory == Retain(old(messageHistory), Entry(msg, now), maxHistorySize)
    {
      messageHistory := messageHistory + [Entry(msg, now)];
      if |messageHistory| > maxHistorySize {
        messageHistory := messageHistory[1..];
      }
    }

    method ClearHistory()
      modifies this`messageHistory
      ensures messageHistory == []
    {
      messageHistory := [];
    }

    method SetConfig(maxHistorySize: int, enableSequenceCheck: bool)
      modifies this`maxHistorySize, this`enableSequenceCheck
      ensures this.maxHistorySize == maxHistorySize && this.enableSequenceCheck == enableSequenceCheck
    {
      this.maxHistorySize, this.enableSequenceCheck := maxHistorySize, enableSequenceCheck;
    }

    /** `now` is read when the message is stored, `later` by the rate rule. */
    method ValidateSequence(msg: Message, now: int, later: int) returns (result: ValidationResult)
      modifies this`messageHistory
      ensures !enableSequenceCheck ==> result == CLEAN && messageHistory == old(messageHistory)
      ensures enableSequenceCheck ==>
                && messageHistory == Retain(old(messageHistory), Entry(msg, now), maxHistorySize)
                && Reports(result, messageHistory, later)
    {
      result := CLEAN;
      if !enableSequenceCheck {
        return;
      }
      AddToHistory(msg, now);
      ghost var window := messageHistory;
      var i := 0;
      while i < |SEQUENCE_RULES|
        invariant messageHistory == window
        invariant 0 <= i <= |SEQUENCE_RULES|
        invariant result == Collected(i, messageHistory, later)
      {
        var broken := CheckRule(SEQUENCE_RULES[i], messageHistory, later);
        if broken {
          result := Noted(result, SEQUENCE_RULES[i]);
        }
        CollectedStep(i, messageHistory, later);
        i := i + 1;
      }
      AllRulesReport(messageHistory, later);
    }

    /** The results of the format and content rules, with the sequence rules run on the same message. */
    method ValidateMessage(format: ValidationResult, content: ValidationResult, msg: Message, now: int, later: int)
      returns (result: ValidationResult)
      modifies this`messageHistory
      ensures messageHistory ==
              if enableSequenceCheck then Retain(old(messageHistory), Entry(msg, now), maxHistorySize) else old(messageHistory)
      ensures result.valid <==> format.valid && content.valid && (enableSequenceCheck ==> AllProper(messageHistory))
      ensures result.errors == format.errors + content.errors + If(enableSequenceCheck && !AllProper(messageHistory), SessionState)
      ensures enableSequenceCheck ==>
                && result.warnings == format.warnings + content.warnings + SequenceWarnings(messageHistory, later)
                && result.info == format.info + content.info + If(Duplicated(messageHistory), Duplicates)
      ensures !enableSequenceCheck ==>
                result.warnings == format.warnings + content.warnings && result.info == format.info + content.info
      ensures Sound(format) && Sound(content) ==> Sound(result)
    {
      var sequence := ValidateSequence(msg, now, later);
      result := ValidationResult(
        format.valid && content.valid && sequence.valid,
        format.errors + content.errors + sequence.errors,
        format.warnings + content.warnings + sequence.warnings,
        format.info + content.info + sequence.info);
    }
  }
}
