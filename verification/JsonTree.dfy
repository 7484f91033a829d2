/**
 JSON as a value tree. Member names the protocol code reads or writes are constructors of Key, so
 that they are told apart at once; any other name is Name(..). Go's encoder and decoder appear as
 one function, Wire: what a tree looks like after it was marshalled and unmarshalled into an `any`.
 */
module JsonTree {
  import opened Basics
  import opened GoInts
  import opened Division

  datatype Key =
    | VersionKey | TypeKey | IdKey | TimestampKey | PeerIdKey | DataKey | MetadataKey | ErrorKey
    | ProtocolKey | ClientInfoKey | ServerInfoKey | CapabilitiesKey | UserAgentKey | PlatformKey
    | CodeKey | MessageKey | DetailsKey | RecoverableKey | SuggestionsKey
    | SdpKey | IceServersKey | UrlsKey | UsernameKey | CredentialKey
    | IceKey | CandidateKey | SdpMidKey | SdpMLineIndexKey | UsernameFragmentKey
    | Name(name: string)

  type Object = map<Key, Json>

  /** JInt is a Go integer that was not marshalled yet; numbers read from text are JNum. */
  datatype Json =
    | JNull
    | JBool(bit: bool)
    | JInt(int64: int)
    | JNum(float64: real)
    | JStr(text: string)
    | JArr(items: seq<Json>)
    | JObj(fields: Object)

  // ------------------------------------------------------------------ integers as float64

  const TWO_53: int := 0x20_0000_0000_0000

  /** Distance between neighbouring float64 values of size `a`, for integers from 2^53 on. */
  function Ulp(a: nat): (u: nat)
    ensures u >= 1
  {
    if a < TWO_53 then 1 else 2 * Ulp(a / 2)
  }

  /** Nearest multiple of `u`, ties to the even one. */
  function RoundTo(a: nat, u: nat): nat
    requires u >= 1
  {
    var q, r := a / u, a % u;
    if 2 * r < u || (2 * r == u && q % 2 == 0) then q * u else (q + 1) * u
  }

  /** The float64 that an integer literal is read as. */
  function Nearest(n: int): int {
    if n < 0 then 0 - RoundTo(-n, Ulp(-n)) else RoundTo(n, Ulp(n))
  }

  function Abs(n: int): nat {
    if n < 0 then -n else n
  }

  /** Whether an integer is a float64; every integer within 2^53 is. */
  predicate Exact(n: int) {
    Abs(n) % Ulp(Abs(n)) == 0
  }

  function Truncate(r: real): int {
    if r < 0.0 then -((-r).Floor) else r.Floor
  }

  /** Go's int64(r); outside the range the result is the one of amd64. */
  function Int64OfFloat(r: real): int {
    var n := Truncate(r);
    if IsInt64(n) then n else -TWO_63
  }

  /** What becomes of an int64 that is printed and read back as a float64. */
  function Carry(n: int): int {
    Int64OfFloat(Nearest(n) as real)
  }

  lemma TruncateIs(r: real)
    ensures -1.0 < r - Truncate(r) as real < 1.0
    ensures r >= 0.0 ==> 0 <= Truncate(r) && Truncate(r) as real <= r
    ensures r <= 0.0 ==> 0 >= Truncate(r) && Truncate(r) as real >= r
  {}

  lemma RoundExact(a: nat, u: nat)
    requires u >= 1
    ensures RoundTo(a, u) == a <==> a % u == 0
  {
    var q, r := a / u, a % u;
    assert a == q * u + r;
    if r != 0 {
      assert (q + 1) * u == q * u + u;
    }
  }

  lemma NearestExact(n: int)
    ensures Nearest(n) == n <==> Exact(n)
  {
    RoundExact(Abs(n), Ulp(Abs(n)));
  }

  /** The rounding error is at most half the distance between neighbours. */
  lemma RoundClose(a: nat, u: nat)
    requires u >= 1
    ensures 2 * Abs(RoundTo(a, u) - a) <= u
  {
    var q, r := a / u, a % u;
    assert a == q * u + r;
    assert (q + 1) * u == q * u + u;
  }

  lemma {:induction false} UlpBounds(a: nat)
    requires a >= TWO_53
    ensures TWO_53 / 2 * Ulp(a) <= a < TWO_53 * Ulp(a)
  {
    if a / 2 >= TWO_53 {
      UlpBounds(a / 2);
    }
  }

  lemma {:induction false} UlpScaled(a: nat, k: nat)
    requires TWO_53 / 2 <= k < TWO_53
    ensures Ulp(k * Ulp(a)) == Ulp(a)
  {
    if a >= TWO_53 {
      var u := Ulp(a / 2);
      UlpScaled(a / 2, k);
      assert k * Ulp(a) == 2 * (k * u);
      assert k * Ulp(a) >= TWO_53 by { assert k * u >= k; }
    }
  }

  /** A multiple of the spacing with a 53-bit quotient is a float64. */
  lemma ScaledExact(a: nat, k: nat)
    requires TWO_53 / 2 <= k < TWO_53
    ensures Exact(k * Ulp(a))
  {
    UlpScaled(a, k);
    MultipleOver(k, Ulp(a));
  }

  lemma TopExact(a: nat)
    ensures Exact(TWO_53 * Ulp(a))
  {
    UlpScaled(a, TWO_53 / 2);
    DoubledExact(TWO_53 / 2 * Ulp(a), Ulp(a));
  }

  lemma DoubledExact(m: nat, u: nat)
    requires u >= 1 && m == TWO_53 / 2 * u && Ulp(m) == u
    ensures Exact(2 * m)
  {
    var v := 2 * u;
    assert Ulp(2 * m) == v;
    MultipleOver(TWO_53 / 2, v);
    assert 2 * m == TWO_53 / 2 * v;
  }

  lemma RoundExactly(a: nat)
    ensures Exact(RoundTo(a, Ulp(a)))
  {
    if a >= TWO_53 {
      UlpBounds(a);
      QuotientBounds(a, Ulp(a));
      var k := if RoundTo(a, Ulp(a)) == a / Ulp(a) * Ulp(a) then a / Ulp(a) else a / Ulp(a) + 1;
      if k < TWO_53 {
        ScaledExact(a, k);
      } else {
        TopExact(a);
      }
    }
  }

  /** Rounding lands on a float64, so a second trip loses nothing. */
  lemma NearestIsExact(n: int)
    ensures Exact(Nearest(n))
  {
    RoundExactly(Abs(n));
  }

  lemma Monotone(x: int, y: int, u: nat)
    ensures x <= y ==> x * u <= y * u
  {}

  lemma QuotientBounds(a: nat, u: nat)
    requires u >= 1 && TWO_53 / 2 * u <= a < TWO_53 * u
    ensures TWO_53 / 2 <= a / u < TWO_53
  {
    var q := a / u;
    assert q * u <= a < (q + 1) * u by {
      assert a == q * u + a % u;
      assert (q + 1) * u == q * u + u;
    }
    Monotone(TWO_53, q, u);
    Monotone(q + 1, TWO_53 / 2, u);
  }

  lemma MultipleOver(k: nat, u: nat)
    requires u >= 1
    ensures (k * u) / u == k && (k * u) % u == 0
  {
    DivUnique(k * u, u, k, 0);
  }

  lemma CarryTwice(n: int)
    requires IsInt64(n)
    ensures IsInt64(Carry(n)) && Carry(Carry(n)) == Carry(n)
  {
    assert Carry(n) == if IsInt64(Nearest(n)) then Nearest(n) else -TWO_63;
    assert Exact(Carry(n)) by {
      NearestIsExact(n);
      UlpOfTwo63();
    }
    CarryExact(Carry(n));
  }

  /** Half way between two multiples the even one is taken. */
  lemma RoundTies(a: nat, u: nat)
    requires u >= 1 && 2 * (a % u) == u
    ensures RoundTo(a, u) / u % 2 == 0
  {
    var q := a / u;
    MultipleOver(q, u);
    MultipleOver(q + 1, u);
  }

  /** An int64 survives the trip exactly when it is a float64. */
  lemma CarryExact(n: int)
    requires IsInt64(n)
    ensures Carry(n) == n <==> Exact(n)
  {
    NearestExact(n);
    if Nearest(n) != n && !IsInt64(Nearest(n)) {
      assert Exact(-TWO_63) by { UlpOfTwo63(); }
    }
  }

  lemma UlpOfTwo63()
    ensures Ulp(TWO_63) == 2048
  {
    assert TWO_63 == 1024 * TWO_53;
    assert Ulp(TWO_53) == 2;
    assert Ulp(2 * TWO_53) == 4;
    assert Ulp(4 * TWO_53) == 8;
    assert Ulp(8 * TWO_53) == 16;
    assert Ulp(16 * TWO_53) == 32;
    assert Ulp(32 * TWO_53) == 64;
    assert Ulp(64 * TWO_53) == 128;
    assert Ulp(128 * TWO_53) == 256;
    assert Ulp(256 * TWO_53) == 512;
    assert Ulp(512 * TWO_53) == 1024;
  }

  lemma ExactUpTo53(n: int)
    requires -TWO_53 <= n <= TWO_53
    ensures Exact(n)
  {
    assert Ulp(TWO_53) == 2 * Ulp(TWO_53 / 2);
  }

  lemma FirstInexact()
    ensures !Exact(TWO_53 + 1) && Carry(TWO_53 + 1) == TWO_53
  {
    assert Ulp(TWO_53 + 1) == 2 * Ulp((TWO_53 + 1) / 2);
  }

  // ------------------------------------------------------------------ trees on the wire

  function Wire(v: Json): Json {
    match v
    case JInt(n) => JNum(Nearest(n) as real)
    case JArr(items) => JArr(seq(|items|, i requires 0 <= i < |items| => Wire(items[i])))
    case JObj(fields) => JObj(map k | k in fields :: Wire(fields[k]))
    case _ => v
  }

  lemma WireMember(o: Object, k: Key)
    ensures Wire(JObj(o)).JObj? && (k in Wire(JObj(o)).fields <==> k in o)
    ensures k in o ==> Wire(JObj(o)).fields[k] == Wire(o[k])
  {}

  lemma {:induction false} WireTwice(v: Json)
    ensures Wire(Wire(v)) == Wire(v)
  {
    match v
    case JArr(items) =>
      forall i | 0 <= i < |items| ensures Wire(Wire(items[i])) == Wire(items[i]) {
        WireTwice(items[i]);
      }
    case JObj(fields) =>
      forall k | k in fields ensures Wire(Wire(fields[k])) == Wire(fields[k]) {
        WireTwice(fields[k]);
      }
    case _ =>
  }

  // ------------------------------------------------------------------ reading members

  function StrOr(o: Object, k: Key, default: string): string {
    if k in o && o[k].JStr? then o[k].text else default
  }

  /** The strings of an array, in order; other items are skipped. */
  function Strings(items: seq<Json>): seq<string> {
    if items == [] then []
    else
      var last := items[|items| - 1];
      Strings(items[..|items| - 1]) + if last.JStr? then [last.text] else []
  }

  /** Exactly the strings are kept, in order. */
  lemma {:induction false} StringsKept(a: seq<Json>, b: seq<Json>)
    ensures Strings(a + b) == Strings(a) + Strings(b)
    ensures |a| == 1 ==> Strings(a) == if a[0].JStr? then [a[0].text] else []
  {
    if b == [] {
      assert a + b == a;
    } else {
      StringsKept(a, b[..|b| - 1]);
      assert (a + b)[..|a + b| - 1] == a + b[..|b| - 1];
    }
  }

  function StringsAt(o: Object, k: Key): seq<string> {
    if k in o && o[k].JArr? then Strings(o[k].items) else []
  }

  function IntOr(o: Object, k: Key, default: int): int {
    if k in o && o[k].JNum? then Int64OfFloat(o[k].float64)
    else if k in o && o[k].JInt? then o[k].int64
    else default
  }

  function BoolAt(o: Object, k: Key): bool {
    k in o && o[k].JBool? && o[k].bit
  }

  // ------------------------------------------------------------------ writing members

  function Text(s: string): Option<Json> {
    if s == "" then None else Some(JStr(s))
  }

  function Array(xs: seq<string>): Json {
    JArr(seq(|xs|, i requires 0 <= i < |xs| => JStr(xs[i])))
  }

  function List(xs: seq<string>): Option<Json> {
    if xs == [] then None else Some(Array(xs))
  }

  lemma {:induction false} StringsOfArray(xs: seq<string>)
    ensures Wire(Array(xs)) == Array(xs)
    ensures Strings(Array(xs).items) == xs
  {
    assert Wire(Array(xs)).items == Array(xs).items;
    if xs != [] {
      StringsOfArray(xs[..|xs| - 1]);
      assert Array(xs).items[..|xs| - 1] == Array(xs[..|xs| - 1]).items;
    }
  }
}
