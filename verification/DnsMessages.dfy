/** The messages inside DNS names and records - queries and responses with a truncated
    keyed hash - and how much of them fits. */
module DnsMessages {

  import opened Wrappers
  import opened Bytes
  import opened DnsNames
  import Base32
  import F = DnsFragments

  type U16 = x: nat | x < 65536

  datatype Error = Short | Magic | Mac

  const MAGIC_QUERY: Byte := 0xB6
  const MAGIC_RESP: Byte := 0xB4
  const MAC_LEN := 10
  const NONCE_BYTES := 6
  const QUERY_HDR := 8
  const RESP_HDR := 9

  /** The keyed hash is any function of key and message. */
  type Hash = (seq<Byte>, seq<Byte>) -> seq<Byte>

  function MacSum(h: Hash, key: seq<Byte>, msg: seq<Byte>): (m: seq<Byte>)
    ensures |m| == MAC_LEN
  {
    F.Slice(h(key, msg), 0, MAC_LEN)
  }

  // ---------------------------------------------------------------------------
  // Nonces
  // ---------------------------------------------------------------------------

  lemma {:induction false} BigEndianAt(v: nat, n: nat, i: nat)
    requires i < n
    ensures Power(256, n - 1 - i) > 0 && BigEndian(v, n)[i] == v / Power(256, n - 1 - i) % 256
  {
    PowerPositive(256, n - 1 - i);
    if i < n - 1 {
      BigEndianAt(v / 256, n - 1, i);
      PowerPositive(256, n - 2 - i);
      DivDiv(v, Power(256, n - 2 - i));
    }
  }

  lemma DivDiv(v: nat, p: nat)
    requires p > 0
    ensures v / 256 / p == v / (256 * p)
  {
    var a := v / 256;
    var q, m := a / p, a % p;
    assert a == p * q + m;
    assert 256 * p * q == 256 * (p * q);
    Remainder(v, 256 * p, q, 256 * m + v % 256);
  }

  /** Writes the low six bytes of n at position at, and nothing else. */
  method PutNonce(b: array<Byte>, at: nat, n: nat)
    requires at + NONCE_BYTES <= b.Length
    modifies b
    ensures b[at..at + NONCE_BYTES] == BigEndian(n, NONCE_BYTES)
    ensures b[..at] == old(b[..at]) && b[at + NONCE_BYTES..] == old(b[at + NONCE_BYTES..])
  {
    for i := 0 to NONCE_BYTES
      invariant b[..at] == old(b[..at]) && b[at + NONCE_BYTES..] == old(b[at + NONCE_BYTES..])
      invariant b[at..at + i] == BigEndian(n, NONCE_BYTES)[..i]
    {
      BigEndianAt(n, NONCE_BYTES, i);
      b[at + i] := n / Power(256, NONCE_BYTES - 1 - i) % 256;
      assert b[at..at + i + 1] == b[at..at + i] + [b[at + i]];
    }
  }

  method GetNonce(b: seq<Byte>) returns (n: nat)
    requires |b| >= NONCE_BYTES
    ensures n == FromBigEndian(b[..NONCE_BYTES])
  {
    n := 0;
    for i := 0 to NONCE_BYTES
      invariant n == FromBigEndian(b[..i])
    {
      assert b[..i + 1][..i] == b[..i];
      n := 256 * n + b[i];
    }
  }

  /** A nonce on the wire is its low 48 bits. */
  lemma NonceBack(n: nat)
    ensures FromBigEndian(BigEndian(n, NONCE_BYTES)) == n % 0x1_0000_0000_0000
  {
    assert Power(256, 3) == 0x100_0000;
    assert Power(256, 6) == 0x1_0000_0000_0000;
    BigEndianBack(n, NONCE_BYTES);
  }

  // ---------------------------------------------------------------------------
  // Queries
  // ---------------------------------------------------------------------------

  datatype Query = Query(respLen: U16, nonce: nat, data: seq<Byte>)

  /** Eighths of the wanted length, rounded up and cut to one byte. */
  function Eighths(n: U16): Byte { if (n + 7) / 8 < 255 then (n + 7) / 8 else 255 }

  function QueryBody(q: Query): seq<Byte> {
    [MAGIC_QUERY, Eighths(q.respLen)] + BigEndian(q.nonce, NONCE_BYTES) + q.data
  }

  function MarshalQuery(h: Hash, key: seq<Byte>, q: Query): seq<Byte> {
    QueryBody(q) + MacSum(h, key, QueryBody(q))
  }

  method Marshal(h: Hash, key: seq<Byte>, q: Query) returns (raw: seq<Byte>)
    ensures raw == MarshalQuery(h, key, q)
  {
    var body := new Byte[QUERY_HDR + |q.data|];
    body[0] := MAGIC_QUERY;
    body[1] := if (q.respLen + 7) / 8 < 255 then (q.respLen + 7) / 8 else 255;
    PutNonce(body, 2, q.nonce);
    assert body[..2] == [MAGIC_QUERY, Eighths(q.respLen)];
    assert body[..QUERY_HDR] == body[..2] + body[2..QUERY_HDR];
    for i := 0 to |q.data|
      invariant body[..QUERY_HDR] == [MAGIC_QUERY, Eighths(q.respLen)] + BigEndian(q.nonce, NONCE_BYTES)
      invariant forall k :: 0 <= k < i ==> body[QUERY_HDR + k] == q.data[k]
    {
      body[QUERY_HDR + i] := q.data[i];
    }
    assert body[..] == body[..QUERY_HDR] + q.data;
    raw := body[..] + MacSum(h, key, body[..]);
  }

  function ParseQuery(h: Hash, key: seq<Byte>, raw: seq<Byte>): Result<Query, Error> {
    if |raw| < QUERY_HDR + MAC_LEN then Err(Short)
    else if raw[0] != MAGIC_QUERY then Err(Magic)
    else
      var body, mac := raw[..|raw| - MAC_LEN], raw[|raw| - MAC_LEN..];
      if mac != MacSum(h, key, body) then Err(Mac)
      else
        var eighths: nat := body[1];
        Ok(Query(8 * eighths, FromBigEndian(body[2..8]), body[QUERY_HDR..]))
  }

  /** What a query becomes on the wire: its nonce cut to 48 bits, its wanted length rounded
      up to a multiple of 8 and cut to 2040. */
  function WireQuery(q: Query): Query {
    Query(8 * Eighths(q.respLen), q.nonce % 0x1_0000_0000_0000, q.data)
  }

  lemma QueryBodyParts(q: Query)
    ensures var b := QueryBody(q);
      && |b| == QUERY_HDR + |q.data| && b[0] == MAGIC_QUERY && b[1] == Eighths(q.respLen)
      && b[2..8] == BigEndian(q.nonce, NONCE_BYTES) && b[8..] == q.data
  {
  }

  lemma Joined(b: seq<Byte>, m: seq<Byte>)
    requires |m| == MAC_LEN
    ensures var raw := b + m; raw[..|raw| - MAC_LEN] == b && raw[|raw| - MAC_LEN..] == m
  {
  }

  /** A query survives the wire as WireQuery says, which is as it was exactly when its
      nonce is of 48 bits and its wanted length a multiple of 8 up to 2040; and it never
      asks for less than was wanted exactly when that was at most 2040. */
  lemma QueryRoundTrip(h: Hash, key: seq<Byte>, q: Query)
    ensures ParseQuery(h, key, MarshalQuery(h, key, q)) == Ok(WireQuery(q))
    ensures WireQuery(q) == q <==> q.nonce < 0x1_0000_0000_0000 && q.respLen % 8 == 0 && q.respLen <= 2040
    ensures q.respLen <= WireQuery(q).respLen <==> q.respLen <= 2040
  {
    QueryBodyParts(q);
    Joined(QueryBody(q), MacSum(h, key, QueryBody(q)));
    NonceBack(q.nonce);
  }

  /** Nothing else is accepted: a message that parses is the one its query marshals to. */
  lemma QueryCanonical(h: Hash, key: seq<Byte>, raw: seq<Byte>)
    requires ParseQuery(h, key, raw).Ok?
    ensures MarshalQuery(h, key, ParseQuery(h, key, raw).value) == raw
  {
    var q := ParseQuery(h, key, raw).value;
    var body := raw[..|raw| - MAC_LEN];
    FromBigEndianBack(body[2..8]);
    assert body == [body[0], body[1]] + body[2..8] + body[8..];
    assert Eighths(q.respLen) == body[1];
    assert QueryBody(q) == body;
    assert raw == body + raw[|raw| - MAC_LEN..];
  }

  // ---------------------------------------------------------------------------
  // Responses
  // ---------------------------------------------------------------------------

  datatype Response = Response(nonce: nat, qSeen: U16, inTCP: bool, data: seq<Byte>)

  function ResponseBody(r: Response): seq<Byte> {
    [if r.inTCP then MAGIC_RESP + 1 else MAGIC_RESP] + BigEndian(r.nonce, NONCE_BYTES) + BigEndian(r.qSeen, 2) + r.data
  }

  function MarshalResponse(h: Hash, key: seq<Byte>, r: Response): seq<Byte> {
    ResponseBody(r) + MacSum(h, key, ResponseBody(r))
  }

  /** The low bit of the first byte is not part of the magic. */
  function ParseResponse(h: Hash, key: seq<Byte>, raw: seq<Byte>): Result<Response, Error> {
    if |raw| < RESP_HDR + MAC_LEN then Err(Short)
    else if raw[0] / 2 * 2 != MAGIC_RESP then Err(Magic)
    else
      var body, mac := raw[..|raw| - MAC_LEN], raw[|raw| - MAC_LEN..];
      if mac != MacSum(h, key, body) then Err(Mac)
      else
        TwoBytes(body[7..9]);
        Ok(Response(FromBigEndian(body[1..7]), FromBigEndian(body[7..9]), body[0] % 2 == 1, body[RESP_HDR..]))
  }

  lemma TwoBytes(b: seq<Byte>)
    requires |b| == 2
    ensures FromBigEndian(b) < 65536
  {
    assert FromBigEndian(b[..1]) == b[0] by { assert b[..1][..0] == []; }
  }

  lemma TwoBytesBack(n: U16)
    ensures FromBigEndian(BigEndian(n, 2)) == n
  {
    BigEndianBack(n, 2);
    assert Power(256, 2) == 65536;
  }

  lemma ResponseBodyParts(r: Response)
    ensures var b := ResponseBody(r);
      && |b| == RESP_HDR + |r.data| && b[0] == (if r.inTCP then MAGIC_RESP + 1 else MAGIC_RESP)
      && b[1..7] == BigEndian(r.nonce, NONCE_BYTES) && b[7..9] == BigEndian(r.qSeen, 2) && b[9..] == r.data
  {
  }

  lemma ResponseRoundTrip(h: Hash, key: seq<Byte>, r: Response)
    ensures ParseResponse(h, key, MarshalResponse(h, key, r)) == Ok(r.(nonce := r.nonce % 0x1_0000_0000_0000))
  {
    ResponseBodyParts(r);
    Joined(ResponseBody(r), MacSum(h, key, ResponseBody(r)));
    NonceBack(r.nonce);
    TwoBytesBack(r.qSeen);
  }

  lemma ResponseCanonical(h: Hash, key: seq<Byte>, raw: seq<Byte>)
    requires ParseResponse(h, key, raw).Ok?
    ensures MarshalResponse(h, key, ParseResponse(h, key, raw).value) == raw
  {
    var r := ParseResponse(h, key, raw).value;
    var body := raw[..|raw| - MAC_LEN];
    FromBigEndianBack(body[1..7]);
    FromBigEndianBack(body[7..9]);
    assert body == [body[0]] + body[1..7] + body[7..9] + body[9..];
    assert ResponseBody(r) == body;
    assert raw == body + raw[|raw| - MAC_LEN..];
  }

  // ---------------------------------------------------------------------------
  // What fits in a name
  // ---------------------------------------------------------------------------

  /** Division as the source has it: toward zero. */
  function Div(a: int, d: int): int
    requires d > 0
  {
    if a >= 0 then a / d else 0 - (0 - a) / d
  }

  /** How much query data a name under a domain of n characters is taken to hold. */
  function MaxQueryData(n: nat): nat {
    var budget := 253 - n - 1;
    var raw := Div(Div(budget * 5, 8) * 62, 63) - (QUERY_HDR + MAC_LEN);
    if raw < 0 then 0 else raw
  }

  /** 253 characters, without the dot at the end (section 2.3.4 of RFC 1035). */
  predicate GoodLength(name: string) { |name| <= 254 }

  lemma QueryNameLength(n: nat, size: nat)
    requires 1 <= n && size <= MaxQueryData(n)
    ensures n <= 221 ==> NameLength(size + 18) + 1 + n <= 253
    ensures NameLength(size + 18) + 1 + n <= 254 <==> n <= 224
  {
    var b := 252 - n;
    if n <= 221 {
      NestedFloors(b, size + 18);
    } else {
      assert size == 0;
      assert NameLength(18) == 29;
    }
  }

  /** The two roundings of the budget make up for the rounding and the dots of the name. */
  lemma NestedFloors(b: nat, m: nat)
    requires 1 <= m <= b * 5 / 8 * 62 / 63 && b <= 252
    ensures NameLength(m) <= b
  {
    var x := b * 5 / 8;
    var c := Base32.LetterCount(m);
    assert 8 * x <= 5 * b && 63 * m <= 62 * x && 5 * c <= 8 * m + 4;
    assert 315 * c <= 310 * b + 252;
    var y := (c - 1) / 63;
    assert 63 * y <= c - 1;
  }

  /** A query of at most MaxQueryData bytes makes a legal name exactly when the domain,
      with its dot, has at most 224 characters; the labels are legal always. Under a longer
      domain not even an empty query fits, and MaxQueryData says 0 instead. */
  lemma QueryNameFits(h: Hash, key: seq<Byte>, q: Query, domain: string)
    requires |q.data| <= MaxQueryData(|Fqdn(domain)|)
    ensures GoodLength(Target(MarshalQuery(h, key, q), domain)) <==> |Fqdn(domain)| <= 224
    ensures GoodLabels(Labels(EncodedName(MarshalQuery(h, key, q))))
  {
    var raw := MarshalQuery(h, key, q);
    QueryBodyParts(q);
    QueryNameLength(|Fqdn(domain)|, |q.data|);
    EncodedNameLength(raw);
    NameLabels(raw);
  }

  /** The name codec's own ceiling. */
  function Capacity(n: nat): nat { if 255 - n - 8 < 0 then 0 else (255 - n - 8) * 5 / 8 }

  lemma CapacityLength(n: nat, size: nat)
    requires 1 <= n && 1 <= size <= Capacity(n)
    ensures NameLength(size) + 1 + n <= 251
  {
    var b := 247 - n;
    var c := Base32.LetterCount(size);
    assert c <= b;
  }

  /** A response up to the codec's capacity makes a legal name under any legal domain. */
  lemma ResponseNameFits(payload: seq<Byte>, domain: string)
    requires |payload| <= Capacity(|Fqdn(domain)|) && GoodLength(Fqdn(domain))
    ensures GoodLength(Target(payload, domain))
    ensures payload != [] ==> GoodLabels(Labels(EncodedName(payload)))
  {
    EncodedNameLength(payload);
    if payload != [] {
      CapacityLength(|Fqdn(domain)|, |payload|);
      NameLabels(payload);
    }
  }

  /** End to end: a query sent as a name, whatever letter case the resolvers make of it,
      is parsed by the responder as the query that was sent. */
  lemma QueryArrives(h: Hash, key: seq<Byte>, q: Query, domain: string, name: string)
    requires IsFqdn(Fqdn(domain)) && SameName(name, Target(MarshalQuery(h, key, q), domain))
    ensures DecodeName(name, domain).Some?
    ensures ParseQuery(h, key, DecodeName(name, domain).value) == Ok(WireQuery(q))
  {
    NameRoundTrip(MarshalQuery(h, key, q), domain, name);
    QueryRoundTrip(h, key, q);
  }

  /** The two estimates give away little: under every domain that leaves room, five bytes
      more of query data, or six more of a response, would not fit. */
  lemma EstimatesAreClose(n: nat)
    requires 1 <= n
    ensures n <= 221 ==> NameLength(MaxQueryData(n) + 18 + 5) + 1 + n > 254
    ensures n <= 254 ==> NameLength(Capacity(n) + 6) + 1 + n > 254
  {
    if n <= 221 { QueryEstimateIsClose(n, 252 - n); }
    if n <= 254 { ResponseEstimateIsClose(n); }
  }

  lemma QueryEstimateIsClose(n: nat, b: nat)
    requires 1 <= n <= 221 && b == 252 - n
    ensures NameLength(MaxQueryData(n) + 18 + 5) + 1 + n > 254
  {
    var x := b * 5 / 8;
    var r := x * 62 / 63;
    assert MaxQueryData(n) == r - 18;
    var c := Base32.LetterCount(r + 5);
    assert 8 * x >= 5 * b - 7 && 63 * r >= 62 * x - 62 && 5 * c >= 8 * r + 40;
    var y := (c - 1) / 63;
    assert 63 * y >= c - 63;
  }

  lemma ResponseEstimateIsClose(n: nat)
    requires 1 <= n <= 254
    ensures NameLength(Capacity(n) + 6) + 1 + n > 254
  {
    var s := Capacity(n);
    var c := Base32.LetterCount(s + 6);
    assert 5 * c >= 8 * s + 48;
    if n <= 247 { assert 8 * s >= 5 * (247 - n) - 7; }
  }

  /** What is refused, and why: too short, not a query, or not from a holder of the key. */
  lemma RefusalsOfQueries(h: Hash, key: seq<Byte>, raw: seq<Byte>)
    ensures ParseQuery(h, key, raw) == Err(Short) <==> |raw| < 18
    ensures ParseQuery(h, key, raw) == Err(Magic) <==> |raw| >= 18 && raw[0] != 0xB6
    ensures ParseQuery(h, key, raw) == Err(Mac) <==>
      |raw| >= 18 && raw[0] == 0xB6 && raw[|raw| - 10..] != F.Slice(h(key, raw[..|raw| - 10]), 0, 10)
  {
  }

  lemma RefusalsOfResponses(h: Hash, key: seq<Byte>, raw: seq<Byte>)
    ensures ParseResponse(h, key, raw) == Err(Short) <==> |raw| < 19
    ensures ParseResponse(h, key, raw) == Err(Magic) <==> |raw| >= 19 && raw[0] != 0xB4 && raw[0] != 0xB5
    ensures ParseResponse(h, key, raw) == Err(Mac) <==>
      |raw| >= 19 && (raw[0] == 0xB4 || raw[0] == 0xB5) && raw[|raw| - 10..] != F.Slice(h(key, raw[..|raw| - 10]), 0, 10)
  {
  }

  /** Where everything is in a message. */
  lemma Layout(q: Query, r: Response)
    ensures var b := QueryBody(q);
      |b| == 8 + |q.data| && b[0] == 0xB6 && b[2..8] == BigEndian(q.nonce, 6) && b[8..] == q.data
    ensures var b := ResponseBody(r);
      && |b| == 9 + |r.data| && b[0] == (if r.inTCP then 0xB5 else 0xB4)
      && b[1..7] == BigEndian(r.nonce, 6) && b[7..9] == BigEndian(r.qSeen, 2) && b[9..] == r.data
  {
    QueryBodyParts(q);
    ResponseBodyParts(r);
  }
}
