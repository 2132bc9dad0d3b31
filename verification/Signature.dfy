/**
 Webhook signatures: `t=<unix>,v1=<hex>` over `{t}.{body}`. Message bytes are
 characters below 256, so ASCII text is its own byte sequence; digest bytes are
 bit-vectors. HMAC-SHA256 (RFC 2104) is the parameter `hmac`, a function from
 secret and message to 32 bytes.
 */
module Signature {
  import opened Wrappers
  import opened Text

  datatype CryptoError = Malformed | TokenExpired | SignatureMismatch | Overflow

  type Digest = d: seq<bv8> | |d| == 32 witness seq(32, _ => 0)

  type Mac = (string, string) -> Digest

  // ----- Text -----

  predicate IsSpace(c: char) {
    c in {' ', '\t', '\n', '\r'} || c == 11 as char || c == 12 as char
  }

  function TrimStart(s: string): string {
    if s != [] && IsSpace(s[0]) then TrimStart(s[1..]) else s
  }

  function TrimEnd(s: string): string {
    if s != [] && IsSpace(s[|s| - 1]) then TrimEnd(s[..|s| - 1]) else s
  }

  function Trim(s: string): string { TrimEnd(TrimStart(s)) }

  /** `split(',')`: always at least one part. */
  function SplitCommas(s: string): (parts: seq<string>)
    ensures parts != []
  {
    if s == [] then [[]]
    else
      var rest := SplitCommas(s[1..]);
      if s[0] == ',' then [[]] + rest else [[s[0]] + rest[0]] + rest[1..]
  }

  lemma TrimClean(s: string)
    requires s != [] && !IsSpace(s[0]) && !IsSpace(s[|s| - 1])
    ensures Trim(s) == s
  {
  }

  lemma {:induction false} SplitOne(s: string)
    requires ',' !in s
    ensures SplitCommas(s) == [s]
  {
    if s != [] {
      SplitOne(s[1..]);
      assert [s[0]] + s[1..] == s;
      assert SplitCommas(s) == [[s[0]] + s[1..]] + [];
    }
  }

  lemma {:induction false} SplitTwo(a: string, b: string)
    requires ',' !in a && ',' !in b
    ensures SplitCommas(a + "," + b) == [a, b]
  {
    var s := a + "," + b;
    if a == [] {
      assert s[1..] == b;
      SplitOne(b);
    } else {
      assert s[1..] == a[1..] + "," + b;
      SplitTwo(a[1..], b);
      assert [a[1..], b][1..] == [b] && [a[0]] + a[1..] == a;
      assert SplitCommas(s) == [[a[0]] + a[1..]] + [b];
    }
  }

  // ----- The message -----

  function Message(timestamp: int, body: string): string {
    Decimal(timestamp) + "." + body
  }

  /** The signed message determines the timestamp and the body. */
  lemma MessageInjective(t: int, body: string, t': int, body': string)
    requires Message(t, body) == Message(t', body')
    ensures t == t' && body == body'
  {
    DecimalShape(t);
    DecimalShape(t');
    SplitAtFirst('.', Decimal(t), body, Decimal(t'), body');
    DecimalInjective(t, t');
  }

  method SignWebhook(hmac: Mac, secret: string, timestamp: int, body: string) returns (header: string)
    ensures header == Header(timestamp, hmac(secret, Message(timestamp, body)))
  {
    var message := Decimal(timestamp);
    message := message + ['.'];
    message := message + body;
    header := "t=" + Decimal(timestamp) + ",v1=" + HexEncode(hmac(secret, message));
  }

  function Header(timestamp: int, digest: seq<bv8>): string {
    "t=" + Decimal(timestamp) + ",v1=" + HexEncode(digest)
  }

  // ----- Reading a header -----

  datatype Fields = Fields(timestamp: Option<int>, signature: Option<string>)

  /** Later parts overwrite earlier ones; a timestamp that does not parse erases an earlier one. */
  function ReadPart(f: Fields, raw: string): Fields {
    var part := Trim(raw);
    if "t=" <= part then f.(timestamp := ParseI64(part[2..]))
    else if "v1=" <= part then f.(signature := Some(part[3..]))
    else f
  }

  function ReadParts(parts: seq<string>): Fields {
    if parts == [] then Fields(None, None)
    else ReadPart(ReadParts(parts[..|parts| - 1]), parts[|parts| - 1])
  }

  // ----- Comparing digests -----

  function XorFold(a: seq<bv8>, b: seq<bv8>): bv8
    requires |a| == |b|
  {
    if a == [] then 0 else XorFold(a[..|a| - 1], b[..|b| - 1]) | (a[|a| - 1] ^ b[|b| - 1])
  }

  lemma FoldStep(fold: bv8, x: bv8, y: bv8)
    ensures fold | (x ^ y) == 0 <==> fold == 0 && x == y
  {
  }

  /** The fold is zero exactly when the byte sequences are equal. */
  lemma {:induction false} XorFoldZero(a: seq<bv8>, b: seq<bv8>)
    requires |a| == |b|
    ensures XorFold(a, b) == 0 <==> a == b
  {
    if a != [] {
      var n := |a| - 1;
      XorFoldZero(a[..n], b[..n]);
      FoldStep(XorFold(a[..n], b[..n]), a[n], b[n]);
      assert a == a[..n] + [a[n]] && b == b[..n] + [b[n]];
    }
  }

  method VerifyHmac(hmac: Mac, secret: string, message: string, expectedHex: string) returns (r: Result<(),
        CryptoError>)
    ensures r == match HexDecode(Trim(expectedHex))
                 case None => Err(Malformed)
                 case Some(d) => if d == hmac(secret, message) then Ok(()) else Err(SignatureMismatch)
  {
    var expected := HexDecode(Trim(expectedHex));
    if expected.None? { return Err(Malformed); }
    var actual, given := hmac(secret, message), expected.value;
    if |actual| != |given| { return Err(SignatureMismatch); }
    var diff: bv8 := 0;
    var i := 0;
    while i < |actual|
      invariant 0 <= i <= |actual| == |given|
      invariant diff == XorFold(actual[..i], given[..i])
    {
      assert actual[..i + 1][..i] == actual[..i] && given[..i + 1][..i] == given[..i];
      diff := diff | (actual[i] ^ given[i]);
      i := i + 1;
    }
    assert actual[..i] == actual && given[..i] == given;
    XorFoldZero(actual, given);
    r := if diff == 0 then Ok(()) else Err(SignatureMismatch);
  }

  // ----- Verification -----

  function Abs(i: int): int { if i < 0 then -i else i }

  predicate InI64(i: int) { I64_MIN <= i <= I64_MAX }

  /** Timestamps further apart than an i64 can hold overflow in the subtraction. */
  function Judge(hmac: Mac, secret: string, f: Fields, body: string, now: int, tolerance: int): Result<(),
        CryptoError> {
    if f.timestamp.None? || f.signature.None? then Err(Malformed)
    else if !InI64(now - f.timestamp.value) || now - f.timestamp.value == I64_MIN then Err(Overflow)
    else if Abs(now - f.timestamp.value) > tolerance then Err(TokenExpired)
    else match HexDecode(Trim(f.signature.value))
      case None => Err(Malformed)
      case Some(d) => if d == hmac(secret, Message(f.timestamp.value, body)) then Ok(()) else Err(SignatureMismatch)
  }

  method VerifyWebhook(hmac: Mac, secret: string, header: string, body: string, now: int, tolerance: int)
    returns (r: Result<(), CryptoError>)
    ensures r == Judge(hmac, secret, ReadParts(SplitCommas(header)), body, now, tolerance)
  {
    var timestamp: Option<int> := None;
    var signature: Option<string> := None;
    var parts := SplitCommas(header);
    var i := 0;
    while i < |parts|
      invariant 0 <= i <= |parts|
      invariant Fields(timestamp, signature) == ReadParts(parts[..i])
    {
      assert parts[..i + 1][..i] == parts[..i];
      var part := Trim(parts[i]);
      if "t=" <= part {
        timestamp := ParseI64(part[2..]);
      } else if "v1=" <= part {
        signature := Some(part[3..]);
      }
      i := i + 1;
    }
    assert parts[..i] == parts;
    if timestamp.None? || signature.None? { return Err(Malformed); }
    var ts := timestamp.value;
    if !InI64(now - ts) || now - ts == I64_MIN { return Err(Overflow); }
    if Abs(now - ts) > tolerance { return Err(TokenExpired); }
    var message := Decimal(ts);
    message := message + ['.'];
    message := message + body;
    assert message == Message(ts, body);
    r := VerifyHmac(hmac, secret, message, signature.value);
  }

  // ----- The round trip -----

  lemma TimestampPart(f: Fields, timestamp: int)
    requires InI64(timestamp)
    ensures ReadPart(f, "t=" + Decimal(timestamp)) == f.(timestamp := Some(timestamp))
  {
    var part := "t=" + Decimal(timestamp);
    DecimalShape(timestamp);
    assert part[|part| - 1] in Decimal(timestamp);
    TrimClean(part);
    assert part[2..] == Decimal(timestamp);
    DecimalRoundTrip(timestamp);
  }

  lemma SignaturePart(f: Fields, hex: string)
    requires hex != [] && forall c :: c in hex ==> HexValue(c).Some?
    ensures ReadPart(f, "v1=" + hex) == f.(signature := Some(hex))
  {
    var part := "v1=" + hex;
    HexNotSpace(hex);
    TrimClean(part);
    assert part[3..] == hex && part[0] == 'v';
  }

  lemma HeaderReadsBack(timestamp: int, digest: seq<bv8>)
    requires InI64(timestamp) && digest != []
    ensures ReadParts(SplitCommas(Header(timestamp, digest))) == Fields(Some(timestamp), Some(HexEncode(digest)))
  {
    hide ReadPart, HexEncode, Decimal;
    var a, b := "t=" + Decimal(timestamp), "v1=" + HexEncode(digest);
    HexShape(digest);
    HeaderParts(timestamp, digest);
    TimestampPart(Fields(None, None), timestamp);
    SignaturePart(Fields(Some(timestamp), None), HexEncode(digest));
    assert [a, b][..1] == [a] && [a][..0] == [];
    assert ReadParts([a]) == ReadPart(Fields(None, None), a);
  }

  lemma HeaderParts(timestamp: int, digest: seq<bv8>)
    ensures SplitCommas(Header(timestamp, digest)) == ["t=" + Decimal(timestamp), "v1=" + HexEncode(digest)]
  {
    hide HexEncode, Decimal;
    var a, b := "t=" + Decimal(timestamp), "v1=" + HexEncode(digest);
    DecimalShape(timestamp);
    HexShape(digest);
    assert ',' !in Decimal(timestamp) && ',' !in HexEncode(digest);
    assert Header(timestamp, digest) == a + "," + b;
    SplitTwo(a, b);
  }

  lemma HexNotSpace(s: string)
    requires s != [] && forall c :: c in s ==> HexValue(c).Some?
    ensures !IsSpace(s[|s| - 1]) && !IsSpace(s[0])
  {
    assert s[0] in s && s[|s| - 1] in s;
  }

  /** A freshly signed webhook verifies exactly when its timestamp is within the tolerance. */
  lemma FreshlySignedVerifiesIff(hmac: Mac, secret: string, body: string, timestamp: int, now: int, tolerance: int)
    requires InI64(timestamp) && InI64(tolerance)
    ensures var header := Header(timestamp, hmac(secret, Message(timestamp, body)));
      Judge(hmac, secret, ReadParts(SplitCommas(header)), body, now, tolerance) == Ok(())
      <==> Abs(now - timestamp) <= tolerance
  {
    var digest := hmac(secret, Message(timestamp, body));
    HeaderReadsBack(timestamp, digest);
    HexShape(digest);
    HexNotSpace(HexEncode(digest));
    TrimClean(HexEncode(digest));
    HexRoundTrip(digest);
  }

  /**
   A signature made for one time and body is accepted for no other, unless the two messages have one MAC: whoever is
   accepted otherwise has found a collision.
   */
  lemma SignatureBindsMessage(hmac: Mac, secret: string, t: int, body: string, f: Fields, other: string, now: int,
      tolerance: int)
    requires f.signature == Some(HexEncode(hmac(secret, Message(t, body))))
    requires Judge(hmac, secret, f, other, now, tolerance) == Ok(())
    ensures f.timestamp.Some?
    ensures (f.timestamp == Some(t) && other == body)
      || (Message(f.timestamp.value, other) != Message(t, body)
          && hmac(secret, Message(f.timestamp.value, other)) == hmac(secret, Message(t, body)))
  {
    var digest := hmac(secret, Message(t, body));
    HexShape(digest);
    HexNotSpace(HexEncode(digest));
    TrimClean(HexEncode(digest));
    HexRoundTrip(digest);
    if Message(f.timestamp.value, other) == Message(t, body) {
      MessageInjective(t, body, f.timestamp.value, other);
    }
  }

  // ----- Verdicts -----

  /**
   What a receiver says to a header made for one body when it comes with any body: it looks at the clock first, and then
   at nothing but the two codes. A header made for the body itself is accepted exactly within the tolerance.
   */
  lemma SignedVerdict(hmac: Mac, secret: string, body: string, other: string, timestamp: int, now: int, tolerance: int)
    requires InI64(timestamp) && InI64(tolerance)
    ensures var header := "t=" + Decimal(timestamp) + ",v1=" + HexEncode(hmac(secret, Decimal(timestamp) + "." + body));
      Judge(hmac, secret, ReadParts(SplitCommas(header)), other, now, tolerance)
      == if now - timestamp <= I64_MIN || now - timestamp > I64_MAX then Err(Overflow)
         else if now - timestamp > tolerance || timestamp - now > tolerance then Err(TokenExpired)
         else if hmac(secret, Decimal(timestamp) + "." + other) == hmac(secret, Decimal(timestamp) + "." + body)
         then Ok(()) else Err(SignatureMismatch)
  {
    hide HexEncode, Decimal, ReadParts, SplitCommas;
    var digest := hmac(secret, Decimal(timestamp) + "." + body);
    HeaderReadsBack(timestamp, digest);
    HexShape(digest);
    HexNotSpace(HexEncode(digest));
    TrimClean(HexEncode(digest));
    HexRoundTrip(digest);
  }

  /** Blanks after the comma do not matter. */
  lemma SpacedHeaderReadsBack(timestamp: int, digest: seq<bv8>)
    requires InI64(timestamp) && digest != []
    ensures ReadParts(SplitCommas("t=" + Decimal(timestamp) + ", " + "v1=" + HexEncode(digest)))
      == Fields(Some(timestamp), Some(HexEncode(digest)))
  {
    hide HexEncode, Decimal;
    var a, b := "t=" + Decimal(timestamp), "v1=" + HexEncode(digest);
    var spaced := " " + b;
    DecimalShape(timestamp);
    HexShape(digest);
    assert ',' !in Decimal(timestamp) && ',' !in HexEncode(digest);
    assert "t=" + Decimal(timestamp) + ", " + "v1=" + HexEncode(digest) == a + "," + spaced;
    SplitTwo(a, spaced);
    TimestampPart(Fields(None, None), timestamp);
    SignaturePart(Fields(Some(timestamp), None), HexEncode(digest));
    SpaceIsTrimmed(b, HexEncode(digest));
    assert [a, spaced][..1] == [a] && [a][..0] == [];
    assert ReadParts([a]) == ReadPart(Fields(None, None), a);
  }

  lemma SpaceIsTrimmed(b: string, hex: string)
    requires b == "v1=" + hex && hex != [] && forall c :: c in hex ==> HexValue(c).Some?
    ensures Trim(" " + b) == Trim(b)
  {
    assert (" " + b)[1..] == b;
  }

  /** Without a part that names a time, or without one that names a code, a header is malformed. */
  lemma MissingPartIsMalformed(hmac: Mac, secret: string, parts: seq<string>, body: string, now: int, tolerance: int)
    requires (forall p :: p in parts ==> !("t=" <= Trim(p))) || (forall p :: p in parts ==> !("v1=" <= Trim(p)))
    ensures Judge(hmac, secret, ReadParts(parts), body, now, tolerance) == Err(Malformed)
  {
    NothingRead(parts);
  }

  lemma {:induction false} NothingRead(parts: seq<string>)
    ensures (forall p :: p in parts ==> !("t=" <= Trim(p))) ==> ReadParts(parts).timestamp.None?
    ensures (forall p :: p in parts ==> !("v1=" <= Trim(p))) ==> ReadParts(parts).signature.None?
  {
    hide Trim;
    if parts != [] {
      var n := |parts| - 1;
      NothingRead(parts[..n]);
      assert parts[n] in parts && forall p :: p in parts[..n] ==> p in parts;
    }
  }

  /** A code that is no hexadecimal text is malformed, once the clock has been looked at. */
  lemma BadHexIsMalformed(hmac: Mac, secret: string, t: int, hex: string, body: string, now: int, tolerance: int)
    requires InI64(now - t) && now - t != I64_MIN && -tolerance <= now - t <= tolerance && HexDecode(Trim(hex)).None?
    ensures Judge(hmac, secret, Fields(Some(t), Some(hex)), body, now, tolerance) == Err(Malformed)
  {
  }
}
