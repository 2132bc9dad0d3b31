/** Prefixed identifiers: `pay_<32 hex>`, `evt_<32 hex>` and so on. */
module Ids {
  import opened Wrappers
  import opened Text

  type Bytes16 = b: seq<bv8> | |b| == 16 witness [0, 0, 0, 0, 0, 0, 0, 0, 0, 0, 0, 0, 0, 0, 0, 0]

  datatype Uuid = Uuid(bytes: Bytes16)

  /** An id for examples. */
  function SmallId(n: bv8): Uuid {
    Uuid([n, 0, 0, 0, 0, 0, 0, 0, 0, 0, 0, 0, 0, 0, 0, 0])
  }

  datatype IdError = InvalidId(prefix: string, value: string)

  /** Every prefix of the source has three letters. */
  const PAYMENT: string := "pay"
  const MERCHANT: string := "mch"
  const EVENT: string := "evt"

  function AsPrefixed(prefix: string, id: Uuid): string {
    prefix + "_" + HexEncode(id.bytes)
  }

  /** The simple form, and the form with hyphens after 8, 12, 16 and 20 digits. */
  function ParseUuid(s: string): (r: Option<Uuid>) {
    var digits :=
      if |s| == 36 && s[8] == '-' && s[13] == '-' && s[18] == '-' && s[23] == '-'
      then s[..8] + s[9..13] + s[14..18] + s[19..23] + s[24..]
      else s;
    if |digits| != 32 then None
    else match HexDecode(digits)
      case Some(bytes) => Some(Uuid(bytes))
      case None => None
  }

  function ParsePrefixed(prefix: string, raw: string): (r: Result<Uuid, IdError>) {
    var expected := prefix + "_";
    if expected <= raw || |raw| == 32 || |raw| == 36 then
      match ParseUuid(if expected <= raw then raw[|expected|..] else raw)
      case Some(id) => Ok(id)
      case None => Err(InvalidId(prefix, raw))
    else Err(InvalidId(prefix, raw))
  }

  /** Parsing a printed id gives the same 128 bits back. */
  lemma PrefixedRoundTrip(prefix: string, id: Uuid)
    ensures ParsePrefixed(prefix, AsPrefixed(prefix, id)) == Ok(id)
  {
    var raw := AsPrefixed(prefix, id);
    assert raw == (prefix + "_") + HexEncode(id.bytes);
    assert raw[|prefix + "_"|..] == HexEncode(id.bytes);
    HexRoundTrip(id.bytes);
  }

  /** The form with hyphens after 8, 12, 16 and 20 digits. */
  function Hyphenated(hex: string): string
    requires |hex| == 32
  {
    hex[..8] + "-" + hex[8..12] + "-" + hex[12..16] + "-" + hex[16..20] + "-" + hex[20..]
  }

  lemma HyphenatedParses(id: Uuid)
    ensures ParseUuid(Hyphenated(HexEncode(id.bytes))) == Some(id)
  {
    var hex := HexEncode(id.bytes);
    var s := Hyphenated(hex);
    assert |s| == 36 && s[8] == '-' && s[13] == '-' && s[18] == '-' && s[23] == '-';
    assert s[..8] == hex[..8] && s[9..13] == hex[8..12] && s[14..18] == hex[12..16];
    assert s[19..23] == hex[16..20] && s[24..] == hex[20..];
    assert s[..8] + s[9..13] + s[14..18] + s[19..23] + s[24..] == hex;
    HexRoundTrip(id.bytes);
  }

  /** An id is also read without its prefix, and with hyphens. */
  lemma OtherFormsParse(prefix: string, id: Uuid)
    requires |prefix| == 3
    ensures var hex := HexEncode(id.bytes);
      && ParsePrefixed(prefix, hex) == ParsePrefixed(prefix, Hyphenated(hex)) == Ok(id)
      && ParsePrefixed(prefix, prefix + "_" + Hyphenated(hex)) == Ok(id)
  {
    var hex := HexEncode(id.bytes);
    var expected := prefix + "_";
    HexShape(id.bytes);
    HexRoundTrip(id.bytes);
    HyphenatedParses(id);
    assert expected[3] == '_' && HexValue('_').None?;
    assert hex[3] in hex && Hyphenated(hex)[3] == hex[3];
    assert (expected + Hyphenated(hex))[4..] == Hyphenated(hex);
  }

  /** An id printed for one kind of entity is never accepted as an id of another kind. */
  lemma WrongPrefixRefused(prefix: string, other: string, id: Uuid)
    requires |prefix| == |other| == 3 && prefix != other
    ensures ParsePrefixed(other, AsPrefixed(prefix, id)).Err?
  {
    var raw := AsPrefixed(prefix, id);
    assert raw[..3] == prefix && raw[3] == '_' && |raw| == 36;
    assert !(other + "_" <= raw) by {
      var expected := other + "_";
      assert expected[..3] == other;
      assert forall i :: 0 <= i < 3 ==> expected[i] == other[i];
      assert exists i :: 0 <= i < 3 && prefix[i] != other[i] by {
        assert prefix == prefix[..3] && other == other[..3];
      }
    }
    var digits := raw[..8] + raw[9..13] + raw[14..18] + raw[19..23] + raw[24..];
    assert digits[3] == '_' && HexValue(digits[3]).None?;
    if HexDecode(digits).Some? { HexDecodeSound(digits, 3); }
  }
}
